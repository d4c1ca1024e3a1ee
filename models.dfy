/**
 * The inventory service's table of pooled IPs, `cmd/cloud-provider-manager/models`.
 *
 * The `loadbalances` table is a sequence of rows in primary-key order, so gorm's `First`
 * is the first matching row. Timestamps are abstract instants passed in by the caller, and
 * whether `db.Save` fails is an oracle.
 */
module Models {
  import opened Errors

  /** One row of the `loadbalances` table (`models.LoadBalance`). */
  datatype Record = Record(
    id: int,
    cluster: string,
    ip: string,
    carriers: int,
    status: int,
    cidr: string,
    namespace: string,
    serviceName: string,
    createdAt: int,
    updatedAt: int)

  const StatusFree := 0
  const StatusBound := 1
  const RecordNotFound := "record not found"
  const IpHasBeenBound := "ip has been bound"

  /** A table after an operation, with the operation's return value. */
  datatype Step<T> = Step(rows: seq<Record>, result: T)

  /** Rows are stored in increasing primary-key order, so keys are unique. */
  ghost predicate IdsAscending(rows: seq<Record>) {
    forall i, j :: 0 <= i < j < |rows| ==> rows[i].id < rows[j].id
  }

  /** The intended table invariant: a record is bound exactly when it has an owner. */
  ghost predicate Owned(rows: seq<Record>) {
    forall i :: 0 <= i < |rows| ==>
      (rows[i].status == StatusBound <==> rows[i].namespace != "" && rows[i].serviceName != "")
  }

  /** The index of the first row satisfying `p`: what `Where(...).First` selects. */
  function FirstWhere(rows: seq<Record>, p: Record -> bool): (r: Option<nat>)
    ensures r.Some? ==> r.value < |rows| && p(rows[r.value])
    ensures r.Some? ==> forall j :: 0 <= j < r.value ==> !p(rows[j])
    ensures r.None? ==> forall j :: 0 <= j < |rows| ==> !p(rows[j])
  {
    if rows == [] then None
    else if p(rows[0]) then Some(0)
    else match FirstWhere(rows[1..], p)
      case None => None
      case Some(i) => Some(i + 1)
  }

  /** Row `i` is the first row holding `ip`. */
  ghost predicate FirstWithIp(rows: seq<Record>, ip: string, i: int) {
    0 <= i < |rows| && rows[i].ip == ip && forall j :: 0 <= j < i ==> rows[j].ip != ip
  }

  /** Row `i` is the first row owned by Service `name` in `namespace`. */
  ghost predicate FirstOwnedBy(rows: seq<Record>, name: string, namespace: string, i: int) {
    && 0 <= i < |rows| && rows[i].serviceName == name && rows[i].namespace == namespace
    && forall j :: 0 <= j < i ==> !(rows[j].serviceName == name && rows[j].namespace == namespace)
  }

  function IndexByIp(rows: seq<Record>, ip: string): Option<nat> {
    FirstWhere(rows, (rec: Record) => rec.ip == ip)
  }

  function IndexByService(rows: seq<Record>, name: string, namespace: string): Option<nat> {
    FirstWhere(rows, (rec: Record) => rec.serviceName == name && rec.namespace == namespace)
  }

  lemma IndexByIpIsFirst(rows: seq<Record>, ip: string)
    ensures IndexByIp(rows, ip).Some? ==> FirstWithIp(rows, ip, IndexByIp(rows, ip).value)
    ensures IndexByIp(rows, ip).None? ==> forall j :: 0 <= j < |rows| ==> rows[j].ip != ip
  {
    var p := (rec: Record) => rec.ip == ip;
    var r := FirstWhere(rows, p);
    assert forall j :: 0 <= j < |rows| ==> (p(rows[j]) <==> rows[j].ip == ip);
  }

  lemma IndexByServiceIsFirst(rows: seq<Record>, name: string, namespace: string)
    ensures IndexByService(rows, name, namespace).Some? ==>
              FirstOwnedBy(rows, name, namespace, IndexByService(rows, name, namespace).value)
    ensures IndexByService(rows, name, namespace).None? ==>
              forall j :: 0 <= j < |rows| ==> !(rows[j].serviceName == name && rows[j].namespace == namespace)
  {
    var p := (rec: Record) => rec.serviceName == name && rec.namespace == namespace;
    assert forall j :: 0 <= j < |rows| ==>
      (p(rows[j]) <==> rows[j].serviceName == name && rows[j].namespace == namespace);
  }

  /** `GetByIp`: the row with the smallest key among those holding `ip`. */
  function GetByIp(rows: seq<Record>, ip: string): (r: Result<Record>)
    ensures r.Err? <==> forall j :: 0 <= j < |rows| ==> rows[j].ip != ip
    ensures r.Err? ==> r.error == RecordNotFound
    ensures r.Ok? ==> r.value in rows && r.value.ip == ip
    ensures r.Ok? && IdsAscending(rows) ==>
              forall j :: 0 <= j < |rows| && rows[j].ip == ip ==> r.value.id <= rows[j].id
  {
    IndexByIpIsFirst(rows, ip);
    match IndexByIp(rows, ip)
    case None => Err(RecordNotFound)
    case Some(i) => Ok(rows[i])
  }

  /** `GetByService`: the row with the smallest key among those owned by the Service. */
  function GetByService(rows: seq<Record>, name: string, namespace: string): (r: Result<Record>)
    ensures r.Err? <==> forall j :: 0 <= j < |rows| ==> !(rows[j].serviceName == name && rows[j].namespace == namespace)
    ensures r.Err? ==> r.error == RecordNotFound
    ensures r.Ok? ==> r.value in rows && r.value.serviceName == name && r.value.namespace == namespace
    ensures r.Ok? && IdsAscending(rows) ==>
              forall j :: 0 <= j < |rows| && rows[j].serviceName == name && rows[j].namespace == namespace ==>
                r.value.id <= rows[j].id
  {
    IndexByServiceIsFirst(rows, name, namespace);
    match IndexByService(rows, name, namespace)
    case None => Err(RecordNotFound)
    case Some(i) => Ok(rows[i])
  }

  /** `db.Save` of a row read from the table: overwrites the row with the same primary key. */
  function SaveById(rows: seq<Record>, rec: Record): (r: seq<Record>)
    ensures |r| == |rows|
  {
    seq(|rows|, j requires 0 <= j < |rows| => if rows[j].id == rec.id then rec else rows[j])
  }

  /** With unique keys, saving a row overwrites exactly that row. */
  lemma SaveAt(rows: seq<Record>, i: int, rec: Record)
    requires IdsAscending(rows) && 0 <= i < |rows| && rec.id == rows[i].id
    ensures SaveById(rows, rec) == rows[i := rec]
    ensures IdsAscending(rows[i := rec])
  {
    forall j | 0 <= j < |rows| ensures SaveById(rows, rec)[j] == rows[i := rec][j] {
      if j < i { assert rows[j].id < rows[i].id; }
      if i < j { assert rows[i].id < rows[j].id; }
    }
  }

  /** The row as `Bind` leaves it: bound to the requester, stamped `now`. */
  function BoundTo(rec: Record, m: Record, now: int): Record {
    rec.(updatedAt := now, status := StatusBound, namespace := m.namespace, serviceName := m.serviceName)
  }

  /** The row as `Released` leaves it: free, without owner, stamped `now`. */
  function FreedAt(rec: Record, now: int): Record {
    rec.(namespace := "", serviceName := "", status := StatusFree, updatedAt := now)
  }

  /**
   * `Bind` when `Save` succeeds: the first row holding the requested IP, unless already bound,
   * takes the requester's namespace and service name; every other field of the request is ignored.
   */
  function BindTable(rows: seq<Record>, m: Record, now: int): (s: Step<Result<Record>>)
    ensures (forall j :: 0 <= j < |rows| ==> rows[j].ip != m.ip) ==> s == Step(rows, Err(RecordNotFound))
    ensures forall i :: FirstWithIp(rows, m.ip, i) && rows[i].status == StatusBound ==>
              s == Step(rows, Err(IpHasBeenBound))
    ensures forall i :: FirstWithIp(rows, m.ip, i) && rows[i].status != StatusBound ==>
              && s.rows == rows[i := rows[i].(status := StatusBound, namespace := m.namespace,
                                              serviceName := m.serviceName, updatedAt := now)]
              && s.result == Ok(s.rows[i])
  {
    IndexByIpIsFirst(rows, m.ip);
    match IndexByIp(rows, m.ip)
    case None => Step(rows, Err(RecordNotFound))
    case Some(i) =>
      if rows[i].status == StatusBound then Step(rows, Err(IpHasBeenBound))
      else Step(rows[i := BoundTo(rows[i], m, now)], Ok(BoundTo(rows[i], m, now)))
  }

  /**
   * `Released` when `Save` succeeds: the first row owned by the named Service loses its owner
   * and becomes free.
   */
  function ReleasedTable(rows: seq<Record>, m: Record, now: int): (s: Step<Outcome>)
    ensures (forall j :: 0 <= j < |rows| ==>
               !(rows[j].serviceName == m.serviceName && rows[j].namespace == m.namespace)) ==>
              s == Step(rows, Failure(RecordNotFound))
    ensures forall i :: FirstOwnedBy(rows, m.serviceName, m.namespace, i) ==>
              && s.result == Success
              && s.rows == rows[i := rows[i].(namespace := "", serviceName := "", status := StatusFree,
                                              updatedAt := now)]
  {
    IndexByServiceIsFirst(rows, m.serviceName, m.namespace);
    match IndexByService(rows, m.serviceName, m.namespace)
    case None => Step(rows, Failure(RecordNotFound))
    case Some(i) => Step(rows[i := FreedAt(rows[i], now)], Success)
  }

  /** Binding to a non-empty owner keeps "bound iff owned". */
  lemma BindKeepsOwned(rows: seq<Record>, m: Record, now: int)
    requires Owned(rows)
    requires m.namespace != "" && m.serviceName != ""
    ensures Owned(BindTable(rows, m, now).rows)
  {
    IndexByIpIsFirst(rows, m.ip);
  }

  /** Releasing keeps "bound iff owned". */
  lemma ReleasedKeepsOwned(rows: seq<Record>, m: Record, now: int)
    requires Owned(rows)
    ensures Owned(ReleasedTable(rows, m, now).rows)
  {
    IndexByServiceIsFirst(rows, m.serviceName, m.namespace);
  }

  /** Neither operation changes keys, so the table stays in key order. */
  lemma StepsKeepIdsAscending(rows: seq<Record>, m: Record, now: int)
    requires IdsAscending(rows)
    ensures IdsAscending(BindTable(rows, m, now).rows)
    ensures IdsAscending(ReleasedTable(rows, m, now).rows)
  {
    IndexByIpIsFirst(rows, m.ip);
    IndexByServiceIsFirst(rows, m.serviceName, m.namespace);
  }

  /**
   * Binding a free IP and then releasing the same Service, when it holds no other row,
   * frees that row again, leaves every other row as it was, and makes the IP bindable again.
   */
  lemma BindThenReleased(rows: seq<Record>, m: Record, i: int, now1: int, now2: int, again: Record, now3: int)
    requires FirstWithIp(rows, m.ip, i) && rows[i].status != StatusBound
    requires forall j :: 0 <= j < |rows| && j != i ==>
               !(rows[j].serviceName == m.serviceName && rows[j].namespace == m.namespace)
    requires again.ip == m.ip
    ensures var bound := BindTable(rows, m, now1);
            var freed := ReleasedTable(bound.rows, m, now2);
            && bound.result.Ok?
            && freed.result == Success
            && |freed.rows| == |rows|
            && freed.rows[i] == rows[i].(status := StatusFree, namespace := "", serviceName := "", updatedAt := now2)
            && (forall j :: 0 <= j < |rows| && j != i ==> freed.rows[j] == rows[j])
            && BindTable(freed.rows, again, now3).result.Ok?
  {
    var bound := BindTable(rows, m, now1);
    assert bound.rows == rows[i := BoundTo(rows[i], m, now1)];
    assert FirstOwnedBy(bound.rows, m.serviceName, m.namespace, i);
    var freed := ReleasedTable(bound.rows, m, now2);
    assert freed.rows == bound.rows[i := FreedAt(bound.rows[i], now2)];
    assert FirstWithIp(freed.rows, again.ip, i);
  }

  /** The `loadbalances` table, updated in place by `Bind` and `Released`. */
  class Table {
    var rows: seq<Record>

    ghost predicate Valid()
      reads this
    {
      IdsAscending(rows)
    }

    constructor (rows: seq<Record>)
      requires IdsAscending(rows)
      ensures Valid() && this.rows == rows
    {
      this.rows := rows;
    }

    /**
     * `Bind`: looks the IP up, refuses a bound row, then overwrites the owner and saves the row.
     * `saveError` is what `db.Save` returns.
     */
    method Bind(m: Record, now: int, saveError: Option<string>) returns (r: Result<Record>)
      requires Valid()
      modifies this
      ensures Valid()
      ensures var s := BindTable(old(rows), m, now);
              if s.result.Ok? && saveError.Some? then r == Err(saveError.value) && rows == old(rows)
              else r == s.result && rows == s.rows
    {
      IndexByIpIsFirst(rows, m.ip);
      var found := GetByIp(rows, m.ip);
      if found.Err? {
        return Err(found.error);
      }
      var obj := found.value;
      if obj.status == StatusBound {
        return Err(IpHasBeenBound);
      }
      obj := obj.(updatedAt := now);
      obj := obj.(status := StatusBound);
      obj := obj.(namespace := m.namespace);
      obj := obj.(serviceName := m.serviceName);
      if saveError.Some? {
        return Err(saveError.value);
      }
      SaveAt(rows, IndexByIp(rows, m.ip).value, obj);
      rows := SaveById(rows, obj);
      r := Ok(obj);
    }

    /** `Released`: looks the owner up, clears it, marks the row free and saves it. */
    method Released(m: Record, now: int, saveError: Option<string>) returns (r: Outcome)
      requires Valid()
      modifies this
      ensures Valid()
      ensures var s := ReleasedTable(old(rows), m, now);
              if s.result.Success? && saveError.Some? then r == Failure(saveError.value) && rows == old(rows)
              else r == s.result && rows == s.rows
    {
      IndexByServiceIsFirst(rows, m.serviceName, m.namespace);
      var found := GetByService(rows, m.serviceName, m.namespace);
      if found.Err? {
        return Failure(found.error);
      }
      var obj := found.value;
      obj := obj.(namespace := "");
      obj := obj.(serviceName := "");
      obj := obj.(status := StatusFree);
      obj := obj.(updatedAt := now);
      if saveError.Some? {
        return Failure(saveError.value);
      }
      SaveAt(rows, IndexByService(rows, m.serviceName, m.namespace).value, obj);
      rows := SaveById(rows, obj);
      r := Success;
    }
  }
}
