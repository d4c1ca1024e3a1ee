/**
 * The allocation client of the load-balance controller, `pkg/cloudprovider/sdk`: the
 * in-memory pool of free IP records (`serviceCache`) and the client that talks to the
 * external inventory service (`LoadBalanceClient`).
 *
 * The HTTP client is not modelled: a POST is an oracle `Transport` from (url, body) to the
 * response envelope, and the result of the `list` GET is passed in as a value.
 */
module Sdk {
  import opened Errors

  /** One allocation record as the inventory service sends it (`sdk.LoadBalance`). */
  datatype LoadBalance = LoadBalance(
    cluster: string,
    ip: string,
    carriers: int,
    status: int,
    cidr: string,
    namespace: string,
    serviceName: string)

  /** Endpoint URLs of the inventory service, from the controller's configuration file. */
  datatype LoadBalanceSet = LoadBalanceSet(bind: string, released: string, list: string)

  datatype LoadBalanceConfig = LoadBalanceConfig(loadBalanceSet: LoadBalanceSet, region: string)

  /** What one POST yields: a transport error, or the decoded `{code, message}` envelope. */
  datatype Response = TransportError(err: string) | Envelope(code: int, message: string)

  /** The HTTP POST, as an oracle from (url, request body) to the response. */
  type Transport = (string, LoadBalance) -> Response

  const SuccessCode := 200
  const NoAvailableIpByCache := "no available ip by cache"
  const NoAvailableIp := "no available ip"

  /** Translates a POST response into the client's error return. */
  function CheckResponse(resp: Response): Outcome {
    match resp
    case TransportError(err) => Failure(err)
    case Envelope(code, message) => if code != SuccessCode then Failure(message) else Success
  }

  // ---------------------------------------------------------------------------
  // Specification of the cache operations

  /** The keys at which Go's `range` over `m` can leave `lastKey`: any key, or "" when `m` is empty. */
  predicate CanEndAt(m: map<string, LoadBalance>, k: string) {
    k in m || (m == map[] && k == "")
  }

  /** The result of `pop` and the cache it leaves behind. */
  datatype Popped = Popped(result: Result<string>, entries: map<string, LoadBalance>)

  /** `pop` when the iteration over the map ended on key `k`. */
  function PopAt(m: map<string, LoadBalance>, k: string): (p: Popped)
    requires CanEndAt(m, k)
    ensures k == "" ==> p.result == Err(NoAvailableIpByCache) && p.entries == m
    ensures k != "" ==> p.result == Ok(m[k].ip)
    ensures k != "" ==> p.entries.Keys == m.Keys - {k}
    ensures forall j :: j in p.entries ==> j in m && p.entries[j] == m[j]
  {
    if k == "" then Popped(Err(NoAvailableIpByCache), m)
    else Popped(Ok(m[k].ip), m - {k})
  }

  /** `pop` may turn cache `before` into `after` with result `r`, for some iteration order. */
  ghost predicate PopAllowed(before: map<string, LoadBalance>, after: map<string, LoadBalance>, r: Result<string>) {
    exists k :: CanEndAt(before, k) && PopAt(before, k) == Popped(r, after)
  }

  /** What every run of `pop` does, whatever order the map is iterated in. */
  lemma PopOutcomes(before: map<string, LoadBalance>, after: map<string, LoadBalance>, r: Result<string>)
    requires PopAllowed(before, after, r)
    ensures before == map[] ==> r == Err(NoAvailableIpByCache) && after == before
    ensures r.Err? ==> r.error == NoAvailableIpByCache && after == before
    ensures r.Err? ==> before == map[] || "" in before
    ensures r.Ok? ==> exists k :: k in before && k != "" && r.value == before[k].ip && after == before - {k}
  {
    var k :| CanEndAt(before, k) && PopAt(before, k) == Popped(r, after);
    if k != "" {
      assert after == before - {k};
    }
  }

  /** Every non-"" key is a possible choice of `pop`, and a cache without key "" never fails to pop. */
  lemma PopMayTakeAnyKey(before: map<string, LoadBalance>, k: string)
    requires k in before && k != ""
    ensures PopAllowed(before, before - {k}, Ok(before[k].ip))
    ensures "" !in before ==> forall after, r :: PopAllowed(before, after, r) ==> r.Ok?
  {
    assert PopAt(before, k) == Popped(Ok(before[k].ip), before - {k});
    forall after, r | PopAllowed(before, after, r) ensures "" !in before ==> r.Ok? {
      PopOutcomes(before, after, r);
    }
  }

  /** The IPs of a listing. */
  function ListedIps(s: seq<LoadBalance>): set<string> {
    set i | 0 <= i < |s| :: s[i].ip
  }

  /** No later record of `s` has the IP of `s[i]`. */
  predicate LastWithIp(s: seq<LoadBalance>, i: int)
    requires 0 <= i < |s|
  {
    forall j :: i < j < |s| ==> s[j].ip != s[i].ip
  }

  /** Every entry of the cache is stored under its own IP. */
  predicate KeyedByIp(m: map<string, LoadBalance>) {
    forall k :: k in m ==> m[k].ip == k
  }

  /**
   * The cache after `WaitForCacheSync` has `set` every record of listing `s` in order,
   * each record stored as its own value.
   */
  function Warm(m: map<string, LoadBalance>, s: seq<LoadBalance>): (r: map<string, LoadBalance>)
    ensures r.Keys == m.Keys + ListedIps(s)
    decreases |s|
  {
    if s == [] then m
    else
      ListedIpsSnoc(s);
      Warm(m, s[..|s| - 1])[s[|s| - 1].ip := s[|s| - 1]]
  }

  /** Keys that were cached but are not listed keep their records. */
  lemma {:induction false} WarmKeepsUnlisted(m: map<string, LoadBalance>, s: seq<LoadBalance>, k: string)
    requires k in m && k !in ListedIps(s)
    ensures Warm(m, s)[k] == m[k]
    decreases |s|
  {
    if s != [] {
      ListedIpsSnoc(s);
      WarmKeepsUnlisted(m, s[..|s| - 1], k);
    }
  }

  /** A listed IP holds the last listed record with that IP. */
  lemma {:induction false} WarmStoresLast(m: map<string, LoadBalance>, s: seq<LoadBalance>, i: int)
    requires 0 <= i < |s| && LastWithIp(s, i)
    ensures Warm(m, s)[s[i].ip] == s[i]
    decreases |s|
  {
    if i < |s| - 1 {
      var init := s[..|s| - 1];
      assert s[|s| - 1].ip != s[i].ip;
      assert init[i] == s[i];
      assert LastWithIp(init, i) by {
        forall j | i < j < |init| ensures init[j].ip != init[i].ip {
          assert init[j] == s[j];
        }
      }
      WarmStoresLast(m, init, i);
    }
  }

  /** A cache whose records sit under their own IPs stays so after the sync. */
  lemma {:induction false} WarmKeyedByIp(m: map<string, LoadBalance>, s: seq<LoadBalance>)
    requires KeyedByIp(m)
    ensures KeyedByIp(Warm(m, s))
    decreases |s|
  {
    if s != [] {
      WarmKeyedByIp(m, s[..|s| - 1]);
    }
  }

  lemma ListedIpsSnoc(s: seq<LoadBalance>)
    requires |s| > 0
    ensures ListedIps(s) == ListedIps(s[..|s| - 1]) + {s[|s| - 1].ip}
  {
    var init := s[..|s| - 1];
    assert forall i :: 0 <= i < |init| ==> init[i] == s[i];
    forall k | k in ListedIps(s) ensures k in ListedIps(init) + {s[|s| - 1].ip} {
      var i :| 0 <= i < |s| && s[i].ip == k;
      if i < |s| - 1 { assert init[i].ip == k; }
    }
  }

  /**
   * The cache `WaitForCacheSync` builds when every `&data` aliases the single loop variable
   * (Go before 1.22): each listed IP maps to the last record of the listing.
   */
  function WarmShared(m: map<string, LoadBalance>, s: seq<LoadBalance>): (r: map<string, LoadBalance>)
    ensures r.Keys == m.Keys + ListedIps(s)
    ensures forall k :: k in ListedIps(s) ==> r[k] == s[|s| - 1]
    ensures forall k :: k in m && k !in ListedIps(s) ==> r[k] == m[k]
  {
    map k | k in m.Keys + ListedIps(s) :: if k in ListedIps(s) then s[|s| - 1] else m[k]
  }

  /** With aliased entries, two pops of a two-record listing hand out the same IP twice. */
  lemma AliasedCacheRepeatsIp(a: LoadBalance, b: LoadBalance)
    requires a.ip != "" && b.ip != "" && a.ip != b.ip
    ensures var w := WarmShared(map[], [a, b]);
            && a.ip in w
            && var first := PopAt(w, a.ip);
            && first.result == Ok(b.ip)
            && b.ip in first.entries
            && PopAt(first.entries, b.ip).result == Ok(b.ip)
  {
    var s := [a, b];
    assert s[0].ip == a.ip && s[1].ip == b.ip;
    assert a.ip in ListedIps(s) && b.ip in ListedIps(s);
  }

  /** With per-record values, successive pops of a synced cache hand out different IPs. */
  lemma SyncedPopsDiffer(s: seq<LoadBalance>, k1: string, k2: string)
    requires k1 != "" && k1 in Warm(map[], s)
    requires k2 != "" && CanEndAt(PopAt(Warm(map[], s), k1).entries, k2)
    ensures var first := PopAt(Warm(map[], s), k1);
            && first.result == Ok(k1)
            && PopAt(first.entries, k2).result == Ok(k2)
            && k1 != k2
  {
    var w := Warm(map[], s);
    WarmKeyedByIp(map[], s);
    var rest := PopAt(w, k1).entries;
    assert k2 in rest;
  }

  // ---------------------------------------------------------------------------
  // State

  /** The IP pool cache: free records keyed by IP. The Go mutex is not modelled. */
  class ServiceCache {
    var entries: map<string, LoadBalance>

    constructor ()
      ensures entries == map[]
    {
      entries := map[];
    }

    /** `GetByKey`: the cached record for `key`, or nil. */
    function GetByKey(key: string): (r: Option<LoadBalance>)
      reads this
      ensures r.Some? <==> key in entries
      ensures r.Some? ==> r.value == entries[key]
    {
      if key in entries then Some(entries[key]) else None
    }

    method Delete(ip: string)
      modifies this
      ensures entries == old(entries) - {ip}
      ensures GetByKey(ip) == None
      ensures forall k :: k != ip ==> GetByKey(k) == old(GetByKey(k))
    {
      entries := entries - {ip};
    }

    method Set(ip: string, balance: LoadBalance)
      modifies this
      ensures entries == old(entries)[ip := balance]
      ensures GetByKey(ip) == Some(balance)
      ensures forall k :: k != ip ==> GetByKey(k) == old(GetByKey(k))
    {
      entries := entries[ip := balance];
    }

    /**
     * `pop`: walks the map remembering the last key seen, then removes that key and returns
     * its record's IP; a last key of "" (also the empty map) is reported as an empty cache.
     */
    method Pop() returns (r: Result<string>)
      modifies this
      ensures PopAllowed(old(entries), entries, r)
    {
      var lastKey := "";
      var rest := entries.Keys;
      while rest != {}
        invariant rest <= entries.Keys
        invariant lastKey in entries || (lastKey == "" && rest == entries.Keys)
        decreases rest
      {
        var key :| key in rest;
        lastKey := key;
        rest := rest - {key};
      }
      assert lastKey !in entries ==> entries == map[];
      if lastKey == "" {
        r := Err(NoAvailableIpByCache);
      } else {
        r := Ok(entries[lastKey].ip);
        entries := entries - {lastKey};
      }
      assert PopAt(old(entries), lastKey) == Popped(r, entries);
    }
  }

  /** `LoadBalanceClient`: the configuration and the IP pool cache it owns. */
  class LoadBalanceClient {
    const config: LoadBalanceConfig
    const cache: ServiceCache

    /** `NewLoadBalance`: a client with an empty cache. */
    constructor NewLoadBalance(config: LoadBalanceConfig)
      ensures this.config == config
      ensures fresh(cache) && cache.entries == map[]
    {
      this.config := config;
      cache := new ServiceCache();
    }

    /** `Bind`: POSTs the bind request and reads the envelope; no local state changes. */
    function Bind(post: Transport, name: string, namespace: string, ip: string): (r: Outcome)
      ensures var resp := post(config.loadBalanceSet.bind, LoadBalance(config.region, ip, 0, 0, "", namespace, name));
              && (r == Success <==> resp.Envelope? && resp.code == SuccessCode)
              && (resp.TransportError? ==> r == Failure(resp.err))
              && (resp.Envelope? && resp.code != SuccessCode ==> r == Failure(resp.message))
    {
      var body := LoadBalance("", "", 0, 0, "", "", "").(cluster := config.region, ip := ip,
                                                         namespace := namespace, serviceName := name);
      CheckResponse(post(config.loadBalanceSet.bind, body))
    }

    /** `Unbind`: POSTs the release request, which names only the Service. */
    function Unbind(post: Transport, name: string, namespace: string): (r: Outcome)
      ensures var resp := post(config.loadBalanceSet.released, LoadBalance("", "", 0, 0, "", namespace, name));
              && (r == Success <==> resp.Envelope? && resp.code == SuccessCode)
              && (resp.TransportError? ==> r == Failure(resp.err))
              && (resp.Envelope? && resp.code != SuccessCode ==> r == Failure(resp.message))
    {
      var body := LoadBalance("", "", 0, 0, "", "", "").(serviceName := name, namespace := namespace);
      CheckResponse(post(config.loadBalanceSet.released, body))
    }

    /**
     * `GetAvailableIp`, given the outcome of `List`: the first listed IP; an authoritative
     * empty listing is an error; only a failed listing falls back to `pop`.
     */
    method GetAvailableIp(list: Result<seq<LoadBalance>>) returns (r: Result<string>)
      modifies cache
      ensures list.Ok? && |list.value| > 0 ==> r == Ok(list.value[0].ip) && cache.entries == old(cache.entries)
      ensures list.Ok? && |list.value| == 0 ==> r == Err(NoAvailableIp) && cache.entries == old(cache.entries)
      ensures list.Err? ==> PopAllowed(old(cache.entries), cache.entries, r)
    {
      if list.Ok? && |list.value| > 0 {
        return Ok(list.value[0].ip);
      }
      if list.Ok? && |list.value| == 0 {
        return Err(NoAvailableIp);
      }
      r := cache.Pop();
    }

    /** `WaitForCacheSync`, given the outcome of `List`: `set`s every listed record. */
    method WaitForCacheSync(list: Result<seq<LoadBalance>>) returns (ok: bool)
      modifies cache
      ensures ok <==> list.Ok?
      ensures list.Err? ==> cache.entries == old(cache.entries)
      ensures list.Ok? ==> cache.entries == Warm(old(cache.entries), list.value)
    {
      if list.Err? {
        return false;
      }
      var fullData := list.value;
      for i := 0 to |fullData|
        invariant cache.entries == Warm(old(cache.entries), fullData[..i])
      {
        cache.Set(fullData[i].ip, fullData[i]);
        assert fullData[..i + 1][..i] == fullData[..i];
      }
      assert fullData[..|fullData|] == fullData;
      return true;
    }
  }
}
