/** The request check of the inventory service's HTTP handlers, `controllers/loadbalance/valid.go`. */
module Validation {
  import opened Models

  /** `Valid`: a bind request must name an IP, a service and a namespace. */
  function Valid(m: Record): (ok: bool)
    ensures m.ip == "" ==> !ok
    ensures m.serviceName == "" ==> !ok
    ensures m.namespace == "" ==> !ok
    ensures m.ip != "" && m.serviceName != "" && m.namespace != "" ==> ok
  {
    !(m.ip == "" || m.serviceName == "" || m.namespace == "")
  }

  /** Only the IP and the owner matter: cluster, status, carriers, CIDR, key and times do not. */
  lemma ValidIgnoresOtherFields(a: Record, b: Record)
    requires a.ip == b.ip && a.serviceName == b.serviceName && a.namespace == b.namespace
    ensures Valid(a) == Valid(b)
  {
  }

  /** A request that passes `Valid` cannot break "bound iff owned" when it is bound. */
  lemma ValidBindKeepsOwned(rows: seq<Record>, m: Record, now: int)
    requires Owned(rows) && Valid(m)
    ensures Owned(BindTable(rows, m, now).rows)
  {
    BindKeepsOwned(rows, m, now);
  }
}
