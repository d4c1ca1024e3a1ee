/** Command-line options of the load-balance controller, `cmd/loadbalance-controller/app/options`. */
module Options {

  const DefaultLeaseLockName := "loadbalance-controller"
  const DefaultLeaseLockNamespace := "kube-system"
  const DefaultLoadBalanceConfig := "config.yml"

  /** The six flags of `LoadBalanceFlags`, as a value. */
  datatype Flags = Flags(
    kubeConfig: string,
    loadBalanceConfig: string,
    region: string,
    leaseLockId: string,
    leaseLockName: string,
    leaseLockNamespace: string)

  /** `NewLoadBalanceServer`: the flags before the command line is parsed. */
  function NewLoadBalanceServer(): (f: Flags)
    ensures f.loadBalanceConfig == "config.yml"
    ensures f.leaseLockName == "loadbalance-controller" && f.leaseLockNamespace == "kube-system"
    ensures f.kubeConfig == "" && f.region == "" && f.leaseLockId == ""
  {
    Flags("", DefaultLoadBalanceConfig, "", "", DefaultLeaseLockName, DefaultLeaseLockNamespace)
  }

  /**
   * The flags after `SetDefaultRequiredValue` on a host whose `os.Hostname()` is `hostname`
   * ("" when that call fails, since its error is dropped).
   */
  function WithDefaults(f: Flags, hostname: string): (r: Flags)
    ensures f.leaseLockName == "" ==> r.leaseLockName == "loadbalance-controller"
    ensures f.leaseLockNamespace == "" ==> r.leaseLockNamespace == "kube-system"
    ensures f.leaseLockId == "" ==> r.leaseLockId == hostname
    ensures f.leaseLockName != "" ==> r.leaseLockName == f.leaseLockName
    ensures f.leaseLockNamespace != "" ==> r.leaseLockNamespace == f.leaseLockNamespace
    ensures f.leaseLockId != "" ==> r.leaseLockId == f.leaseLockId
    ensures r.kubeConfig == f.kubeConfig && r.loadBalanceConfig == f.loadBalanceConfig && r.region == f.region
  {
    f.(leaseLockName := if f.leaseLockName == "" then DefaultLeaseLockName else f.leaseLockName,
       leaseLockNamespace := if f.leaseLockNamespace == "" then DefaultLeaseLockNamespace else f.leaseLockNamespace,
       leaseLockId := if f.leaseLockId == "" then hostname else f.leaseLockId)
  }

  /** Defaulting twice with the same hostname is defaulting once. */
  lemma WithDefaultsIdempotent(f: Flags, hostname: string)
    ensures WithDefaults(WithDefaults(f, hostname), hostname) == WithDefaults(f, hostname)
  {
  }

  /** After defaulting, both lease names are set; the identity is set whenever the hostname is. */
  lemma WithDefaultsFillsLease(f: Flags, hostname: string)
    ensures WithDefaults(f, hostname).leaseLockName != ""
    ensures WithDefaults(f, hostname).leaseLockNamespace != ""
    ensures hostname != "" ==> WithDefaults(f, hostname).leaseLockId != ""
  {
  }

  /** Defaulting the initial flags only fills in the lease identity. */
  lemma DefaultsOfNewServer(hostname: string)
    ensures WithDefaults(NewLoadBalanceServer(), hostname) == NewLoadBalanceServer().(leaseLockId := hostname)
  {
  }

  /** `LoadBalanceFlags`, whose fields `SetDefaultRequiredValue` assigns in place. */
  class LoadBalanceFlags {
    var kubeConfig: string
    var loadBalanceConfig: string
    var region: string
    var leaseLockId: string
    var leaseLockName: string
    var leaseLockNamespace: string

    function Snapshot(): Flags
      reads this
    {
      Flags(kubeConfig, loadBalanceConfig, region, leaseLockId, leaseLockName, leaseLockNamespace)
    }

    constructor (f: Flags)
      ensures Snapshot() == f
    {
      kubeConfig := f.kubeConfig;
      loadBalanceConfig := f.loadBalanceConfig;
      region := f.region;
      leaseLockId := f.leaseLockId;
      leaseLockName := f.leaseLockName;
      leaseLockNamespace := f.leaseLockNamespace;
    }

    /** `SetDefaultRequiredValue`, given what `os.Hostname()` returns. */
    method SetDefaultRequiredValue(hostname: string)
      modifies this
      ensures Snapshot() == WithDefaults(old(Snapshot()), hostname)
    {
      if leaseLockName == "" {
        leaseLockName := DefaultLeaseLockName;
      }
      if leaseLockNamespace == "" {
        leaseLockNamespace := DefaultLeaseLockNamespace;
      }
      if leaseLockId == "" {
        var id := hostname;
        leaseLockId := id;
      }
    }
  }
}
