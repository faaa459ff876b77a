/** collector/rpc_collector.go: the five collector kinds behind the RPCCollector interface. Each
    kind's Describe and Collect are modelled in its own module; here a collector is an object whose
    identity the registry shares between devices. */
module RpcCollector {
  datatype Kind = BGP | Environment | Facts | Interfaces | Optics

  /** The feature key a kind is registered under. */
  function Key(k: Kind): (s: string)
    ensures |s| > 0
  {
    match k
    case BGP => "bgp"
    case Environment => "environment"
    case Facts => "facts"
    case Interfaces => "interfaces"
    case Optics => "optics"
  }

  /** Distinct kinds have distinct keys. */
  lemma KeyInjective(a: Kind, b: Kind)
    ensures Key(a) == Key(b) ==> a == b
  {
  }

  /** The position of a kind in the order the registry adds collectors for a device. */
  function Rank(k: Kind): (n: nat)
    ensures n < 5
  {
    match k
    case BGP => 0
    case Environment => 1
    case Facts => 2
    case Interfaces => 3
    case Optics => 4
  }

  /** One collector instance (what bgp.NewCollector and its siblings return). */
  class Collector {
    const kind: Kind

    constructor (kind: Kind)
      ensures this.kind == kind
    {
      this.kind := kind;
    }
  }
}
