/** The table of transport delegates, keyed by the (from, to) pair of side objects. */
module Transport {
  import opened Wrappers
  import opened Sides

  /** A foreign function that transmits one message from one side to another. */
  datatype Delegate = Delegate(id: nat)

  /** The module-level `registry`: an outer map per source side, an inner map per destination side. */
  class NetworkTransports {
    var registry: map<NetworkSide, map<NetworkSide, Delegate>>

    constructor ()
      ensures registry == map[]
    {
      registry := map[];
    }

    /** `getDelegate(from, to)`: `registry.get(from)?.get(to)`. */
    function GetDelegate(from: NetworkSide, to: NetworkSide): (r: Option<Delegate>)
      reads this
      ensures r.Some? ==> from in registry && to in registry[from] && r.value == registry[from][to]
      ensures r.None? ==> from !in registry || to !in registry[from]
    {
      if from in registry && to in registry[from] then Some(registry[from][to]) else None
    }

    /**
     * `register(from, to, delegate)`: create the inner map if missing, then set
     * the delegate only if the pair has none: the first registration wins.
     */
    method Register(from: NetworkSide, to: NetworkSide, delegate: Delegate)
      modifies this
      ensures GetDelegate(from, to).Some?
      ensures old(GetDelegate(from, to)).None? ==> GetDelegate(from, to) == Some(delegate)
      ensures old(GetDelegate(from, to)).Some? ==> GetDelegate(from, to) == old(GetDelegate(from, to))
      ensures forall f, t :: old(allocated(f)) && old(allocated(t)) && (f != from || t != to) ==>
        GetDelegate(f, t) == old(GetDelegate(f, t))
    {
      if from !in registry {
        registry := registry[from := map[]];
      }
      var delegates := registry[from];
      if to !in delegates {
        registry := registry[from := delegates[to := delegate]];
      }
    }
  }
}
