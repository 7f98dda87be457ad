/** Process identity: the current side, set once, and the list of known sides. */
module Networker {
  import opened Wrappers
  import opened Errors
  import opened Sides

  /** The earliest side in the list with the given name, or `null`. */
  function FindSide(sides: seq<NetworkSide>, name: string): (r: NetworkSide?)
    ensures r != null ==> r in sides && r.name == name
    ensures r == null <==> forall i :: 0 <= i < |sides| ==> sides[i].name != name
  {
    if sides == [] then null
    else if sides[0].name == name then sides[0]
    else FindSide(sides[1..], name)
  }

  /** The lookup returns the side at the first position carrying the name. */
  lemma {:induction false} FindSideEarliest(sides: seq<NetworkSide>, name: string, k: nat)
    requires k < |sides| && sides[k].name == name
    requires forall j :: 0 <= j < k ==> sides[j].name != name
    ensures FindSide(sides, name) == sides[k]
  {
    if k > 0 {
      FindSideEarliest(sides[1..], name, k - 1);
    }
  }

  /**
   * Appending a side changes a lookup only for a name no earlier side carries:
   * a duplicate name keeps resolving to the earlier side.
   */
  lemma {:induction false} FindSideAfterAppend(sides: seq<NetworkSide>, side: NetworkSide, name: string)
    ensures FindSide(sides + [side], name) ==
      if FindSide(sides, name) != null then FindSide(sides, name)
      else if side.name == name then side
      else null
  {
    if sides != [] {
      assert (sides + [side])[1..] == sides[1..] + [side];
      FindSideAfterAppend(sides[1..], side, name);
    }
  }

  /** The process-wide statics `_sides` and `_currentSide`. */
  class MonorepoNetworker {
    var sides: seq<NetworkSide>
    var current: Option<NetworkSide>

    constructor ()
      ensures sides == [] && current == None
    {
      sides := [];
      current := None;
    }

    /** The `currentSide` getter. */
    method GetCurrentSide() returns (r: Result<NetworkSide, Error>)
      ensures current.None? ==> r == Failure(NotInitialized)
      ensures current.Some? ==> r == Success(current.value)
      ensures r.Failure? ==> Text(r.error) == "Logical side is not initialized yet."
    {
      if current.None? {
        return Failure(NotInitialized);
      }
      return Success(current.value);
    }

    /** The `currentSide` setter: the side can be set once. */
    method SetCurrentSide(side: NetworkSide) returns (r: Outcome<Error>)
      modifies this
      ensures sides == old(sides)
      ensures old(current).Some? ==> r == Fail(AlreadyDeclared) && current == old(current)
      ensures old(current).None? ==> r == Pass && current == Some(side)
      ensures r.Fail? ==> Text(r.error) == "Logical side can be declared only once."
    {
      if current.Some? {
        return Fail(AlreadyDeclared);
      }
      current := Some(side);
      return Pass;
    }

    /** `createSide(name)`: a new side, appended without checking the name. */
    method CreateSide(name: string) returns (side: NetworkSide)
      modifies this
      ensures fresh(side) && side.name == name
      ensures sides == old(sides) + [side]
      ensures current == old(current)
    {
      side := new NetworkSide(name);
      sides := sides + [side];
    }

    /** `getSide(name)`: scan the list in order and return the first side with the name. */
    method GetSide(name: string) returns (r: NetworkSide?)
      ensures r == FindSide(sides, name)
      ensures r != null ==> r.name == name && r in sides
    {
      for i := 0 to |sides|
        invariant forall j :: 0 <= j < i ==> sides[j].name != name
      {
        if sides[i].name == name {
          FindSideEarliest(sides, name, i);
          return sides[i];
        }
      }
      return null;
    }
  }
}

/**
 * `MonorepoNetworker.initialize(side, channel)`. It lives apart from the
 * networker's state because the channel reads that state.
 */
module NetworkerInit {
  import opened Wrappers
  import opened Errors
  import opened Sides
  import opened Envelopes
  import opened Networker
  import opened Channel

  /**
   * Set the current side, then initialize the channel; `returned` is what the
   * channel's `attachListener` returns. There is one networker, the one the
   * channel reads. A second call throws before the channel is touched.
   */
  method Initialize(net: MonorepoNetworker, side: NetworkSide, channel: NetworkChannel, returned: Option<ListenerHandle>) returns (r: Outcome<Error>)
    requires channel.Valid() && channel.net == net
    modifies net, channel
    ensures channel.Valid()
    ensures net.sides == old(net.sides)
    ensures old(net.current).Some? ==>
      r == Fail(AlreadyDeclared) && net.current == old(net.current) && unchanged(channel)
    ensures old(net.current).None? ==>
      && r == Pass
      && net.current == Some(side)
      && channel.State() == old(channel.State())
      && channel.issued == old(channel.issued)
      && (channel.attachListener.Some? ==>
            channel.listenerCleanup == returned && channel.log == old(channel.log) + [Attached(channel.attachListener.value)])
      && (channel.attachListener.None? ==> channel.listenerCleanup == None && channel.log == old(channel.log))
  {
    r := net.SetCurrentSide(side);
    if r.Fail? {
      return;
    }
    channel.Init(returned);
  }
}
