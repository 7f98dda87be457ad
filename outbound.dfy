/**
 * The outbound half shared by `NetworkChannel` and its earlier draft
 * `NetworkHandler`: strategy lookup, `emit`, `request`, and the response envelope.
 */
module Outbound {
  import opened Wrappers
  import opened Errors
  import opened Sides
  import opened Envelopes

  /** What one operation leaves behind: the pending table, its effects in order, and whether it threw. */
  datatype Step = Step(pending: map<string, PromiseRef>, effects: seq<Effect>, outcome: Outcome<Error>)

  /**
   * `getEmitStrategy(sideName)`: the strategy registered under the side name;
   * when there is none, the error built from the current side's name, which
   * itself fails when the current side is not set.
   */
  function StrategyFor(strategies: map<string, Consumer>, current: Option<NetworkSide>, sideName: string): (r: Result<Consumer, Error>)
    ensures r.Success? <==> sideName in strategies
    ensures r.Success? ==> r.value == strategies[sideName]
    ensures r.Failure? && current.None? ==> r.error == NotInitialized
    ensures r.Failure? && current.Some? ==> r.error == NoEmitStrategy(current.value.name, sideName)
  {
    if sideName in strategies then Success(strategies[sideName])
    else if current.None? then Failure(NotInitialized)
    else Failure(NoEmitStrategy(current.value.name, sideName))
  }

  /** The response to `m` carrying `result`: same id, the original sender's name, the reserved event name. */
  function ResponseTo(m: Envelope, result: Value): Envelope
  {
    Envelope(m.messageId, m.fromSide, INTERNAL_RESPOND_EVENT, [result])
  }

  /** The pending table never maps two ids to the same resolver: each `request` makes its own promise. */
  ghost predicate Injective(pending: map<string, PromiseRef>)
  {
    forall a, b :: a in pending && b in pending && a != b ==> pending[a] != pending[b]
  }

  /** `emit(target, eventName, args)` with `id` the fresh message id. */
  function EmitSpec(strategies: map<string, Consumer>, pending: map<string, PromiseRef>, current: Option<NetworkSide>, target: string, eventName: string, args: seq<Value>, id: string): Step
  {
    match StrategyFor(strategies, current, target)
    case Failure(e) => Step(pending, [], Fail(e))
    case Success(c) =>
      if current.None? then Step(pending, [], Fail(NotInitialized))
      else Step(pending, [Emitted(c, Envelope(id, current.value.name, eventName, args))], Pass)
  }

  /**
   * `request(target, eventName, args)` with `id` the fresh message id and
   * `promise` the resolver of the promise it returns. The pending entry is
   * recorded before the current side is read.
   */
  function RequestSpec(strategies: map<string, Consumer>, pending: map<string, PromiseRef>, current: Option<NetworkSide>, target: string, eventName: string, args: seq<Value>, id: string, promise: PromiseRef): Step
  {
    match StrategyFor(strategies, current, target)
    case Failure(e) => Step(pending, [], Fail(e))
    case Success(c) =>
      var pending' := pending[id := promise];
      if current.None? then Step(pending', [], Fail(NotInitialized))
      else Step(pending', [Emitted(c, Envelope(id, current.value.name, eventName, args))], Pass)
  }

  /**
   * `emit` hands exactly one envelope to the strategy registered for the
   * target's name: the fresh id, the current side's name, the event name and
   * the arguments. Without a strategy, or without a current side, it throws
   * and emits nothing.
   */
  lemma EmitSendsOneEnvelope(strategies: map<string, Consumer>, pending: map<string, PromiseRef>, current: Option<NetworkSide>, target: string, eventName: string, args: seq<Value>, id: string)
    ensures var step := EmitSpec(strategies, pending, current, target, eventName, args, id);
      && step.pending == pending
      && (target in strategies && current.Some? ==>
            step == Step(pending, [Emitted(strategies[target], Envelope(id, current.value.name, eventName, args))], Pass))
      && (target !in strategies || current.None? ==> step.effects == [] && step.outcome.Fail?)
      && (target !in strategies ==> step.outcome == Fail(StrategyFor(strategies, current, target).error))
  {
  }

  /**
   * `request` records the resolver under the new id before emitting, and the
   * emitted envelope carries that id. Without a strategy it throws before
   * recording anything; without a current side the entry is recorded and
   * nothing is emitted.
   */
  lemma RequestRecordsPending(strategies: map<string, Consumer>, pending: map<string, PromiseRef>, current: Option<NetworkSide>, target: string, eventName: string, args: seq<Value>, id: string, promise: PromiseRef)
    ensures var step := RequestSpec(strategies, pending, current, target, eventName, args, id, promise);
      && (target !in strategies ==> step == Step(pending, [], Fail(StrategyFor(strategies, current, target).error)))
      && (target in strategies ==> step.pending == pending[id := promise])
      && (target in strategies && current.None? ==> step.effects == [] && step.outcome == Fail(NotInitialized))
      && (target in strategies && current.Some? ==>
            step.effects == [Emitted(strategies[target], Envelope(id, current.value.name, eventName, args))] && step.outcome == Pass)
  {
  }

  /**
   * A request with a new resolver keeps the pending table injective, even when
   * its id collides with a pending one and overwrites it.
   */
  lemma RequestKeepsInjective(strategies: map<string, Consumer>, pending: map<string, PromiseRef>, current: Option<NetworkSide>, target: string, eventName: string, args: seq<Value>, id: string, promise: PromiseRef)
    requires Injective(pending) && promise !in pending.Values
    ensures Injective(RequestSpec(strategies, pending, current, target, eventName, args, id, promise).pending)
  {
    var after := RequestSpec(strategies, pending, current, target, eventName, args, id, promise).pending;
    forall a, b | a in after && b in after && a != b
      ensures after[a] != after[b]
    {
      if a != id && b != id {
        assert after[a] == pending[a] && after[b] == pending[b];
      } else if a == id && after == pending[id := promise] {
        assert pending[b] in pending.Values;
      } else if b == id && after == pending[id := promise] {
        assert pending[a] in pending.Values;
      }
    }
  }

  /** The number of resolutions of `p` among the effects. */
  function Resolutions(effects: seq<Effect>, p: PromiseRef): nat
  {
    if effects == [] then 0
    else (if effects[0].Resolved? && effects[0].promise == p then 1 else 0) + Resolutions(effects[1..], p)
  }

  lemma {:induction false} ResolutionsAppend(a: seq<Effect>, b: seq<Effect>, p: PromiseRef)
    ensures Resolutions(a + b, p) == Resolutions(a, p) + Resolutions(b, p)
  {
    if a != [] {
      assert (a + b)[1..] == a[1..] + b;
      ResolutionsAppend(a[1..], b, p);
    } else {
      assert a + b == b;
    }
  }

  lemma {:induction false} NoResolutions(effects: seq<Effect>, p: PromiseRef)
    requires forall i :: 0 <= i < |effects| ==> !effects[i].Resolved?
    ensures Resolutions(effects, p) == 0
  {
    if effects != [] {
      NoResolutions(effects[1..], p);
    }
  }

  /** Effects that resolve nothing leave every resolution count as it was. */
  lemma NoResolutionsAppended(log: seq<Effect>, effects: seq<Effect>)
    requires forall i :: 0 <= i < |effects| ==> !effects[i].Resolved?
    ensures forall p :: Resolutions(log + effects, p) == Resolutions(log, p)
  {
    forall p
      ensures Resolutions(log + effects, p) == Resolutions(log, p)
    {
      ResolutionsAppend(log, effects, p);
      NoResolutions(effects, p);
    }
  }

  /**
   * The at-most-once invariant over a history of effects: the pending table is
   * injective, only issued resolvers are pending or resolved, and a resolver
   * already resolved is no longer pending, so it is resolved at most once in all.
   */
  ghost predicate AtMostOnce(log: seq<Effect>, pending: map<string, PromiseRef>, issued: set<PromiseRef>)
  {
    && Injective(pending)
    && pending.Values <= issued
    && (forall p :: p !in issued ==> Resolutions(log, p) == 0)
    && (forall p :: Resolutions(log, p) + (if p in pending.Values then 1 else 0) <= 1)
  }

  /** Every resolver in a history that keeps the invariant is resolved at most once. */
  lemma AtMostOnceBound(log: seq<Effect>, pending: map<string, PromiseRef>, issued: set<PromiseRef>, p: PromiseRef)
    requires AtMostOnce(log, pending, issued)
    ensures Resolutions(log, p) <= 1
    ensures p in pending.Values ==> Resolutions(log, p) == 0
  {
    assert Resolutions(log, p) + (if p in pending.Values then 1 else 0) <= 1;
  }

  /** `emit` resolves nothing and leaves the pending table alone, so it keeps the invariant. */
  lemma EmitKeepsAtMostOnce(strategies: map<string, Consumer>, pending: map<string, PromiseRef>, current: Option<NetworkSide>, target: string, eventName: string, args: seq<Value>, id: string, log: seq<Effect>, issued: set<PromiseRef>)
    requires AtMostOnce(log, pending, issued)
    ensures var step := EmitSpec(strategies, pending, current, target, eventName, args, id);
      step.pending == pending && AtMostOnce(log + step.effects, step.pending, issued)
  {
    var step := EmitSpec(strategies, pending, current, target, eventName, args, id);
    NoResolutionsAppended(log, step.effects);
  }

  /**
   * `request` with a resolver never issued before keeps the invariant, even
   * when its id overwrites a pending entry; the resolver joins the issued set.
   */
  lemma RequestKeepsAtMostOnce(strategies: map<string, Consumer>, pending: map<string, PromiseRef>, current: Option<NetworkSide>, target: string, eventName: string, args: seq<Value>, id: string, promise: PromiseRef, log: seq<Effect>, issued: set<PromiseRef>)
    requires AtMostOnce(log, pending, issued) && promise !in issued
    ensures var step := RequestSpec(strategies, pending, current, target, eventName, args, id, promise);
      AtMostOnce(log + step.effects, step.pending, issued + {promise})
  {
    var step := RequestSpec(strategies, pending, current, target, eventName, args, id, promise);
    var log' := log + step.effects;
    NoResolutionsAppended(log, step.effects);
    RequestKeepsInjective(strategies, pending, current, target, eventName, args, id, promise);
    assert step.pending == pending || step.pending == pending[id := promise];
    forall p
      ensures Resolutions(log', p) + (if p in step.pending.Values then 1 else 0) <= 1
    {
      assert Resolutions(log, p) + (if p in pending.Values then 1 else 0) <= 1;
      if p in step.pending.Values && p != promise {
        var k :| k in step.pending && step.pending[k] == p;
        assert k in pending && pending[k] == p;
      }
    }
  }
}
