/**
 * `NetworkHandler`, the earlier draft of the channel: no subscribers, handlers
 * called with the payload only, and no presence check before resolving a response.
 */
module Handler {
  import opened Wrappers
  import opened Errors
  import opened Sides
  import opened Envelopes
  import opened Outbound
  import opened Uuid
  import opened Networker

  /** An event function: called with the payload alone, returns the result to respond with. */
  type EventFunction = seq<Value> -> Value

  /** The three tables of a draft handler. */
  datatype HandlerState = HandlerState(
    handlers: map<string, EventFunction>,
    strategies: map<string, Consumer>,
    pending: map<string, PromiseRef>)

  /** `receiveNetworkerMessage(m)`, for the given current side. */
  function Receive(s: HandlerState, current: Option<NetworkSide>, m: Envelope): Step
  {
    if m.eventName == INTERNAL_RESPOND_EVENT then
      if m.messageId in s.pending then
        Step(s.pending - {m.messageId}, [Resolved(s.pending[m.messageId], At(m.payload, 0))], Pass)
      else
        Step(s.pending, [], Fail(ResolverNotAFunction))
    else if m.eventName in s.handlers then
      var result := s.handlers[m.eventName](m.payload);
      var called := [Handled(m.eventName, m.payload)];
      match StrategyFor(s.strategies, current, m.fromSide)
      case Failure(e) => Step(s.pending, called, Fail(e))
      case Success(c) => Step(s.pending, called + [Emitted(c, ResponseTo(m, result))], Pass)
    else
      Step(s.pending, [], Pass)
  }

  /** A response whose id is pending removes that entry and resolves it with `payload[0]`. */
  lemma RespondResolvesPending(s: HandlerState, current: Option<NetworkSide>, m: Envelope)
    requires m.eventName == INTERNAL_RESPOND_EVENT && m.messageId in s.pending
    ensures Receive(s, current, m) ==
      Step(s.pending - {m.messageId}, [Resolved(s.pending[m.messageId], At(m.payload, 0))], Pass)
  {
  }

  /**
   * A response whose id is not pending throws: the delete is a no-op and the
   * missing resolver is called. Nothing is resolved and the table is unchanged.
   */
  lemma UnknownResponseThrows(s: HandlerState, current: Option<NetworkSide>, m: Envelope)
    requires m.eventName == INTERNAL_RESPOND_EVENT && m.messageId !in s.pending
    ensures Receive(s, current, m) == Step(s.pending, [], Fail(ResolverNotAFunction))
  {
  }

  /** Delivering the same response twice: the second delivery throws. */
  lemma DuplicateResponseThrows(s: HandlerState, current: Option<NetworkSide>, m: Envelope)
    requires m.eventName == INTERNAL_RESPOND_EVENT
    ensures var once := Receive(s, current, m);
      Receive(s.(pending := once.pending), current, m).outcome == Fail(ResolverNotAFunction)
  {
  }

  /**
   * With a handler and a strategy for the sender's name, the handler is called
   * with the payload alone and exactly one response envelope goes to that
   * strategy: same id, the sender's name, the reserved event name, `[result]`.
   */
  lemma HandlerResponds(s: HandlerState, current: Option<NetworkSide>, m: Envelope)
    requires m.eventName != INTERNAL_RESPOND_EVENT && m.eventName in s.handlers
    requires m.fromSide in s.strategies
    ensures Receive(s, current, m) ==
      Step(s.pending, [Handled(m.eventName, m.payload),
                       Emitted(s.strategies[m.fromSide], Envelope(m.messageId, m.fromSide, INTERNAL_RESPOND_EVENT, [s.handlers[m.eventName](m.payload)]))], Pass)
  {
  }

  /** With a handler but no strategy for the sender's name, receiving throws and emits nothing. */
  lemma HandlerWithoutRouteThrows(s: HandlerState, current: Option<NetworkSide>, m: Envelope)
    requires m.eventName != INTERNAL_RESPOND_EVENT && m.eventName in s.handlers
    requires m.fromSide !in s.strategies
    ensures Receive(s, current, m) == Step(s.pending, [Handled(m.eventName, m.payload)], Fail(StrategyFor(s.strategies, current, m.fromSide).error))
    ensures current.Some? ==> Receive(s, current, m).outcome == Fail(NoEmitStrategy(current.value.name, m.fromSide))
  {
  }

  /** Without a handler for the event, receiving does nothing. */
  lemma NoHandlerNoResponse(s: HandlerState, current: Option<NetworkSide>, m: Envelope)
    requires m.eventName != INTERNAL_RESPOND_EVENT && m.eventName !in s.handlers
    ensures Receive(s, current, m) == Step(s.pending, [], Pass)
  {
  }

  /** Receiving only ever removes pending entries, so the table stays injective. */
  lemma ReceiveKeepsInjective(s: HandlerState, current: Option<NetworkSide>, m: Envelope)
    requires Injective(s.pending)
    ensures var after := Receive(s, current, m).pending;
      after.Keys <= s.pending.Keys && (forall id :: id in after ==> after[id] == s.pending[id]) && Injective(after)
  {
  }

  /** One receive resolves `p` once exactly when it is a response for the id pending under `p`. */
  lemma ReceiveResolutions(s: HandlerState, current: Option<NetworkSide>, m: Envelope, p: PromiseRef)
    ensures var step := Receive(s, current, m);
      Resolutions(step.effects, p) ==
        if m.eventName == INTERNAL_RESPOND_EVENT && m.messageId in s.pending && s.pending[m.messageId] == p then 1 else 0
  {
    var step := Receive(s, current, m);
    if m.eventName != INTERNAL_RESPOND_EVENT {
      NoResolutions(step.effects, p);
    } else if m.messageId in s.pending {
      assert step.effects[1..] == [];
    }
  }

  /**
   * Receiving keeps the at-most-once invariant: the only resolver it resolves
   * is the one pending under the response's id, and it stops being pending.
   */
  lemma ReceiveKeepsAtMostOnce(s: HandlerState, current: Option<NetworkSide>, m: Envelope, log: seq<Effect>, issued: set<PromiseRef>)
    requires AtMostOnce(log, s.pending, issued)
    ensures var step := Receive(s, current, m);
      AtMostOnce(log + step.effects, step.pending, issued)
  {
    var step := Receive(s, current, m);
    ReceiveKeepsInjective(s, current, m);
    forall p
      ensures Resolutions(log + step.effects, p) + (if p in step.pending.Values then 1 else 0) <= 1
      ensures p !in issued ==> Resolutions(log + step.effects, p) == 0
    {
      ResolutionsAppend(log, step.effects, p);
      ReceiveResolutions(s, current, m, p);
      assert Resolutions(log, p) + (if p in s.pending.Values then 1 else 0) <= 1;
      if p in step.pending.Values {
        var k :| k in step.pending && step.pending[k] == p;
        assert k in s.pending && s.pending[k] == p;
      }
      if m.eventName == INTERNAL_RESPOND_EVENT && m.messageId in s.pending && s.pending[m.messageId] == p {
        assert p in s.pending.Values;
      }
    }
  }

  class NetworkHandler {
    const side: NetworkSide
    /** The process-wide `MonorepoNetworker` statics the handler reads. */
    const net: MonorepoNetworker
    /** `config?.attachListener`. */
    const attachListener: Option<AttachFn>

    var messageHandlers: map<string, EventFunction>
    var emitStrategies: map<string, Consumer>
    var pendingRequests: map<string, PromiseRef>
    var listenerRef: Option<ListenerHandle>
    /** The calls the handler has made into foreign code, in order. */
    ghost var log: seq<Effect>
    /** Every resolver a `request` has been given: `new Promise` makes a new one per call. */
    ghost var issued: set<PromiseRef>

    /** The history resolves every resolver at most once (`Outbound.AtMostOnce`). */
    ghost predicate Valid()
      reads this
    {
      AtMostOnce(log, pendingRequests, issued)
    }

    ghost function State(): HandlerState
      reads this
    {
      HandlerState(messageHandlers, emitStrategies, pendingRequests)
    }

    constructor (side: NetworkSide, net: MonorepoNetworker, attachListener: Option<AttachFn>)
      ensures Valid()
      ensures this.side == side && this.net == net && this.attachListener == attachListener
      ensures State() == HandlerState(map[], map[], map[])
      ensures listenerRef == None && log == [] && issued == {}
    {
      this.side := side;
      this.net := net;
      this.attachListener := attachListener;
      messageHandlers := map[];
      emitStrategies := map[];
      pendingRequests := map[];
      listenerRef := None;
      log := [];
      issued := {};
    }

    /** `init()`: hand the receive callback to `attachListener`, if configured, and keep the reference it returns. */
    method Init(returned: Option<ListenerHandle>)
      requires Valid()
      modifies this
      ensures Valid() && issued == old(issued)
      ensures State() == old(State())
      ensures attachListener.Some? ==> listenerRef == returned && log == old(log) + [Attached(attachListener.value)]
      ensures attachListener.None? ==> listenerRef == None && log == old(log)
    {
      if attachListener.Some? {
        NoResolutionsAppended(log, [Attached(attachListener.value)]);
        log := log + [Attached(attachListener.value)];
        listenerRef := returned;
      } else {
        listenerRef := None;
      }
    }

    /** `registerEmitStrategy(to, strategy)`: keyed by the side's name; a later strategy replaces an earlier one. */
    method RegisterEmitStrategy(to: NetworkSide, strategy: Consumer)
      requires Valid()
      modifies this
      ensures Valid() && issued == old(issued)
      ensures State() == old(State()).(strategies := old(emitStrategies)[to.name := strategy])
      ensures listenerRef == old(listenerRef) && log == old(log)
    {
      emitStrategies := emitStrategies[to.name := strategy];
    }

    /** `registerMessageHandler(eventName, handler)`: the last registration wins. */
    method RegisterMessageHandler(eventName: string, handler: EventFunction)
      requires Valid()
      modifies this
      ensures Valid() && issued == old(issued)
      ensures State() == old(State()).(handlers := old(messageHandlers)[eventName := handler])
      ensures listenerRef == old(listenerRef) && log == old(log)
    {
      messageHandlers := messageHandlers[eventName := handler];
    }

    /** `getEmitStrategy(sideName)`. */
    method GetEmitStrategy(sideName: string) returns (r: Result<Consumer, Error>)
      ensures r == StrategyFor(emitStrategies, net.current, sideName)
    {
      if sideName !in emitStrategies {
        var currentSide := net.GetCurrentSide();
        if currentSide.Failure? {
          return Failure(currentSide.error);
        }
        return Failure(NoEmitStrategy(currentSide.value.name, sideName));
      }
      return Success(emitStrategies[sideName]);
    }

    /** `receiveNetworkerMessage(m)`. */
    method ReceiveNetworkerMessage(m: Envelope) returns (r: Outcome<Error>)
      requires Valid()
      modifies this
      ensures Valid() && issued == old(issued)
      ensures var step := Receive(old(State()), net.current, m);
        && State() == old(State()).(pending := step.pending)
        && log == old(log) + step.effects
        && r == step.outcome
      ensures listenerRef == old(listenerRef)
    {
      ghost var step := Receive(State(), net.current, m);
      ReceiveKeepsAtMostOnce(State(), net.current, m, log, issued);
      if m.eventName == INTERNAL_RESPOND_EVENT {
        var resolveValue := if m.messageId in pendingRequests then Some(pendingRequests[m.messageId]) else None;
        pendingRequests := pendingRequests - {m.messageId};
        if resolveValue.None? {
          return Fail(ResolverNotAFunction);
        }
        log := log + [Resolved(resolveValue.value, At(m.payload, 0))];
        return Pass;
      }

      if m.eventName in messageHandlers {
        var handler := messageHandlers[m.eventName];
        var result := handler(m.payload);
        log := log + [Handled(m.eventName, m.payload)];
        var emit := GetEmitStrategy(m.fromSide);
        if emit.Failure? {
          assert log == old(log) + step.effects;
          return Fail(emit.error);
        }
        log := log + [Emitted(emit.value, ResponseTo(m, result))];
      }
      assert log == old(log) + step.effects;
      return Pass;
    }

    /** `emit(targetSide, eventName, eventArgs)`; `draws` feed the fresh message id. */
    method Emit(targetSide: NetworkSide, eventName: string, eventArgs: seq<Value>, draws: RandomNibbles) returns (r: Outcome<Error>)
      requires Valid()
      modifies this
      ensures Valid() && issued == old(issued)
      ensures State() == old(State())
      ensures var step := EmitSpec(old(emitStrategies), old(pendingRequests), net.current, targetSide.name, eventName, eventArgs, UuidText(draws));
        log == old(log) + step.effects && r == step.outcome
      ensures listenerRef == old(listenerRef)
    {
      var emit := GetEmitStrategy(targetSide.name);
      if emit.Failure? {
        return Fail(emit.error);
      }
      var messageId := UuidV4(draws);
      EmitKeepsAtMostOnce(emitStrategies, pendingRequests, net.current, targetSide.name, eventName, eventArgs, messageId, log, issued);
      var currentSide := net.GetCurrentSide();
      if currentSide.Failure? {
        return Fail(currentSide.error);
      }
      log := log + [Emitted(emit.value, Envelope(messageId, currentSide.value.name, eventName, eventArgs))];
      return Pass;
    }

    /**
     * `request(targetSide, eventName, eventArgs)`; `draws` feed the fresh
     * message id and `promise` is the resolver of the returned promise, a new
     * one on every call.
     */
    method Request(targetSide: NetworkSide, eventName: string, eventArgs: seq<Value>, draws: RandomNibbles, promise: PromiseRef) returns (r: Outcome<Error>)
      requires Valid() && promise !in issued
      modifies this
      ensures Valid() && issued == old(issued) + {promise}
      ensures var step := RequestSpec(old(emitStrategies), old(pendingRequests), net.current, targetSide.name, eventName, eventArgs, UuidText(draws), promise);
        && State() == old(State()).(pending := step.pending)
        && log == old(log) + step.effects
        && r == step.outcome
      ensures listenerRef == old(listenerRef)
    {
      RequestKeepsAtMostOnce(emitStrategies, pendingRequests, net.current, targetSide.name, eventName, eventArgs, UuidText(draws), promise, log, issued);
      issued := issued + {promise};
      var emit := GetEmitStrategy(targetSide.name);
      if emit.Failure? {
        return Fail(emit.error);
      }
      var messageId := UuidV4(draws);
      pendingRequests := pendingRequests[messageId := promise];
      var currentSide := net.GetCurrentSide();
      if currentSide.Failure? {
        return Fail(currentSide.error);
      }
      log := log + [Emitted(emit.value, Envelope(messageId, currentSide.value.name, eventName, eventArgs))];
      return Pass;
    }
  }

  /** In every state the draft handler's methods reach, each promise has been resolved at most once. */
  lemma HandlerResolvesAtMostOnce(h: NetworkHandler, p: PromiseRef)
    requires h.Valid()
    ensures Resolutions(h.log, p) <= 1
  {
    AtMostOnceBound(h.log, h.pendingRequests, h.issued, p);
  }
}
