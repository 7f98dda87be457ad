/**
 * The per-side runtime: emits envelopes through per-destination strategies,
 * dispatches inbound envelopes to subscribers and a single handler, answers
 * with a response envelope, and correlates responses with pending requests.
 */
module Channel {
  import opened Wrappers
  import opened Errors
  import opened Sides
  import opened Envelopes
  import opened Records
  import opened Uuid
  import opened Networker
  import opened Outbound

  /** A message handler: called with the payload and the sender, returns the result to respond with. */
  type MessageHandler = seq<Value> -> Value

  /** The four tables of a channel. */
  datatype ChannelState = ChannelState(
    handlers: map<string, MessageHandler>,
    subscriptions: map<string, seq<Entry<SubscriberRef>>>,
    strategies: map<string, Consumer>,
    pending: map<string, PromiseRef>)

  /** The closure `subscribe` returns: it deletes this id from this event's table. */
  datatype Unsubscriber = Unsubscriber(eventName: string, subId: string)

  /** `subscriptionHandlers[eventName] ?? {}`. */
  function Listeners(subscriptions: map<string, seq<Entry<SubscriberRef>>>, eventName: string): seq<Entry<SubscriberRef>>
  {
    if eventName in subscriptions then subscriptions[eventName] else []
  }

  /** One call per subscriber, in the table's order. */
  function Notifications(entries: seq<Entry<SubscriberRef>>, args: seq<Value>): seq<Effect>
  {
    seq(|entries|, i requires 0 <= i < |entries| => Notified(entries[i].key, entries[i].value, args))
  }

  /** The arguments every listener of `m` receives: its payload, then the sender side or `null`. */
  function ListenerArgs(sides: seq<NetworkSide>, m: Envelope): seq<Value>
  {
    m.payload + [SenderArg(FindSide(sides, m.fromSide))]
  }

  /** `receiveNetworkMessage(m)`, for the given current side and list of known sides. */
  function Dispatch(s: ChannelState, current: Option<NetworkSide>, sides: seq<NetworkSide>, m: Envelope): Step
  {
    if m.eventName == INTERNAL_RESPOND_EVENT then
      if m.messageId in s.pending then
        Step(s.pending - {m.messageId}, [Resolved(s.pending[m.messageId], At(m.payload, 0))], Pass)
      else
        Step(s.pending, [], Pass)
    else
      var args := ListenerArgs(sides, m);
      var notes := Notifications(Listeners(s.subscriptions, m.eventName), args);
      if m.eventName !in s.handlers then
        Step(s.pending, notes, Pass)
      else
        var result := s.handlers[m.eventName](args);
        var called := notes + [Handled(m.eventName, args)];
        match StrategyFor(s.strategies, current, m.fromSide)
        case Failure(e) => Step(s.pending, called, Fail(e))
        case Success(c) => Step(s.pending, called + [Emitted(c, ResponseTo(m, result))], Pass)
  }

  /** The subscription tables after `subscribe(eventName, subscriber)` drew `id`. */
  function Subscribed(subscriptions: map<string, seq<Entry<SubscriberRef>>>, eventName: string, id: string, subscriber: SubscriberRef): map<string, seq<Entry<SubscriberRef>>>
  {
    subscriptions[eventName := Put(Listeners(subscriptions, eventName), id, subscriber)]
  }

  /** The subscription tables after the unsubscribe closure ran. */
  function Unsubscribed(subscriptions: map<string, seq<Entry<SubscriberRef>>>, u: Unsubscriber): map<string, seq<Entry<SubscriberRef>>>
    requires u.eventName in subscriptions
  {
    subscriptions[u.eventName := Delete(subscriptions[u.eventName], u.subId)]
  }

  /** A response whose id is pending removes exactly that entry and resolves it with `payload[0]`; no listener runs. */
  lemma RespondResolvesPending(s: ChannelState, current: Option<NetworkSide>, sides: seq<NetworkSide>, m: Envelope)
    requires m.eventName == INTERNAL_RESPOND_EVENT && m.messageId in s.pending
    ensures Dispatch(s, current, sides, m) ==
      Step(s.pending - {m.messageId}, [Resolved(s.pending[m.messageId], At(m.payload, 0))], Pass)
  {
  }

  /** A response whose id is not pending changes nothing and does not throw. */
  lemma UnknownResponseIgnored(s: ChannelState, current: Option<NetworkSide>, sides: seq<NetworkSide>, m: Envelope)
    requires m.eventName == INTERNAL_RESPOND_EVENT && m.messageId !in s.pending
    ensures Dispatch(s, current, sides, m) == Step(s.pending, [], Pass)
  {
  }

  /** Dispatching the same response a second time is a no-op: a caller is never resolved twice. */
  lemma DuplicateResponseIgnored(s: ChannelState, current: Option<NetworkSide>, sides: seq<NetworkSide>, m: Envelope)
    requires m.eventName == INTERNAL_RESPOND_EVENT
    ensures var once := Dispatch(s, current, sides, m);
      Dispatch(s.(pending := once.pending), current, sides, m) == Step(once.pending, [], Pass)
  {
  }

  /**
   * A resolution made by a dispatch comes from a response envelope and goes to
   * the resolver pending under that envelope's id, and under no other id.
   */
  lemma ResolvesOnlyMatchingRequest(s: ChannelState, current: Option<NetworkSide>, sides: seq<NetworkSide>, m: Envelope, i: nat)
    requires Injective(s.pending)
    requires i < |Dispatch(s, current, sides, m).effects| && Dispatch(s, current, sides, m).effects[i].Resolved?
    ensures m.eventName == INTERNAL_RESPOND_EVENT && m.messageId in s.pending
    ensures Dispatch(s, current, sides, m).effects[i] == Resolved(s.pending[m.messageId], At(m.payload, 0))
    ensures forall id :: id in s.pending && s.pending[id] == Dispatch(s, current, sides, m).effects[i].promise ==> id == m.messageId
  {
  }

  /**
   * Any other envelope leaves the pending table alone and first calls every
   * subscriber of its event, in subscription order, with the payload and the sender.
   */
  lemma EventNotifiesSubscribers(s: ChannelState, current: Option<NetworkSide>, sides: seq<NetworkSide>, m: Envelope)
    requires m.eventName != INTERNAL_RESPOND_EVENT
    ensures var step := Dispatch(s, current, sides, m);
      var subscribers := Listeners(s.subscriptions, m.eventName);
      && step.pending == s.pending
      && |subscribers| <= |step.effects|
      && forall i :: 0 <= i < |subscribers| ==>
           step.effects[i] == Notified(subscribers[i].key, subscribers[i].value, m.payload + [SenderArg(FindSide(sides, m.fromSide))])
  {
  }

  /** Without a handler for the event nothing is emitted and nothing is thrown. */
  lemma NoHandlerNoResponse(s: ChannelState, current: Option<NetworkSide>, sides: seq<NetworkSide>, m: Envelope)
    requires m.eventName != INTERNAL_RESPOND_EVENT && m.eventName !in s.handlers
    ensures Dispatch(s, current, sides, m).outcome == Pass
    ensures forall e :: e in Dispatch(s, current, sides, m).effects ==> !e.Emitted?
  {
  }

  /**
   * With a handler and a strategy for the sender's name, the handler is called
   * after the subscribers and exactly one envelope goes to that strategy: the
   * request's id, the sender's name, the reserved event name and `[result]`.
   */
  lemma HandlerResponds(s: ChannelState, current: Option<NetworkSide>, sides: seq<NetworkSide>, m: Envelope)
    requires m.eventName != INTERNAL_RESPOND_EVENT && m.eventName in s.handlers
    requires m.fromSide in s.strategies
    ensures var args := m.payload + [SenderArg(FindSide(sides, m.fromSide))];
      var notes := Notifications(Listeners(s.subscriptions, m.eventName), args);
      var response := Envelope(m.messageId, m.fromSide, INTERNAL_RESPOND_EVENT, [s.handlers[m.eventName](args)]);
      Dispatch(s, current, sides, m) ==
        Step(s.pending, notes + [Handled(m.eventName, args), Emitted(s.strategies[m.fromSide], response)], Pass)
  {
  }

  /** With a handler but no strategy for the sender's name, dispatch throws after calling the handler and emits nothing. */
  lemma HandlerWithoutRouteThrows(s: ChannelState, current: Option<NetworkSide>, sides: seq<NetworkSide>, m: Envelope)
    requires m.eventName != INTERNAL_RESPOND_EVENT && m.eventName in s.handlers
    requires m.fromSide !in s.strategies
    ensures Dispatch(s, current, sides, m).outcome.Fail?
    ensures current.None? ==> Dispatch(s, current, sides, m).outcome.error == NotInitialized
    ensures current.Some? ==> Dispatch(s, current, sides, m).outcome.error == NoEmitStrategy(current.value.name, m.fromSide)
    ensures forall e :: e in Dispatch(s, current, sides, m).effects ==> !e.Emitted?
    ensures Handled(m.eventName, ListenerArgs(sides, m)) in Dispatch(s, current, sides, m).effects
  {
  }

  /**
   * A request followed by the response carrying its id resolves the request's
   * own promise with the response's value, and leaves the pending table as it
   * was before the request.
   */
  lemma RequestThenRespond(s: ChannelState, current: Option<NetworkSide>, sides: seq<NetworkSide>, target: string, eventName: string, args: seq<Value>, id: string, promise: PromiseRef, responder: string, v: Value)
    requires target in s.strategies && current.Some? && id !in s.pending
    ensures var sent := RequestSpec(s.strategies, s.pending, current, target, eventName, args, id, promise);
      var answer := Envelope(id, responder, INTERNAL_RESPOND_EVENT, [v]);
      && sent.effects[0].envelope.messageId == id
      && Dispatch(s.(pending := sent.pending), current, sides, answer) == Step(s.pending, [Resolved(promise, v)], Pass)
  {
    var sent := RequestSpec(s.strategies, s.pending, current, target, eventName, args, id, promise);
    assert sent.pending - {id} == s.pending;
  }

  /** One dispatch resolves `p` once exactly when it is a response for the id pending under `p`. */
  lemma DispatchResolutions(s: ChannelState, current: Option<NetworkSide>, sides: seq<NetworkSide>, m: Envelope, p: PromiseRef)
    ensures var step := Dispatch(s, current, sides, m);
      Resolutions(step.effects, p) ==
        if m.eventName == INTERNAL_RESPOND_EVENT && m.messageId in s.pending && s.pending[m.messageId] == p then 1 else 0
  {
    var step := Dispatch(s, current, sides, m);
    if m.eventName != INTERNAL_RESPOND_EVENT {
      NoResolutions(step.effects, p);
    } else if m.messageId in s.pending {
      assert step.effects[1..] == [];
    }
  }

  /** A dispatch only ever removes pending entries, so the table stays injective. */
  lemma DispatchKeepsInjective(s: ChannelState, current: Option<NetworkSide>, sides: seq<NetworkSide>, m: Envelope)
    requires Injective(s.pending)
    ensures var after := Dispatch(s, current, sides, m).pending;
      after.Keys <= s.pending.Keys && (forall id :: id in after ==> after[id] == s.pending[id]) && Injective(after)
  {
  }

  /**
   * A dispatch keeps the at-most-once invariant: the only resolver it resolves
   * is the one pending under the response's id, and it stops being pending.
   */
  lemma DispatchKeepsAtMostOnce(s: ChannelState, current: Option<NetworkSide>, sides: seq<NetworkSide>, m: Envelope, log: seq<Effect>, issued: set<PromiseRef>)
    requires AtMostOnce(log, s.pending, issued)
    ensures var step := Dispatch(s, current, sides, m);
      AtMostOnce(log + step.effects, step.pending, issued)
  {
    var step := Dispatch(s, current, sides, m);
    DispatchKeepsInjective(s, current, sides, m);
    forall p
      ensures Resolutions(log + step.effects, p) + (if p in step.pending.Values then 1 else 0) <= 1
      ensures p !in issued ==> Resolutions(log + step.effects, p) == 0
    {
      ResolutionsAppend(log, step.effects, p);
      DispatchResolutions(s, current, sides, m, p);
      assert Resolutions(log, p) + (if p in s.pending.Values then 1 else 0) <= 1;
      if p in step.pending.Values {
        var k :| k in step.pending && step.pending[k] == p;
        assert k in s.pending && s.pending[k] == p;
        assert !(m.eventName == INTERNAL_RESPOND_EVENT && m.messageId in s.pending && s.pending[m.messageId] == p);
      }
      if m.eventName == INTERNAL_RESPOND_EVENT && m.messageId in s.pending && s.pending[m.messageId] == p {
        assert p in s.pending.Values;
      }
    }
  }

  /** The listener calling `receiveNetworkMessage` for each inbound envelope in turn; throws do not stop later deliveries. */
  ghost function DeliverAll(s: ChannelState, current: Option<NetworkSide>, sides: seq<NetworkSide>, ms: seq<Envelope>): seq<Effect>
    decreases |ms|
  {
    if ms == [] then []
    else
      var step := Dispatch(s, current, sides, ms[0]);
      step.effects + DeliverAll(s.(pending := step.pending), current, sides, ms[1..])
  }

  /**
   * Over any sequence of inbound envelopes, every promise is resolved at most
   * once, and only a promise that was pending is resolved at all.
   */
  lemma {:induction false} ResolvedAtMostOnce(s: ChannelState, current: Option<NetworkSide>, sides: seq<NetworkSide>, ms: seq<Envelope>, p: PromiseRef)
    requires Injective(s.pending)
    ensures Resolutions(DeliverAll(s, current, sides, ms), p) <= if p in s.pending.Values then 1 else 0
    decreases |ms|
  {
    if ms != [] {
      var m := ms[0];
      var step := Dispatch(s, current, sides, m);
      var s' := s.(pending := step.pending);
      assert step.pending.Keys <= s.pending.Keys;
      assert forall id :: id in step.pending ==> step.pending[id] == s.pending[id];
      ResolvedAtMostOnce(s', current, sides, ms[1..], p);
      ResolutionsAppend(step.effects, DeliverAll(s', current, sides, ms[1..]), p);
      DispatchResolutions(s, current, sides, m, p);
      if m.eventName == INTERNAL_RESPOND_EVENT && m.messageId in s.pending && s.pending[m.messageId] == p {
        assert p !in s'.pending.Values;
      } else if p in s'.pending.Values {
        var id :| id in s'.pending && s'.pending[id] == p;
        assert p in s.pending.Values;
      }
    }
  }

  /** A fresh subscription is called after every earlier subscriber of its event; other events are untouched. */
  lemma SubscribeAppends(subscriptions: map<string, seq<Entry<SubscriberRef>>>, eventName: string, id: string, subscriber: SubscriberRef, other: string)
    requires id !in Keys(Listeners(subscriptions, eventName))
    ensures Listeners(Subscribed(subscriptions, eventName, id, subscriber), eventName) == Listeners(subscriptions, eventName) + [Entry(id, subscriber)]
    ensures other != eventName ==> Listeners(Subscribed(subscriptions, eventName, id, subscriber), other) == Listeners(subscriptions, other)
  {
    PutFresh(Listeners(subscriptions, eventName), id, subscriber);
  }

  /** The unsubscribe closure removes its own id, and every other subscription of every event keeps its subscriber. */
  lemma UnsubscribeRemovesOnlyOwn(subscriptions: map<string, seq<Entry<SubscriberRef>>>, u: Unsubscriber, eventName: string, id: string)
    requires u.eventName in subscriptions
    ensures Get(Listeners(Unsubscribed(subscriptions, u), eventName), id) ==
      if eventName == u.eventName && id == u.subId then None else Get(Listeners(subscriptions, eventName), id)
  {
    GetDelete(subscriptions[u.eventName], u.subId, id);
  }

  /** The remaining subscribers of the event keep their order. */
  lemma UnsubscribeKeepsOrder(subscriptions: map<string, seq<Entry<SubscriberRef>>>, u: Unsubscriber, i: nat)
    requires u.eventName in subscriptions && UniqueKeys(subscriptions[u.eventName])
    requires i < |subscriptions[u.eventName]| && subscriptions[u.eventName][i].key == u.subId
    ensures Unsubscribed(subscriptions, u)[u.eventName] == subscriptions[u.eventName][..i] + subscriptions[u.eventName][i + 1..]
  {
    DeleteAt(subscriptions[u.eventName], i);
  }

  /** Calling the unsubscribe closure twice is the same as calling it once. */
  lemma UnsubscribeTwiceHarmless(subscriptions: map<string, seq<Entry<SubscriberRef>>>, u: Unsubscriber)
    requires u.eventName in subscriptions
    ensures Unsubscribed(Unsubscribed(subscriptions, u), u) == Unsubscribed(subscriptions, u)
  {
    DeleteIdempotent(subscriptions[u.eventName], u.subId);
  }

  /** Subscribing with a fresh id and unsubscribing restores the tables, except that the event's (possibly empty) table now exists. */
  lemma SubscribeThenUnsubscribe(subscriptions: map<string, seq<Entry<SubscriberRef>>>, eventName: string, id: string, subscriber: SubscriberRef)
    requires id !in Keys(Listeners(subscriptions, eventName))
    ensures Unsubscribed(Subscribed(subscriptions, eventName, id, subscriber), Unsubscriber(eventName, id)) ==
      subscriptions[eventName := Listeners(subscriptions, eventName)]
  {
    DeletePutFresh(Listeners(subscriptions, eventName), id, subscriber);
  }

  /** After unsubscribing, a dispatch of that event never calls the removed subscription. */
  lemma UnsubscribedNotNotified(s: ChannelState, current: Option<NetworkSide>, sides: seq<NetworkSide>, u: Unsubscriber, m: Envelope)
    requires u.eventName in s.subscriptions && m.eventName == u.eventName
    ensures var step := Dispatch(s.(subscriptions := Unsubscribed(s.subscriptions, u)), current, sides, m);
      forall e :: e in step.effects && e.Notified? ==> e.subId != u.subId
  {
    var table := Delete(s.subscriptions[u.eventName], u.subId);
    forall i | 0 <= i < |table|
      ensures table[i].key != u.subId
    {
      KeyAt(table, i);
    }
  }

  class NetworkChannel {
    const side: NetworkSide
    /** The process-wide `MonorepoNetworker` statics the channel reads. */
    const net: MonorepoNetworker
    /** `config?.attachListener`. */
    const attachListener: Option<AttachFn>

    var messageHandlers: map<string, MessageHandler>
    var subscriptionHandlers: map<string, seq<Entry<SubscriberRef>>>
    var emitStrategies: map<string, Consumer>
    var pendingRequests: map<string, PromiseRef>
    var listenerCleanup: Option<ListenerHandle>
    /** The calls the channel has made into foreign code, in order. */
    ghost var log: seq<Effect>
    /** Every resolver a `request` has been given: `new Promise` makes a new one per call. */
    ghost var issued: set<PromiseRef>

    /**
     * Subscription ids are distinct within each event's table, and the history
     * resolves every resolver at most once (`Outbound.AtMostOnce`).
     */
    ghost predicate Valid()
      reads this
    {
      && (forall e :: e in subscriptionHandlers ==> UniqueKeys(subscriptionHandlers[e]))
      && AtMostOnce(log, pendingRequests, issued)
    }

    ghost function State(): ChannelState
      reads this
    {
      ChannelState(messageHandlers, subscriptionHandlers, emitStrategies, pendingRequests)
    }

    constructor (side: NetworkSide, net: MonorepoNetworker, attachListener: Option<AttachFn>)
      ensures Valid()
      ensures this.side == side && this.net == net && this.attachListener == attachListener
      ensures State() == ChannelState(map[], map[], map[], map[])
      ensures listenerCleanup == None && log == [] && issued == {}
    {
      this.side := side;
      this.net := net;
      this.attachListener := attachListener;
      messageHandlers := map[];
      subscriptionHandlers := map[];
      emitStrategies := map[];
      pendingRequests := map[];
      listenerCleanup := None;
      log := [];
      issued := {};
    }

    /**
     * `init()`: hand the dispatch callback to `attachListener`, if configured,
     * and keep what it returns; `returned` is that foreign return value.
     */
    method Init(returned: Option<ListenerHandle>)
      requires Valid()
      modifies this
      ensures Valid() && issued == old(issued) && State() == old(State())
      ensures attachListener.Some? ==> listenerCleanup == returned && log == old(log) + [Attached(attachListener.value)]
      ensures attachListener.None? ==> listenerCleanup == None && log == old(log)
    {
      if attachListener.Some? {
        NoResolutionsAppended(log, [Attached(attachListener.value)]);
        log := log + [Attached(attachListener.value)];
        listenerCleanup := returned;
      } else {
        listenerCleanup := None;
      }
    }

    /** `registerEmitStrategy(to, strategy)`: keyed by the side's name; the last registration wins. */
    method RegisterEmitStrategy(to: NetworkSide, strategy: Consumer)
      requires Valid()
      modifies this
      ensures Valid() && issued == old(issued)
      ensures State() == old(State()).(strategies := old(emitStrategies)[to.name := strategy])
      ensures listenerCleanup == old(listenerCleanup) && log == old(log)
    {
      emitStrategies := emitStrategies[to.name := strategy];
    }

    /** `registerMessageHandler(eventName, handler)`: the last registration wins. */
    method RegisterMessageHandler(eventName: string, handler: MessageHandler)
      requires Valid()
      modifies this
      ensures Valid() && issued == old(issued)
      ensures State() == old(State()).(handlers := old(messageHandlers)[eventName := handler])
      ensures listenerCleanup == old(listenerCleanup) && log == old(log)
    {
      messageHandlers := messageHandlers[eventName := handler];
    }

    /** `getEmitStrategy(sideName)`. */
    method GetEmitStrategy(sideName: string) returns (r: Result<Consumer, Error>)
      ensures r == StrategyFor(emitStrategies, net.current, sideName)
    {
      if sideName !in emitStrategies {
        var currentSide := net.GetCurrentSide();
        if currentSide.Failure? {
          return Failure(currentSide.error);
        }
        return Failure(NoEmitStrategy(currentSide.value.name, sideName));
      }
      return Success(emitStrategies[sideName]);
    }

    /** `receiveNetworkMessage(m)`: the callback the attached listener calls once per inbound envelope. */
    method ReceiveNetworkMessage(m: Envelope) returns (r: Outcome<Error>)
      requires Valid()
      modifies this
      ensures Valid() && issued == old(issued)
      ensures var step := Dispatch(old(State()), net.current, net.sides, m);
        && State() == old(State()).(pending := step.pending)
        && log == old(log) + step.effects
        && r == step.outcome
      ensures listenerCleanup == old(listenerCleanup)
    {
      ghost var step := Dispatch(State(), net.current, net.sides, m);
      DispatchKeepsAtMostOnce(State(), net.current, net.sides, m, log, issued);
      if m.eventName == INTERNAL_RESPOND_EVENT {
        if m.messageId in pendingRequests {
          var resolveValue := pendingRequests[m.messageId];
          pendingRequests := pendingRequests - {m.messageId};
          log := log + [Resolved(resolveValue, At(m.payload, 0))];
        }
        return Pass;
      }

      var sender := net.GetSide(m.fromSide);
      var args := m.payload + [SenderArg(sender)];
      var subscribers := Listeners(subscriptionHandlers, m.eventName);
      for i := 0 to |subscribers|
        invariant State() == old(State()) && listenerCleanup == old(listenerCleanup) && issued == old(issued)
        invariant log == old(log) + Notifications(subscribers[..i], args)
      {
        assert Notifications(subscribers[..i + 1], args) == Notifications(subscribers[..i], args) + [Notified(subscribers[i].key, subscribers[i].value, args)];
        log := log + [Notified(subscribers[i].key, subscribers[i].value, args)];
      }
      assert subscribers[..|subscribers|] == subscribers;

      if m.eventName in messageHandlers {
        var handler := messageHandlers[m.eventName];
        var result := handler(args);
        log := log + [Handled(m.eventName, args)];
        var emit := GetEmitStrategy(m.fromSide);
        if emit.Failure? {
          assert log == old(log) + step.effects;
          return Fail(emit.error);
        }
        log := log + [Emitted(emit.value, ResponseTo(m, result))];
      }
      assert log == old(log) + step.effects;
      return Pass;
    }

    /** `emit(targetSide, eventName, ...eventArgs)`; `draws` feed the fresh message id. */
    method Emit(targetSide: NetworkSide, eventName: string, eventArgs: seq<Value>, draws: RandomNibbles) returns (r: Outcome<Error>)
      requires Valid()
      modifies this
      ensures Valid() && issued == old(issued) && State() == old(State())
      ensures var step := EmitSpec(old(emitStrategies), old(pendingRequests), net.current, targetSide.name, eventName, eventArgs, UuidText(draws));
        log == old(log) + step.effects && r == step.outcome
      ensures listenerCleanup == old(listenerCleanup)
    {
      var emit := GetEmitStrategy(targetSide.name);
      if emit.Failure? {
        return Fail(emit.error);
      }
      var messageId := UuidV4(draws);
      EmitKeepsAtMostOnce(emitStrategies, pendingRequests, net.current, targetSide.name, eventName, eventArgs, messageId, log, issued);
      var currentSide := net.GetCurrentSide();
      if currentSide.Failure? {
        return Fail(currentSide.error);
      }
      log := log + [Emitted(emit.value, Envelope(messageId, currentSide.value.name, eventName, eventArgs))];
      return Pass;
    }

    /**
     * `request(targetSide, eventName, ...eventArgs)`; `draws` feed the fresh
     * message id and `promise` is the resolver of the returned promise, a new
     * one on every call as `new Promise` makes it. A failure is the rejection
     * of that promise.
     */
    method Request(targetSide: NetworkSide, eventName: string, eventArgs: seq<Value>, draws: RandomNibbles, promise: PromiseRef) returns (r: Outcome<Error>)
      requires Valid() && promise !in issued
      modifies this
      ensures Valid() && issued == old(issued) + {promise}
      ensures var step := RequestSpec(old(emitStrategies), old(pendingRequests), net.current, targetSide.name, eventName, eventArgs, UuidText(draws), promise);
        && State() == old(State()).(pending := step.pending)
        && log == old(log) + step.effects
        && r == step.outcome
      ensures listenerCleanup == old(listenerCleanup)
    {
      RequestKeepsAtMostOnce(emitStrategies, pendingRequests, net.current, targetSide.name, eventName, eventArgs, UuidText(draws), promise, log, issued);
      issued := issued + {promise};
      var emit := GetEmitStrategy(targetSide.name);
      if emit.Failure? {
        return Fail(emit.error);
      }
      var messageId := UuidV4(draws);
      pendingRequests := pendingRequests[messageId := promise];
      var currentSide := net.GetCurrentSide();
      if currentSide.Failure? {
        return Fail(currentSide.error);
      }
      log := log + [Emitted(emit.value, Envelope(messageId, currentSide.value.name, eventName, eventArgs))];
      return Pass;
    }

    /** `subscribe(eventName, handler)`; `draws` feed the fresh subscription id. */
    method Subscribe(eventName: string, subscriber: SubscriberRef, draws: RandomNibbles) returns (u: Unsubscriber)
      requires Valid()
      modifies this
      ensures Valid() && issued == old(issued)
      ensures u == Unsubscriber(eventName, UuidText(draws))
      ensures State() == old(State()).(subscriptions := Subscribed(old(subscriptionHandlers), eventName, u.subId, subscriber))
      ensures listenerCleanup == old(listenerCleanup) && log == old(log)
    {
      var subId := UuidV4(draws);
      if eventName !in subscriptionHandlers {
        subscriptionHandlers := subscriptionHandlers[eventName := []];
      }
      PutKeepsUnique(subscriptionHandlers[eventName], subId, subscriber);
      subscriptionHandlers := subscriptionHandlers[eventName := Put(subscriptionHandlers[eventName], subId, subscriber)];
      u := Unsubscriber(eventName, subId);
    }

    /** Calling the closure `subscribe` returned. Its event's table exists: `subscribe` created it. */
    method Unsubscribe(u: Unsubscriber)
      requires Valid() && u.eventName in subscriptionHandlers
      modifies this
      ensures Valid() && issued == old(issued)
      ensures State() == old(State()).(subscriptions := Unsubscribed(old(subscriptionHandlers), u))
      ensures listenerCleanup == old(listenerCleanup) && log == old(log)
    {
      DeleteKeepsUnique(subscriptionHandlers[u.eventName], u.subId);
      subscriptionHandlers := subscriptionHandlers[u.eventName := Delete(subscriptionHandlers[u.eventName], u.subId)];
    }
  }

  /**
   * In every state the channel's methods reach, each promise has been resolved
   * at most once so far. The history so far, followed by whatever envelopes
   * the channel goes on to receive, still resolves each promise at most once.
   */
  lemma ChannelResolvesAtMostOnce(ch: NetworkChannel, ms: seq<Envelope>, p: PromiseRef)
    requires ch.Valid()
    ensures Resolutions(ch.log, p) <= 1
    ensures Resolutions(ch.log + DeliverAll(ch.State(), ch.net.current, ch.net.sides, ms), p) <= 1
  {
    AtMostOnceBound(ch.log, ch.pendingRequests, ch.issued, p);
    ResolvedAtMostOnce(ch.State(), ch.net.current, ch.net.sides, ms, p);
    ResolutionsAppend(ch.log, DeliverAll(ch.State(), ch.net.current, ch.net.sides, ms), p);
  }
}
