# monorepo-networker: a Dafny model of the message channel

This project models the core of monorepo-networker. That core is the runtime
each "side" of an application (a plugin host, its UI, a server) uses to
exchange named messages over transports it does not control. The model covers:

- `NetworkChannel` (`src/channel.ts`). It keeps four tables: message handlers
  per event name, subscriber records per event name, emit strategies per
  destination side name, and pending requests per message id.
  - `emit` and `request` build an envelope `{messageId, fromSide, eventName, payload}`
    and hand it to the strategy registered for the target side's name.
  - `receiveNetworkMessage` handles a response envelope (reserved event
    `__INTERNAL_RESPOND_EVENT`) by resolving and removing the matching pending
    request.
  - For any other envelope it calls every subscriber of the event, then the
    handler. The handler's result goes back to the sender in a response
    envelope that carries the original id.
- `NetworkHandler` (`src/handler.ts`), the earlier draft of the same engine. It
  has no subscribers, calls handlers with the payload only, and has no guard
  against unknown response ids.
- `MonorepoNetworker` (`src/networker.ts`): the current side, which can be set
  once, and the append-only list of sides with first-match lookup by name.
- `NetworkTransports` (`src/transport.ts`): delegates keyed by the (from, to)
  pair of side objects, where the first registration wins.
- `uuidV4` (`src/util/uuid_v4.ts`): the 36-character version-4 UUID string of
  RFC 4122 (section 3 for the layout, section 4.4 for random UUIDs).
- `NetworkMessage.send`, its `request` listener and `NetworkMessageRegistry`
  (`src/message.ts`): the earlier message-type design.

How the model is built:

- Every class whose fields the source updates in place is a Dafny `class`.
  Its methods have `modifies` clauses and are proved against value-level
  specification functions: `Channel.Dispatch`, `Handler.Receive`,
  `Outbound.EmitSpec` and `Outbound.RequestSpec`.
- The lemmas about those functions state what the source promises.
- Each class's `Valid()` holds after every method, so those lemmas apply to every
  state the methods reach. In particular, `Outbound.AtMostOnce` over the ghost
  `log` and the ghost set of resolvers `request` has been given (`issued`)
  says each promise is resolved at most once.
- Foreign functions are opaque tokens: emit strategies, subscribers, promise
  resolvers, `attachListener` and transport delegates. Every call the core
  makes into them is appended, in order, to a ghost `log` of `Effect`s.
- Message handlers are Dafny functions from the argument list to a value.
- The channel appends the sender to the arguments, as the source does
  (`...payload, getSide(fromSide)`). The sender is the side found by name, or
  `null`.
- Random ids are inputs. `uuidV4` takes its 36 random draws as a
  `RandomNibbles` parameter, and the `uuid` package id used by
  `src/message.ts` is a plain parameter.
- A JavaScript plain object used as a record (the per-event subscriber table)
  is modelled in `Records` as an ordered list of entries:
  - `Object.values` reports entries in insertion order, for keys that are not
    array indices, which `uuidV4` ids never are (they contain `-`);
  - assigning to an existing key keeps its position;
  - assigning to a new key appends;
  - `delete` removes the key.
- Exceptions are `Result`/`Outcome` values. For the `async` method `request`,
  a failure is the rejection of the returned promise.

In these points the model follows the code as written, not what its comments or names suggest:

- `createSide` does not reject duplicate names (`src/networker.ts:29-33`).
  `getSide` returns the earliest side with the name.
- The channel does not await handler results and always responds, even when
  the handler returns `undefined` (`src/channel.ts:115-128`). There is no
  "no response" signal.
- `initialize` does not check that the channel's side is the side being set.
- `request` records the pending entry before it reads the current side
  (`src/channel.ts:157-161`). When reading the current side throws, the request
  is rejected and its pending entry stays (`Outbound.RequestRecordsPending`).
- Emit strategies are keyed by side name. Transport delegates are keyed by side
  object, so two sides with the same name are different transport endpoints.

## Model

| member | source | states |
|---|---|---|
| `Records.Put` | src/channel.ts:174-175 | Assigning a key to a record gives it exactly the old keys plus that key. The record grows by one entry only when the key is new. |
| `Records.Delete` | src/channel.ts:177-179 | Deleting a key leaves exactly the old keys minus that one. |
| `Records.GetPut` | src/channel.ts:174-175 | After assigning, the key reads the assigned value and every other key reads what it read before. |
| `Records.GetDelete` | src/channel.ts:177-179 | After deleting, the key is absent and every other key reads what it read before. |
| `Records.DeleteIdempotent` | src/channel.ts:177-179 | Deleting the same key twice equals deleting it once. |
| `Records.PutExisting` | src/channel.ts:175 | With distinct keys, assigning to a key the record holds replaces that entry's value where it stands and changes nothing else. |
| `Records.PutFresh` | src/channel.ts:174-175 | A new key is appended after every existing entry, so `Object.values` lists it last. |
| `Records.DeletePutFresh` | src/channel.ts:172-179 | Adding a new key and deleting it again gives back the original record. |
| `Records.DeleteAt` | src/channel.ts:177-179 | With distinct keys, deleting the key at position i removes exactly that entry and keeps the others in order. |
| `Records.PutKeepsUnique` | src/channel.ts:175 | Assignment never makes a key appear twice. |
| `Records.DeleteKeepsUnique` | src/channel.ts:178 | Deletion never makes a key appear twice. |
| `Uuid.VariantNibble` | src/util/uuid_v4.ts:39-40 | Clearing bit 2 and setting bit 3 gives a value in 8..11 that keeps the draw's two low bits. |
| `Uuid.UuidV4` | src/util/uuid_v4.ts:33-43 | The loop that fills the 36-slot array, the overwrites in place, and the map/join loop together return exactly `UuidText(draws)`. |
| `Uuid.UuidTextLayout` | src/util/uuid_v4.ts:34-42 | The result has 36 characters. Positions 8, 13, 18 and 23 are `-`, position 14 is `4` and position 19 is one of `8`, `9`, `a`, `b`. Every other position is the lower-case hex digit of its own draw. |
| `Uuid.UuidTextIsVersion4` | src/util/uuid_v4.ts:3-31 | Every result is a version-4 UUID under the RFC 4122 grammar: groups of 8, 4, 4, 4 and 12 hex digits joined by `-`, with version digit 4 and variant bits 10. |
| `Uuid.DrawsRecoverable` | src/util/uuid_v4.ts:35-42 | The 30 kept draws can be read back from the string, and so can the two low bits of draw 19. Nothing else is altered. |
| `Uuid.DistinctDrawsDistinctIds` | src/util/uuid_v4.ts:35-36 | Draws that differ at a kept position give different ids. |
| `Networker.FindSide` | src/networker.ts:35-40 | The lookup returns a side in the list that carries the name, or `null` exactly when no side carries it. |
| `Networker.FindSideEarliest` | src/networker.ts:35-40 | The lookup returns the side at the first position that carries the name. |
| `Networker.FindSideAfterAppend` | src/networker.ts:29-40 | Appending a side changes the lookup only for a name no earlier side carries. A duplicate name keeps resolving to the earlier side. |
| `Networker.MonorepoNetworker.GetCurrentSide` | src/networker.ts:8-13 | Reading the current side before it is set fails with the message "Logical side is not initialized yet.". Afterwards it yields the side that was set. |
| `Networker.MonorepoNetworker.SetCurrentSide` | src/networker.ts:14-19 | The first set stores the side. Any later set fails with the message "Logical side can be declared only once." and leaves the stored side unchanged. |
| `Networker.MonorepoNetworker.CreateSide` | src/networker.ts:29-33 | Appends exactly one new side with the given name and returns it. Duplicate names are not rejected. |
| `Networker.MonorepoNetworker.GetSide` | src/networker.ts:35-40 | The `for` loop returns the earliest side with the name, or `null`. |
| `NetworkerInit.Initialize` | src/networker.ts:21-27 | Sets the current side of the one networker the channel reads, then initializes the channel; its tables and issued resolvers stay as they were, so requests can follow. A second call fails before `init` runs and leaves the channel unchanged. |
| `Transport.NetworkTransports.GetDelegate` | src/transport.ts:12-14 | A pair that was never registered yields undefined. A registered pair yields its delegate. |
| `Transport.NetworkTransports.Register` | src/transport.ts:16-24 | After registering, the pair has a delegate. The first registration for a pair wins. No other pair changes, including the reverse pair. |
| `Outbound.StrategyFor` | src/channel.ts:78-92 | Returns the strategy registered for the side name. Otherwise it fails with "No emit strategy" naming the current side, or with "not initialized" when no current side is set. |
| `Outbound.EmitSendsOneEnvelope` | src/channel.ts:133-146 | `emit` hands exactly one envelope to the target's strategy: the fresh id, the current side's name, the event name and the arguments. Without a strategy or a current side it throws and emits nothing. |
| `Outbound.RequestKeepsInjective` | src/channel.ts:156-157 | A request with its own new resolver keeps every resolver pending under one id at most, even when its id overwrites a pending one. |
| `Outbound.RequestKeepsAtMostOnce` | src/channel.ts:152-164 | A request with a resolver never given before keeps the at-most-once invariant: nothing is resolved, and the new resolver, never resolved, becomes pending at most once. |
| `Outbound.EmitKeepsAtMostOnce` | src/channel.ts:133-146 | `emit` resolves nothing and leaves the pending table alone, so it keeps the at-most-once invariant. |
| `Outbound.RequestRecordsPending` | src/channel.ts:148-166 | Without a strategy, `request` throws before recording anything. Otherwise it records the resolver under the new id, and the emitted envelope carries that id. With no current side the entry stays and nothing is emitted. |
| `Channel.RespondResolvesPending` | src/channel.ts:95-101 | A response whose id is pending removes exactly that entry and resolves it with `payload[0]`. No subscriber or handler runs. |
| `Channel.UnknownResponseIgnored` | src/channel.ts:95-102 | A response with an unknown id changes nothing and does not throw. |
| `Channel.DuplicateResponseIgnored` | src/channel.ts:95-102 | Dispatching the same response twice is a no-op the second time. |
| `Channel.ResolvesOnlyMatchingRequest` | src/channel.ts:95-100 | Every resolution comes from a response envelope. It goes to the resolver pending under that envelope's id and under no other id. |
| `Channel.EventNotifiesSubscribers` | src/channel.ts:104-111 | Any other envelope leaves pending requests alone. It first calls every subscriber of its event, in subscription order, with the payload followed by the sender. |
| `Channel.NoHandlerNoResponse` | src/channel.ts:113-130 | With no handler for the event, nothing is emitted and nothing is thrown. |
| `Channel.HandlerResponds` | src/channel.ts:113-130 | With a handler, the handler runs after the subscribers. Exactly one envelope goes to the strategy for the sender's name, carrying the same id, the sender's name, the reserved event name and `[result]`. |
| `Channel.HandlerWithoutRouteThrows` | src/channel.ts:113-120 | With a handler but no strategy for the sender, dispatch throws after the handler ran and emits nothing. |
| `Channel.RequestThenRespond` | src/channel.ts:154-164 | A request followed by the response carrying its id resolves the request's own promise with the response value and restores the pending table. |
| `Channel.DispatchResolutions` | src/channel.ts:95-102 | One dispatch resolves a promise once exactly when it is a response for the id pending under that promise, and zero times otherwise. |
| `Channel.DispatchKeepsInjective` | src/channel.ts:95-102 | A dispatch only removes pending entries, so no resolver ends up pending under two ids. |
| `Channel.ResolvedAtMostOnce` | src/channel.ts:94-102 | Over any sequence of inbound envelopes, each promise is resolved at most once, and only a promise that was pending is resolved at all. |
| `Channel.DispatchKeepsAtMostOnce` | src/channel.ts:95-102 | A dispatch keeps the at-most-once invariant: it resolves only the resolver pending under the response's id, and that resolver stops being pending. |
| `Channel.ChannelResolvesAtMostOnce` | src/channel.ts:94-166 | In every state the channel's methods reach, its own history has resolved each promise at most once. That still holds after any further envelopes it receives. |
| `Channel.SubscribeAppends` | src/channel.ts:172-175 | A fresh subscription is called after every earlier subscriber of its event. Other events are untouched. |
| `Channel.UnsubscribeRemovesOnlyOwn` | src/channel.ts:177-179 | The unsubscribe closure removes its own id only. Every other subscription of every event keeps its subscriber. |
| `Channel.UnsubscribeKeepsOrder` | src/channel.ts:177-179 | The remaining subscribers of the event keep their order. |
| `Channel.UnsubscribeTwiceHarmless` | src/channel.ts:177-179 | Calling the unsubscribe closure twice equals calling it once. |
| `Channel.SubscribeThenUnsubscribe` | src/channel.ts:172-179 | Subscribing and then unsubscribing restores the subscriber tables. The event's table may now exist, empty, as `??= {}` leaves it. |
| `Channel.UnsubscribedNotNotified` | src/channel.ts:104-111 | After unsubscribing, dispatching that event never calls the removed subscription. |
| `Channel.NetworkChannel.Init` | src/channel.ts:61-65 | Calls `attachListener` when configured and keeps what it returns. Otherwise the cleanup is undefined. The tables do not change. |
| `Channel.NetworkChannel.RegisterEmitStrategy` | src/channel.ts:67-69 | Stores the strategy under the side's name, overwriting any earlier one. Nothing else changes. |
| `Channel.NetworkChannel.RegisterMessageHandler` | src/channel.ts:71-76 | Stores the handler under the event name, overwriting any earlier one. Nothing else changes. |
| `Channel.NetworkChannel.GetEmitStrategy` | src/channel.ts:78-92 | Returns the registered strategy, or the error `Outbound.StrategyFor` describes. |
| `Channel.NetworkChannel.ReceiveNetworkMessage` | src/channel.ts:94-131 | The new pending table, the calls made (the `forEach` loop over subscribers, then the handler and the response), and the outcome are exactly `Channel.Dispatch`'s. The other tables do not change. |
| `Channel.NetworkChannel.Emit` | src/channel.ts:133-146 | The calls made and the outcome are `Outbound.EmitSpec`'s with the id `uuidV4` produced. No table changes. |
| `Channel.NetworkChannel.Request` | src/channel.ts:148-166 | The pending table, calls and outcome are `Outbound.RequestSpec`'s with the id `uuidV4` produced. The resolver is one never given before, as `new Promise` makes a new one per call. It joins the issued set, and the channel keeps its at-most-once invariant. |
| `Channel.NetworkChannel.Subscribe` | src/channel.ts:168-176 | Records the subscriber under a fresh `uuidV4` id in its event's table, creating the table if missing. Returns the closure for that event and id, and keeps every table's keys distinct. |
| `Channel.NetworkChannel.Unsubscribe` | src/channel.ts:177-179 | Deletes the closure's id from its event's table and changes nothing else. |
| `Handler.RespondResolvesPending` | src/handler.ts:65-70 | A response whose id is pending removes that entry and resolves it with `payload[0]`. |
| `Handler.UnknownResponseThrows` | src/handler.ts:65-69 | A response with an unknown id throws, because the missing resolver is called. The delete is a no-op and nothing is resolved. |
| `Handler.DuplicateResponseThrows` | src/handler.ts:65-69 | Delivering the same response twice makes the second delivery throw. |
| `Handler.HandlerResponds` | src/handler.ts:72-83 | The handler gets the payload only, with no sender. Exactly one response envelope with the same id, the sender's name, the reserved event name and `[result]` goes to the sender's strategy. |
| `Handler.HandlerWithoutRouteThrows` | src/handler.ts:72-77 | With a handler but no strategy for the sender, receiving throws and emits nothing. |
| `Handler.ReceiveKeepsInjective` | src/handler.ts:64-70 | Receiving only removes pending entries, so no resolver ends up pending under two ids. |
| `Handler.ReceiveResolutions` | src/handler.ts:64-70 | One receive resolves a promise once exactly when it is a response for the id pending under that promise, and zero times otherwise, including the throwing unknown-id case. |
| `Handler.ReceiveKeepsAtMostOnce` | src/handler.ts:64-84 | Receiving keeps the at-most-once invariant: it resolves only the resolver pending under the response's id, which then stops being pending. |
| `Handler.HandlerResolvesAtMostOnce` | src/handler.ts:64-119 | In every state the draft handler's methods reach, its history has resolved each promise at most once. |
| `Handler.NoHandlerNoResponse` | src/handler.ts:72-84 | Without a handler, receiving does nothing. |
| `Handler.NetworkHandler.Init` | src/handler.ts:31-35 | Calls `attachListener` when configured and keeps the reference it returns. |
| `Handler.NetworkHandler.RegisterEmitStrategy` | src/handler.ts:37-39 | Replaces any earlier strategy for the same side name. Nothing else changes. |
| `Handler.NetworkHandler.RegisterMessageHandler` | src/handler.ts:41-46 | Stores the handler under the event name, overwriting any earlier one. |
| `Handler.NetworkHandler.GetEmitStrategy` | src/handler.ts:48-62 | Returns the registered strategy. Otherwise it throws, as `Outbound.StrategyFor` describes. |
| `Handler.NetworkHandler.ReceiveNetworkerMessage` | src/handler.ts:64-84 | The new pending table, the calls made and the outcome are exactly `Handler.Receive`'s, including the unconditional delete. |
| `Handler.NetworkHandler.Emit` | src/handler.ts:86-99 | The calls and outcome are `Outbound.EmitSpec`'s with the id `uuidV4` produced. |
| `Handler.NetworkHandler.Request` | src/handler.ts:101-119 | The pending table, calls and outcome are `Outbound.RequestSpec`'s with the id `uuidV4` produced. The resolver is one never given before. It joins the issued set, and the handler keeps its at-most-once invariant. |
| `Message.NetworkMessage.CreateTransportMessage` | src/message.ts:24-32 | The message carries the drawn request id, the type's name, the current side's name and the payload. |
| `Message.NetworkMessage.Send` | src/message.ts:34-49 | With no delegate for (current side, receiving side), `send` throws "Transportation from … to … is not supported." with both side names and invokes nothing. Otherwise it invokes that delegate exactly once with the built message and returns the same message. |
| `Message.NetworkMessage.RequestListener` | src/message.ts:51-66 | The listener consumes a message and resolves with its payload exactly when the request ids match, whatever its type, sender or payload. Otherwise it reports false and resolves nothing. |
| `Message.NetworkMessageRegistry.ByName` | src/message.ts:72-74 | Returns the type stored under the name, whose own name is that name, or undefined. |
| `Message.NetworkMessageRegistry.Register` | src/message.ts:76-79 | Stores the type under its name, replacing an earlier one, and returns its argument. Every other name still reads what it did. |

## Left out

- Promises and `async`. A pending resolver is a token. A resolution is the `Resolved` effect in the log, and a rejection is a failing outcome. When a promise settles relative to other work is not modelled.
- Foreign code. Handlers are pure functions. Subscribers, strategies and delegates are tokens that only receive calls. A subscriber or handler that throws, has side effects, or calls back into the channel before the dispatch finishes is not modelled.
- The dispatch callback `init` hands to `attachListener`. Only the call to `attachListener` and its return value are modelled. `detachListener` is never called by the source.
- Lookups on plain objects also find `Object.prototype` members, for example an event named `toString`. The model treats only registered names as present.
- `Handler.NetworkHandler.Init` hands over the receive callback as if it were bound to the handler. `src/handler.ts:33` passes `this.receiveNetworkerMessage` unbound. In class code, which is strict mode, `this` is then not the handler when the listener calls it. So, as written, every inbound message that reaches `receiveNetworkerMessage` through the listener throws a `TypeError` at its first `this.pendingRequests` or `this.messageHandlers` access. The model's receive method always runs on its own object.
- Randomness and uniqueness of ids. The 36 draws of `Math.random` are an input, and ids are not proved unique. A colliding id overwrites a pending entry or a subscription, as the source would.
- `Envelopes.Value`: its numbers (`Num`) are unbounded integers, not JavaScript floating-point numbers, wherever a payload or a handler result carries one.
- `Message.NetworkMessage.Send` takes the current side as a parameter. `src/message.ts:25,35` read the static `NetworkSide.current`, which `src/side.ts` does not define. As written, `currentSide` is `undefined`, so `currentSide.getName()` at `src/message.ts:29` throws a `TypeError` on every `send`, before any delegate is looked up.
- `Message.NetworkMessage.RequestListener` is the listener `request` installs. Its registration through `NetworkSide.current.beginListening` (`src/message.ts:55`) is not part of this model: neither `current` nor `beginListening` exists on `NetworkSide`, and as written `request` throws in `send` before it gets there. The abstract `handle` is not part of this model either.
- `NetworkSide.extend` and the TypeScript generic typing (`TrimMethodsReturning`, `Parameters<>`, `ReturnType<>`). Payloads are untyped lists of values.
- `Outbound.StrategyFor` reads the current side through the `currentSide` getter of `src/networker.ts:8-13`. As written, `src/channel.ts:85` calls `MonorepoNetworker.getCurrentSide()`, which `src/networker.ts` does not define. So a missing strategy throws a `TypeError` instead of "No emit strategy…" or "not initialized".
- `Channel.NetworkChannel.Emit` uses the same getter. As written, `src/channel.ts:142` calls the undefined `getCurrentSide()`, so every `emit` throws a `TypeError` before its strategy is called.
- `Channel.NetworkChannel.Request` uses the same getter. As written, `src/channel.ts:161` calls the undefined `getCurrentSide()`, so every `request` that found a strategy records its pending entry and is then rejected with a `TypeError`.
- `Channel.NetworkChannel.GetEmitStrategy` inherits the getter through `Outbound.StrategyFor`. As written, its missing-strategy path at `src/channel.ts:85` throws a `TypeError` from the undefined `getCurrentSide()`. The draft `src/handler.ts:55,95,114` reads the `currentSide` getter itself, so `Handler.NetworkHandler` follows its code exactly.
- `Channel.NetworkChannel.ReceiveNetworkMessage` inherits the getter through `Outbound.StrategyFor` (`Channel.HandlerWithoutRouteThrows`). As written, when there is a handler but no strategy for the sender, `src/channel.ts:120` reaches `:85` and throws a `TypeError`, not `NoEmitStrategy` or `NotInitialized`. The handler has already run by then, and nothing is emitted, as the model says.
- The `listenerRef` field of `NetworkChannel`, which is declared but never assigned.
- `src/initializer.ts` and `src/util/NetworkError.ts` refer to APIs the shown sources do not define. They are not part of this model.

## Findings

| source | as written | input that shows it | evidently intended | confidence | as-written member | corrected member |
|---|---|---|---|---|---|---|
| src/handler.ts:65-69 | deletes the pending entry and calls its resolver without checking that one exists | a response envelope whose `messageId` is not pending, for example a second copy of an already answered response | ignore the envelope, as the later `src/channel.ts:96-100` does | high; not executed | `Handler.UnknownResponseThrows` | `Channel.UnknownResponseIgnored` |
