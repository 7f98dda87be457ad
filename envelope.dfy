/**
 * The wire envelope exchanged between sides, the untyped values it carries,
 * the opaque references to foreign callbacks, and the effects the channel has
 * on them.
 */
module Envelopes {
  import opened Sides

  /** The reserved event name of a response envelope. */
  const INTERNAL_RESPOND_EVENT: string := "__INTERNAL_RESPOND_EVENT"

  /** A payload element: plain structured data, or a side object passed to a listener. */
  datatype Value =
    | Undefined
    | Null
    | Bool(b: bool)
    | Num(n: int)
    | Str(s: string)
    | List(items: seq<Value>)
    | SideRef(side: NetworkSide)

  /** `{messageId, fromSide, eventName, payload}`. */
  datatype Envelope = Envelope(messageId: string, fromSide: string, eventName: string, payload: seq<Value>)

  /** Reading `payload[i]` in JavaScript: `undefined` past the end. */
  function At(payload: seq<Value>, i: nat): Value
  {
    if i < |payload| then payload[i] else Undefined
  }

  /** The sender argument appended to a listener call: the side found by name, or `null`. */
  function SenderArg(side: NetworkSide?): Value
  {
    if side == null then Null else SideRef(side)
  }

  /** An emit strategy: a foreign function that transmits one envelope to one side. */
  datatype Consumer = Consumer(id: nat)
  /** The resolve function of a promise returned by `request`. */
  datatype PromiseRef = PromiseRef(id: nat)
  /** A foreign subscription callback. */
  datatype SubscriberRef = SubscriberRef(id: nat)
  /** The `attachListener` function of a channel's configuration. */
  datatype AttachFn = AttachFn(id: nat)
  /** Whatever `attachListener` returned: a teardown function or a listener reference. */
  datatype ListenerHandle = ListenerHandle(id: nat)

  /** What the core does to the world outside it, in order. */
  datatype Effect =
    | Emitted(consumer: Consumer, envelope: Envelope)
    | Resolved(promise: PromiseRef, value: Value)
    | Notified(subId: string, subscriber: SubscriberRef, args: seq<Value>)
    | Handled(eventName: string, args: seq<Value>)
    | Attached(attach: AttachFn)
}
