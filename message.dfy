/**
 * The earlier message-type design: a named message type bound to a receiving
 * side, sent through the transport table, and a registry of types by name.
 */
module Message {
  import opened Wrappers
  import opened Errors
  import opened Sides
  import opened Envelopes
  import opened Transport

  /** `{requestId, type, from, payload}`. */
  datatype TransportMessage = TransportMessage(requestId: string, messageType: string, from: string, payload: Value)

  /** A message type: its name and the side that receives it (`receivingSide()`). */
  class NetworkMessage {
    const name: string
    const receivingSide: NetworkSide

    constructor (name: string, receivingSide: NetworkSide)
      ensures this.name == name && this.receivingSide == receivingSide
    {
      this.name := name;
      this.receivingSide := receivingSide;
    }

    /**
     * `createTransportMessage(payload)` with `requestId` the id the `uuid`
     * package drew and `current` the current side.
     */
    function CreateTransportMessage(current: NetworkSide, requestId: string, payload: Value): (m: TransportMessage)
      ensures m.requestId == requestId && m.messageType == name && m.from == current.name && m.payload == payload
    {
      TransportMessage(requestId, name, current.name, payload)
    }

    /**
     * `send(payload)`: build the message, look up the delegate for (current
     * side, receiving side) and throw if there is none; otherwise call it once
     * with the message and return the message.
     */
    method Send(transports: NetworkTransports, current: NetworkSide, payload: Value, requestId: string)
      returns (r: Result<TransportMessage, Error>, delivered: Option<(Delegate, TransportMessage)>)
      ensures transports.GetDelegate(current, receivingSide).None? ==>
        r == Failure(NotSupported(current.name, receivingSide.name)) && delivered == None
      ensures r.Failure? ==> Text(r.error) == "Transportation from " + current.name + " to " + receivingSide.name + " is not supported."
      ensures transports.GetDelegate(current, receivingSide).Some? ==>
        && r == Success(TransportMessage(requestId, name, current.name, payload))
        && delivered == Some((transports.GetDelegate(current, receivingSide).value, r.value))
    {
      var message := CreateTransportMessage(current, requestId, payload);
      var delegate := transports.GetDelegate(current, receivingSide);
      if delegate.None? {
        return Failure(NotSupported(current.name, receivingSide.name)), None;
      }
      delivered := Some((delegate.value, message));
      return Success(message), delivered;
    }

    /**
     * The listener `request(payload)` installs after sending `sent`: it consumes
     * and resolves with the payload only a message carrying the same request id.
     */
    function RequestListener(sent: TransportMessage, incoming: TransportMessage): (r: (bool, Option<Value>))
      ensures r.0 <==> incoming.requestId == sent.requestId
      ensures r.0 ==> r.1 == Some(incoming.payload)
      ensures !r.0 ==> r.1 == None
    {
      if incoming.requestId == sent.requestId then (true, Some(incoming.payload)) else (false, None)
    }
  }

  /** `NetworkMessageRegistry`: message types by name. */
  class NetworkMessageRegistry {
    var registry: map<string, NetworkMessage>

    /** Every type is stored under its own name. */
    ghost predicate Valid()
      reads this
    {
      forall k :: k in registry ==> registry[k].name == k
    }

    constructor ()
      ensures Valid() && registry == map[]
    {
      registry := map[];
    }

    /** `byName(name)`: the stored type with that name, or undefined. */
    function ByName(name: string): (r: Option<NetworkMessage>)
      requires Valid()
      reads this
      ensures r.Some? <==> name in registry
      ensures r.Some? ==> r.value.name == name && r.value == registry[name]
    {
      if name in registry then Some(registry[name]) else None
    }

    /** `register(message)`: store under its name, replacing an earlier one, and return it. */
    method Register(message: NetworkMessage) returns (r: NetworkMessage)
      requires Valid()
      modifies this
      ensures Valid()
      ensures r == message
      ensures registry == old(registry)[message.name := message]
      ensures ByName(message.name) == Some(message)
      ensures forall n :: n != message.name ==> ByName(n) == old(ByName(n))
    {
      registry := registry[message.name := message];
      return message;
    }
  }
}
