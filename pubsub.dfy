/** The publish/subscribe registry behind the chat service. With an empty broker
    address it is an in-process table from channel name to handlers; otherwise
    every channel is named `prefix:channel` on the broker, messages are encoded on
    publish and decoded on receipt, and a payload that does not decode is dropped.
    Channels match by exact name: there are no wildcards. */
module PubSubBridge {
  import opened Wrappers

  /** A subscriber's callback, known by identity only. */
  type Handler = nat

  const DefaultPrefix := "swgestor"

  function FullName(prefix: string, channel: string): string {
    prefix + ":" + channel
  }

  /** Distinct channels get distinct broker names. */
  lemma FullNameInjective(prefix: string, a: string, b: string)
    requires FullName(prefix, a) == FullName(prefix, b)
    ensures a == b
  {
    var n := |prefix| + 1;
    assert a == FullName(prefix, a)[n..];
    assert b == FullName(prefix, b)[n..];
  }

  /** Position of the most recent instance of `h`, or -1 when there is none. */
  function LastIndex(hs: seq<Handler>, h: Handler): (i: int)
    ensures -1 <= i < |hs|
    ensures i == -1 <==> h !in hs
    ensures i >= 0 ==> hs[i] == h && h !in hs[i + 1..]
  {
    if hs == [] then -1
    else if hs[|hs| - 1] == h then |hs| - 1
    else
      var i := LastIndex(hs[..|hs| - 1], h);
      assert i >= 0 ==> hs[i + 1..] == hs[..|hs| - 1][i + 1..] + [hs[|hs| - 1]];
      i
  }

  /** `EventEmitter.off(name, h)`: the most recently added instance of `h` goes, the
      other handlers stay in order. */
  function RemoveLast(hs: seq<Handler>, h: Handler): (r: seq<Handler>)
    ensures h !in hs ==> r == hs
    ensures h in hs ==> r == hs[..LastIndex(hs, h)] + hs[LastIndex(hs, h) + 1..]
    ensures multiset(r) == multiset(hs) - multiset{h}
    ensures |r| == if h in hs then |hs| - 1 else |hs|
  {
    var i := LastIndex(hs, h);
    if i < 0 then hs
    else
      assert hs == hs[..i] + [h] + hs[i + 1..];
      hs[..i] + hs[i + 1..]
  }

  /** The handlers registered under `name`, in subscription order. */
  function Listeners(table: map<string, seq<Handler>>, name: string): seq<Handler> {
    if name in table then table[name] else []
  }

  datatype BrokerMessage = BrokerMessage(channel: string, payload: string)

  /** What a publish (or, in broker mode, a receipt) does. */
  datatype Outcome<M> =
    | Invoked(handlers: seq<Handler>, message: M)  // these handlers run, in order, with the message
    | Sent(out: BrokerMessage)                       // handed to the broker's publishing connection
    | Dropped                                        // a received payload that is thrown away
    | Threw                                          // `emit('error')` with no listener raises

  /** `emitter.emit(name, message)`: every handler of exactly that name; the emitter's
      reserved 'error' event raises when nobody listens. */
  function Emit<M>(table: map<string, seq<Handler>>, name: string, message: M): (r: Outcome<M>)
    ensures r.Threw? <==> name == "error" && Listeners(table, name) == []
    ensures !r.Threw? ==> r == Invoked(Listeners(table, name), message)
  {
    if name == "error" && Listeners(table, name) == [] then Threw else Invoked(Listeners(table, name), message)
  }

  /** The broker connection's 'message' callback: decode, then emit; a failure of
      either is swallowed. */
  function Receipt<M>(table: map<string, seq<Handler>>, name: string, payload: string,
                      decode: string -> Option<M>): (r: Outcome<M>)
    ensures decode(payload).None? ==> r == Dropped
    ensures r.Invoked? ==> r.handlers == Listeners(table, name) && Some(r.message) == decode(payload)
    ensures r.Invoked? || r.Dropped?
    ensures decode(payload).Some? && name != "error" ==> r == Invoked(Listeners(table, name), decode(payload).value)
  {
    match decode(payload)
    case None => Dropped
    case Some(m) => if Emit(table, name, m).Threw? then Dropped else Emit(table, name, m)
  }

  /** A message published in broker mode and delivered back by the broker reaches
      exactly the local handlers of its channel, unchanged, when decoding undoes encoding. */
  lemma BrokerRoundTrip<M>(table: map<string, seq<Handler>>, prefix: string, channel: string, message: M,
                           encode: M -> string, decode: string -> Option<M>)
    requires decode(encode(message)) == Some(message)
    ensures Receipt(table, FullName(prefix, channel), encode(message), decode)
            == Invoked(Listeners(table, FullName(prefix, channel)), message)
  {
    FullNameNotError(prefix, channel);
  }

  /** A broker name always holds the separator, so it is never the reserved 'error' event. */
  lemma FullNameNotError(prefix: string, channel: string)
    ensures FullName(prefix, channel) != "error"
  {
    var n := FullName(prefix, channel);
    assert n[|prefix|] == ':';
    assert forall i :: 0 <= i < |"error"| ==> "error"[i] != ':';
  }

  /** The handle returned by `subscribe`: calling it removes that handler. */
  datatype Subscription = Subscription(name: string, handler: Handler)

  class PubSub<M> {
    const brokerMode: bool
    const prefix: string
    const encode: M -> string
    const decode: string -> Option<M>
    /** The local emitter's listener table, keyed by the name actually used. */
    var table: map<string, seq<Handler>>
    /** Broker channels the receiving connection has subscribed to. */
    var brokerChannels: set<string>
    /** Messages handed to the publishing connection, in order. */
    var outbox: seq<BrokerMessage>

    ghost predicate Valid()
      reads this
    {
      && (!brokerMode ==> brokerChannels == {} && outbox == [])
      && (brokerMode ==> forall name :: name in table && table[name] != [] ==> name in brokerChannels)
    }

    /** The name a channel is registered and published under. */
    function Name(channel: string): (n: string)
      reads this
      ensures brokerMode ==> n == FullName(prefix, channel)
      ensures !brokerMode ==> n == channel
    {
      if brokerMode then FullName(prefix, channel) else channel
    }

    /** `createPubSub({ redisUrl, channelPrefix })`: a non-empty address selects broker mode. */
    constructor (redisUrl: string, encode: M -> string, decode: string -> Option<M>, channelPrefix: string := DefaultPrefix)
      ensures Valid()
      ensures brokerMode <==> redisUrl != ""
      ensures prefix == channelPrefix && this.encode == encode && this.decode == decode
      ensures table == map[] && brokerChannels == {} && outbox == []
    {
      brokerMode := redisUrl != "";
      prefix := channelPrefix;
      this.encode := encode;
      this.decode := decode;
      table := map[];
      brokerChannels := {};
      outbox := [];
    }

    /** `subscribe(channel, handler)`: the handler joins the end of its channel's list;
        in broker mode the receiving connection also subscribes to the broker name. */
    method Subscribe(channel: string, handler: Handler) returns (unsubscribe: Subscription)
      requires Valid()
      modifies this
      ensures Valid()
      ensures table == old(table)[Name(channel) := old(Listeners(table, Name(channel))) + [handler]]
      ensures brokerChannels == if brokerMode then old(brokerChannels) + {Name(channel)} else old(brokerChannels)
      ensures outbox == old(outbox)
      ensures unsubscribe == Subscription(Name(channel), handler)
    {
      var name := Name(channel);
      table := table[name := Listeners(table, name) + [handler]];
      if brokerMode {
        brokerChannels := brokerChannels + {name};
      }
      unsubscribe := Subscription(name, handler);
    }

    /** Calling the function `subscribe` returned: that handler goes from that name,
        nothing else changes (the broker subscription stays). */
    method Unsubscribe(s: Subscription)
      requires Valid()
      modifies this
      ensures Valid()
      ensures forall name :: Listeners(table, name)
                == if name == s.name then RemoveLast(old(Listeners(table, name)), s.handler) else old(Listeners(table, name))
      ensures brokerChannels == old(brokerChannels) && outbox == old(outbox)
    {
      if s.name in table {
        table := table[s.name := RemoveLast(table[s.name], s.handler)];
      }
    }

    /** `publish(channel, message)`: in-process, the channel's handlers run now;
        in broker mode the encoded message goes to the broker under the full name. */
    method Publish(channel: string, message: M) returns (r: Outcome<M>)
      requires Valid()
      modifies this
      ensures Valid()
      ensures !brokerMode ==> r == Emit(table, channel, message) && outbox == old(outbox)
      ensures brokerMode ==> r == Sent(BrokerMessage(FullName(prefix, channel), encode(message)))
                             && outbox == old(outbox) + [r.out]
      ensures table == old(table) && brokerChannels == old(brokerChannels)
    {
      if brokerMode {
        var out := BrokerMessage(FullName(prefix, channel), encode(message));
        outbox := outbox + [out];
        r := Sent(out);
      } else {
        r := Emit(table, channel, message);
      }
    }

    /** The broker delivers `payload` on a channel the receiving connection subscribed to. */
    method Receive(channel: string, payload: string) returns (r: Outcome<M>)
      requires Valid() && brokerMode
      ensures r == Receipt(table, channel, payload, decode)
    {
      r := Receipt(table, channel, payload, decode);
    }
  }
}
