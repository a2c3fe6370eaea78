/**
  `KafkaTransportSender`: Symfony Messenger's sender for this transport.
  It applies the hook, encodes the envelope, reads the Kafka placement from
  the stamps, and hands the message to the connection, wrapping the
  exceptions of the delivery in a transport exception.
*/
module Sender {
  import opened Wrappers
  import opened Kafka
  import opened Envelope
  import opened Failure
  import opened Collaborators
  import opened ConnectionSpec
  import opened Connection

  /** The envelope after the hook's `beforeProduce`. */
  function Hooked(hook: Option<Hook>, e: Envelope): Envelope {
    if hook.Some? then hook.value.beforeProduce(e) else e
  }

  /**
    The message `send` means to deliver: the hooked envelope encoded as it
    is (non-sendable stamps included), at the placement its stamps give.
  */
  function SentMessage(serializer: Serializer, hook: Option<Hook>, e: Envelope): (m: Outgoing)
    requires WellFormed(Hooked(hook, e))
    ensures m.partition == PartitionUnassigned && m.flags == ConfOk
    ensures Placement(m.partition, m.flags, m.key) == Metadata(Hooked(hook, e))
    ensures m.body == Encode(serializer, Hooked(hook, e)).body && m.headers == Encode(serializer, Hooked(hook, e)).headers
  {
    var envelope := Hooked(hook, e);
    var decodedEnvelope := Encode(serializer, envelope);
    var placement := Metadata(envelope);
    Outgoing(placement.partition, placement.flags, decodedEnvelope.body, placement.key, decodedEnvelope.headers)
  }

  /**
    The key stamp the hook leaves on the envelope reaches the broker: unlike
    the connection's own `produce`, which strips the stamps first, `send`
    encodes and places the envelope with its stamps.
  */
  lemma SentKey(serializer: Serializer, hook: Option<Hook>, e: Envelope, key: string)
    requires WellFormed(Hooked(hook, e)) && Last(Hooked(hook, e), KeyClass) == Some(KafkaKey(key))
    ensures SentMessage(serializer, hook, e).key == Some(key)
  {
    MetadataKey(Hooked(hook, e), key);
  }

  /**
    What `send` returns or throws once the delivery has ended with
    `delivered`: the hooked envelope, an exception wrapped in a transport
    exception, or an error passed through.
  */
  function SendResult(delivered: Result<(), Failure>, envelope: Envelope): (r: Result<Envelope, Failure>)
    ensures delivered.Ok? <==> r.Ok?
    ensures r.Ok? ==> r.value == envelope
    ensures delivered.Err? && delivered.error.IsException() ==> r == Err(Transport(delivered.error))
    ensures delivered.Err? && !delivered.error.IsException() ==> r == Err(delivered.error)
  {
    match delivered
    case Ok(_) => Ok(envelope)
    case Err(f) => if f.IsException() then Err(Transport(f)) else Err(f)
  }

  /**
    A failed `send` reports a missing identifier or a failed flush inside a
    transport exception, or a topic that is not a string as the type error
    itself.
  */
  lemma SendFailures(config: Configuration.Configuration, broker: Broker, hasProducer: bool, flushes: nat,
                     message: Outgoing, envelope: Envelope)
    ensures var r := SendResult(ProduceEffect(config, broker, hasProducer, flushes, message).result, envelope);
      r.Err? ==>
        || r.error == Transport(IdentifierMissing)
        || r.error == TopicNotString
        || r.error == Transport(Transport(FlushFailed(broker.flush(flushes + MaxFlushAttempts - 1))))
  {
    if RoutingTopic(config, message.headers).Ok? {
      ProduceFailures(config, broker, hasProducer, flushes, message);
    }
  }

  class KafkaTransportSender {
    const conn: KafkaConnection
    const hook: Option<Hook>
    const serializer: Serializer

    constructor (conn: KafkaConnection, hook: Option<Hook>, serializer: Serializer)
      ensures this.conn == conn && this.hook == hook && this.serializer == serializer
    {
      this.conn := conn;
      this.hook := hook;
      this.serializer := serializer;
    }

    /**
      `send` as written: it calls `produce` with named arguments
      (`partition:`, `messageFlags:`, ...) that `KafkaConnection::produce`
      does not declare, so the call fails with an `Error` before anything is
      sent, and `catch (Exception $e)` does not intercept it.
    */
    method SendAsWritten(e: Envelope) returns (r: Result<Envelope, Failure>)
      requires WellFormed(Hooked(hook, e))
      ensures r == Err(UnknownNamedParameter("partition"))
    {
      var envelope := Hooked(hook, e);
      var decodedEnvelope := Encode(serializer, envelope);
      var placement := Metadata(envelope);
      r := Err(UnknownNamedParameter("partition"));
    }

    /**
      `send` as intended: the encoded message at its placement is delivered
      by the connection (routing, topics, flush), `afterProduce` is called
      on success, exceptions are wrapped and the hooked envelope returned.
    */
    method Send(e: Envelope) returns (r: Result<Envelope, Failure>)
      requires conn.Valid() && WellFormed(Hooked(hook, e))
      modifies conn`producer, conn`calls, conn`flushes
      ensures conn.Valid()
      ensures var effect := ProduceEffect(conn.config, conn.broker, old(conn.producer).Some?, old(conn.flushes),
                                          SentMessage(serializer, hook, e));
        && conn.flushes == effect.flushes
        && conn.calls == old(conn.calls) + effect.calls
             + (if effect.result.Ok? && hook.Some? then [AfterProduce(Hooked(hook, e))] else [])
        && r == SendResult(effect.result, Hooked(hook, e))
    {
      var envelope := Hooked(hook, e);
      var message := SentMessage(serializer, hook, e);
      var delivered := conn.Deliver(message);
      if delivered.Ok? && hook.Some? {
        conn.Log(AfterProduce(envelope));
      }
      r := SendResult(delivered, envelope);
    }
  }
}
