/**
  `KafkaTransportReceiver`: Symfony Messenger's receiver for this
  transport. Its generator pulls the connection's generator once per pull,
  decodes each record into an envelope stamped with the record, and ends
  at the first null; acknowledging commits the record of that stamp.
*/
module Receiver {
  import opened Wrappers
  import opened Kafka
  import opened Envelope
  import opened Failure
  import opened Collaborators
  import opened ConnectionSpec
  import opened Connection
  import JsonSerializer
  import Configuration
  import HeaderRoundTrip

  /** What one pull of the receiver's generator gives. */
  datatype Received =
    /** The decoded envelope, stamped with the record it came from. */
    | Delivered(envelope: Envelope)
    /** The generator has returned. */
    | Ended
    /** The generator throws. */
    | Failed(failure: Failure)

  /** A pull's outcome with the hook calls it makes. */
  datatype Step = Step(received: Received, logged: seq<Call>)

  /** `getEnvelope`'s input: the record's payload and headers as the serializer takes them. */
  function RecordEncoded(record: Record): JsonSerializer.Encoded {
    JsonSerializer.Encoded(record.payload, record.headers)
  }

  /** The record of an envelope's last `KafkaMessageStamp`, if it has one. */
  function StampedRecord(e: Envelope): Option<Record> {
    match Last(e, MessageClass)
    case Some(KafkaMessage(record)) => Some(record)
    case _ => None
  }

  /**
    One receiver pull from the connection generator's pull `pull`: a null
    or the end ends the stream, an exception passes through, and a record
    is decoded (a decoding failure is thrown), shown to `afterConsume` and
    delivered with a `KafkaMessageStamp` of the record.
  */
  function Convert(pull: Pull, serializer: Serializer, hook: Option<Hook>): (s: Step)
    ensures s.received.Delivered? <==>
      pull.Yielded? && pull.value.Some? && Decode(serializer, RecordEncoded(pull.value.value)).Ok?
    ensures s.received.Delivered? ==>
      && s.received.envelope.message == Decode(serializer, RecordEncoded(pull.value.value)).value.message
      && StampedRecord(s.received.envelope) == Some(pull.value.value)
      && s.logged == (if hook.Some? then [AfterConsume(Decode(serializer, RecordEncoded(pull.value.value)).value)] else [])
    ensures s.received.Failed? <==>
      pull.Threw? || (pull.Yielded? && pull.value.Some? && Decode(serializer, RecordEncoded(pull.value.value)).Err?)
    ensures pull.Threw? ==> s.received == Failed(pull.failure)
    ensures !s.received.Delivered? ==> s.logged == []
  {
    match pull
    case Finished => Step(Ended, [])
    case Threw(f) => Step(Failed(f), [])
    case Yielded(None) => Step(Ended, [])
    case Yielded(Some(record)) =>
      match Decode(serializer, RecordEncoded(record))
      case Err(f) => Step(Failed(f), [])
      case Ok(envelope) =>
        LastWith(envelope, KafkaMessage(record), MessageClass);
        Step(Delivered(With(envelope, KafkaMessage(record))),
             if hook.Some? then [AfterConsume(envelope)] else [])
  }

  /**
    A record the JSON serializer produced, from an envelope whose identifier
    routes to its message's class, is received as that message with every
    sendable stamp it was sent with and the record as its message stamp.
  */
  lemma ReceiveRoundTrip(e: Envelope, identifier: string, routingMap: seq<(string, string)>, classes: set<string>,
                         hook: Option<Hook>, record: Record, c: StampClass)
    requires WellFormed(e) && HeaderRoundTrip.CustomHeadersTravel(e)
    requires Last(e, SerializedMessageClass).None? && Last(e, IdentifierClass) == Some(Identifier(identifier))
    requires e.message.cls == JsonSerializer.Resolve(identifier, routingMap, classes)
    requires e.message.cls != "" && e.message.cls in classes
    requires RecordEncoded(record) == JsonSerializer.Encode(e)
    ensures var s := Convert(Yielded(Some(record)), Json(routingMap, classes), hook);
      && s.received.Delivered?
      && s.received.envelope.message == e.message
      && Last(s.received.envelope, c) ==
           if c == MessageClass then Some(KafkaMessage(record)) else if Sendable(c) then Last(e, c) else None
  {
    JsonSerializer.JsonRoundTrip(e, identifier, routingMap, classes, c);
    var decoded := JsonSerializer.Decode(JsonSerializer.Encode(e), routingMap, classes).value;
    LastWith(decoded, KafkaMessage(record), c);
  }

  /**
    In JSON mode a receiver pull that delivers an envelope leaves the
    connection's generator at its fallthrough, so the next pull ends the
    stream: each `get` delivers at most one envelope.
  */
  lemma AtMostOneEnvelope(pc: Pc, hasConsumer: bool, subscribed: bool, running: bool, consumes: nat, calls: seq<Call>,
                          topicsToFilter: seq<string>, env: Env, serializer: Serializer, hook: Option<Hook>)
    requires env.config.jsonSerialization.enabled
    ensures var r1 := Pulled(pc, hasConsumer, subscribed, running, consumes, calls, topicsToFilter, env);
      Convert(r1.pull, serializer, hook).received.Delivered? ==>
        var r2 := Pulled(r1.pc, hasConsumer, subscribed, r1.running, r1.consumes, r1.calls, topicsToFilter, env);
        Convert(r2.pull, serializer, hook).received == Ended && r2.calls == r1.calls
  {
    var r1 := Pulled(pc, hasConsumer, subscribed, running, consumes, calls, topicsToFilter, env);
    PulledYieldsRouted(pc, hasConsumer, subscribed, running, consumes, calls, topicsToFilter, env);
    if Convert(r1.pull, serializer, hook).received.Delivered? {
      RoutedPullEnds(r1.pc, hasConsumer, subscribed, r1.running, r1.consumes, r1.calls, topicsToFilter, env);
    }
  }

  /** The pull after a routed record yields the null and calls nothing. */
  lemma RoutedPullEnds(pc: Pc, hasConsumer: bool, subscribed: bool, running: bool, consumes: nat, calls: seq<Call>,
                       topicsToFilter: seq<string>, env: Env)
    requires pc.AfterRouted?
    ensures var r := Pulled(pc, hasConsumer, subscribed, running, consumes, calls, topicsToFilter, env);
      r.pull == Yielded(None) && r.calls == calls
  {
  }

  class KafkaTransportReceiver {
    const conn: KafkaConnection
    const config: Configuration.Configuration
    const hook: Option<Hook>
    const serializer: Serializer

    constructor (conn: KafkaConnection, config: Configuration.Configuration, hook: Option<Hook>, serializer: Serializer)
      ensures this.conn == conn && this.config == config && this.hook == hook && this.serializer == serializer
    {
      this.conn := conn;
      this.config := config;
      this.hook := hook;
      this.serializer := serializer;
    }

    /** `get`: a generator over the connection's generator for these queues. */
    method Get(queues: seq<string>) returns (s: ReceiverStream)
      ensures fresh(s) && fresh(s.inner) && !s.done
      ensures s.inner.conn == conn && s.inner.topicsToFilter == queues && s.inner.pc == Start
      ensures s.inner.timeout == ConsumeTimeout(conn.config)
      ensures s.serializer == serializer && s.hook == hook
    {
      var inner := conn.Get(queues);
      s := new ReceiverStream(inner, serializer, hook);
    }

    /**
      `ack`: commits the record of the envelope's last message stamp; an
      envelope without one fails on the null stamp and commits nothing.
    */
    method Ack(e: Envelope) returns (r: Result<(), Failure>)
      requires conn.Valid()
      modifies conn`consumer, conn`calls
      ensures conn.Valid()
      ensures StampedRecord(e).None? ==>
        r == Err(MissingMessageStamp) && conn.calls == old(conn.calls) && conn.consumer == old(conn.consumer)
      ensures StampedRecord(e).Some? ==>
        && r == Ok(()) && conn.consumer.Some?
        && conn.calls == old(conn.calls) + old(conn.ConsumerCreation())
             + AckCalls(StampedRecord(e).value, conn.config.consumer.commitAsync)
    {
      var stamp := Last(e, MessageClass);
      if !(stamp.Some? && stamp.value.KafkaMessage?) {
        return Err(MissingMessageStamp);
      }
      r := conn.Ack(Some(stamp.value.record));
    }

    /**
      `reject`: acknowledges the envelope exactly when the receiver's
      configuration commits on error, and otherwise does nothing.
    */
    method Reject(e: Envelope) returns (r: Result<(), Failure>)
      requires conn.Valid()
      modifies conn`consumer, conn`calls
      ensures conn.Valid()
      ensures !config.consumer.commitOnError ==>
        r == Ok(()) && conn.calls == old(conn.calls) && conn.consumer == old(conn.consumer)
      ensures config.consumer.commitOnError && StampedRecord(e).None? ==>
        r == Err(MissingMessageStamp) && conn.calls == old(conn.calls) && conn.consumer == old(conn.consumer)
      ensures config.consumer.commitOnError && StampedRecord(e).Some? ==>
        && r == Ok(())
        && conn.calls == old(conn.calls) + old(conn.ConsumerCreation())
             + AckCalls(StampedRecord(e).value, conn.config.consumer.commitAsync)
    {
      if config.consumer.commitOnError {
        r := Ack(e);
      } else {
        r := Ok(());
      }
    }
  }

  /**
    The generator `get` returns. Each `Next` pulls the connection's
    generator once; `done` is set once the generator has returned or
    thrown, after which it gives nothing more.
  */
  class ReceiverStream {
    const inner: ReceiveStream
    const serializer: Serializer
    const hook: Option<Hook>
    var done: bool

    ghost predicate Valid()
      reads inner`pc, inner.conn`calls, inner.conn`consumer, inner.conn`producer, inner.conn`consumerSubscribed
    {
      inner.Valid()
    }

    constructor (inner: ReceiveStream, serializer: Serializer, hook: Option<Hook>)
      ensures this.inner == inner && this.serializer == serializer && this.hook == hook && !done
    {
      this.inner := inner;
      this.serializer := serializer;
      this.hook := hook;
      done := false;
    }

    /** One pull of the generator. */
    method Next() returns (r: Received)
      requires Valid()
      modifies this`done, inner`pc, inner.conn`consumer, inner.conn`consumerSubscribed,
               inner.conn`consumerMustBeRunning, inner.conn`calls, inner.conn`consumes
      ensures Valid()
      ensures old(done) ==> r == Ended && done && unchanged(inner, inner.conn)
      ensures !old(done) ==>
        var run := old(inner.NextRun());
        var step := Convert(run.pull, serializer, hook);
        && r == step.received && done == !r.Delivered?
        && inner.pc == run.pc && inner.conn.consumes == run.consumes
        && inner.conn.consumerMustBeRunning == run.running
        && inner.conn.calls == run.calls + step.logged
    {
      if done {
        return Ended;
      }
      var pull := inner.Next();
      var step := Convert(pull, serializer, hook);
      if step.logged != [] {
        assert step.logged == [AfterConsume(step.logged[0].envelope)];
        inner.conn.Log(step.logged[0]);
      }
      r := step.received;
      done := !r.Delivered?;
    }
  }
}
