/**
  `KafkaConnection` as a stateful object. It holds the lazily created
  consumer and producer, the subscription and running flags, and a log of
  every call it makes on the broker client and on the hook. Each method is
  proved against the functions of `ConnectionSpec`.
*/
module Connection {
  import opened Wrappers
  import opened OrderedMap
  import opened PhpValue
  import opened Kafka
  import opened Envelope
  import opened Failure
  import opened Configuration
  import opened Collaborators
  import opened ConnectionSpec
  import opened Seqs

  /**
    Each handle is created at most once, with the configuration built from
    the DSN and its section, and the consumer subscribes at most once.
  */
  ghost predicate Handles(config: Configuration, calls: seq<Call>, consumer: Option<Conf>, producer: Option<Conf>,
                          consumerSubscribed: bool)
  {
    && Count(calls) == Tally(if consumer.Some? then 1 else 0, if producer.Some? then 1 else 0, if consumerSubscribed then 1 else 0)
    && (consumer.Some? ==> consumer.value == ConsumerConf(config))
    && (producer.Some? ==> producer.value == ProducerConf(config))
    && (consumerSubscribed ==> consumer.Some?)
  }

  class KafkaConnection {
    const config: Configuration
    const serializer: Serializer
    const hook: Option<Hook>
    const broker: Broker

    /** The consumer's configuration once `getConsumer` has created it. */
    var consumer: Option<Conf>
    /** The producer's configuration once `getProducer` has created it. */
    var producer: Option<Conf>
    var consumerSubscribed: bool
    var consumerMustBeRunning: bool
    /** Every call made on the broker client and on the hook, in order. */
    var calls: seq<Call>
    /** How many `consume` and producer `flush` calls were made: the broker's answers are indexed by them. */
    var consumes: nat
    var flushes: nat

    ghost predicate Valid()
      reads this`calls, this`consumer, this`producer, this`consumerSubscribed
    {
      Handles(config, calls, consumer, producer, consumerSubscribed)
    }

    constructor (config: Configuration, serializer: Serializer, hook: Option<Hook>, broker: Broker)
      ensures Valid()
      ensures this.config == config && this.serializer == serializer && this.hook == hook && this.broker == broker
      ensures consumer.None? && producer.None? && !consumerSubscribed && !consumerMustBeRunning
      ensures calls == [] && consumes == 0 && flushes == 0
    {
      this.config := config;
      this.serializer := serializer;
      this.hook := hook;
      this.broker := broker;
      consumer := None;
      producer := None;
      consumerSubscribed := false;
      consumerMustBeRunning := false;
      calls := [];
      consumes := 0;
      flushes := 0;
    }

    /** The creation call `getConsumer` would make now. */
    function ConsumerCreation(): seq<Call>
      reads this`consumer
    {
      if consumer.Some? then [] else [NewConsumer(ConsumerConf(config))]
    }

    /** The creation call `getProducer` would make now. */
    function ProducerCreation(): seq<Call>
      reads this`producer
    {
      if producer.Some? then [] else [NewProducer(ProducerConf(config))]
    }

    /** Appends one call that neither creates a handle nor subscribes. */
    method Log(c: Call)
      requires Valid() && Ordinary(c)
      modifies this`calls
      ensures Valid()
      ensures calls == old(calls) + [c]
    {
      CountSnoc(calls, c);
      calls := calls + [c];
    }

    /** `getConsumer`: creates the consumer on first use, then returns the same one. */
    method GetConsumer()
      requires Valid()
      modifies this`consumer, this`calls
      ensures Valid()
      ensures consumer == Some(ConsumerConf(config))
      ensures calls == old(calls) + old(ConsumerCreation())
    {
      if consumer.None? {
        var conf := ConsumerConf(config);
        CountSnoc(calls, NewConsumer(conf));
        calls := calls + [NewConsumer(conf)];
        consumer := Some(conf);
      }
    }

    /** `getProducer`: creates the producer on first use, then returns the same one. */
    method GetProducer()
      requires Valid()
      modifies this`producer, this`calls
      ensures Valid()
      ensures producer == Some(ProducerConf(config))
      ensures calls == old(calls) + old(ProducerCreation())
    {
      if producer.None? {
        var conf := ProducerConf(config);
        CountSnoc(calls, NewProducer(conf));
        calls := calls + [NewProducer(conf)];
        producer := Some(conf);
      }
    }

    /** The subscription made by the first `get`. */
    method SubscribeConsumer(topics: seq<Value>)
      requires Valid() && consumer.Some? && !consumerSubscribed
      modifies this`calls, this`consumerSubscribed
      ensures Valid() && consumerSubscribed
      ensures calls == old(calls) + [Subscribe(topics)]
    {
      CountSnoc(calls, Subscribe(topics));
      calls := calls + [Subscribe(topics)];
      consumerSubscribed := true;
    }

    /** The body of `get` before its loop: consumer, subscription (once per connection), running flag. */
    method BeginReceive(topicsToFilter: seq<string>)
      requires Valid()
      modifies this`consumer, this`calls, this`consumerSubscribed, this`consumerMustBeRunning
      ensures Valid() && consumer.Some? && consumerSubscribed && consumerMustBeRunning
      ensures calls == old(calls) + old(ConsumerCreation())
        + (if old(consumerSubscribed) then [] else [Subscribe(SubscribedTopics(topicsToFilter, config))])
    {
      GetConsumer();
      if !consumerSubscribed {
        SubscribeConsumer(SubscribedTopics(topicsToFilter, config));
      }
      consumerMustBeRunning := true;
    }

    /** The SIGINT and SIGTERM handler registered by the receive loop. */
    method Signal()
      modifies this`consumerMustBeRunning
      ensures !consumerMustBeRunning
    {
      consumerMustBeRunning := false;
    }

    /** One `consume` call on the consumer: the broker answers with its next record or null. */
    method ConsumeNext(timeout: int) returns (record: Option<Record>)
      requires Valid() && consumer.Some?
      modifies this`consumer, this`calls, this`consumes
      ensures Valid() && consumer == old(consumer)
      ensures record == broker.consume(old(consumes)) && consumes == old(consumes) + 1
      ensures calls == old(calls) + [Consume(timeout)]
    {
      GetConsumer();
      record := broker.consume(consumes);
      consumes := consumes + 1;
      Log(Consume(timeout));
    }

    /**
      `ack`: commits the record, synchronously or not as configured. A null
      argument is a type error before anything is called.
    */
    method Ack(message: Option<Record>) returns (r: Result<(), Failure>)
      requires Valid()
      modifies this`consumer, this`calls
      ensures Valid()
      ensures message.None? ==> r == Err(NullRecord) && calls == old(calls) && consumer == old(consumer)
      ensures message.Some? ==>
        && r == Ok(()) && consumer.Some?
        && calls == old(calls) + old(ConsumerCreation()) + AckCalls(message.value, config.consumer.commitAsync)
    {
      if message.None? {
        return Err(NullRecord);
      }
      GetConsumer();
      if config.consumer.commitAsync {
        Log(CommitAsync(message.value));
      } else {
        Log(Commit(message.value));
      }
      r := Ok(());
    }

    /**
      The rebalance callback installed on the consumer's configuration. Its
      default branch builds an `Exception` from the integer code, which the
      file's strict types turn into a TypeError, an Error no
      `catch (Exception)` intercepts.
    */
    method Rebalance(err: int, partitions: Option<seq<TopicPartition>>) returns (r: Result<(), Failure>)
      requires Valid()
      modifies this`calls
      ensures Valid()
      ensures err == AssignPartitions ==> r == Ok(()) && calls == old(calls) + [Assign(partitions)]
      ensures err == RevokePartitions ==> r == Ok(()) && calls == old(calls) + [Assign(None)]
      ensures err != AssignPartitions && err != RevokePartitions ==> r == Err(RebalanceMessageNotString) && calls == old(calls)
    {
      if err == AssignPartitions {
        Log(Assign(partitions));
        r := Ok(());
      } else if err == RevokePartitions {
        Log(Assign(None));
        r := Ok(());
      } else {
        r := Err(RebalanceMessageNotString);
      }
    }

    /**
      The `foreach` over the consumer routing map in the receive loop: the
      wildcard matches anything, a missing identifier stops the scan, and
      otherwise the identifier must be one of the routing names.
    */
    method ScanRouting(identifier: Option<string>) returns (found: bool)
      ensures found == RoutingMatch(Keys(config.consumer.routing), identifier)
    {
      var names := Keys(config.consumer.routing);
      found := false;
      var i := 0;
      while i < |names|
        invariant i <= |names|
        invariant RoutingMatch(names, identifier) == RoutingMatch(names[i..], identifier)
      {
        assert names[i..][1..] == names[i + 1..];
        if names[i] == WildcardRouting {
          found := true;
          break;
        }
        if identifier.None? {
          break;
        }
        if names[i] == identifier.value {
          found := true;
          break;
        }
        i := i + 1;
      }
    }

    /** The `switch` on a consumed record's error code, with its fall-throughs. */
    method Switch(record: Option<Record>) returns (o: Outcome)
      requires Valid() && consumer.Some?
      modifies this`consumer, this`calls
      ensures Valid() && consumer == old(consumer)
      ensures o == Iteration(record, config, hook)
      ensures calls == old(calls) + (if o.Continue? then o.calls else [])
    {
      var err := if record.Some? then record.value.err else NoError;
      if err == NoError {
        var m := record;
        if hook.Some? {
          if record.None? {
            return Raise(NullRecord);
          }
          m := Some(hook.value.beforeConsume(record.value));
        }
        var messageIdentifier := IdentifierHeader(m);
        if !Truthy(messageIdentifier) && !config.jsonSerialization.enabled {
          return Suspend(m, AfterRaw);
        }
        var messageFoundInRouting := ScanRouting(messageIdentifier);
        var forceAckByRoutingMap := !messageFoundInRouting;
        if forceAckByRoutingMap {
          var acked := Ack(m);
          if acked.Err? {
            return Raise(acked.error);
          }
          return Continue(AckCalls(m.value, config.consumer.commitAsync));
        }
        o := Suspend(m, AfterRouted(m));
      } else if Recoverable(err) {
        o := Suspend(None, AfterRecoverable(record));
      } else {
        o := Raise(ReceiveFailed(err));
      }
    }

    /**
      `flush`: up to ten producer flushes, stopping at the first success; a
      failure of all ten is reported with the last result code.
    */
    method FlushProducer() returns (r: Result<(), Failure>)
      requires Valid()
      modifies this`producer, this`calls, this`flushes
      ensures Valid() && producer.Some?
      ensures flushes == old(flushes) + FlushAttempts(broker.flush, old(flushes))
      ensures calls == old(calls) + old(ProducerCreation())
        + FlushCalls(FlushAttempts(broker.flush, old(flushes)), config.producer.flushTimeoutMs)
      ensures r == FlushResult(broker.flush, old(flushes))
    {
      ghost var from := flushes;
      ghost var start := calls + ProducerCreation();
      var timeout := config.producer.flushTimeoutMs;
      var flushRetries := 0;
      var result := NoError;
      while flushRetries < MaxFlushAttempts
        invariant flushRetries <= MaxFlushAttempts
        invariant Valid()
        invariant flushes == from + flushRetries
        invariant forall n :: from <= n < from + flushRetries ==> broker.flush(n) != NoError
        invariant flushRetries == 0 ==> calls == old(calls) && producer == old(producer)
        invariant flushRetries > 0 ==> producer.Some? && calls == start + FlushCalls(flushRetries, timeout)
        invariant flushRetries > 0 ==> result == broker.flush(from + flushRetries - 1)
      {
        result := FlushOnce(timeout);
        flushRetries := flushRetries + 1;
        if result == NoError {
          break;
        }
      }
      FlushStopped(broker.flush, from, flushRetries, result);
      if result != NoError {
        r := Err(FlushFailed(result));
      } else {
        r := Ok(());
      }
    }

    /** One attempt of `flush`: the producer's `flush` call and the broker's answer to it. */
    method FlushOnce(timeout: int) returns (result: int)
      requires Valid()
      modifies this`producer, this`calls, this`flushes
      ensures Valid() && producer == Some(ProducerConf(config))
      ensures result == broker.flush(old(flushes)) && flushes == old(flushes) + 1
      ensures calls == old(calls) + old(ProducerCreation()) + [Flush(timeout)]
    {
      GetProducer();
      result := broker.flush(flushes);
      Log(Flush(timeout));
      flushes := flushes + 1;
    }

    /** `sendMessage`: one delivery to a topic, followed by a poll. */
    method SendMessage(topicName: string, message: Outgoing)
      requires Valid() && producer.Some?
      modifies this`producer, this`calls
      ensures Valid() && producer == old(producer)
      ensures calls == old(calls) + [Producev(topicName, message), Poll(config.producer.flushTimeoutMs)]
    {
      GetProducer();
      Log(Producev(topicName, message));
      Log(Poll(config.producer.flushTimeoutMs));
    }

    /**
      The `foreach` over the producer's topics: a topic the routing does
      not name is skipped, the others are sent to, and a topic that is not
      a string stops the loop with a type error.
    */
    method SendToTopics(routed: Option<string>, message: Outgoing) returns (blocked: bool)
      requires Valid() && producer.Some?
      modifies this`producer, this`calls
      ensures Valid() && producer == old(producer)
      ensures var (sent, stopped) := Sends(config.producer.topics, routed);
        && blocked == stopped
        && calls == old(calls) + Deliveries(sent, message, config.producer.flushTimeoutMs)
    {
      var topics := config.producer.topics;
      var pollMs := config.producer.flushTimeoutMs;
      var i := 0;
      while i < |topics|
        invariant i <= |topics|
        invariant Valid() && producer == old(producer)
        invariant !Sends(topics[..i], routed).1
        invariant calls == old(calls) + Deliveries(Sends(topics[..i], routed).0, message, pollMs)
      {
        SendsSnoc(topics, routed, i);
        var stop := SendTopic(old(calls), Sends(topics[..i], routed).0, topics[i], routed, message);
        if stop {
          SendsBlocked(topics, routed, i + 1);
          return true;
        }
        i := i + 1;
      }
      assert topics[..i] == topics;
      blocked := false;
    }

    /**
      One turn of the topic loop: a topic other than the routed one is
      skipped, a topic that is not a string stops the loop, and any other
      topic is sent to.
    */
    method SendTopic(ghost base: seq<Call>, ghost sent: seq<string>, topic: Value, routed: Option<string>, message: Outgoing)
      returns (stop: bool)
      requires Valid() && producer.Some?
      requires calls == base + Deliveries(sent, message, config.producer.flushTimeoutMs)
      modifies this`producer, this`calls
      ensures Valid() && producer == old(producer)
      ensures var next := SendStep((sent, false), topic, routed);
        && stop == next.1
        && calls == base + Deliveries(next.0, message, config.producer.flushTimeoutMs)
    {
      var pollMs := config.producer.flushTimeoutMs;
      if Truthy(routed) && topic != Str(routed.value) {
        return false;
      }
      if !topic.Str? {
        return true;
      }
      DeliveriesSnoc(sent, topic.s, message, pollMs);
      SendMessage(topic.s, message);
      AppendAssoc(base, Deliveries(sent, message, pollMs), [Producev(topic.s, message), Poll(pollMs)]);
      stop := false;
    }

    /**
      The part of `produce` after the message is encoded: resolve the
      routing topic, send to the topics, and flush; an exception of the
      flush is wrapped in a transport exception.
    */
    method Deliver(message: Outgoing) returns (r: Result<(), Failure>)
      requires Valid()
      modifies this`producer, this`calls, this`flushes
      ensures Valid()
      ensures var effect := ProduceEffect(config, broker, old(producer).Some?, old(flushes), message);
        calls == old(calls) + effect.calls && flushes == effect.flushes && r == effect.result
    {
      var topicFromRouting := RoutingTopic(config, message.headers);
      if topicFromRouting.Err? {
        return Err(topicFromRouting.error);
      }
      ProduceEffectRouted(config, broker, producer.Some?, flushes, message, topicFromRouting.value);
      r := DeliverRouted(topicFromRouting.value, message);
    }

    /** `produce` once the routing topic is resolved: the producer, the topic loop, then the flush. */
    method DeliverRouted(routed: Option<string>, message: Outgoing) returns (r: Result<(), Failure>)
      requires Valid()
      modifies this`producer, this`calls, this`flushes
      ensures Valid()
      ensures var (sent, stopped) := Sends(config.producer.topics, routed);
        var sends := old(ProducerCreation()) + Deliveries(sent, message, config.producer.flushTimeoutMs);
        var effect := if stopped then Effect(sends, old(flushes), Err(TopicNotString))
                      else Flushed(sends, broker.flush, old(flushes), config.producer.flushTimeoutMs);
        calls == old(calls) + effect.calls && flushes == effect.flushes && r == effect.result
    {
      ghost var creation := ProducerCreation();
      GetProducer();
      var blocked := SendToTopics(routed, message);
      ghost var sends := Deliveries(Sends(config.producer.topics, routed).0, message, config.producer.flushTimeoutMs);
      AppendAssoc(old(calls), creation, sends);
      if blocked {
        return Err(TopicNotString);
      }
      r := FlushWrapped();
      FlushedAfter(old(calls), creation + sends, broker.flush, old(flushes), config.producer.flushTimeoutMs);
    }

    /** `$this->flush()` inside `produce`'s `try`: a flush failure is wrapped in a transport exception. */
    method FlushWrapped() returns (r: Result<(), Failure>)
      requires Valid() && producer.Some?
      modifies this`producer, this`calls, this`flushes
      ensures Valid()
      ensures var effect := Flushed(old(calls), broker.flush, old(flushes), config.producer.flushTimeoutMs);
        calls == effect.calls && flushes == effect.flushes && r == effect.result
    {
      ghost var before := calls;
      assert before + ProducerCreation() == before;
      r := FlushProducer();
      if r.Err? {
        r := Err(Transport(r.error));
      }
    }

    /**
      `produce`: the hook's `beforeProduce`, the non-sendable stamps removed,
      the envelope encoded and placed, then delivered; `afterProduce` is
      called when the delivery succeeded.
    */
    method Produce(e: Envelope) returns (r: Result<(), Failure>)
      requires Valid() && WellFormed(e) && (hook.Some? ==> WellFormed(hook.value.beforeProduce(e)))
      modifies this`producer, this`calls, this`flushes
      ensures Valid()
      ensures var effect := ProduceEffect(config, broker, old(producer).Some?, old(flushes), ProducedMessage(serializer, hook, e));
        && r == effect.result && flushes == effect.flushes
        && calls == old(calls) + effect.calls + (if r.Ok? && hook.Some? then [AfterProduce(Prepared(hook, e))] else [])
    {
      var envelope := e;
      if hook.Some? {
        envelope := hook.value.beforeProduce(envelope);
      }
      WithoutNonSendableWellFormed(envelope);
      envelope := WithoutNonSendable(envelope);
      var decodedEnvelope := Encode(serializer, envelope);
      var placement := Metadata(envelope);
      r := Deliver(Outgoing(placement.partition, placement.flags, decodedEnvelope.body, placement.key, decodedEnvelope.headers));
      if r.Ok? && hook.Some? {
        Log(AfterProduce(envelope));
      }
    }

    /**
      `get` with the consume timeout it actually reads: a property of a
      setting object the connection does not have, so always the default.
    */
    method GetAsWritten(topicsToFilter: seq<string>) returns (s: ReceiveStream)
      ensures fresh(s) && s.conn == this && s.topicsToFilter == topicsToFilter && s.pc == Start
      ensures s.timeout == ConsumeTimeoutAsWritten(config)
    {
      s := new ReceiveStream(this, topicsToFilter, ConsumeTimeoutAsWritten(config));
    }

    /** `get` reading the consumer section's consume timeout, as the configuration intends. */
    method Get(topicsToFilter: seq<string>) returns (s: ReceiveStream)
      ensures fresh(s) && s.conn == this && s.topicsToFilter == topicsToFilter && s.pc == Start
      ensures s.timeout == ConsumeTimeout(config)
    {
      s := new ReceiveStream(this, topicsToFilter, ConsumeTimeout(config));
    }
  }

  /**
    The generator `get` returns. Each `Next` runs it to its next `yield`,
    to its end, or to an exception; `pc` is where it is suspended.
  */
  class ReceiveStream {
    const conn: KafkaConnection
    const topicsToFilter: seq<string>
    const timeout: int
    var pc: Pc

    ghost predicate Valid()
      reads this`pc, conn`calls, conn`consumer, conn`producer, conn`consumerSubscribed
    {
      conn.Valid() && (pc != Start ==> conn.consumer.Some? && conn.consumerSubscribed)
    }

    /** What the next pull will do, from the current state. */
    ghost function NextRun(): Run
      reads this`pc, conn`consumer, conn`consumerSubscribed, conn`consumerMustBeRunning, conn`consumes, conn`calls
    {
      Pulled(pc, conn.consumer.Some?, conn.consumerSubscribed, conn.consumerMustBeRunning, conn.consumes, conn.calls,
             topicsToFilter, Setting())
    }

    /** What the loop reads besides the connection's own state. */
    function Setting(): Env {
      Env(conn.config, conn.hook, conn.broker, timeout)
    }

    constructor (conn: KafkaConnection, topicsToFilter: seq<string>, timeout: int)
      ensures this.conn == conn && this.topicsToFilter == topicsToFilter && this.timeout == timeout
      ensures pc == Start
    {
      this.conn := conn;
      this.topicsToFilter := topicsToFilter;
      this.timeout := timeout;
      pc := Start;
    }

    /** One pull of the generator. */
    method Next() returns (r: Pull)
      requires Valid()
      modifies this`pc, conn`consumer, conn`consumerSubscribed, conn`consumerMustBeRunning, conn`calls, conn`consumes
      ensures Valid()
      ensures Run(conn.calls, conn.consumes, conn.consumerMustBeRunning, r, pc) == old(NextRun())
    {
      match pc
      case Start =>
        conn.BeginReceive(topicsToFilter);
        r := Receive();
      case AfterNull =>
        r := SwitchOn(None);
      case AfterRaw =>
        r := Receive();
      case AfterRouted(m) =>
        pc := AfterRecoverable(m);
        r := Yielded(None);
      case AfterRecoverable(m) =>
        pc := Done;
        r := Threw(Thrown(m));
      case Done =>
        r := Finished;
    }

    /** The `switch` on the null record a generator resumes with, and what follows it. */
    method SwitchOn(record: Option<Record>) returns (r: Pull)
      requires conn.Valid() && conn.consumer.Some? && conn.consumerSubscribed
      modifies this`pc, conn`consumer, conn`consumerMustBeRunning, conn`calls, conn`consumes
      ensures Valid()
      ensures Run(conn.calls, conn.consumes, conn.consumerMustBeRunning, r, pc)
        == AfterSwitch(Iteration(record, conn.config, conn.hook), old(conn.consumerMustBeRunning), old(conn.consumes),
                       old(conn.calls), Setting())
    {
      var o := conn.Switch(record);
      match o
      case Continue(_) =>
        r := Receive();
      case Suspend(v, next) =>
        pc := next;
        r := Yielded(v);
      case Raise(f) =>
        pc := Done;
        r := Threw(f);
    }

    /** `doReceive` from its loop test, up to the next suspension. */
    method Receive() returns (r: Pull)
      requires conn.Valid() && conn.consumer.Some? && conn.consumerSubscribed
      modifies this`pc, conn`consumer, conn`consumerMustBeRunning, conn`calls, conn`consumes
      ensures Valid()
      ensures Run(conn.calls, conn.consumes, conn.consumerMustBeRunning, r, pc)
        == Loop(old(conn.consumerMustBeRunning), old(conn.consumes), old(conn.calls), Setting())
    {
      while conn.consumerMustBeRunning
        invariant conn.Valid() && conn.consumer.Some? && conn.consumerSubscribed
        invariant Loop(conn.consumerMustBeRunning, conn.consumes, conn.calls, Setting())
          == Loop(old(conn.consumerMustBeRunning), old(conn.consumes), old(conn.calls), Setting())
        decreases Budget(Setting(), conn.consumes), if conn.consumerMustBeRunning then 1 else 0
      {
        if conn.consumes >= conn.broker.signalAfter {
          conn.Signal();
          continue;
        }
        var kafkaMessage := conn.ConsumeNext(timeout);
        if kafkaMessage.None? {
          pc := AfterNull;
          return Yielded(None);
        }
        var o := conn.Switch(kafkaMessage);
        match o {
          case Continue(_) =>
          case Suspend(v, next) =>
            pc := next;
            return Yielded(v);
          case Raise(f) =>
            pc := Done;
            return Threw(f);
        }
      }
      pc := Done;
      r := Finished;
    }
  }
}
