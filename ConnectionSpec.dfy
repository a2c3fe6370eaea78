/**
  The decisions `KafkaConnection` takes, as functions of its configuration
  and of the broker's answers: which calls it makes on the broker client,
  what its receive generator yields, which topics a message goes to, and
  how often it flushes.
*/
module ConnectionSpec {
  import opened Wrappers
  import opened OrderedMap
  import opened PhpValue
  import opened Kafka
  import opened Envelope
  import opened Failure
  import opened Configuration
  import opened Collaborators
  import HeaderSerializer
  import opened Seqs

  /** `KafkaConnection::WILDCARD_ROUTING`. */
  const WildcardRouting: string := "*"
  /** The consume timeout the receive loop falls back to, in milliseconds. */
  const DefaultConsumeTimeout: int := 500
  /** Producer flush attempts before `flush` gives up. */
  const MaxFlushAttempts: nat := 10

  datatype TopicPartition = TopicPartition(topic: string, partition: int)

  /** A broker client configuration: its `Conf::set` calls in order. */
  type Conf = seq<(string, string)>

  /** A message as handed to `producev`, apart from its topic. */
  datatype Outgoing = Outgoing(partition: int, flags: int, body: string, key: Option<string>, headers: HeaderMap)

  /** Where a message is produced: partition, message flags and key. */
  datatype Placement = Placement(partition: int, flags: int, key: Option<string>)

  /** The calls the connection makes on the broker client and on the hook. */
  datatype Call =
    | NewConsumer(conf: Conf)
    | NewProducer(conf: Conf)
    | Subscribe(topics: seq<Value>)
    | Consume(timeoutMs: int)
    | Commit(record: Record)
    | CommitAsync(record: Record)
    | Producev(topic: string, message: Outgoing)
    | Poll(timeoutMs: int)
    | Flush(timeoutMs: int)
    | Assign(partitions: Option<seq<TopicPartition>>)
    | AfterProduce(envelope: Envelope)
    | AfterConsume(envelope: Envelope)

  /** How many consumer creations, producer creations and subscriptions a log holds. */
  datatype Tally = Tally(consumers: nat, producers: nat, subscriptions: nat)

  function Bump(t: Tally, c: Call): Tally {
    match c
    case NewConsumer(_) => t.(consumers := t.consumers + 1)
    case NewProducer(_) => t.(producers := t.producers + 1)
    case Subscribe(_) => t.(subscriptions := t.subscriptions + 1)
    case _ => t
  }

  function Count(calls: seq<Call>): Tally {
    if calls == [] then Tally(0, 0, 0)
    else Bump(Count(calls[..|calls| - 1]), calls[|calls| - 1])
  }

  /** `getBaseConf`: the broker list, then the DSN's security options. */
  function BaseConf(config: Configuration): Conf {
    [("metadata.broker.list", config.dsn.host)] + config.dsn.securityConfig
  }

  /** `createConsumer`: the base configuration, then the consumer's broker options. */
  function ConsumerConf(config: Configuration): Conf {
    BaseConf(config) + config.consumer.config
  }

  /** `createProducer`: the base configuration, then the producer's broker options. */
  function ProducerConf(config: Configuration): Conf {
    BaseConf(config) + config.producer.config
  }

  /**
    The routing scan of the receive loop: entries are visited in order; a
    `*` entry or one named like the identifier matches, and a null
    identifier stops the scan at the first entry that is not `*`.
  */
  function RoutingMatch(names: seq<string>, identifier: Option<string>): bool {
    if names == [] then false
    else if names[0] == WildcardRouting then true
    else if identifier.None? then false
    else if names[0] == identifier.value then true
    else RoutingMatch(names[1..], identifier)
  }

  /** With an identifier, a record matches exactly when some entry is `*` or names it. */
  lemma {:induction false} RoutingMatchIdentifier(names: seq<string>, identifier: string)
    ensures RoutingMatch(names, Some(identifier)) <==>
      exists i :: 0 <= i < |names| && (names[i] == WildcardRouting || names[i] == identifier)
    decreases |names|
  {
    if names != [] && names[0] != WildcardRouting && names[0] != identifier {
      RoutingMatchIdentifier(names[1..], identifier);
      if exists i :: 0 <= i < |names| && (names[i] == WildcardRouting || names[i] == identifier) {
        var i :| 0 <= i < |names| && (names[i] == WildcardRouting || names[i] == identifier);
        assert names[1..][i - 1] == names[i];
      }
    }
  }

  /** Without an identifier, a record matches exactly when the first entry is `*`. */
  lemma RoutingMatchNull(names: seq<string>)
    ensures RoutingMatch(names, None) <==> |names| > 0 && names[0] == WildcardRouting
  {
  }

  /** Where the receive generator is suspended. */
  datatype Pc =
    | Start
    | AfterNull
    | AfterRaw
    | AfterRouted(record: Option<Record>)
    | AfterRecoverable(record: Option<Record>)
    | Done

  /** What one pull of a generator gives: a yielded value, the end, or an exception. */
  datatype Pull = Yielded(value: Option<Record>) | Finished | Threw(failure: Failure)

  /** What the `switch` over a consumed record leads to. */
  datatype Outcome =
    /** The record was acked and dropped; the loop goes on after these calls. */
    | Continue(calls: seq<Call>)
    /** The generator yields `value` and is suspended at `next`. */
    | Suspend(value: Option<Record>, next: Pc)
    /** The generator throws. */
    | Raise(failure: Failure)

  /** The codes after which the loop yields null and then falls into the throw. */
  predicate Recoverable(err: int) {
    err == TimedOut || err == TransportError || err == UnknownTopicOrPart || err == PartitionEof
  }

  /** `ack`: `commitAsync` when configured, `commit` otherwise. */
  function AckCalls(record: Record, commitAsync: bool): (calls: seq<Call>)
    ensures |calls| == 1 && (calls[0].CommitAsync? <==> commitAsync)
    ensures calls[0] == Commit(record) || calls[0] == CommitAsync(record)
  {
    if commitAsync then [CommitAsync(record)] else [Commit(record)]
  }

  /** The identifier header of a record, null for a null record or a missing header. */
  function IdentifierHeader(m: Option<Record>): Option<string> {
    if m.Some? then HeaderValue(m.value.headers, HeaderSerializer.IdentifierHeaderKey()) else None
  }

  /**
    The `switch` on a consumed record's code. A null record is switched on
    after the generator resumes from the `yield null` that reported it; its
    code reads as null, which compares equal to `RD_KAFKA_RESP_ERR_NO_ERROR`.
  */
  function Iteration(record: Option<Record>, config: Configuration, hook: Option<Hook>): Outcome {
    var err := if record.Some? then record.value.err else NoError;
    if err == NoError then
      if hook.Some? && record.None? then Raise(NullRecord)
      else
        var m := if hook.Some? then Some(hook.value.beforeConsume(record.value)) else record;
        var identifier := IdentifierHeader(m);
        if !Truthy(identifier) && !config.jsonSerialization.enabled then Suspend(m, AfterRaw)
        else if RoutingMatch(Keys(config.consumer.routing), identifier) then Suspend(m, AfterRouted(m))
        else if m.None? then Raise(NullRecord)
        else Continue(AckCalls(m.value, config.consumer.commitAsync))
    else if Recoverable(err) then Suspend(None, AfterRecoverable(record))
    else Raise(ReceiveFailed(err))
  }

  /** The exception thrown at the end of the `switch`: a null record cannot give its code. */
  function Thrown(m: Option<Record>): (f: Failure)
    ensures m.Some? ==> f == ReceiveFailed(m.value.err)
    ensures m.None? ==> !f.IsException()
  {
    if m.None? then NullRecord else ReceiveFailed(m.value.err)
  }

  /** The fixed inputs of a receive generator. */
  datatype Env = Env(config: Configuration, hook: Option<Hook>, broker: Broker, timeout: int)

  /** The connection state a pull changes, and what the pull gives. */
  datatype Run = Run(calls: seq<Call>, consumes: nat, running: bool, pull: Pull, pc: Pc)

  /** Steps left before the stop signal: the receive loop's termination measure. */
  function Budget(env: Env, consumes: nat): nat {
    if consumes < env.broker.signalAfter then env.broker.signalAfter - consumes else 0
  }

  /**
    The `while ($this->consumerMustBeRunning)` loop from its head: stop when
    the flag is clear (a signal clears it once the broker's `signalAfter`
    consume calls are made), otherwise consume and switch on the record.
  */
  function Loop(running: bool, consumes: nat, calls: seq<Call>, env: Env): Run
    decreases Budget(env, consumes), 0
  {
    if !running || consumes >= env.broker.signalAfter then Run(calls, consumes, false, Finished, Done)
    else
      var record := env.broker.consume(consumes);
      var calls' := calls + [Consume(env.timeout)];
      if record.None? then Run(calls', consumes + 1, true, Yielded(None), AfterNull)
      else AfterSwitch(Iteration(record, env.config, env.hook), true, consumes + 1, calls', env)
  }

  /** The loop after the `switch`: on to the loop test, or suspended, or ended by an exception. */
  function AfterSwitch(o: Outcome, running: bool, consumes: nat, calls: seq<Call>, env: Env): Run
    decreases Budget(env, consumes), 1
  {
    match o
    case Continue(cs) => Loop(running, consumes, calls + cs, env)
    case Suspend(v, next) => Run(calls, consumes, running, Yielded(v), next)
    case Raise(f) => Run(calls, consumes, running, Threw(f), Done)
  }

  /**
    One pull of the `get` generator suspended at `pc`. The first pull runs
    `get` itself: it creates the consumer if needed, subscribes unless the
    connection already has, sets the running flag and enters the loop.
  */
  function Pulled(pc: Pc, hasConsumer: bool, subscribed: bool, running: bool, consumes: nat, calls: seq<Call>,
                  topicsToFilter: seq<string>, env: Env): Run
  {
    match pc
    case Start =>
      var creation := if hasConsumer then [] else [NewConsumer(ConsumerConf(env.config))];
      var subscription := if subscribed then [] else [Subscribe(SubscribedTopics(topicsToFilter, env.config))];
      Loop(true, consumes, calls + creation + subscription, env)
    case AfterNull => AfterSwitch(Iteration(None, env.config, env.hook), running, consumes, calls, env)
    case AfterRaw => Loop(running, consumes, calls, env)
    case AfterRouted(m) => Run(calls, consumes, running, Yielded(None), AfterRecoverable(m))
    case AfterRecoverable(m) => Run(calls, consumes, running, Threw(Thrown(m)), Done)
    case Done => Run(calls, consumes, running, Finished, Done)
  }

  /** Calls that neither create a handle nor subscribe. */
  predicate Ordinary(c: Call) {
    !c.NewConsumer? && !c.NewProducer? && !c.Subscribe?
  }

  /** The calls the receive loop makes itself: consuming and committing. */
  predicate LoopCall(c: Call) {
    c.Consume? || c.Commit? || c.CommitAsync?
  }

  /** A run extends the log it started from with loop calls only. */
  ghost predicate Extends(r: Run, calls: seq<Call>) {
    |calls| <= |r.calls| && r.calls[..|calls|] == calls
    && forall i :: |calls| <= i < |r.calls| ==> LoopCall(r.calls[i])
  }

  lemma IterationCalls(record: Option<Record>, env: Env)
    ensures var o := Iteration(record, env.config, env.hook);
      o.Continue? ==> forall i :: 0 <= i < |o.calls| ==> LoopCall(o.calls[i])
  {
  }

  lemma ExtendsTrans(r: Run, a: seq<Call>, b: seq<Call>)
    requires Extends(r, a + b) && forall i :: 0 <= i < |b| ==> LoopCall(b[i])
    ensures Extends(r, a)
  {
    assert r.calls[..|a|] == (a + b)[..|a|];
    forall i | |a| <= i < |r.calls| ensures LoopCall(r.calls[i]) {
      if i < |a + b| {
        assert r.calls[i] == (a + b)[i] == b[i - |a|];
      }
    }
  }

  /** The receive loop only consumes and commits. */
  lemma {:induction false} LoopExtends(running: bool, consumes: nat, calls: seq<Call>, env: Env)
    ensures Extends(Loop(running, consumes, calls, env), calls)
    decreases Budget(env, consumes), 0
  {
    if running && consumes < env.broker.signalAfter {
      var record := env.broker.consume(consumes);
      var calls' := calls + [Consume(env.timeout)];
      if record.Some? {
        AfterSwitchExtends(Iteration(record, env.config, env.hook), true, consumes + 1, calls', env);
        ExtendsTrans(Loop(running, consumes, calls, env), calls, [Consume(env.timeout)]);
      }
    }
  }

  lemma {:induction false} AfterSwitchExtends(o: Outcome, running: bool, consumes: nat, calls: seq<Call>, env: Env)
    requires o.Continue? ==> forall i :: 0 <= i < |o.calls| ==> LoopCall(o.calls[i])
    ensures Extends(AfterSwitch(o, running, consumes, calls, env), calls)
    decreases Budget(env, consumes), 1
  {
    if o.Continue? {
      LoopExtends(running, consumes, calls + o.calls, env);
      ExtendsTrans(AfterSwitch(o, running, consumes, calls, env), calls, o.calls);
    }
  }

  /**
    A pull only consumes and commits, after the creation and subscription
    calls of the first pull.
  */
  lemma PulledExtends(pc: Pc, hasConsumer: bool, subscribed: bool, running: bool, consumes: nat, calls: seq<Call>,
                      topicsToFilter: seq<string>, env: Env)
    ensures var prelude := if pc.Start? then
        (if hasConsumer then [] else [NewConsumer(ConsumerConf(env.config))])
        + (if subscribed then [] else [Subscribe(SubscribedTopics(topicsToFilter, env.config))])
      else [];
      Extends(Pulled(pc, hasConsumer, subscribed, running, consumes, calls, topicsToFilter, env), calls + prelude)
  {
    match pc
    case Start =>
      var creation := if hasConsumer then [] else [NewConsumer(ConsumerConf(env.config))];
      var subscription := if subscribed then [] else [Subscribe(SubscribedTopics(topicsToFilter, env.config))];
      assert calls + creation + subscription == calls + (creation + subscription);
      LoopExtends(true, consumes, calls + creation + subscription, env);
    case AfterNull =>
      IterationCalls(None, env);
      AfterSwitchExtends(Iteration(None, env.config, env.hook), running, consumes, calls, env);
      assert calls + [] == calls;
    case AfterRaw =>
      LoopExtends(running, consumes, calls, env);
      assert calls + [] == calls;
    case AfterRouted(_) =>
      assert calls + [] == calls;
    case AfterRecoverable(_) =>
      assert calls + [] == calls;
    case Done =>
      assert calls + [] == calls;
  }

  /** A run that extends a log with loop calls keeps its counts of creations and subscriptions. */
  lemma ExtendsCounts(r: Run, calls: seq<Call>)
    requires Extends(r, calls)
    ensures Count(r.calls) == Count(calls)
  {
    var rest := r.calls[|calls|..];
    assert r.calls == calls + rest;
    forall i | 0 <= i < |rest| ensures Ordinary(rest[i]) {
      assert LoopCall(r.calls[|calls| + i]);
    }
    CountsKept(calls, rest);
  }

  /** A run that yields a record, with JSON mode on, is suspended after the routing check. */
  predicate YieldsRouted(r: Run) {
    r.pull.Yielded? && r.pull.value.Some? ==> r.pc.AfterRouted?
  }

  /**
    With JSON mode on, every record the loop yields has passed the routing
    filter, so the generator falls through to the `yield null` next.
  */
  lemma {:induction false} LoopYieldsRouted(running: bool, consumes: nat, calls: seq<Call>, env: Env)
    requires env.config.jsonSerialization.enabled
    ensures YieldsRouted(Loop(running, consumes, calls, env))
    decreases Budget(env, consumes), 0
  {
    if running && consumes < env.broker.signalAfter {
      var record := env.broker.consume(consumes);
      if record.Some? {
        AfterSwitchYieldsRouted(record, true, consumes + 1, calls + [Consume(env.timeout)], env);
      }
    }
  }

  lemma {:induction false} AfterSwitchYieldsRouted(record: Option<Record>, running: bool, consumes: nat, calls: seq<Call>, env: Env)
    requires env.config.jsonSerialization.enabled
    ensures YieldsRouted(AfterSwitch(Iteration(record, env.config, env.hook), running, consumes, calls, env))
    decreases Budget(env, consumes), 1
  {
    var o := Iteration(record, env.config, env.hook);
    if o.Continue? {
      LoopYieldsRouted(running, consumes, calls + o.calls, env);
    }
  }

  /** Whatever state the generator is in, a pull that yields a record, with JSON mode on, leaves it after the routing check. */
  lemma PulledYieldsRouted(pc: Pc, hasConsumer: bool, subscribed: bool, running: bool, consumes: nat, calls: seq<Call>,
                           topicsToFilter: seq<string>, env: Env)
    requires env.config.jsonSerialization.enabled
    ensures YieldsRouted(Pulled(pc, hasConsumer, subscribed, running, consumes, calls, topicsToFilter, env))
  {
    match pc
    case Start =>
      var creation := if hasConsumer then [] else [NewConsumer(ConsumerConf(env.config))];
      var subscription := if subscribed then [] else [Subscribe(SubscribedTopics(topicsToFilter, env.config))];
      LoopYieldsRouted(true, consumes, calls + creation + subscription, env);
    case AfterNull =>
      AfterSwitchYieldsRouted(None, running, consumes, calls, env);
    case AfterRaw =>
      LoopYieldsRouted(running, consumes, calls, env);
    case _ =>
  }

  /**
    The fallthrough after a routed record: the generator yields null, then
    throws the record's code as a `LogicException`, then is finished, and
    none of these pulls calls the broker.
  */
  lemma RoutedFallsThrough(record: Record, hasConsumer: bool, subscribed: bool, running: bool, consumes: nat,
                           calls: seq<Call>, topicsToFilter: seq<string>, env: Env)
    ensures var r1 := Pulled(AfterRouted(Some(record)), hasConsumer, subscribed, running, consumes, calls, topicsToFilter, env);
      var r2 := Pulled(r1.pc, hasConsumer, subscribed, r1.running, r1.consumes, r1.calls, topicsToFilter, env);
      var r3 := Pulled(r2.pc, hasConsumer, subscribed, r2.running, r2.consumes, r2.calls, topicsToFilter, env);
      && r1.pull == Yielded(None) && r2.pull == Threw(ReceiveFailed(record.err)) && r3.pull == Finished
      && r3.calls == calls && r3.consumes == consumes
  {
  }

  /**
    The switch on a consumed record: a record routed by the consumer's
    routing is suspended for the fallthrough, an unrouted one (with an
    identifier or in JSON mode) is acked and dropped, a recoverable code
    yields null, and any other code throws its code.
  */
  lemma IterationCases(record: Record, config: Configuration)
    ensures record.err == NoError && (Truthy(IdentifierHeader(Some(record))) || config.jsonSerialization.enabled) ==>
      Iteration(Some(record), config, None) ==
        if RoutingMatch(Keys(config.consumer.routing), IdentifierHeader(Some(record)))
        then Suspend(Some(record), AfterRouted(Some(record)))
        else Continue(AckCalls(record, config.consumer.commitAsync))
    ensures record.err == NoError && !Truthy(IdentifierHeader(Some(record))) && !config.jsonSerialization.enabled ==>
      Iteration(Some(record), config, None) == Suspend(Some(record), AfterRaw)
    ensures record.err != NoError && Recoverable(record.err) ==>
      Iteration(Some(record), config, None) == Suspend(None, AfterRecoverable(Some(record)))
    ensures record.err != NoError && !Recoverable(record.err) ==>
      Iteration(Some(record), config, None) == Raise(ReceiveFailed(record.err))
  {
  }

  lemma CountSnoc(a: seq<Call>, c: Call)
    ensures Count(a + [c]) == Bump(Count(a), c)
  {
    assert (a + [c])[..|a|] == a;
  }

  /** Once the produce loop has stopped at a topic, the later topics change nothing. */
  lemma {:induction false} SendsBlocked(topics: seq<Value>, routed: Option<string>, i: nat)
    requires i <= |topics| && Sends(topics[..i], routed).1
    ensures Sends(topics, routed) == Sends(topics[..i], routed)
    decreases |topics| - i
  {
    if i < |topics| {
      assert topics[..i + 1][..i] == topics[..i];
      SendsBlocked(topics, routed, i + 1);
    } else {
      assert topics[..i] == topics;
    }
  }

  /**
    The position of the first successful producer flush among `k` attempts
    starting at oracle index `from`, or `k` when none succeeds.
  */
  function FirstSuccess(flush: nat -> int, from: nat, k: nat): (j: nat)
    ensures j <= k
    ensures forall n :: from <= n < from + j ==> flush(n) != NoError
    ensures j < k ==> flush(from + j) == NoError
    decreases k
  {
    if k == 0 || flush(from) == NoError then 0
    else 1 + FirstSuccess(flush, from + 1, k - 1)
  }

  /** The first success is the one position where all earlier attempts failed and this one did not. */
  lemma FirstSuccessIs(flush: nat -> int, from: nat, k: nat, j: nat)
    requires j <= k
    requires forall n :: from <= n < from + j ==> flush(n) != NoError
    requires j < k ==> flush(from + j) == NoError
    ensures FirstSuccess(flush, from, k) == j
  {
  }

  /** How many times `flush` calls the producer's flush. */
  function FlushAttempts(flush: nat -> int, from: nat): nat {
    var j := FirstSuccess(flush, from, MaxFlushAttempts);
    if j < MaxFlushAttempts then j + 1 else MaxFlushAttempts
  }

  /** What `flush` ends with: success, or the last attempt's result code. */
  function FlushResult(flush: nat -> int, from: nat): Result<(), Failure> {
    if FirstSuccess(flush, from, MaxFlushAttempts) < MaxFlushAttempts then Ok(())
    else Err(FlushFailed(flush(from + MaxFlushAttempts - 1)))
  }

  /**
    `flush` tries at least once and at most ten times, stops at the first
    success, and fails exactly when none of the ten attempts succeeds,
    reporting the last attempt's result.
  */
  lemma FlushBounded(flush: nat -> int, from: nat)
    ensures 1 <= FlushAttempts(flush, from) <= MaxFlushAttempts
    ensures FlushResult(flush, from).Ok? <==> exists n :: from <= n < from + MaxFlushAttempts && flush(n) == NoError
    ensures FlushResult(flush, from).Ok? ==> flush(from + FlushAttempts(flush, from) - 1) == NoError
    ensures forall n :: from <= n < from + FlushAttempts(flush, from) - 1 ==> flush(n) != NoError
    ensures FlushResult(flush, from).Err? ==>
      FlushAttempts(flush, from) == MaxFlushAttempts && FlushResult(flush, from).error == FlushFailed(flush(from + MaxFlushAttempts - 1))
  {
  }

  /** `flush` calls: one per attempt, each with the producer's flush timeout. */
  function FlushCalls(n: nat, timeoutMs: int): seq<Call> {
    if n == 0 then [] else FlushCalls(n - 1, timeoutMs) + [Flush(timeoutMs)]
  }

  lemma {:induction false} FlushCallsAt(n: nat, timeoutMs: int)
    ensures |FlushCalls(n, timeoutMs)| == n
    ensures forall i :: 0 <= i < n ==> FlushCalls(n, timeoutMs)[i] == Flush(timeoutMs)
  {
    if n > 0 {
      FlushCallsAt(n - 1, timeoutMs);
    }
  }

  /**
    The attempts and result `flush` reports when its `k`-th attempt
    returned `result` and stopped it: a success, or the tenth failure.
  */
  lemma FlushStopped(flush: nat -> int, from: nat, k: nat, result: int)
    requires 0 < k <= MaxFlushAttempts && result == flush(from + k - 1)
    requires forall n :: from <= n < from + k - 1 ==> flush(n) != NoError
    requires result != NoError ==> k == MaxFlushAttempts
    ensures FlushAttempts(flush, from) == k
    ensures FlushResult(flush, from) == if result == NoError then Ok(()) else Err(FlushFailed(result))
  {
    if result == NoError {
      FirstSuccessIs(flush, from, MaxFlushAttempts, k - 1);
    } else {
      FirstSuccessIs(flush, from, MaxFlushAttempts, MaxFlushAttempts);
    }
  }

  /**
    `resolveRoutingTopic`: without JSON serialisation no topic is routed;
    with it the identifier header must be set, and names the producer
    routing entry, if any.
  */
  function RoutingTopic(config: Configuration, headers: HeaderMap): (r: Result<Option<string>, Failure>)
    ensures !config.jsonSerialization.enabled ==> r == Ok(None)
    ensures r.Err? <==> config.jsonSerialization.enabled && HeaderValue(headers, HeaderSerializer.IdentifierHeaderKey()).None?
    ensures r.Err? ==> r.error == IdentifierMissing
    ensures r.Ok? && r.value.Some? ==> r.value.value in Values(config.producer.routing)
  {
    if !config.jsonSerialization.enabled then Ok(None)
    else
      match HeaderValue(headers, HeaderSerializer.IdentifierHeaderKey())
      case Some(identifier) => Ok(Get(config.producer.routing, identifier))
      case None => Err(IdentifierMissing)
  }

  /** The produce loop skips a topic when routing resolved a topic and this is not it. */
  predicate Skipped(topic: Value, routed: Option<string>) {
    Truthy(routed) && topic != Str(routed.value)
  }

  /**
    The topics the produce loop sends to, in order, and whether it stopped
    at a topic that is not a string, which `sendMessage`'s `string`
    parameter refuses.
  */
  function Sends(topics: seq<Value>, routed: Option<string>): (r: (seq<string>, bool))
    decreases |topics|
  {
    if topics == [] then ([], false)
    else SendStep(Sends(topics[..|topics| - 1], routed), topics[|topics| - 1], routed)
  }

  /** One turn of the loop over the producer's topics. */
  function SendStep(acc: (seq<string>, bool), topic: Value, routed: Option<string>): (seq<string>, bool) {
    var (sent, blocked) := acc;
    if blocked || Skipped(topic, routed) then acc
    else if topic.Str? then (sent + [topic.s], false)
    else (sent, true)
  }

  lemma SendsSnoc(topics: seq<Value>, routed: Option<string>, i: nat)
    requires i < |topics|
    ensures Sends(topics[..i + 1], routed) == SendStep(Sends(topics[..i], routed), topics[i], routed)
  {
    assert topics[..i + 1][..i] == topics[..i];
  }

  /** Without a routed topic, every configured topic is sent to, in order, unless one is not a string. */
  lemma {:induction false} SendsUnrouted(topics: seq<Value>, routed: Option<string>)
    requires !Truthy(routed)
    ensures Sends(topics, routed).1 <==> exists i :: 0 <= i < |topics| && !topics[i].Str?
    ensures !Sends(topics, routed).1 ==>
      |Sends(topics, routed).0| == |topics| && forall i :: 0 <= i < |topics| ==> topics[i] == Str(Sends(topics, routed).0[i])
    decreases |topics|
  {
    if topics != [] {
      var n := |topics| - 1;
      SendsUnrouted(topics[..n], routed);
      assert forall i :: 0 <= i < n ==> topics[..n][i] == topics[i];
    }
  }

  /** With a routed topic, only that topic is sent to, once per configured occurrence. */
  lemma {:induction false} SendsRouted(topics: seq<Value>, routed: Option<string>)
    requires Truthy(routed)
    ensures !Sends(topics, routed).1
    ensures forall i :: 0 <= i < |Sends(topics, routed).0| ==> Sends(topics, routed).0[i] == routed.value
    ensures |Sends(topics, routed).0| == multiset(topics)[Str(routed.value)]
    decreases |topics|
  {
    if topics != [] {
      var n := |topics| - 1;
      SendsRouted(topics[..n], routed);
      assert topics == topics[..n] + [topics[n]];
    }
  }

  /** The broker calls for sending one message to each named topic. */
  function Deliveries(names: seq<string>, message: Outgoing, pollMs: int): seq<Call>
    decreases |names|
  {
    if names == [] then []
    else Deliveries(names[..|names| - 1], message, pollMs) + [Producev(names[|names| - 1], message), Poll(pollMs)]
  }

  /** Each topic in turn gets a `producev` of the message, then a `poll`. */
  lemma {:induction false} DeliveriesAt(names: seq<string>, message: Outgoing, pollMs: int)
    ensures |Deliveries(names, message, pollMs)| == 2 * |names|
    ensures forall i :: 0 <= i < |names| ==>
      Deliveries(names, message, pollMs)[2 * i] == Producev(names[i], message)
      && Deliveries(names, message, pollMs)[2 * i + 1] == Poll(pollMs)
    decreases |names|
  {
    if names != [] {
      var n := |names| - 1;
      DeliveriesAt(names[..n], message, pollMs);
      assert forall i :: 0 <= i < n ==> names[..n][i] == names[i];
    }
  }

  lemma DeliveriesSnoc(names: seq<string>, name: string, message: Outgoing, pollMs: int)
    ensures Deliveries(names + [name], message, pollMs) == Deliveries(names, message, pollMs) + [Producev(name, message), Poll(pollMs)]
  {
    assert (names + [name])[..|names|] == names;
  }

  /**
    `extractMessageMetadata`: the partition and flags default to
    `RD_KAFKA_PARTITION_UA` and `RD_KAFKA_CONF_OK`, which a
    `KafkaMessageStamp` cannot override since it exposes no partition,
    flags or key; the last `KafkaKeyStamp`, if any, gives the key.
  */
  function Metadata(e: Envelope): Placement
    requires WellFormed(e)
  {
    var key := (
      match Last(e, KeyClass)
      case Some(s) => LastClass(e, KeyClass); Some(s.key)
      case None => None);
    Placement(PartitionUnassigned, ConfOk, key)
  }

  /** The last key stamp gives the key. */
  lemma MetadataKey(e: Envelope, key: string)
    requires WellFormed(e) && Last(e, KeyClass) == Some(KafkaKey(key))
    ensures Metadata(e) == Placement(PartitionUnassigned, ConfOk, Some(key))
  {
  }

  /**
    Once the non-sendable stamps are stripped, as `produce` does before
    reading them, the metadata is always the default: unassigned partition,
    default flags and no key.
  */
  lemma StrippedMetadata(e: Envelope)
    requires WellFormed(e)
    ensures WellFormed(WithoutNonSendable(e))
    ensures Metadata(WithoutNonSendable(e)) == Placement(PartitionUnassigned, ConfOk, None)
  {
    WithoutNonSendableWellFormed(e);
    LastWithoutNonSendable(e, KeyClass);
  }

  /** Appending ordinary calls keeps the counts of creations and subscriptions. */
  lemma {:induction false} CountsKept(a: seq<Call>, b: seq<Call>)
    requires forall i :: 0 <= i < |b| ==> Ordinary(b[i])
    ensures Count(a + b) == Count(a)
    decreases |b|
  {
    if b == [] {
      assert a + b == a;
    } else {
      var n := |b| - 1;
      assert (a + b)[..|a + b| - 1] == a + b[..n];
      CountsKept(a, b[..n]);
    }
  }

  /** What sending an encoded message does: the calls it adds, the flush count after it, its result. */
  datatype Effect = Effect(calls: seq<Call>, flushes: nat, result: Result<(), Failure>)

  /**
    The rest of `produce` once the envelope is encoded: resolve the routed
    topic (a missing identifier fails before anything is sent), create the
    producer if needed, send to the selected topics, flush, and wrap a flush
    failure in a TransportException.
  */
  function ProduceEffect(config: Configuration, broker: Broker, hasProducer: bool, flushes: nat, message: Outgoing): Effect {
    match RoutingTopic(config, message.headers)
    case Err(f) => Effect([], flushes, Err(f))
    case Ok(routed) =>
      var (sent, blocked) := Sends(config.producer.topics, routed);
      var creation := if hasProducer then [] else [NewProducer(ProducerConf(config))];
      var sends := creation + Deliveries(sent, message, config.producer.flushTimeoutMs);
      if blocked then Effect(sends, flushes, Err(TopicNotString))
      else Flushed(sends, broker.flush, flushes, config.producer.flushTimeoutMs)
  }

  /** `produce` once a routing topic is resolved: the sends, then a type error or the flush. */
  lemma ProduceEffectRouted(config: Configuration, broker: Broker, hasProducer: bool, flushes: nat, message: Outgoing,
                            routed: Option<string>)
    requires RoutingTopic(config, message.headers) == Ok(routed)
    ensures var creation := if hasProducer then [] else [NewProducer(ProducerConf(config))];
      var sends := creation + Deliveries(Sends(config.producer.topics, routed).0, message, config.producer.flushTimeoutMs);
      ProduceEffect(config, broker, hasProducer, flushes, message)
        == if Sends(config.producer.topics, routed).1 then Effect(sends, flushes, Err(TopicNotString))
           else Flushed(sends, broker.flush, flushes, config.producer.flushTimeoutMs)
  {
  }

  /** The flush that ends `produce`, after the calls `before`; its exception is wrapped. */
  function Flushed(before: seq<Call>, flush: nat -> int, flushes: nat, timeoutMs: int): Effect {
    var n := FlushAttempts(flush, flushes);
    var result := FlushResult(flush, flushes);
    Effect(before + FlushCalls(n, timeoutMs), flushes + n, if result.Ok? then Ok(()) else Err(Transport(result.error)))
  }

  /** Calls made before the flush only prefix its effect. */
  lemma FlushedAfter(pre: seq<Call>, before: seq<Call>, flush: nat -> int, flushes: nat, timeoutMs: int)
    ensures var e := Flushed(before, flush, flushes, timeoutMs);
      Flushed(pre + before, flush, flushes, timeoutMs) == Effect(pre + e.calls, e.flushes, e.result)
  {
    AppendAssoc(pre, before, FlushCalls(FlushAttempts(flush, flushes), timeoutMs));
  }

  /**
    A message without an identifier, in JSON mode, fails with the
    RuntimeException itself, not wrapped, and nothing is sent or flushed.
  */
  lemma IdentifierMissingSendsNothing(config: Configuration, broker: Broker, hasProducer: bool, flushes: nat, message: Outgoing)
    requires config.jsonSerialization.enabled
    requires HeaderValue(message.headers, HeaderSerializer.IdentifierHeaderKey()).None?
    ensures ProduceEffect(config, broker, hasProducer, flushes, message) == Effect([], flushes, Err(IdentifierMissing))
  {
  }

  /**
    Every failure of a send that gets past routing is either the
    `sendMessage` TypeError, which `catch (Exception)` lets through, or a
    TransportException wrapping the flush failure.
  */
  lemma ProduceFailures(config: Configuration, broker: Broker, hasProducer: bool, flushes: nat, message: Outgoing)
    requires RoutingTopic(config, message.headers).Ok?
    ensures var e := ProduceEffect(config, broker, hasProducer, flushes, message);
      e.result.Err? ==>
        e.result.error == TopicNotString
        || e.result.error == Transport(FlushFailed(broker.flush(flushes + MaxFlushAttempts - 1)))
    ensures var e := ProduceEffect(config, broker, hasProducer, flushes, message);
      e.result.Err? && e.result.error.Transport? ==> !exists n :: flushes <= n < flushes + MaxFlushAttempts && broker.flush(n) == NoError
  {
    FlushBounded(broker.flush, flushes);
  }

  /** The envelope `produce` encodes: after the hook, without non-sendable stamps. */
  function Prepared(hook: Option<Hook>, e: Envelope): Envelope {
    WithoutNonSendable(if hook.Some? then hook.value.beforeProduce(e) else e)
  }

  /** The message `produce` sends for an envelope. */
  function ProducedMessage(serializer: Serializer, hook: Option<Hook>, e: Envelope): Outgoing
    requires WellFormed(e) && (hook.Some? ==> WellFormed(hook.value.beforeProduce(e)))
  {
    var e' := if hook.Some? then hook.value.beforeProduce(e) else e;
    WithoutNonSendableWellFormed(e');
    var encoded := Encode(serializer, Prepared(hook, e));
    var placement := Metadata(Prepared(hook, e));
    Outgoing(placement.partition, placement.flags, encoded.body, placement.key, encoded.headers)
  }

  /**
    `produce` always sends to the partitioner's choice of partition, with
    the default flags and no key, whatever key stamps the envelope carries.
  */
  lemma ProducedPlacement(serializer: Serializer, hook: Option<Hook>, e: Envelope)
    requires WellFormed(e) && (hook.Some? ==> WellFormed(hook.value.beforeProduce(e)))
    ensures var m := ProducedMessage(serializer, hook, e);
      m.partition == PartitionUnassigned && m.flags == ConfOk && m.key == None
  {
    StrippedMetadata(if hook.Some? then hook.value.beforeProduce(e) else e);
  }

  /** The topics the receive loop subscribes to: the requested ones, or else the configured ones. */
  function SubscribedTopics(topicsToFilter: seq<string>, config: Configuration): seq<Value> {
    if topicsToFilter != [] then seq(|topicsToFilter|, i requires 0 <= i < |topicsToFilter| => Str(topicsToFilter[i]))
    else config.consumer.topics
  }

  /**
    The consume timeout `get` passes to the receive loop, as written: it
    reads a `generalSetting` property the class does not have, so the null
    coalescing always gives 500.
  */
  function ConsumeTimeoutAsWritten(config: Configuration): int {
    DefaultConsumeTimeout
  }

  /** The configured consume timeout is ignored: any other setting still gives 500. */
  lemma ConsumeTimeoutIgnored(config: Configuration)
    requires config.consumer.consumeTimeout != DefaultConsumeTimeout
    ensures ConsumeTimeoutAsWritten(config) != config.consumer.consumeTimeout
  {
  }

  /** The consume timeout `get` evidently means to pass: the consumer's configured one. */
  function ConsumeTimeout(config: Configuration): int
  {
    config.consumer.consumeTimeout
  }
}
