/** The producer section: its validator's constants and its builder. */
module ProducerConfig {
  import opened Wrappers
  import opened OrderedMap
  import opened PhpValue
  import opened ConfigError
  import opened SectionValidator
  import opened SectionBuilder
  import opened Configuration

  const Defaults: seq<(Key, Value)> := [
    (StrKey("poll_timeout_ms"), Int(0)),
    (StrKey("flush_timeout_ms"), Int(10000)),
    (StrKey("routing"), Arr([])),
    (StrKey("topics"), Arr([])),
    (StrKey("config"), Arr([]))]

  const Spec: Section := Section(
    "producer",
    Defaults,
    [("poll_timeout_ms", IntKind), ("flush_timeout_ms", IntKind), ("topics", ArrayKind)],
    "topic",
    [])

  lemma TimeoutDefaults()
    ensures Field(Defaults, "poll_timeout_ms") == Int(0)
    ensures Field(Defaults, "flush_timeout_ms") == Int(10000)
  {
    GetAt(Defaults, 0);
    GetAt(Defaults, 1);
  }

  lemma ListDefaults()
    ensures Field(Defaults, "routing") == Arr([])
    ensures Field(Defaults, "topics") == Arr([])
    ensures Field(Defaults, "config") == Arr([])
  {
    GetAt(Defaults, 2);
    GetAt(Defaults, 3);
    GetAt(Defaults, 4);
  }

  lemma TypedDefaults()
    ensures forall i :: 0 <= i < |Spec.typed| ==> HasKind(Field(Defaults, Spec.typed[i].0), Spec.typed[i].1)
  {
    TimeoutDefaults();
    ListDefaults();
    var t := Spec.typed;
    assert HasKind(Field(Defaults, t[0].0), t[0].1);
    assert HasKind(Field(Defaults, t[1].0), t[1].1);
    assert HasKind(Field(Defaults, t[2].0), t[2].1);
    TypedOfThree(Spec, Defaults);
  }

  lemma DefaultsShaped(classes: set<string>)
    ensures Shaped(Spec, Defaults, classes)
  {
    TypedDefaults();
    ListDefaults();
  }

  /** The producer's options, validated, have the shapes the builder reads. */
  lemma Validated(options: seq<(Key, Value)>, reg: Registry)
    requires Validate(Spec, options, reg.classes, reg.producerOptions).Ok?
    ensures Shaped(Spec, Validate(Spec, options, reg.classes, reg.producerOptions).value, reg.classes)
  {
    ValidateOk(Spec, options, reg.classes, reg.producerOptions);
    if GivenSection(Spec, options).None? {
      DefaultsShaped(reg.classes);
    }
  }

  /**
    `ProducerConfigurationBuilder::build`: routing as a name-to-topic table,
    the validated broker options and the two timeouts. The topic choice tests
    a variable that is never assigned in this builder, which is always
    empty, so the producer always takes the global topics.
  */
  function Build(options: seq<(Key, Value)>, globalTopics: seq<(Key, Value)>, reg: Registry)
    : (r: Result<ProducerConfiguration, ConfigError>)
    ensures r.Ok? ==> r.value.topics == Values(globalTopics)
    ensures r.Err? <==> Validate(Spec, options, reg.classes, reg.producerOptions).Err?
    ensures r.Err? ==> r.error == Validate(Spec, options, reg.classes, reg.producerOptions).error
    ensures r.Ok? ==> var o := Validate(Spec, options, reg.classes, reg.producerOptions).value;
      && Field(o, "routing").Arr? && r.value.routing == RoutingMap(Field(o, "routing").entries, "topic")
      && Field(o, "poll_timeout_ms") == Int(r.value.pollTimeoutMs)
      && Field(o, "flush_timeout_ms") == Int(r.value.flushTimeoutMs)
      && Field(o, "config").Arr? && StringEntries(Field(o, "config").entries)
      && r.value.config == StringPairs(Field(o, "config").entries)
  {
    var o :- Validate(Spec, options, reg.classes, reg.producerOptions);
    Validated(options, reg);
    assert Spec.typed[0] == ("poll_timeout_ms", IntKind) && Spec.typed[1] == ("flush_timeout_ms", IntKind);
    Ok(ProducerConfiguration(
      RoutingMap(Field(o, "routing").entries, "topic"),
      StringPairs(Field(o, "config").entries),
      Values(globalTopics),
      Field(o, "poll_timeout_ms").i,
      Field(o, "flush_timeout_ms").i))
  }

  /**
    An absent or empty producer section yields the defaults: no routing, no
    broker options, the global topics, a 0 ms poll and a 10000 ms flush.
  */
  lemma DefaultsWhenAbsent(options: seq<(Key, Value)>, globalTopics: seq<(Key, Value)>, reg: Registry)
    requires GivenSection(Spec, options).None?
    ensures Build(options, globalTopics, reg) == Ok(ProducerConfiguration([], [], Values(globalTopics), 0, 10000))
  {
    TimeoutDefaults();
    ListDefaults();
    assert Validate(Spec, options, reg.classes, reg.producerOptions) == Ok(Defaults);
    assert RoutingMap(Field(Defaults, "routing").entries, "topic") == [];
    assert StringPairs(Field(Defaults, "config").entries) == [];
  }

  /**
    The two timeouts are the section's own `poll_timeout_ms` and
    `flush_timeout_ms` when it gives them, integers both, and 0 ms and
    10000 ms otherwise.
  */
  lemma TimeoutsOf(options: seq<(Key, Value)>, globalTopics: seq<(Key, Value)>, reg: Registry)
    requires Build(options, globalTopics, reg).Ok? && SectionKeysUnique(Spec, options)
    ensures var c := Build(options, globalTopics, reg).value;
      var poll := SectionOption(Spec, options, "poll_timeout_ms");
      var flush := SectionOption(Spec, options, "flush_timeout_ms");
      && (poll.None? ==> c.pollTimeoutMs == 0) && (poll.Some? ==> poll.value == Int(c.pollTimeoutMs))
      && (flush.None? ==> c.flushTimeoutMs == 10000) && (flush.Some? ==> flush.value == Int(c.flushTimeoutMs))
  {
    TimeoutDefaults();
    ValidatedScalar(Spec, options, reg.classes, reg.producerOptions, "poll_timeout_ms");
    ValidatedScalar(Spec, options, reg.classes, reg.producerOptions, "flush_timeout_ms");
  }

  /**
    The routing table is built from the section's own routing list, or is
    empty without one: each name maps to the topic of its last entry.
  */
  lemma RoutingOf(options: seq<(Key, Value)>, globalTopics: seq<(Key, Value)>, reg: Registry, n: string)
    requires Build(options, globalTopics, reg).Ok? && SectionKeysUnique(Spec, options)
    requires ListKeysUnique(Spec, options, "routing")
    ensures var own := SectionOption(Spec, options, "routing");
      && (own.None? || own.value.Arr?)
      && Get(Build(options, globalTopics, reg).value.routing, n)
           == LastTarget(if own.Some? && own.value.Arr? then own.value.entries else [], "topic", n)
  {
    ListDefaults();
    ValidatedList(Spec, options, reg.classes, reg.producerOptions, "routing");
    Validated(options, reg);
    GetRoutingMap(Field(Validate(Spec, options, reg.classes, reg.producerOptions).value, "routing").entries, "topic", n);
  }

  /**
    The broker options are the section's own `config` list read as strings,
    or none without one.
  */
  lemma ConfigOf(options: seq<(Key, Value)>, globalTopics: seq<(Key, Value)>, reg: Registry)
    requires Build(options, globalTopics, reg).Ok? && SectionKeysUnique(Spec, options)
    requires ListKeysUnique(Spec, options, "config")
    ensures var own := SectionOption(Spec, options, "config").GetOr(Arr([]));
      && own.Arr? && StringEntries(own.entries)
      && Build(options, globalTopics, reg).value.config == StringPairs(own.entries)
  {
    ListDefaults();
    ValidatedList(Spec, options, reg.classes, reg.producerOptions, "config");
  }

  /** No broker option is required of a producer: its validation never fails for a missing one. */
  lemma NothingRequired(options: seq<(Key, Value)>, globalTopics: seq<(Key, Value)>, reg: Registry)
    ensures var r := Build(options, globalTopics, reg);
      r.Err? ==> !r.error.RequiredConfigMissing?
  {
    assert |Spec.required| == 0;
  }
}
