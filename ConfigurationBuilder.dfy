/**
  `ConfigurationBuilder::build`: parse the DSN, merge the transport's
  options over the global ones, check the top-level keys, read the JSON
  serialisation switches, build the consumer and then the producer
  configuration, and insist on at least one topic.
*/
module ConfigurationBuilder {
  import opened Wrappers
  import opened OrderedMap
  import opened PhpValue
  import opened ConfigError
  import opened Configuration
  import Decimal
  import Dsn
  import SectionValidator
  import ConsumerConfig
  import ProducerConfig

  /** The top-level option names a transport accepts. */
  const AvailableOptions: seq<string> := ["json_serialization", "consumer", "producer", "topics", "transport_name", "retry_topic"]

  /** `array_replace_recursive($globalOptions, $transportOptions)`. */
  function Merge(globalOptions: seq<(Key, Value)>, transportOptions: seq<(Key, Value)>): (r: seq<(Key, Value)>)
    ensures forall k :: k in Keys(r) <==> k in Keys(globalOptions) || k in Keys(transportOptions)
  {
    KeysReplaceRecursive(globalOptions, transportOptions);
    ReplaceRecursive(globalOptions, transportOptions)
  }

  /**
    `$options[$k] ?? <default>`: the entry when it exists and is not null.
    On a value that is not an array there is no such offset.
  */
  function OrDefault(v: Value, k: string, default: Value): (r: Value)
    ensures Lookup(v, k).None? ==> r == default
    ensures Lookup(v, k).Some? ==> r == Lookup(v, k).value
  {
    Lookup(v, k).GetOr(default)
  }

  /**
    A value passed to a `bool` parameter from a file without strict types:
    scalars are converted with PHP's truthiness, an array is a TypeError.
  */
  function BoolParam(v: Value, site: TypeSite): (r: Result<bool, ConfigError>)
    ensures r.Err? <==> v.Arr?
    ensures r.Ok? ==> r.value == !Empty(v)
    ensures v.Bool? ==> r == Ok(v.b)
  {
    if v.Arr? then Err(TypeError(site)) else Ok(!Empty(v))
  }

  /**
    A value passed to a `?string` parameter from a file without strict types:
    null stays null, integers print in decimal, true is "1" and false "",
    an array is a TypeError.
  */
  function NullableStringParam(v: Value, site: TypeSite): (r: Result<Option<string>, ConfigError>)
    ensures r.Err? <==> v.Arr?
    ensures r.Ok? ==> (r.value.None? <==> v.Null?)
    ensures v.Str? ==> r == Ok(Some(v.s))
    ensures v.Int? ==> r.Ok? && r.value.Some? && Decimal.ParseInt(r.value.value) == Some(v.i)
  {
    match v
    case Null => Ok(None)
    case Bool(b) => Ok(Some(if b then "1" else ""))
    case Int(i) => Decimal.ParseIntToString(i); Ok(Some(Decimal.IntToString(i)))
    case Str(s) => Ok(Some(s))
    case Arr(_) => Err(TypeError(site))
  }

  /**
    `buildJsonSerializationConfig`: `enabled` and `custom_serializer` read
    with defaults from the `json_serialization` entry, which itself defaults
    to an empty array.
  */
  function JsonSerialization(options: seq<(Key, Value)>): (r: Result<JsonSerializationConfiguration, ConfigError>)
    ensures r.Ok? && Lookup(Arr(options), "json_serialization").None? ==> r.value == JsonSerializationConfiguration(false, None)
    ensures r.Err? ==> r.error.TypeError?
  {
    var json := OrDefault(Arr(options), "json_serialization", Arr([]));
    var enabled :- BoolParam(OrDefault(json, "enabled", Bool(false)), EnabledArgument);
    var custom :- NullableStringParam(OrDefault(json, "custom_serializer", Null), CustomSerializerArgument);
    Ok(JsonSerializationConfiguration(enabled, custom))
  }

  /**
    `$mergedOptions['topics'] ?? []`, handed to the builders' `?array`
    parameter: anything other than an array or null is a TypeError there.
  */
  function GlobalTopics(options: seq<(Key, Value)>): (r: Result<seq<(Key, Value)>, ConfigError>)
    ensures Lookup(Arr(options), "topics").None? ==> r == Ok([])
    ensures r.Err? <==> Lookup(Arr(options), "topics").Some? && !Lookup(Arr(options), "topics").value.Arr?
  {
    match OrDefault(Arr(options), "topics", Arr([]))
    case Arr(es) => Ok(es)
    case _ => Err(TypeError(GlobalTopicsArgument))
  }

  /**
    The four parts of a transport's configuration, in the order the builder
    makes them; the errors of an earlier part win over those of a later one.
    Reading `topics` cannot fail; a non-array there is rejected by the
    consumer builder's `?array` parameter, so after the JSON switches.
  */
  function Parts(dsn: string, globalOptions: seq<(Key, Value)>, transportOptions: seq<(Key, Value)>, reg: Registry)
    : (r: Result<Configuration, ConfigError>)
    ensures r.Ok? ==> Dsn.Build(dsn).Ok? && r.value.dsn == Dsn.Build(dsn).value
    ensures r.Ok? ==> var topics := GlobalTopics(Merge(globalOptions, transportOptions));
      topics.Ok? && r.value.producer.topics == Values(topics.value)
      && (r.value.consumer.topics == [] || r.value.consumer.topics == Values(topics.value))
  {
    var parsed :- Dsn.Build(dsn);
    var merged := Merge(globalOptions, transportOptions);
    var invalid := SectionValidator.InvalidKeys(Keys(merged), AvailableOptions);
    if invalid != [] then Err(InvalidTransportOptions(invalid, parsed.transportName))
    else
      var json :- JsonSerialization(merged);
      var topics :- GlobalTopics(merged);
      var consumer :- ConsumerConfig.Build(merged, topics, reg);
      var producer :- ProducerConfig.Build(merged, topics, reg);
      Ok(Configuration(parsed, producer, consumer, json))
  }

  /** `validateTopicsConfiguration`: a transport must consume or produce at least one topic. */
  function CheckTopics(c: Configuration): (r: Result<Configuration, ConfigError>)
    ensures r.Ok? <==> c.consumer.topics != [] || c.producer.topics != []
    ensures r.Ok? ==> r.value == c
    ensures r.Err? ==> r.error == NoTopics(c.dsn.transportName)
  {
    if c.consumer.topics == [] && c.producer.topics == [] then Err(NoTopics(c.dsn.transportName)) else Ok(c)
  }

  /**
    `build` as written: once every check passes, the final constructor call
    names a `retryTopic` parameter that `Configuration::__construct` does
    not declare, which PHP rejects with an Error. No call returns a
    configuration.
  */
  function BuildAsWritten(dsn: string, globalOptions: seq<(Key, Value)>, transportOptions: seq<(Key, Value)>, reg: Registry)
    : (r: Result<Configuration, ConfigError>)
    ensures r.Err?
    ensures Build(dsn, globalOptions, transportOptions, reg).Ok? ==> r.error == UnknownNamedParameter("retryTopic")
    ensures Build(dsn, globalOptions, transportOptions, reg).Err? ==> r == Build(dsn, globalOptions, transportOptions, reg)
  {
    var parts :- Parts(dsn, globalOptions, transportOptions, reg);
    var checked :- CheckTopics(parts);
    Err(UnknownNamedParameter("retryTopic"))
  }

  /**
    `build` as evidently intended: the same checks in the same order, ending
    in the configuration of the four parts.
  */
  function Build(dsn: string, globalOptions: seq<(Key, Value)>, transportOptions: seq<(Key, Value)>, reg: Registry)
    : (r: Result<Configuration, ConfigError>)
    ensures r.Ok? ==> r.value.consumer.topics != [] || r.value.producer.topics != []
  {
    var parts :- Parts(dsn, globalOptions, transportOptions, reg);
    CheckTopics(parts)
  }

  /** The DSN is parsed first: its error wins over every option error. */
  lemma DsnErrorFirst(dsn: string, globalOptions: seq<(Key, Value)>, transportOptions: seq<(Key, Value)>, reg: Registry)
    requires Dsn.Build(dsn).Err?
    ensures Build(dsn, globalOptions, transportOptions, reg) == Err(Dsn.Build(dsn).error)
  {
  }

  /**
    Top-level keys next: with a valid DSN and merged keys outside the
    allow-list, the build fails with exactly those keys and the transport's
    name.
  */
  lemma InvalidOptionsReported(dsn: string, globalOptions: seq<(Key, Value)>, transportOptions: seq<(Key, Value)>, reg: Registry)
    requires Dsn.Build(dsn).Ok?
    requires SectionValidator.InvalidKeys(Keys(Merge(globalOptions, transportOptions)), AvailableOptions) != []
    ensures Build(dsn, globalOptions, transportOptions, reg)
      == Err(InvalidTransportOptions(SectionValidator.InvalidKeys(Keys(Merge(globalOptions, transportOptions)), AvailableOptions), Dsn.Build(dsn).value.transportName))
  {
  }

  /** Without a `json_serialization` entry, JSON mode is off and no serializer is named. */
  lemma JsonDefaults(options: seq<(Key, Value)>)
    requires Lookup(Arr(options), "json_serialization").None?
    ensures JsonSerialization(options) == Ok(JsonSerializationConfiguration(false, None))
  {
  }

  /**
    The JSON switches are read before the builders are called: with a valid
    DSN and allowed keys, their TypeError wins over a `topics` that is not an
    array and over every section error.
  */
  lemma JsonErrorFirst(dsn: string, globalOptions: seq<(Key, Value)>, transportOptions: seq<(Key, Value)>, reg: Registry)
    requires Dsn.Build(dsn).Ok?
    requires var merged := Merge(globalOptions, transportOptions);
      SectionValidator.InvalidKeys(Keys(merged), AvailableOptions) == [] && JsonSerialization(merged).Err?
    ensures var merged := Merge(globalOptions, transportOptions);
      Build(dsn, globalOptions, transportOptions, reg) == Err(JsonSerialization(merged).error)
  {
  }

  /**
    A `topics` entry that is not an array fails at the consumer builder's
    parameter, before either section is validated.
  */
  lemma TopicsTypeErrorBeforeSections(dsn: string, globalOptions: seq<(Key, Value)>, transportOptions: seq<(Key, Value)>, reg: Registry)
    requires Dsn.Build(dsn).Ok?
    requires var merged := Merge(globalOptions, transportOptions);
      SectionValidator.InvalidKeys(Keys(merged), AvailableOptions) == [] && JsonSerialization(merged).Ok?
      && GlobalTopics(merged).Err?
    ensures Build(dsn, globalOptions, transportOptions, reg) == Err(TypeError(GlobalTopicsArgument))
  {
  }

  /**
    The consumer is built before the producer: once the earlier steps pass,
    a consumer error is the build's error whatever the producer section says.
  */
  lemma ConsumerErrorFirst(dsn: string, globalOptions: seq<(Key, Value)>, transportOptions: seq<(Key, Value)>, reg: Registry)
    requires Dsn.Build(dsn).Ok?
    requires var merged := Merge(globalOptions, transportOptions);
      SectionValidator.InvalidKeys(Keys(merged), AvailableOptions) == []
      && GlobalTopics(merged).Ok? && JsonSerialization(merged).Ok?
      && ConsumerConfig.Build(merged, GlobalTopics(merged).value, reg).Err?
    ensures var merged := Merge(globalOptions, transportOptions);
      Build(dsn, globalOptions, transportOptions, reg) == Err(ConsumerConfig.Build(merged, GlobalTopics(merged).value, reg).error)
  {
  }

  /**
    The topics rule in terms of the options: once the four parts build, the
    transport builds exactly when the global topic list is non-empty, since
    the producer always takes the global topics and the consumer takes them
    or none.
  */
  lemma TopicsRule(dsn: string, globalOptions: seq<(Key, Value)>, transportOptions: seq<(Key, Value)>, reg: Registry)
    requires Parts(dsn, globalOptions, transportOptions, reg).Ok?
    ensures GlobalTopics(Merge(globalOptions, transportOptions)).Ok?
    ensures Build(dsn, globalOptions, transportOptions, reg).Ok? <==> GlobalTopics(Merge(globalOptions, transportOptions)).value != []
    ensures Build(dsn, globalOptions, transportOptions, reg).Err? ==>
      Build(dsn, globalOptions, transportOptions, reg).error == NoTopics(Dsn.Build(dsn).value.transportName)
  {
    var topics := GlobalTopics(Merge(globalOptions, transportOptions)).value;
    assert |Values(topics)| == |topics|;
  }

  /**
    The consume timeout of a built configuration is the consumer section's
    `consume_timeout_ms` when the merged options give one, and 500 ms
    otherwise.
  */
  lemma ConsumeTimeoutConfigured(dsn: string, globalOptions: seq<(Key, Value)>, transportOptions: seq<(Key, Value)>, reg: Registry)
    requires Build(dsn, globalOptions, transportOptions, reg).Ok?
    requires SectionValidator.SectionKeysUnique(ConsumerConfig.Spec, Merge(globalOptions, transportOptions))
    ensures var own := SectionValidator.SectionOption(ConsumerConfig.Spec, Merge(globalOptions, transportOptions), "consume_timeout_ms");
      var timeout := Build(dsn, globalOptions, transportOptions, reg).value.consumer.consumeTimeout;
      (own.None? ==> timeout == 500) && (own.Some? ==> own.value == Int(timeout))
  {
    var merged := Merge(globalOptions, transportOptions);
    var topics := PartsConsumer(dsn, globalOptions, transportOptions, reg);
    ConsumerConfig.ScalarOptions(merged, topics, reg);
  }

  /** A built configuration's consumer is the consumer builder's result on the merged options. */
  lemma PartsConsumer(dsn: string, globalOptions: seq<(Key, Value)>, transportOptions: seq<(Key, Value)>, reg: Registry)
    returns (topics: seq<(Key, Value)>)
    requires Build(dsn, globalOptions, transportOptions, reg).Ok?
    ensures var merged := Merge(globalOptions, transportOptions);
      && GlobalTopics(merged) == Ok(topics)
      && ConsumerConfig.Build(merged, topics, reg) == Ok(Build(dsn, globalOptions, transportOptions, reg).value.consumer)
  {
    var merged := Merge(globalOptions, transportOptions);
    var parts := Parts(dsn, globalOptions, transportOptions, reg);
    assert parts.Ok? && Build(dsn, globalOptions, transportOptions, reg) == CheckTopics(parts.value);
    topics := GlobalTopics(merged).value;
    assert parts.value.consumer == ConsumerConfig.Build(merged, topics, reg).value;
  }

  /** A transport whose merged options give no `topics` never builds. */
  lemma NoGlobalTopicsNoBuild(dsn: string, globalOptions: seq<(Key, Value)>, transportOptions: seq<(Key, Value)>, reg: Registry)
    requires Lookup(Arr(Merge(globalOptions, transportOptions)), "topics").None?
    ensures Build(dsn, globalOptions, transportOptions, reg).Err?
  {
    if Parts(dsn, globalOptions, transportOptions, reg).Ok? {
      TopicsRule(dsn, globalOptions, transportOptions, reg);
    }
  }
}
