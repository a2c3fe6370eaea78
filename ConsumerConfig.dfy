/** The consumer section: its validator's constants and its builder. */
module ConsumerConfig {
  import opened Wrappers
  import opened OrderedMap
  import opened PhpValue
  import opened ConfigError
  import opened SectionValidator
  import opened SectionBuilder
  import opened Configuration

  /** The broker options a consumer starts from. */
  const DefaultBrokerOptions: seq<(string, string)> := [
    ("auto.offset.reset", "earliest"),
    ("enable.auto.commit", "false"),
    ("enable.partition.eof", "true")]

  const DefaultBrokerConfig: seq<(Key, Value)> := Entries(DefaultBrokerOptions)

  const Defaults: seq<(Key, Value)> := [
    (StrKey("commit_async"), Bool(true)),
    (StrKey("consume_timeout_ms"), Int(500)),
    (StrKey("topics"), Arr([])),
    (StrKey("routing"), Arr([])),
    (StrKey("config"), Arr(DefaultBrokerConfig))]

  const Spec: Section := Section(
    "consumer",
    Defaults,
    [("commit_async", BoolKind), ("consume_timeout_ms", IntKind), ("topics", ArrayKind)],
    "class",
    ["group.id"])

  lemma DefaultsFields()
    ensures Field(Defaults, "commit_async") == Bool(true)
    ensures Field(Defaults, "consume_timeout_ms") == Int(500)
    ensures Field(Defaults, "topics") == Arr([])
    ensures Field(Defaults, "routing") == Arr([])
    ensures Field(Defaults, "config") == Arr(DefaultBrokerConfig)
  {
    GetAt(Defaults, 0);
    GetAt(Defaults, 1);
    GetAt(Defaults, 2);
    GetAt(Defaults, 3);
    GetAt(Defaults, 4);
  }

  lemma DefaultsShaped(classes: set<string>)
    ensures Shaped(Spec, Defaults, classes)
  {
    DefaultsFields();
    var t := Spec.typed;
    forall i | 0 <= i < |t| ensures HasKind(Field(Defaults, t[i].0), t[i].1) {
      if i == 0 {
      } else if i == 1 {
      } else {
        assert i == 2;
      }
    }
    assert Field(Defaults, "routing").entries == [];
  }

  /** The consumer's options, validated, have the shapes the builder reads. */
  lemma Validated(options: seq<(Key, Value)>, reg: Registry)
    requires Validate(Spec, options, reg.classes, reg.consumerOptions).Ok?
    ensures Shaped(Spec, Validate(Spec, options, reg.classes, reg.consumerOptions).value, reg.classes)
  {
    ValidateOk(Spec, options, reg.classes, reg.consumerOptions);
    if GivenSection(Spec, options).None? {
      DefaultsShaped(reg.classes);
    }
  }

  /**
    `ConsumerConfigurationBuilder::build`: routing as a name-to-class table,
    the validated broker options, the global topics when the section's own
    topic list is empty and no topics otherwise, the timeout and commit mode
    from the options, and commit-on-error left at its default.
  */
  function Build(options: seq<(Key, Value)>, globalTopics: seq<(Key, Value)>, reg: Registry)
    : (r: Result<ConsumerConfiguration, ConfigError>)
    ensures r.Ok? ==> r.value.commitOnError && !r.value.validateSchema
    ensures r.Err? <==> Validate(Spec, options, reg.classes, reg.consumerOptions).Err?
    ensures r.Err? ==> r.error == Validate(Spec, options, reg.classes, reg.consumerOptions).error
    ensures r.Ok? ==> var o := Validate(Spec, options, reg.classes, reg.consumerOptions).value;
      && Field(o, "routing").Arr? && r.value.routing == RoutingMap(Field(o, "routing").entries, "class")
      && r.value.topics == (if Empty(Field(o, "topics")) then Values(globalTopics) else [])
      && Field(o, "consume_timeout_ms") == Int(r.value.consumeTimeout)
      && Field(o, "commit_async") == Bool(r.value.commitAsync)
  {
    var o :- Validate(Spec, options, reg.classes, reg.consumerOptions);
    Validated(options, reg);
    assert Spec.typed[0] == ("commit_async", BoolKind) && Spec.typed[1] == ("consume_timeout_ms", IntKind);
    Ok(ConsumerConfiguration(
      RoutingMap(Field(o, "routing").entries, "class"),
      StringPairs(Field(o, "config").entries),
      if Empty(Field(o, "topics")) then Values(globalTopics) else [],
      Field(o, "consume_timeout_ms").i,
      Field(o, "commit_async").b,
      true,
      false))
  }

  /**
    An absent or empty consumer section yields the defaults: no routing, the
    three default broker options, the global topics, 500 ms, asynchronous
    commits, and no `group.id` demanded.
  */
  lemma DefaultsWhenAbsent(options: seq<(Key, Value)>, globalTopics: seq<(Key, Value)>, reg: Registry)
    requires GivenSection(Spec, options).None?
    ensures Build(options, globalTopics, reg) == Ok(ConsumerConfiguration(
      [], DefaultBrokerOptions, Values(globalTopics), 500, true, true, false))
  {
    DefaultsFields();
    assert Validate(Spec, options, reg.classes, reg.consumerOptions) == Ok(Defaults);
    assert RoutingMap(Field(Defaults, "routing").entries, "class") == [];
  }

  /**
    The timeout and the commit mode are the section's own `consume_timeout_ms`
    and `commit_async` when it gives them, and 500 ms and asynchronous
    commits otherwise; a given one is an integer and a boolean.
  */
  lemma ScalarOptions(options: seq<(Key, Value)>, globalTopics: seq<(Key, Value)>, reg: Registry)
    requires Build(options, globalTopics, reg).Ok? && SectionKeysUnique(Spec, options)
    ensures var c := Build(options, globalTopics, reg).value;
      var timeout := SectionOption(Spec, options, "consume_timeout_ms");
      var commit := SectionOption(Spec, options, "commit_async");
      && (timeout.None? ==> c.consumeTimeout == 500) && (timeout.Some? ==> timeout.value == Int(c.consumeTimeout))
      && (commit.None? ==> c.commitAsync) && (commit.Some? ==> commit.value == Bool(c.commitAsync))
  {
    DefaultsFields();
    ValidatedScalar(Spec, options, reg.classes, reg.consumerOptions, "consume_timeout_ms");
    ValidatedScalar(Spec, options, reg.classes, reg.consumerOptions, "commit_async");
  }

  /**
    The topic rule: the consumer takes the global topics exactly when the
    section gives no topic list or an empty one, and no topics when it
    gives a non-empty one.
  */
  lemma TopicsOf(options: seq<(Key, Value)>, globalTopics: seq<(Key, Value)>, reg: Registry)
    requires Build(options, globalTopics, reg).Ok? && SectionKeysUnique(Spec, options)
    requires ListKeysUnique(Spec, options, "topics")
    ensures var own := SectionOption(Spec, options, "topics");
      && (own.None? || own.value.Arr?)
      && Build(options, globalTopics, reg).value.topics == (if own.Some? && own.value.entries != [] then [] else Values(globalTopics))
  {
    var o := Validate(Spec, options, reg.classes, reg.consumerOptions).value;
    var topics := Build(options, globalTopics, reg).value.topics;
    assert topics == (if Empty(Field(o, "topics")) then Values(globalTopics) else []);
    TopicsField(options, reg);
  }

  /** The validated topic list is the section's own list, or `[]` without one. */
  lemma TopicsField(options: seq<(Key, Value)>, reg: Registry)
    requires Validate(Spec, options, reg.classes, reg.consumerOptions).Ok? && SectionKeysUnique(Spec, options)
    requires ListKeysUnique(Spec, options, "topics")
    ensures var o := Validate(Spec, options, reg.classes, reg.consumerOptions).value;
      Field(o, "topics").Arr? && Field(o, "topics") == SectionOption(Spec, options, "topics").GetOr(Arr([]))
  {
    DefaultsFields();
    ValidatedArray(Spec, options, reg.classes, reg.consumerOptions, "topics", 2);
  }

  /**
    The routing table is built from the section's own routing list, or is
    empty without one: each name maps to the class of its last entry.
  */
  lemma RoutingOf(options: seq<(Key, Value)>, globalTopics: seq<(Key, Value)>, reg: Registry, n: string)
    requires Build(options, globalTopics, reg).Ok? && SectionKeysUnique(Spec, options)
    requires ListKeysUnique(Spec, options, "routing")
    ensures var own := SectionOption(Spec, options, "routing");
      && (own.None? || own.value.Arr?)
      && Get(Build(options, globalTopics, reg).value.routing, n)
           == LastTarget(if own.Some? && own.value.Arr? then own.value.entries else [], "class", n)
  {
    DefaultsFields();
    ValidatedList(Spec, options, reg.classes, reg.consumerOptions, "routing");
    Validated(options, reg);
    GetRoutingMap(Field(Validate(Spec, options, reg.classes, reg.consumerOptions).value, "routing").entries, "class", n);
  }

  /** `commit_on_error` is not a consumer option: a section that sets it is rejected. */
  lemma CommitOnErrorRejected(options: seq<(Key, Value)>, globalTopics: seq<(Key, Value)>, reg: Registry)
    requires GivenSection(Spec, options).Some? && GivenSection(Spec, options).value.Arr?
    requires StrKey("commit_on_error") in Keys(GivenSection(Spec, options).value.entries)
    ensures var r := Build(options, globalTopics, reg);
      r.Err? && r.error.InvalidSectionOptions? && StrKey("commit_on_error") in r.error.keys
  {
    var v := GivenSection(Spec, options).value;
    assert Keys(Defaults) == [StrKey("commit_async"), StrKey("consume_timeout_ms"), StrKey("topics"), StrKey("routing"), StrKey("config")];
    assert Names(Spec) == ["commit_async", "consume_timeout_ms", "topics", "routing", "config"];
    assert StrKey("commit_on_error") in InvalidKeys(Keys(v.entries), Names(Spec));
  }

  /** The built broker options are the validated ones, as strings. */
  lemma ConfigOf(options: seq<(Key, Value)>, globalTopics: seq<(Key, Value)>, reg: Registry)
    requires Build(options, globalTopics, reg).Ok?
    ensures var o := Validate(Spec, options, reg.classes, reg.consumerOptions).value;
      Field(o, "config").Arr? && StringEntries(Field(o, "config").entries)
      && Build(options, globalTopics, reg).value.config == StringPairs(Field(o, "config").entries)
  {
    Validated(options, reg);
  }

  /** A consumer section that validates has a `group.id` broker option. */
  lemma GroupIdRequired(options: seq<(Key, Value)>, globalTopics: seq<(Key, Value)>, reg: Registry)
    requires GivenSection(Spec, options).Some? && Build(options, globalTopics, reg).Ok?
    ensures "group.id" in Keys(Build(options, globalTopics, reg).value.config)
  {
    ValidateOk(Spec, options, reg.classes, reg.consumerOptions);
    ConfigOf(options, globalTopics, reg);
    var es := Field(Validate(Spec, options, reg.classes, reg.consumerOptions).value, "config").entries;
    assert "group.id" in Spec.required;
    StringPairsKeys(es, "group.id");
  }

  /** Merging a section over the defaults keeps every default broker option's key. */
  lemma MergedConfigKeys(v: Value)
    requires v.Arr? && UniqueKeys(v.entries)
    requires Field(ReplaceRecursive(Defaults, v.entries), "config").Arr?
    ensures forall k :: k in Keys(DefaultBrokerConfig) ==> k in Keys(Field(ReplaceRecursive(Defaults, v.entries), "config").entries)
  {
    DefaultsFields();
    GetReplaceRecursive(Defaults, v.entries, StrKey("config"));
    var config := Field(ReplaceRecursive(Defaults, v.entries), "config");
    match Get(v.entries, StrKey("config"))
    case None =>
    case Some(c) =>
      KeysReplaceRecursive(DefaultBrokerConfig, c.entries);
  }

  /**
    The section merges over the defaults: a validated consumer keeps every
    default broker option, overridden or not.
  */
  lemma DefaultBrokerOptionsKept(options: seq<(Key, Value)>, globalTopics: seq<(Key, Value)>, reg: Registry, k: string)
    requires GivenSection(Spec, options).Some? && GivenSection(Spec, options).value.Arr?
    requires UniqueKeys(GivenSection(Spec, options).value.entries)
    requires k in Keys(DefaultBrokerOptions) && Build(options, globalTopics, reg).Ok?
    ensures k in Keys(Build(options, globalTopics, reg).value.config)
  {
    var v := GivenSection(Spec, options).value;
    var j :| 0 <= j < |DefaultBrokerOptions| && DefaultBrokerOptions[j].0 == k;
    assert Keys(DefaultBrokerConfig)[j] == StrKey(k);
    ValidateOk(Spec, options, reg.classes, reg.consumerOptions);
    ConfigOf(options, globalTopics, reg);
    MergedConfigKeys(v);
    var es := Field(ReplaceRecursive(Defaults, v.entries), "config").entries;
    assert StrKey(k) in Keys(es);
    StringPairsKeys(es, k);
  }
}
