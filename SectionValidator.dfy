/**
  The validation both the consumer and the producer validator perform on
  their section of the transport options. The two classes share one code
  shape and differ only in constants: the section name, the defaults, the
  typed options, the field a routing entry must name besides `name`, and
  the required broker options. `Section` holds those constants.
*/
module SectionValidator {
  import opened Wrappers
  import opened OrderedMap
  import opened PhpValue
  import opened ConfigError

  datatype Kind = BoolKind | IntKind | ArrayKind

  /** The type name the type-check message expects. */
  function KindName(k: Kind): string {
    match k
    case BoolKind => "boolean"
    case IntKind => "integer"
    case ArrayKind => "array"
  }

  /** `is_bool`, `is_int` and `is_array`. */
  predicate HasKind(v: Value, k: Kind) {
    match k
    case BoolKind => v.Bool?
    case IntKind => v.Int?
    case ArrayKind => v.Arr?
  }

  datatype Section = Section(
    name: string,
    defaults: seq<(Key, Value)>,
    typed: seq<(string, Kind)>,
    target: string,
    required: seq<string>)

  /** The first error a check reports over a list, scanning in order; None when every element passes. */
  function FirstError<T, E>(xs: seq<T>, check: T -> Option<E>): (r: Option<E>)
    ensures r.None? <==> forall i :: 0 <= i < |xs| ==> check(xs[i]).None?
    ensures r.Some? ==> exists i :: 0 <= i < |xs| && r == check(xs[i]) && forall j :: 0 <= j < i ==> check(xs[j]).None?
  {
    if xs == [] then None
    else if check(xs[0]).Some? then check(xs[0])
    else
      var r := FirstError(xs[1..], check);
      assert forall i :: 1 <= i < |xs| ==> xs[i] == xs[1..][i - 1];
      r
  }

  /** The option names of a section: the keys of its defaults as strings. */
  function Names(s: Section): seq<string> {
    seq(|s.defaults|, i requires 0 <= i < |s.defaults| => KeyString(s.defaults[i].0))
  }

  /** `array_diff(array_keys($options), <names>)`: the keys not on the list, in their order. */
  function InvalidKeys(keys: seq<Key>, names: seq<string>): (r: seq<Key>)
    ensures forall k :: k in r <==> k in keys && KeyString(k) !in names
  {
    if keys == [] then []
    else
      var rest := InvalidKeys(keys[1..], names);
      assert keys == [keys[0]] + keys[1..];
      if KeyString(keys[0]) in names then rest else [keys[0]] + rest
  }

  /** `$options[$name]` on the merged options, whose defaults hold every name. */
  function Field(o: seq<(Key, Value)>, name: string): Value {
    Get(o, StrKey(name)).GetOr(Null)
  }

  /** The options' type checks, in their order. */
  function TypeCheck(o: seq<(Key, Value)>): ((string, Kind)) -> Option<ConfigError> {
    (t: (string, Kind)) =>
      var v := Field(o, t.0);
      if HasKind(v, t.1) then None else Some(OptionType(t.0, KindName(t.1), TypeName(v)))
  }

  /**
    `isset($route['name'], $route[<target>])` followed by `is_string` on
    both: the two strings of a well-formed routing entry. A value that is not
    an array has no such offsets.
  */
  function RouteFields(route: Value, target: string): (r: Option<(string, string)>)
    ensures r.Some? ==> Lookup(route, "name") == Some(Str(r.value.0)) && Lookup(route, target) == Some(Str(r.value.1))
  {
    match (Lookup(route, "name"), Lookup(route, target))
    case (Some(Str(n)), Some(Str(t))) => Some((n, t))
    case _ => None
  }

  /** One routing entry's check: well-formed first, then its target must be an existing class. */
  function RouteCheck(target: string, classes: set<string>): ((Key, Value)) -> Option<ConfigError> {
    (e: (Key, Value)) =>
      match RouteFields(e.1, target)
      case None => Some(RoutingEntryMalformed(target))
      case Some((_, t)) => if t in classes then None else Some(RoutingClassMissing(t))
  }

  /** One broker option's check: its name must be on the client's list, then its value must be a string. */
  function OptionCheck(available: set<string>): ((Key, Value)) -> Option<ConfigError> {
    (e: (Key, Value)) =>
      if !(e.0.StrKey? && e.0.s in available) then Some(InvalidConfigOption(e.0))
      else if !e.1.Str? then Some(ConfigValueNotString(e.0, DebugType(e.1)))
      else None
  }

  /** `array_diff(<required>, array_keys($config))`: the required names the broker options lack. */
  function Missing(required: seq<string>, config: seq<(Key, Value)>): (r: seq<string>)
    ensures forall n :: n in r <==> n in required && StrKey(n) !in Keys(config)
    ensures |r| <= |required|
  {
    if required == [] then []
    else
      var rest := Missing(required[1..], config);
      assert required == [required[0]] + required[1..];
      if StrKey(required[0]) in Keys(config) then rest else [required[0]] + rest
  }

  /** `$configOptions[<section>]` when it is not `empty()`; None when it is absent or empty. */
  function GivenSection(s: Section, options: seq<(Key, Value)>): (r: Option<Value>)
    ensures r.Some? ==> !Empty(r.value)
  {
    match Get(options, StrKey(s.name))
    case Some(v) => if Empty(v) then None else Some(v)
    case None => None
  }

  /** The checks that run on the merged options, in the order the validator makes them. */
  function CheckMerged(s: Section, o: seq<(Key, Value)>, classes: set<string>, available: set<string>)
    : (r: Result<seq<(Key, Value)>, ConfigError>)
    ensures r.Ok? ==> r.value == o
    ensures r.Err? ==> !r.error.InvalidSectionOptions?
    ensures r.Err? && r.error.RequiredConfigMissing? ==> 0 < |r.error.missing| <= |s.required|
  {
    match FirstError(s.typed, TypeCheck(o))
    case Some(e) => Err(e)
    case None =>
      var routing := Field(o, "routing");
      if !routing.Arr? then Err(TypeError(RoutingList))
      else match FirstError(routing.entries, RouteCheck(s.target, classes))
      case Some(e) => Err(e)
      case None =>
        var config := Field(o, "config");
        if !config.Arr? then Err(TypeError(BrokerOptions))
        else match FirstError(config.entries, OptionCheck(available))
        case Some(e) => Err(e)
        case None =>
          var missing := Missing(s.required, config.entries);
          if missing != [] then Err(RequiredConfigMissing(missing)) else Ok(o)
  }

  /**
    `validate`: the defaults when the section is absent or empty; otherwise
    the key check, the recursive merge over the defaults, and the checks on
    the merged options.
  */
  function Validate(s: Section, options: seq<(Key, Value)>, classes: set<string>, available: set<string>)
    : (r: Result<seq<(Key, Value)>, ConfigError>)
    ensures r.Err? && r.error.RequiredConfigMissing? ==> 0 < |r.error.missing| <= |s.required|
  {
    match GivenSection(s, options)
    case None => Ok(s.defaults)
    case Some(v) =>
      if !v.Arr? then Err(TypeError(SectionOptions))
      else
        var invalid := InvalidKeys(Keys(v.entries), Names(s));
        if invalid != [] then Err(InvalidSectionOptions(invalid))
        else CheckMerged(s, ReplaceRecursive(s.defaults, v.entries), classes, available)
  }

  /** The section's own entry for an option, when the section is given as an array. */
  function SectionOption(s: Section, options: seq<(Key, Value)>, name: string): (r: Option<Value>)
    ensures r.Some? ==>
      && GivenSection(s, options).Some? && GivenSection(s, options).value.Arr?
      && StrKey(name) in Keys(GivenSection(s, options).value.entries)
  {
    match GivenSection(s, options)
    case Some(Arr(es)) => Get(es, StrKey(name))
    case _ => None
  }

  /** A PHP array holds each key once; so does the given section. */
  ghost predicate SectionKeysUnique(s: Section, options: seq<(Key, Value)>) {
    match GivenSection(s, options)
    case Some(Arr(es)) => UniqueKeys(es)
    case _ => true
  }

  /** The same for the list the section gives under `name`. */
  ghost predicate ListKeysUnique(s: Section, options: seq<(Key, Value)>, name: string) {
    match SectionOption(s, options, name)
    case Some(Arr(es)) => UniqueKeys(es)
    case _ => true
  }

  /**
    An option whose default is a scalar comes out of validation as the
    section's own entry when it gives one, and as the default otherwise.
  */
  lemma ValidatedScalar(s: Section, options: seq<(Key, Value)>, classes: set<string>, available: set<string>, name: string)
    requires Validate(s, options, classes, available).Ok? && SectionKeysUnique(s, options)
    requires Get(s.defaults, StrKey(name)).Some? && !Get(s.defaults, StrKey(name)).value.Arr?
    ensures Get(Validate(s, options, classes, available).value, StrKey(name))
      == Some(SectionOption(s, options, name).GetOr(Get(s.defaults, StrKey(name)).value))
  {
    ValidateOk(s, options, classes, available);
    match GivenSection(s, options)
    case None =>
    case Some(v) => GetReplaceRecursive(s.defaults, v.entries, StrKey(name));
  }

  /**
    An option whose default is the empty array comes out of validation as
    the section's own entry when it gives one, and as the empty array
    otherwise: the merge into `[]` copies the section's list.
  */
  lemma ValidatedList(s: Section, options: seq<(Key, Value)>, classes: set<string>, available: set<string>, name: string)
    requires Validate(s, options, classes, available).Ok? && SectionKeysUnique(s, options)
    requires ListKeysUnique(s, options, name)
    requires Get(s.defaults, StrKey(name)) == Some(Arr([]))
    ensures Get(Validate(s, options, classes, available).value, StrKey(name))
      == Some(SectionOption(s, options, name).GetOr(Arr([])))
  {
    ValidateOk(s, options, classes, available);
    match GivenSection(s, options)
    case None =>
    case Some(v) =>
      GetReplaceRecursive(s.defaults, v.entries, StrKey(name));
      match SectionOption(s, options, name)
      case Some(Arr(es)) => ReplaceIntoEmpty(es);
      case _ =>
  }

  /**
    A list option typed as an array: its validated value is an array, the
    section's own list or `[]`.
  */
  lemma ValidatedArray(s: Section, options: seq<(Key, Value)>, classes: set<string>, available: set<string>,
                       name: string, idx: nat)
    requires Validate(s, options, classes, available).Ok? && SectionKeysUnique(s, options)
    requires ListKeysUnique(s, options, name)
    requires Get(s.defaults, StrKey(name)) == Some(Arr([]))
    requires idx < |s.typed| && s.typed[idx] == (name, ArrayKind)
    ensures var o := Validate(s, options, classes, available).value;
      Field(o, name).Arr? && Field(o, name) == SectionOption(s, options, name).GetOr(Arr([]))
  {
    ValidatedList(s, options, classes, available, name);
    ValidateOk(s, options, classes, available);
    var o := Validate(s, options, classes, available).value;
    if GivenSection(s, options).Some? {
      assert HasKind(Field(o, s.typed[idx].0), s.typed[idx].1);
    }
  }

  /** Every typed option has its type, every routing entry passes, and the broker options are strings. */
  predicate Shaped(s: Section, o: seq<(Key, Value)>, classes: set<string>) {
    (forall i :: 0 <= i < |s.typed| ==> HasKind(Field(o, s.typed[i].0), s.typed[i].1))
    && Field(o, "routing").Arr?
    && (forall i :: 0 <= i < |Field(o, "routing").entries| ==> RouteCheck(s.target, classes)(Field(o, "routing").entries[i]).None?)
    && Field(o, "config").Arr?
    && (forall i :: 0 <= i < |Field(o, "config").entries| ==>
          Field(o, "config").entries[i].0.StrKey? && Field(o, "config").entries[i].1.Str?)
  }

  /** The type conjunct of `Shaped` for a section with three typed options, one by one. */
  lemma TypedOfThree(s: Section, o: seq<(Key, Value)>)
    requires |s.typed| == 3
    requires HasKind(Field(o, s.typed[0].0), s.typed[0].1)
    requires HasKind(Field(o, s.typed[1].0), s.typed[1].1)
    requires HasKind(Field(o, s.typed[2].0), s.typed[2].1)
    ensures forall i :: 0 <= i < |s.typed| ==> HasKind(Field(o, s.typed[i].0), s.typed[i].1)
  {
  }

  /** The merged options pass every check: they are shaped, on the client's list and complete. */
  lemma CheckMergedOk(s: Section, o: seq<(Key, Value)>, classes: set<string>, available: set<string>)
    requires CheckMerged(s, o, classes, available).Ok?
    ensures Shaped(s, o, classes)
    ensures forall i :: 0 <= i < |Field(o, "config").entries| ==> Field(o, "config").entries[i].0.s in available
    ensures forall n :: n in s.required ==> StrKey(n) in Keys(Field(o, "config").entries)
  {
    var config := Field(o, "config");
    forall i | 0 <= i < |config.entries|
      ensures config.entries[i].0.StrKey? && config.entries[i].1.Str? && config.entries[i].0.s in available
    {
      assert OptionCheck(available)(config.entries[i]).None?;
    }
    forall n | n in s.required ensures StrKey(n) in Keys(config.entries) {
      assert n !in Missing(s.required, config.entries);
    }
  }

  /**
    What a successful validation promises: either the section was absent or
    empty and the defaults come back untouched, or the result is the section
    merged over the defaults, all its checks pass, every broker option is on
    the client's list and every required option is present.
  */
  lemma ValidateOk(s: Section, options: seq<(Key, Value)>, classes: set<string>, available: set<string>)
    requires Validate(s, options, classes, available).Ok?
    ensures var o := Validate(s, options, classes, available).value;
      match GivenSection(s, options)
      case None => o == s.defaults
      case Some(v) =>
        v.Arr? && o == ReplaceRecursive(s.defaults, v.entries)
        && Shaped(s, o, classes)
        && (forall i :: 0 <= i < |Field(o, "config").entries| ==> Field(o, "config").entries[i].0.s in available)
        && (forall n :: n in s.required ==> StrKey(n) in Keys(Field(o, "config").entries))
  {
    match GivenSection(s, options)
    case None =>
    case Some(v) =>
      CheckMergedOk(s, ReplaceRecursive(s.defaults, v.entries), classes, available);
  }

  /**
    Key check first: a non-empty array section with a key outside the
    option names fails with exactly those keys, before any type, routing
    or broker check runs.
  */
  lemma InvalidKeysFirst(s: Section, options: seq<(Key, Value)>, classes: set<string>, available: set<string>)
    requires GivenSection(s, options).Some? && GivenSection(s, options).value.Arr?
    ensures var v := GivenSection(s, options).value;
      var invalid := InvalidKeys(Keys(v.entries), Names(s));
      invalid != [] <==> Validate(s, options, classes, available) == Err(InvalidSectionOptions(invalid))
  {
  }

  /**
    Types next, in their listed order: the first typed option whose merged
    value has the wrong type is reported with its actual type name, and only
    when every earlier one is right.
  */
  lemma TypeErrorReported(s: Section, o: seq<(Key, Value)>, classes: set<string>, available: set<string>, i: nat)
    requires i < |s.typed| && !HasKind(Field(o, s.typed[i].0), s.typed[i].1)
    requires forall j :: 0 <= j < i ==> HasKind(Field(o, s.typed[j].0), s.typed[j].1)
    ensures CheckMerged(s, o, classes, available)
      == Err(OptionType(s.typed[i].0, KindName(s.typed[i].1), TypeName(Field(o, s.typed[i].0))))
  {
    var r := FirstError(s.typed, TypeCheck(o));
    assert TypeCheck(o)(s.typed[i]).Some?;
    var k :| 0 <= k < |s.typed| && r == TypeCheck(o)(s.typed[k]) && forall j :: 0 <= j < k ==> TypeCheck(o)(s.typed[j]).None?;
    assert k == i;
  }

  /**
    Routing next: with the types right, the first routing entry that is
    malformed or names a missing class is reported, and only when every
    earlier entry passes.
  */
  lemma RoutingErrorReported(s: Section, o: seq<(Key, Value)>, classes: set<string>, available: set<string>, i: nat)
    requires forall j :: 0 <= j < |s.typed| ==> HasKind(Field(o, s.typed[j].0), s.typed[j].1)
    requires Field(o, "routing").Arr? && i < |Field(o, "routing").entries|
    requires RouteCheck(s.target, classes)(Field(o, "routing").entries[i]).Some?
    requires forall j :: 0 <= j < i ==> RouteCheck(s.target, classes)(Field(o, "routing").entries[j]).None?
    ensures CheckMerged(s, o, classes, available) == Err(RouteCheck(s.target, classes)(Field(o, "routing").entries[i]).value)
  {
    var es := Field(o, "routing").entries;
    var check := RouteCheck(s.target, classes);
    assert FirstError(s.typed, TypeCheck(o)).None? by {
      forall j | 0 <= j < |s.typed| ensures TypeCheck(o)(s.typed[j]).None? {
      }
    }
    var r := FirstError(es, check);
    var k :| 0 <= k < |es| && r == check(es[k]) && forall j :: 0 <= j < k ==> check(es[j]).None?;
    assert k == i;
  }
}
