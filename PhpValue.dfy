/**
  The option values the transport is configured with: PHP scalars and
  ordered arrays whose keys are integers or strings, as they come out of
  the bundle's YAML configuration (floats and objects do not occur there).
*/
module PhpValue {
  import opened Wrappers
  import opened OrderedMap
  import Decimal

  datatype Key = IntKey(i: int) | StrKey(s: string)

  datatype Value =
    | Null
    | Bool(b: bool)
    | Int(i: int)
    | Str(s: string)
    | Arr(entries: seq<(Key, Value)>)

  /** `gettype($v)`, the name the type-check messages print. */
  function TypeName(v: Value): (n: string)
    ensures n == "array" <==> v.Arr?
    ensures n == "boolean" <==> v.Bool?
    ensures n == "integer" <==> v.Int?
  {
    match v
    case Null => "NULL"
    case Bool(_) => "boolean"
    case Int(_) => "integer"
    case Str(_) => "string"
    case Arr(_) => "array"
  }

  /** `get_debug_type($v)`, the name the broker-option message prints. */
  function DebugType(v: Value): (n: string)
    ensures n == "string" <==> v.Str?
  {
    match v
    case Null => "null"
    case Bool(_) => "bool"
    case Int(_) => "int"
    case Str(_) => "string"
    case Arr(_) => "array"
  }

  /** PHP's `empty($v)` on a value that exists: null, false, 0, "", "0" and []. */
  predicate Empty(v: Value) {
    match v
    case Null => true
    case Bool(b) => !b
    case Int(i) => i == 0
    case Str(s) => s == "" || s == "0"
    case Arr(es) => es == []
  }

  /** `(string)$key`, as `array_diff` compares keys with the names of an allow-list. */
  function KeyString(k: Key): string {
    match k
    case IntKey(i) => Decimal.IntToString(i)
    case StrKey(s) => s
  }

  /** An integer key never reads as a word of letters, so it is never on a list of option names. */
  lemma IntKeyNotName(i: int, s: string)
    requires s != [] && !Decimal.IsDigit(s[0]) && s[0] != '-'
    ensures KeyString(IntKey(i)) != s
  {
    var t := Decimal.IntToString(i);
    if i >= 0 {
      assert Decimal.IsDigit(t[0]);
    }
  }

  /** `$v[$k] ?? null` for a string key: the entry's value when `v` is an array holding a non-null value there. */
  function Lookup(v: Value, k: string): (r: Option<Value>)
    ensures r.Some? ==> v.Arr? && r.value != Null && Get(v.entries, StrKey(k)) == r
  {
    if v.Arr? then
      match Get(v.entries, StrKey(k))
      case Some(x) => if x == Null then None else Some(x)
      case None => None
    else None
  }

  /**
    `array_replace_recursive($dest, $src)`, from the `i`-th entry of `src` on:
    each entry of `src` replaces the entry of `dest` with the same key, or is
    appended when `dest` lacks it, except that two arrays under the same key
    are merged recursively.
  */
  function ReplaceEntries(dest: seq<(Key, Value)>, src: Value, i: nat): (r: seq<(Key, Value)>)
    requires src.Arr? && i <= |src.entries|
    decreases src, |src.entries| - i
  {
    if i == |src.entries| then dest
    else
      var k := src.entries[i].0;
      var v := src.entries[i].1;
      var before := Get(dest, k);
      var merged :=
        if v.Arr? && before.Some? && before.value.Arr? then Arr(ReplaceEntries(before.value.entries, v, 0)) else v;
      ReplaceEntries(Put(dest, k, merged), src, i + 1)
  }

  function ReplaceRecursive(dest: seq<(Key, Value)>, src: seq<(Key, Value)>): seq<(Key, Value)> {
    ReplaceEntries(dest, Arr(src), 0)
  }

  /** The value a merge leaves under one key, given the old value and the replacing one. */
  function MergedAt(before: Option<Value>, replacing: Option<Value>): Option<Value> {
    match replacing
    case None => before
    case Some(v) =>
      if v.Arr? && before.Some? && before.value.Arr? then Some(Arr(ReplaceRecursive(before.value.entries, v.entries)))
      else Some(v)
  }

  /**
    Merge law: after the merge, a key the source does not hold keeps the
    destination's value; a key it holds takes the source's value, except
    that an array over an array is merged recursively.
  */
  lemma {:induction false} GetReplaceEntries(dest: seq<(Key, Value)>, src: Value, i: nat, k: Key)
    requires src.Arr? && i <= |src.entries| && UniqueKeys(src.entries)
    ensures Get(ReplaceEntries(dest, src, i), k) == MergedAt(Get(dest, k), Get(src.entries[i..], k))
    decreases |src.entries| - i
  {
    var es := src.entries;
    if i < |es| {
      var k0 := es[i].0;
      var v := es[i].1;
      var before := Get(dest, k0);
      var merged :=
        if v.Arr? && before.Some? && before.value.Arr? then Arr(ReplaceEntries(before.value.entries, v, 0)) else v;
      var dest' := Put(dest, k0, merged);
      GetReplaceEntries(dest', src, i + 1, k);
      GetPut(dest, k0, merged, k);
      assert es[i..][1..] == es[i + 1..];
      if k == k0 {
        GetHead(es[i..]);
        var tail := es[i + 1..];
        assert k !in Keys(tail) by {
          forall j | 0 <= j < |tail| ensures tail[j].0 != k {
            assert tail[j] == es[i + 1 + j];
          }
        }
      } else {
        GetTail(es[i..], k);
      }
    }
  }

  lemma GetReplaceRecursive(dest: seq<(Key, Value)>, src: seq<(Key, Value)>, k: Key)
    requires UniqueKeys(src)
    ensures Get(ReplaceRecursive(dest, src), k) == MergedAt(Get(dest, k), Get(src, k))
  {
    GetReplaceEntries(dest, Arr(src), 0, k);
    assert src[0..] == src;
  }

  /** Merging into an empty array, entry by entry from the `i`-th, copies the source. */
  lemma {:induction false} ReplaceEntriesCopy(src: seq<(Key, Value)>, i: nat)
    requires UniqueKeys(src) && i <= |src|
    ensures ReplaceEntries(src[..i], Arr(src), i) == src
    decreases |src| - i
  {
    if i < |src| {
      PutNew(src, i);
      ReplaceEntriesCopy(src, i + 1);
    } else {
      assert src[..i] == src;
    }
  }

  /** `array_replace_recursive([], $src)` is `$src`, whose keys are unique. */
  lemma ReplaceIntoEmpty(src: seq<(Key, Value)>)
    requires UniqueKeys(src)
    ensures ReplaceRecursive([], src) == src
  {
    assert src[..0] == [];
    ReplaceEntriesCopy(src, 0);
  }

  lemma KeysSuffix<K, V>(es: seq<(K, V)>, i: nat)
    requires i < |es|
    ensures Keys(es[i..]) == [es[i].0] + Keys(es[i + 1..])
  {
  }

  /**
    The merge keeps the destination's keys in their places, and its keys are
    exactly those of the destination and those of the source.
  */
  lemma {:induction false} KeysReplaceEntries(dest: seq<(Key, Value)>, src: Value, i: nat)
    requires src.Arr? && i <= |src.entries|
    ensures var r := ReplaceEntries(dest, src, i);
      |dest| <= |r| && Keys(r)[..|dest|] == Keys(dest)
      && forall k :: k in Keys(r) <==> k in Keys(dest) || k in Keys(src.entries[i..])
    decreases |src.entries| - i
  {
    var es := src.entries;
    if i < |es| {
      var k0 := es[i].0;
      var v := es[i].1;
      var before := Get(dest, k0);
      var merged :=
        if v.Arr? && before.Some? && before.value.Arr? then Arr(ReplaceEntries(before.value.entries, v, 0)) else v;
      var dest' := Put(dest, k0, merged);
      KeysReplaceEntries(dest', src, i + 1);
      KeysSuffix(es, i);
      var r := ReplaceEntries(dest, src, i);
      assert r == ReplaceEntries(dest', src, i + 1);
      assert Keys(r)[..|dest|] == Keys(r)[..|dest'|][..|dest|];
    }
  }

  lemma KeysReplaceRecursive(dest: seq<(Key, Value)>, src: seq<(Key, Value)>)
    ensures var r := ReplaceRecursive(dest, src);
      |dest| <= |r| && Keys(r)[..|dest|] == Keys(dest)
      && forall k :: k in Keys(r) <==> k in Keys(dest) || k in Keys(src)
  {
    KeysReplaceEntries(dest, Arr(src), 0);
    assert src[0..] == src;
  }

  /**
    Lists merge index by index: a one-topic transport list replaces a
    one-topic global list rather than adding to it.
  */
  lemma TopicListsMergeByIndex()
    ensures ReplaceRecursive(
      [(StrKey("topics"), Arr([(IntKey(0), Str("global_topic"))]))],
      [(StrKey("topics"), Arr([(IntKey(0), Str("transport_topic"))]))])
      == [(StrKey("topics"), Arr([(IntKey(0), Str("transport_topic"))]))]
  {
    var inner := ReplaceEntries([(IntKey(0), Str("global_topic"))], Arr([(IntKey(0), Str("transport_topic"))]), 0);
    assert Keys([(IntKey(0), Str("global_topic"))]) == [IntKey(0)];
    assert inner == [(IntKey(0), Str("transport_topic"))];
    assert Keys([(StrKey("topics"), Arr([(IntKey(0), Str("global_topic"))]))]) == [StrKey("topics")];
  }
}
