/**
  `HeaderSerializer`: the stamps of an envelope as flat broker headers and
  back. The identifier stamp travels in `X-KAFKA-identifier`, a custom-headers
  stamp as its own headers plus `X-KAFKA-custom-attr` listing their names in
  JSON, and any other sendable stamp serialised under `X-SYMFONY-<class>`.
*/
module HeaderSerializer {
  import opened Wrappers
  import opened OrderedMap
  import opened Kafka
  import opened Envelope
  import opened Failure
  import JsonStringList

  const HeaderPackage: string := "X-KAFKA-"
  const SymfonyPrefix: string := "X-SYMFONY-"

  function IdentifierHeaderKey(): (k: string)
    ensures k == "X-KAFKA-identifier"
  {
    HeaderPackage + "identifier"
  }

  function CustomAttributesHeaderKey(): (k: string)
    ensures k == "X-KAFKA-custom-attr"
  {
    HeaderPackage + "custom-attr"
  }

  /** `str_starts_with`. */
  predicate StartsWith(s: string, prefix: string) {
    |prefix| <= |s| && s[..|prefix|] == prefix
  }

  /** A header name that is neither reserved nor prefixed: it yields no stamp of its own. */
  predicate Plain(name: string) {
    !StartsWith(name, SymfonyPrefix) && name != IdentifierHeaderKey() && name != CustomAttributesHeaderKey()
  }

  /** The two reserved names differ and neither carries the prefix of serialised stamps. */
  lemma ReservedKeys()
    ensures IdentifierHeaderKey() != CustomAttributesHeaderKey()
    ensures !StartsWith(IdentifierHeaderKey(), SymfonyPrefix)
    ensures !StartsWith(CustomAttributesHeaderKey(), SymfonyPrefix)
  {
    assert IdentifierHeaderKey()[8] != CustomAttributesHeaderKey()[8];
    assert IdentifierHeaderKey()[2] != SymfonyPrefix[2];
    assert CustomAttributesHeaderKey()[2] != SymfonyPrefix[2];
  }

  /**
    PHP's `serialize` of a stamp, written as its class name as a quoted
    string literal followed by its state: an injective encoding that
    `UnserializeStamp` inverts.
  */
  function SerializeStamp(s: Stamp): string
    requires s.Other?
  {
    JsonStringList.Quote(s.name) + s.data
  }

  /**
    PHP's `unserialize`: the class name and state of the stamp the text
    holds, or nothing when the text does not decode to a stamp. Only stamps
    of sendable classes are ever serialised, so the class is a sendable one.
  */
  function UnserializeStamp(text: string): Option<(string, string)> {
    JsonStringList.ParseString(text)
  }

  /** The stamp object `unserialize` recreates from a class name and state. */
  function Restored(fields: (string, string)): (s: Stamp)
    ensures s.Other? && s.Class() == OtherClass(fields.0, true) && Sendable(s.Class())
  {
    Other(fields.0, true, fields.1)
  }

  /** Unserialising a serialised stamp gives back its class and state. */
  lemma UnserializeSerialize(s: Stamp)
    requires s.Other?
    ensures UnserializeStamp(SerializeStamp(s)) == Some((s.name, s.data))
  {
    JsonStringList.QuoteParse(s.name, s.data);
  }

  /**
    One stamp's contribution, as the loop body of `serializeHeaders` writes
    it: a custom-headers stamp adds its headers where the name is still free
    (`+=`) and overwrites the name list; an identifier overwrites the
    identifier header; any other stamp overwrites its class's header. Stamps
    of the non-sendable classes never reach the loop and add nothing.
  */
  function Step(h: HeaderMap, s: Stamp): HeaderMap {
    match s
    case CustomHeaders(ch) => Put(Union(h, ch), CustomAttributesHeaderKey(), Some(JsonStringList.EncodeList(Keys(ch))))
    case Identifier(id) => Put(h, IdentifierHeaderKey(), Some(id))
    case Other(n, _, _) => Put(h, SymfonyPrefix + n, Some(SerializeStamp(s)))
    case _ => h
  }

  /** The stamps in order, one `Step` after another. */
  function Fold(h: HeaderMap, ss: seq<Stamp>): HeaderMap
    decreases |ss|
  {
    if ss == [] then h else Step(Fold(h, ss[..|ss| - 1]), ss[|ss| - 1])
  }

  /** The stamps of the groups, group by group. */
  function Flatten(gs: seq<(StampClass, seq<Stamp>)>): seq<Stamp>
    decreases |gs|
  {
    if gs == [] then [] else Flatten(gs[..|gs| - 1]) + gs[|gs| - 1].1
  }

  /** Groups of sendable classes, each holding stamps of its class, flatten to sendable stamps. */
  lemma {:induction false} FlattenSendable(gs: seq<(StampClass, seq<Stamp>)>)
    requires forall i :: 0 <= i < |gs| ==> Sendable(gs[i].0) && GoodGroup(gs[i])
    ensures forall j :: 0 <= j < |Flatten(gs)| ==> Sendable(Flatten(gs)[j].Class())
    decreases |gs|
  {
    if gs != [] {
      var n := |gs| - 1;
      var F0: seq<Stamp> := Flatten(gs[..n]);
      var L: seq<Stamp> := gs[n].1;
      assert GoodGroup(gs[n]);
      FlattenSendable(gs[..n]);
      forall j | 0 <= j < |F0 + L| ensures Sendable((F0 + L)[j].Class()) {
        if j < |F0| {
          assert (F0 + L)[j] == F0[j];
        } else {
          assert (F0 + L)[j] == L[j - |F0|];
        }
      }
    }
  }

  /** The stamps `serializeHeaders` visits, in the order it visits them: the sendable ones, class group by class group. */
  function SentStamps(e: Envelope): seq<Stamp> {
    Flatten(WithoutNonSendable(e).stamps)
  }

  /** `serializeHeaders` as a function of the envelope. */
  function Serialize(e: Envelope): HeaderMap {
    Fold([], SentStamps(e))
  }

  /** One more stamp is one more step. */
  lemma FoldSnoc(h: HeaderMap, ss: seq<Stamp>, s: Stamp)
    ensures Fold(h, ss + [s]) == Step(Fold(h, ss), s)
  {
    assert (ss + [s])[..|ss|] == ss;
  }

  lemma SnocSlice<T>(a: seq<T>, s: seq<T>, j: nat)
    requires j < |s|
    ensures a + s[..j + 1] == (a + s[..j]) + [s[j]]
  {
    assert s[..j + 1] == s[..j] + [s[j]];
  }

  /** One more group is its stamps after the others'. */
  lemma FlattenSnoc(gs: seq<(StampClass, seq<Stamp>)>, i: nat)
    requires i < |gs|
    ensures Flatten(gs[..i + 1]) == Flatten(gs[..i]) + gs[i].1
  {
    assert gs[..i + 1][..i] == gs[..i];
  }

  /** `serializeHeaders`: the two nested loops over the sendable groups and their stamps. */
  method SerializeHeaders(e: Envelope) returns (headers: HeaderMap)
    ensures headers == Serialize(e)
  {
    var groups := WithoutNonSendable(e).stamps;
    headers := [];
    var i := 0;
    while i < |groups|
      invariant 0 <= i <= |groups|
      invariant headers == Fold([], Flatten(groups[..i]))
    {
      var stamps := groups[i].1;
      ghost var done := Flatten(groups[..i]);
      var j := 0;
      assert done + stamps[..0] == done;
      while j < |stamps|
        invariant 0 <= j <= |stamps|
        invariant headers == Fold([], done + stamps[..j])
      {
        FoldSnoc([], done + stamps[..j], stamps[j]);
        SnocSlice(done, stamps, j);
        headers := Step(headers, stamps[j]);
        j := j + 1;
      }
      assert stamps[..j] == stamps;
      FlattenSnoc(groups, i);
      i := i + 1;
    }
    assert groups[..i] == groups;
  }

  /** The header a stamp of a sendable class is written under. */
  function ReservedKey(c: StampClass): string
    requires Sendable(c)
  {
    match c
    case IdentifierClass => IdentifierHeaderKey()
    case CustomHeadersClass => CustomAttributesHeaderKey()
    case OtherClass(n, _) => SymfonyPrefix + n
  }

  /** The value a stamp of a sendable class writes under its class's header. */
  function ReservedValue(s: Stamp): string
    requires Sendable(s.Class())
  {
    match s
    case Identifier(id) => id
    case CustomHeaders(ch) => JsonStringList.EncodeList(Keys(ch))
    case Other(_, _, _) => SerializeStamp(s)
  }

  /** A name with the prefix of serialised stamps starts with it. */
  lemma PrefixedStartsWith(n: string)
    ensures StartsWith(SymfonyPrefix + n, SymfonyPrefix)
    ensures (SymfonyPrefix + n)[|SymfonyPrefix|..] == n
  {
    assert (SymfonyPrefix + n)[..|SymfonyPrefix|] == SymfonyPrefix;
  }

  /** Different sendable classes write different headers. */
  lemma ReservedKeyInjective(c: StampClass, d: StampClass)
    requires Sendable(c) && Sendable(d)
    ensures ReservedKey(c) == ReservedKey(d) ==> c == d
  {
    ReservedKeys();
    if c.OtherClass? {
      PrefixedStartsWith(c.name);
    }
    if d.OtherClass? {
      PrefixedStartsWith(d.name);
    }
  }

  /** A step writes the stamp's value under its class's header. */
  lemma StepSets(h: HeaderMap, s: Stamp)
    requires Sendable(s.Class())
    ensures Get(Step(h, s), ReservedKey(s.Class())) == Some(Some(ReservedValue(s)))
  {
    match s
    case CustomHeaders(ch) =>
      GetPut(Union(h, ch), CustomAttributesHeaderKey(), Some(JsonStringList.EncodeList(Keys(ch))), CustomAttributesHeaderKey());
    case Identifier(id) =>
      GetPut(h, IdentifierHeaderKey(), Some(id), IdentifierHeaderKey());
    case Other(n, _, _) =>
      GetPut(h, SymfonyPrefix + n, Some(SerializeStamp(s)), SymfonyPrefix + n);
  }

  /** A step leaves every existing header but its class's own as it was. */
  lemma StepKeeps(h: HeaderMap, s: Stamp, k: string)
    requires Sendable(s.Class()) && k in Keys(h) && k != ReservedKey(s.Class())
    ensures Get(Step(h, s), k) == Get(h, k)
  {
    match s
    case CustomHeaders(ch) =>
      GetPut(Union(h, ch), CustomAttributesHeaderKey(), Some(JsonStringList.EncodeList(Keys(ch))), k);
      GetUnion(h, ch, k);
    case Identifier(id) =>
      GetPut(h, IdentifierHeaderKey(), Some(id), k);
    case Other(n, _, _) =>
      GetPut(h, SymfonyPrefix + n, Some(SerializeStamp(s)), k);
  }

  /** In a well-formed envelope every visited stamp is of a sendable class. */
  lemma SentSendable(e: Envelope)
    requires WellFormed(e)
    ensures forall j :: 0 <= j < |SentStamps(e)| ==> Sendable(SentStamps(e)[j].Class())
  {
    WithoutNonSendableWellFormed(e);
    FlattenSendable(WithoutNonSendable(e).stamps);
  }

  /**
    The position of a class's last stamp in the flattened groups: no later
    stamp is of that class.
  */
  lemma {:induction false} FlattenLast(gs: seq<(StampClass, seq<Stamp>)>, c: StampClass) returns (i: nat)
    requires WellFormedGroups(gs) && Get(gs, c).Some?
    ensures Get(gs, c).value != [] && i < |Flatten(gs)|
    ensures Flatten(gs)[i] == Get(gs, c).value[|Get(gs, c).value| - 1] && Flatten(gs)[i].Class() == c
    ensures forall j :: i < j < |Flatten(gs)| ==> Flatten(gs)[j].Class() != c
    decreases |gs|
  {
    var n := |gs| - 1;
    if gs[n].0 == c {
      i := FlattenLastHere(gs, c);
    } else {
      var init := gs[..n];
      var L := gs[n].1;
      assert gs == init + [gs[n]];
      LastKeyNew(gs);
      GetSnoc(init, gs[n], c);
      assert GoodGroup(gs[n]);
      WellFormedPrefix(gs, n);
      i := FlattenLast(init, c);
      ClassesOfAppend(Flatten(init), L, i, c);
    }
  }

  /** The case where the class's group is the last one. */
  lemma FlattenLastHere(gs: seq<(StampClass, seq<Stamp>)>, c: StampClass) returns (i: nat)
    requires WellFormedGroups(gs) && gs != [] && gs[|gs| - 1].0 == c
    ensures Get(gs, c).value != [] && i < |Flatten(gs)|
    ensures Flatten(gs)[i] == Get(gs, c).value[|Get(gs, c).value| - 1] && Flatten(gs)[i].Class() == c
    ensures forall j :: i < j < |Flatten(gs)| ==> Flatten(gs)[j].Class() != c
  {
    var n := |gs| - 1;
    var init := gs[..n];
    var L := gs[n].1;
    assert gs == init + [gs[n]];
    LastKeyNew(gs);
    GetSnoc(init, gs[n], c);
    assert GoodGroup(gs[n]);
    i := |Flatten(init)| + |L| - 1;
    LastOfAppend(Flatten(init), L);
  }

  lemma LastOfAppend(a: seq<Stamp>, b: seq<Stamp>)
    requires b != []
    ensures (a + b)[|a| + |b| - 1] == b[|b| - 1]
  {
  }

  /** Appending stamps of other classes keeps the position of the last of class `c`. */
  lemma ClassesOfAppend(a: seq<Stamp>, b: seq<Stamp>, i: nat, c: StampClass)
    requires i < |a| && forall j :: i < j < |a| ==> a[j].Class() != c
    requires forall j :: 0 <= j < |b| ==> b[j].Class() != c
    ensures (a + b)[i] == a[i]
    ensures forall j :: i < j < |a + b| ==> (a + b)[j].Class() != c
  {
    forall j | i < j < |a + b| ensures (a + b)[j].Class() != c {
      if j < |a| {
        assert (a + b)[j] == a[j];
      } else {
        assert (a + b)[j] == b[j - |a|];
      }
    }
  }

  lemma LastKeyNew(gs: seq<(StampClass, seq<Stamp>)>)
    requires gs != [] && UniqueKeys(gs)
    ensures gs[|gs| - 1].0 !in Keys(gs[..|gs| - 1])
  {
    var n := |gs| - 1;
    forall j | 0 <= j < n ensures Keys(gs[..n])[j] != gs[n].0 {
      assert gs[..n][j] == gs[j];
    }
  }

  lemma WellFormedPrefix(gs: seq<(StampClass, seq<Stamp>)>, n: nat)
    requires WellFormedGroups(gs) && n <= |gs|
    ensures WellFormedGroups(gs[..n])
  {
    var init := gs[..n];
    forall a, b | 0 <= a < b < |init| ensures init[a].0 != init[b].0 {
      assert init[a] == gs[a] && init[b] == gs[b];
    }
    forall a | 0 <= a < |init| ensures GoodGroup(init[a]) {
      assert init[a] == gs[a];
    }
  }

  /** Stamps of other classes write other headers. */
  lemma LaterKeysDiffer(ss: seq<Stamp>, i: nat)
    requires i < |ss| && forall j :: 0 <= j < |ss| ==> Sendable(ss[j].Class())
    requires forall j :: i < j < |ss| ==> ss[j].Class() != ss[i].Class()
    ensures forall j :: i < j < |ss| ==> ReservedKey(ss[j].Class()) != ReservedKey(ss[i].Class())
  {
    forall j | i < j < |ss| ensures ReservedKey(ss[j].Class()) != ReservedKey(ss[i].Class()) {
      ReservedKeyInjective(ss[j].Class(), ss[i].Class());
    }
  }

  /** Later steps leave a header alone unless a later stamp is of the class that writes it. */
  lemma {:induction false} FoldLastWins(h: HeaderMap, ss: seq<Stamp>, i: nat)
    requires i < |ss| && forall j :: 0 <= j < |ss| ==> Sendable(ss[j].Class())
    requires forall j :: i < j < |ss| ==> ReservedKey(ss[j].Class()) != ReservedKey(ss[i].Class())
    ensures Get(Fold(h, ss), ReservedKey(ss[i].Class())) == Some(Some(ReservedValue(ss[i])))
    decreases |ss|
  {
    var n := |ss| - 1;
    var init := ss[..n];
    if i == n {
      StepSets(Fold(h, init), ss[n]);
    } else {
      FoldLastWins(h, init, i);
      StepKeeps(Fold(h, init), ss[n], ReservedKey(ss[i].Class()));
    }
  }

  /**
    The header of a sendable class carries its last stamp: the identifier
    header the last identifier, the name list the last custom-headers
    stamp's names, and `X-SYMFONY-<class>` the last stamp of that class
    serialised.
  */
  lemma LastStampWins(e: Envelope, c: StampClass)
    requires WellFormed(e) && Sendable(c) && Last(e, c).Some?
    ensures Get(Serialize(e), ReservedKey(c)) == Some(Some(ReservedValue(Last(e, c).value)))
  {
    var i := SentLast(e, c);
    SentSendable(e);
    LaterKeysDiffer(SentStamps(e), i);
    FoldLastWins([], SentStamps(e), i);
  }

  /** The last stamp of a sendable class is sent after every other stamp of its class. */
  lemma SentLast(e: Envelope, c: StampClass) returns (i: nat)
    requires WellFormed(e) && Sendable(c) && Last(e, c).Some?
    ensures i < |SentStamps(e)| && SentStamps(e)[i] == Last(e, c).value && SentStamps(e)[i].Class() == c
    ensures forall j :: i < j < |SentStamps(e)| ==> SentStamps(e)[j].Class() != c
  {
    WithoutNonSendableWellFormed(e);
    LastWithoutNonSendable(e, c);
    i := FlattenLast(WithoutNonSendable(e).stamps, c);
  }

  /** Whether a stamp's step writes header `k`. */
  predicate Writes(s: Stamp, k: string) {
    match s
    case CustomHeaders(ch) => k == CustomAttributesHeaderKey() || k in Keys(ch)
    case Identifier(_) => k == IdentifierHeaderKey()
    case Other(n, _, _) => k == SymfonyPrefix + n
    case _ => false
  }

  lemma StepKeys(h: HeaderMap, s: Stamp, k: string)
    ensures k in Keys(Step(h, s)) <==> k in Keys(h) || Writes(s, k)
  {
    match s
    case CustomHeaders(ch) => UnionKeys(h, ch, k);
    case _ =>
  }

  /** A header is present exactly when it was there before or some stamp writes it. */
  lemma {:induction false} FoldKeys(h: HeaderMap, ss: seq<Stamp>, k: string)
    ensures k in Keys(Fold(h, ss)) <==> k in Keys(h) || exists j :: 0 <= j < |ss| && Writes(ss[j], k)
    decreases |ss|
  {
    if ss != [] {
      var n := |ss| - 1;
      var init := ss[..n];
      FoldKeys(h, init, k);
      StepKeys(Fold(h, init), ss[n], k);
      if exists j :: 0 <= j < |init| && Writes(init[j], k) {
        var j :| 0 <= j < |init| && Writes(init[j], k);
        assert init[j] == ss[j];
      }
      if exists j :: 0 <= j < |ss| && Writes(ss[j], k) {
        var j :| 0 <= j < |ss| && Writes(ss[j], k);
        if j < n {
          assert init[j] == ss[j];
        }
      }
    }
  }

  lemma StepUnique(h: HeaderMap, s: Stamp)
    requires UniqueKeys(h)
    ensures UniqueKeys(Step(h, s))
  {
    match s
    case CustomHeaders(ch) =>
      UnionUnique(h, ch);
      PutUnique(Union(h, ch), CustomAttributesHeaderKey(), Some(JsonStringList.EncodeList(Keys(ch))));
    case Identifier(id) => PutUnique(h, IdentifierHeaderKey(), Some(id));
    case Other(n, _, _) => PutUnique(h, SymfonyPrefix + n, Some(SerializeStamp(s)));
    case _ =>
  }

  /** Every header name occurs once. */
  lemma {:induction false} FoldUnique(h: HeaderMap, ss: seq<Stamp>)
    requires UniqueKeys(h)
    ensures UniqueKeys(Fold(h, ss))
    decreases |ss|
  {
    if ss != [] {
      FoldUnique(h, ss[..|ss| - 1]);
      StepUnique(Fold(h, ss[..|ss| - 1]), ss[|ss| - 1]);
    }
  }

  /** The value the first custom-headers stamp that names `k` gives it, if any does. */
  function FirstCustom(ss: seq<Stamp>, k: string): Option<Option<string>>
    decreases |ss|
  {
    if ss == [] then None
    else
      var before := FirstCustom(ss[..|ss| - 1], k);
      if before.None? && ss[|ss| - 1].CustomHeaders? then Get(ss[|ss| - 1].headers, k) else before
  }

  /** A name with the prefix is not plain. */
  lemma PlainNotPrefixed(k: string, n: string)
    requires Plain(k)
    ensures k != SymfonyPrefix + n
  {
    PrefixedStartsWith(n);
  }

  lemma StepPlain(h: HeaderMap, s: Stamp, k: string)
    requires Plain(k)
    ensures Get(Step(h, s), k) == if k in Keys(h) || !s.CustomHeaders? then Get(h, k) else Get(s.headers, k)
  {
    match s
    case CustomHeaders(ch) =>
      GetPut(Union(h, ch), CustomAttributesHeaderKey(), Some(JsonStringList.EncodeList(Keys(ch))), k);
      GetUnion(h, ch, k);
    case Identifier(id) => GetPut(h, IdentifierHeaderKey(), Some(id), k);
    case Other(n, _, _) =>
      PlainNotPrefixed(k, n);
      GetPut(h, SymfonyPrefix + n, Some(SerializeStamp(s)), k);
    case _ =>
  }

  /**
    A plain header, one that is neither reserved nor prefixed, carries the
    value of the first custom-headers stamp that names it: `+=` never
    overwrites a header already present.
  */
  lemma {:induction false} FoldPlainKey(ss: seq<Stamp>, k: string)
    requires Plain(k)
    ensures Get(Fold([], ss), k) == FirstCustom(ss, k)
    decreases |ss|
  {
    if ss != [] {
      FoldPlainKey(ss[..|ss| - 1], k);
      StepPlain(Fold([], ss[..|ss| - 1]), ss[|ss| - 1], k);
    }
  }

  lemma {:induction false} FirstCustomNone(ss: seq<Stamp>, k: string)
    requires forall j :: 0 <= j < |ss| ==> !ss[j].CustomHeaders?
    ensures FirstCustom(ss, k) == None
    decreases |ss|
  {
    if ss != [] {
      FirstCustomNone(ss[..|ss| - 1], k);
    }
  }

  /** With a single custom-headers stamp, its headers are the ones that count. */
  lemma {:induction false} FirstCustomOnly(ss: seq<Stamp>, p: nat, k: string)
    requires p < |ss| && ss[p].CustomHeaders?
    requires forall j :: 0 <= j < |ss| && j != p ==> !ss[j].CustomHeaders?
    ensures FirstCustom(ss, k) == Get(ss[p].headers, k)
    decreases |ss|
  {
    var n := |ss| - 1;
    var init := ss[..n];
    if p == n {
      FirstCustomNone(init, k);
    } else {
      FirstCustomOnly(init, p, k);
    }
  }

  /** `withHeader` once for each listed name, with that header's value, or null when it is missing. */
  function AddHeaders(s: Stamp, names: seq<string>, headers: HeaderMap): (r: Stamp)
    requires s.CustomHeaders?
    ensures r.CustomHeaders?
    decreases |names|
  {
    if names == [] then s
    else
      var n := |names| - 1;
      WithHeader(AddHeaders(s, names[..n], headers), names[n], HeaderValue(headers, names[n]))
  }

  /**
    What `extractCustomHeaders` makes of the name list: a fresh custom-headers
    stamp holding each listed name. Text that does not decode to a list of
    names leaves the stamp empty.
  */
  function CustomHeadersOf(text: string, headers: HeaderMap): (r: Stamp)
    ensures r.CustomHeaders?
  {
    match JsonStringList.DecodeList(text)
    case Some(names) => AddHeaders(CustomHeaders([]), names, headers)
    case None => CustomHeaders([])
  }

  /** `extractCustomHeaders`: the loop rebinding the stamp once per listed name. */
  method ExtractCustomHeaders(text: string, headers: HeaderMap) returns (stamp: Stamp)
    ensures stamp == CustomHeadersOf(text, headers)
  {
    stamp := CustomHeaders([]);
    var decoded := JsonStringList.DecodeList(text);
    if decoded.Some? {
      var names := decoded.value;
      var i := 0;
      while i < |names|
        invariant 0 <= i <= |names|
        invariant stamp == AddHeaders(CustomHeaders([]), names[..i], headers)
      {
        AddHeadersSnoc(names, i, headers);
        stamp := WithHeader(stamp, names[i], HeaderValue(headers, names[i]));
        i := i + 1;
      }
      assert names[..i] == names;
    }
  }

  lemma AddHeadersSnoc(names: seq<string>, i: nat, headers: HeaderMap)
    requires i < |names|
    ensures AddHeaders(CustomHeaders([]), names[..i + 1], headers)
      == WithHeader(AddHeaders(CustomHeaders([]), names[..i], headers), names[i], HeaderValue(headers, names[i]))
  {
    assert names[..i + 1][..i] == names[..i];
  }

  /** Each listed name holds its header's value; every other name is as before. */
  lemma {:induction false} GetAddHeaders(s: Stamp, names: seq<string>, headers: HeaderMap, k: string)
    requires s.CustomHeaders?
    ensures Get(AddHeaders(s, names, headers).headers, k) == if k in names then Some(HeaderValue(headers, k)) else Get(s.headers, k)
    decreases |names|
  {
    if names != [] {
      var n := |names| - 1;
      GetAddHeaders(s, names[..n], headers, k);
      GetWithHeader(AddHeaders(s, names[..n], headers), names[n], HeaderValue(headers, names[n]), k);
      SnocIn(names, k);
    }
  }

  lemma SnocIn<T>(s: seq<T>, x: T)
    requires s != []
    ensures x in s <==> x in s[..|s| - 1] || x == s[|s| - 1]
  {
    assert s == s[..|s| - 1] + [s[|s| - 1]];
  }

  /**
    Listing the names of a custom-headers stamp whose headers are all still
    there with their values rebuilds the stamp exactly, order included.
  */
  lemma {:induction false} AddHeadersExact(ch: HeaderMap, headers: HeaderMap)
    requires UniqueKeys(ch)
    requires forall i :: 0 <= i < |ch| ==> HeaderValue(headers, ch[i].0) == ch[i].1
    ensures AddHeaders(CustomHeaders([]), Keys(ch), headers) == CustomHeaders(ch)
    decreases |ch|
  {
    if ch != [] {
      var n := |ch| - 1;
      UniquePrefix(ch, n);
      AddHeadersExact(ch[..n], headers);
      KeysPrefix(ch, n);
      UniqueLast(ch);
      PutNew(ch, n);
      assert ch[..n + 1] == ch;
    }
  }

  /**
    One header of `deserializeHeaders`: a prefixed header unserialises to a
    stamp, the identifier header makes an identifier stamp, the name list a
    custom-headers stamp of the headers it names, and any other header no
    stamp. The three receiving parameters are typed `string`, so a null
    value there is a TypeError.
  */
  function DecodeHeader(name: string, value: Option<string>, headers: HeaderMap): (r: Result<Option<Stamp>, Failure>)
    ensures Plain(name) ==> r == Ok(None)
    ensures r.Err? <==> !Plain(name) && (value.None? || (StartsWith(name, SymfonyPrefix) && UnserializeStamp(value.value).None?))
    ensures r.Ok? ==> (r.value.Some? <==> !Plain(name))
    ensures r.Ok? && r.value.Some? ==> Sendable(r.value.value.Class())
    ensures r.Err? && value.None? ==> r.error == NullHeaderValue(name)
  {
    if StartsWith(name, SymfonyPrefix) then
      if value.None? then Err(NullHeaderValue(name))
      else
        match UnserializeStamp(value.value)
        case Some(fields) => Ok(Some(Restored(fields)))
        case None => Err(StampNotDecodable(name))
    else if name == IdentifierHeaderKey() then
      if value.None? then Err(NullHeaderValue(name)) else Ok(Some(Identifier(value.value)))
    else if name == CustomAttributesHeaderKey() then
      if value.None? then Err(NullHeaderValue(name)) else Ok(Some(CustomHeadersOf(value.value, headers)))
    else Ok(None)
  }

  /** The name-list header decodes to the custom-headers stamp its text lists. */
  lemma DecodeCustomAttr(text: string, headers: HeaderMap)
    ensures DecodeHeader(CustomAttributesHeaderKey(), Some(text), headers) == Ok(Some(CustomHeadersOf(text, headers)))
  {
    ReservedKeys();
  }

  /** The JSON list of a custom-headers stamp's names, read against headers holding its values, rebuilds the stamp. */
  lemma CustomHeadersOfList(ch: HeaderMap, headers: HeaderMap)
    requires UniqueKeys(ch)
    requires forall i :: 0 <= i < |ch| ==> HeaderValue(headers, ch[i].0) == ch[i].1
    ensures CustomHeadersOf(JsonStringList.EncodeList(Keys(ch)), headers) == CustomHeaders(ch)
  {
    JsonStringList.DecodeEncodeList(Keys(ch));
    AddHeadersExact(ch, headers);
  }

  /** A stamp map keyed by class: one stamp per class, each under its own class, all sendable. */
  ghost predicate ClassMap(m: seq<(StampClass, Stamp)>) {
    UniqueKeys(m) && forall i :: 0 <= i < |m| ==> m[i].0 == m[i].1.Class() && Sendable(m[i].0)
  }

  lemma PutClassMap(m: seq<(StampClass, Stamp)>, s: Stamp)
    requires ClassMap(m) && Sendable(s.Class())
    ensures ClassMap(Put(m, s.Class(), s))
  {
    PutUnique(m, s.Class(), s);
  }

  /**
    The headers `hs` decoded in order into `$stamps[$class] = $stamp`, the
    first failing header's error ending the loop.
  */
  function DecodeAll(headers: HeaderMap, hs: HeaderMap): (r: Result<seq<(StampClass, Stamp)>, Failure>)
    ensures r.Ok? ==> ClassMap(r.value)
    decreases |hs|
  {
    if hs == [] then Ok([])
    else
      var n := |hs| - 1;
      var stamps :- DecodeAll(headers, hs[..n]);
      var decoded :- DecodeHeader(hs[n].0, hs[n].1, headers);
      match decoded
      case Some(s) => PutClassMap(stamps, s); Ok(Put(stamps, s.Class(), s))
      case None => Ok(stamps)
  }

  /** `deserializeHeaders` as a function of the headers. */
  function Deserialize(headers: HeaderMap): Result<seq<(StampClass, Stamp)>, Failure> {
    DecodeAll(headers, headers)
  }

  /** Once decoding has failed, the remaining headers change nothing. */
  lemma {:induction false} DecodeAllPrefixErr(headers: HeaderMap, hs: HeaderMap, i: nat)
    requires i <= |hs| && DecodeAll(headers, hs[..i]).Err?
    ensures DecodeAll(headers, hs) == DecodeAll(headers, hs[..i])
    decreases |hs| - i
  {
    if i == |hs| {
      assert hs[..i] == hs;
    } else {
      assert hs[..i + 1][..i] == hs[..i];
      DecodeAllPrefixErr(headers, hs, i + 1);
    }
  }

  /** Decoding one more header: its error, or the stamp map with its stamp stored under its class. */
  lemma DecodeAllStep(headers: HeaderMap, hs: HeaderMap, i: nat)
    requires i < |hs| && DecodeAll(headers, hs[..i]).Ok?
    ensures DecodeAll(headers, hs[..i + 1]) ==
      match DecodeHeader(hs[i].0, hs[i].1, headers)
      case Err(e) => Err(e)
      case Ok(None) => DecodeAll(headers, hs[..i])
      case Ok(Some(s)) => Ok(Put(DecodeAll(headers, hs[..i]).value, s.Class(), s))
  {
    assert hs[..i + 1][..i] == hs[..i];
  }

  /** The body of the `deserializeHeaders` loop for one header. */
  method DecodeOne(name: string, value: Option<string>, headers: HeaderMap) returns (r: Result<Option<Stamp>, Failure>)
    ensures r == DecodeHeader(name, value, headers)
  {
    if StartsWith(name, SymfonyPrefix) {
      if value.None? {
        return Err(NullHeaderValue(name));
      }
      var fields := UnserializeStamp(value.value);
      if fields.None? {
        return Err(StampNotDecodable(name));
      }
      r := Ok(Some(Restored(fields.value)));
    } else if name == IdentifierHeaderKey() {
      if value.None? {
        return Err(NullHeaderValue(name));
      }
      r := Ok(Some(Identifier(value.value)));
    } else if name == CustomAttributesHeaderKey() {
      if value.None? {
        return Err(NullHeaderValue(name));
      }
      var stamp := ExtractCustomHeaders(value.value, headers);
      r := Ok(Some(stamp));
    } else {
      r := Ok(None);
    }
  }

  /** `deserializeHeaders`: one pass over the headers, each decoded stamp stored under its class. */
  method DeserializeHeaders(headers: HeaderMap) returns (r: Result<seq<(StampClass, Stamp)>, Failure>)
    ensures r == Deserialize(headers)
  {
    var stamps: seq<(StampClass, Stamp)> := [];
    var i := 0;
    while i < |headers|
      invariant 0 <= i <= |headers|
      invariant DecodeAll(headers, headers[..i]) == Ok(stamps)
    {
      var decoded := DecodeOne(headers[i].0, headers[i].1, headers);
      DecodeAllStep(headers, headers, i);
      if decoded.Err? {
        DecodeAllPrefixErr(headers, headers, i + 1);
        return Err(decoded.error);
      }
      if decoded.value.Some? {
        var stamp := decoded.value.value;
        stamps := Put(stamps, stamp.Class(), stamp);
      }
      i := i + 1;
    }
    assert headers[..i] == headers;
    r := Ok(stamps);
  }

  /** Whether header `h` decodes to a stamp of class `c`. */
  predicate DecodesTo(h: (string, Option<string>), headers: HeaderMap, c: StampClass) {
    var d := DecodeHeader(h.0, h.1, headers);
    d.Ok? && d.value.Some? && d.value.value.Class() == c
  }

  /** The stamp the last header decoding to class `c` gives, if any does. */
  function LastDecoded(headers: HeaderMap, hs: HeaderMap, c: StampClass): (r: Option<Stamp>)
    ensures r.Some? ==> r.value.Class() == c
    decreases |hs|
  {
    if hs == [] then None
    else
      var n := |hs| - 1;
      if DecodesTo(hs[n], headers, c) then DecodeHeader(hs[n].0, hs[n].1, headers).value
      else LastDecoded(headers, hs[..n], c)
  }

  /** Each class holds the stamp of the last header decoding to it: later headers overwrite earlier ones. */
  lemma {:induction false} GetDecodeAll(headers: HeaderMap, hs: HeaderMap, c: StampClass)
    requires DecodeAll(headers, hs).Ok?
    ensures Get(DecodeAll(headers, hs).value, c) == LastDecoded(headers, hs, c)
    decreases |hs|
  {
    if hs != [] {
      var n := |hs| - 1;
      GetDecodeAll(headers, hs[..n], c);
      var d := DecodeHeader(hs[n].0, hs[n].1, headers);
      if d.value.Some? {
        GetPut(DecodeAll(headers, hs[..n]).value, d.value.value.Class(), d.value.value, c);
      }
    }
  }

  /** Whether header `h` decodes without error. */
  predicate Decodes(h: (string, Option<string>), headers: HeaderMap) {
    DecodeHeader(h.0, h.1, headers).Ok?
  }

  /** A successful pass decoded every header it visited. */
  lemma {:induction false} DecodeAllOkAt(headers: HeaderMap, hs: HeaderMap, i: nat)
    requires DecodeAll(headers, hs).Ok? && i < |hs|
    ensures Decodes(hs[i], headers)
    decreases |hs|
  {
    var n := |hs| - 1;
    if i < n {
      DecodeAllOkAt(headers, hs[..n], i);
      assert hs[..n][i] == hs[i];
    }
  }

  /** A pass over headers that all decode succeeds. */
  lemma {:induction false} DecodeAllAllOk(headers: HeaderMap, hs: HeaderMap)
    requires forall i :: 0 <= i < |hs| ==> Decodes(hs[i], headers)
    ensures DecodeAll(headers, hs).Ok?
    decreases |hs|
  {
    if hs != [] {
      var n := |hs| - 1;
      forall i | 0 <= i < n ensures Decodes(hs[..n][i], headers) {
        assert hs[..n][i] == hs[i];
      }
      DecodeAllAllOk(headers, hs[..n]);
      assert Decodes(hs[n], headers);
    }
  }

  /** `deserializeHeaders` succeeds exactly when every header decodes. */
  lemma DecodeAllOk(headers: HeaderMap, hs: HeaderMap)
    ensures DecodeAll(headers, hs).Ok? <==> forall i :: 0 <= i < |hs| ==> Decodes(hs[i], headers)
  {
    if DecodeAll(headers, hs).Ok? {
      forall i | 0 <= i < |hs| ensures Decodes(hs[i], headers) {
        DecodeAllOkAt(headers, hs, i);
      }
    }
    if forall i :: 0 <= i < |hs| ==> Decodes(hs[i], headers) {
      DecodeAllAllOk(headers, hs);
    }
  }

  /** The error is that of the first header that fails, whatever follows it. */
  lemma FirstErrorWins(headers: HeaderMap, hs: HeaderMap, i: nat)
    requires i < |hs| && DecodeHeader(hs[i].0, hs[i].1, headers).Err?
    requires forall j :: 0 <= j < i ==> Decodes(hs[j], headers)
    ensures DecodeAll(headers, hs) == Err(DecodeHeader(hs[i].0, hs[i].1, headers).error)
  {
    forall j | 0 <= j < i ensures Decodes(hs[..i][j], headers) {
      assert hs[..i][j] == hs[j];
    }
    DecodeAllAllOk(headers, hs[..i]);
    DecodeAllStep(headers, hs, i);
    DecodeAllPrefixErr(headers, hs, i + 1);
  }

  /** Headers that are neither reserved nor prefixed give no stamps; in particular no headers give none. */
  lemma {:induction false} PlainHeadersNoStamps(headers: HeaderMap, hs: HeaderMap)
    requires forall i :: 0 <= i < |hs| ==> Plain(hs[i].0)
    ensures DecodeAll(headers, hs) == Ok([])
    decreases |hs|
  {
    if hs != [] {
      var n := |hs| - 1;
      assert forall i :: 0 <= i < n ==> hs[..n][i] == hs[i];
      PlainHeadersNoStamps(headers, hs[..n]);
    }
  }

  /** No header decoding to a class: no stamp of that class. */
  lemma {:induction false} LastDecodedNone(headers: HeaderMap, hs: HeaderMap, c: StampClass)
    requires forall i :: 0 <= i < |hs| ==> !DecodesTo(hs[i], headers, c)
    ensures LastDecoded(headers, hs, c) == None
    decreases |hs|
  {
    if hs != [] {
      var n := |hs| - 1;
      assert forall i :: 0 <= i < n ==> hs[..n][i] == hs[i];
      LastDecodedNone(headers, hs[..n], c);
    }
  }

  /** Every header decoding to a class gives the same stamp, and one does: that stamp. */
  lemma {:induction false} LastDecodedSome(headers: HeaderMap, hs: HeaderMap, c: StampClass, s: Stamp, i0: nat)
    requires i0 < |hs| && DecodesTo(hs[i0], headers, c)
    requires forall i :: 0 <= i < |hs| && DecodesTo(hs[i], headers, c) ==> DecodeHeader(hs[i].0, hs[i].1, headers).value == Some(s)
    ensures LastDecoded(headers, hs, c) == Some(s)
    decreases |hs|
  {
    var n := |hs| - 1;
    if !DecodesTo(hs[n], headers, c) {
      assert forall i :: 0 <= i < n ==> hs[..n][i] == hs[i];
      LastDecodedSome(headers, hs[..n], c, s, i0);
    }
  }
}
