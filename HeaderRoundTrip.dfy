/**
  The header codec's round trip: deserialising the headers of an envelope
  gives back, for every sendable stamp class, the envelope's last stamp of
  that class, and nothing for the other classes.
*/
module HeaderRoundTrip {
  import opened Wrappers
  import opened OrderedMap
  import opened Kafka
  import opened Envelope
  import opened HeaderSerializer
  import JsonStringList

  /**
    What the round trip needs of the custom headers: at most one
    custom-headers stamp, whose header names are neither reserved nor
    prefixed.
  */
  ghost predicate CustomHeadersTravel(e: Envelope) {
    (Get(e.stamps, CustomHeadersClass).Some? ==> |Get(e.stamps, CustomHeadersClass).value| == 1)
    && (Last(e, CustomHeadersClass).Some? && Last(e, CustomHeadersClass).value.CustomHeaders? ==>
      var ch := Last(e, CustomHeadersClass).value.headers;
      forall x :: 0 <= x < |ch| ==> Plain(ch[x].0))
  }

  lemma AppendIndex<T>(a: seq<T>, b: seq<T>, j: nat)
    requires j < |a| + |b|
    ensures (a + b)[j] == if j < |a| then a[j] else b[j - |a|]
  {
  }

  /** Every flattened stamp lies in the group of its own class. */
  lemma {:induction false} FlattenMember(gs: seq<(StampClass, seq<Stamp>)>, j: nat) returns (g: nat)
    requires WellFormedGroups(gs) && j < |Flatten(gs)|
    ensures g < |gs| && gs[g].0 == Flatten(gs)[j].Class() && Flatten(gs)[j] in gs[g].1
    decreases |gs|
  {
    var n := |gs| - 1;
    var F0 := Flatten(gs[..n]);
    var L := gs[n].1;
    assert Flatten(gs) == F0 + L;
    AppendIndex(F0, L, j);
    if j < |F0| {
      WellFormedPrefix(gs, n);
      g := FlattenMember(gs[..n], j);
      assert gs[..n][g] == gs[g];
    } else {
      assert GoodGroup(gs[n]);
      assert L[j - |F0|] in L;
      g := n;
    }
  }

  /** A sent stamp belongs to the envelope's group of its class, which is a sendable one. */
  lemma SentInGroup(e: Envelope, j: nat)
    requires WellFormed(e) && j < |SentStamps(e)|
    ensures var s := SentStamps(e)[j];
      Sendable(s.Class()) && Get(e.stamps, s.Class()).Some? && s in Get(e.stamps, s.Class()).value
  {
    var gs := WithoutNonSendable(e).stamps;
    WithoutNonSendableWellFormed(e);
    var g := FlattenMember(gs, j);
    var c := gs[g].0;
    assert forall x :: 0 <= x < g ==> gs[x].0 != gs[g].0;
    GetAt(gs, g);
    GetSendables(e.stamps, c);
  }

  /** With a single custom-headers stamp, every sent custom-headers stamp is that one. */
  lemma CustomIsLast(e: Envelope, j: nat)
    requires WellFormed(e) && CustomHeadersTravel(e)
    requires j < |SentStamps(e)| && SentStamps(e)[j].CustomHeaders?
    ensures Last(e, CustomHeadersClass) == Some(SentStamps(e)[j])
  {
    SentInGroup(e, j);
  }

  /** When every custom-headers stamp is `x`, a name's first value is `x`'s, if any. */
  lemma {:induction false} FirstCustomSame(ss: seq<Stamp>, x: Stamp, k: string)
    requires x.CustomHeaders?
    requires forall j :: 0 <= j < |ss| && ss[j].CustomHeaders? ==> ss[j] == x
    ensures FirstCustom(ss, k) == None || FirstCustom(ss, k) == Get(x.headers, k)
    decreases |ss|
  {
    if ss != [] {
      var n := |ss| - 1;
      assert forall j :: 0 <= j < n ==> ss[..n][j] == ss[j];
      FirstCustomSame(ss[..n], x, k);
    }
  }

  /** A name some custom-headers stamp holds has a first value. */
  lemma {:induction false} FirstCustomSome(ss: seq<Stamp>, p: nat, k: string)
    requires p < |ss| && ss[p].CustomHeaders? && k in Keys(ss[p].headers)
    ensures FirstCustom(ss, k).Some?
    decreases |ss|
  {
    var n := |ss| - 1;
    if p < n {
      assert ss[..n][p] == ss[p];
      FirstCustomSome(ss[..n], p, k);
    }
  }

  /** Each custom header travels with its own value. */
  lemma CustomValue(e: Envelope, x: nat)
    requires WellFormed(e) && CustomHeadersTravel(e) && Last(e, CustomHeadersClass).Some?
    requires Last(e, CustomHeadersClass).value.CustomHeaders?
    requires x < |Last(e, CustomHeadersClass).value.headers|
    ensures var ch := Last(e, CustomHeadersClass).value.headers;
      HeaderValue(Serialize(e), ch[x].0) == ch[x].1
  {
    var L := Last(e, CustomHeadersClass).value;
    var ch := L.headers;
    var k := ch[x].0;
    var F := SentStamps(e);
    FoldPlainKey(F, k);
    var p := SentLast(e, CustomHeadersClass);
    forall j | 0 <= j < |F| && F[j].CustomHeaders? ensures F[j] == L {
      CustomIsLast(e, j);
    }
    FirstCustomSame(F, L, k);
    assert Keys(ch)[x] == k;
    FirstCustomSome(F, p, k);
    LastClass(e, CustomHeadersClass);
    assert forall y :: 0 <= y < x ==> ch[y].0 != ch[x].0;
    GetAt(ch, x);
  }

  lemma DecodeIdentifier(id: string, headers: HeaderMap)
    ensures DecodeHeader(IdentifierHeaderKey(), Some(id), headers) == Ok(Some(Identifier(id)))
  {
    ReservedKeys();
  }

  lemma DecodeOther(s: Stamp, headers: HeaderMap)
    requires s.Other? && s.sendable
    ensures DecodeHeader(SymfonyPrefix + s.name, Some(SerializeStamp(s)), headers) == Ok(Some(s))
  {
    PrefixedStartsWith(s.name);
    UnserializeSerialize(s);
  }

  lemma DecodeCustom(ch: HeaderMap, headers: HeaderMap)
    requires UniqueKeys(ch)
    requires forall x :: 0 <= x < |ch| ==> HeaderValue(headers, ch[x].0) == ch[x].1
    ensures DecodeHeader(CustomAttributesHeaderKey(), Some(JsonStringList.EncodeList(Keys(ch))), headers) == Ok(Some(CustomHeaders(ch)))
  {
    DecodeCustomAttr(JsonStringList.EncodeList(Keys(ch)), headers);
    CustomHeadersOfList(ch, headers);
  }

  /** The header of a sendable class with stamps holds the class's last stamp. */
  lemma ReservedHeaderAt(e: Envelope, c: StampClass, i: nat)
    requires WellFormed(e) && Sendable(c) && Last(e, c).Some?
    requires i < |Serialize(e)| && Serialize(e)[i].0 == ReservedKey(c)
    ensures Serialize(e)[i].1 == Some(ReservedValue(Last(e, c).value))
  {
    var H := Serialize(e);
    LastStampWins(e, c);
    FoldUnique([], SentStamps(e));
    assert forall y :: 0 <= y < i ==> H[y].0 != H[i].0;
    GetAt(H, i);
  }

  /** The header of a class with stamps decodes to the class's last stamp. */
  lemma ReservedEntry(e: Envelope, c: StampClass, i: nat)
    requires WellFormed(e) && CustomHeadersTravel(e) && Sendable(c) && Last(e, c).Some?
    requires i < |Serialize(e)| && Serialize(e)[i].0 == ReservedKey(c)
    ensures DecodeHeader(Serialize(e)[i].0, Serialize(e)[i].1, Serialize(e)) == Ok(Last(e, c))
  {
    var H := Serialize(e);
    var L := Last(e, c).value;
    LastClass(e, c);
    ReservedHeaderAt(e, c, i);
    match L
    case Identifier(id) => DecodeIdentifier(id, H);
    case Other(_, _, _) => DecodeOther(L, H);
    case CustomHeaders(ch) =>
      forall x | 0 <= x < |ch| ensures HeaderValue(H, ch[x].0) == ch[x].1 {
        CustomValue(e, x);
      }
      DecodeCustom(ch, H);
  }

  /** A custom header's name is plain, so it decodes to no stamp. */
  lemma PlainEntry(e: Envelope, j: nat, k: string)
    requires WellFormed(e) && CustomHeadersTravel(e)
    requires j < |SentStamps(e)| && SentStamps(e)[j].CustomHeaders? && k in Keys(SentStamps(e)[j].headers)
    ensures Plain(k)
  {
    CustomIsLast(e, j);
    var ch := SentStamps(e)[j].headers;
    var x :| 0 <= x < |ch| && Keys(ch)[x] == k;
  }

  /**
    Every serialised header decodes, and a header that decodes to a stamp is
    its class's header and carries the class's last stamp.
  */
  lemma EntryDecodes(e: Envelope, i: nat)
    requires WellFormed(e) && CustomHeadersTravel(e) && i < |Serialize(e)|
    ensures var H := Serialize(e); var d := DecodeHeader(H[i].0, H[i].1, H);
      d.Ok? && (d.value.Some? ==>
        Sendable(d.value.value.Class()) && Last(e, d.value.value.Class()) == d.value && H[i].0 == ReservedKey(d.value.value.Class()))
  {
    var F := SentStamps(e);
    var H := Serialize(e);
    var k := H[i].0;
    assert Keys(H)[i] == k;
    FoldKeys([], F, k);
    var j :| 0 <= j < |F| && Writes(F[j], k);
    SentInGroup(e, j);
    var c := F[j].Class();
    if F[j].CustomHeaders? && k != CustomAttributesHeaderKey() {
      PlainEntry(e, j, k);
    } else {
      assert Get(e.stamps, c).value != [];
      ReservedEntry(e, c, i);
      LastClass(e, c);
    }
  }

  /** A reserved or prefixed name is not plain. */
  lemma ReservedNotPlain(c: StampClass)
    requires Sendable(c)
    ensures !Plain(ReservedKey(c))
  {
    if c.OtherClass? {
      PrefixedStartsWith(c.name);
    }
  }

  /** A sendable class with stamps comes back as its last stamp. */
  lemma RoundTripPresent(e: Envelope, c: StampClass)
    requires WellFormed(e) && CustomHeadersTravel(e) && Sendable(c) && Last(e, c).Some?
    ensures LastDecoded(Serialize(e), Serialize(e), c) == Last(e, c)
  {
    var H := Serialize(e);
    LastStampWins(e, c);
    var i0 := IndexOf(H, ReservedKey(c));
    EntryDecodes(e, i0);
    ReservedNotPlain(c);
    var s := DecodeHeader(H[i0].0, H[i0].1, H).value.value;
    ReservedKeyInjective(s.Class(), c);
    forall i | 0 <= i < |H| && DecodesTo(H[i], H, c)
      ensures DecodeHeader(H[i].0, H[i].1, H).value == Some(Last(e, c).value)
    {
      EntryDecodes(e, i);
    }
    LastDecodedSome(H, H, c, Last(e, c).value, i0);
  }

  /** A class that is not sendable, or has no stamps, does not come back. */
  lemma RoundTripAbsent(e: Envelope, c: StampClass)
    requires WellFormed(e) && CustomHeadersTravel(e) && !(Sendable(c) && Last(e, c).Some?)
    ensures LastDecoded(Serialize(e), Serialize(e), c) == None
  {
    var H := Serialize(e);
    forall i | 0 <= i < |H| ensures !DecodesTo(H[i], H, c) {
      EntryDecodes(e, i);
    }
    LastDecodedNone(H, H, c);
  }

  /**
    Deserialising the headers of an envelope succeeds and gives, for every
    class, the envelope's last stamp of that class when the class is
    sendable, and no stamp otherwise.
  */
  lemma HeadersRoundTrip(e: Envelope, c: StampClass)
    requires WellFormed(e) && CustomHeadersTravel(e)
    ensures Deserialize(Serialize(e)).Ok?
    ensures Get(Deserialize(Serialize(e)).value, c) == if Sendable(c) then Last(e, c) else None
  {
    var H := Serialize(e);
    forall i | 0 <= i < |H| ensures Decodes(H[i], H) {
      EntryDecodes(e, i);
    }
    DecodeAllAllOk(H, H);
    GetDecodeAll(H, H, c);
    if Sendable(c) && Last(e, c).Some? {
      RoundTripPresent(e, c);
    } else {
      RoundTripAbsent(e, c);
    }
  }
}
