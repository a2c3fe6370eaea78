/**
  Symfony Messenger's envelope as the transport uses it: a message and its
  stamps, grouped by stamp class in the order each class was first added.
  Stamps of the classes that implement `NonSendableStampInterface` are
  never sent to the broker.
*/
module Envelope {
  import opened Wrappers
  import opened OrderedMap
  import opened Kafka

  /**
    The stamp classes the transport tells apart. Every other class is
    `OtherClass` with its name and whether it may be sent.
  */
  datatype StampClass =
    | IdentifierClass
    | CustomHeadersClass
    | KeyClass
    | MessageClass
    | SerializedMessageClass
    | OtherClass(name: string, sendable: bool)

  /**
    Whether stamps of a class travel with the message. `KafkaKeyStamp`,
    `KafkaMessageStamp` and `SerializedMessageStamp` are non-sendable.
  */
  predicate Sendable(c: StampClass) {
    match c
    case IdentifierClass => true
    case CustomHeadersClass => true
    case KeyClass => false
    case MessageClass => false
    case SerializedMessageClass => false
    case OtherClass(_, sendable) => sendable
  }

  datatype Stamp =
    /** `KafkaIdentifierStamp`: the routing name of the message. */
    | Identifier(identifier: string)
    /** `KafkaCustomHeadersStamp`: extra broker headers, by name. */
    | CustomHeaders(headers: HeaderMap)
    /** `KafkaKeyStamp`: the record key to produce with. */
    | KafkaKey(key: string)
    /** `KafkaMessageStamp`: the broker record the envelope was decoded from. */
    | KafkaMessage(record: Record)
    /** `SerializedMessageStamp`: the body as it was received. */
    | SerializedMessage(serialized: string)
    /** A stamp of any other class, with its state as opaque text. */
    | Other(name: string, sendable: bool, data: string)
  {
    function Class(): StampClass {
      match this
      case Identifier(_) => IdentifierClass
      case CustomHeaders(_) => CustomHeadersClass
      case KafkaKey(_) => KeyClass
      case KafkaMessage(_) => MessageClass
      case SerializedMessage(_) => SerializedMessageClass
      case Other(n, s, _) => OtherClass(n, s)
    }
  }

  /** A custom-headers stamp is a PHP array: each header name once. */
  ghost predicate WellFormedStamp(s: Stamp) {
    s.CustomHeaders? ==> UniqueKeys(s.headers)
  }

  /**
    `KafkaCustomHeadersStamp::withHeader`: a copy with `$headers[$name] = $value`.
  */
  function WithHeader(s: Stamp, name: string, value: Option<string>): (r: Stamp)
    requires s.CustomHeaders?
    ensures r.CustomHeaders? && Get(r.headers, name) == Some(value)
    ensures WellFormedStamp(s) ==> WellFormedStamp(r)
  {
    GetPut(s.headers, name, value, name);
    PutUniqueIf(s.headers, name, value);
    CustomHeaders(Put(s.headers, name, value))
  }

  lemma PutUniqueIf<K, V>(m: seq<(K, V)>, k: K, v: V)
    ensures UniqueKeys(m) ==> UniqueKeys(Put(m, k, v))
  {
    if UniqueKeys(m) {
      PutUnique(m, k, v);
    }
  }

  /** Setting one header leaves the others as they were. */
  lemma GetWithHeader(s: Stamp, name: string, value: Option<string>, k: string)
    requires s.CustomHeaders?
    ensures Get(WithHeader(s, name, value).headers, k) == if k == name then Some(value) else Get(s.headers, k)
  {
    GetPut(s.headers, name, value, k);
  }

  /**
    A message object: its class and its content, which the body serializer
    turns into text and back.
  */
  datatype Message = Message(cls: string, content: string)

  datatype Envelope = Envelope(message: Message, stamps: seq<(StampClass, seq<Stamp>)>)

  /** A group holds at least one stamp, every one of the group's class. */
  ghost predicate GoodGroup(g: (StampClass, seq<Stamp>)) {
    g.1 != [] && forall j :: 0 <= j < |g.1| ==> g.1[j].Class() == g.0 && WellFormedStamp(g.1[j])
  }

  /** Every group is good and each class has one group. */
  ghost predicate WellFormedGroups(gs: seq<(StampClass, seq<Stamp>)>) {
    UniqueKeys(gs) && forall i :: 0 <= i < |gs| ==> GoodGroup(gs[i])
  }

  ghost predicate WellFormed(e: Envelope) {
    WellFormedGroups(e.stamps)
  }

  /** `Envelope::last($class)`: the most recently added stamp of a class. */
  function Last(e: Envelope, c: StampClass): (r: Option<Stamp>)
    ensures r.Some? ==> Get(e.stamps, c).Some? && Get(e.stamps, c).value != []
  {
    match Get(e.stamps, c)
    case Some(ss) => if ss == [] then None else Some(ss[|ss| - 1])
    case None => None
  }

  /** `Envelope::with($stamp)`: the stamp joins the end of its class's group, which is created at the end if new. */
  function With(e: Envelope, s: Stamp): (r: Envelope)
    ensures r.message == e.message
  {
    var group := match Get(e.stamps, s.Class()) case Some(ss) => ss case None => [];
    Envelope(e.message, Put(e.stamps, s.Class(), group + [s]))
  }

  /** Adding a stamp makes it the last of its class and leaves the other classes alone. */
  lemma LastWith(e: Envelope, s: Stamp, c: StampClass)
    ensures Last(With(e, s), c) == if c == s.Class() then Some(s) else Last(e, c)
  {
    var group := match Get(e.stamps, s.Class()) case Some(ss) => ss case None => [];
    GetPut(e.stamps, s.Class(), group + [s], c);
  }

  lemma WithWellFormed(e: Envelope, s: Stamp)
    requires WellFormed(e) && WellFormedStamp(s)
    ensures WellFormed(With(e, s))
  {
    var c := s.Class();
    var group := match Get(e.stamps, c) case Some(ss) => ss case None => [];
    var gs := Put(e.stamps, c, group + [s]);
    PutUnique(e.stamps, c, group + [s]);
    if c in Keys(e.stamps) {
      var p := IndexOf(e.stamps, c);
      assert group == e.stamps[p].1;
      assert forall i :: 0 <= i < |gs| ==> gs[i] == if i == p then (c, group + [s]) else e.stamps[i];
    } else {
      assert group + [s] == [s];
      assert gs == e.stamps + [(c, [s])];
    }
  }

  /** The groups of the sendable classes, in their order. */
  function Sendables(gs: seq<(StampClass, seq<Stamp>)>): (r: seq<(StampClass, seq<Stamp>)>)
    ensures forall i :: 0 <= i < |r| ==> Sendable(r[i].0) && r[i] in gs
  {
    if gs == [] then []
    else
      var rest := Sendables(gs[1..]);
      if Sendable(gs[0].0) then [gs[0]] + rest else rest
  }

  /** `withoutStampsOfType(NonSendableStampInterface::class)`: drop the groups of non-sendable classes. */
  function WithoutNonSendable(e: Envelope): (r: Envelope)
    ensures r.message == e.message
    ensures forall i :: 0 <= i < |r.stamps| ==> Sendable(r.stamps[i].0)
  {
    Envelope(e.message, Sendables(e.stamps))
  }

  /** Filtering keeps a sendable class's group and hides a non-sendable one. */
  lemma {:induction false} GetSendables(gs: seq<(StampClass, seq<Stamp>)>, c: StampClass)
    ensures Get(Sendables(gs), c) == if Sendable(c) then Get(gs, c) else None
    decreases |gs|
  {
    if gs != [] {
      GetSendables(gs[1..], c);
      var rest := Sendables(gs[1..]);
      if gs[0].0 == c {
        GetHead(gs);
        if Sendable(c) {
          GetHead([gs[0]] + rest);
        }
      } else {
        GetTail(gs, c);
        if Sendable(gs[0].0) {
          GetTail([gs[0]] + rest, c);
          assert ([gs[0]] + rest)[1..] == rest;
        }
      }
    }
  }

  lemma {:induction false} SendablesKeys(gs: seq<(StampClass, seq<Stamp>)>, c: StampClass)
    requires c in Keys(Sendables(gs))
    ensures c in Keys(gs)
    decreases |gs|
  {
    var r := Sendables(gs);
    var i :| 0 <= i < |r| && Keys(r)[i] == c;
    assert r[i] in gs;
    var j :| 0 <= j < |gs| && gs[j] == r[i];
    assert Keys(gs)[j] == c;
  }

  lemma {:induction false} SendablesUnique(gs: seq<(StampClass, seq<Stamp>)>)
    requires UniqueKeys(gs)
    ensures UniqueKeys(Sendables(gs))
    decreases |gs|
  {
    if gs != [] {
      var tail := gs[1..];
      assert UniqueKeys(tail) by {
        forall i, j | 0 <= i < j < |tail| ensures tail[i].0 != tail[j].0 {
          assert tail[i] == gs[i + 1] && tail[j] == gs[j + 1];
        }
      }
      SendablesUnique(tail);
      var rest := Sendables(tail);
      if Sendable(gs[0].0) {
        assert gs[0].0 !in Keys(tail) by {
          forall k | 0 <= k < |tail| ensures Keys(tail)[k] != gs[0].0 {
            assert tail[k] == gs[k + 1];
          }
        }
        NotInSendables(tail, gs[0].0);
        ConsUnique(gs[0], rest);
      }
    }
  }

  lemma SendablesWellFormed(gs: seq<(StampClass, seq<Stamp>)>)
    requires WellFormedGroups(gs)
    ensures WellFormedGroups(Sendables(gs))
  {
    SendablesUnique(gs);
    var r := Sendables(gs);
    forall i | 0 <= i < |r| ensures GoodGroup(r[i]) {
      var j :| 0 <= j < |gs| && gs[j] == r[i];
    }
  }

  lemma NotInSendables(gs: seq<(StampClass, seq<Stamp>)>, c: StampClass)
    requires c !in Keys(gs)
    ensures c !in Keys(Sendables(gs))
  {
    if c in Keys(Sendables(gs)) {
      SendablesKeys(gs, c);
    }
  }

  lemma WithoutNonSendableWellFormed(e: Envelope)
    requires WellFormed(e)
    ensures WellFormed(WithoutNonSendable(e))
  {
    SendablesWellFormed(e.stamps);
  }

  /** After filtering, the last stamp of a class is the original one for sendable classes and none otherwise. */
  lemma LastWithoutNonSendable(e: Envelope, c: StampClass)
    ensures Last(WithoutNonSendable(e), c) == if Sendable(c) then Last(e, c) else None
  {
    GetSendables(e.stamps, c);
  }

  /** In a well-formed envelope the last stamp of a class is of that class. */
  lemma LastClass(e: Envelope, c: StampClass)
    requires WellFormed(e) && Last(e, c).Some?
    ensures Last(e, c).value.Class() == c && WellFormedStamp(Last(e, c).value)
  {
    var i := IndexOf(e.stamps, c);
    assert GoodGroup(e.stamps[i]);
  }

  /** The last stamp of a class in a list of stamps. */
  function LastOfClass(ss: seq<Stamp>, c: StampClass): (r: Option<Stamp>)
    ensures r.Some? ==> r.value in ss && r.value.Class() == c
  {
    if ss == [] then None
    else if ss[|ss| - 1].Class() == c then Some(ss[|ss| - 1])
    else LastOfClass(ss[..|ss| - 1], c)
  }

  /** `new Envelope($message, $stamps)`: each stamp is added in turn, as by `with`. */
  function NewEnvelope(message: Message, ss: seq<Stamp>): (r: Envelope)
    ensures r.message == message
  {
    if ss == [] then Envelope(message, [])
    else With(NewEnvelope(message, ss[..|ss| - 1]), ss[|ss| - 1])
  }

  /** A new envelope's last stamp of a class is the last of that class in the list it was built from. */
  lemma {:induction false} LastNewEnvelope(message: Message, ss: seq<Stamp>, c: StampClass)
    ensures Last(NewEnvelope(message, ss), c) == LastOfClass(ss, c)
    decreases |ss|
  {
    if ss != [] {
      LastNewEnvelope(message, ss[..|ss| - 1], c);
      LastWith(NewEnvelope(message, ss[..|ss| - 1]), ss[|ss| - 1], c);
    }
  }

  lemma {:induction false} NewEnvelopeWellFormed(message: Message, ss: seq<Stamp>)
    requires forall i :: 0 <= i < |ss| ==> WellFormedStamp(ss[i])
    ensures WellFormed(NewEnvelope(message, ss))
    decreases |ss|
  {
    if ss != [] {
      NewEnvelopeWellFormed(message, ss[..|ss| - 1]);
      WithWellFormed(NewEnvelope(message, ss[..|ss| - 1]), ss[|ss| - 1]);
    }
  }
}
