/**
  `JsonSerializer`, the transport's message serializer. Decoding rebuilds
  the stamps from the headers and chooses the message type by routing;
  encoding keeps a pre-serialised body when the envelope carries one and
  serialises the headers.
*/
module JsonSerializer {
  import opened Wrappers
  import opened OrderedMap
  import opened Kafka
  import opened Envelope
  import opened Failure
  import opened HeaderSerializer
  import HeaderRoundTrip

  /** `JsonSerializer::WILDCARD`. */
  const Wildcard: string := "*"

  /** An encoded envelope, `['body' => …, 'headers' => …]`. */
  datatype Encoded = Encoded(body: string, headers: HeaderMap)

  /**
    The body serializer. A message's JSON text is the content it carries;
    deserialising a text into a class gives a message of that class carrying
    that text, so the two are inverse.
  */
  function SerializeBody(m: Message): string {
    m.content
  }

  function DeserializeBody(body: string, cls: string): (m: Message)
    ensures m.cls == cls && SerializeBody(m) == body
  {
    Message(cls, body)
  }

  lemma DeserializeSerializeBody(m: Message)
    ensures DeserializeBody(SerializeBody(m), m.cls) == m
  {
  }

  /** In a stamp map keyed by class, the stamp found under a class is of that class. */
  lemma GetClassMap(m: seq<(StampClass, Stamp)>, c: StampClass)
    requires ClassMap(m) && Get(m, c).Some?
    ensures Get(m, c).value.Class() == c
  {
    var i := IndexOf(m, c);
  }

  /**
    `(string)($stamps[KafkaIdentifierStamp::class] ?? null)`: the
    identifier stamp's identifier, or "" when there is none.
  */
  function IdentifierOf(stamps: seq<(StampClass, Stamp)>): (id: string)
    requires ClassMap(stamps)
    ensures Get(stamps, IdentifierClass).Some? ==> Get(stamps, IdentifierClass) == Some(Identifier(id))
    ensures Get(stamps, IdentifierClass).None? ==> id == ""
  {
    match Get(stamps, IdentifierClass)
    case Some(s) => GetClassMap(stamps, IdentifierClass); s.identifier
    case None => ""
  }

  /**
    The routing `decode` settles on: the wildcard entry when the map has
    one, otherwise the entry named by the identifier, and in either case the
    identifier itself when it names a class. "" stands for a missing entry,
    that is null, which the error message prints as "".
  */
  function Resolve(identifier: string, routingMap: seq<(string, string)>, classes: set<string>): (routing: string)
    ensures identifier in classes ==> routing == identifier
    ensures routing == identifier || routing == "" || routing in Values(routingMap)
  {
    var mapped :=
      if Wildcard in Keys(routingMap) then Get(routingMap, Wildcard)
      else Get(routingMap, identifier);
    if identifier in classes then identifier
    else
      match mapped
      case Some(target) => target
      case None => ""
  }

  /**
    With a wildcard entry, the exact-name entries are never consulted: two
    maps that agree on the wildcard resolve every identifier alike, to the
    wildcard's target unless the identifier names a class.
  */
  lemma WildcardWins(identifier: string, m1: seq<(string, string)>, m2: seq<(string, string)>, classes: set<string>)
    requires Wildcard in Keys(m1) && Get(m1, Wildcard) == Get(m2, Wildcard)
    ensures Resolve(identifier, m1, classes) == Resolve(identifier, m2, classes)
    ensures identifier !in classes ==> Resolve(identifier, m1, classes) == Get(m1, Wildcard).value
  {
  }

  /** Without a wildcard, an identifier that is not a class is looked up by exact name. */
  lemma ExactNameRouting(identifier: string, m: seq<(string, string)>, classes: set<string>)
    requires Wildcard !in Keys(m) && identifier !in classes
    ensures identifier in Keys(m) ==> Resolve(identifier, m, classes) == Get(m, identifier).value
    ensures identifier !in Keys(m) ==> Resolve(identifier, m, classes) == ""
  {
  }

  /**
    `decode`: the stamps come from the headers; the message is the body
    deserialised into the resolved routing, which must be a non-empty class
    name.
  */
  function Decode(encoded: Encoded, routingMap: seq<(string, string)>, classes: set<string>): (r: Result<Envelope, Failure>)
    ensures Deserialize(encoded.headers).Err? ==> r == Err(Deserialize(encoded.headers).error)
    ensures Deserialize(encoded.headers).Ok? ==>
      var routing := Resolve(IdentifierOf(Deserialize(encoded.headers).value), routingMap, classes);
      (r.Ok? <==> routing != "" && routing in classes)
      && (r.Err? ==> r.error == NoRouting(routing))
      && (r.Ok? ==> r.value.message == DeserializeBody(encoded.body, routing))
  {
    var stamps :- Deserialize(encoded.headers);
    var routing := Resolve(IdentifierOf(stamps), routingMap, classes);
    if routing == "" || routing !in classes then Err(NoRouting(routing))
    else Ok(NewEnvelope(DeserializeBody(encoded.body, routing), Values(stamps)))
  }

  /** The last stamp of a class in a list of class-keyed values is the one under that class. */
  lemma {:induction false} LastOfClassValues(m: seq<(StampClass, Stamp)>, c: StampClass)
    requires ClassMap(m)
    ensures LastOfClass(Values(m), c) == Get(m, c)
    decreases |m|
  {
    if m != [] {
      var n := |m| - 1;
      UniquePrefix(m, n);
      UniqueLast(m);
      assert m[..n] + [m[n]] == m;
      GetSnoc(m[..n], m[n], c);
      assert Values(m)[..n] == Values(m[..n]);
      LastOfClassValues(m[..n], c);
    }
  }

  /** A decoded envelope carries exactly the stamps rebuilt from the headers. */
  lemma DecodedStamps(encoded: Encoded, routingMap: seq<(string, string)>, classes: set<string>, c: StampClass)
    requires Decode(encoded, routingMap, classes).Ok?
    ensures Deserialize(encoded.headers).Ok?
    ensures Last(Decode(encoded, routingMap, classes).value, c) == Get(Deserialize(encoded.headers).value, c)
  {
    var stamps := Deserialize(encoded.headers).value;
    var routing := Resolve(IdentifierOf(stamps), routingMap, classes);
    LastNewEnvelope(DeserializeBody(encoded.body, routing), Values(stamps), c);
    LastOfClassValues(stamps, c);
  }

  /**
    `encode`: the last serialised-message stamp's text is the body when the
    envelope has one, the serialised message otherwise; the headers are the
    envelope's serialised stamps.
  */
  function Encode(e: Envelope): (r: Encoded)
    requires WellFormed(e)
    ensures r.headers == Serialize(e)
  {
    var body := (
      match Last(e, SerializedMessageClass)
      case Some(s) => LastClass(e, SerializedMessageClass); s.serialized
      case None => SerializeBody(e.message));
    Encoded(body, Serialize(e))
  }

  /** A pre-serialised body is sent verbatim, whatever the message. */
  lemma EncodeBypass(e: Envelope, text: string, other: Message)
    requires WellFormed(e) && Last(e, SerializedMessageClass) == Some(SerializedMessage(text))
    ensures Encode(e).body == text
    ensures Encode(Envelope(other, e.stamps)).body == text
  {
  }

  /**
    Encoding an envelope whose identifier routes to its message's class,
    then decoding the result, gives back the message and, for every class,
    the last sendable stamp of that class.
  */
  lemma JsonRoundTrip(e: Envelope, identifier: string, routingMap: seq<(string, string)>, classes: set<string>, c: StampClass)
    requires WellFormed(e) && HeaderRoundTrip.CustomHeadersTravel(e)
    requires Last(e, SerializedMessageClass).None? && Last(e, IdentifierClass) == Some(Identifier(identifier))
    requires e.message.cls == Resolve(identifier, routingMap, classes) && e.message.cls != "" && e.message.cls in classes
    ensures Decode(Encode(e), routingMap, classes).Ok?
    ensures Decode(Encode(e), routingMap, classes).value.message == e.message
    ensures Last(Decode(Encode(e), routingMap, classes).value, c) == if Sendable(c) then Last(e, c) else None
  {
    var encoded := Encode(e);
    HeaderRoundTrip.HeadersRoundTrip(e, IdentifierClass);
    HeaderRoundTrip.HeadersRoundTrip(e, c);
    assert IdentifierOf(Deserialize(encoded.headers).value) == identifier;
    DecodedStamps(encoded, routingMap, classes, c);
  }
}
