/**
  What the transport classes are wired with but do not define: the message
  serializer, the optional hook, and the broker's answers.
*/
module Collaborators {
  import opened Wrappers
  import opened Kafka
  import opened Envelope
  import opened Failure
  import JsonSerializer

  /**
    The serializer a transport class is given: the routed JSON serializer,
    or another one (Symfony's `PhpSerializer` by default) whose encoding is
    not part of this model and is given by its two functions.
  */
  datatype Serializer =
    | Json(routingMap: seq<(string, string)>, classes: set<string>)
    | Native(encode: Envelope -> JsonSerializer.Encoded, decode: JsonSerializer.Encoded -> Result<Envelope, Failure>)

  function Encode(s: Serializer, e: Envelope): JsonSerializer.Encoded
    requires WellFormed(e)
  {
    match s
    case Json(_, _) => JsonSerializer.Encode(e)
    case Native(encode, _) => encode(e)
  }

  function Decode(s: Serializer, encoded: JsonSerializer.Encoded): Result<Envelope, Failure> {
    match s
    case Json(routingMap, classes) => JsonSerializer.Decode(encoded, routingMap, classes)
    case Native(_, decode) => decode(encoded)
  }

  /**
    A `KafkaTransportHookInterface`. The two hooks that return a value are
    functions; `afterProduce` and `afterConsume` return nothing and are
    recorded as calls.
  */
  datatype Hook = Hook(beforeProduce: Envelope -> Envelope, beforeConsume: Record -> Record)

  /**
    The broker as an oracle: the n-th `consume` call returns `consume(n)`
    (null or a record), the n-th producer `flush` returns `flush(n)`. A
    SIGINT or SIGTERM clears the running flag once `signalAfter` consume
    calls have been made.
  */
  datatype Broker = Broker(consume: nat -> Option<Record>, flush: nat -> int, signalAfter: nat)
}
