/**
  The configuration records the builders produce, with the defaults their
  constructors declare, and the two lookups the validators consult at run
  time.
*/
module Configuration {
  import opened Wrappers
  import opened PhpValue
  import opened ConfigError
  import Dsn

  /**
    `class_exists` as the set of loadable class names, and the broker
    client's consumer and producer option lists as sets of option names.
  */
  datatype Registry = Registry(classes: set<string>, consumerOptions: set<string>, producerOptions: set<string>)

  datatype ConsumerConfiguration = ConsumerConfiguration(
    routing: seq<(string, string)>,
    config: seq<(string, string)>,
    topics: seq<Value>,
    consumeTimeout: int,
    commitAsync: bool,
    commitOnError: bool,
    validateSchema: bool)

  datatype ProducerConfiguration = ProducerConfiguration(
    routing: seq<(string, string)>,
    config: seq<(string, string)>,
    topics: seq<Value>,
    pollTimeoutMs: int,
    flushTimeoutMs: int)

  datatype JsonSerializationConfiguration = JsonSerializationConfiguration(enabled: bool, customSerializer: Option<string>)

  datatype Configuration = Configuration(
    dsn: Dsn.DsnConfiguration,
    producer: ProducerConfiguration,
    consumer: ConsumerConfiguration,
    jsonSerialization: JsonSerializationConfiguration)
  {
    /**
      `customSymfonySerializer()`: the declared return type is a non-nullable
      string over a nullable field, so an unset serializer is a TypeError.
    */
    function CustomSymfonySerializer(): (r: Result<string, ConfigError>)
      ensures r.Ok? <==> jsonSerialization.customSerializer.Some?
      ensures r.Ok? ==> r.value == jsonSerialization.customSerializer.value
    {
      match jsonSerialization.customSerializer
      case Some(name) => Ok(name)
      case None => Err(TypeError(CustomSerializerResult))
    }
  }
}
