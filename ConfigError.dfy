/**
  The exceptions the configuration pipeline raises. Each constructor is one
  `throw` site (or one PHP engine error) and carries what its message prints.
*/
module ConfigError {
  import PhpValue

  datatype ConfigError =
      /** "Invalid Kafka DSN": the DSN does not parse, or lacks host, port or scheme. */
    | InvalidDsn(dsn: string)
      /** "Kafka DSN must start with "kafka://"". */
    | DsnSchemeNotKafka(dsn: string)
      /** "Invalid option(s) … for transport …": unknown top-level keys. */
    | InvalidTransportOptions(keys: seq<PhpValue.Key>, transportName: string)
      /** "Invalid option(s) …": unknown keys in a consumer or producer section. */
    | InvalidSectionOptions(keys: seq<PhpValue.Key>)
      /** "The "<option>" option type must be <expected>, "<gettype>"". */
    | OptionType(option: string, expected: string, actual: string)
      /** "Each "routing" entry must contain "name" and "<target>"". */
    | RoutingEntryMalformed(target: string)
      /** "The class "<class>" specified in "routing" does not exist". */
    | RoutingClassMissing(cls: string)
      /** "Invalid config option "<key>"": a broker option not on the client's list. */
    | InvalidConfigOption(key: PhpValue.Key)
      /** "Kafka config value "<key>" must be a string, <debug type>". */
    | ConfigValueNotString(key: PhpValue.Key, debugType: string)
      /** "The config(s) "<keys>" are required". */
    | RequiredConfigMissing(missing: seq<string>)
      /** "At least one topic must be configured for transport "<name>"". */
    | NoTopics(transportName: string)
      /** A `TypeError` the engine raises when a value does not fit a declared type. */
    | TypeError(site: TypeSite)
      /** The engine's `Error` "Unknown named parameter $<name>". */
    | UnknownNamedParameter(name: string)

  /** Where a declared type rejects a value. */
  datatype TypeSite =
      /** `validateOptionKeys(array $options)`: a section that is not an array. */
    | SectionOptions
      /** `validateRouting(array $routing)`: a merged `routing` that is not an array. */
    | RoutingList
      /** `validateKafkaOptions(array $values, …)`: a merged `config` that is not an array. */
    | BrokerOptions
      /** `ConsumerConfigurationBuilder::build(…, ?array $globalTopics)`: global topics that are not an array. */
    | GlobalTopicsArgument
      /** `JsonSerializationConfiguration(bool $enabled, …)`: an array for `enabled`. */
    | EnabledArgument
      /** `JsonSerializationConfiguration(…, ?string $customSerializer)`: an array for `custom_serializer`. */
    | CustomSerializerArgument
      /** `customSymfonySerializer(): string` returning a null field. */
    | CustomSerializerResult
}
