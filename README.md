# Kafka transport for Symfony Messenger, modelled in Dafny

This project models the core of `event-driven-kafka-messenger-transport`.
That is a PHP transport that carries Symfony Messenger envelopes over Apache
Kafka. It has four parts, and the model follows each of them.

- **Configuration pipeline.** The pieces are the DSN parser (`Dsn`), the
  recursive option merge (`PhpValue`), and the consumer and producer section
  validators and builders (`SectionValidator`, `SectionBuilder`,
  `ConsumerConfig`, `ProducerConfig`). `ConfigurationBuilder` assembles them.
  The whole pipeline is total functions from PHP option arrays to a
  configuration or an error.
- **Codecs.** `HeaderSerializer` maps the stamps of an envelope to flat
  broker headers and back. It uses the reserved `X-KAFKA-identifier` and
  `X-KAFKA-custom-attr` headers and one `X-SYMFONY-<class>` header per
  other stamp class. The custom-header name list is JSON (`JsonStringList`).
  `JsonSerializer` encodes the body and routes a decoded body to a class by
  identifier. `HeaderRoundTrip` proves that decoding the headers of an
  envelope gives back its last sendable stamp of every class.
- **Connection** (`KafkaConnection.dfy`, module `Connection`).
  - `KafkaConnection` is a class whose fields are those of the PHP object:
    the lazily created consumer and producer, the subscription flag, the
    running flag, and a log of the calls made on the broker client and the
    hook.
  - The broker is an oracle. Its `consume(n)` and `flush(n)` give the answer
    to the n-th call. Its `signalAfter` says when a SIGINT or SIGTERM clears
    the running flag.
  - The `get` generator is the class `ReceiveStream`, with a program counter
    for where the generator is suspended. Each `Next` is proved equal to a
    pure description of one pull, found in `ConnectionSpec`.
  - `produce` is proved against `ProduceEffect`. That describes routing,
    topic selection, delivery and the bounded flush retry.
- **Facades.** `Sender` models `KafkaTransportSender::send`. `Receiver`
  models `KafkaTransportReceiver`. Its generator is wrapped around the
  connection's, and it has `ack` and `reject`.

Exceptions and errors are values of `Failure`. `Failure.IsException` tells
an `Exception`, which `catch (Exception $e)` intercepts, from an `Error`,
which it does not. Configuration errors are values of `ConfigError`.

## Code quirks modelled as written

These are places where the code does something other than what its tests
or comments suggest. The model follows the code.

- The DSN scheme must be exactly `kafka`. The tests use `ed+kafka`.
- `commit_on_error` is not an accepted consumer key.
- The consumer builder drops the section's own topics.
- The producer builder always takes the global topics, because it tests an
  unassigned variable.
- `produce` strips the key stamp before reading it, so it never sends a key.
- A flush failure is a `TransportException` that `produce` wraps in a
  second one. The corrected `send` (see Findings) would wrap it a third
  time; `send` as written never reaches the connection.

## Model

| member | source | states |
|---|---|---|
| Dsn.Build | src/Transport/Configuration/Dsn/DsnConfigurationBuilder.php:7-23 | a built DSN has an empty security map and a non-empty transport name; every failure is "Invalid Kafka DSN" or "must start with kafka://" |
| Dsn.BuildWritten | src/Transport/Configuration/Dsn/DsnConfigurationBuilder.php:19-22 | a DSN written as `kafka://host:port/path` builds `host:port` as the host and the path, slash included, as the transport name (`kafka` without a path) |
| Dsn.OtherSchemeRejected | src/Transport/Configuration/Dsn/DsnConfigurationBuilder.php:15-17 | a DSN with host and port but a scheme other than exactly `kafka` fails the scheme check |
| Dsn.MissingPortRejected | src/Transport/Configuration/Dsn/DsnConfigurationBuilder.php:11-13 | a DSN without a port is invalid; there is no default port |
| Dsn.BuildFromParts | src/Transport/Configuration/Dsn/DsnConfigurationBuilder.php:9-22 | from the parts of a parsed URL: the scheme check, then host and port joined by a colon and the path or `kafka` |
| Dsn.ParseUrl | src/Transport/Configuration/Dsn/DsnConfigurationBuilder.php:9 | a parsed URL always has a host |
| Dsn.ParseUrlOf | src/Transport/Configuration/Dsn/DsnConfigurationBuilder.php:9 | the URL parsed from a text is made of the scheme, host, port and path parts of that text |
| Dsn.HostPortOf | src/Transport/Configuration/Dsn/DsnConfigurationBuilder.php:11 | an authority `host:port` with a port up to 65535 parses back to that host and port |
| Decimal.ParseNatToString | src/Transport/Configuration/Dsn/DsnConfigurationBuilder.php:20 | printing a port and reading it back gives the port |
| Decimal.ParseIntToString | src/Transport/Configuration/ConfigurationBuilder.php:40-43 | printing an integer key and reading it back gives the integer |
| Decimal.NatToStringInjective | src/Transport/Configuration/Dsn/DsnConfigurationBuilder.php:20 | different ports print as different texts |
| PhpValue.GetReplaceRecursive | src/Transport/Configuration/ConfigurationBuilder.php:38 | merge law: a key only the destination holds keeps its value, a key the source holds takes the source's value, and two arrays under one key merge recursively |
| PhpValue.KeysReplaceRecursive | src/Transport/Configuration/ConfigurationBuilder.php:38 | the merge keeps the destination's keys in place and has exactly the keys of both maps |
| PhpValue.ReplaceIntoEmpty | src/Transport/Configuration/ConfigurationBuilder.php:38 | merging an array into the empty array gives that array back |
| PhpValue.TopicListsMergeByIndex | tests/Unit/Transport/Configuration/ConfigurationBuilderTest.php:117-127 | lists merge index by index: a one-topic transport list replaces a one-topic global list |
| PhpValue.TypeName | src/Transport/Configuration/Consumer/ConsumerConfigurationValidator.php:69 | `gettype` names arrays, booleans and integers exactly for those types |
| PhpValue.Lookup | src/Transport/Configuration/ConfigurationBuilder.php:56 | `$v[$k] ?? null` gives a value only for an array holding a non-null value under that key |
| PhpValue.DebugType | src/Transport/Configuration/Consumer/ConsumerConfigurationValidator.php:160 | `get_debug_type` gives `string` exactly for strings |
| PhpValue.IntKeyNotName | src/Transport/Configuration/ConfigurationBuilder.php:40-43 | an integer key never reads as a name that starts with a letter, so it is always reported as invalid |
| ConfigurationBuilder.Merge | src/Transport/Configuration/ConfigurationBuilder.php:38 | the merged options have exactly the keys of the global and the transport options |
| ConfigurationBuilder.OrDefault | src/Transport/Configuration/ConfigurationBuilder.php:79-80 | `??` gives the entry when it is set and the default otherwise |
| ConfigurationBuilder.BoolParam | src/Transport/Configuration/ConfigurationBuilder.php:79 | a value passed as `bool` is converted by PHP truthiness; an array is a TypeError |
| ConfigurationBuilder.NullableStringParam | src/Transport/Configuration/ConfigurationBuilder.php:80 | a value passed as `?string`: null stays null, a string stays, an integer prints in decimal, an array is a TypeError |
| ConfigurationBuilder.JsonSerialization | src/Transport/Configuration/ConfigurationBuilder.php:74-82 | without a `json_serialization` entry, JSON mode is off and no serializer is named; failures are type errors |
| ConfigurationBuilder.JsonDefaults | src/Transport/Configuration/ConfigurationBuilder.php:76-81 | JSON mode defaults to disabled with no custom serializer |
| ConfigurationBuilder.GlobalTopics | src/Transport/Configuration/ConfigurationBuilder.php:56 | absent `topics` gives the empty list; a non-array `topics` is the only failure |
| ConfigurationBuilder.Parts | src/Transport/Configuration/ConfigurationBuilder.php:34-61 | the parts carry the parsed DSN, and are made in the code's order: JSON switches, then the `?array` topics parameter, then the consumer, then the producer; the producer topics are the global topics and the consumer topics are those or none |
| ConfigurationBuilder.JsonErrorFirst | src/Transport/Configuration/ConfigurationBuilder.php:56-60 | with a valid DSN and allowed keys, a JSON-switch TypeError is the build's error, whatever `topics` and the sections hold |
| ConfigurationBuilder.TopicsTypeErrorBeforeSections | src/Transport/Configuration/ConfigurationBuilder.php:56-60 | past the JSON switches, a `topics` that is not an array fails at the consumer builder's parameter, before either section is validated |
| ConfigurationBuilder.CheckTopics | src/Transport/Configuration/ConfigurationBuilder.php:84-94 | passes exactly when the consumer or the producer has a topic; otherwise fails naming the transport |
| ConfigurationBuilder.Build | src/Transport/Configuration/ConfigurationBuilder.php:34-72 | a built configuration consumes or produces at least one topic |
| ConfigurationBuilder.BuildAsWritten | src/Transport/Configuration/ConfigurationBuilder.php:65-71 | never returns a configuration: a build that would succeed fails on the undeclared `retryTopic` parameter, and every other outcome is the corrected build's error |
| ConfigurationBuilder.DsnErrorFirst | src/Transport/Configuration/ConfigurationBuilder.php:36 | a DSN error wins over every option error |
| ConfigurationBuilder.InvalidOptionsReported | src/Transport/Configuration/ConfigurationBuilder.php:40-54 | with a valid DSN, merged top-level keys outside the allow-list fail the build with exactly those keys and the transport name |
| ConfigurationBuilder.ConsumerErrorFirst | src/Transport/Configuration/ConfigurationBuilder.php:60-61 | a consumer section error is the build's error, whatever the producer section says |
| ConfigurationBuilder.PartsConsumer | src/Transport/Configuration/ConfigurationBuilder.php:56-60 | a built configuration's consumer is the consumer builder's result on the merged options and the global topics |
| ConfigurationBuilder.ConsumeTimeoutConfigured | src/Transport/Configuration/ConfigurationBuilder.php:60 | a built configuration's consume timeout is the merged consumer section's `consume_timeout_ms`, or 500 ms without one |
| ConfigurationBuilder.TopicsRule | src/Transport/Configuration/ConfigurationBuilder.php:84-94 | once the parts build, the transport builds exactly when the global topic list is non-empty |
| ConfigurationBuilder.NoGlobalTopicsNoBuild | src/Transport/Configuration/ConfigurationBuilder.php:56 | merged options without `topics` never build |
| Configuration.Configuration.CustomSymfonySerializer | src/Transport/Configuration/Configuration.php:42-45 | the non-nullable return type makes an unset serializer a TypeError |
| SectionValidator.FirstError | src/Transport/Configuration/Consumer/ConsumerConfigurationValidator.php:104-128 | the reported error is the first failing element's, and there is none exactly when every element passes |
| SectionValidator.InvalidKeys | src/Transport/Configuration/Consumer/ConsumerConfigurationValidator.php:49-61 | the invalid keys are exactly the keys whose string form is not an option name |
| SectionValidator.RouteFields | src/Transport/Configuration/Consumer/ConsumerConfigurationValidator.php:105-107 | a well-formed routing entry holds string `name` and target fields |
| SectionValidator.Missing | src/Transport/Configuration/Consumer/ConsumerConfigurationValidator.php:131-144 | the missing names are exactly the required names absent from the broker options |
| SectionValidator.GivenSection | src/Transport/Configuration/Consumer/ConsumerConfigurationValidator.php:29-33 | a section counts as given only when it is not `empty()` |
| SectionValidator.CheckMerged | src/Transport/Configuration/Consumer/ConsumerConfigurationValidator.php:42-46 | checks on the merged options return them unchanged, never report invalid keys, and report a non-empty list of missing required names |
| SectionValidator.Validate | src/Transport/Configuration/Consumer/ConsumerConfigurationValidator.php:27-47 | a missing-config error names between one and all of the required names |
| SectionValidator.ValidateOk | src/Transport/Configuration/Producer/ProducerConfigurationValidator.php:22-42 | success means the untouched defaults for an absent or empty section, or the section merged over the defaults with every check passed |
| SectionValidator.SectionOption | src/Transport/Configuration/Consumer/ConsumerConfigurationValidator.php:33 | an option the section gives belongs to a section given as an array |
| SectionValidator.ValidatedScalar | src/Transport/Configuration/Consumer/ConsumerConfigurationValidator.php:37-40 | an option with a scalar default validates to the section's own entry, or to the default when the section lacks it |
| SectionValidator.ValidatedList | src/Transport/Configuration/Consumer/ConsumerConfigurationValidator.php:37-40 | an option whose default is `[]` validates to the section's own entry, list included, or to `[]` when the section lacks it |
| SectionValidator.ValidatedArray | src/Transport/Configuration/Consumer/ConsumerConfigurationValidator.php:37-42 | a list option typed as an array validates to an array: the section's own list, or `[]` |
| SectionValidator.CheckMergedOk | src/Transport/Configuration/Consumer/ConsumerConfigurationValidator.php:42-44 | merged options that pass are shaped, use only listed broker options and hold every required one |
| SectionValidator.InvalidKeysFirst | src/Transport/Configuration/Producer/ProducerConfigurationValidator.php:44-56 | invalid keys are reported exactly when present, before any other check |
| SectionValidator.TypeErrorReported | src/Transport/Configuration/Consumer/ConsumerConfigurationValidator.php:63-93 | the first typed option with the wrong type is reported with its actual type name |
| SectionValidator.RoutingErrorReported | src/Transport/Configuration/Producer/ProducerConfigurationValidator.php:93-124 | with the types right, the first malformed routing entry, or the first naming a missing class, is reported |
| SectionValidator.TypedOfThree | src/Transport/Configuration/Producer/ProducerConfigurationValidator.php:58-88 | three type checks one by one give the type conjunct for all typed options |
| SectionBuilder.StringPairs | src/Transport/Configuration/Consumer/ConsumerConfigurationBuilder.php:15 | the broker options read as strings keep their order and contents |
| SectionBuilder.GetRoutingMap | src/Transport/Configuration/Consumer/ConsumerConfigurationBuilder.php:22-25 | the routing table maps each name to the target of the last entry with that name |
| SectionBuilder.RoutingMapUnique | src/Transport/Configuration/Producer/ProducerConfigurationBuilder.php:21-24 | the routing table holds each name once |
| ConsumerConfig.DefaultsFields | src/Transport/Configuration/Consumer/ConsumerConfigurationValidator.php:11-21 | consumer defaults: asynchronous commits, 500 ms, no topics, no routing, three broker options |
| ConsumerConfig.DefaultsShaped | src/Transport/Configuration/Consumer/ConsumerConfigurationValidator.php:11-21 | the defaults pass the type, routing and broker-option checks |
| ConsumerConfig.Validated | src/Transport/Configuration/Consumer/ConsumerConfigurationValidator.php:27-47 | validated consumer options have the shapes the builder reads |
| ConsumerConfig.Build | src/Transport/Configuration/Consumer/ConsumerConfigurationBuilder.php:8-20 | the build fails exactly when validation does, with its error; otherwise routing is the table of the validated routing list, topics are the global ones exactly when the validated topic list is empty and none otherwise, the timeout and commit mode are the validated options, and commit-on-error stays at its default of true |
| ConsumerConfig.ScalarOptions | src/Transport/Configuration/Consumer/ConsumerConfigurationBuilder.php:17-18 | the timeout and commit mode are the section's own integer and boolean when it gives them, and 500 ms and asynchronous commits otherwise |
| ConsumerConfig.TopicsOf | src/Transport/Configuration/Consumer/ConsumerConfigurationBuilder.php:16 | the consumer takes the global topics exactly when the section gives no topic list or an empty one, and none otherwise |
| ConsumerConfig.TopicsField | src/Transport/Configuration/Consumer/ConsumerConfigurationValidator.php:37-42 | the validated topic list is an array: the section's own list, or `[]` without one |
| ConsumerConfig.RoutingOf | src/Transport/Configuration/Consumer/ConsumerConfigurationBuilder.php:14-25 | each routing name maps to the class of the section's last routing entry with that name; no routing list gives no routes |
| ConsumerConfig.DefaultsWhenAbsent | src/Transport/Configuration/Consumer/ConsumerConfigurationValidator.php:29-31 | an absent or empty consumer section gives the defaults and the global topics, and no `group.id` is demanded |
| ConsumerConfig.CommitOnErrorRejected | src/Transport/Configuration/Consumer/ConsumerConfigurationValidator.php:11-21 | a section that sets `commit_on_error` is rejected as an invalid option |
| ConsumerConfig.ConfigOf | src/Transport/Configuration/Consumer/ConsumerConfigurationBuilder.php:15 | the built broker options are the validated ones as strings |
| ConsumerConfig.GroupIdRequired | src/Transport/Configuration/Consumer/ConsumerConfigurationValidator.php:23-25 | a consumer section that validates has a `group.id` broker option |
| ConsumerConfig.MergedConfigKeys | src/Transport/Configuration/Consumer/ConsumerConfigurationValidator.php:37-40 | merging a section over the defaults keeps every default broker option key |
| ConsumerConfig.DefaultBrokerOptionsKept | src/Transport/Configuration/Consumer/ConsumerConfigurationValidator.php:37-40 | a validated consumer keeps every default broker option, overridden or not |
| ProducerConfig.TimeoutDefaults | src/Transport/Configuration/Producer/ProducerConfigurationValidator.php:12-13 | producer defaults: a 0 ms poll and a 10000 ms flush |
| ProducerConfig.ListDefaults | src/Transport/Configuration/Producer/ProducerConfigurationValidator.php:14-16 | producer defaults: no routing, no topics, no broker options |
| ProducerConfig.TypedDefaults | src/Transport/Configuration/Producer/ProducerConfigurationValidator.php:11-17 | every typed producer default has its type |
| ProducerConfig.DefaultsShaped | src/Transport/Configuration/Producer/ProducerConfigurationValidator.php:11-17 | the producer defaults pass every check |
| ProducerConfig.Validated | src/Transport/Configuration/Producer/ProducerConfigurationValidator.php:22-42 | validated producer options have the shapes the builder reads |
| ProducerConfig.Build | src/Transport/Configuration/Producer/ProducerConfigurationBuilder.php:7-19 | the build fails exactly when validation does; otherwise the topics are always the global topics, routing is the table of the validated routing list, the broker options are the validated `config` list read as strings, and both timeouts are the validated options |
| ProducerConfig.TimeoutsOf | src/Transport/Configuration/Producer/ProducerConfigurationBuilder.php:16-17 | the poll and flush timeouts are the section's own integers when it gives them, and 0 ms and 10000 ms otherwise |
| ProducerConfig.RoutingOf | src/Transport/Configuration/Producer/ProducerConfigurationBuilder.php:13-24 | each routing name maps to the topic of the section's last routing entry with that name; no routing list gives no routes |
| ProducerConfig.ConfigOf | src/Transport/Configuration/Producer/ProducerConfigurationBuilder.php:14 | the broker options are the section's own `config` list as strings, or none without one |
| ProducerConfig.DefaultsWhenAbsent | src/Transport/Configuration/Producer/ProducerConfigurationValidator.php:24-26 | an absent or empty producer section gives the defaults and the global topics |
| ProducerConfig.NothingRequired | src/Transport/Configuration/Producer/ProducerConfigurationValidator.php:19 | a producer build never fails for a missing required broker option |
| HeaderSerializer.IdentifierHeaderKey | src/Transport/JsonSerializer/HeaderSerializer.php:18-21 | the identifier header is `X-KAFKA-identifier` |
| HeaderSerializer.CustomAttributesHeaderKey | src/Transport/JsonSerializer/HeaderSerializer.php:23-26 | the custom-attributes header is `X-KAFKA-custom-attr` |
| HeaderSerializer.ReservedKeys | src/Transport/JsonSerializer/HeaderSerializer.php:15-26 | the two reserved names differ and neither has the `X-SYMFONY-` prefix |
| HeaderSerializer.UnserializeSerialize | src/Transport/JsonSerializer/HeaderSerializer.php:67-74 | unserialising a serialised stamp gives back its class and state |
| HeaderSerializer.SerializeHeaders | src/Transport/JsonSerializer/HeaderSerializer.php:28-46 | the nested loops compute the header map of the envelope's sendable stamps |
| HeaderSerializer.LastStampWins | src/Transport/JsonSerializer/HeaderSerializer.php:37-40 | the header of each sendable class carries the last stamp of that class |
| HeaderSerializer.SentLast | src/Transport/JsonSerializer/HeaderSerializer.php:32-33 | the last stamp of a sendable class is among the stamps the serializer visits, and no stamp of that class is visited after it |
| HeaderSerializer.FoldKeys | src/Transport/JsonSerializer/HeaderSerializer.php:32-43 | a header is present exactly when some visited stamp writes it |
| HeaderSerializer.FoldUnique | src/Transport/JsonSerializer/HeaderSerializer.php:32-43 | every header name occurs once |
| HeaderSerializer.FoldPlainKey | src/Transport/JsonSerializer/HeaderSerializer.php:34-35 | a plain header carries the value of the first custom-headers stamp naming it: `+=` never overwrites |
| HeaderSerializer.FirstCustomOnly | src/Transport/JsonSerializer/HeaderSerializer.php:34-35 | with a single custom-headers stamp, its headers are the ones that count |
| HeaderSerializer.ExtractCustomHeaders | src/Transport/JsonSerializer/HeaderSerializer.php:76-82 | the loop rebinding the stamp computes the custom-headers stamp of the name list |
| HeaderSerializer.GetAddHeaders | src/Transport/JsonSerializer/HeaderSerializer.php:78-80 | each listed name holds its header's value, or null when the header is missing; other names are unchanged |
| HeaderSerializer.AddHeadersExact | src/Transport/JsonSerializer/HeaderSerializer.php:76-82 | listing the names of a custom-headers stamp whose headers are present rebuilds the stamp exactly |
| HeaderSerializer.DecodeHeader | src/Transport/JsonSerializer/HeaderSerializer.php:53-61 | a plain header gives no stamp; a reserved or prefixed header gives a sendable stamp; a null value there or an undecodable stamp is an error |
| HeaderSerializer.DecodeCustomAttr | src/Transport/JsonSerializer/HeaderSerializer.php:59-60 | the custom-attributes header always decodes, to the custom headers its key list names |
| HeaderSerializer.CustomHeadersOfList | src/Transport/JsonSerializer/HeaderSerializer.php:76-82 | reading back the encoded key list of distinct keys, each with its value in the headers, rebuilds exactly those custom headers |
| HeaderSerializer.DeserializeHeaders | src/Transport/JsonSerializer/HeaderSerializer.php:48-65 | the loop computes the class-keyed stamp map of the headers |
| HeaderSerializer.GetDecodeAll | src/Transport/JsonSerializer/HeaderSerializer.php:56-60 | each class holds the stamp of the last header decoding to it |
| HeaderSerializer.DecodeAllOk | src/Transport/JsonSerializer/HeaderSerializer.php:53-62 | decoding succeeds exactly when every header decodes |
| HeaderSerializer.FirstErrorWins | src/Transport/JsonSerializer/HeaderSerializer.php:53-65 | the error is the first failing header's, whatever follows |
| HeaderSerializer.PlainHeadersNoStamps | src/Transport/JsonSerializer/HeaderSerializer.php:53-64 | headers that are neither reserved nor prefixed give no stamps; no headers give none |
| HeaderSerializer.LastDecodedSome | src/Transport/JsonSerializer/HeaderSerializer.php:56-60 | if every header decoding to a class gives the same stamp, that stamp is the class's |
| HeaderSerializer.LastDecodedNone | src/Transport/JsonSerializer/HeaderSerializer.php:53-62 | a class no header decodes to has no stamp |
| HeaderRoundTrip.CustomValue | src/Transport/JsonSerializer/HeaderSerializer.php:34-36 | each custom header travels with its own value |
| HeaderRoundTrip.ReservedHeaderAt | src/Transport/JsonSerializer/HeaderSerializer.php:37-40 | the header under a sendable class's reserved key holds the encoding of that class's last stamp |
| HeaderRoundTrip.RoundTripPresent | src/Transport/JsonSerializer/HeaderSerializer.php:28-65 | a sendable class with stamps decodes back to its last stamp |
| HeaderRoundTrip.RoundTripAbsent | src/Transport/JsonSerializer/HeaderSerializer.php:28-65 | a non-sendable class, or one without stamps, does not come back |
| HeaderRoundTrip.HeadersRoundTrip | src/Transport/JsonSerializer/HeaderSerializer.php:28-65 | deserialising an envelope's headers succeeds and gives its last stamp of each sendable class and nothing else |
| JsonStringList.ParseString | src/Transport/JsonSerializer/HeaderSerializer.php:78 | a parsed string literal consumes some input |
| JsonStringList.U4Parse | src/Transport/JsonSerializer/HeaderSerializer.php:78 | a `\uXXXX` escape of a character below U+10000 decodes to that character |
| JsonStringList.PairParse | src/Transport/JsonSerializer/HeaderSerializer.php:78 | the surrogate-pair escape of a character beyond U+FFFF decodes to that character |
| JsonStringList.QuoteParse | src/Transport/JsonSerializer/HeaderSerializer.php:36 | a name written as `json_encode` writes it (short escapes, `\u00XX` for control characters, `\uXXXX` above U+007F, a surrogate pair beyond U+FFFF) parses back to the name and the rest of the text |
| JsonStringList.DecodeEncodeList | src/Transport/JsonSerializer/HeaderSerializer.php:36 | `json_decode` of the `json_encode`d name list gives the list back, for every name of Unicode characters |
| Kafka.HeaderValue | src/Transport/JsonSerializer/HeaderSerializer.php:79 | `$headers[$key] ?? null` is the header's value, or null when it is absent |
| JsonSerializer.IdentifierOf | src/Transport/JsonSerializer/JsonSerializer.php:39 | the identifier is the identifier stamp's, or "" without one |
| JsonSerializer.Resolve | src/Transport/JsonSerializer/JsonSerializer.php:41-49 | an identifier naming a class wins; otherwise the routing is the identifier, "" or a routing-map target |
| JsonSerializer.WildcardWins | src/Transport/JsonSerializer/JsonSerializer.php:41-42 | with a `*` entry, exact-name entries are never consulted |
| JsonSerializer.ExactNameRouting | src/Transport/JsonSerializer/JsonSerializer.php:43-45 | without a wildcard, a non-class identifier is looked up by exact name, "" when missing |
| JsonSerializer.Decode | src/Transport/JsonSerializer/JsonSerializer.php:36-58 | header errors pass through; decoding succeeds exactly when the routing is a non-empty class name; the error names the routing; the body is deserialised into that class |
| JsonSerializer.DecodedStamps | src/Transport/JsonSerializer/JsonSerializer.php:55-57 | a decoded envelope carries exactly the stamps rebuilt from the headers |
| JsonSerializer.Encode | src/Transport/JsonSerializer/JsonSerializer.php:60-74 | the encoded headers are the serialised headers of the envelope |
| JsonSerializer.EncodeBypass | src/Transport/JsonSerializer/JsonSerializer.php:64-68 | a serialised-message stamp's text is the body, whatever the message |
| JsonSerializer.JsonRoundTrip | tests/Unit/Transport/JsonSerializer/JsonSerializerTest.php:225-241 | encoding a routed envelope and decoding it gives back the message and the last sendable stamp of every class |
| JsonSerializer.DeserializeSerializeBody | src/Transport/JsonSerializer/JsonSerializer.php:55 | deserialising a serialised body into the message's class gives the message back |
| Envelope.LastWithoutNonSendable | src/Transport/KafkaConnection.php:164 | after the non-sendable stamps are removed, a sendable class keeps its last stamp and any other class has none |
| Envelope.LastWith | src/Transport/KafkaTransportReceiver.php:67 | after `with`, the stamp is the last of its class and other classes are unchanged |
| Envelope.GetWithHeader | src/Transport/JsonSerializer/HeaderSerializer.php:79 | `withHeader` sets that header and keeps the others |
| ConnectionSpec.RoutingMatchIdentifier | src/Transport/KafkaConnection.php:93-107 | with an identifier, a record matches exactly when some entry is `*` or names it |
| ConnectionSpec.RoutingMatchNull | src/Transport/KafkaConnection.php:98-101 | with a null identifier, a record matches exactly when the first entry is `*` |
| ConnectionSpec.AckCalls | src/Transport/KafkaConnection.php:137-141 | `ack` makes one commit call, asynchronous exactly when configured |
| ConnectionSpec.Thrown | src/Transport/KafkaConnection.php:126-127 | the final throw carries the record's code; on a null record it is an Error, not an Exception |
| ConnectionSpec.IterationCases | src/Transport/KafkaConnection.php:76-127 | the switch: a routed record is suspended for the fallthrough, an unrouted one is acked and dropped, a raw one is yielded, a recoverable code yields null, any other code throws |
| ConnectionSpec.RoutedFallsThrough | src/Transport/KafkaConnection.php:118-127 | after a routed record the generator yields null, then throws the record's code, then is finished, with no broker calls |
| ConnectionSpec.PulledYieldsRouted | src/Transport/KafkaConnection.php:85-117 | in JSON mode every record a pull yields has passed the routing check |
| ConnectionSpec.LoopYieldsRouted | src/Transport/KafkaConnection.php:69-117 | in JSON mode the loop yields only records that passed the routing check |
| ConnectionSpec.AfterSwitchYieldsRouted | src/Transport/KafkaConnection.php:76-127 | resuming the switch in JSON mode yields only routed records |
| ConnectionSpec.PulledExtends | src/Transport/KafkaConnection.php:47-130 | a pull only consumes and commits, after the creation and subscription calls of the first pull |
| ConnectionSpec.LoopExtends | src/Transport/KafkaConnection.php:69-129 | the receive loop only consumes and commits |
| ConnectionSpec.ExtendsCounts | src/Transport/KafkaConnection.php:244-247 | consuming and committing creates no handle and does not subscribe |
| ConnectionSpec.FirstSuccess | src/Transport/KafkaConnection.php:146-152 | the first successful flush attempt: every earlier one failed |
| ConnectionSpec.FlushBounded | src/Transport/KafkaConnection.php:144-157 | `flush` tries one to ten times, stops at the first success, and fails exactly when all ten fail, with the last result |
| ConnectionSpec.FlushStopped | src/Transport/KafkaConnection.php:146-156 | when the loop stops after k attempts, k and the outcome are those of the specification |
| ConnectionSpec.FlushCallsAt | src/Transport/KafkaConnection.php:147 | one flush call per attempt, each with the producer's flush timeout |
| ConnectionSpec.FlushedAfter | src/Transport/KafkaConnection.php:144-157 | the flush loop's calls, attempts and outcome do not depend on the calls made before it |
| ConnectionSpec.RoutingTopic | src/Transport/KafkaConnection.php:213-228 | no routed topic without JSON mode; in JSON mode a missing identifier fails; a routed topic is a producer routing target |
| ConnectionSpec.SendsUnrouted | src/Transport/KafkaConnection.php:178-184 | without a routed topic every configured topic is sent to in order, and a non-string topic stops the loop |
| ConnectionSpec.SendsRouted | src/Transport/KafkaConnection.php:178-181 | with a routed topic only that topic is sent to, once per configured occurrence |
| ConnectionSpec.SendsBlocked | src/Transport/KafkaConnection.php:178-184 | once a topic stops the loop, later topics are not sent to |
| ConnectionSpec.DeliveriesAt | src/Transport/KafkaConnection.php:230-242 | each topic in turn gets a `producev` of the message and then a `poll` |
| ConnectionSpec.MetadataKey | src/Transport/KafkaConnection.php:206-208 | the last key stamp gives the key, with the default partition and flags |
| ConnectionSpec.StrippedMetadata | src/Transport/KafkaConnection.php:164-168 | with the non-sendable stamps removed, the metadata is the unassigned partition, default flags and no key |
| ConnectionSpec.ProducedPlacement | src/Transport/KafkaConnection.php:159-168 | `produce` always sends to the unassigned partition with the default flags and no key |
| ConnectionSpec.IdentifierMissingSendsNothing | src/Transport/KafkaConnection.php:219-223 | in JSON mode a message without an identifier fails unwrapped before anything is sent or flushed |
| ConnectionSpec.ProduceFailures | src/Transport/KafkaConnection.php:176-189 | past routing, a failure is the topic TypeError or a wrapped flush failure after ten failed attempts |
| ConnectionSpec.ProduceEffectRouted | src/Transport/KafkaConnection.php:172-189 | once routing resolves, the effect is the sends followed by the flush, or the sends and the TypeError |
| ConnectionSpec.ConsumeTimeoutIgnored | src/Transport/KafkaConnection.php:58-60 | the consume timeout read as written differs from every configured timeout other than 500 |
| Connection.KafkaConnection.constructor | src/Transport/KafkaConnection.php:36-45 | a new connection has no handles, is not subscribed or running, and has made no calls |
| Connection.KafkaConnection.GetConsumer | src/Transport/KafkaConnection.php:244-247 | the consumer is created with the base and consumer options on first use only |
| Connection.KafkaConnection.GetProducer | src/Transport/KafkaConnection.php:249-252 | the producer is created with the base and producer options on first use only |
| Connection.KafkaConnection.BeginReceive | src/Transport/KafkaConnection.php:50-56 | `get` creates the consumer if needed, subscribes only on the first call to the filter topics or else the configured ones, and sets the running flag |
| Connection.KafkaConnection.SubscribeConsumer | src/Transport/KafkaConnection.php:53-54 | the subscription call is logged and the flag set |
| Connection.KafkaConnection.Signal | src/Transport/KafkaConnection.php:66-67 | the signal handler clears the running flag |
| Connection.KafkaConnection.ConsumeNext | src/Transport/KafkaConnection.php:70 | one `consume` call returns the broker's next answer |
| Connection.KafkaConnection.Ack | src/Transport/KafkaConnection.php:133-142 | commits the record, asynchronously exactly when configured; a null record is a TypeError with no call |
| Connection.KafkaConnection.Rebalance | src/Transport/KafkaConnection.php:267-282 | assign assigns the partitions, revoke assigns null, any other code makes no call and raises the TypeError of `new Exception(int)` under the file's `declare(strict_types=1)`, which is not an Exception |
| Connection.KafkaConnection.ScanRouting | src/Transport/KafkaConnection.php:93-107 | the routing loop's result is the routing match |
| Connection.KafkaConnection.Switch | src/Transport/KafkaConnection.php:76-127 | the switch's outcome is the specified one, and only an acked record adds calls |
| Connection.KafkaConnection.FlushProducer | src/Transport/KafkaConnection.php:144-157 | the retry loop makes the specified number of flush calls and gives the specified outcome |
| Connection.KafkaConnection.FlushOnce | src/Transport/KafkaConnection.php:147 | one flush call and the broker's answer to it |
| Connection.KafkaConnection.SendMessage | src/Transport/KafkaConnection.php:230-242 | one `producev` then one `poll` with the flush timeout |
| Connection.KafkaConnection.SendToTopics | src/Transport/KafkaConnection.php:178-184 | the topic loop sends to exactly the selected topics and reports a non-string topic |
| Connection.KafkaConnection.Deliver | src/Transport/KafkaConnection.php:172-189 | routing, producer creation, sends and flush make exactly the specified calls and outcome |
| Connection.KafkaConnection.SendTopic | src/Transport/KafkaConnection.php:178-184 | one turn of the topic loop: a topic the routing skips sends nothing, a non-string topic stops the loop, any other is sent once with the message |
| Connection.KafkaConnection.DeliverRouted | src/Transport/KafkaConnection.php:173-189 | after routing: the producer is created if missing, the selected topics are sent to, then a flush whose failure is wrapped once more in a transport exception |
| Connection.KafkaConnection.FlushWrapped | src/Transport/KafkaConnection.php:186-189 | the flush inside `produce`'s `try` makes the specified flush calls, and its transport exception is rethrown inside another |
| Connection.KafkaConnection.Produce | src/Transport/KafkaConnection.php:159-192 | hook, strip, encode and deliver give the specified effect; `afterProduce` is logged only after success |
| Connection.KafkaConnection.GetAsWritten | src/Transport/KafkaConnection.php:47-61 | the generator as written runs with the 500 ms default timeout |
| Connection.KafkaConnection.Get | src/Transport/KafkaConnection.php:47-61 | the generator runs with the configured consume timeout, which `ConfigurationBuilder.ConsumeTimeoutConfigured` ties to the consumer section's `consume_timeout_ms` |
| Connection.ReceiveStream.constructor | src/Transport/KafkaConnection.php:47-49 | a new generator has not started |
| Connection.ReceiveStream.Next | src/Transport/KafkaConnection.php:47-130 | one pull changes the connection and yields exactly as the pull specification says |
| Connection.ReceiveStream.SwitchOn | src/Transport/KafkaConnection.php:72-127 | resuming after `yield null` switches on the null record as specified |
| Connection.ReceiveStream.Receive | src/Transport/KafkaConnection.php:69-129 | the receive loop runs to its next suspension exactly as the loop specification says |
| Sender.SentMessage | src/Transport/KafkaTransportSender.php:36-58 | the message carries the encoded body and headers, the unassigned partition, the default flags and the stamps' key |
| Sender.SentKey | src/Transport/KafkaTransportSender.php:48-50 | the last key stamp on the hooked envelope is the key sent |
| Sender.SendResult | src/Transport/KafkaTransportSender.php:60-73 | success returns the hooked envelope; an Exception is wrapped in a TransportException; an Error passes through |
| Sender.SendFailures | src/Transport/KafkaTransportSender.php:60-71 | a failed send reports a wrapped missing identifier, the topic TypeError, or a doubly wrapped flush failure |
| Sender.KafkaTransportSender.constructor | src/Transport/KafkaTransportSender.php:22-28 | the sender holds its connection, hook and serializer |
| Sender.KafkaTransportSender.SendAsWritten | src/Transport/KafkaTransportSender.php:61-67 | `send` as written always fails with the unknown named parameter Error |
| Sender.KafkaTransportSender.Send | src/Transport/KafkaTransportSender.php:30-74 | the delivery has the specified effect, `afterProduce` is logged only after success, and the result is as `SendResult` says |
| Receiver.Convert | src/Transport/KafkaTransportReceiver.php:56-68 | a record is delivered exactly when it decodes, stamped with the record; `afterConsume` sees the decoded envelope; null or the end ends the stream; exceptions pass through |
| Receiver.ReceiveRoundTrip | src/Transport/KafkaTransportReceiver.php:56-67 | a record the JSON serializer made from a routed envelope is received as its message with its sendable stamps and the record's stamp |
| Receiver.AtMostOneEnvelope | src/Transport/KafkaTransportReceiver.php:36-40 | in JSON mode, the pull after a delivery ends the stream |
| Receiver.KafkaTransportReceiver.constructor | src/Transport/KafkaTransportReceiver.php:22-31 | the receiver holds its connection, configuration, hook and serializer |
| Receiver.KafkaTransportReceiver.Get | src/Transport/KafkaTransportReceiver.php:33-42 | `get` wraps a fresh generator of the corrected `Connection.KafkaConnection.Get` (the one that polls with the configured consume timeout, not `GetAsWritten`) for the queues |
| Receiver.KafkaTransportReceiver.Ack | src/Transport/KafkaTransportReceiver.php:44-47 | commits the record of the last message stamp; without a stamp it is an Error with no call |
| Receiver.KafkaTransportReceiver.Reject | src/Transport/KafkaTransportReceiver.php:49-54 | acknowledges exactly when commit-on-error is configured, and otherwise changes nothing |
| Receiver.ReceiverStream.constructor | src/Transport/KafkaTransportReceiver.php:33 | a new receiver generator has not ended |
| Receiver.ReceiverStream.Next | src/Transport/KafkaTransportReceiver.php:33-42 | one pull is one pull of the connection's generator, converted; after the end nothing changes |

## Left out

- The RdKafka client is an oracle plus a log of calls: `consume`, `flush`,
  `subscribe`, `producev`, `poll`, `commit`, `commitAsync`, `assign` and the
  configuration handed to each client. Its own protocol is not modelled.
- The SIGINT and SIGTERM handlers are asynchronous. The broker's
  `signalAfter` stands in for them: the running flag is cleared once that
  many `consume` calls have been made. That allows one signal per broker:
  after it, a later `get`, which sets the running flag again, ends at once
  without a `consume` call, where the code would poll until the next
  signal.
- `Connection.KafkaConnection.Rebalance`: the callback is a method of the
  connection. Its closure over the client object is not modelled.
- A PHP array holds each key once; `PhpValue.Value` does not enforce it.
  The lemmas that read an option back out of a merge require it of the
  section and of the list they read (`SectionKeysUnique`, `ListKeysUnique`).
- PHP values (`PhpValue.Value`) have no float case. An option given as a
  float, such as `consume_timeout_ms: 1.5`, whose type PHP names
  `double`, cannot be written in the model.
- The Symfony Serializer's object mapping (normalizers, name conversion) is
  an inverse pair of functions on a message's class and content.
- PHP `serialize`/`unserialize` use a concrete injective encoding, not
  PHP's format. `json_encode`/`json_decode` are modelled only for lists of
  strings, the one use here, over Unicode code points: a name that is not
  valid UTF-8, on which `json_encode` fails, cannot be written. `parse_url` is a simplified splitter for
  `scheme://[userinfo@]host[:port][/path][?query][#fragment]`.
- `class_exists` and the client's option lists are sets given as
  parameters.
- Hook implementations and a custom serializer are functions given as
  parameters. Hooks that throw, and serializers that fail to encode, are
  not modelled. `afterProduce` and `afterConsume` are calls in the log.
- `HeaderSerializer.UnserializeStamp`: an unserialised stamp is an opaque
  stamp of its class. A prefixed header that names the identifier or
  custom-headers class is not retyped as that stamp.
- PHP loose comparison: routing names and topics are compared as strings.
  `"0"` is falsy only where the code tests truthiness (`Kafka.Truthy`).
  Header names stay strings: PHP turns a numeric name such as `"42"` into
  an integer array key, and `str_starts_with` on that key is a TypeError
  under strict types; the model does not reproduce that failure.
- `Receiver.AtMostOneEnvelope` holds in JSON mode only. Without JSON mode a
  record with no identifier is yielded raw and the loop goes on, so one
  `get` can deliver several envelopes; the model keeps that behaviour.
- `KafkaMessageStamp` has no `partition`, `messageFlags` or `key`
  properties, so the `??` defaults always apply. The model keeps that.
- Symfony's `PhpSerializer`, the default when no serializer is given, is an
  opaque serializer parameter like any other.
- Dependency injection, the bundles and `KafkaTransportFactory` are object
  wiring. They are not modelled.
- Retry topics (`retry_topic`) are accepted as an option and then unused.

## Findings

| source | as written | input that shows it | evidently intended | confidence | as-written member | corrected member |
|---|---|---|---|---|---|---|
| src/Transport/Configuration/ConfigurationBuilder.php:65-71 | passes `retryTopic:` to `Configuration::__construct`, which declares no such parameter (src/Transport/Configuration/Configuration.php:14-19), so every build that passes all checks throws an Error | DSN `kafka://localhost:9092` with global options `{topics: ["t"]}` | return the configuration of the four parts | not executed | ConfigurationBuilder.BuildAsWritten | ConfigurationBuilder.Build |
| src/Transport/KafkaTransportSender.php:61-67 | calls `produce` with named arguments `partition:`, `messageFlags:`, `body:`, `key:`, `headers:`; `KafkaConnection::produce(Envelope $envelope)` has none of them, so every send throws an Error that `catch (Exception)` does not catch | any envelope | deliver the encoded envelope at its placement, call `afterProduce` and wrap Exceptions | not executed | Sender.KafkaTransportSender.SendAsWritten | Sender.KafkaTransportSender.Send |
| src/Transport/KafkaConnection.php:58-60 | reads `$this->generalSetting->consumer->consumeTimeout`, a property the class does not have, so `?? 500` always applies | consumer option `consume_timeout_ms: 1000` | consume with the configured timeout | not executed | ConnectionSpec.ConsumeTimeoutIgnored | Connection.KafkaConnection.Get |
