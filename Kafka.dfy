/**
  What the transport sees of the broker client: the result codes and
  constants it compares against, and the records the consumer hands out.
*/
module Kafka {
  import opened Wrappers
  import opened OrderedMap

  /** `RD_KAFKA_RESP_ERR_NO_ERROR`. */
  const NoError: int := 0
  /** `RD_KAFKA_RESP_ERR__TIMED_OUT`. */
  const TimedOut: int := -185
  /** `RD_KAFKA_RESP_ERR__TRANSPORT`. */
  const TransportError: int := -195
  /** `RD_KAFKA_RESP_ERR_UNKNOWN_TOPIC_OR_PART`. */
  const UnknownTopicOrPart: int := 3
  /** `RD_KAFKA_RESP_ERR__PARTITION_EOF`. */
  const PartitionEof: int := -191
  /** `RD_KAFKA_RESP_ERR__ASSIGN_PARTITIONS`. */
  const AssignPartitions: int := -175
  /** `RD_KAFKA_RESP_ERR__REVOKE_PARTITIONS`. */
  const RevokePartitions: int := -174
  /** `RD_KAFKA_PARTITION_UA`: let the partitioner choose. */
  const PartitionUnassigned: int := -1
  /** `RD_KAFKA_CONF_OK`, the flags value used when none is given. */
  const ConfOk: int := 0

  /**
    Message headers: names in order, each with a string or null value. An
    absent header array behaves like an empty one everywhere it is read.
  */
  type HeaderMap = seq<(string, Option<string>)>

  /**
    An `RdKafka\Message`: its result code, payload, key and headers. The
    topic, partition and offset are carried by the broker client and never
    read by the transport.
  */
  datatype Record = Record(err: int, payload: string, key: Option<string>, headers: HeaderMap)

  /** What `consume` returns when its timeout passes without a message. */
  const TimedOutRecord: Record := Record(TimedOut, "", None, [])

  /** `$headers[$name] ?? null`: a missing header and a null one both read as null. */
  function HeaderValue(headers: HeaderMap, name: string): (r: Option<string>)
    ensures Get(headers, name).Some? ==> r == Get(headers, name).value
    ensures Get(headers, name).None? ==> r.None?
  {
    match Get(headers, name)
    case Some(v) => v
    case None => None
  }

  /** PHP truthiness of a nullable string: null, "" and "0" are false. */
  predicate Truthy(s: Option<string>) {
    s.Some? && s.value != "" && s.value != "0"
  }
}
