/**
  The exceptions and errors the message layer and the connection raise.
  PHP separates `Exception`s, which `catch (Exception $e)` intercepts, from
  `Error`s (type errors, bad calls), which pass through it.
*/
module Failure {
  datatype Failure =
    /** TypeError: a reserved or prefixed header arrived with a null value. */
    | NullHeaderValue(name: string)
    /** MessageDecodingFailedException: a prefixed header does not unserialise to a stamp. */
    | StampNotDecodable(name: string)
    /** Exception `No routing found for message "<routing>".` */
    | NoRouting(routing: string)
    /** RuntimeException: JSON mode and no identifier header to route by. */
    | IdentifierMissing
    /** TransportException: no flush attempt succeeded; carries the last result code. */
    | FlushFailed(result: int)
    /** TransportException wrapping another exception, with code 0. */
    | Transport(cause: Failure)
    /** LogicException raised by the receive loop with a record's error code. */
    | ReceiveFailed(err: int)
    /**
      TypeError: the rebalance callback's `new Exception($err)` passes the
      integer code as the message under strict types; no code is carried.
    */
    | RebalanceMessageNotString
    /** TypeError: a topic name that is not a string reached `sendMessage`. */
    | TopicNotString
    /** Error or TypeError: a null consume result was used as a record. */
    | NullRecord
    /** Error: a call names a parameter the callee does not declare. */
    | UnknownNamedParameter(name: string)
    /** Error: a method called on null, here the missing `KafkaMessageStamp` of an envelope to acknowledge. */
    | MissingMessageStamp
  {
    /** Whether `catch (Exception $e)` intercepts it. */
    predicate IsException() {
      !(NullHeaderValue? || TopicNotString? || NullRecord? || UnknownNamedParameter? || MissingMessageStamp?
        || RebalanceMessageNotString?)
    }
  }
}
