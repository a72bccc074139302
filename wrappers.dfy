/** Optional values, the exceptions the merchant code can raise, and results
    that carry either a value or one of those exceptions. */
module Wrappers {

  /** A Java reference that may be null, or a `java.util.Optional`. */
  datatype Option<+T> = None | Some(value: T)

  /** The exceptions that can escape the modelled code. */
  datatype Failure =
    | NullPointer                     // NullPointerException
    | NumberFormat                    // NumberFormatException from Long.parseLong
    | IllegalArgument(message: string) // IllegalArgumentException (also unknown enum names)
    | JsonProcessing                  // RuntimeException wrapping Jackson's JsonProcessingException
    | NoSuchKey                       // NoSuchKeyException (an S3Exception): the S3 object does not exist
    | Unavailable                     // any transport or client failure of a backing store or API
    | ConstraintViolation             // NOT NULL / UNIQUE violation raised by the relational store
    | StaleEntity                     // merge of an entity whose id has no row
    | SequenceExhausted               // the identity sequence has passed Long.MAX_VALUE

  /** The outcome of a Java call: a returned value or a thrown exception. */
  datatype Result<+T> = Ok(value: T) | Err(error: Failure)
}
