/** Failure-carrying values shared by the pipeline and the prediction model. */
module Common {

  datatype Option<+T> = None | Some(value: T)

  /** The exceptions the core raises, one constructor per distinct cause. */
  datatype Error =
    | BoundingBoxNotSet   // ValueError: a bound is None or exactly 0
    | MalformedDate       // ValueError from strptime
    | DateOutOfRange      // OverflowError from date arithmetic past year 1 or 9999
    | LabelNotInIndex     // KeyError from a label-based assignment
    | TimestampOutOfRange // OutOfBoundsDatetime from a pandas date conversion

  datatype Result<+T> = Ok(value: T) | Err(error: Error)
}
