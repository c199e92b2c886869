/** Failure-carrying results used for the exceptions the statement builders throw. */
module Wrappers {

  datatype Option<+T> = None | Some(value: T)

  /** The exception kinds the builders raise, with the message the source attaches. */
  datatype Error =
    | ArgumentError(message: string)   // System.ArgumentException
    | ArgumentNull                     // System.ArgumentNullException: a null dictionary key
    | GeneralError(message: string)    // System.Exception
    | InvalidCast                      // an unboxing or Convert.ToInt64 that fails
    | NullReference                    // a member looked up on a missing object or property
    | TrimOutOfRange                   // StringBuilder.Remove with a negative start index
    | NullTarget                       // an instance property read with no object (TargetException)
    | Overflow                         // Convert.ToInt64 of a value outside the 64-bit range
    | FormatError                      // Convert.ToInt64 of a text that is not a numeral

  datatype Result<+R> = Ok(value: R) | Err(error: Error)
}
