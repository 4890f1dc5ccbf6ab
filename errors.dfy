/** The failure kinds of the library (parse errors, the two exceptions std::stoi
    throws on an integer token, and malformed input to the list utilities), each
    carrying the line number it was raised at.  The C++ code throws an exception
    with a formatted message; here a failure is a value. */
module Errors {

  datatype Cause =
    | EofInString                  // "EOF while parsing string."
    | UnknownConstant(name: string) // "Unknown constant '<name>'."
    | UnexpectedEof                // "Unexpected EOF."
    | UnexpectedClose              // "Unexpected ')'."
    | UnexpectedDot                // "Unexpected '.'."
    | ExpectedClose                // "Expected ')'"
    | TrailingGarbage              // "trailing garbage in stream"
    | MalformedAssoc               // "malformed input to sexp::assoc_ref()"
    | InvalidInteger               // std::invalid_argument from std::stoi
    | IntegerOutOfRange            // std::out_of_range from std::stoi

  datatype Error = Error(line: int, cause: Cause)

  /** An optional value: the end iterator's missing cell, or a bounded loop
      that had not stopped yet. */
  datatype Option<T> = None | Some(value: T)

  /** A result that either holds a value or the error that aborted the computation. */
  datatype Result<+T> = Ok(value: T) | Err(error: Error) {
    predicate IsFailure() {
      Err?
    }

    function PropagateFailure<U>(): Result<U>
      requires Err?
    {
      Err(error)
    }

    function Extract(): T
      requires Ok?
    {
      value
    }
  }
}
