/**
 * Python exceptions, reduced to what the engine looks at: the names of the
 * exception's classes (its method resolution order, most specific first) and
 * its arguments rendered as text.
 */
module Errors {

  /** The name of an exception class, such as "ValueError". */
  type ErrorType = string

  const ExceptionType: ErrorType := "Exception"

  datatype Error = Error(classes: seq<ErrorType>, args: seq<string>)
  {
    /** Every exception a handler may raise derives from `Exception`. */
    predicate Valid() {
      |classes| > 0 && classes[|classes| - 1] == ExceptionType
    }

    /** `isinstance(error, t)`. */
    predicate IsInstance(t: ErrorType) {
      t in classes
    }
  }

  /**
   * An exception of class `cls` deriving directly from `Exception`, raised
   * with one message argument.
   */
  function Raise(cls: ErrorType, message: string): (e: Error)
    ensures e.Valid() && e.IsInstance(cls) && e.args == [message]
  {
    Error([cls, ExceptionType], [message])
  }
}
