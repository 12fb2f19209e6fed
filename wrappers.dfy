/** Option and Result, plus the Java exceptions the engine can raise. */
module Wrappers {

  /** A Java reference that may be null. */
  datatype Option<T> = None | Some(value: T)
  {
    function GetOr(default: T): T
    {
      match this
      case None => default
      case Some(v) => v
    }
  }

  /** The exceptions thrown by the modelled code, by class. */
  datatype Exception =
    | BadMatchPath            // BadMatchPathException
    | IllegalState            // IllegalStateException
    | IllegalArgument         // IllegalArgumentException
    | NoSuchElement           // NoSuchElementException
    | XmlStream               // XMLStreamException
    | Transform               // TransformException (other causes)
    | EmptyStack              // java.util.EmptyStackException
    | IndexOutOfBounds        // ArrayIndexOutOfBounds / IndexOutOfBounds
    | NullPointer             // NullPointerException
    | OutOfFuel               // the model's recursion bound was reached (not a Java exception)

  /** The outcome of a Java call: a value, or the exception it throws. */
  datatype Result<T> = Success(value: T) | Failure(error: Exception)
  {
    predicate IsFailure() { Failure? }

    function PropagateFailure<U>(): Result<U>
      requires Failure?
    {
      Failure(error)
    }

    function Extract(): T
      requires Success?
    {
      value
    }
  }
}
