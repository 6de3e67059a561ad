/** Option and Result, and the exceptions the scraper lets escape. */
module Wrappers {

  datatype Option<+T> = None | Some(value: T)

  /** Each kind of exception the scraper can raise, named after its cause. */
  datatype Fault =
    | ShortTable      // IndexError: a row or cell the code indexes does not exist
    | NoKsiElement    // TypeError: subscripting the None that find() returned for the KSI element
    | NoKsiValue      // KeyError: the KSI element has no value attribute
    | RecordShape     // building a record from a dict that lacks one of its fields
    | ColumnMismatch  // ValueError: header count differs from the width of the movements frame
    | RaggedRow       // a movements row narrower than the widest one
    | BadKeywords     // TypeError: CardMovement(**row) with a missing, unexpected or repeated keyword

  /** A value, or the exception raised instead of returning one. */
  datatype Result<+T> = Ok(value: T) | Raise(fault: Fault) {
    predicate IsFailure() { Raise? }

    function PropagateFailure<U>(): Result<U>
      requires Raise?
    {
      Raise(fault)
    }

    function Extract(): T
      requires Ok?
    {
      value
    }
  }
}
