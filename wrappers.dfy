/** Option and Result wrappers shared by every module; a Failure names the
    exception the C# code would throw on that path. */
module Wrappers {
  datatype Option<T> = None | Some(value: T)

  /** The exceptions the analyser raises, by kind. */
  datatype Failure =
    | FormatError        // FormatException: malformed MIDI data
    | EndOfStream        // EndOfStreamException from BinaryReader.ReadByte
    | IndexOutOfRange    // indexing past a short array or list
    | ArgumentError      // ArgumentException (e.g. an empty sequence)
    | KeyNotFound        // KeyNotFoundException from a dictionary lookup
    | InvalidOperation   // InvalidOperationException (e.g. Min of an empty sequence)
    | DivideByZero       // integer division by zero
    | Overflow           // OverflowException (e.g. an infinite TimeSpan)
    | NotAnalyzed        // NonanalyzedMidiException
    | Diverges           // the loop in the source never terminates
    | GeneralError       // a plain System.Exception thrown by the analyser
    | NullReference      // NullReferenceException: a note with no instrument assigned

  datatype Result<T> = Ok(value: T) | Fail(failure: Failure)
  {
    predicate IsFailure() { Fail? }

    function PropagateFailure<U>(): Result<U>
      requires Fail?
    {
      Fail(failure)
    }

    function Extract(): T
      requires Ok?
    {
      value
    }
  }
}
