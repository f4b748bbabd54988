/** The ways an evaluation or an update of the spreadsheet can fail. */
module Errors {

  /**
   * One constructor per exception the engine raises. The payload is the text
   * the engine puts into its message.
   */
  datatype EvalError =
    | EmptyCell                       // "The cell does not exist or is empty."
    | InvalidValue(text: string)      // "Invalid value: " + content
    | InvalidFormula(text: string)    // "Invalid formula: " + formula
    | InvalidRange(text: string)      // "Invalid range: " + argument
    | EmptyRange                      // "Empty range."
    | InvalidToken(text: string)      // "Invalid token in formula: " + token
    | CircularReference(key: string)  // "Circular reference detected: " + key
    | EmptyStack                      // java.util.EmptyStackException
    | DivisionByZero                  // a division whose divisor is 0
    | StackOverflow                   // recursion deeper than the call stack allows

  /** The exception message, where the engine writes one. */
  function Message(e: EvalError): string {
    match e
    case EmptyCell => "The cell does not exist or is empty."
    case InvalidValue(t) => "Invalid value: " + t
    case InvalidFormula(t) => "Invalid formula: " + t
    case InvalidRange(t) => "Invalid range: " + t
    case EmptyRange => "Empty range."
    case InvalidToken(t) => "Invalid token in formula: " + t
    case CircularReference(k) => "Circular reference detected: " + k
    case EmptyStack => ""
    case DivisionByZero => ""
    case StackOverflow => ""
  }
}
