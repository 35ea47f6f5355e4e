/**
 * Values shared by every part of the model: an optional value standing for
 * a Java reference that may be null, a result that either carries a value
 * or the error that stopped the computation, and the verdict of a
 * persistence-event guard.
 */
module Outcomes {

  /** A Java reference that may be null. */
  datatype Option<T> = None | Some(value: T)

  /**
   * Why an operation stopped. Every failure of the add-on surfaces as the
   * same Java exception type; what distinguishes them is the message:
   * - Translated(key): the message is the translation of a message key;
   * - Untranslated(message): the exception carries the text as is;
   * - IndexOutOfBounds / NullPointer: a Java runtime fault, whose message
   *   is not a key of the add-on.
   */
  datatype Error =
    | Translated(key: string)
    | Untranslated(message: string)
    | IndexOutOfBounds
    | NullPointer

  datatype Result<T> = Ok(value: T) | Err(error: Error)

  /** How a run of the export process ends. */
  datatype Outcome = Pass | Fail(error: Error)

  /**
   * The verdict of a persistence-event observer: the event goes through
   * (with the lines logged on the way) or the observer throws.
   */
  datatype Verdict = Allowed(logged: seq<string>) | Blocked(error: Error)

  /** Java's string concatenation renders a null reference as "null". */
  function JavaString(s: Option<string>): (r: string)
    ensures s.Some? ==> r == s.value
    ensures s.None? ==> r == "null"
  {
    match s
    case Some(v) => v
    case None => "null"
  }
}
