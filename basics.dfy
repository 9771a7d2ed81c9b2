/** Values shared by every part of the reliability layer: optional values,
    identifiers, time stamps and the errors that travel back to callers. */
module Basics {

  datatype Option<+T> = None | Some(value: T)

  /** A value, or the error an operation raised instead of returning one. */
  datatype Result<+T> = Ok(value: T) | Err(error: Error)

  /** Primary key of a persisted job record. */
  type Id = nat

  /** A point in time, in whole seconds. */
  type Time = int

  /** Handle the transport returns when it accepts a push. */
  type Jid = nat

  /** Everything that is raised back to the caller of the core. */
  datatype Error =
    | PayloadError(errorType: string, message: string)    // raised by the user's payload, re-raised
    | RecordInvalid                                        // save! rejected by a validation
    | RecordNotFound(missing: Id)                          // find of an absent id
    | UnknownUniquenessStrategy(uniquenessTag: string)     // resolver given an unknown tag
    | UnknownConflictStrategy(conflictTag: string)         // resolver given an unknown tag
    | ArgumentError(reason: string)                        // configuration setter refused a value
    | NoMethodError(methodName: string)                    // call of an undefined method
    | TypeError(reason: string)                            // arithmetic on nil

  /** The message the raised exception reports. */
  function Message(e: Error): (m: string)
    ensures e.UnknownUniquenessStrategy? ==> m == "unknown uniqueness strategy: " + e.uniquenessTag
    ensures e.UnknownConflictStrategy? ==> m == "unknown enqueue conflict resolution strategy: " + e.conflictTag
    ensures e.PayloadError? ==> m == e.message
  {
    match e
    case PayloadError(_, message) => message
    case RecordInvalid => "Validation failed"
    case RecordNotFound(_) => "Couldn't find record"
    case UnknownUniquenessStrategy(tag) => "unknown uniqueness strategy: " + tag
    case UnknownConflictStrategy(tag) => "unknown enqueue conflict resolution strategy: " + tag
    case ArgumentError(reason) => reason
    case NoMethodError(name) => "undefined method `" + name + "'"
    case TypeError(reason) => reason
  }

  /** Ruby's String#blank? restricted to ASCII white space. */
  predicate Blank(s: string)
  {
    forall i :: 0 <= i < |s| ==> s[i] in {' ', '\t', '\n', '\r', '\U{0B}', '\U{0C}'}
  }

  /** Decimal rendering of an integer, as Integer#to_s. */
  function IntToString(n: int): (s: string)
    ensures |s| >= 1
    decreases if n < 0 then -n + 1 else n
  {
    if n < 0 then "-" + IntToString(-n)
    else if n < 10 then [DigitChar(n)]
    else IntToString(n / 10) + [DigitChar(n % 10)]
  }

  function DigitChar(d: int): char
    requires 0 <= d < 10
  {
    "0123456789"[d]
  }
}
