/** Structured errors: a code, a human-readable description and a category,
    plus the aggregate `ErrorList` used to report several validation failures
    at once. Both are immutable values compared structurally. */
module Errors {

  import opened ErrorTypes

  /** The fixed description every `ErrorList` carries, whatever the caller passes. */
  const ErrorListDescription: string := "One or more validation errors occurred"

  /** `Single` is the plain error record; `ErrorList` is the aggregate, whose
      description and category are fixed and whose code the caller chooses. */
  datatype Error =
    | Single(code: string, description: string, category: ErrorType)
    | ErrorList(code: string, errors: seq<Error>)
  {
    /** The `Code` property. */
    function Code(): string {
      code
    }

    /** The `Description` property: stored for a plain error, fixed for a list. */
    function Description(): string {
      match this
      case Single(_, d, _) => d
      case ErrorList(_, _) => ErrorListDescription
    }

    /** The `Type` property: stored for a plain error, always `Validation` for a list. */
    function Type(): ErrorType {
      match this
      case Single(_, _, t) => t
      case ErrorList(_, _) => ErrorType.Validation
    }
  }

  /** The reserved "no error" sentinel. */
  const None: Error := Single("", "", ErrorType.Failure)

  /** The error produced when a result is built from an absent value. */
  const NullValue: Error := Single("General.Null", "Null value was provided", ErrorType.Failure)

  function Failure(code: string, description: string): (e: Error)
    ensures e.Single?
    ensures e.Code() == code && e.Description() == description
    ensures e.Type() == ErrorType.Failure
  {
    Single(code, description, ErrorType.Failure)
  }

  function Validation(code: string, description: string): (e: Error)
    ensures e.Single?
    ensures e.Code() == code && e.Description() == description
    ensures e.Type() == ErrorType.Validation
    ensures e != None
  {
    Single(code, description, ErrorType.Validation)
  }

  function Problem(code: string, description: string): (e: Error)
    ensures e.Single?
    ensures e.Code() == code && e.Description() == description
    ensures e.Type() == ErrorType.Problem
    ensures e != None
  {
    Single(code, description, ErrorType.Problem)
  }

  function NotFound(code: string, description: string): (e: Error)
    ensures e.Single?
    ensures e.Code() == code && e.Description() == description
    ensures e.Type() == ErrorType.NotFound
    ensures e != None
  {
    Single(code, description, ErrorType.NotFound)
  }

  function Conflict(code: string, description: string): (e: Error)
    ensures e.Single?
    ensures e.Code() == code && e.Description() == description
    ensures e.Type() == ErrorType.Conflict
    ensures e != None
  {
    Single(code, description, ErrorType.Conflict)
  }

  /** The `ErrorList` constructor: the caller's code and children are kept,
      the description and category are fixed. */
  function NewErrorList(code: string, errors: seq<Error>): (e: Error)
    ensures e.ErrorList? && e.errors == errors
    ensures e.Code() == code
    ensures e.Description() == "One or more validation errors occurred"
    ensures e.Type() == ErrorType.Validation
    ensures e != None
  {
    ErrorList(code, errors)
  }

  /** The two sentinels have exactly the documented fields and differ. */
  lemma SentinelFields()
    ensures None.Code() == "" && None.Description() == "" && None.Type() == ErrorType.Failure
    ensures NullValue.Code() == "General.Null"
    ensures NullValue.Description() == "Null value was provided"
    ensures NullValue.Type() == ErrorType.Failure
    ensures NullValue != None
  {
  }

  /** Equality is structural: two plain errors are equal exactly when code,
      description and category agree; a plain error never equals a list; two
      lists are equal exactly when code and children agree. */
  lemma EqualityIsStructural(a: Error, b: Error)
    ensures a.Single? && b.Single? ==>
      (a == b <==> a.Code() == b.Code() && a.Description() == b.Description() && a.Type() == b.Type())
    ensures a.Single? != b.Single? ==> a != b
    ensures a.ErrorList? && b.ErrorList? ==>
      (a == b <==> a.Code() == b.Code() && a.errors == b.errors)
  {
  }

  /** Any error whose category is not `Failure` differs from `None`,
      whatever its code and description. */
  lemma CategoryDistinguishesNone(e: Error)
    requires e.Type() != ErrorType.Failure
    ensures e != None
  {
  }

  /** An error is `None` exactly when it is a plain `Failure` with empty
      code and description; in particular `Failure("", "")` is `None`. */
  lemma NoneCharacterised(e: Error)
    ensures e == None <==> e.Single? && e.Code() == "" && e.Description() == "" && e.Type() == ErrorType.Failure
    ensures Failure("", "") == None
  {
  }

}
