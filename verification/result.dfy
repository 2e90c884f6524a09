/** The success/failure envelope. A result is successful exactly when its
    error is the `None` sentinel; building one that breaks this is a
    programming fault, modelled here as a precondition. */
module Results {

  import opened Errors

  /** A reference that may be null: the value side of `TValue?`. */
  datatype Nullable<T> = Null | NonNull(value: T)

  /** The combination of flag and error the base constructor refuses. */
  predicate Faults(isSuccess: bool, error: Error) {
    (isSuccess && error != None) || (!isSuccess && error == None)
  }

  /** The result without a payload. */
  datatype Result = Result(isSuccess: bool, error: Error) {
    predicate IsFailure() {
      !isSuccess
    }

    /** The invariant the constructor establishes. */
    predicate Valid() {
      isSuccess <==> error == None
    }
  }

  /** The result with a payload. `stored` is the private field: `Null` for
      the `default` a failure stores, the given value otherwise. */
  datatype ValueResult<T> = ValueResult(isSuccess: bool, error: Error, stored: Nullable<T>) {
    /** Inherited from the base class. */
    predicate IsFailure() {
      Base().IsFailure()
    }

    /** The view of this result as its base class. */
    function Base(): (b: Result)
      ensures b.isSuccess == isSuccess && b.error == error
    {
      Result(isSuccess, error)
    }

    /** The invariant inherited from the base constructor. */
    predicate Valid() {
      Base().Valid()
    }

    /** The guarded `Value` property; reading it on a failure faults. The
        stored field is returned as it is, so a success built directly with
        a null value yields null. */
    function Value(): (v: Nullable<T>)
      requires isSuccess
      ensures v == stored
    {
      stored
    }
  }

  /** The base constructor. */
  function New(isSuccess: bool, error: Error): (r: Result)
    requires !Faults(isSuccess, error)
    ensures r.Valid()
    ensures r.isSuccess == isSuccess && r.error == error
  {
    Result(isSuccess, error)
  }

  /** The constructor of the payload-carrying result, which runs the base
      constructor's check first. */
  function NewOf<T>(value: Nullable<T>, isSuccess: bool, error: Error): (r: ValueResult<T>)
    requires !Faults(isSuccess, error)
    ensures r.Valid()
    ensures r.isSuccess == isSuccess && r.error == error
    ensures isSuccess ==> r.Value() == value
  {
    var _ := New(isSuccess, error);
    ValueResult(isSuccess, error, value)
  }

  function Success(): (r: Result)
    ensures r.Valid() && r.isSuccess && !r.IsFailure()
    ensures r.error == None
  {
    New(true, None)
  }

  function SuccessOf<T>(value: T): (r: ValueResult<T>)
    ensures r.Valid() && r.isSuccess && !r.IsFailure()
    ensures r.error == None
    ensures r.Value() == NonNull(value)
  {
    NewOf(NonNull(value), true, None)
  }

  /** `Failure(None)` would fault, so `None` is excluded. */
  function Failure(error: Error): (r: Result)
    requires error != None
    ensures r.Valid() && !r.isSuccess && r.IsFailure()
    ensures r.error == error
  {
    New(false, error)
  }

  /** `Failure<T>(None)` would fault, so `None` is excluded. */
  function FailureOf<T>(error: Error): (r: ValueResult<T>)
    requires error != None
    ensures r.Valid() && !r.isSuccess && r.IsFailure()
    ensures r.error == error
  {
    NewOf(Null, false, error)
  }

  /** The implicit conversion from `TValue?`: a present value succeeds, an
      absent one fails with `NullValue`. It never faults. */
  function FromNullable<T>(value: Nullable<T>): (r: ValueResult<T>)
    ensures r.Valid()
    ensures value.NonNull? ==> r.isSuccess && r.error == None && r.Value() == value
    ensures value.Null? ==> r.IsFailure() && r.error == NullValue
  {
    if value.NonNull? then SuccessOf(value.value) else FailureOf(NullValue)
  }

  /** The constructor's check rejects exactly the combinations that break
      the invariant, so every result it admits is valid. */
  lemma FaultsExactlyWhenInvalid(isSuccess: bool, error: Error)
    ensures !Faults(isSuccess, error) <==> Result(isSuccess, error).Valid()
    ensures Faults(true, error) <==> error != None
    ensures Faults(false, error) <==> error == None
  {
  }

  /** The two combinations the tests exercise both fault, including a
      failure built from `Failure("", "")`, which is `None`. */
  lemma KnownFaults()
    ensures Faults(true, Errors.Failure("X", "Y"))
    ensures Faults(false, None)
    ensures Faults(false, Errors.Failure("", ""))
  {
  }

  /** `IsFailure` is the negation of `IsSuccess` for both result shapes. */
  lemma IsFailureIsNegation<T>(r: Result, v: ValueResult<T>)
    ensures r.IsFailure() == !r.isSuccess
    ensures v.IsFailure() == !v.isSuccess
    ensures v.IsFailure() == v.Base().IsFailure()
  {
  }

  /** Reading the value back returns the value a success was built from,
      and a converted present value is that same success. */
  lemma ValueRoundTrip<T>(v: T)
    ensures SuccessOf(v).Value() == NonNull(v)
    ensures FromNullable(NonNull(v)) == SuccessOf(v)
  {
  }

  /** A valid result is one of exactly two shapes: success with `None`, or
      failure with an error other than `None`. */
  lemma ValidShapes<T>(r: ValueResult<T>)
    requires r.Valid()
    ensures (r.isSuccess && r.error == None) || (!r.isSuccess && r.error != None)
  {
  }

}
