/** The validation decorator: it runs every validator registered for a
    request, flattens their failures in registration order, and either hands
    the request to the inner handler (no failures) or short-circuits with one
    `ErrorList` failure (some failures), without calling the inner handler. */
module ValidationBehavior {

  import opened ErrorTypes
  import opened Errors
  import opened Results

  /** One field-level failure reported by a validator. `errorCode` is carried
      but never read by the decorator. */
  datatype ValidationFailure = ValidationFailure(propertyName: string, errorMessage: string, errorCode: string)

  /** What one validator reports for one request. */
  datatype ValidationResult = ValidationResult(errors: seq<ValidationFailure>) {
    predicate IsValid() {
      |errors| == 0
    }
  }

  /** A validator, already applied to the request's validation context. */
  type Validator<-Q> = Q -> ValidationResult

  /** The handler shape with a payload (commands with a response, queries). */
  type Handler<-Q, R> = Q -> ValueResult<R>

  /** The handler shape without a payload (commands without a response). */
  type BaseHandler<-Q> = Q -> Result

  /** The code every aggregated validation error carries. */
  const StageCode: string := "ValidationBehavior"

  /** Reference definition: all failures, validator by validator, each
      validator's failures in the order it reported them. */
  function Flatten(results: seq<ValidationResult>): seq<ValidationFailure>
  {
    if |results| == 0 then [] else results[0].errors + Flatten(results[1..])
  }

  /** The number of failures all validators reported together. */
  function TotalFailures(results: seq<ValidationResult>): nat
  {
    if |results| == 0 then 0 else |results[0].errors| + TotalFailures(results[1..])
  }

  /** The results of all validators, in registration order: the awaited
      fan-out keeps the order of its inputs, whatever order they finish in. */
  function RunValidators<Q>(validators: seq<Validator<Q>>, request: Q): (results: seq<ValidationResult>)
    ensures |results| == |validators|
    ensures forall i :: 0 <= i < |validators| ==> results[i] == validators[i](request)
  {
    seq(|validators|, i requires 0 <= i < |validators| => validators[i](request))
  }

  /** Flattening distributes over concatenation of validator lists. */
  lemma {:induction false} FlattenAppend(a: seq<ValidationResult>, b: seq<ValidationResult>)
    ensures Flatten(a + b) == Flatten(a) + Flatten(b)
    decreases |a|
  {
    if |a| == 0 {
      assert a + b == b;
    } else {
      assert (a + b)[1..] == a[1..] + b;
      FlattenAppend(a[1..], b);
    }
  }

  /** No failure is dropped and none is merged: the flattened list holds
      exactly as many failures as the validators reported, duplicates kept. */
  lemma {:induction false} FlattenLength(results: seq<ValidationResult>)
    ensures |Flatten(results)| == TotalFailures(results)
    decreases |results|
  {
    if |results| > 0 {
      FlattenLength(results[1..]);
    }
  }

  /** Nothing is flattened exactly when every validator reported valid. */
  lemma {:induction false} FlattenEmptyIffAllValid(results: seq<ValidationResult>)
    ensures |Flatten(results)| == 0 <==> forall i :: 0 <= i < |results| ==> results[i].IsValid()
    decreases |results|
  {
    if |results| > 0 {
      FlattenEmptyIffAllValid(results[1..]);
      assert forall i :: 1 <= i < |results| ==> results[i] == results[1..][i - 1];
    }
  }

  /** Failure `j` of validator `i` sits right after every failure of the
      validators registered before `i` and the first `j` failures of `i`. */
  lemma {:induction false} FlattenPosition(results: seq<ValidationResult>, i: nat, j: nat)
    requires i < |results| && j < |results[i].errors|
    ensures TotalFailures(results[..i]) + j < |Flatten(results)|
    ensures Flatten(results)[TotalFailures(results[..i]) + j] == results[i].errors[j]
  {
    assert results == results[..i] + ([results[i]] + results[i + 1..]);
    FlattenAppend(results[..i], [results[i]] + results[i + 1..]);
    FlattenAppend([results[i]], results[i + 1..]);
    assert Flatten([results[i]]) == results[i].errors by {
      assert [results[i]][1..] == [];
    }
    FlattenLength(results[..i]);
  }

  /** `ValidateAsync`: with no validators, nothing; otherwise the failures of
      every result that is not valid, flattened in registration order. */
  method ValidateAsync<Q>(request: Q, validators: seq<Validator<Q>>) returns (failures: seq<ValidationFailure>)
    ensures failures == Flatten(RunValidators(validators, request))
    ensures |failures| == TotalFailures(RunValidators(validators, request))
  {
    FlattenLength(RunValidators(validators, request));
    if |validators| == 0 {
      return [];
    }
    var results := RunValidators(validators, request);
    failures := [];
    var i := 0;
    while i < |results|
      invariant 0 <= i <= |results|
      invariant failures == Flatten(results[..i])
    {
      assert results[..i + 1] == results[..i] + [results[i]];
      FlattenAppend(results[..i], [results[i]]);
      assert Flatten([results[i]]) == results[i].errors by {
        assert [results[i]][1..] == [];
      }
      if !results[i].IsValid() {
        failures := failures + results[i].errors;
      }
      i := i + 1;
    }
    assert results[..i] == results;
  }

  /** `CreateValidationError`: one `ErrorList` with the stage code holding one
      validation error per failure, in order, keyed by the failing property. */
  function CreateValidationError(failures: seq<ValidationFailure>): (e: Error)
    ensures e.ErrorList? && e.Code() == StageCode
    ensures e.Description() == ErrorListDescription && e.Type() == ErrorType.Validation
    ensures e != None
    ensures |e.errors| == |failures|
    ensures forall i :: 0 <= i < |failures| ==>
      e.errors[i].Code() == failures[i].propertyName &&
      e.errors[i].Description() == failures[i].errorMessage &&
      e.errors[i].Type() == ErrorType.Validation
    ensures forall i :: 0 <= i < |failures| ==>
      e.errors[i] == Errors.Validation(failures[i].propertyName, failures[i].errorMessage)
  {
    NewErrorList(StageCode,
      seq(|failures|, i requires 0 <= i < |failures| => Errors.Validation(failures[i].propertyName, failures[i].errorMessage)))
  }

  /** The failures' error codes play no part in the aggregated error. */
  lemma ErrorCodeIgnored(fs: seq<ValidationFailure>, gs: seq<ValidationFailure>)
    requires |fs| == |gs|
    requires forall i :: 0 <= i < |fs| ==>
      fs[i].propertyName == gs[i].propertyName && fs[i].errorMessage == gs[i].errorMessage
    ensures CreateValidationError(fs) == CreateValidationError(gs)
  {
    assert CreateValidationError(fs).errors == CreateValidationError(gs).errors;
  }

  /** The decision all three decorators share: reject exactly when some
      validator reported a failure. */
  predicate Rejects<Q>(validators: seq<Validator<Q>>, request: Q) {
    |Flatten(RunValidators(validators, request))| > 0
  }

  /** The error all three decorators reject with. */
  function Rejection<Q>(validators: seq<Validator<Q>>, request: Q): (e: Error)
    ensures e.ErrorList? && e.Code() == StageCode && e.Type() == ErrorType.Validation
    ensures e != None
    ensures |e.errors| == TotalFailures(RunValidators(validators, request))
  {
    FlattenLength(RunValidators(validators, request));
    CreateValidationError(Flatten(RunValidators(validators, request)))
  }

  /** A request is rejected exactly when not every validator reports valid;
      with no validators it is never rejected. */
  lemma RejectsIffSomeInvalid<Q>(validators: seq<Validator<Q>>, request: Q)
    ensures Rejects(validators, request) <==> exists i :: 0 <= i < |validators| && !validators[i](request).IsValid()
    ensures |validators| == 0 ==> !Rejects(validators, request)
  {
    var results := RunValidators(validators, request);
    FlattenEmptyIffAllValid(results);
    if !Rejects(validators, request) {
      forall i | 0 <= i < |validators|
        ensures validators[i](request).IsValid()
      {
        assert results[i] == validators[i](request);
      }
    }
  }

  /** Two validators reporting one failure each yield one list holding both
      errors, the first validator's first. */
  lemma TwoValidatorsScenario<Q>(request: Q)
    ensures var vs: seq<Validator<Q>> := [
        _ => ValidationResult([ValidationFailure("Field1", "Error 1", "Code1")]),
        _ => ValidationResult([ValidationFailure("Field2", "Error 2", "Code2")])];
      Rejects(vs, request) &&
      Rejection(vs, request) ==
        NewErrorList(StageCode, [Errors.Validation("Field1", "Error 1"), Errors.Validation("Field2", "Error 2")])
  {
    var vs: seq<Validator<Q>> := [
        _ => ValidationResult([ValidationFailure("Field1", "Error 1", "Code1")]),
        _ => ValidationResult([ValidationFailure("Field2", "Error 2", "Code2")])];
    var results := RunValidators(vs, request);
    assert results[1..][1..] == [];
    assert Flatten(results[1..]) == results[1].errors + [];
    assert Flatten(results) == results[0].errors + results[1].errors;
  }

  /** The decorator around a command handler with a response. The ghost
      `calls` counts calls of the inner handler. */
  method HandleCommand<Q, R>(inner: Handler<Q, R>, validators: seq<Validator<Q>>, command: Q)
    returns (r: ValueResult<R>, ghost calls: nat)
    ensures calls <= 1
    ensures calls == 1 <==> !Rejects(validators, command)
    ensures calls == 1 ==> r == inner(command)
    ensures calls == 0 ==> r.IsFailure() && r.error == Rejection(validators, command)
    ensures |validators| == 0 ==> calls == 1 && r == inner(command)
    ensures inner(command).Valid() ==> r.Valid()
  {
    calls := 0;
    var failures := ValidateAsync(command, validators);
    if |failures| == 0 {
      r := inner(command);
      calls := calls + 1;
    } else {
      r := FailureOf(CreateValidationError(failures));
    }
  }

  /** The decorator around a command handler without a response. */
  method HandleCommandBase<Q>(inner: BaseHandler<Q>, validators: seq<Validator<Q>>, command: Q)
    returns (r: Result, ghost calls: nat)
    ensures calls <= 1
    ensures calls == 1 <==> !Rejects(validators, command)
    ensures calls == 1 ==> r == inner(command)
    ensures calls == 0 ==> r.IsFailure() && r.error == Rejection(validators, command)
    ensures |validators| == 0 ==> calls == 1 && r == inner(command)
    ensures inner(command).Valid() ==> r.Valid()
  {
    calls := 0;
    var failures := ValidateAsync(command, validators);
    if |failures| == 0 {
      r := inner(command);
      calls := calls + 1;
    } else {
      r := Results.Failure(CreateValidationError(failures));
    }
  }

  /** The decorator around a query handler. */
  method HandleQuery<Q, R>(inner: Handler<Q, R>, validators: seq<Validator<Q>>, query: Q)
    returns (r: ValueResult<R>, ghost calls: nat)
    ensures calls <= 1
    ensures calls == 1 <==> !Rejects(validators, query)
    ensures calls == 1 ==> r == inner(query)
    ensures calls == 0 ==> r.IsFailure() && r.error == Rejection(validators, query)
    ensures |validators| == 0 ==> calls == 1 && r == inner(query)
    ensures inner(query).Valid() ==> r.Valid()
  {
    calls := 0;
    var failures := ValidateAsync(query, validators);
    if |failures| == 0 {
      r := inner(query);
      calls := calls + 1;
    } else {
      r := FailureOf(CreateValidationError(failures));
    }
  }

}
