# Result, Error and validation gate of dotnet-cleanarch, in Dafny

This project models the result/error core of the `CleanArch` library:

- `Error`: an immutable record made of a code, a description and one of five
  categories (`ErrorType`). It has two reserved instances, `None` (the "no
  error" sentinel) and `NullValue`, and an aggregate case `ErrorList` that
  reports several validation failures at once.
- `Result` and `Result<TValue>`: the success/failure envelope. A result
  succeeds exactly when its error is `None`. The constructor faults on any
  other combination. Reading `Value` on a failure faults. There is an
  implicit conversion from a nullable value.
- `ValidationBehavior`: a decorator around command and query handlers. It
  runs every validator and flattens their failures in registration order.
  With no failures it calls the inner handler and returns that handler's
  result unchanged. Otherwise it returns one `ErrorList` failure with code
  `"ValidationBehavior"` and does not call the handler.
- `LoggingBehavior`, as its callers see it: it passes the result through.

Modules, one per file: `ErrorTypes` (errortype.dfy), `Errors` (error.dfy),
`Results` (result.dfy), `ValidationBehavior` (validation.dfy) and
`LoggingBehavior` (logging.dfy).

Modelling choices:

- Faults (`ArgumentException`, `InvalidOperationException`) are
  preconditions. `Results.Faults` states exactly when the base constructor
  throws.
- A C# null is `Nullable.Null`. `Result<TValue>` keeps its private field as
  a `Nullable<T>`; a failure stores `Null`, the `default` the source passes.
  For that reason `Value()` returns a `Nullable<T>`.
- Handlers are function parameters (`Handler<Q, R>`, `BaseHandler<Q>`).
  Validators are functions from the request to a `ValidationResult`.
- The awaited fan-out over validators is a sequence built in registration
  order, since the awaited results keep the order of their inputs.
- A ghost out-parameter `calls` counts how often a decorator calls its inner
  handler.

## Model

| member | source | states |
|---|---|---|
| `Errors.Failure` | src/CleanArch/Error.cs:16-19 | keeps code and description unchanged; the category is Failure |
| `Errors.Validation` | src/CleanArch/Error.cs:21-24 | keeps code and description unchanged; the category is Validation; the result is never `None` |
| `Errors.Problem` | src/CleanArch/Error.cs:26-29 | keeps code and description unchanged; the category is Problem; the result is never `None` |
| `Errors.NotFound` | src/CleanArch/Error.cs:31-34 | keeps code and description unchanged; the category is NotFound; the result is never `None` |
| `Errors.Conflict` | src/CleanArch/Error.cs:36-39 | keeps code and description unchanged; the category is Conflict; the result is never `None` |
| `Errors.NewErrorList` | tests/CleanArch.UnitTests/ErrorListTests.cs:16-22 | keeps the caller's code and children; the description is always "One or more validation errors occurred"; the category is always Validation; never `None` |
| `Errors.SentinelFields` | src/CleanArch/Error.cs:41-43 | `None` is ("", "", Failure); `NullValue` is ("General.Null", "Null value was provided", Failure); the two differ |
| `Errors.EqualityIsStructural` | src/CleanArch/Error.cs:3-14 | two plain errors are equal iff code, description and category agree; a plain error never equals a list; two lists are equal iff code and children agree |
| `Errors.CategoryDistinguishesNone` | src/CleanArch/Error.cs:21-41 | an error of any category other than Failure differs from `None`, whatever its strings |
| `Errors.NoneCharacterised` | src/CleanArch/Error.cs:16-41 | an error is `None` iff it is a plain Failure with empty code and description; so `Failure("", "")` equals `None` |
| `Results.New` | src/CleanArch/Result.Void.cs:9-18 | admits exactly the combinations `Faults` does not flag; every result it builds satisfies success iff error is `None` |
| `Results.NewOf` | src/CleanArch/Result.cs:3-5 | runs the base check first, so the payload result inherits the same invariant; a success gives back the value it was built with |
| `Results.ValueResult.Value` | src/CleanArch/Result.cs:7-9 | readable only on a success (a failure faults); returns the stored value as is |
| `Results.Success` | src/CleanArch/Result.Void.cs:20-23 | a valid success whose error is `None` and which is not a failure |
| `Results.SuccessOf` | src/CleanArch/Result.Void.cs:25-28 | a valid success whose error is `None` and whose value is the given value |
| `Results.Failure` | src/CleanArch/Result.Void.cs:30-33 | for any error other than `None`: a valid failure carrying exactly that error; `None` faults |
| `Results.FailureOf` | src/CleanArch/Result.Void.cs:35-38 | for any error other than `None`: a valid payload failure carrying exactly that error; `None` faults |
| `Results.FromNullable` | src/CleanArch/Result.cs:11-14 | never faults; a present value gives a valid success holding it; an absent value gives a failure with `NullValue` |
| `Results.FaultsExactlyWhenInvalid` | src/CleanArch/Result.Void.cs:11-14 | the constructor check refuses exactly the combinations that break "success iff error is `None`" |
| `Results.KnownFaults` | tests/CleanArch.UnitTests/ResultTests.cs:6-11 | a success with a real error faults; a failure with `None` faults, including one built from `Failure("", "")` |
| `Results.IsFailureIsNegation` | src/CleanArch/Result.Void.cs:6 | `IsFailure` is the negation of `IsSuccess`, for both result shapes |
| `Results.ValueRoundTrip` | src/CleanArch/Result.cs:7-14 | reading back a success returns the value it was built from; converting a present value equals `Success(v)` |
| `Results.ValidShapes` | src/CleanArch/Result.Void.cs:16-17 | a valid result is either a success with `None` or a failure with an error other than `None` |
| `ValidationBehavior.RunValidators` | src/CleanArch/ValidationBehavior.cs:73-74 | one result per validator, in registration order, each that validator's verdict on the request |
| `ValidationBehavior.FlattenAppend` | src/CleanArch/ValidationBehavior.cs:76-78 | flattening the results of two validator lists one after the other is the concatenation of their flattenings |
| `ValidationBehavior.FlattenLength` | src/CleanArch/ValidationBehavior.cs:76-78 | the flattened list holds as many failures as all validators reported together; duplicates are kept |
| `ValidationBehavior.FlattenEmptyIffAllValid` | src/CleanArch/ValidationBehavior.cs:76-78 | nothing is flattened iff every validator reported valid |
| `ValidationBehavior.FlattenPosition` | src/CleanArch/ValidationBehavior.cs:73-78 | failure j of validator i lands after all failures of earlier validators and the first j of validator i |
| `ValidationBehavior.ValidateAsync` | src/CleanArch/ValidationBehavior.cs:62-81 | returns the validators' failures in validator order then report order; skipping valid results loses nothing |
| `ValidationBehavior.CreateValidationError` | src/CleanArch/ValidationBehavior.cs:83-84 | an `ErrorList` with code "ValidationBehavior" and category Validation, never `None`, whose i-th child is exactly the plain error `Validation(propertyName, errorMessage)` of the i-th failure |
| `ValidationBehavior.ErrorCodeIgnored` | src/CleanArch/ValidationBehavior.cs:84 | failures that agree on property name and message give the same aggregated error, whatever their error codes |
| `ValidationBehavior.Rejection` | src/CleanArch/ValidationBehavior.cs:13-20 | the rejection error has code "ValidationBehavior", category Validation, is never `None` and holds exactly as many children as failures were reported |
| `ValidationBehavior.RejectsIffSomeInvalid` | src/CleanArch/ValidationBehavior.cs:66-78 | a request is rejected iff some validator reports it invalid; with no validators it is never rejected |
| `ValidationBehavior.TwoValidatorsScenario` | src/CleanArch/ValidationBehavior.cs:73-84 | two validators with one failure each yield a list of exactly those two Validation errors, first validator first |
| `ValidationBehavior.HandleCommand` | src/CleanArch/ValidationBehavior.cs:11-21 | the inner handler is called at most once, and exactly when no validator fails, and then its result is returned unchanged; otherwise the result is a failure with the rejection error; no validators means exactly one call; a valid inner result gives a valid result |
| `ValidationBehavior.HandleCommandBase` | src/CleanArch/ValidationBehavior.cs:30-40 | the same decision as `HandleCommand` for a handler without a payload |
| `ValidationBehavior.HandleQuery` | src/CleanArch/ValidationBehavior.cs:49-59 | the same decision as `HandleCommand` for a query handler |
| `LoggingBehavior.Handle` | tests/CleanArch.UnitTests/LoggingBehaviorTests.cs:26-32 | the inner handler is called exactly once and its result is returned unchanged |

## Left out

- Tasks and `await`: validator results are an ordered sequence. The concurrent fan-out at src/CleanArch/ValidationBehavior.cs:73-74 is a sequence built in registration order.
- Cancellation. The decorators receive a token but do not pass it to the validators (src/CleanArch/ValidationBehavior.cs:74); cancellation is not modelled.
- The validation library's internals (`IValidator`, `ValidationContext`). A validator is a total function from the request to its list of failures, and `IsValid` means that list is empty. A validator that throws is not modelled.
- The log events written by `LoggingBehavior`. Its source is not part of this model; only the pass-through seen by callers is modelled, from its tests.
- Dependency-injection wiring and the `ICommand`/`IQuery` marker interfaces. They appear only as type parameters.
- The exception types. Both faults are preconditions, and `Results.Faults` says when the constructor would throw.
- A null `Error` passed to the `Result` constructor. Dafny errors are never null.
- `ErrorList` equality. The `ErrorList` source is not part of this model. As a C# record holding an array, it would compare its children by reference. The model compares them structurally. This does not affect any comparison with `None`, which is a plain error.
- ValidationBehavior.RunValidators: the source builds one `ValidationContext` (src/CleanArch/ValidationBehavior.cs:71) and hands that same object to every validator (line 74). The model treats each validator as an independent pure function of the request. Whether validators can observe or change the shared context belongs to the validation library, which is not part of this model. The count and order results (`FlattenLength`, `FlattenPosition`) rest on this independence.
- Reference equality of results. `Result` and `Result<TValue>` are C# classes (src/CleanArch/Result.Void.cs:3, src/CleanArch/Result.cs:3), so C# `==` compares them by reference. The model's results are datatypes compared field by field. So a statement such as "converting a present value equals `Success(v)`" means equal fields, not the same object.
- Idempotence of the pipeline. Every modelled operation is a pure function of its inputs, so two calls with equal inputs give equal results by construction.
