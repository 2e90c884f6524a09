/** The logging decorator, seen from its caller: whatever it records, it
    calls the inner handler once and hands back that handler's result
    untouched, for every handler shape. */
module LoggingBehavior {

  /** Pass the request to the inner handler and return its result as is.
      The ghost `calls` counts calls of the inner handler. */
  method Handle<Q, R>(inner: Q -> R, request: Q) returns (r: R, ghost calls: nat)
    ensures r == inner(request)
    ensures calls == 1
  {
    calls := 0;
    r := inner(request);
    calls := calls + 1;
  }

}
