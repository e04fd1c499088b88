/**
 * Properties of the `Right` guard that relate several constructions or
 * several calls: which options matter to the constructor, that the two
 * spellings of the right name are interchangeable, that every guard can be
 * built, and what the two delegating operations do and do not depend on.
 */
module RightProperties {
  import opened Wrappers
  import opened Security

  /** The only keys the constructor reads. */
  predicate AgreeOnOptions(v1: Values, v2: Values)
  {
    Lookup(v1, ValueKey) == Lookup(v2, ValueKey)
    && Lookup(v1, NameKey) == Lookup(v2, NameKey)
    && Lookup(v1, MiddlewareNameKey) == Lookup(v2, MiddlewareNameKey)
  }

  /** Two option maps that agree on `value`, `name` and `middlewareName` build the same guard, or fail alike. */
  lemma OnlyRecognisedKeysMatter(v1: Values, v2: Values)
    requires AgreeOnOptions(v1, v2)
    ensures Construct(v1) == Construct(v2)
  {
  }

  /** A key mapped to `null` is treated exactly like a missing key. */
  lemma NullIsUnset(values: Values, key: string)
    ensures Construct(values[key := None]) == Construct(values - {key})
  {
  }

  /** Giving the right under `name` or under `value` builds the same guard. */
  lemma AliasesAgree(values: Values, right: string)
    ensures Construct((values - {ValueKey})[NameKey := Some(right)])
         == Construct((values - {NameKey})[ValueKey := Some(right)])
  {
  }

  /** `value` wins over `name` whatever `name` holds. */
  lemma ValueTakesPrecedence(values: Values, value: string, name: Option<string>)
    ensures Construct(values[NameKey := name][ValueKey := Some(value)]).Success?
    ensures Construct(values[NameKey := name][ValueKey := Some(value)]).value.name == value
  {
  }

  /** No check is made on the right name: every string, the empty one included, is accepted. */
  lemma AnyRightNameAccepted(right: string)
    ensures Construct(map[NameKey := Some(right)]) == Success(Right(right, ForbiddenMiddleware))
    ensures Construct(map[ValueKey := Some(right)]) == Success(Right(right, ForbiddenMiddleware))
  {
  }

  /** The options that build a given guard, giving the right under `name`. */
  function OptionsOf(guard: Right): Values
  {
    map[NameKey := Some(guard.name), MiddlewareNameKey := Some(guard.middlewareName)]
  }

  /** Every guard value is the outcome of some construction: the model holds no unreachable guards. */
  lemma EveryGuardConstructible(guard: Right)
    ensures exists values :: Construct(values) == Success(guard)
  {
    assert Construct(OptionsOf(guard)) == Success(guard);
  }

  /** The rights service is asked about the right the options named, `value` first. */
  lemma IsAllowedAsksConfiguredRight(values: Values, rightsService: string -> bool)
    requires Construct(values).Success?
    ensures IsAllowed(Construct(values).value, rightsService)
        == rightsService(Coalesce(Lookup(values, ValueKey), Lookup(values, NameKey)).value)
  {
  }

  /** A service that grants exactly one right allows a guard exactly when the guard names that right. */
  lemma IsAllowedWithSingleRightService(guard: Right, granted: string)
    ensures IsAllowed(guard, r => r == granted) <==> guard.name == granted
  {
  }

  /** The boolean check ignores the fallback middleware. */
  lemma IsAllowedIgnoresMiddleware(guard: Right, middlewareName: string, rightsService: string -> bool)
    ensures IsAllowed(guard.(middlewareName := middlewareName), rightsService)
        == IsAllowed(guard, rightsService)
  {
  }

  /** Interception never looks at the right name: no right check happens on that path. */
  lemma InvokeIgnoresRightName<Req, Resp, C>(
    guard: Right, name: string, request: Req, response: Resp, next: Next<Req, Resp>,
    container: C, get: (C, string) -> Handler<Req, Resp, C>)
    ensures Invoke(guard.(name := name), request, response, next, container, get)
         == Invoke(guard, request, response, next, container, get)
  {
  }

  /** Only the middleware registered under the stored identifier matters to interception. */
  lemma InvokeResolvesStoredIdentifier<Req, Resp, C>(
    guard: Right, request: Req, response: Resp, next: Next<Req, Resp>,
    container: C, get1: (C, string) -> Handler<Req, Resp, C>, get2: (C, string) -> Handler<Req, Resp, C>)
    requires get1(container, guard.middlewareName) == get2(container, guard.middlewareName)
    ensures Invoke(guard, request, response, next, container, get1)
         == Invoke(guard, request, response, next, container, get2)
  {
  }

  /** With a middleware that always continues the chain, the guard answers what `next` answers. */
  lemma PassThroughIsTransparent<Req, Resp, C>(
    guard: Right, request: Req, response: Resp, next: Next<Req, Resp>,
    container: C, get: (C, string) -> Handler<Req, Resp, C>)
    requires forall rq, rs, n, c :: get(container, guard.middlewareName)(rq, rs, n, c) == n(rq, rs)
    ensures Invoke(guard, request, response, next, container, get) == next(request, response)
  {
  }

  /**
   * With a middleware that answers `denial` without continuing, the guard
   * answers `denial` verbatim, whatever continuation it was given.
   */
  lemma DenialShortCircuits<Req, Resp, C>(
    guard: Right, request: Req, response: Resp, next1: Next<Req, Resp>, next2: Next<Req, Resp>,
    container: C, get: (C, string) -> Handler<Req, Resp, C>, denial: Resp)
    requires forall rq, rs, n, c :: get(container, guard.middlewareName)(rq, rs, n, c) == denial
    ensures Invoke(guard, request, response, next1, container, get) == denial
    ensures Invoke(guard, request, response, next1, container, get)
         == Invoke(guard, request, response, next2, container, get)
  {
  }
}
