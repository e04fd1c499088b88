/**
 * The `Right` guard of the Mouf security package (`src/Right.php`).
 *
 * A guard binds the name of a right to the identifier of a fallback
 * middleware. It is built once from an options map and never changes
 * afterwards, so it is a datatype value here and its two operations are
 * functions of it. The rights service, the dependency-injection container,
 * the resolved middleware and the `$next` continuation are collaborators
 * whose code is not part of this model: they are passed in as function
 * values and only forwarded.
 */
module Security {
  import opened Wrappers

  /** The option keys the constructor reads. */
  const ValueKey: string := "value"
  const NameKey: string := "name"
  const MiddlewareNameKey: string := "middlewareName"

  /** `ForbiddenMiddleware::class`, resolved in the namespace `Mouf\Security`. */
  const ForbiddenMiddleware: string := "Mouf\\Security\\ForbiddenMiddleware"

  /** The message of the exception thrown when no right name is given. */
  const MissingRightNameMessage: string :=
    "The @Right annotation must be passed a right name. For instance: \"@Right('my_right')\""

  /**
   * The options map handed to the constructor. A key mapped to `None` is a
   * key whose PHP value is `null`.
   */
  type Values = map<string, Option<string>>

  /** The exceptions the constructor may throw. */
  datatype Error = BadMethodCall(message: string)

  /** An immutable guard: the right to check and the fallback middleware's identifier. */
  datatype Right = Right(name: string, middlewareName: string)

  /** `$next`: the rest of the middleware chain, called with a request and a response. */
  type Next<!Req, !Resp> = (Req, Resp) -> Resp

  /** A middleware as the container returns it: called with request, response, next and container. */
  type Handler<!Req, !Resp, !C> = (Req, Resp, Next<Req, Resp>, C) -> Resp

  /**
   * Reading `$values[key]` under `isset`/`??`: a missing key and a key
   * mapped to `null` both read as `None`.
   */
  function Lookup(values: Values, key: string): Option<string>
  {
    if key in values then values[key] else None
  }

  /** PHP's `isset($values[key])`. */
  predicate IsSet(values: Values, key: string)
  {
    Lookup(values, key).Some?
  }

  /** PHP's null-coalescing operator `a ?? b`. */
  function Coalesce(a: Option<string>, b: Option<string>): Option<string>
  {
    if a.Some? then a else b
  }

  /**
   * `Right::__construct`: rejects the options when neither `value` nor
   * `name` is set, otherwise stores `value ?? name` as the right and
   * `middlewareName ?? ForbiddenMiddleware::class` as the fallback.
   */
  function Construct(values: Values): (r: Result<Right, Error>)
    ensures r.Failure? <==> !IsSet(values, ValueKey) && !IsSet(values, NameKey)
    ensures r.Failure? ==> r.error == BadMethodCall(MissingRightNameMessage)
    ensures IsSet(values, ValueKey) ==>
      r.Success? && r.value.name == Lookup(values, ValueKey).value
    ensures !IsSet(values, ValueKey) && IsSet(values, NameKey) ==>
      r.Success? && r.value.name == Lookup(values, NameKey).value
    ensures r.Success? && !IsSet(values, MiddlewareNameKey) ==>
      r.value.middlewareName == ForbiddenMiddleware
    ensures r.Success? && IsSet(values, MiddlewareNameKey) ==>
      r.value.middlewareName == Lookup(values, MiddlewareNameKey).value
  {
    var middlewareName := Coalesce(Lookup(values, MiddlewareNameKey), Some(ForbiddenMiddleware)).value;
    if !IsSet(values, ValueKey) && !IsSet(values, NameKey) then
      Failure(BadMethodCall(MissingRightNameMessage))
    else
      var name := Coalesce(Lookup(values, ValueKey), Lookup(values, NameKey)).value;
      Success(Right(name, middlewareName))
  }

  /**
   * `Right::isAllowed`: the rights service's answer for the stored right
   * name, passed on unchanged.
   */
  function IsAllowed(guard: Right, rightsService: string -> bool): (allowed: bool)
    ensures allowed <==> rightsService(guard.name)
  {
    rightsService(guard.name)
  }

  /**
   * `Right::__invoke`: fetches the middleware registered under the stored
   * fallback identifier from the container and returns what it answers
   * when called with the same request, response, continuation and
   * container. `get` stands for `ContainerInterface::get`.
   */
  function Invoke<Req, Resp, C>(
    guard: Right, request: Req, response: Resp, next: Next<Req, Resp>,
    container: C, get: (C, string) -> Handler<Req, Resp, C>): (result: Resp)
    ensures result == get(container, guard.middlewareName)(request, response, next, container)
  {
    var middleware := get(container, guard.middlewareName);
    middleware(request, response, next, container)
  }
}
