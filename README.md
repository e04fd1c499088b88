# Right guard

A Dafny model of the `Right` guard of the Mouf security package
(`Mouf\Security\Right`). A guard is declared on a route or action with an
options map such as `@Right(name="Admin", middlewareName="myMiddleware")`.
Its constructor validates the options and keeps two things: the name of the
right to check and the container identifier of a fallback middleware.
After construction the guard offers two operations:

- `isAllowed(rightsService)`: a yes/no answer, delegated to the rights service
  for the stored right name;
- `__invoke(request, response, next, container)`: interception in a
  middleware chain. It fetches the fallback middleware from the container and
  returns whatever that middleware answers for the same four arguments. It
  makes no right check of its own.

Files:

- `wrappers.dfy`: module `Wrappers`, the `Option` and `Result` datatypes.
- `right.dfy`: module `Security`. It holds the guard as the immutable datatype
  `Right`, the constructor as `Construct`, and the two operations as
  `IsAllowed` and `Invoke`.
- `right_properties.dfy`: module `RightProperties`, lemmas that relate
  several constructions or calls.

Modelling choices:

- The options map is a `map<string, Option<string>>`, and `None` stands for
  PHP `null`. `Lookup` reads a key the way `isset` and `??` do: a missing key
  and a key mapped to `null` both read as `None`. `Coalesce` is the `??`
  operator.
- `ForbiddenMiddleware::class` is the string `Mouf\Security\ForbiddenMiddleware`.
- The exception is `BadMethodCall(message)` with the source's message text.
- The guard's fields are protected and written only by the constructor. The
  model makes the guard a datatype value, and no operation returns a new
  guard, so neither `IsAllowed` nor `Invoke` can change `name` or
  `middlewareName`.
- The rights service is a function `string -> bool`.
- The container is an opaque state `C` with a lookup function
  `get: (C, string) -> Handler`. A handler takes a request, a response, a
  continuation `next: (Req, Resp) -> Resp` and the container, and returns a
  response. Requests and responses are type parameters.
- The constructor accepts an empty right name: `isset` (src/Right.php:53) is
  true for `""`, and the code makes no other check.

## Model

| member | source | states |
|---|---|---|
| `Security.Construct` | src/Right.php:50-57 | Construction fails with `BadMethodCallException` and its message exactly when neither `value` nor `name` is set to a non-null value. When `value` is set it is the right name, whatever `name` holds. Otherwise `name` is the right name. The fallback is `ForbiddenMiddleware::class` when `middlewareName` is missing or null, and the supplied string verbatim otherwise. |
| `Security.IsAllowed` | src/Right.php:81-84 | The answer is the rights service's answer for the stored right name, with no negation and no other logic. |
| `Security.Invoke` | src/Right.php:67-74 | The result is the answer of the middleware that the container returns for the stored fallback identifier, called with the same request, response, continuation and container. |
| `RightProperties.OnlyRecognisedKeysMatter` | src/Right.php:52-56 | Two option maps that agree on `value`, `name` and `middlewareName` give the same guard, or the same failure; every other key is ignored. |
| `RightProperties.NullIsUnset` | src/Right.php:52-56 | A key mapped to `null` has the same effect as a missing key. |
| `RightProperties.AliasesAgree` | src/Right.php:53-56 | Giving the right under `name` or under `value` builds the same guard. |
| `RightProperties.ValueTakesPrecedence` | src/Right.php:56 | When `value` is set, construction succeeds and the right name is `value`, whatever `name` holds, null and missing included. |
| `RightProperties.AnyRightNameAccepted` | src/Right.php:52-56 | Any string, the empty one included, is accepted as the right name under either key, and the fallback is then `ForbiddenMiddleware::class`. |
| `RightProperties.EveryGuardConstructible` | src/Right.php:50-57 | Every pair of right name and fallback identifier is built by some options map. |
| `RightProperties.IsAllowedAsksConfiguredRight` | src/Right.php:56-83 | For a successfully built guard, the rights service is asked about `value ?? name` of the options. |
| `RightProperties.IsAllowedWithSingleRightService` | src/Right.php:81-84 | A rights service that grants exactly one right allows a guard exactly when the guard names that right. |
| `RightProperties.IsAllowedIgnoresMiddleware` | src/Right.php:81-84 | The boolean check does not depend on the fallback identifier. |
| `RightProperties.InvokeIgnoresRightName` | src/Right.php:67-74 | Interception does not depend on the right name, so it makes no right check of its own. |
| `RightProperties.InvokeResolvesStoredIdentifier` | src/Right.php:69 | Two lookup functions that give the same middleware for the stored fallback identifier, over the same container, give the same result. |
| `RightProperties.PassThroughIsTransparent` | src/Right.php:67-74 | With a middleware that always continues the chain, interception answers what `next` answers for the original request and response. |
| `RightProperties.DenialShortCircuits` | src/Right.php:67-74 | With a middleware that answers a denial without continuing, interception returns that denial verbatim, and the result is the same whatever continuation it was given. |

## Left out

- The annotation and reflection machinery (the `@Annotation` and `@Attributes` docblock) belongs to an external annotation parser. The model takes the options map that parser would produce.
- Option values other than strings and `null` (PHP arrays may hold numbers or arrays) are not modelled; the right name and the fallback identifier are strings.
- Failures of `ContainerInterface::get` for an unknown identifier, and exceptions thrown by the middleware or by `next`, are not modelled. The container lookup and the middleware are total functions here. The guard catches nothing, so such failures would reach its caller unchanged.
- The behaviour of the resolved middleware, of `next`, and of request and response contents: they are opaque type parameters and functions that the guard only forwards.
- How a rights service decides a right from session state is external. It is a function `string -> bool` here.
- The constructor assigns `middlewareName` before it may throw. That assignment cannot be observed, because no object is produced on failure.
- The `RightAnnotationInterface` the class implements is not part of this model; only the three members of `Right` are.
