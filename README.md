# Phinch route collections and micro application, in Dafny

Phinch is a PHP micro framework layered over Phalcon. It groups request handlers into
route collections and runs PSR-15 middlewares around each route. This project models
the parts of it whose behaviour is stated:

- **`Router`** (`Router.dfy`) models `Phinch\Router\Collection`. It is a mutable
  registration table holding a prefix, a main handler with its lazy flag, and a table.
  The table maps an HTTP method to a bucket, and the bucket maps a route pattern to the
  ordered list of handlers given at registration. A method-agnostic `map` route is stored
  in the same table, directly under its pattern, which is the shape the collection tests
  expect. The class `Collection` changes its fields in place. The functions `Insert`
  (one registration) and `InsertAll` (one registration per listed method) specify the
  table, and `Lookup`/`LookupAny` read it. Their contracts state the put/get law: a
  registration makes its (method, pattern) hold exactly the given list and leaves every
  other registration as it was. `Split` reads a registered list as the application's
  class comment does (src/Application/Micro.php:48-54): every element but the last is a
  middleware, and the last is the route handler proper, whatever its kind. This is a
  chosen reading. The collection's comment (src/Router/Collection.php:74-80) calls a
  final string the controller action and lets a list of only middlewares and closures
  "compose the route"; the model does not distinguish the two.
- **`Pipeline`** (`Pipeline.dfy`) models the documented order of a request-response
  cycle as a pure trace. Middlewares nest PSR-15 style (`Nest`): application,
  collection and route middlewares see the request in that order, then the route
  handler runs, then the middlewares see the response from the innermost out, and the
  finish handlers come last.
- **`Application`** (`Application.dfy`) models `Phinch\Application\Micro` together with
  the state it inherits from `AbstractApplication`. This covers the finish, not-found,
  error, active and response handler registers, the stop flag, the bound models, the
  guards of `mount` with its lazy or eager wrapping of the main handler, and the HEAD
  step of `handle`, which clears the response body.
- **`Scenarios`** (`Scenarios.dfy`) replays the collection tests and the mount guards
  as client code, using only the contracts above.

Handlers and middlewares are opaque values (`Handlers.Handler`). A callable is known
only by an identifier, and a string names an action method of the main handler.

Where the PHP has evident slips, the model follows the intent that its doc-comments and
tests state:
- The constructor is spelled `__constructor` (src/Router/Collection.php:53), so PHP
  never runs it. The model runs it.
- Some names are used bare, without `$` or `$this->`: `routePattern`, `lazy` and
  `prefix` (src/Router/Collection.php:87, :231, :243), and `mainHandler`
  (src/Application/Micro.php:178).
- The lazy flag is declared as `$isLazy` but read and written as `$this->lazy`, and
  `setHandler` assigns the undefined `$lazy` (src/Router/Collection.php:36, :158, :218).
  The model has one field, `isLazy`.
- `stop()` writes `$this->stopped`, but the declared field is `$stop`
  (src/Application/AbstractApplication.php:75, :423). The model has one field,
  `stopped`.
- `error()` assigns an undefined `$handler`, and its parameter is `$handle`
  (src/Application/AbstractApplication.php:91-92). The model installs the given
  handler.
- `head`, `map`, `options`, `patch`, `post` and `put` declare no parameters and only
  return `$this` (src/Router/Collection.php:146-149, :161-206). `mapVia` also only
  returns `$this` (src/Router/Collection.php:185), and `addMap` has an empty body. The
  model gives them the behaviour the tests pin down.
- `getHandlers(): array` returns the `Ds\Map` object, which is not an array
  (src/Router/Collection.php:126-128). PHP would raise a TypeError. The model returns
  the table.
- `addMap` receives the variadic array as one element (src/Router/Collection.php:107,
  :258-262). The model stores the list itself.

Modelling choices:
- **Re-registration replaces.** Registering the same (method, pattern) again replaces
  the earlier list, because the table is keyed (`ReRegisterReplaces`).
- **Empty handler lists are accepted.** No registration method in the code checks for
  an empty list, so an empty list is stored. `Split` reports that such a list has no
  route handler, and `RouteCycle` gives it no cycle.
- **A `map` route shares keys with method buckets.** A `map` route is stored under its
  pattern in the same table as the method buckets. A `map` whose pattern equals a
  method token (`map("GET", …)`) would therefore replace that method's bucket, and a
  later `get` replaces such a route with a fresh bucket. `Insert`'s contract states both
  cases.
- **A new collection has the prefix `""`.** PHP would leave the prefix null, and
  `getPrefix(): string` would then raise a TypeError.

## Model

| member | source | states |
|---|---|---|
| `Router.Insert` | src/Router/Collection.php:247-265 | after one registration the (method, pattern) holds exactly the given list (for `map`, the pattern key holds it); every other (method, pattern) and every other `map` route reads as before; the key set grows by that one key |
| `Router.InsertAll` | src/Router/Collection.php:166-186 | after registering one list under each listed method, every listed method holds that identical list for the pattern; registrations under other methods or patterns, and `map` routes under other keys, are unchanged; the keys are the old keys plus the methods |
| `Router.ReRegisterReplaces` | src/Router/Collection.php:44-45 | registering the same (method, pattern) twice gives the same table as registering only the second list: the last registration wins |
| `Router.Split` | src/Router/Collection.php:74-80 | a non-empty registered list splits into its middlewares (in definition order) followed by the route handler, and re-joining them gives back the list; an empty list has no route handler |
| `Router.Collection.constructor` | src/Router/Collection.php:53-58 | a new collection has no main handler, is not lazy, has an empty prefix and an empty handler table |
| `Router.Collection.AddMap` | src/Router/Collection.php:247-265 | the table becomes `Insert` of the old table, and nothing but the table changes |
| `Router.Collection.Delete` | src/Router/Collection.php:71-89 | `table["DELETE"][pattern]` now holds the given list, the rest of the table is as `Insert` says, and the collection itself is returned |
| `Router.Collection.Get` | src/Router/Collection.php:91-109 | `table["GET"][pattern]` now holds the given list, the rest of the table is as `Insert` says, and the collection itself is returned |
| `Router.Collection.Head` | src/Router/Collection.php:141-149 | `table["HEAD"][pattern]` now holds the given list (the behaviour tests/Router/CollectionTest.php:129-160 expects), and the collection itself is returned |
| `Router.Collection.Options` | src/Router/Collection.php:188-191 | `table["OPTIONS"][pattern]` now holds the given list, and the collection itself is returned |
| `Router.Collection.Patch` | src/Router/Collection.php:193-196 | `table["PATCH"][pattern]` now holds the given list, and the collection itself is returned |
| `Router.Collection.Post` | src/Router/Collection.php:198-201 | `table["POST"][pattern]` now holds the given list, and the collection itself is returned |
| `Router.Collection.Put` | src/Router/Collection.php:203-206 | `table["PUT"][pattern]` now holds the given list, and the collection itself is returned |
| `Router.Collection.Map` | src/Router/Collection.php:161-164 | the given list is stored directly under the pattern key, not in a method bucket (the shape tests/Router/CollectionTest.php:167-196 expects) |
| `Router.Collection.MapVia` | src/Router/Collection.php:166-186 | the table becomes `InsertAll` of the old table over the listed methods, so every listed method holds the identical list for the pattern |
| `Router.Collection.GetHandler` | src/Router/Collection.php:111-119 | returns the main handler currently set |
| `Router.Collection.GetHandlers` | src/Router/Collection.php:121-129 | returns the handler table currently held |
| `Router.Collection.GetPrefix` | src/Router/Collection.php:131-139 | returns the prefix currently set |
| `Router.Collection.IsLazy` | src/Router/Collection.php:151-159 | returns the lazy flag currently set |
| `Router.Collection.SetHandler` | src/Router/Collection.php:208-221 | the main handler becomes `h` and the lazy flag becomes the given value, false when omitted; prefix and table are untouched |
| `Router.Collection.SetLazy` | src/Router/Collection.php:223-233 | the lazy flag becomes the given value; main handler, prefix and table are untouched |
| `Router.Collection.SetPrefix` | src/Router/Collection.php:235-245 | the prefix becomes the given string, replacing any earlier one; nothing else changes |
| `Pipeline.Nest` | src/Application/Micro.php:38-46 | a chain of n nested middlewares around a handler has 2n+1 steps; the first n are the middlewares seeing the request in definition order, and the handler runs at position n |
| `Pipeline.RequestPhase` | src/Application/Micro.php:39-41 | step i of the request phase is middleware i seeing the request: definition order |
| `Pipeline.ResponsePhase` | src/Application/Micro.php:43-45 | step i of the response phase is middleware n-1-i seeing the response: reverse definition order |
| `Pipeline.FinishPhase` | src/Application/Micro.php:46 | step i of the finish phase is finish handler i, in the order the handlers were added |
| `Pipeline.Cycle` | src/Application/Micro.php:38-46 | a full cycle has 2n+1 steps for n application, collection and route middlewares, plus one step per finish handler; the handler runs at position n, and the finish handlers come last, in the order they were added |
| `Pipeline.RouteCycle` | src/Application/Micro.php:48-54 | a registered list has a cycle iff it is non-empty; for a list of n elements (n-1 route middlewares and the handler) and m application and collection middlewares, the cycle has 2(m+n)-1 steps plus one per finish handler, and the list's final element is the handler invoked, at position m+n-1 |
| `Pipeline.NestIsPhases` | src/Application/Micro.php:38-46 | nesting equals the request phase, then the handler, then the response phase |
| `Pipeline.RequestPhaseAppend` | src/Application/Micro.php:39-41 | the request phase of outer then inner middlewares is the outer ones' phase followed by the inner ones' |
| `Pipeline.ResponsePhaseAppend` | src/Application/Micro.php:43-45 | the response phase of outer then inner middlewares is the inner ones' phase followed by the outer ones' |
| `Pipeline.DocumentedOrder` | src/Application/Micro.php:38-46 | a cycle is exactly: application, collection and route middlewares on the request; the handler; route, collection and application middlewares on the response; the finish handlers |
| `Pipeline.NestResponseSteps` | src/Application/Micro.php:43-45 | in a nest of n middlewares, every step after the handler is a middleware seeing the response |
| `Pipeline.HandlerRunsOnce` | src/Application/Micro.php:38-46 | in a cycle the handler is the single step between the request steps and the response steps, and only finish steps follow the response steps |
| `Pipeline.RouteMiddlewaresInOrder` | src/Application/Micro.php:48-54 | route middlewares see the request in definition order, right after the application and collection middlewares, and the handler runs next |
| `Pipeline.RegisteredOrder` | src/Application/Micro.php:48-54 | of a non-empty registered list, the final element is the handler that runs, after the other elements have seen the request in definition order |
| `Pipeline.FinishAppend` | src/Application/AbstractApplication.php:102-106 | a finish handler added last runs last, after the ones added before it, whose order is kept |
| `Application.MountError.Message` | src/Application/Micro.php:165-175 | the missing-main-handler refusal carries exactly "Collection requires a main handler", and the empty-table refusal exactly "Collection has no handlers to mount" |
| `Application.Micro.constructor` | src/Application/AbstractApplication.php:33-75 | a new application has empty handler lists, no error, not-found, active or response handler, no model binder, and is not stopped |
| `Application.Micro.Error` | src/Application/AbstractApplication.php:85-94 | the error handler becomes `h`, and the application itself is returned |
| `Application.Micro.Finish` | src/Application/AbstractApplication.php:96-106 | `h` is appended at the end of the finish handlers, and earlier entries keep their order |
| `Application.Micro.GetActiveHandler` | src/Application/AbstractApplication.php:108-117 | returns the active handler last set |
| `Application.Micro.GetBoundModels` | src/Application/AbstractApplication.php:119-133 | with no model binder the result is empty; otherwise it is what the binder reports |
| `Application.Micro.NotFound` | src/Application/AbstractApplication.php:274-284 | the not-found handler becomes `h`, and the application itself is returned |
| `Application.Micro.SetActiveHandler` | src/Application/AbstractApplication.php:353-363 | the active handler becomes `h`, so `GetActiveHandler` returns it |
| `Application.Micro.SetResponseHandler` | src/Application/AbstractApplication.php:403-414 | the response handler becomes `h`, and the application itself is returned |
| `Application.Micro.Stop` | src/Application/AbstractApplication.php:416-424 | afterwards the stop flag is raised, whatever it was before, so a second call changes nothing |
| `Application.Micro.Mount` | src/Application/Micro.php:150-190 | mounting succeeds iff the collection has a main handler and a non-empty table; with no main handler the error is "Collection requires a main handler" (even when the table is empty too); with an empty table it is "Collection has no handlers to mount"; on success it yields this application, the collection's prefix and table, and the main handler wrapped in a lazy loader exactly when the collection is lazy; nothing is modified |
| `Application.Micro.Handle` | src/Application/Micro.php:102-124 | the same response is returned; a HEAD request leaves it with null content, any other request leaves its content as it was; status and headers are never touched |
| `Scenarios.Fixture` | tests/Router/CollectionTest.php:23-28 | the test fixture: prefix `/foo`, main handler `MyApp\Controller`, not lazy, empty table |

## Left out

- Application.Micro.Handle: models only the HEAD step. The dispatch before it calls an undefined `middlewareDispatcher` on an undefined `$request`, so the response the chain produces is a parameter.
- Application.Micro.GetActiveHandler: returns an optional value. PHP's `callable` return type would raise a TypeError when no handler is set.
- Application.Micro.GetBoundModels: the model binder is a foreign Phalcon object. It is modelled only by the list of models it reports.
- Application.Micro.Mount: the collection's routes are not added to the application, because the source leaves that step empty. `LazyLoader` is a Phalcon class and appears only as a wrapper.
- Pipeline.Nest: the trace assumes every middleware passes the request on exactly once. Short-circuiting is not modelled, because no code in the core reads the stop flag.
- Router.Collection.GetHandlers: returns the table as a value. PHP's `Ds\Map` keeps insertion order, and `getHandlers()` hands out the live object, so a caller's `clear()` empties the collection's own table (then `mount` refuses it). The model keeps neither the order nor this aliasing.
- Router.Collection.SetHandler: takes a handler value, so `setHandler(null)` (the parameter is `mixed`) cannot be expressed. A collection's main handler is null only before it is first set.
- Application.Response: stands in for Phalcon's response object. Only `setContent` is modelled; status and headers are carried so that the HEAD step can be shown to leave them alone.
- Application.Micro: `beforeHandlers` and `afterHandlers` are only initialised, because no code in the core appends to them. They are not tied to the `app` middlewares of `Pipeline.Cycle`, which stand for whatever the application would run.
- Dependency-injection access (`getService`, `getSharedService`, `hasService`, the `offset*` array access, `setDI`) and src/Di/FactoryDefault.php: these are thin wrappers over the Phalcon container, whose semantics are not part of this model.
- `getRouter`, the events manager accessors, `setModelBinder`, `afterBinding`, `getHandlers`/`getReturnedValue` of the application: these are foreign Phalcon calls or plain accessors of fields nothing in the core writes.
- `Micro.run`: it reads `$_SERVER` and sends headers and body (I/O).
- `Micro.get`/`head`/`map`/`options`/`patch`/`post`/`put`: these are empty stubs, and some of them do not even return.
- `Collection.addMiddleware` and the collection's middleware stack: the body is commented out, so the stack is never written.
- src/Router/Route.php (empty methods, an id from `uniqid`), src/Router.php (an empty class), src/Config/Adapter/Dotenv.php (file I/O) and example/public/index.php (a bootstrap script) are not part of this model.
- Matching a request path against a pattern: there is no code for it, because it is delegated to Phalcon's router.
- Exceptions are the `MountError` datatype. Concurrency does not arise, because the code has none.
