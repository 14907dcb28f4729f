# rust-api dispatch core, in Dafny

This project models the request-dispatch core of the Rust web framework
rust-api:

- how an application registers routes, routers, middleware, state and an error
  handler (`RustApi`, `Router`, `Route`);
- how `build_router` turns the registrations into a path → method → endpoint
  table;
- how `handle_request` answers one request: 500 when the router is not built,
  404 when no route matches, 405 with an `Allow` header when the method is not
  registered, 500 when the state is missing, and otherwise the handler run
  inside its middleware chain;
- how the middleware chain (`Next`, `FnMiddleware`, the helpers crate's `When`)
  runs;
- what the request (`Req`) and response (`Res`, `ResBuilder`) wrappers do,
  including the header rules of the `http` crate they rely on;
- the error type, its `Display`, the default, JSON and function error handlers,
  and `IntoRes`;
- the type-keyed request extensions.

Each source file is one Dafny module:

| Dafny file | module | rust-api file |
|---|---|---|
| `error.dfy` | `Errors` | `src/error.rs` |
| `res.dfy` | `Responses` | `src/res.rs` |
| `error_handler.dfy` | `ErrorHandlers` | `src/error_handler.rs` |
| `into_res.dfy` | `IntoResponse` | `src/into_res.rs` |
| `extensions.dfy` | `TypeMap` | `src/extensions.rs` |
| `req.dfy` | `Requests` | `src/req.rs` |
| `middleware.dfy` | `Middleware` | `src/middleware.rs` |
| `helpers.dfy` | `Helpers` | `rust-api-middleware/helpers/src/lib.rs` |
| `route.dfy` | `Routes` | `src/route.rs` |
| `router.dfy` | `Routers` | `src/router.rs` |
| `api.dfy` | `Api` | `src/api.rs` |

Three support modules model the standard library and the `http`/`hyper` crates:
`wrappers.dfy` (Option/Result), `strings.dfy` (decimal formatting, `replace`,
`contains`, `join`, UTF-8) and `http.dfy` (methods, status codes, header names
and values).

Objects that the source changes in place are Dafny classes with `modifies`
clauses: `RustApi`, `Router`, `Route`, `ResBuilder`, `Req` and `Extensions`.
Values that are moved are datatypes: a `Res`, the request handed down the chain,
and a router once it is nested.

The code decides two behaviours that a reader might not expect:

- The 404, 405 and 500 answers of `handle_request` are built with `into_res` on
  an `Error`. `into_res` always uses the default error handler
  (`src/into_res.rs:48-53`). An error handler the application configured is only
  placed in the request's extensions for handlers and middleware to use. It
  does not shape these responses.
- `build_router` drains the registrations into a hash map, so a later
  registration for the same path and method replaces an earlier one.
- The `unwrap` on the `Allow` value (`src/api.rs:376`) never fails. The value
  lists the methods registered at the matched path, and every registration
  binds one of GET, POST, PUT, DELETE and PATCH: `Route::new` is crate-private
  (`src/route.rs:17`) and every public registration method names its verb. The
  `Valid` predicates of `Route`, `Router` and `RustApi` carry this fact from
  registration to the built table, and `HandleRequest` proves the `Allow`
  value valid.

## Model

| member | source | states |
|---|---|---|
| Strings.ParseNatToString | src/error.rs:68-77 | decimal formatting of a code (`{}`) loses nothing: the digits read back as the number |
| Strings.ContainsIffOccurs | src/req.rs:104-108 | `str::contains` finds the needle exactly when it occurs at some position |
| Strings.ListElementsOfJoin | src/api.rs:362-376 | joining list elements with ", " and splitting the header list again gives the same elements, in order |
| Strings.Utf8Ascii | src/res.rs:162-176 | the body bytes of ASCII text are one byte per character, each the character's code |
| Http.ParseHeaderNameCanonical | src/res.rs:298-306 | `HeaderName::from_bytes` accepts exactly the tokens, and its result parses to itself |
| Http.ParseHeaderNameIgnoresCase | src/req.rs:55-57 | two spellings differing only in letter case name the same header |
| Http.LowerNameIs | src/res.rs:298-306 | a header name is stored lower-cased, character by character |
| Http.ContentTypeName | src/res.rs:360-380 | the "Content-Type" the builders write parses to the stored name "content-type" |
| Errors.ConstructorCodes | src/error.rs:32-64 | `bad_request`, `unauthorized`, `forbidden`, `not_found`, `unprocessable`, `internal` (and the 405/413 ones used by the dispatcher and `consume_body`) build a status error with the code their name promises, keeping the message |
| Errors.DisplayStatus | src/error.rs:68-77 | for every `u16` code, a status error displays as "HTTP " and the code's digits, which read back as the code; the text ends there without a message and goes on with ": " and the message with one |
| Errors.DisplayFromString | src/error.rs:101-109 | a string or `&str` converted into an error displays as exactly that text |
| Errors.DisplayForeign | src/error.rs:83-97 | JSON, hyper and IO errors display with their fixed prefix, then their own text |
| Responses.NewIsEmpty | src/res.rs:63-69 | `Res::new` is an empty 200 with no headers and no WebSocket callback, equal to `Res::status(200)` and to a fresh builder's empty `body`; `status_code` reads back the status `status` set, 500 for a code outside 100..999 |
| Responses.JsonOutcome | src/res.rs:196-229 | `Res::json` always carries exactly the JSON Content-Type; on success it is a 200 with the serialised bytes, equal to a fresh builder's `json`; on failure a 500 whose body is the JSON error object naming the failure |
| Responses.StatusFallback | src/res.rs:232-240 | `status` keeps a three-digit code and falls back to 500 otherwise, for `Res` and `ResBuilder` alike, with an empty body and no headers |
| Responses.HeaderInsertion | src/res.rs:298-306 | `header` replaces the value under the lower-cased name, leaves everything else alone, and ignores an invalid name or value |
| Responses.HeaderLastWins | src/res.rs:298-306 | setting a header twice keeps only the second value |
| Responses.BuilderHeaderKeepsStatus | src/res.rs:349-357 | a builder's `header` call leaves its status alone |
| Responses.BuilderHeaderSets | src/res.rs:349-357 | a builder's `header` call with a valid name and value sets it under the canonical name |
| Responses.BuilderContentType | src/res.rs:360-403 | `text` and `html` keep a caller-set Content-Type and add their default otherwise; status and every other header carry over |
| Responses.BuilderJsonOutcome | src/res.rs:406-430 | `json` keeps the status and a caller-set Content-Type and uses the serialised bytes as the body; a failed serialisation is a 500, here and in `Res::json` |
| Responses.BuilderBodyExact | src/res.rs:433-442 | `body` copies status and headers exactly and adds no Content-Type |
| Responses.FreshBuilderMatchesConstructors | src/res.rs:162-193 | a fresh builder's `text` and `html` equal `Res::text` and `Res::html` |
| Responses.WebsocketHandshake | src/res.rs:251-289 | the WebSocket answer is 101 with exactly the upgrade, connection and accept headers, the accept value computed from the key and the GUID |
| Responses.ResBuilder.constructor | src/res.rs:335-340 | `ResBuilder::new`: status 200 and no headers |
| Responses.ResBuilder.Status | src/res.rs:343-346 | the builder's new state is `BuilderStatus` of the old one |
| Responses.ResBuilder.Header | src/res.rs:349-357 | the builder's new state is `BuilderHeader` of the old one |
| Responses.ResBuilder.Text | src/res.rs:360-380 | the response is `BuildText` of the builder |
| Responses.ResBuilder.Html | src/res.rs:383-403 | the response is `BuildHtml` of the builder |
| Responses.ResBuilder.Json | src/res.rs:406-430 | the response is `BuildJson` of the builder, including the 500 fallback |
| Responses.ResBuilder.Body | src/res.rs:433-442 | the response is `BuildBody` of the builder |
| ErrorHandlers.DefaultHandleShape | src/error_handler.rs:46-61 | the default handler answers with the error's code (400 for JSON errors, 500 for the other non-status errors, and 500 for a code outside 100..999); a status error with a message gets the plain-text body "<code> <message>", one without a message an empty body and no headers, and every other error its `Display` text |
| ErrorHandlers.JsonHandleStatus | src/error_handler.rs:69-89 | the JSON handler picks the same status as the default handler |
| ErrorHandlers.JsonHandleHeaders | src/error_handler.rs:69-89 | the JSON handler answers with Content-Type application/json and no other header |
| ErrorHandlers.JsonHandleBody | src/error_handler.rs:69-89 | the JSON body holds the message (or the reason phrase, or the `Display` text) and the code |
| ErrorHandlers.JsonHandlerHeaders | src/error_handler.rs:85-88 | the builder calls of the JSON handler leave exactly the JSON Content-Type header |
| ErrorHandlers.JsonValueValid | src/error_handler.rs:85-88 | "application/json" is a valid header value, so the handler's header call is not ignored |
| ErrorHandlers.JsonDocumentMessage | src/error_handler.rs:69-89 | the message inside the JSON document is recovered exactly by reading its escapes back |
| ErrorHandlers.FnHandlerCalls | src/error_handler.rs:99-101 | a function error handler answers with its function's result |
| ErrorHandlers.StatusTextPhrases | src/error_handler.rs:106-120 | `status_text` gives the source's reason phrase for each of the ten listed codes, and "HTTP <code>" for any other code |
| ErrorHandlers.EscapeJsonIsOnePass | src/error_handler.rs:122-128 | the chain of `replace` calls equals escaping each character once, because backslashes are replaced first |
| ErrorHandlers.UnescapeEscapeJson | src/error_handler.rs:122-128 | escaping is lossless: reading the escapes back gives the original text |
| ErrorHandlers.EscapeJsonShape | src/error_handler.rs:122-128 | no raw newline, carriage return or tab remains; one extra character per escaped character; text without them comes back unchanged |
| ErrorHandlers.EscapeJsonPlain | src/error_handler.rs:122-128 | text holding none of the five escaped characters is unchanged |
| ErrorHandlers.EscapeJsonTestShapes | src/error_handler.rs:135-139 | the unit test's shapes for any plain text: unchanged text, quotes gain a backslash, a newline becomes `\n` |
| ErrorHandlers.EscapeJsonLeavesOtherControls | src/error_handler.rs:122-128 | every control character other than newline, carriage return and tab is left raw |
| IntoResponse.IntoResUnwraps | src/into_res.rs:38-44 | nested `Result`s convert as the value inside, or as the first error through the default handler |
| IntoResponse.IntoResPlainValues | src/into_res.rs:14-35 | `Res` converts to itself; strings to a 200 plain-text response; `()` to an empty 204; `Html` and `&Html` alike to a 200 HTML response |
| IntoResponse.IntoResResult | src/into_res.rs:38-53 | `Ok(v)` converts as `v`; `Err(e)` and a bare error become the default handler's response, with the error's status or 500 |
| TypeMap.InsertedWellTyped | src/extensions.rs:50-55 | inserting keeps every value stored under its own type |
| TypeMap.LookupAfterInsert | src/extensions.rs:50-62 | looking up a type right after inserting a value of it gives that value |
| TypeMap.OtherTypesUnchanged | src/extensions.rs:50-77 | inserting or removing one type leaves every other type's value as it was |
| TypeMap.RemovedAbsent | src/extensions.rs:72-77 | after removal the type is absent and the count drops by one exactly when it was present |
| TypeMap.LookupPresent | src/extensions.rs:58-62 | in a well-typed map a type is found exactly when it is present |
| TypeMap.Extensions.constructor | src/extensions.rs:41-45 | a new map has no entries |
| TypeMap.Extensions.Insert | src/extensions.rs:50-55 | stores the value under its type and returns the previous value of that type, present exactly when the type was present |
| TypeMap.Extensions.Get | src/extensions.rs:58-62 | `get` is the typed lookup |
| TypeMap.Extensions.GetMut | src/extensions.rs:65-69 | a write through `get_mut` replaces the value when the type is present and changes nothing otherwise |
| TypeMap.Extensions.Remove | src/extensions.rs:72-77 | removes the type's value and returns it |
| TypeMap.Extensions.Contains | src/extensions.rs:80-82 | `contains` holds exactly when the type has an entry |
| TypeMap.Extensions.Clear | src/extensions.rs:85-87 | `clear` leaves no entries |
| TypeMap.Extensions.Count | src/extensions.rs:91-95 | the debug count is the number of types present |
| Requests.MentionsJsonIff | src/req.rs:104-108 | `is_json` holds exactly when a Content-Type header is present and contains "application/json" |
| Requests.HeaderLookupCase | src/req.rs:55-57 | header lookup ignores the letter case of the name, and fails for every name that is not a token |
| Requests.ConsumeOutcomeCases | src/req.rs:115-134 | `consume_body` fails with 413 exactly when the size hint's upper bound (or `u64::MAX` without one) exceeds the limit; otherwise it yields the collected bytes or a custom error naming the failure |
| Requests.CachedBodyCases | src/req.rs:80-90 | `body_bytes` returns the cached bytes when there are some, and the fixed error otherwise |
| Requests.Req.FromHyper | src/req.rs:26-32 | a new request has no path parameters and no cached body; its extensions start empty |
| Requests.Req.SetPathParams | src/req.rs:65-67 | the whole parameter map is replaced |
| Requests.Req.Params | src/req.rs:75-77 | the parameter map holds exactly the names `param` finds, with the values it returns |
| Requests.Req.Param | src/req.rs:70-72 | a parameter is found exactly when it was captured, with its captured value |
| Requests.Req.ConsumeBody | src/req.rs:115-134 | on success the collected bytes are cached; on an error the error is returned and the cache is unchanged |
| Middleware.Invoke | src/middleware.rs:24-38 | every run of a chain logs middleware entries only before the last event, so the handler, if it ran, ran last |
| Middleware.RunUsesCapturedState | src/middleware.rs:27-38 | `Next::run` passes the request unchanged, with the state captured when the `Next` was made |
| Middleware.FnMiddlewareHandle | src/middleware.rs:51-53 | a function middleware that answers stops the chain; one that passes on runs the rest exactly once, on the request it produced |
| Middleware.FromFn | src/middleware.rs:67-74 | `from_fn` wraps the function as it is |
| Middleware.MiddlewareFn | src/middleware.rs:77-84 | `middleware` is `from_fn` |
| Middleware.EmptyChainCallsHandler | src/api.rs:319-320 | with no middleware the handler is called once, with the request and the state |
| Middleware.ForwardOrder | src/api.rs:322-357 | when every middleware passes the request on, each runs once, in registration order, then the handler runs on the request as passed down; the response is the handler's, transformed by each middleware on the way out, the innermost first |
| Middleware.ShortCircuit | src/api.rs:322-357 | a middleware that answers by itself stops the chain: the ones before it ran in order, the ones after it and the handler never run |
| Helpers.WhenNew | rust-api-middleware/helpers/src/lib.rs:42-48 | `When::new` stores the middleware and the condition |
| Helpers.WhenHandle | rust-api-middleware/helpers/src/lib.rs:58-64 | when the condition holds, `When` behaves as the wrapped middleware; otherwise it is transparent and the rest of the chain runs |
| Helpers.HandleCongruence | rust-api-middleware/helpers/src/lib.rs:58-64 | a middleware treats two continuations with the same behaviour alike |
| Helpers.NeverWhenRemovable | rust-api-middleware/helpers/src/lib.rs:58-64 | a `When` whose condition never holds can be removed from a chain without changing the response or the stages that run |
| Routes.Route.New | src/route.rs:17-24 | the given method, path and handler, and no middleware |
| Routes.Route.Get | src/route.rs:36-41 | a GET route with no middleware |
| Routes.Route.Post | src/route.rs:44-49 | a POST route with no middleware |
| Routes.Route.Put | src/route.rs:52-57 | a PUT route with no middleware |
| Routes.Route.Delete | src/route.rs:60-65 | a DELETE route with no middleware |
| Routes.Route.Patch | src/route.rs:68-73 | a PATCH route with no middleware |
| Routes.Route.Layer | src/route.rs:29-33 | the middleware is appended at the end; method, path and handler do not change |
| Routers.FlattenWithShared | src/router.rs:105-163 | the loops produce `Flat`: own routes first, then each nested router's routes in nesting order |
| Routers.OwnFlat | src/router.rs:132-145 | one flattened route per own route |
| Routers.CombinedIsConcat | src/router.rs:119-130 | whichever branch is taken, the combined middleware is the parent's followed by the router's own |
| Routers.JoinPathIsConcat | src/router.rs:133-137 | joining a prefix and a path is plain concatenation, with no slash added or removed |
| Routers.OwnRoutesFirst | src/router.rs:132-145 | the i-th flattened route is the i-th own route under the prefix, with the inherited and own middleware |
| Routers.FlatVerbs | src/router.rs:105-163 | flattening keeps the methods: a tree whose routes all have one of the five verbs flattens to routes that all do |
| Routers.FlatUnderPrefix | src/router.rs:105-163 | every flattened route's path starts with the prefix and its middleware starts with the inherited and own middleware |
| Routers.FlatIsPreorder | src/router.rs:105-163 | the flattened methods and handlers are the router tree's preorder |
| Routers.DeepRoute | src/router.rs:105-163 | a route of a router nested at any depth is flattened with every prefix on the way concatenated and every router's middleware on the way, root first |
| Routers.Router.WithCapacity | src/router.rs:21-27 | an empty router; the capacities only reserve memory |
| Routers.Router.New | src/router.rs:30-32 | an empty router |
| Routers.Router.Get | src/router.rs:35-41 | a GET route is appended; middleware and nesting are unchanged |
| Routers.Router.Post | src/router.rs:44-50 | a POST route is appended; middleware and nesting are unchanged |
| Routers.Router.Put | src/router.rs:53-59 | a PUT route is appended; middleware and nesting are unchanged |
| Routers.Router.Delete | src/router.rs:62-68 | a DELETE route is appended; middleware and nesting are unchanged |
| Routers.Router.Patch | src/router.rs:71-77 | a PATCH route is appended; middleware and nesting are unchanged |
| Routers.Router.Layer | src/router.rs:82-84 | the middleware is appended; routes and nesting are unchanged |
| Routers.Router.Nest | src/router.rs:89-91 | the nested router's value at this moment is appended with its prefix; the tree keeps only verb-bound routes |
| Routers.Router.RouteCount | src/router.rs:94-96 | the number of own routes, nested routers not included |
| Routers.Router.Flatten | src/router.rs:98-103 | the router flattened from the top, with no inherited middleware |
| Api.CombineGlobalIsConcat | src/api.rs:169-179 | whichever branch is taken, the global middleware comes first and the route's own after it |
| Api.TableOfNonEmpty | src/api.rs:181-184 | every path in the table has at least one method, so a 405 always lists some |
| Api.RegisterLookup | src/api.rs:181-184 | one registration sets its own path and method slot and leaves every other slot as it was |
| Api.TableOfPaths | src/api.rs:162-193 | the table has a path exactly when some route was registered at it |
| Api.TableOfMethods | src/api.rs:162-193 | the table has a method under a path exactly when some route was registered for both |
| Api.TableOfLast | src/api.rs:162-193 | the last registration for a path and method is the one the table keeps, with the global middleware before its own |
| Api.TableOfEntry | src/api.rs:162-193 | every slot is the last registration for its path and method, and its middleware starts with the global middleware |
| Api.At | src/api.rs:294-300 | a match names a registered pattern and is the matcher's |
| Api.Decide | src/api.rs:293-317 | a dispatch is to the endpoint registered under the matched pattern for the request's method, with the configured state; a wrong method is not among the allowed ones |
| Api.AllowName | src/api.rs:376 | the header name "Allow" is stored as "allow" |
| Api.AllowValue | src/api.rs:362-376 | for standard methods and extension tokens the Allow value is a valid header value, so the `unwrap` holds, and it reads back as the method names in order |
| Api.NotAllowedShape | src/api.rs:360-379 | the 405 answer has status 405, the default handler's text body naming the method and the allowed ones, and exactly the Content-Type and Allow headers |
| Api.DispatchedExtensions | src/api.rs:296-304 | the handler finds the configured error handler in the request's extensions exactly when one is configured, and nothing else the dispatcher put there |
| Api.FixedErrorResponses | src/api.rs:310-390 | the "Router not initialized" 500, the "Route not found" 404 and the "State not initialized" 500 are the default handler's, whatever error handler is configured |
| Api.ExactDecide | src/api.rs:162-193 | for parameterless paths: no route exactly when nothing is registered at the path; 405 exactly when the path has routes but none for the method, allowing exactly the path's methods; dispatch exactly otherwise, to the last matching registration |
| Api.ComposeChain | src/api.rs:322-357 | the chain built from the last middleware to the first is the fold with the first middleware outermost |
| Api.RunEndpoint | src/api.rs:319-357 | the direct call without middleware and the composed chain give the chain's response |
| Api.MethodOrder | src/api.rs:362-366 | the allowed methods are listed once each, in some order |
| Api.AnswerMatched | src/api.rs:306-379 | after a match: 405 listing the path's methods with a valid Allow value, 500 without state, or the endpoint's chain response |
| Api.RustApi.New | src/api.rs:41-49 | unit state, nothing registered, no table, no error handler |
| Api.RustApi.WithState | src/api.rs:54-62 | the given state, nothing registered |
| Api.RustApi.Default | src/api.rs:401-409 | no state at all, nothing registered |
| Api.RustApi.UseErrorHandler | src/api.rs:65-68 | the handler replaces any earlier one; nothing else changes |
| Api.RustApi.Layer | src/api.rs:71-74 | global middleware is appended; nothing else changes |
| Api.RustApi.Add | src/api.rs:77-144 | a route with no middleware of its own is appended |
| Api.RustApi.Get | src/api.rs:77-88 | a GET route with no middleware of its own is appended |
| Api.RustApi.Post | src/api.rs:91-102 | a POST route is appended |
| Api.RustApi.Put | src/api.rs:105-116 | a PUT route is appended |
| Api.RustApi.Delete | src/api.rs:119-130 | a DELETE route is appended |
| Api.RustApi.Patch | src/api.rs:133-144 | a PATCH route is appended |
| Api.RustApi.Route | src/api.rs:147-151 | a route is appended with its own middleware |
| Api.RustApi.Nest | src/api.rs:154-160 | the router's flattened routes under the prefix are appended, in order |
| Api.RustApi.BuildRouter | src/api.rs:162-193 | the registrations are drained in order into the table `TableOf`, under the global middleware; every method in the table is one of the five verbs, as every registration was |
| Api.RustApi.Prepare | src/api.rs:296-304 | the matched request carries the path parameters and the configured error handler |
| Api.RustApi.HandleRequest | src/api.rs:285-394 | the response is the one `Decide` and `ResponseFor` describe; a wrong method gets the 405 listing the path's methods, whose Allow value is a valid header value |

## Left out

- `listen` and the graceful shutdown (src/api.rs:223-283 and later): sockets, the runtime and signals are I/O.
- The `matchit` router is a parameter (`Matcher`): any function from the registered patterns and a path to a match. `At` only trusts a match that names a registered pattern. The errors that `.ok()` drops when a pattern is inserted are not modelled. `ExactDecide` uses a matcher for paths without parameters.
- Api.MethodOrder: the order in which the method map yields its keys is unspecified in the source, so the model only says that each allowed method is listed once.
- Streaming bodies, `file`, `into_hyper`, and the SHA-1 and base64 of the WebSocket accept key: `Websocket` takes the accept function as a parameter.
- JSON (de)serialisation with serde: its outcome is a parameter, a byte sequence or an error text.
- The `Handler`/`IntoHandler` traits and extractor plumbing. A handler is a function from the request value and the state to a `Res`.
- The demo programs under rust-api's examples/ are not modelled: they do socket and file I/O, and several target another crate.
- `method_not_allowed` and `payload_too_large` are not in src/error.rs. The model gives them as `Status` errors with codes 405 and 413, as the dispatcher and `consume_body` use them.
- `Res` is a value. The source owns it and moves it, so nothing aliases it.
- A middleware function is modelled by its behaviour: answer by itself, or pass a request on and transform the response that comes back. `When` is a variant of the middleware datatype, not a generic wrapper.
- Routers.FlattenWithShared: the `base_prefix` argument is carried but, as in the source, not used.
- TypeMap.Extensions.GetMut: the mutable reference is modelled as one write through it.
- Requests: `Req` in src/req.rs has no extensions field; the `extensions_mut` that `handle_request` calls is not part of this model. The model gives `Req` its own `Extensions` object.
- Requests.Req.FromHyper: a request arrives with no extensions. Whatever hyper itself inserts into a request's extensions (for instance on upgrade requests) is not modelled, so Api.DispatchedExtensions speaks only of what the dispatcher inserts.
- The handler receives the request value (`Request`). The incoming body stays with `Req`, so `consume_body` is modelled on `Req` and not inside a handler.
- `ResponseFor` describes a dispatch as the chain's outcome. `RunEndpoint` proves that the direct call taken without middleware gives the same response.
- Timeouts, logging and the `Debug` output other than the extension count.
