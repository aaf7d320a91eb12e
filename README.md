# Kallisto request dispatch, routing and response helpers in Dafny

This project models the core of Kallisto, a small Go web framework. At its
heart is the per-request middleware dispatch of `Context.Next`. A context
holds a middleware index, which starts at -1, and a phase flag `doneBefore`.
Each `Next` call takes one step and then calls `Next` again. A step runs the
next before-middleware; or it runs the controller, sets the flag and resets
the index to -1; or it runs the next after-middleware. When no step applies,
the call returns. Middlewares and controllers are opaque. Running one is
modelled as appending an `Event` to the context's trace.

Around the dispatch sit the framework's bookkeeping parts:

- the `Route` record and its chain setters;
- the `Router`, which turns registrations into routes, composes groups and
  installs the not-found and panic hooks;
- the `Kallisto` application, with its route registry, its
  application-scoped store and its service registry;
- the `Response` helpers, which write a header and a body.

Files and modules:

- `chains.dfy` (`Chains`): handler identities, trace events and stored values.
  It also holds the map lookup that yields `Nil` (Go's nil) for an absent key.
- `dispatch.dfy` (`Dispatch`): the dispatch state machine as functions
  (`Decide`, `Advance`, `Run`) and the lemmas about it.
- `context.dfy` (`Contexts`): class `Context`. Its recursive `Next` is proved
  to run exactly the handlers that `Dispatch.Run` lists.
- `route.dfy` (`Routes`): class `Route`.
- `response.dfy` (`Responses`): class `Response`. The writer is modelled by
  its header map, body and status. Renderer calls are recorded.
- `paths.dfy` (`Paths`): a simplified `path.Join`.
- `pathrouter.dfy` (`PathRouter`): a recording stand-in for the external
  httprouter. It keeps one entry per registration and the not-found and
  panic hooks.
- `app.dfy` (`App`, `Scenarios`): classes `Router` and `Kallisto`, the
  request handles the router installs, and two end-to-end scenarios taken
  from the framework's tests. A router points at its application and the
  application embeds its root router, so both classes share one module.

The main result is `Dispatch.RunFromFresh`. From a fresh context, one `Next`
runs `Before[0..n-1]`, then the controller once, then `After[0..m-1]`, and
ends with `doneBefore` set and the index at `|After| - 1`.
`Dispatch.NextAfterDoneIsNoop` adds that further `Next` calls do nothing.
`Contexts.Context.Next` connects the imperative method to these functions.

Two points where the code is easy to misread, and where the model follows
the code. First, a group's middlewares run after the parent router's
middlewares (router.go:144), not ahead of them. Second, `HTML` writes into
`r.ctx.Data` (response.go:48), a field that does not appear in the files
modelled. The model merges into the context's request-scoped store
(context.go:50), which is the only store a context has.

## Model

| member | source | states |
|---|---|---|
| `Dispatch.Int8` | context.go:72 | Go's int8 conversion: the result is in [-128, 127], equals the input when the input fits, and is congruent to it modulo 256 |
| `Dispatch.Advance` | context.go:72-86 | one step keeps the index in [-1, \|chain\| - 1] of the current phase; the phase flag never goes back; within a phase the index never decreases; the controller step resets the cursor to (-1, after phase) |
| `Dispatch.StayIffDone` | context.go:72-87 | for an in-range cursor, no branch of Next applies exactly when the after phase is at index \|After\| - 1 |
| `Dispatch.Run` | context.go:71-88 | a full Next (step, then recurse) always ends in the Done state: doneBefore set and index \|After\| - 1 |
| `Dispatch.RunInAfterPhase` | context.go:83-86 | in the after phase at index i, Next runs `After[i+1..]` in order |
| `Dispatch.RunInBeforePhase` | context.go:72-86 | in the before phase at index i, Next runs `Before[i+1..]`, then the controller, then all of `After`, in order |
| `Dispatch.RunFromFresh` | context.go:71-88 | from a fresh context, one Next runs `Before[0..n-1]`, the controller, then `After[0..m-1]`, and ends with doneBefore set and index \|After\| - 1 |
| `Dispatch.ControllerRunsOnce` | context.go:76-80 | a dispatch from a fresh context runs the controller exactly once |
| `Dispatch.NextAfterDoneIsNoop` | context.go:72-87 | after Next returns, another Next runs nothing and leaves the cursor unchanged |
| `Dispatch.EmptyBeforeRunsControllerFirst` | context.go:76-80 | with an empty before chain, the first step runs the controller, because the fresh index -1 equals len - 1 |
| `Dispatch.NoBeforeStepAfterController` | context.go:72-83 | once doneBefore is set, only an after-middleware step or no step can follow |
| `Dispatch.AsWrittenAgrees` | context.go:72-86 | with chains of at most 128 middlewares, the int8 guards pick the same branch as untruncated ones, and the int8 increment does not wrap |
| `Dispatch.Int8WrapSkipsBeforeChain` | context.go:72-80 | the int8 guards on a 256-middleware before chain run the controller first; on a 129-middleware chain they run nothing |
| `Contexts.Context.constructor` | context.go:54-62 | newContext: index -1, doneBefore false, empty store, the given route |
| `Contexts.Context.Next` | context.go:71-88 | runs exactly the handlers `Dispatch.Run` lists, in order, and leaves the cursor where Run ends; from the Done state it changes nothing |
| `Contexts.Context.Set` | context.go:92-94 | afterwards Get(key) is the value and every other key keeps its value |
| `Contexts.Context.Get` | context.go:97-99 | the stored value, or nil for an absent key |
| `Routes.Route.constructor` | route.go:39-44 | NewRoute: empty before and after chains, no path, nil controller |
| `Routes.Route.SetBefore` | route.go:25-29 | Before' == Before ++ ms; path, controller and After unchanged; returns the same route |
| `Routes.Route.SetAfter` | route.go:33-36 | After' == ms, replacing the old chain; path, controller and Before unchanged; returns the same route |
| `Routes.SetBeforeTwice` | route.go:27-27 | two SetBefore calls accumulate both lists in call order |
| `Routes.SetAfterTwice` | route.go:34-34 | two SetAfter calls keep only the last list |
| `Paths.Join` | router.go:147-147 | joining with the empty prefix or element gives the other one; two slash-free parts are joined with one slash |
| `Paths.JoinGroupExample` | router_test.go:113-117 | "/group" joined with "get" is "/group/get" |
| `Responses.Response.constructor` | response.go:24-29 | newResponse: empty header and body, no renderer, no render calls, the given context |
| `Responses.Response.SetRenderer` | response.go:32-34 | replaces the renderer and nothing else |
| `Responses.Response.Text` | response.go:38-41 | Content-Type becomes text/plain and the parts, joined with no separator, are appended to the body |
| `Responses.ConcatAppend` | response.go:40-40 | joining the parts of a + b gives the join of a followed by the join of b |
| `Responses.ConcatAt` | response.go:40-40 | every part appears in the joined text, between the parts before it and the parts after it |
| `Responses.ConcatExample` | response_test.go:26-30 | the parts "first", ":second:", "last" join to "first:second:last" |
| `Responses.Merge` | response.go:46-50 | the merged store has the keys of both; keys from data take data's value; other keys keep the store's value |
| `Responses.Response.HTML` | response.go:45-53 | non-nil data is merged into the context store and nil data leaves the store unchanged; Content-Type becomes text/html; the renderer is called once with the store and the file names, and without a renderer the call panics |
| `Responses.Response.JSON` | response.go:63-65 | Content-Type becomes application/json; the body is not written |
| `Responses.Response.XML` | response.go:69-71 | Content-Type becomes text/xml; the body is not written |
| `App.GroupExtendsParent` | router.go:142-150 | a group's middlewares are the parent's, in order, followed by the group's; its name prefix extends the parent's |
| `App.NestedGroups` | router.go:142-150 | nested groups accumulate middlewares and name prefixes from the outermost group inwards |
| `App.Router.constructor` | router.go:47-53 | NewRouter: no middlewares, empty prefixes, a new path router |
| `App.Router.Use` | router.go:56-58 | the middleware set becomes exactly ms |
| `App.Router.Group` | router.go:142-150 | the router handed to the group's function has the parent's middlewares followed by the group's, the name prefix parent + group and the path prefix Join(parent, group), and shares the application and path router |
| `App.Router.Handle` | router.go:155-175 | the new route has path Join(pathPrefix, uri), the router's middlewares as Before, an empty After and the controller; it is stored under namePrefix + name, every other registry name is unchanged, and Route(namePrefix + name) is its path; one registration with the method string is recorded |
| `App.Router.GET` | router.go:63-65 | Handle with method "GET" |
| `App.Router.POST` | router.go:70-72 | Handle with method "POST" |
| `App.Router.PATCH` | router.go:77-79 | Handle with method "PATCH" |
| `App.Router.PUT` | router.go:84-86 | Handle with method "PUT" |
| `App.Router.DELETE` | router.go:91-93 | Handle with method "DELETE" |
| `App.Router.HEAD` | router.go:98-100 | Handle with method "HEAD" |
| `App.Router.OPTIONS` | router.go:105-107 | Handle with method "OPTIONS" |
| `App.Router.NotFound` | router.go:110-113 | installs a new route with empty chains and the given controller as the not-found hook |
| `App.Router.PanicHandler` | router.go:126-128 | installs a new route with empty chains and the given controller as the panic hook |
| `App.ServeRoute` | router.go:165-172 | the handle a registration installs: a fresh context and response, and one Next that runs Before, the controller, then After |
| `App.ServeNotFound` | router.go:115-121 | status 404 is written and nothing else is in the body before dispatch; on the hook's empty-chain route only the controller runs |
| `App.ServePanic` | router.go:130-137 | the payload is stored under "PanicStack" in the fresh context before dispatch; on the hook's route only the controller runs |
| `App.Kallisto.constructor` | kallisto.go:33-39 | New: empty route, data and service maps, and a root router pointing back at the application |
| `App.Kallisto.Set` | kallisto.go:43-47 | afterwards Get(key) is the value and every other key keeps its value |
| `App.Kallisto.Get` | kallisto.go:50-54 | the stored value, or nil for an absent key |
| `App.Kallisto.SetService` | kallisto.go:57-59 | afterwards Service(key) is s and every other key keeps its service |
| `App.Kallisto.Service` | kallisto.go:62-64 | the registered service, or nil exactly when none is registered under the key |
| `App.Kallisto.Route` | kallisto.go:67-72 | the path of the route registered under the name, or "" when no route is registered under it |
| `App.Kallisto.Routes` | kallisto.go:75-77 | exactly the registry map |
| `Scenarios.GroupScenario` | router_test.go:107-119 | a group "/group", "group::" with m1, m2 registers "group::get" at "/group/get", and dispatching it runs m1, m2, then the controller |
| `Scenarios.ChainScenario` | context_test.go:21-51 | before [m1], controller c and after [m2] run as m1, c, m2 on one Next |

## Findings

| source | as written | input that shows it | evidently intended | confidence | as-written member | corrected member |
|---|---|---|---|---|---|---|
| context.go:72-86 | Next compares the index with `int8(len(chain)-1)`, which wraps for chains longer than 128 | a before chain of 256 middlewares: `int8(255)` is -1, so a fresh context runs the controller at once and skips every before-middleware; with 129, `int8(128)` is -128 and no branch applies, so nothing runs at all | compare the index with the untruncated chain length | not executed; high | `Dispatch.Int8WrapSkipsBeforeChain` | `Dispatch.RunFromFresh` |

`Dispatch.DecideAsWritten` uses the source's int8 guards. `Dispatch.Decide`
is the corrected decision, and `Run` and all the dispatch lemmas are built on
it. `Contexts.Context.Next` keeps the source's int8 guards and increment. It
requires both chains to have at most 128 middlewares. `Dispatch.AsWrittenAgrees`
shows that in that range the as-written guards and the corrected ones choose
the same branch, so `Next` is proved against the corrected `Run`.

## Left out

- `Contexts.Context.Next`: requires chains of at most 128 middlewares; the int8 wrap-around beyond that is described under Findings, not executed by the class.
- Middlewares and controllers are opaque. They do not call `Next` themselves and cannot touch the context or the response. Running one only appends an event to the trace. A re-entrant middleware is not modelled.
- A nil controller (a route from `NewRoute` whose controller was never set) would panic in Go when dispatch reaches it. The model records a `Controller(NilController)` event instead.
- httprouter matching and dispatch are not modelled: `ServeHTTP`, `ServeStatic`/`ServeFiles`, `Param`/`Params.ByName`. They belong to an external library. `PathRouter.Mux` only records registrations and hooks. `App.ServeRoute`, `App.ServeNotFound` and `App.ServePanic` model the bodies of the handles the router installs, called with the route they capture.
- `path.Join` is simplified. `Paths.Join` drops an empty element and merges the slashes at the seam. Go's `Clean` rules (`.`, `..`, repeated slashes inside an element) are not modelled.
- Group's `fn` callback: `App.Router.Group` returns the router that Go passes to `fn`, and the caller registers on it. Go calls `fn` exactly once, synchronously, with that router.
- Slice aliasing: chains are value sequences. In Go, `Handle` shares the router's middleware slice as the route's `Before` (router.go:158). `append` in `Group` (router.go:144) and in `SetBefore` (route.go:27) may also share backing arrays. A later append through one alias that overwrites a sibling's elements is not captured.
- The `sync.RWMutex` around the application store (kallisto.go:24, 44-53) is concurrency. The store is a plain map.
- `StartServices` and `ListenAndServe` (kallisto.go:81-92) run goroutines and network I/O. A `Runner` is only an identity.
- Go's panic/recover mechanics: only the insertion of the payload under "PanicStack" and the dispatch of the panic hook are modelled. A missing renderer in `HTML` is reported as `panicked` rather than unwinding.
- The renderer, session and runner are interfaces only. A `Render` call is recorded with its renderer, data and file names. The output it writes is not modelled. Sessions are not modelled.
- `Response.Static` delegates to `http.ServeFile`, and static.go only wraps it; both are left out. `JSON` and `XML` do no encoding in the source, and the model does none.
- Context references: the context's `kallisto`, `Response`, `Request`, `Params` and `Session` fields, and `App`/`SetSession`, are not modelled. Go's `Header().Set` canonicalises key spelling. The model uses the canonical key `Content-Type` directly.
