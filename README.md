# Server-side render pipeline and feature-toggle store, modelled in Dafny

This project models two parts of a web application's server. The first is the
feature-toggle state slice: a reducer over a map from flag names to booleans.
The second is the render entry point. It turns a request into one of three
responses: a bare status code, a 307 redirect, or a 200 HTML page. The page is
built around the rendered markup and the encoded application state, with a
webpack partial that is loaded once per process and then cached.

- `wrappers.dfy`: module `Wrappers`, holding `Option` and `Result`.
- `toggle.dfy`: module `Toggle`. The action creator `toggle`, the reducer
  `store` (`Reduce`, and `StoreReducer` with its default parameter), and the
  combined slice reducer `toggleReducer`. These are pure functions plus lemmas
  for the properties the reducer promises.
- `server.dfy`: module `Server`.
  - Pure parts: the request and state datatypes, the seeding of the initial
    state (`InitialStateOf`), the branching after the effects settle
    (`Decide`, `Outcome`), and the page template (`Document` and its
    sections).
  - Class `Server`: its field `webpackPartial` is the module-level
    `webpackPartialTmpl` cache. `LoadWebpackPartial`, `RenderHtml` and
    `Render` are methods that update that field. `Render` also returns the
    sequence of steps it went through.

The collaborators whose code is outside this model are passed in as function
values of the `App` datatype:
- device detection;
- store creation, the saga run and both render passes, as `settle`;
- `JSON.stringify` and `encodeURIComponent`.

The file system's answer to the partial read is a parameter: `None` means the
file is missing. The head tags that `Helmet.rewind` returns are part of the
`Settlement` value.

Choices that follow the code's exact behaviour:
- `if (context.url)` is a truthiness test. An empty redirect URL therefore
  does not redirect (`HasRedirect`).
- `if (!webpackPartialTmpl)` is modelled as "the cache is `None`". Both values
  the loader can store are truthy: the dev partial is a non-empty literal, and
  `readFileSync` without an encoding returns a Buffer, which is an object.
- `(req.headers.cookie || "")` turns a missing header into `""`. An empty
  header is `""` either way.
- The code never catches exceptions. When `readFileSync`, `JSON.stringify` or
  `encodeURIComponent` throws, nothing is sent (`Err` in `Render`'s result).
  The log then ends without a `Sent` step. A failed load leaves the cache
  empty, so the next page build tries to load again.

## Model

| member | source | states |
|---|---|---|
| Toggle.MakeToggle | src/modules/toggle/index.ts:7-11 | the action carries the toggle type tag and exactly the given name and optional value |
| Toggle.Reduce | src/modules/toggle/index.ts:21-30 | for a toggle action: the keys are the old keys plus `name`; the value at `name` is the negation of the old read value (absent reads as false) when no value is given, and exactly the given value otherwise; every other key keeps its value. For any other action type: the state is returned unchanged |
| Toggle.StoreReducer | src/modules/toggle/index.ts:21 | an undefined state is treated as the empty map: the result is the reducer applied to the empty map, so any other action gives the empty map |
| Toggle.ToggleReducer | src/modules/toggle/index.ts:32-34 | the combined reducer applies the slice reducer to the `store` field, or to the empty map when the slice is undefined |
| Toggle.Get | src/modules/toggle/index.ts:25 | the value read for a flag: an absent key reads as false, a present key as its stored value |
| Toggle.FlipNegates | src/modules/toggle/index.ts:25 | `toggle(n)` negates the value read at `n` and makes `n` present |
| Toggle.SetIsExact | src/modules/toggle/index.ts:25 | `toggle(n, v)` leaves `n` present with exactly `v`, whatever was there before |
| Toggle.FrameOfToggle | src/modules/toggle/index.ts:26 | a toggle action leaves every other key's presence and value unchanged, and `name` is present afterwards |
| Toggle.ToggleTwiceRestoresRead | src/modules/toggle/index.ts:25-26 | toggling `n` twice restores the read value at `n` and every old entry; the keys become the old keys plus `n` |
| Toggle.ToggleTwiceMayAddKey | src/modules/toggle/index.ts:25-26 | toggling an absent flag twice gives `{n: false}`, not the empty map, so involution holds only for the read value |
| Toggle.SetIsIdempotent | src/modules/toggle/index.ts:25-26 | applying `toggle(n, v)` twice gives the same state as applying it once |
| Toggle.OtherActionsPassThrough | src/modules/toggle/index.ts:27-28 | any action whose type is not the toggle tag returns the state unchanged, through both the slice reducer and the combined reducer |
| Toggle.DefaultIsEmpty | src/modules/toggle/index.ts:21 | when no state is given, the combined reducer gives the reducer applied to the empty map: any other action gives the empty map, and a toggle gives the single entry `name` mapped to `true` (no value) or to the given value |
| Server.InitialStateOf | src/server.tsx:29-33 | `auth.cookie` is the request's cookie header, or `""` when the header is absent |
| Server.HasRedirect | src/server.tsx:67 | the truthiness test on `context.url`: no URL and the empty URL do not redirect, any non-empty URL does |
| Server.Decide | src/server.tsx:60-77 | a bare status exactly when the code is not 200, carrying that code; a redirect exactly when the code is 200 and the context URL is truthy, to that URL; the page exactly when the code is 200 and there is no redirect |
| Server.StatusBeatsRedirect | src/server.tsx:60-72 | a non-200 code is sent as a bare status even when a redirect is pending |
| Server.Outcome | src/server.tsx:63-77 | a bare status carries the decided code, a redirect is sent with 307, a page with 200; a fault while building the page means no response |
| Server.LoadedPartial | src/server.tsx:106-118 | dev builds load the dev partial, production builds load the file contents, and a missing file is a load failure |
| Server.CacheAfter | src/server.tsx:121-123 | a filled cache is kept; an empty one is filled by a successful load and stays empty after a failed one |
| Server.CacheFilledOnce | src/server.tsx:121-123 | once filled, the cache stays the same, whatever a later read of the file would return |
| Server.StatScripts | src/server.tsx:126 | the analytics block is empty in dev builds and is the configured markup otherwise |
| Server.Payload | src/server.tsx:184 | the embedded payload is `encodeURIComponent(JSON.stringify(state))`, and it fails exactly when one of the two calls fails |
| Server.PageFor | src/server.tsx:120-193 | the page build fails when the partial could not be loaded or the state could not be serialized; otherwise it is the document built from the head tags, favicon block, encoded state, cached partial, analytics block and content |
| Server.Document | src/server.tsx:168-192 | the page template, built from its sections: it is a complete document, starting with the doctype and conditional `<html>` markup and ending with `</body>` and `</html>` |
| Server.ContentInsideReactApp | src/server.tsx:191 | the rendered content occurs verbatim inside `<div id="react-app">…</div>` in the page |
| Server.PayloadInsideInitialStateScript | src/server.tsx:183-185 | the encoded state occurs verbatim inside the `window.__INITIAL_STATE__ = JSON.parse(decodeURIComponent("…"))` script |
| Server.StateEmbeddedOnce | src/server.tsx:168-192 | the page is a prefix that depends only on the head tags and favicon block, then the encoded state, then a suffix that depends only on the partial, analytics block and content: the state fills exactly one slot |
| Server.StateSlotIsFixed | src/server.tsx:184 | pages built for two different encoded states agree before and after the slot, and each holds its own state at the same position |
| Server.PageHoldsContentAndState | src/server.tsx:184-191 | every page that is built holds the rendered content inside the application element and the encoded state inside the initial-state script |
| Server.Server.constructor | src/server.tsx:21 | the cache starts out empty |
| Server.Server.LoadWebpackPartial | src/server.tsx:106-118 | the loader stores the loaded partial when the load succeeds and leaves the cache unchanged when the read throws; every call counts as one load |
| Server.Server.RenderHtml | src/server.tsx:120-193 | the partial is loaded only when the cache is empty, so the load count rises by one on the first use and by nothing afterwards; the result is the page for the cache after the call |
| Server.Server.Render | src/server.tsx:23-91 | the steps run in order: device dispatch, saga start, first render, store close, effects settled, second render. Then exactly one response is sent, the one `Decide` picks, or none if building the page throws. The cache is only touched on the page path. A page response holds the second pass's markup inside the application element and the encoded final state inside the initial-state script |
| Server.RenderHtmlTwice | src/server.tsx:121-123 | after a successful page build, a second build with the same inputs returns the same page and does not load the partial again, even when the file has changed or gone |

## Left out

- Express request and response I/O, `console` logging and the `Date.now()` timings. The response is returned as a value, and the timings have no functional content.
- The query string `qs`. It is computed but never used, so the request keeps only its URL and cookie header.
- What the saga effect graph does. `runSaga`, its `done` promise, `store.close()` and both `renderToString` passes are folded into the `settle` collaborator. Only their order is kept, as the event log.
- The internals of React, the router, `Provider`, `Helmet.rewind`, `mobileParser`/`setMobileDetect`, `configureStore`, `buildRoutes` and `syncHistoryWithStore`. These are library code with no source here, so they are function values or plain input data.
- `JSON.stringify`, `encodeURIComponent` and the client's `decodeURIComponent`/`JSON.parse`. These are standard-library calls, so the encode/decode round trip is not modelled. The model proves only where the encoded text is placed.
- The favicon and analytics markup. These are constant configuration and are parameters of `Config`; the `__DEV__` switch is kept as a boolean.
- The `readFileSync` file read. It is I/O, so its result is a parameter.
- Server.Server.Render: `settle` always produces a settlement, so the model has none of the paths on which the source sends nothing besides the page-build faults:
  - an exception from the second render pass, or a final state without a `result` slice, either of which throws inside the promise callback;
  - a rejection of the saga task's `done` promise, for which `.then` has no handler, so the callback never runs;
  - an exception from the first `renderToString`, which escapes `render` before `store.close()` runs.
- Server.Server.Render: the collaborators are functions of the current request alone, which the source's are not:
  - `Helmet.rewind()` runs only on the page path, so head tags collected during a status or redirect request are not cleared and can reach a later page. The model takes the head as part of each request's settlement.
  - Both render passes share one `context` object, so a redirect set by the first pass still holds after the second. The model takes only the context URL after settlement.
  - `mobileParser` reads the whole request, including its User-Agent header, but `Request` keeps only the URL and the cookie header.
- Toggle.Reduce: the toggle contract does not model object identity. As values, the input map cannot be mutated and "a fresh object" cannot be observed, so the model cannot distinguish returning a new object (toggle) from returning the same object (other actions).
- Toggle.Get: flag names are treated as own data properties. Names that collide with `Object.prototype` members behave differently in JavaScript. For example, `toggle("toString")` reads an inherited function (truthy), and a `"__proto__"` key is dropped by `Object.assign`. These edge cases are not modelled.
