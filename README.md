# Document-visibility and media-query trackers, modelled in Dafny

This project models the core of a small React hooks library:

- `useDocumentVisibility` keeps a cached `visible` flag and a `count` of
  `visibilitychange` events on which the page was hidden. It also keeps a
  JavaScript `Set` of subscriber handlers, and every event is fanned out to
  all of them in the set's insertion order. Here it is the class
  `DocumentVisibility.VisibilityTracker`, with the set as a duplicate-free
  sequence in insertion order. Handlers are named by ids, and every handler
  call is recorded in the ghost `calls` field.
- `useMediaQuery` keeps a cached `matches` flag and at most one live `change`
  subscription, for the query its effect last ran with. Here it is the class
  `MediaQuery.MediaMatchTracker`. `window.matchMedia` is an oracle
  (`MediaQuery.Env`): either no window, or a function from query text to its
  current match.
- The `MediaQuery` component builds a query from its first prop through a
  table of seven templates, and then decides what to render. Here these are
  pure functions: `MediaQuery.BuildQuery`, `MediaQuery.Template` and
  `MediaQuery.Output`. `MediaQuery.DecodeQuery` is the inverse of `Template`,
  and so reads back the text `BuildQuery` produces.
  `Decimal.ParseInt` is the inverse of integer printing. Both exist so that
  the round trips can be proved.

Files: `wrappers.dfy` (Option), `decimal.dfy` (how a template literal prints
an integer), `document_visibility.dfy`, `media_query.dfy`.

Behaviour the model follows from the code:

- One might expect `count` to rise once per visible-to-hidden transition.
  The code adds one on every event that finds the page hidden, so two hidden
  events in a row count twice. The model follows the code.
  `LeftForegroundAtMostHiddenEvents` and `LeftForegroundOnRealChanges` relate
  the two readings: they agree whenever every event really changes
  visibility.
- One might expect any query change to re-seed `matches`. When the query
  becomes empty or undefined, the effect returns early. The old
  subscription is still removed by the cleanup, but `matches` keeps its last
  value. The model follows the code.
- A recognised key whose value is undefined still builds a query,
  `"(min-width: undefinedpx)"`. That text is not blank, so the hook subscribes
  to it. Nothing renders only because the environment finds that the text
  matches nothing.
- An unsubscribe closure deletes its handler by identity. Once the same
  handler has been subscribed again, calling an old unsubscribe removes the
  new subscription too (`StaleUnsubscribeRemovesResubscription`).
- Handlers are called in the order in which they entered the set. A handler
  deleted and added again moves to the end (`ReaddedHandlerMovesToEnd`);
  adding a handler that is already present keeps its place
  (`SecondAddKeepsPlace`).
- A number prop is printed as JavaScript prints a safe integer (magnitude at
  most 2^53 - 1), digit for digit.

## Model

| member | source | states |
|---|---|---|
| `DocumentVisibility.VisibilityTracker.constructor` | src/use-document-visibility.ts:12-15 | `visible` is the negation of `document.hidden` and `count` is 0, whether the page starts hidden or not; no handlers, no listener |
| `DocumentVisibility.VisibilityTracker.Mount` | src/use-document-visibility.ts:17-28 | the mount effect registers exactly one document listener (0 to 1) and changes nothing else |
| `DocumentVisibility.VisibilityTracker.Unmount` | src/use-document-visibility.ts:30-32 | the cleanup removes that same listener (1 to 0) and changes nothing else |
| `DocumentVisibility.VisibilityTracker.HandleVisibilityChange` | src/use-document-visibility.ts:18-26 | after an event `visible == !hidden`; `count` rises by exactly 1 on a hidden event and is unchanged otherwise; the new calls are one per handler of the set, in insertion order, each with the new visibility and made after `setVisible` is called; so each subscribed handler gets exactly one new call and unsubscribed ids get none; the handler set is unchanged |
| `DocumentVisibility.VisibilityTracker.NotifyHandlers` | src/use-document-visibility.ts:23-25 | the `forEach` loop appends one call per handler, walking the set in insertion order, each with `isVisible` and made after `setVisible(isVisible)` is called, and appends nothing else |
| `DocumentVisibility.VisibilityTracker.OnVisibilityChange` | src/use-document-visibility.ts:35-37 | subscribing adds the handler as `Set.add` does (a new handler goes last, one already present keeps its place, see `Add`) and changes only the handler set, which stays duplicate-free; the returned closure is bound to this tracker and that handler |
| `DocumentVisibility.VisibilityTracker.CallUnsubscribe` | src/use-document-visibility.ts:38-40 | an unsubscribe closure of this tracker deletes its handler as `Set.delete` does (see `Remove`), whichever subscription added it, and no other handler; the set stays duplicate-free |
| `DocumentVisibility.HiddenEventsMonotone` | src/use-document-visibility.ts:21 | the count kept over a history never decreases as events are appended |
| `DocumentVisibility.LeftForegroundAtMostHiddenEvents` | src/use-document-visibility.ts:21 | the code's count is at least the number of visible-to-hidden transitions |
| `DocumentVisibility.LeftForegroundOnRealChanges` | src/use-document-visibility.ts:21 | when every event changes visibility, the count equals the number of visible-to-hidden transitions |
| `DocumentVisibility.RepeatedHiddenEventCountsTwice` | src/use-document-visibility.ts:21 | two hidden events in a row count 2, although the page left the foreground once |
| `DocumentVisibility.Add` | src/use-document-visibility.ts:36 | `Set.add`: the handler is in the set afterwards and the earlier handlers keep their order as a prefix; the set grows by exactly one entry if the handler was absent and is unchanged if it was present; a duplicate-free set stays duplicate-free |
| `DocumentVisibility.Remove` | src/use-document-visibility.ts:39 | `Set.delete`: the handler no longer occurs, every other handler occurs as often as before, and a duplicate-free set stays duplicate-free |
| `DocumentVisibility.RemoveAbsent` | src/use-document-visibility.ts:39 | deleting a handler that is not in the set leaves the set as it was, order included |
| `DocumentVisibility.RemoveAt` | src/use-document-visibility.ts:39 | deleting the handler at position i of a duplicate-free set closes the gap: the others keep their order |
| `DocumentVisibility.RemoveUndoesAdd` | src/use-document-visibility.ts:36-39 | adding a new handler and then deleting it restores the set exactly, order included |
| `DocumentVisibility.SetSteps` | src/use-document-visibility.ts:36-39 | worked `Set.add`/`Set.delete` steps: adding 1 to `[1]` changes nothing, deleting 1 from `[1, 2]` leaves `[2]`, and adding 1 to `[2]` gives `[2, 1]` |
| `DocumentVisibility.CallsToAppend` | src/use-document-visibility.ts:23-25 | the calls a handler received over two stretches of the log are its calls in the first followed by its calls in the second |
| `DocumentVisibility.FanOutCalls` | src/use-document-visibility.ts:23-25 | in one event's fan-out over a duplicate-free set, a handler receives exactly `[isVisible]` if it is subscribed and nothing otherwise |
| `DocumentVisibility.FanOutExtendsCalls` | src/use-document-visibility.ts:23-25 | after a fan-out, every handler's call history is extended by one call carrying the new visibility if it is subscribed, and is unchanged otherwise |
| `DocumentVisibility.HideShowHideShow` | __tests__/use-document-visibility.test.ts:183-214 | hide, show, hide, show from a visible start leaves `visible` true and `count == 2` |
| `DocumentVisibility.StartHiddenThenShow` | __tests__/use-document-visibility.test.ts:47-57 | starting hidden gives `visible` false and `count` 0; showing gives `visible` true and `count` still 0 |
| `DocumentVisibility.HandlerSeesEachChange` | __tests__/use-document-visibility.test.ts:216-235 | a subscribed handler receives exactly `[false, true]` for hide then show |
| `DocumentVisibility.DuplicateSubscribe` | src/use-document-visibility.ts:36 | subscribing the same handler twice still gives one call per event |
| `DocumentVisibility.UnsubscribeOnlySpecific` | __tests__/use-document-visibility.test.ts:152-165 | two handlers, the first unsubscribed before a hide: the first receives nothing and the second exactly `[false]` |
| `DocumentVisibility.StaleUnsubscribeRemovesResubscription` | src/use-document-visibility.ts:38-40 | subscribe, unsubscribe, subscribe the same handler again, then call the first unsubscribe again: the handler is gone and a hide reaches it not at all |
| `DocumentVisibility.Resubscribe` | __tests__/use-document-visibility.test.ts:138-150 | unsubscribing and then subscribing a handler again restores delivery, exactly one call per event |
| `DocumentVisibility.ReaddedHandlerMovesToEnd` | src/use-document-visibility.ts:36-39 | subscribe 1 and 2, unsubscribe 1, subscribe 1 again: a hide calls 2 and then 1, each with `false` |
| `DocumentVisibility.SecondAddKeepsPlace` | src/use-document-visibility.ts:36 | subscribe 1, then 2, then 1 again: a hide calls 1 and then 2, each once with `false` |
| `MediaQuery.InitialMatches` | src/hooks/use-media-query.ts:23-25 | the initial flag is true iff there is a window, the query is neither undefined nor empty, and the environment matches it |
| `MediaQuery.MediaMatchTracker.constructor` | src/hooks/use-media-query.ts:23-25 | first render: `matches` comes from the initialiser; no effect has run and nothing is subscribed |
| `MediaQuery.MediaMatchTracker.Commit` | src/hooks/use-media-query.ts:27-42 | with an unchanged query nothing happens. With a changed query the old subscription is gone. With no window or a blank query, `matches` keeps its value and nothing is subscribed. Otherwise `matches` is the fresh evaluation, and exactly one listener is live, for the new query. At most one listener is ever live |
| `MediaQuery.MediaMatchTracker.RunEffect` | src/hooks/use-media-query.ts:28-37 | the effect body: an early return with no window or a blank query; otherwise it re-reads `matches` and adds one fresh listener for that query |
| `MediaQuery.MediaMatchTracker.RunCleanup` | src/hooks/use-media-query.ts:39-41 | the cleanup removes exactly the listener its effect added and leaves none |
| `MediaQuery.MediaMatchTracker.Unmount` | src/hooks/use-media-query.ts:39-41 | unmounting removes exactly the listener added for the current query and leaves none |
| `MediaQuery.MediaMatchTracker.OnChange` | src/hooks/use-media-query.ts:33-35 | a notification to a live listener sets `matches` to the event's value and touches nothing else |
| `MediaQuery.FeatureOf` | src/hooks/use-media-query.ts:49-61 | the table lookup: a key selects a template only if it is that template's prop name |
| `MediaQuery.FeatureOfPropName` | src/hooks/use-media-query.ts:49-57 | each of the seven prop names selects its own template |
| `MediaQuery.Interpolate` | src/hooks/use-media-query.ts:50-56 | `${val}`: a string value is inserted verbatim, and a number's text parses back to the same number |
| `MediaQuery.Template` | src/hooks/use-media-query.ts:50-56 | every template is its prefix, then the interpolated value, then its suffix; the suffix is `px)` for the four width and height features and `)` for orientation and resolution |
| `MediaQuery.FirstKeyIndex` | src/hooks/use-media-query.ts:59 | the key consulted is the first one that is not `children`; every key before it is `children` |
| `MediaQuery.FirstRecognisedKey` | src/hooks/use-media-query.ts:49-61 | for every value, a prop list whose one key is a recognised prop name builds exactly that feature's template applied to the value |
| `MediaQuery.DecodeTemplateText` | src/hooks/use-media-query.ts:50-56 | any value text placed in a template reads back as that feature and that exact text |
| `MediaQuery.BuildQuery` | src/hooks/use-media-query.ts:48-62 | there is a query iff there is a first key (other than `children`) and it is in the table; no key, an empty key or an unknown key gives none |
| `MediaQuery.BuildQueryDecodes` | src/hooks/use-media-query.ts:59-61 | a built query reads back as the first key's feature and the interpolated value, and a numeric value comes back as the same integer |
| `MediaQuery.BuildQueryInjective` | src/hooks/use-media-query.ts:50-56 | two templates give the same text only for the same feature and the same value text |
| `MediaQuery.Output` | src/hooks/use-media-query.ts:65-66 | a function child is always called with `matches`; a fixed child is returned iff `matches`, otherwise null |
| `MediaQuery.MountMediaQuery` | src/hooks/use-media-query.ts:47-66 | after mount the output is the render decision for a fresh evaluation of the built query; with no query it is the decision for `false`, so a fixed child is not rendered |
| `MediaQuery.MinWidthQuery` | __tests__/use-media-query.jsdom.test.tsx:110-120 | `minWidth 768` builds `"(min-width: 768px)"` |
| `MediaQuery.ResolutionQuery` | __tests__/use-media-query.jsdom.test.tsx:256-266 | `minResolution "1dppx"` builds `"(min-resolution: 1dppx)"`, the value verbatim |
| `MediaQuery.UndefinedValueStillBuildsQuery` | __tests__/use-media-query.jsdom.test.tsx:316-326 | `minWidth undefined` builds the non-blank `"(min-width: undefinedpx)"` |
| `MediaQuery.NoQueryWithoutKnownKey` | __tests__/use-media-query.jsdom.test.tsx:305-314 | an unknown key builds no query, and so does an empty prop list |
| `MediaQuery.ResizeUpdatesMatches` | __tests__/use-media-query.jsdom.test.tsx:27-45 | change notifications while mounted move `matches` true, then false, then true |
| `MediaQuery.QueryChangeReseeds` | __tests__/use-media-query.jsdom.test.tsx:47-66 | changing the query re-reads `matches` from the new query, and the live listener is for the new query |
| `MediaQuery.BlankQueryKeepsLastValue` | src/hooks/use-media-query.ts:28 | changing to an empty query unsubscribes but keeps the last `matches` (true) |
| `MediaQuery.NoWindowNeverMatches` | __tests__/use-media-query.node.test.tsx:7-10 | without a window `matches` is false, and the effect subscribes nothing |
| `Decimal.NatToString` | src/hooks/use-media-query.ts:53-56 | a safe-integer prop is printed as its shortest decimal spelling: at least one digit, only digits, no leading zero |
| `Decimal.IntToString` | src/hooks/use-media-query.ts:53-56 | the printed text is non-empty and starts with a minus sign exactly when the integer is negative |
| `Decimal.NatToStringRoundTrip` | src/hooks/use-media-query.ts:53-56 | reading the printed digits back gives the same natural number |
| `Decimal.IntToStringRoundTrip` | src/hooks/use-media-query.ts:53-56 | printing an integer, sign included, and parsing it back gives the same integer |
| `Decimal.IntToStringInjective` | src/hooks/use-media-query.ts:53-56 | distinct integers print differently |

## Left out

- React mechanics are not modelled: `useState` batching, effect timing and StrictMode double effects. Each tracker method is one state transition the hooks cause. `setVisible` and `setCount` take effect at once in the model (the `visible` field and the `trackerVisible` field of each `Call`). In React they only schedule the change, and the `visible` and `count` the hook returns change at the next render, after the `forEach` has run. The `useCallback` stability of `onVisibilityChange` is represented by it being a fixed method of the tracker.
- The DOM is not modelled. `document.addEventListener`/`removeEventListener` become the ghost counter `documentListeners`. `window.matchMedia` and its `change` listeners become `Env` and the ghost multiset `listeners`. Media-query text is never parsed or evaluated.
- Handlers are closures in the source. Here they are ids, because closures cannot be compared. A handler call is recorded in the ghost `calls` field, and the handler's own effects are not modelled. In particular, a handler that subscribes or unsubscribes during the `forEach` changes which handlers that same event reaches: `Set.forEach` visits entries added during the walk and skips entries deleted before it reaches them. The model's fan-out (`FanOut(handlers, …)`) uses the set as it stood when the event began.
- `DocumentVisibility.VisibilityTracker.HandleVisibilityChange`: requires the document listener to be registered, because the document only runs the handler between mount and unmount.
- `MediaQuery.MediaMatchTracker.OnChange`: requires the subscription to be live, because the environment only notifies registered listeners.
- `MediaQuery.MediaMatchTracker.RunEffect`: requires the previous cleanup to have run, because React always runs the previous cleanup before the next effect.
- `Decimal.NatToString`: number props are safe integers (`Decimal.SafeInt`). Beyond 2^53 - 1, JavaScript prints a number from its shortest round-trip digits, and from 10^21 on in exponent form (`1e+21`); the model does not cover those numbers.
- Number printing covers integers only. Non-integer and floating-point values, and their JavaScript spelling, are left out. `Value` has no booleans and no objects either, which a template literal would print as `true`/`false` or `[object Object]`. A `${number}dppx` value is an opaque string inserted verbatim.
- `MediaQuery.FeatureOf`: only the seven own keys of the template table are recognised. Keys that JavaScript would find on `Object.prototype` (such as `toString`) are treated as unknown.
- Props are a sequence of key/value pairs in `Object.keys` order. JavaScript's rule that integer-like keys come first is not modelled.
- src/types/UtilityTypes.ts (`RequireOnlyOne`) only constrains types at compile time. At run time any keys reach the builder, so it is not part of this model.
- The demo pages under examples/ and the build, lint and test configuration are not part of this model.
