# React InstantSearch core binding layer, modelled in Dafny

This project models the core of `react-instantsearch-core`:

- **The store** (`createStore`). It holds one state record and an ordered list of listeners. `setState` replaces the record and then calls every listed listener once, in list order. `subscribe` appends a listener, and the closure it returns applies `splice(indexOf(listener), 1)`, which removes one entry from a non-empty list.
- **The connector binding** (`createConnector`). The factory validates a widget description and fixes its capability flags. The `Connector` class then runs the lifecycle of one bound component: mount, store notifications, new props, the update gate, unmount with clean-up, the `refine`/`createURL`/`searchForItems` wrappers and the merged props of `render`.
- **Three connector descriptions**:
  - query rules: `getProvidedProps`, with its capability profile;
  - hits: `getProvidedProps` and `getSearchParameters`;
  - infinite hits: the stateful accumulator of paged hits, and `refine`.

A description is a record of optional functions (`CreateConnector.Description`). `createConnector` looks at which of them are present and at the display name (`Profile`), once. The connector's calls to the outside go into a ghost event log (`Connector.events`), so their order and arguments can be stated:

- `onSearchParameters`, `onSearchStateChange`, `onInternalStateUpdate`, `createHrefForState` and `onSearchForFacetValues`;
- `registerWidget`, `update` and unregister on the widgets manager.

The store keeps every listener call, with the state that call observes, in `Store.calls`.

Every value crossing the layer is a `Values.Json`. This covers props, search-state slices, hits, metadata and search parameters. The helpers the source imports from files outside the model are uninterpreted function-valued fields of `CreateConnector.Utilities`: `isEqual`, `shallowEqual` and `removeEmptyKey`.

The hits and infinite-hits connectors are pinned down by their tests, not by their implementation files. The model states the rules those tests fix:

- The infinite-hits memory is the accumulated hits plus the last page seen.
- Page 0, a page below the last one seen, or the first results ever: start over with the incoming hits.
- A page above the last one seen: append the incoming hits.
- The same page again: nothing changes.
- `hasMore` holds iff `page < nbPages - 1`.
- A change of `hitsPerPage` never resets the memory. In the test at `connectInfiniteHits.js:47-97` it goes from 6 to 8 and the hits keep accumulating.
- `refine` sets `page` to the current page plus one. The current page is 1 when absent. For a page stored as text, the tests fix only that the text `'0'` reads as 0; the model reads stored text with `parseInt(s, 10)`.

The tests call the description object directly, so its memory persists from one test to the next. That is why every test that starts at page 0 sees only its own hits. `ConnectInfiniteHits.InfiniteHits` is that object.

`unsubscribe` removes the listener only while it is listed; otherwise `indexOf` gives -1 and `splice(-1, 1)` removes the last entry (`createStore.ts:39`). The model keeps that behaviour and states both cases as lemmas.

## Model

| member | source | states |
|---|---|---|
| `CreateStore.IndexOf` | packages/react-instantsearch-core/src/core/createStore.ts:39 | `indexOf`: -1 exactly when the listener is absent, otherwise a position holding it with no earlier occurrence |
| `CreateStore.SpliceOne` | packages/react-instantsearch-core/src/core/createStore.ts:39 | `splice(start, 1)`: removes the entry at an in-range start; at -1 removes the last entry, or nothing from an empty list; past the end removes nothing |
| `CreateStore.Deliveries` | packages/react-instantsearch-core/src/core/createStore.ts:24-26 | one dispatch makes one call per list entry, in list order, each observing the same state |
| `CreateStore.DispatchCallsEachEntryOnce` | packages/react-instantsearch-core/src/core/createStore.ts:24-26 | the listeners called are exactly the list, so a listener listed n times is called n times, and every call observes the written state |
| `CreateStore.SubscribeTwiceCalledTwice` | packages/react-instantsearch-core/src/core/createStore.ts:36-37 | subscribing the same listener twice adds two calls of it to every later dispatch |
| `CreateStore.UnsubscribePresent` | packages/react-instantsearch-core/src/core/createStore.ts:38-40 | for a listed listener, unsubscribe removes exactly its first entry and keeps the others in their relative order (the multiset loses one copy) |
| `CreateStore.UnsubscribeAbsentRemovesLast` | packages/react-instantsearch-core/src/core/createStore.ts:39 | for a listener no longer listed, unsubscribe removes the last entry, or nothing when the list is empty |
| `CreateStore.Store.constructor` | packages/react-instantsearch-core/src/core/createStore.ts:20-22 | a new store holds the initial state, no listeners and no writes |
| `CreateStore.Store.GetState` | packages/react-instantsearch-core/src/core/createStore.ts:29-31 | the initial state until the first `setState`, afterwards the last value passed to it |
| `CreateStore.Store.SetState` | packages/react-instantsearch-core/src/core/createStore.ts:32-35 | assigns before dispatching: the new state is recorded, the listener list is unchanged, and every listed listener is called once, in order, observing the new state |
| `CreateStore.Store.Dispatch` | packages/react-instantsearch-core/src/core/createStore.ts:24-26 | the `forEach` loop appends one call per listener, in list order |
| `CreateStore.Store.Subscribe` | packages/react-instantsearch-core/src/core/createStore.ts:36-37 | appends the listener at the end of the list |
| `CreateStore.Store.Unsubscribe` | packages/react-instantsearch-core/src/core/createStore.ts:38-40 | the list becomes `splice(indexOf(listener), 1)` of the old list |
| `CreateConnector.ProfileOf` | packages/react-instantsearch-core/src/core/createConnector.tsx:92-98 | each optional member is in the profile iff the description has that function |
| `CreateConnector.CreateConnector` | packages/react-instantsearch-core/src/core/createConnector.tsx:85-99 | fails iff the display name is missing or empty (no binding can exist then); otherwise each flag is the presence of its function, and `isWidget` holds iff `getSearchParameters`, `getMetadata` or `transitionState` is present |
| `CreateConnector.IsWidgetIgnoresOtherMembers` | packages/react-instantsearch-core/src/core/createConnector.tsx:92-99 | adding or removing `refine`, `cleanUp`, `searchForFacetValues` or `shouldComponentUpdate` never changes `isWidget`, and those alone never make a widget |
| `CreateConnector.UpdateGate` | packages/react-instantsearch-core/src/core/createConnector.tsx:186-213 | a custom gate alone decides; otherwise the render is skipped iff the props are shallow-equal and the provided props are both null or both shallow-equal objects; exactly one null always updates |
| `CreateConnector.SearchResultsOf` | packages/react-instantsearch-core/src/core/createConnector.tsx:245-262 | the `searchResults` snapshot carries the store's results, error and the three status flags |
| `CreateConnector.SpreadPrecedence` | packages/react-instantsearch-core/src/core/createConnector.tsx:355-369 | rendered keys are the props', the provided props' and the enabled callbacks'; `refine`/`createURL` only with `refine`, `searchForItems` only with `searchForFacetValues`, and then they win; otherwise provided props override props |
| `CreateConnector.Connector.ProvidedPropsFor` | packages/react-instantsearch-core/src/core/createConnector.tsx:244-275 | the binding's `getProvidedProps(props)` calls the description's function with, in order, the given props, the store's `widgets`, the `searchResults` snapshot of the store (`SearchResultsOf`), `metadata`, then `resultsFacetValues` |
| `CreateConnector.Connector.constructor` | packages/react-instantsearch-core/src/core/createConnector.tsx:119-133 | a binding exists only for an accepted description; its provided props are the description's `getProvidedProps` over the store's current state; nothing is mounted, subscribed or registered |
| `CreateConnector.Connector.WillMount` | packages/react-instantsearch-core/src/core/createConnector.tsx:135-143 | hands `getSearchParameters` and the props to `onSearchParameters` iff the description has it |
| `CreateConnector.Connector.DidMount` | packages/react-instantsearch-core/src/core/createConnector.tsx:145-161 | for a listener not yet subscribed (each mount subscribes a new closure), marks mounted, appends it to the store, and registers with the widgets manager iff it is a widget |
| `CreateConnector.Connector.OnStoreNotification` | packages/react-instantsearch-core/src/core/createConnector.tsx:148-154 | recomputes the provided props from the store, unless unmounting has begun, in which case nothing changes |
| `CreateConnector.Connector.WillReceiveProps` | packages/react-instantsearch-core/src/core/createConnector.tsx:163-184 | deep-equal props change nothing; otherwise the provided props are recomputed from the new props, and a widget then calls `update()` followed, with `transitionState`, by `onSearchStateChange(transitionState(nextProps, W, W))` with the same widgets snapshot `W` twice |
| `CreateConnector.Connector.CommitProps` | packages/react-instantsearch-core/src/core/createConnector.tsx:163-165 | `this.props` becomes the props just announced; every later step (notification, gate, unmount, callbacks, render) reads them |
| `CreateConnector.SamePropsTwice` | packages/react-instantsearch-core/src/core/createConnector.tsx:163-184 | after announcing and committing new props, announcing the same props again logs nothing: only the first announcement's events are logged |
| `CreateConnector.Connector.ShouldUpdate` | packages/react-instantsearch-core/src/core/createConnector.tsx:186-213 | the gate over the binding's current props and provided props against the next ones |
| `CreateConnector.Connector.WillUnmount` | packages/react-instantsearch-core/src/core/createConnector.tsx:215-242 | sets `isUnmounting`, unsubscribes its listener, and only when registered unregisters; with `cleanUp` it then writes `{...oldState, widgets: cleaned}` (only `widgets` changes, remaining listeners are notified) and afterwards calls `onSearchStateChange(removeEmptyKey(cleaned))`; the event log orders unregistering, the store write and the report as in the source |
| `CreateConnector.StaleNotificationAfterUnmount` | packages/react-instantsearch-core/src/core/createConnector.tsx:148-154 | a notification delivered after unmounting began leaves the provided props as they were before unmounting |
| `CreateConnector.Connector.GetSearchParameters` | packages/react-instantsearch-core/src/core/createConnector.tsx:277-290 | the description's function over the current widgets, or null without one |
| `CreateConnector.Connector.GetMetadata` | packages/react-instantsearch-core/src/core/createConnector.tsx:292-302 | the description's function, or `{}` without one |
| `CreateConnector.Connector.TransitionState` | packages/react-instantsearch-core/src/core/createConnector.tsx:304-315 | the description's function, or `nextWidgetsState` unchanged without one |
| `CreateConnector.Connector.Refine` | packages/react-instantsearch-core/src/core/createConnector.tsx:317-326 | hands the delta `desc.refine(props, widgets, ...args)` to `onInternalStateUpdate` |
| `CreateConnector.Connector.CreateURL` | packages/react-instantsearch-core/src/core/createConnector.tsx:328-336 | computes the same delta as `refine` and returns `createHrefForState` of it |
| `CreateConnector.Connector.SearchForFacetValues` | packages/react-instantsearch-core/src/core/createConnector.tsx:338-346 | forwards the description's payload to `onSearchForFacetValues` |
| `CreateConnector.Connector.Render` | packages/react-instantsearch-core/src/core/createConnector.tsx:348-371 | nothing when the provided props are null, otherwise the spread of props, provided props and the enabled callbacks |
| `ConnectQueryRules.GetProvidedProps` | packages/react-instantsearch-core/src/connectors/connectQueryRules.ts:19-37 | null results give exactly `{items: [], canRefine: false}`; otherwise items are `transformItems(userData)` with `userData` defaulting to `[]`; `canRefine` iff there is an item |
| `ConnectQueryRules.DefaultTransformKeepsUserData` | packages/react-instantsearch-core/src/connectors/connectQueryRules.ts:15-17 | with the default `transformItems` the items are the `userData` itself, and `canRefine` iff it is present and non-empty |
| `ConnectQueryRules.QueryRulesIsNotWidget` | packages/react-instantsearch-core/src/connectors/connectQueryRules.ts:12-38 | the description is accepted, is not a widget, and gets no `refine`, `createURL` or `searchForItems` |
| `ConnectQueryRules.MountQueryRulesBinding` | packages/react-instantsearch-core/src/connectors/connectQueryRules.ts:12-38 | mounting a query-rules binding registers with nobody and logs no event; every rendered prop is a plain value, so there is no `refine`, `createURL` or `searchForItems` callback |
| `ConnectHits.GetProvidedProps` | packages/react-instantsearch-core/src/connectors/__tests__/connectHits.js:11-24 | exactly `{hits: results.hits}`, or `{hits: []}` for null results |
| `ConnectHits.GetSearchParameters` | packages/react-instantsearch-core/src/connectors/__tests__/connectHits.js:26-29 | returns the search parameters unchanged |
| `ConnectHits.HitsIsWidget` | packages/react-instantsearch-core/src/connectors/__tests__/connectHits.js:5 | a description with `getSearchParameters` is an accepted widget without `refine` |
| `ConnectHits.MountHitsBinding` | packages/react-instantsearch-core/src/core/createConnector.tsx:156-160 | mounting a binding whose description has `getSearchParameters` registers it with the widgets manager |
| `IndexResults.GetResults` | packages/react-instantsearch-core/src/connectors/__tests__/connectInfiniteHits.js:226-245 | single-index results are used as they are; in multi-index mode the targeted index's entry, absent when the index has none |
| `ConnectInfiniteHits.Merge` | packages/react-instantsearch-core/src/connectors/__tests__/connectInfiniteHits.js:11-96 | page 0, a page below the last seen or the first results start over; a higher page appends; the same page changes nothing; the page is remembered |
| `ConnectInfiniteHits.Step` | packages/react-instantsearch-core/src/connectors/__tests__/connectInfiniteHits.js:11-20 | with results the memory is merged and the accumulated hits are provided with `hasMore = page < nbPages - 1`; without, no hits, no more pages, memory untouched |
| `ConnectInfiniteHits.MergeIdempotent` | packages/react-instantsearch-core/src/connectors/__tests__/connectInfiniteHits.js:85-96 | re-delivering the same snapshot leaves the accumulated hits unchanged |
| `ConnectInfiniteHits.MultiIndexActsOnTargetedIndex` | packages/react-instantsearch-core/src/connectors/__tests__/connectInfiniteHits.js:226-411 | multi-index mode behaves as single-index mode on the targeted index's results |
| `ConnectInfiniteHits.FeedConsecutivePages` | packages/react-instantsearch-core/src/connectors/__tests__/connectInfiniteHits.js:99-137 | feeding pages 0..k from any memory accumulates exactly their hits in order, whatever `hitsPerPage` does, and remembers page k |
| `ConnectInfiniteHits.AllHitsLength` | packages/react-instantsearch-core/src/connectors/__tests__/connectInfiniteHits.js:118-134 | k + 1 pages of equal size n accumulate (k + 1) * n hits |
| `ConnectInfiniteHits.FeedingPagesInOrder` | packages/react-instantsearch-core/src/connectors/__tests__/connectInfiniteHits.js:139-170 | after pages 0..k the provided hits are their concatenation and `hasMore` holds exactly while `k < nbPages - 1` |
| `ConnectInfiniteHits.HitsPerPageChangeDoesNotReset` | packages/react-instantsearch-core/src/connectors/__tests__/connectInfiniteHits.js:47-97 | pages 0, 1, 2 with `hitsPerPage` 6, 6, 8, and page 2 again, accumulate the three batches once each |
| `ConnectInfiniteHits.CachedPageStartsOver` | packages/react-instantsearch-core/src/connectors/__tests__/connectInfiniteHits.js:195-223 | a page below the last one seen (or the first results) provides exactly its own hits, with `hasMore = page < nbPages - 1` |
| `ConnectInfiniteHits.CurrentPage` | packages/react-instantsearch-core/src/connectors/__tests__/connectInfiniteHits.js:172-193 | the current page is a number (or NaN), and 1 when no page is stored |
| `ConnectInfiniteHits.Refine` | packages/react-instantsearch-core/src/connectors/__tests__/connectInfiniteHits.js:172-183 | sets `page` to the current page plus one (2 from an empty state) and keeps every other key |
| `ConnectInfiniteHits.RefineTextPage` | packages/react-instantsearch-core/src/connectors/__tests__/connectInfiniteHits.js:185-193 | a page stored as the text of n refines to the number n + 1 |
| `ConnectInfiniteHits.RefineExamples` | packages/react-instantsearch-core/src/connectors/__tests__/connectInfiniteHits.js:172-193 | `{}` gives `{page: 2}`, then `{page: 3}`; `{page: '0'}` gives `{page: 1}` |
| `ConnectInfiniteHits.InfiniteHits.constructor` | packages/react-instantsearch-core/src/connectors/__tests__/connectInfiniteHits.js:11-20 | the accumulator starts empty: no hits and no page seen yet, so the first results start over |
| `ConnectInfiniteHits.InfiniteHits.GetProvidedProps` | packages/react-instantsearch-core/src/connectors/__tests__/connectInfiniteHits.js:105-121 | updates the remembered hits and page in place exactly as `Step` does and provides its result |
| `NumberParsing.ParseInt` | packages/react-instantsearch-core/src/connectors/__tests__/connectInfiniteHits.js:185-193 | `parseInt(s, 10)`: NaN iff no digit follows the leading white space and an optional sign; otherwise the sign times the value of the longest digit run; `ParseDecimal`, `ParseNegativeDecimal` and `ParseStopsAtNonDigit` read back `String(n)`, `-String(n)` and `String(n)` followed by a non-digit |
| `NumberParsing.ParseStopsAtNonDigit` | packages/react-instantsearch-core/src/connectors/__tests__/connectInfiniteHits.js:185-193 | reading stops at the first non-digit: `String(n)` followed by any non-digit text reads as n |
| `NumberParsing.ParseDecimal` | packages/react-instantsearch-core/src/connectors/__tests__/connectInfiniteHits.js:189-192 | `parseInt` reads back the decimal text of any natural number |
| `NumberParsing.ParseNegativeDecimal` | packages/react-instantsearch-core/src/connectors/__tests__/connectInfiniteHits.js:189-192 | `parseInt` reads back `-` followed by the decimal text of n as -n |

## Left out

- React rendering and JSX, `ConnectorWrapper`/`InstantSearchConsumer` and the static `displayName`, `propTypes` and `defaultProps` (createConnector.tsx:111-117, 373-380) are framework glue. Only the merged prop map of `render` is modelled.
- `needlessUsageWarning` (createConnector.tsx:6-33) only logs to the console in development builds.
- `context.ts` creates a React context with no-op default hooks and has no logic. Its hooks are the `Event` alphabet.
- `isEqual`, `shallowEqual` and `removeEmptyKey` are uninterpreted (`Utilities`). `getDisplayName` is not modelled. `lodash.has` (key present) and a truthiness test of the same key both read as "the `Option` is `Some`"; a key present with an `undefined` value is not modelled.
- The widgets manager and the context hooks are external: their calls are events, and the handle `registerWidget` returns is a flag. `createHrefForState` is a function given in `Context`.
- React's `setState` is modelled as an immediate assignment of `providedProps`, and React's replacement of `this.props` after `componentWillReceiveProps` as the separate step `Connector.CommitProps`; React's scheduling of the two is not modelled.
- `Store.Dispatch` records each listener call but does not run the listener's body; a binding's listener body is `Connector.OnStoreNotification`. Re-entrant `setState` and listener-list changes during `forEach` are not modelled.
- `getSearchParameters` receives `{ ais: contextValue }` as a fourth argument, and descriptions run with `this` bound to the binding. Neither is modelled: `contextValue` is not part of `Props`.
- A `getProvidedProps` result other than an object or `null` is not modelled.
- The infinite-hits memory lives in `ConnectInfiniteHits.InfiniteHits`, the object the tests call. It is not wired into a `Connector`, whose description functions are pure in this model.
- The implementation files of the hits and infinite-hits connectors and of `indexUtils` are not part of this model. `IndexResults.GetResults` stands for the result selection their tests exercise. With no results there are no hits, no more pages, and the memory is untouched; connectInfiniteHits.js has no test with absent results, so this case is not pinned. The infinite-hits `getSearchParameters` is not modelled.
- ConnectInfiniteHits.CurrentPage: a stored page value that is neither a number nor a string counts as NaN (JavaScript's `+` coercion of other values is not modelled). `props.defaultRefinement` and the multi-index nesting of the refined state are not modelled, because the tests do not exercise them.
- NumberParsing.ParseInt: only ASCII white space is skipped, only radix 10 is modelled, and numbers are unbounded integers rather than IEEE doubles. Reading a stored page with `parseInt` rather than `Number` is the model's choice: the tests do not pin it, and the two differ on text such as `''`, `' '` or `'12px'`.
- The multi-index tests of the hits connector are skipped (`describe.skip`, connectHits.js:32) and assert nothing, so they are not modelled.
