/**
 * `createConnector`: validates a widget description, detects its capabilities
 * once, and binds a view component to the store through the `Connector`
 * lifecycle (mount, store notifications, new props, update gate, unmount).
 */
module CreateConnector {
  import opened Wrappers
  import opened Values
  import opened CreateStore

  /** Consumer props of a bound component (the `contextValue` prop is kept apart, in `Context`). */
  type Props = map<string, Json>

  /** `state.providedProps`: an object, or `None` for `null` ("render nothing"). */
  type ProvidedProps = Option<map<string, Json>>

  /** The `searchResults` argument of a description's `getProvidedProps`. */
  datatype SearchResults = SearchResults(
    results: Option<Json>,
    searching: bool,
    searchingForFacetValues: bool,
    isSearchStalled: bool,
    error: Option<Json>)

  /** A widget description: a display name and optional functions, each absent or present. */
  datatype Description = Description(
    displayName: Option<string>,
    getProvidedProps: (Props, SearchState, SearchResults, seq<Json>, Option<Json>) -> ProvidedProps,
    refine: Option<(Props, SearchState, seq<Json>) -> SearchState>,
    getSearchParameters: Option<(Json, Props, SearchState) -> Json>,
    getMetadata: Option<(Props, SearchState) -> Json>,
    transitionState: Option<(Props, SearchState, SearchState) -> SearchState>,
    cleanUp: Option<(Props, SearchState) -> SearchState>,
    searchForFacetValues: Option<(Props, SearchState, seq<Json>) -> Json>,
    shouldComponentUpdate: Option<(Props, Props, ProvidedProps, ProvidedProps) -> bool>)

  /** The optional members a description may carry. */
  datatype Member =
    | Refine | GetSearchParameters | GetMetadata | TransitionState
    | CleanUp | SearchForFacetValues | ShouldComponentUpdate

  /** What `createConnector` inspects of a description: its name and which members are present. */
  datatype Profile = Profile(displayName: Option<string>, members: set<Member>)

  function ProfileOf(d: Description): (p: Profile)
    ensures p.displayName == d.displayName
    ensures Refine in p.members <==> d.refine.Some?
    ensures GetSearchParameters in p.members <==> d.getSearchParameters.Some?
    ensures GetMetadata in p.members <==> d.getMetadata.Some?
    ensures TransitionState in p.members <==> d.transitionState.Some?
    ensures CleanUp in p.members <==> d.cleanUp.Some?
    ensures SearchForFacetValues in p.members <==> d.searchForFacetValues.Some?
    ensures ShouldComponentUpdate in p.members <==> d.shouldComponentUpdate.Some?
  {
    Profile(d.displayName,
      (if d.refine.Some? then {Refine} else {})
      + (if d.getSearchParameters.Some? then {GetSearchParameters} else {})
      + (if d.getMetadata.Some? then {GetMetadata} else {})
      + (if d.transitionState.Some? then {TransitionState} else {})
      + (if d.cleanUp.Some? then {CleanUp} else {})
      + (if d.searchForFacetValues.Some? then {SearchForFacetValues} else {})
      + (if d.shouldComponentUpdate.Some? then {ShouldComponentUpdate} else {}))
  }

  /** The capability flags `createConnector` fixes once per description. */
  datatype Capabilities = Capabilities(
    hasRefine: bool,
    hasSearchForFacetValues: bool,
    hasSearchParameters: bool,
    hasMetadata: bool,
    hasTransitionState: bool,
    hasCleanUp: bool,
    hasShouldComponentUpdate: bool,
    isWidget: bool)

  /** The error `createConnector` throws. */
  datatype ConfigError = MissingDisplayName

  /** A display name is accepted when it is present and non-empty (JavaScript truthiness of a string). */
  predicate HasDisplayName(p: Profile) {
    p.displayName.Some? && p.displayName.value != ""
  }

  /**
   * `createConnector`: throws when the display name is missing or empty, before
   * any binding exists; otherwise fixes the capability flags.
   */
  function CreateConnector(p: Profile): (r: Result<Capabilities, ConfigError>)
    ensures r.Failure? <==> p.displayName.None? || p.displayName == Some("")
    ensures r.Success? ==>
      && (r.value.hasRefine <==> Refine in p.members)
      && (r.value.hasSearchForFacetValues <==> SearchForFacetValues in p.members)
      && (r.value.hasSearchParameters <==> GetSearchParameters in p.members)
      && (r.value.hasMetadata <==> GetMetadata in p.members)
      && (r.value.hasTransitionState <==> TransitionState in p.members)
      && (r.value.hasCleanUp <==> CleanUp in p.members)
      && (r.value.hasShouldComponentUpdate <==> ShouldComponentUpdate in p.members)
      && (r.value.isWidget <==> GetSearchParameters in p.members || GetMetadata in p.members || TransitionState in p.members)
  {
    if !HasDisplayName(p) then Failure(MissingDisplayName)
    else
      var hasSearchParameters := GetSearchParameters in p.members;
      var hasMetadata := GetMetadata in p.members;
      var hasTransitionState := TransitionState in p.members;
      Success(Capabilities(
        Refine in p.members,
        SearchForFacetValues in p.members,
        hasSearchParameters,
        hasMetadata,
        hasTransitionState,
        CleanUp in p.members,
        ShouldComponentUpdate in p.members,
        hasSearchParameters || hasMetadata || hasTransitionState))
  }

  /**
   * Whether a description is a widget depends only on `getSearchParameters`,
   * `getMetadata` and `transitionState`: adding or removing `refine`, `cleanUp`,
   * `searchForFacetValues` or `shouldComponentUpdate` never changes it.
   */
  lemma IsWidgetIgnoresOtherMembers(name: string, members: set<Member>, extra: set<Member>)
    requires name != ""
    requires extra <= {Refine, CleanUp, SearchForFacetValues, ShouldComponentUpdate}
    ensures CreateConnector(Profile(Some(name), members + extra)).value.isWidget
        == CreateConnector(Profile(Some(name), members - extra)).value.isWidget
    ensures !CreateConnector(Profile(Some(name), extra)).value.isWidget
  {
  }

  /** Provided props count as unchanged when both are `null`, or both are objects that are shallow-equal. */
  predicate SameProvided(shallowEqual: (map<string, Json>, map<string, Json>) -> bool,
                         a: ProvidedProps, b: ProvidedProps)
  {
    (a.None? && b.None?) || (a.Some? && b.Some? && shallowEqual(a.value, b.value))
  }

  /**
   * `shouldComponentUpdate`: a custom gate alone decides; otherwise both
   * `null` updates iff the props differ, one `null` always updates, and two
   * objects update iff the props or the provided props differ.
   */
  function UpdateGate(custom: Option<(Props, Props, ProvidedProps, ProvidedProps) -> bool>,
                      shallowEqual: (map<string, Json>, map<string, Json>) -> bool,
                      props: Props, nextProps: Props,
                      provided: ProvidedProps, nextProvided: ProvidedProps): (update: bool)
    ensures custom.Some? ==> update == custom.value(props, nextProps, provided, nextProvided)
    ensures custom.None? ==>
      (!update <==> shallowEqual(props, nextProps) && SameProvided(shallowEqual, provided, nextProvided))
  {
    if custom.Some? then custom.value(props, nextProps, provided, nextProvided)
    else
      var propsEqual := shallowEqual(props, nextProps);
      if provided.None? || nextProvided.None? then
        if provided == nextProvided then !propsEqual else true
      else
        !propsEqual || !shallowEqual(provided.value, nextProvided.value)
  }

  /** The helpers of `lodash` and `./utils` the binding calls, left uninterpreted. */
  datatype Utilities = Utilities(
    isEqual: (Props, Props) -> bool,
    shallowEqual: (map<string, Json>, map<string, Json>) -> bool,
    removeEmptyKey: SearchState -> SearchState)

  /** The outward hook of the context that returns a value. */
  datatype Context = Context(createHrefForState: SearchState -> string)

  /** Calls the binding makes on its context's hooks and on the widgets manager. */
  datatype Event =
    | SearchParametersRegistered(props: Props)
    | WidgetRegistered
    | WidgetsUpdated
    | WidgetUnregistered
    | SearchStateChanged(state: SearchState)
    | InternalStateUpdated(delta: SearchState)
    | HrefCreated(delta: SearchState)
    | SearchForFacetValuesRequested(payload: Json)
    | StoreWritten(written: State)

  /** The `searchResults` snapshot `getProvidedProps` receives, taken from a store state. */
  function SearchResultsOf(s: State): (r: SearchResults)
    ensures r.results == s.results && r.error == s.error
    ensures r.searching == s.searching && r.isSearchStalled == s.isSearchStalled
    ensures r.searchingForFacetValues == s.searchingForFacetValues
  {
    SearchResults(s.results, s.searching, s.searchingForFacetValues, s.isSearchStalled, s.error)
  }

  /** The events a props change emits after recomputing the provided props, given the store's widgets `w`. */
  function ReceivePropsEvents(d: Description, isWidget: bool, nextProps: Props, w: SearchState): seq<Event>
  {
    if !isWidget then []
    else if d.transitionState.None? then [WidgetsUpdated]
    else [WidgetsUpdated, SearchStateChanged(d.transitionState.value(nextProps, w, w))]
  }

  /** A value `render` passes to the wrapped component. */
  datatype RenderedProp = Plain(value: Json) | RefineCallback | CreateURLCallback | SearchForItemsCallback

  /** Wraps plain values for the spread in `render`. */
  function Lift(m: map<string, Json>): (r: map<string, RenderedProp>)
    ensures r.Keys == m.Keys
    ensures forall k :: k in m ==> r[k] == Plain(m[k])
  {
    map k | k in m :: Plain(m[k])
  }

  /** An object spread `{...base, ...top}`: keys of `top` override those of `base`. */
  function Override<V>(base: map<string, V>, top: map<string, V>): (r: map<string, V>)
    ensures r.Keys == base.Keys + top.Keys
    ensures forall k :: k in r ==> r[k] == if k in top then top[k] else base[k]
  {
    base + top
  }

  /** The callback props `render` adds, depending on the capability flags. */
  function CallbackKeys(hasRefine: bool, hasSearchForFacetValues: bool): set<string> {
    (if hasRefine then {"refine", "createURL"} else {})
    + (if hasSearchForFacetValues then {"searchForItems"} else {})
  }

  /** `{...props, ...providedProps, ...refineProps, ...searchForFacetValuesProps}`. */
  function Spread(props: Props, provided: map<string, Json>,
                  hasRefine: bool, hasSearchForFacetValues: bool): map<string, RenderedProp>
  {
    var refineProps: map<string, RenderedProp> :=
      if hasRefine then map["refine" := RefineCallback, "createURL" := CreateURLCallback] else map[];
    var searchProps: map<string, RenderedProp> :=
      if hasSearchForFacetValues then map["searchForItems" := SearchForItemsCallback] else map[];
    Override(Override(Override(Lift(props), Lift(provided)), refineProps), searchProps)
  }

  /**
   * Each key of the spread: `refine`/`createURL` are present only with `refine`
   * and `searchForItems` only with `searchForFacetValues`, and then they win;
   * any other key takes the provided value over the consumer prop.
   */
  lemma SpreadPrecedence(props: Props, provided: map<string, Json>,
                         hasRefine: bool, hasSearchForFacetValues: bool, k: string)
    ensures var r := Spread(props, provided, hasRefine, hasSearchForFacetValues);
      && (k in r <==> k in props || k in provided || k in CallbackKeys(hasRefine, hasSearchForFacetValues))
      && (hasRefine && k == "refine" ==> r[k] == RefineCallback)
      && (hasRefine && k == "createURL" ==> r[k] == CreateURLCallback)
      && (hasSearchForFacetValues && k == "searchForItems" ==> r[k] == SearchForItemsCallback)
      && (k in r && k !in CallbackKeys(hasRefine, hasSearchForFacetValues) ==>
            r[k] == Plain(if k in provided then provided[k] else props[k]))
  {
  }

  /** The bound component: one instance per mounted occurrence of a connected component. */
  class Connector {
    const desc: Description
    const caps: Capabilities
    const store: Store
    const context: Context
    const utils: Utilities
    /** The identity of the listener closure this binding subscribes. */
    const listener: ListenerId

    var props: Props
    var providedProps: ProvidedProps
    var mounted: bool
    var isUnmounting: bool
    /** The `unsubscribe` handle: the listener it removes, once subscribed. */
    var unsubscribe: Option<ListenerId>
    /** Whether the `unregisterWidget` handle is held. */
    var unregisterWidget: bool
    /** Outward calls, in the order made. */
    ghost var events: seq<Event>

    /**
     * The binding exists only for an accepted description, its flags are that
     * description's, and a handle is held only after mounting (a registration
     * only by a widget).
     */
    ghost predicate Valid()
      reads this, store
    {
      && Accepted()
      && store.Valid()
      && (unsubscribe.Some? ==> mounted && unsubscribe.value == listener)
      && (unregisterWidget ==> mounted && caps.isWidget)
    }

    /** The description passed `createConnector`, and `caps` are the flags it fixed. */
    ghost predicate Accepted() {
      CreateConnector(ProfileOf(desc)) == Success(caps)
    }

    /** `getProvidedProps(p)`: the description's transform over the store's current state. */
    function ProvidedPropsFor(p: Props): (r: ProvidedProps)
      reads this, store
      ensures r == desc.getProvidedProps(p, store.state.widgets, SearchResultsOf(store.state),
                                         store.state.metadata, store.state.resultsFacetValues)
    {
      var s := store.state;
      desc.getProvidedProps(p, s.widgets, SearchResultsOf(s), s.metadata, s.resultsFacetValues)
    }

    /** Construction computes the initial provided props from the store; nothing is subscribed or registered. */
    constructor (desc: Description, caps: Capabilities, store: Store, context: Context,
                 utils: Utilities, listener: ListenerId, props: Props)
      requires CreateConnector(ProfileOf(desc)) == Success(caps)
      requires store.Valid()
      ensures Valid()
      ensures this.desc == desc && this.caps == caps && this.store == store
      ensures this.context == context && this.utils == utils && this.listener == listener
      ensures this.props == props
      ensures providedProps == desc.getProvidedProps(props, store.state.widgets, SearchResultsOf(store.state),
                                                      store.state.metadata, store.state.resultsFacetValues)
      ensures !mounted && !isUnmounting && unsubscribe.None? && !unregisterWidget && events == []
    {
      this.desc := desc;
      this.caps := caps;
      this.store := store;
      this.context := context;
      this.utils := utils;
      this.listener := listener;
      this.props := props;
      var s := store.state;
      providedProps := desc.getProvidedProps(props, s.widgets, SearchResultsOf(s), s.metadata, s.resultsFacetValues);
      mounted := false;
      isUnmounting := false;
      unsubscribe := None;
      unregisterWidget := false;
      events := [];
    }

    /** `componentWillMount`: hands `getSearchParameters` to the context when the description has one. */
    method WillMount()
      requires Valid()
      modifies this`events
      ensures Valid()
      ensures events == old(events) + if desc.getSearchParameters.Some? then [SearchParametersRegistered(props)] else []
    {
      if desc.getSearchParameters.Some? {
        events := events + [SearchParametersRegistered(props)];
      }
    }

    /** `componentDidMount`: subscribes to the store, and registers with the widgets manager only when a widget. */
    method DidMount()
      requires Valid()
      requires listener !in store.listeners
      modifies this`mounted, this`unsubscribe, this`unregisterWidget, this`events, store`listeners
      ensures Valid()
      ensures mounted && unsubscribe == Some(listener)
      ensures store.listeners == old(store.listeners) + [listener]
      ensures unregisterWidget == (old(unregisterWidget) || caps.isWidget)
      ensures events == old(events) + if caps.isWidget then [WidgetRegistered] else []
    {
      mounted := true;
      store.Subscribe(listener);
      unsubscribe := Some(listener);
      if caps.isWidget {
        unregisterWidget := true;
        events := events + [WidgetRegistered];
      }
    }

    /** The subscribed listener's body: recompute the provided props unless unmounting has begun. */
    method OnStoreNotification()
      requires Valid()
      modifies this`providedProps
      ensures Valid()
      ensures providedProps == if isUnmounting then old(providedProps) else ProvidedPropsFor(props)
    {
      if !isUnmounting {
        providedProps := ProvidedPropsFor(props);
      }
    }

    /**
     * `componentWillReceiveProps`: nothing happens for deep-equal props;
     * otherwise the provided props are recomputed from `nextProps` and a widget
     * asks the manager to update, then reports `transitionState(nextProps, W, W)`
     * with the same widgets snapshot `W` twice.
     */
    method WillReceiveProps(nextProps: Props)
      requires Valid()
      modifies this`providedProps, this`events
      ensures Valid()
      ensures utils.isEqual(props, nextProps) ==> providedProps == old(providedProps) && events == old(events)
      ensures !utils.isEqual(props, nextProps) ==>
        && providedProps == ProvidedPropsFor(nextProps)
        && events == old(events) + ReceivePropsEvents(desc, caps.isWidget, nextProps, store.state.widgets)
    {
      if !utils.isEqual(props, nextProps) {
        providedProps := ProvidedPropsFor(nextProps);
        if caps.isWidget {
          events := events + [WidgetsUpdated];
          if desc.transitionState.Some? {
            var w := store.GetState().widgets;
            events := events + [SearchStateChanged(desc.transitionState.value(nextProps, w, w))];
          }
        }
      }
    }

    /** React replacing `this.props` with the props it just announced to `componentWillReceiveProps`. */
    method CommitProps(nextProps: Props)
      requires Valid()
      modifies this`props
      ensures Valid() && props == nextProps
    {
      props := nextProps;
    }

    /**
     * `shouldComponentUpdate(nextProps, nextState)`. Since `setState` is an
     * immediate assignment here, the gate must be asked with the props and
     * provided props from before that assignment.
     */
    function ShouldUpdate(nextProps: Props, nextProvided: ProvidedProps): (update: bool)
      reads this
      requires Accepted()
      ensures caps.hasShouldComponentUpdate ==>
        update == desc.shouldComponentUpdate.value(props, nextProps, providedProps, nextProvided)
      ensures !caps.hasShouldComponentUpdate ==>
        (!update <==> utils.shallowEqual(props, nextProps) && SameProvided(utils.shallowEqual, providedProps, nextProvided))
    {
      UpdateGate(desc.shouldComponentUpdate, utils.shallowEqual, props, nextProps, providedProps, nextProvided)
    }

    /**
     * `componentWillUnmount`: mark unmounting, unsubscribe, and, only when
     * registered, unregister; with `cleanUp` also write the cleaned widgets
     * into the store (nothing else of the state changes) and then report them
     * with empty keys removed.
     */
    method WillUnmount()
      requires Valid()
      modifies this`isUnmounting, this`events, store
      ensures Valid()
      ensures isUnmounting
      ensures unsubscribe == old(unsubscribe) && unregisterWidget == old(unregisterWidget)
      ensures store.listeners == if unsubscribe.Some?
        then SpliceOne(old(store.listeners), IndexOf(old(store.listeners), listener))
        else old(store.listeners)
      ensures !unregisterWidget ==>
        store.state == old(store.state) && store.writes == old(store.writes) && store.calls == old(store.calls)
        && events == old(events)
      ensures unregisterWidget && !caps.hasCleanUp ==>
        store.state == old(store.state) && store.writes == old(store.writes) && store.calls == old(store.calls)
        && events == old(events) + [WidgetUnregistered]
      ensures unregisterWidget && caps.hasCleanUp ==>
        var cleaned := desc.cleanUp.value(props, old(store.state).widgets);
        && store.state == old(store.state).(widgets := cleaned)
        && store.writes == old(store.writes) + [store.state]
        && store.calls == old(store.calls) + Deliveries(store.listeners, store.state)
        && events == old(events) + [WidgetUnregistered, StoreWritten(store.state),
                                    SearchStateChanged(utils.removeEmptyKey(cleaned))]
    {
      isUnmounting := true;
      if unsubscribe.Some? {
        store.Unsubscribe(unsubscribe.value);
      }
      if unregisterWidget {
        events := events + [WidgetUnregistered];
        if caps.hasCleanUp {
          var nextState := desc.cleanUp.value(props, store.GetState().widgets);
          store.SetState(store.GetState().(widgets := nextState));
          events := events + [StoreWritten(store.state)];
          events := events + [SearchStateChanged(utils.removeEmptyKey(nextState))];
        }
      }
    }

    /** `getSearchParameters`: the description's function over the current widgets, or `null` without one. */
    function GetSearchParameters(searchParameters: Json): (r: Option<Json>)
      reads this, store
      ensures desc.getSearchParameters.None? <==> r.None?
      ensures r.Some? ==> r.value == desc.getSearchParameters.value(searchParameters, props, store.state.widgets)
    {
      match desc.getSearchParameters
      case Some(f) => Some(f(searchParameters, props, store.state.widgets))
      case None => None
    }

    /** `getMetadata`: the description's function, or `{}` without one. */
    function GetMetadata(nextWidgetsState: SearchState): (r: Json)
      reads this
      requires Accepted()
      ensures caps.hasMetadata ==> r == desc.getMetadata.value(props, nextWidgetsState)
      ensures !caps.hasMetadata ==> r == EmptyObject
    {
      if caps.hasMetadata then desc.getMetadata.value(props, nextWidgetsState) else EmptyObject
    }

    /** `transitionState`: the description's function, or `nextWidgetsState` unchanged without one. */
    function TransitionState(prevWidgetsState: SearchState, nextWidgetsState: SearchState): (r: SearchState)
      reads this
      requires Accepted()
      ensures caps.hasTransitionState ==> r == desc.transitionState.value(props, prevWidgetsState, nextWidgetsState)
      ensures !caps.hasTransitionState ==> r == nextWidgetsState
    {
      if caps.hasTransitionState then desc.transitionState.value(props, prevWidgetsState, nextWidgetsState)
      else nextWidgetsState
    }

    /** The delta `refine` and `createURL` both compute: `desc.refine(props, widgets, ...args)`. */
    function RefineDelta(args: seq<Json>): SearchState
      reads this, store
      requires desc.refine.Some?
    {
      desc.refine.value(props, store.state.widgets, args)
    }

    /** `refine(...args)`: hands the delta to `onInternalStateUpdate`; the store itself is not written. */
    method Refine(args: seq<Json>)
      requires Valid() && caps.hasRefine
      modifies this`events
      ensures Valid()
      ensures events == old(events) + [InternalStateUpdated(RefineDelta(args))]
    {
      var delta := desc.refine.value(props, store.GetState().widgets, args);
      events := events + [InternalStateUpdated(delta)];
    }

    /** `createURL(...args)`: the same delta as `refine`, turned into a reference by `createHrefForState`. */
    method CreateURL(args: seq<Json>) returns (href: string)
      requires Valid() && caps.hasRefine
      modifies this`events
      ensures Valid()
      ensures href == context.createHrefForState(RefineDelta(args))
      ensures events == old(events) + [HrefCreated(RefineDelta(args))]
    {
      var delta := desc.refine.value(props, store.GetState().widgets, args);
      events := events + [HrefCreated(delta)];
      href := context.createHrefForState(delta);
    }

    /** `searchForFacetValues(...args)`: forwards the description's payload to `onSearchForFacetValues`. */
    method SearchForFacetValues(args: seq<Json>)
      requires Valid() && caps.hasSearchForFacetValues
      modifies this`events
      ensures Valid()
      ensures events == old(events) + [SearchForFacetValuesRequested(
        desc.searchForFacetValues.value(props, store.state.widgets, args))]
    {
      var payload := desc.searchForFacetValues.value(props, store.GetState().widgets, args);
      events := events + [SearchForFacetValuesRequested(payload)];
    }

    /**
     * The props `render` passes on: nothing when the provided props are `null`,
     * otherwise the spread of `Spread`.
     */
    function Render(): (r: Option<map<string, RenderedProp>>)
      reads this
      requires Accepted()
      ensures r.None? <==> providedProps.None?
      ensures r.Some? ==> r.value == Spread(props, providedProps.value, caps.hasRefine, caps.hasSearchForFacetValues)
    {
      if providedProps.None? then None
      else Some(Spread(props, providedProps.value, caps.hasRefine, caps.hasSearchForFacetValues))
    }
  }

  /**
   * A props update as React runs it: `componentWillReceiveProps(nextProps)`,
   * then `this.props` becomes `nextProps`. Announcing the same props again
   * afterwards does nothing, `isEqual` being an equality.
   */
  method SamePropsTwice(c: Connector, nextProps: Props)
    requires c.Valid() && c.utils.isEqual(nextProps, nextProps)
    modifies c
    ensures c.Valid() && c.props == nextProps
    ensures c.events == old(c.events) + if c.utils.isEqual(old(c.props), nextProps) then []
      else ReceivePropsEvents(c.desc, c.caps.isWidget, nextProps, c.store.state.widgets)
  {
    c.WillReceiveProps(nextProps);
    c.CommitProps(nextProps);
    ghost var between := c.events;
    c.WillReceiveProps(nextProps);
    assert c.events == between;
    c.CommitProps(nextProps);
  }

  /** A store notification delivered after unmounting has begun recomputes nothing. */
  method StaleNotificationAfterUnmount(c: Connector)
    requires c.Valid()
    modifies c, c.store
    ensures c.Valid() && c.isUnmounting
    ensures c.providedProps == old(c.providedProps)
  {
    c.WillUnmount();
    var before := c.providedProps;
    c.OnStoreNotification();
    assert c.providedProps == before;
  }
}
