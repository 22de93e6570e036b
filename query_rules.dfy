/** The query-rules connector: exposes the `userData` of the results as items. */
module ConnectQueryRules {
  import opened Wrappers
  import opened Values
  import CreateConnector

  /** The part of a search result this connector reads. */
  datatype QueryRulesResults = QueryRulesResults(userData: Option<seq<Json>>)

  /** The consumer props it reads; an absent `transformItems` takes the default prop. */
  datatype QueryRulesProps = QueryRulesProps(transformItems: Option<seq<Json> -> seq<Json>>)

  datatype QueryRulesProvided = QueryRulesProvided(items: seq<Json>, canRefine: bool)

  /** The `transformItems` in effect: the caller's, or the default `items => items`. */
  function TransformItems(props: QueryRulesProps): seq<Json> -> seq<Json> {
    props.transformItems.GetOr(items => items)
  }

  /**
   * `getProvidedProps`: no results give no items and no refinement; otherwise
   * the items are `transformItems(userData)`, `userData` defaulting to `[]`,
   * and `canRefine` holds iff there is at least one item.
   */
  function GetProvidedProps(props: QueryRulesProps, results: Option<QueryRulesResults>): (r: QueryRulesProvided)
    ensures results.None? ==> r == QueryRulesProvided([], false)
    ensures results.Some? ==> r.items == TransformItems(props)(results.value.userData.GetOr([]))
    ensures r.canRefine <==> |r.items| > 0
  {
    match results
    case None => QueryRulesProvided([], false)
    case Some(res) =>
      var userData := res.userData.GetOr([]);
      var transformedItems := TransformItems(props)(userData);
      QueryRulesProvided(transformedItems, |transformedItems| > 0)
  }

  /** With the default `transformItems`, the items are the `userData` itself (or `[]` when absent). */
  lemma DefaultTransformKeepsUserData(results: QueryRulesResults)
    ensures GetProvidedProps(QueryRulesProps(None), Some(results)).items == results.userData.GetOr([])
    ensures GetProvidedProps(QueryRulesProps(None), Some(results)).canRefine
        <==> results.userData.Some? && results.userData.value != []
  {
  }

  /** The description carries `getProvidedProps` and no optional member. */
  const Profile: CreateConnector.Profile := CreateConnector.Profile(Some("AlgoliaQueryRules"), {})

  /** So it is accepted, is not a widget (never registers), and gets no `refine`, `createURL` or `searchForItems`. */
  lemma QueryRulesIsNotWidget()
    ensures CreateConnector.CreateConnector(Profile).Success?
    ensures var caps := CreateConnector.CreateConnector(Profile).value;
      !caps.isWidget && !caps.hasRefine && !caps.hasSearchForFacetValues && !caps.hasCleanUp
  {
  }

  /** A mounted query-rules binding registers with nobody, and every prop it renders is a plain value: no `refine`, `createURL` or `searchForItems` callback. */
  method MountQueryRulesBinding(c: CreateConnector.Connector)
    requires c.Valid() && CreateConnector.ProfileOf(c.desc) == Profile
    requires c.listener !in c.store.listeners
    modifies c, c.store`listeners
    ensures c.Valid() && !c.unregisterWidget && c.events == old(c.events)
    ensures c.Render().Some? ==> forall k :: k in c.Render().value ==> c.Render().value[k].Plain?
  {
    QueryRulesIsNotWidget();
    c.DidMount();
    if c.providedProps.Some? {
      forall k | k in c.Render().value
        ensures c.Render().value[k].Plain?
      {
        CreateConnector.SpreadPrecedence(c.props, c.providedProps.value, c.caps.hasRefine,
                                         c.caps.hasSearchForFacetValues, k);
      }
    }
  }
}
