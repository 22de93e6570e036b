/** The hits connector: passes the results' hits through, and leaves search parameters unchanged. */
module ConnectHits {
  import opened Wrappers
  import opened Values
  import CreateConnector

  datatype HitsResults = HitsResults(hits: seq<Json>)

  datatype HitsProvided = HitsProvided(hits: seq<Json>)

  /** `getProvidedProps`: exactly the results' hits, or no hits when there are no results. */
  function GetProvidedProps(results: Option<HitsResults>): (r: HitsProvided)
    ensures results.None? ==> r == HitsProvided([])
    ensures results.Some? ==> r == HitsProvided(results.value.hits)
  {
    match results
    case None => HitsProvided([])
    case Some(res) => HitsProvided(res.hits)
  }

  /** `getSearchParameters`: the search parameters, unchanged. */
  function GetSearchParameters(searchParameters: Json): (r: Json)
    ensures r == searchParameters
  {
    searchParameters
  }

  /** The description carries `getSearchParameters`, so a bound hits component is a widget. */
  lemma HitsIsWidget(displayName: string)
    requires displayName != ""
    ensures var r := CreateConnector.CreateConnector(CreateConnector.Profile(Some(displayName), {CreateConnector.GetSearchParameters}));
      r.Success? && r.value.isWidget && r.value.hasSearchParameters && !r.value.hasRefine
  {
  }

  /** A mounted hits binding registers with the widgets manager. */
  method MountHitsBinding(c: CreateConnector.Connector)
    requires c.Valid() && c.desc.getSearchParameters.Some?
    requires c.listener !in c.store.listeners
    modifies c, c.store`listeners
    ensures c.Valid() && c.unregisterWidget
    ensures c.events == old(c.events) + [CreateConnector.WidgetRegistered]
  {
    c.DidMount();
  }
}
