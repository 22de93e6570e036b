/**
 * How a connector picks its results out of the store's `results`: a single
 * result in single-index mode, or the entry of the targeted index in
 * multi-index mode.
 */
module IndexResults {
  import opened Wrappers

  /** The shape of the store's `results`. */
  datatype Shape<R> = SingleIndex(single: R) | MultiIndex(byIndex: map<string, R>)

  /** The index a binding targets: its index context's index, or else the main one. */
  datatype IndexContext = IndexContext(mainTargetedIndex: string, targetedIndex: Option<string>)

  function IndexId(ctx: IndexContext): string {
    ctx.targetedIndex.GetOr(ctx.mainTargetedIndex)
  }

  /** The results a connector works on; `None` when no search has completed or the index has no entry. */
  function GetResults<R>(results: Option<Shape<R>>, ctx: IndexContext): (r: Option<R>)
    ensures results.None? ==> r.None?
    ensures results.Some? && results.value.SingleIndex? ==> r == Some(results.value.single)
    ensures results.Some? && results.value.MultiIndex? ==>
      (r.Some? <==> IndexId(ctx) in results.value.byIndex)
      && (r.Some? ==> r.value == results.value.byIndex[IndexId(ctx)])
  {
    match results
    case None => None
    case Some(SingleIndex(r)) => Some(r)
    case Some(MultiIndex(m)) => if IndexId(ctx) in m then Some(m[IndexId(ctx)]) else None
  }
}
