/**
 * The infinite-hits connector: remembers the hits of the pages seen so far
 * and the last page seen, appends each new page, and says whether more pages
 * remain; `refine` asks for the next page.
 */
module ConnectInfiniteHits {
  import opened Wrappers
  import opened Values
  import opened IndexResults
  import opened NumberParsing

  /** The part of a search result this connector reads (`hitsPerPage` may be absent). */
  datatype InfiniteHitsResults = InfiniteHitsResults(hits: seq<Json>, page: int, hitsPerPage: Option<int>, nbPages: int)

  datatype InfiniteHitsProvided = InfiniteHitsProvided(hits: seq<Json>, hasMore: bool)

  /** The connector's memory: the accumulated hits and the page last seen (none before the first results). */
  datatype Memory = Memory(allResults: seq<Json>, previousPage: Option<int>)

  const Fresh: Memory := Memory([], None)

  /** More pages remain unless this is the last one: `page < nbPages - 1`. */
  predicate HasMore(page: int, nbPages: int) {
    page < nbPages - 1
  }

  /**
   * One results snapshot merged into the memory: page 0, a page below the last
   * one seen, or the first results ever, start over from the incoming hits; a
   * page above the last one seen appends them; the same page again changes
   * nothing. `hitsPerPage` plays no part.
   */
  function Merge(m: Memory, r: InfiniteHitsResults): (m': Memory)
    ensures m'.previousPage == Some(r.page)
    ensures r.page == 0 || m.previousPage.None? || r.page < m.previousPage.value ==> m'.allResults == r.hits
    ensures r.page != 0 && m.previousPage.Some? && r.page > m.previousPage.value ==>
      m'.allResults == m.allResults + r.hits
    ensures r.page != 0 && m.previousPage == Some(r.page) ==> m'.allResults == m.allResults
  {
    var allResults :=
      if r.page == 0 || m.previousPage.None? || r.page < m.previousPage.value then r.hits
      else if r.page > m.previousPage.value then m.allResults + r.hits
      else m.allResults;
    Memory(allResults, Some(r.page))
  }

  /**
   * `getProvidedProps`: with results for the targeted index, merge them and
   * provide the accumulated hits; without, provide no hits and no more pages,
   * leaving the memory as it was.
   */
  function Step(m: Memory, results: Option<Shape<InfiniteHitsResults>>, ctx: IndexContext): (out: (Memory, InfiniteHitsProvided))
    ensures GetResults(results, ctx).None? ==> out == (m, InfiniteHitsProvided([], false))
    ensures GetResults(results, ctx).Some? ==>
      var r := GetResults(results, ctx).value;
      out.0 == Merge(m, r) && out.1 == InfiniteHitsProvided(out.0.allResults, HasMore(r.page, r.nbPages))
  {
    match GetResults(results, ctx)
    case None => (m, InfiniteHitsProvided([], false))
    case Some(r) =>
      var m' := Merge(m, r);
      (m', InfiniteHitsProvided(m'.allResults, HasMore(r.page, r.nbPages)))
  }

  /** Re-delivering the same snapshot leaves the accumulated hits as they were: no duplication. */
  lemma MergeIdempotent(m: Memory, r: InfiniteHitsResults)
    ensures Merge(Merge(m, r), r) == Merge(m, r)
  {
  }

  /** Multi-index mode behaves as single-index mode on the targeted index's results. */
  lemma MultiIndexActsOnTargetedIndex(m: Memory, byIndex: map<string, InfiniteHitsResults>, ctx: IndexContext)
    requires IndexId(ctx) in byIndex
    ensures Step(m, Some(MultiIndex(byIndex)), ctx) == Step(m, Some(SingleIndex(byIndex[IndexId(ctx)])), ctx)
  {
  }

  /** A sequence of snapshots merged one after the other, oldest first. */
  function Feed(m: Memory, rs: seq<InfiniteHitsResults>): Memory
  {
    if rs == [] then m else Merge(Feed(m, rs[..|rs| - 1]), rs[|rs| - 1])
  }

  /** The hits of all snapshots, concatenated in order. */
  function AllHits(rs: seq<InfiniteHitsResults>): seq<Json>
  {
    if rs == [] then [] else AllHits(rs[..|rs| - 1]) + rs[|rs| - 1].hits
  }

  /** The snapshots are pages 0, 1, 2, ... in order (whatever their `hitsPerPage`). */
  predicate ConsecutiveFromZero(rs: seq<InfiniteHitsResults>) {
    forall i :: 0 <= i < |rs| ==> rs[i].page == i
  }

  /**
   * Feeding pages 0..k, from any memory, accumulates exactly their hits in
   * order, even when `hitsPerPage` changes along the way.
   */
  lemma {:induction false} FeedConsecutivePages(m: Memory, rs: seq<InfiniteHitsResults>)
    requires |rs| > 0 && ConsecutiveFromZero(rs)
    ensures Feed(m, rs) == Memory(AllHits(rs), Some(|rs| - 1))
  {
    var n := |rs|;
    var init := rs[..n - 1];
    if n == 1 {
      assert init == [];
    } else {
      assert ConsecutiveFromZero(init) by {
        forall i | 0 <= i < |init| ensures init[i].page == i {
          assert init[i] == rs[i];
        }
      }
      FeedConsecutivePages(m, init);
    }
  }

  /** Pages of equal size `size` accumulate to `(k + 1) * size` hits. */
  lemma {:induction false} AllHitsLength(rs: seq<InfiniteHitsResults>, size: nat)
    requires forall i :: 0 <= i < |rs| ==> |rs[i].hits| == size
    ensures |AllHits(rs)| == |rs| * size
  {
    if rs != [] {
      var init := rs[..|rs| - 1];
      assert forall i :: 0 <= i < |init| ==> init[i] == rs[i];
      AllHitsLength(init, size);
    }
  }

  /**
   * Feeding pages 0..k of `nbPages` pages provides the concatenation of all
   * their hits, with more pages to come exactly when `k < nbPages - 1`.
   */
  lemma FeedingPagesInOrder(m: Memory, rs: seq<InfiniteHitsResults>, nbPages: int, ctx: IndexContext)
    requires |rs| > 0 && ConsecutiveFromZero(rs)
    requires rs[|rs| - 1].nbPages == nbPages
    ensures var before := Feed(m, rs[..|rs| - 1]);
      var out := Step(before, Some(SingleIndex(rs[|rs| - 1])), ctx);
      && out.1.hits == AllHits(rs)
      && (out.1.hasMore <==> |rs| - 1 < nbPages - 1)
  {
    FeedConsecutivePages(m, rs);
  }

  /**
   * The paging test: pages 0, 1, 2 with `hitsPerPage` 6, 6 and then 8, then
   * page 2 again, accumulate the three batches once each.
   */
  lemma HitsPerPageChangeDoesNotReset(m: Memory, h1: seq<Json>, h2: seq<Json>, h3: seq<Json>)
    ensures var r0 := InfiniteHitsResults(h1, 0, Some(6), 10);
      var r1 := InfiniteHitsResults(h2, 1, Some(6), 10);
      var r2 := InfiniteHitsResults(h3, 2, Some(8), 10);
      Merge(Merge(Merge(m, r0), r1), r2).allResults == h1 + h2 + h3
      && Merge(Merge(Merge(Merge(m, r0), r1), r2), r2).allResults == h1 + h2 + h3
  {
  }

  /**
   * Results served from a cache at a non-zero page, after a later page was
   * seen (or before any), provide exactly that page's hits.
   */
  lemma CachedPageStartsOver(m: Memory, r: InfiniteHitsResults, ctx: IndexContext)
    requires m.previousPage.None? || r.page < m.previousPage.value
    ensures Step(m, Some(SingleIndex(r)), ctx).1 == InfiniteHitsProvided(r.hits, r.page < r.nbPages - 1)
  {
  }

  /**
   * The page `refine` starts from: the stored `page`, parsed when stored as
   * text, or 1 when absent; any other stored value counts as NaN.
   */
  function CurrentPage(state: SearchState): (p: Json)
    ensures p.JNum? || p.JNaN?
    ensures "page" !in state ==> p == JNum(1)
  {
    if "page" !in state then JNum(1)
    else match state["page"]
      case JNum(n) => JNum(n)
      case JStr(s) => (match ParseInt(s) case Some(n) => JNum(n) case None => JNaN)
      case _ => JNaN
  }

  /** `refine`: the state with `page` set to the current page plus one. */
  function Refine(state: SearchState): (r: SearchState)
    ensures r.Keys == state.Keys + {"page"}
    ensures forall k :: k in state && k != "page" ==> r[k] == state[k]
    ensures "page" !in state ==> r["page"] == JNum(2)
    ensures "page" in state && state["page"].JNum? ==> r["page"] == JNum(state["page"].n + 1)
  {
    var next := match CurrentPage(state) case JNum(n) => JNum(n + 1) case _ => JNaN;
    state["page" := next]
  }

  /** A page stored as the text of a number is read as that number: `{page: String(n)}` refines to `{page: n + 1}`. */
  lemma RefineTextPage(state: SearchState, n: nat)
    requires "page" in state && state["page"] == JStr(Decimal(n))
    ensures Refine(state)["page"] == JNum(n + 1)
  {
    ParseDecimal(n);
  }

  /** The refine tests: `{}` gives `{page: 2}`, then `{page: 3}`; `{page: '0'}` gives `{page: 1}`. */
  lemma RefineExamples()
    ensures Refine(map[]) == map["page" := JNum(2)]
    ensures Refine(Refine(map[])) == map["page" := JNum(3)]
    ensures Refine(map["page" := JStr("0")]) == map["page" := JNum(1)]
  {
    var once := Refine(map[]);
    assert once.Keys == {"page"} && once["page"] == JNum(2);
    assert once == map["page" := JNum(2)];
    var twice := Refine(once);
    assert twice.Keys == {"page"} && twice["page"] == JNum(3);
    var text := map["page" := JStr("0")];
    assert Decimal(0) == "0";
    RefineTextPage(text, 0);
    assert Refine(text).Keys == {"page"};
  }

  /** The connector object whose `getProvidedProps` carries the memory from call to call. */
  class InfiniteHits {
    var allResults: seq<Json>
    var previousPage: Option<int>

    function Current(): Memory
      reads this
    {
      Memory(allResults, previousPage)
    }

    constructor ()
      ensures Current() == Fresh
    {
      allResults := [];
      previousPage := None;
    }

    /** `getProvidedProps`: updates the memory in place and provides the accumulated hits. */
    method GetProvidedProps(results: Option<Shape<InfiniteHitsResults>>, ctx: IndexContext)
      returns (provided: InfiniteHitsProvided)
      modifies this
      ensures (Current(), provided) == Step(old(Current()), results, ctx)
    {
      var selected := GetResults(results, ctx);
      if selected.None? {
        return InfiniteHitsProvided([], false);
      }
      var r := selected.value;
      if r.page == 0 {
        allResults := r.hits;
      } else if previousPage.None? {
        allResults := r.hits;
      } else if r.page > previousPage.value {
        allResults := allResults + r.hits;
      } else if r.page < previousPage.value {
        allResults := r.hits;
      }
      previousPage := Some(r.page);
      provided := InfiniteHitsProvided(allResults, r.page < r.nbPages - 1);
    }
  }
}
