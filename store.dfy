/**
 * The store of `createStore`: one mutable state record and an ordered list of
 * listeners, notified synchronously, in list order, on every `setState`.
 */
module CreateStore {
  import opened Wrappers
  import opened Values

  /** The identity of a subscribed listener closure. */
  type ListenerId = nat

  /** The store's state record. */
  datatype State = State(
    widgets: SearchState,
    metadata: seq<Json>,
    results: Option<Json>,
    resultsFacetValues: Option<Json>,
    error: Option<Json>,
    searching: bool,
    isSearchStalled: bool,
    searchingForFacetValues: bool)

  /** One call of a listener, with the state `getState` returns during that call. */
  datatype Delivery = Delivery(listener: ListenerId, observed: State)

  /** `Array.prototype.indexOf`: the first position of `x` in `s`, or -1. */
  function IndexOf<T(==)>(s: seq<T>, x: T): (i: int)
    ensures -1 <= i < |s|
    ensures i == -1 <==> x !in s
    ensures 0 <= i ==> s[i] == x && x !in s[..i]
  {
    if s == [] then -1
    else if s[0] == x then 0
    else
      var j := IndexOf(s[1..], x);
      if j < 0 then -1
      else
        assert s[..j + 1] == [s[0]] + s[1..][..j];
        j + 1
  }

  /**
   * `s.splice(start, 1)` on a copy of `s`: a negative `start` counts from the
   * end (clamped at 0), a `start` at or past the end removes nothing.
   */
  function SpliceOne<T>(s: seq<T>, start: int): (r: seq<T>)
    ensures 0 <= start < |s| ==> r == s[..start] + s[start + 1..]
    ensures start == -1 && |s| > 0 ==> r == s[..|s| - 1]
    ensures start == -1 && |s| == 0 ==> r == []
    ensures start >= |s| ==> r == s
  {
    var k := if start < 0 then (if |s| + start < 0 then 0 else |s| + start)
             else (if start < |s| then start else |s|);
    if k < |s| then s[..k] + s[k + 1..] else s
  }

  /** The calls one dispatch makes: one per entry of `listeners`, in order, all seeing `s`. */
  function Deliveries(listeners: seq<ListenerId>, s: State): (d: seq<Delivery>)
    ensures |d| == |listeners|
    ensures forall j :: 0 <= j < |listeners| ==> d[j] == Delivery(listeners[j], s)
  {
    if listeners == [] then []
    else Deliveries(listeners[..|listeners| - 1], s) + [Delivery(listeners[|listeners| - 1], s)]
  }

  /** The listeners called, in call order. */
  function Recipients(d: seq<Delivery>): (r: seq<ListenerId>)
    ensures |r| == |d|
    ensures forall j :: 0 <= j < |d| ==> r[j] == d[j].listener
  {
    seq(|d|, j requires 0 <= j < |d| => d[j].listener)
  }

  /** One dispatch calls exactly the list entries, in list order: a listener listed n times is called n times. */
  lemma DispatchCallsEachEntryOnce(listeners: seq<ListenerId>, s: State, l: ListenerId)
    ensures Recipients(Deliveries(listeners, s)) == listeners
    ensures multiset(Recipients(Deliveries(listeners, s)))[l] == multiset(listeners)[l]
    ensures forall d :: d in Deliveries(listeners, s) ==> d.observed == s
  {
  }

  /** Subscribing the same listener twice makes each later dispatch call it two more times. */
  lemma SubscribeTwiceCalledTwice(listeners: seq<ListenerId>, s: State, l: ListenerId)
    ensures multiset(Recipients(Deliveries(listeners + [l] + [l], s)))[l] == multiset(listeners)[l] + 2
  {
    DispatchCallsEachEntryOnce(listeners + [l] + [l], s, l);
    assert multiset(listeners + [l] + [l]) == multiset(listeners) + multiset{l, l};
  }

  /** Unsubscribing a present listener removes exactly its first entry and keeps the order of the rest. */
  lemma {:induction false} UnsubscribePresent(listeners: seq<ListenerId>, l: ListenerId)
    requires l in listeners
    ensures var i := IndexOf(listeners, l);
            && 0 <= i && l !in listeners[..i]
            && SpliceOne(listeners, i) == listeners[..i] + listeners[i + 1..]
            && multiset(SpliceOne(listeners, i)) == multiset(listeners) - multiset{l}
  {
    var i := IndexOf(listeners, l);
    assert listeners == listeners[..i] + [l] + listeners[i + 1..];
  }

  /**
   * Unsubscribing a listener that is no longer listed is not a no-op:
   * `indexOf` gives -1 and `splice(-1, 1)` removes the last entry.
   */
  lemma UnsubscribeAbsentRemovesLast(listeners: seq<ListenerId>, l: ListenerId)
    requires l !in listeners
    ensures |listeners| > 0 ==> SpliceOne(listeners, IndexOf(listeners, l)) == listeners[..|listeners| - 1]
    ensures |listeners| == 0 ==> SpliceOne(listeners, IndexOf(listeners, l)) == []
  {
  }

  class Store {
    /** The record `createStore` was called with. */
    ghost const initialState: State
    /** Every value passed to `setState`, oldest first. */
    ghost var writes: seq<State>

    var state: State
    var listeners: seq<ListenerId>
    /** The listener calls made so far, oldest first. */
    var calls: seq<Delivery>

    /** The current state is the last value written, or the initial state before any write. */
    ghost predicate Valid()
      reads this
    {
      state == if writes == [] then initialState else writes[|writes| - 1]
    }

    /** `createStore(initialState)`. */
    constructor (initialState: State)
      ensures Valid() && this.initialState == initialState
      ensures state == initialState && writes == [] && listeners == [] && calls == []
    {
      this.initialState := initialState;
      writes := [];
      state := initialState;
      listeners := [];
      calls := [];
    }

    /** `getState`: the initial state until the first `setState`, afterwards the last value passed to it. */
    function GetState(): (s: State)
      reads this
      requires Valid()
      ensures s == if writes == [] then initialState else writes[|writes| - 1]
    {
      state
    }

    /** `setState`: replaces the state first, then calls every listener once, in list order. */
    method SetState(nextState: State)
      requires Valid()
      modifies this`state, this`writes, this`calls
      ensures Valid() && writes == old(writes) + [nextState]
      ensures state == nextState && listeners == old(listeners)
      ensures calls == old(calls) + Deliveries(listeners, nextState)
    {
      state := nextState;
      writes := writes + [nextState];
      Dispatch();
    }

    /** `dispatch`: `listeners.forEach(listener => listener())`. */
    method Dispatch()
      modifies this`calls
      ensures calls == old(calls) + Deliveries(listeners, state)
    {
      var i := 0;
      while i < |listeners|
        invariant 0 <= i <= |listeners|
        invariant calls == old(calls) + Deliveries(listeners[..i], state)
      {
        assert listeners[..i + 1][..i] == listeners[..i];
        calls := calls + [Delivery(listeners[i], state)];
        i := i + 1;
      }
      assert listeners[..i] == listeners;
    }

    /** `subscribe`: appends the listener at the end of the list. */
    method Subscribe(listener: ListenerId)
      modifies this`listeners
      ensures listeners == old(listeners) + [listener]
    {
      listeners := listeners + [listener];
    }

    /** The closure `subscribe` returns: `listeners.splice(listeners.indexOf(listener), 1)`. */
    method Unsubscribe(listener: ListenerId)
      modifies this`listeners
      ensures listeners == SpliceOne(old(listeners), IndexOf(old(listeners), listener))
    {
      var i := IndexOf(listeners, listener);
      listeners := SpliceOne(listeners, i);
    }
  }
}
