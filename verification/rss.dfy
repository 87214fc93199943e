// The subscription loop of the feed reader: one fetch at a time, items offered one by
// one, each GUID once.

module Rss {
  import opened Wrappers

  datatype Item = Item(title: string, channel: string, guid: string)

  const MAX_PENDING: nat := 10

  // Cases the select of the loop may take. A result has an error or items.
  datatype Event = StartFetch | FetchDone(fetched: seq<Item>, err: Option<string>) | Receive | Closing

  // fetching: a fetch is under way. The remaining fields are history: what the
  // subscriber received, all items of error-free results, and the largest such result.
  datatype State = State(
    pending: seq<Item>, seen: set<string>, fetching: bool, err: Option<string>, closed: bool,
    received: seq<Item>, fetchedAll: seq<Item>, largest: nat)

  const START: State := State([], {}, false, None, false, [], [], 0)

  // The select only takes a case that is ready.
  predicate Ready(s: State, e: Event) {
    !s.closed &&
    match e
    case StartFetch => !s.fetching && |s.pending| < MAX_PENDING
    case FetchDone(_, _) => s.fetching
    case Receive => s.pending != []
    case Closing => true
  }

  // The pending items and seen GUIDs after taking in a result, item by item.
  function Admit(pending: seq<Item>, seen: set<string>, items: seq<Item>): (seq<Item>, set<string>)
    decreases |items|
  {
    if items == [] then (pending, seen)
    else if items[0].guid in seen then Admit(pending, seen, items[1..])
    else Admit(pending + [items[0]], seen + {items[0].guid}, items[1..])
  }

  function Apply(s: State, e: Event): State {
    if !Ready(s, e) then s else
    match e
    case StartFetch => s.(fetching := true)
    case FetchDone(items, err) =>
      var s1 := s.(fetching := false, err := err);
      if err.Some? then s1
      else var (p, seen) := Admit(s.pending, s.seen, items);
           s1.(pending := p, seen := seen, fetchedAll := s.fetchedAll + items,
               largest := if |items| > s.largest then |items| else s.largest)
    case Receive => s.(pending := s.pending[1..], received := s.received + [s.pending[0]])
    case Closing => s.(closed := true)
  }

  function After(es: seq<Event>): State {
    if es == [] then START else Apply(After(es[..|es| - 1]), es[|es| - 1])
  }

  // The loop on a finite sequence of events; it returns the last error when closed.
  method Loop(es: seq<Event>) returns (received: seq<Item>, pending: seq<Item>, closed: Option<Option<string>>)
    ensures var s := After(es);
      received == s.received && pending == s.pending && closed == if s.closed then Some(s.err) else None
  {
    received, pending, closed := [], [], None;
    var seen: set<string>, fetching, err := {}, false, None;
    ghost var s := START;
    var i := 0;
    while i < |es|
      invariant 0 <= i <= |es|
      invariant s == After(es[..i])
      invariant received == s.received && pending == s.pending && seen == s.seen && fetching == s.fetching
                && err == s.err
      invariant closed == if s.closed then Some(s.err) else None
    {
      var e := es[i];
      assert es[..i + 1][..i] == es[..i];
      s := Apply(s, e);
      i := i + 1;
      if closed.Some? {
        continue;
      }
      match e {
        case StartFetch =>
          if !fetching && |pending| < MAX_PENDING {
            fetching := true;
          }
        case FetchDone(fetched, failure) =>
          if fetching {
            fetching, err := false, failure;
            if failure.None? {
              pending, seen := TakeIn(pending, seen, fetched);
            }
          }
        case Receive =>
          if pending != [] {
            received, pending := received + [pending[0]], pending[1..];
          }
        case Closing =>
          closed := Some(err);
      }
    }
    assert es[..i] == es;
  }

  // The loop over the items of one result.
  method TakeIn(pending0: seq<Item>, seen0: set<string>, fetched: seq<Item>)
      returns (pending: seq<Item>, seen: set<string>)
    ensures (pending, seen) == Admit(pending0, seen0, fetched)
  {
    pending, seen := pending0, seen0;
    var k := 0;
    while k < |fetched|
      invariant 0 <= k <= |fetched|
      invariant Admit(pending, seen, fetched[k..]) == Admit(pending0, seen0, fetched)
    {
      var item := fetched[k];
      if item.guid !in seen {
        pending := pending + [item];
        seen := seen + {item.guid};
      }
      k := k + 1;
    }
  }

  // ------------------------------------------------------------------------------
  // What the subscriber gets
  // ------------------------------------------------------------------------------

  predicate Repeats(items: seq<Item>, k: nat)
    requires k < |items|
  {
    exists j :: 0 <= j < k && items[j].guid == items[k].guid
  }

  // The items whose GUID has not occurred before.
  function FirstOccurrences(items: seq<Item>): seq<Item> {
    if items == [] then []
    else FirstOccurrences(items[..|items| - 1]) + if Repeats(items, |items| - 1) then [] else [items[|items| - 1]]
  }

  function Guids(items: seq<Item>): set<string> { set k | 0 <= k < |items| :: items[k].guid }

  lemma GuidsAppend(items: seq<Item>, x: Item)
    ensures Guids(items + [x]) == Guids(items) + {x.guid}
    ensures Repeats(items + [x], |items|) <==> x.guid in Guids(items)
  {
    var all := items + [x];
    assert all[|items|] == x && forall k :: 0 <= k < |items| ==> all[k] == items[k];
    assert forall k :: 0 <= k < |items| ==> items[k].guid in Guids(all);
    assert x.guid in Guids(all);
  }

  lemma {:induction false} AdmitIsFirstOccurrence(before: seq<Item>, pending: seq<Item>, items: seq<Item>,
      out: seq<Item>)
    requires out + pending == FirstOccurrences(before)
    ensures var (p, seen) := Admit(pending, Guids(before), items);
      && out + p == FirstOccurrences(before + items)
      && seen == Guids(before + items)
      && |p| <= |pending| + |items|
    decreases |items|
  {
    if items == [] {
      assert before + items == before;
    } else {
      var b1 := before + [items[0]];
      assert before + items == b1 + items[1..];
      assert b1[..|before|] == before;
      GuidsAppend(before, items[0]);
      if items[0].guid in Guids(before) {
        assert Guids(b1) == Guids(before);
        AdmitIsFirstOccurrence(b1, pending, items[1..], out);
      } else {
        assert out + (pending + [items[0]]) == FirstOccurrences(before) + [items[0]];
        AdmitIsFirstOccurrence(b1, pending + [items[0]], items[1..], out);
      }
    }
  }

  predicate Inv(s: State) {
    && s.received + s.pending == FirstOccurrences(s.fetchedAll)
    && s.seen == Guids(s.fetchedAll)
    && (s.fetching ==> |s.pending| <= MAX_PENDING - 1)
    && |s.pending| <= MAX_PENDING - 1 + s.largest
  }

  lemma StepKeeps(s: State, e: Event)
    requires Inv(s)
    ensures Inv(Apply(s, e))
  {
    if Ready(s, e) && e.FetchDone? && e.err.None? {
      AdmitIsFirstOccurrence(s.fetchedAll, s.pending, e.fetched, s.received);
    }
    if Ready(s, e) && e.Receive? {
      assert s.received + [s.pending[0]] + s.pending[1..] == s.received + s.pending;
    }
  }

  // In every run: what was received, followed by what is pending, is exactly the first
  // occurrence of every GUID among all items fetched without error, in order; and the
  // backlog stays below ten plus the largest result.
  lemma {:induction false} EachItemOnceInOrder(es: seq<Event>)
    ensures var s := After(es);
      && s.received + s.pending == FirstOccurrences(s.fetchedAll)
      && |s.pending| <= MAX_PENDING - 1 + s.largest
      && Inv(s)
  {
    if es == [] {
      assert Guids([]) == {};
    } else {
      EachItemOnceInOrder(es[..|es| - 1]);
      StepKeeps(After(es[..|es| - 1]), es[|es| - 1]);
    }
  }

  // First occurrences are what the name says.
  lemma {:induction false} OncePerGuid(items: seq<Item>)
    ensures var f := FirstOccurrences(items);
      && (forall i, j :: 0 <= i < j < |f| ==> f[i].guid != f[j].guid)
      && Guids(f) == Guids(items)
  {
    if items != [] {
      var front, last := items[..|items| - 1], items[|items| - 1];
      OncePerGuid(front);
      var f := FirstOccurrences(front);
      assert items == front + [last];
      GuidsAppend(front, last);
      if last.guid !in Guids(front) {
        GuidsAppend(f, last);
        assert forall j :: 0 <= j < |f| ==> f[j].guid in Guids(f);
      } else {
        assert FirstOccurrences(items) == f;
        assert Guids(front) + {last.guid} == Guids(front);
      }
    }
  }

  // ------------------------------------------------------------------------------
  // What is reported at the end
  // ------------------------------------------------------------------------------

  // Event i is a result that the loop took.
  predicate Taken(es: seq<Event>, i: nat)
    requires i < |es|
  {
    es[i].FetchDone? && Ready(After(es[..i]), es[i])
  }

  predicate LastTaken(es: seq<Event>, i: nat) {
    i < |es| && Taken(es, i) && forall j :: i < j < |es| ==> !Taken(es, j)
  }

  lemma ErrorStep(s: State, e: Event)
    ensures Apply(s, e).err == if e.FetchDone? && Ready(s, e) then e.err else s.err
  {
  }

  lemma TakenBefore(es: seq<Event>, i: nat)
    requires i < |es| - 1
    ensures Taken(es[..|es| - 1], i) <==> Taken(es, i)
  {
    assert es[..|es| - 1][..i] == es[..i];
  }

  // The error at any time, and so the one reported at closing, is that of the last result
  // that was taken, and None if there was no result yet.
  lemma {:induction false} ErrorOfTheLastFetch(es: seq<Event>) returns (last: Option<nat>)
    ensures match last
            case Some(i) => LastTaken(es, i) && After(es).err == es[i].err
            case None => After(es).err == None && forall j :: 0 <= j < |es| ==> !Taken(es, j)
  {
    if es == [] {
      last := None;
    } else {
      var n, before := |es| - 1, es[..|es| - 1];
      last := ErrorOfTheLastFetch(before);
      ErrorStep(After(before), es[n]);
      forall j | 0 <= j < n ensures Taken(before, j) <==> Taken(es, j) {
        TakenBefore(es, j);
      }
      if Taken(es, n) {
        last := Some(n);
      }
    }
  }

  // ------------------------------------------------------------------------------
  // One fetch at a time
  // ------------------------------------------------------------------------------

  // Event i is a fetch that the loop started and whose result it has not taken.
  predicate UnderWay(es: seq<Event>, i: nat) {
    && i < |es| && es[i].StartFetch? && Ready(After(es[..i]), es[i])
    && forall j :: i < j < |es| ==> !Taken(es, j)
  }

  lemma FetchingStep(s: State, e: Event)
    ensures Apply(s, e).fetching <==>
              if Ready(s, e) && e.StartFetch? then true else s.fetching && !(Ready(s, e) && e.FetchDone?)
  {
  }

  lemma UnderWayBefore(es: seq<Event>, i: nat)
    requires i < |es| - 1
    ensures UnderWay(es, i) <==> UnderWay(es[..|es| - 1], i) && !Taken(es, |es| - 1)
  {
    var before := es[..|es| - 1];
    assert before[..i] == es[..i];
    forall j | 0 <= j < |before| ensures Taken(before, j) <==> Taken(es, j) {
      TakenBefore(es, j);
    }
  }

  lemma {:induction false} FetchingIffUnderWay(es: seq<Event>)
    ensures After(es).fetching <==> exists i :: 0 <= i < |es| && UnderWay(es, i)
  {
    if es != [] {
      var n, before := |es| - 1, es[..|es| - 1];
      FetchingIffUnderWay(before);
      FetchingStep(After(before), es[n]);
      forall i | 0 <= i < n ensures UnderWay(es, i) <==> UnderWay(before, i) && !Taken(es, n) {
        UnderWayBefore(es, i);
      }
      if es[n].StartFetch? && Ready(After(before), es[n]) {
        assert UnderWay(es, n);
      }
    }
  }

  lemma {:induction false} ClosedIffClosing(es: seq<Event>)
    ensures After(es).closed <==> exists i :: 0 <= i < |es| && es[i].Closing?
  {
    if es != [] {
      ClosedIffClosing(es[..|es| - 1]);
    }
  }

  // In every run that has not been closed, a fetch is started exactly if none is under way
  // and fewer than ten items are pending, a result is taken exactly if a fetch is under
  // way, and an item is handed over exactly if one is pending.
  lemma WhatTheLoopTakes(es: seq<Event>, e: Event)
    requires forall i :: 0 <= i < |es| ==> !es[i].Closing?
    ensures var s, fetching := After(es), exists i :: 0 <= i < |es| && UnderWay(es, i);
      var s' := After(es + [e]);
      && (e.StartFetch? ==> s' == if !fetching && |s.pending| < 10 then s.(fetching := true) else s)
      && (e.FetchDone? ==>
            && s'.err == (if fetching then e.err else s.err)
            && s'.fetchedAll == s.fetchedAll + if fetching && e.err.None? then e.fetched else [])
      && (e.Receive? ==> s'.received == s.received + if s.pending == [] then [] else [s.pending[0]])
  {
    FetchingIffUnderWay(es);
    ClosedIffClosing(es);
    assert (es + [e])[..|es|] == es;
  }
}
