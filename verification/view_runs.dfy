// What every run of the view service keeps: numbers and slots, the acknowledgement gate,
// who can be the next primary, when primary and backup are different servers, and when a
// tick panics.

module ViewRuns {
  import opened Wrappers
  import opened ViewService

  datatype Event =
    | PingEv(me: Name, viewnum: nat, now: int)
    | TickEv(now: int, idle: Option<Name>, inited: Option<Name>)

  function Apply(s: VS, e: Event): VS {
    if s.crashed then s else
    match e
    case PingEv(me, n, now) => Ping(s, me, n, now)
    case TickEv(now, idle, inited) => Tick(s, now, idle, inited)
  }

  // The picks of a tick are ones its loop can make, and servers have names.
  predicate ValidEvent(s: VS, e: Event) {
    match e
    case PingEv(me, _, _) => me != ""
    case TickEv(now, idle, inited) => ValidPick(Sweep(s.clients, now), s.view.num, idle, inited)
  }

  // States ss[0], ss[1], ... reached by the events es[0], es[1], ...
  predicate IsRun(ss: seq<VS>, es: seq<Event>) {
    && |ss| == |es| + 1 && ss[0] == START
    && forall k {:trigger es[k]} :: 0 <= k < |es| ==> ValidEvent(ss[k], es[k]) && ss[k + 1] == Apply(ss[k], es[k])
  }

  // ------------------------------------------------------------------------------
  // View numbers and slots
  // ------------------------------------------------------------------------------

  predicate OnlyCleared(v: View, v': View) {
    && v.num <= v'.num
    && (v.num == v'.num ==> v'.primary in {"", v.primary} && v'.backup in {"", v.backup})
  }

  lemma StepOnlyClears(s: VS, e: Event)
    ensures OnlyCleared(s.view, Apply(s, e).view)
  {
  }

  lemma {:induction false} LaterViewOnlyClears(ss: seq<VS>, es: seq<Event>, i: nat, j: nat)
    requires IsRun(ss, es) && i <= j <= |es|
    ensures OnlyCleared(ss[i].view, ss[j].view)
    decreases j
  {
    if i < j {
      LaterViewOnlyClears(ss, es, i, j - 1);
      StepOnlyClears(ss[j - 1], es[j - 1]);
    }
  }

  // Whoever observes a view number and a server in one of its slots agrees with every
  // other observer of that number that sees a server there.
  lemma ViewsAgree(ss: seq<VS>, es: seq<Event>, i: nat, j: nat)
    requires IsRun(ss, es) && i <= j <= |es|
    ensures var v, v' := ss[i].view, ss[j].view;
      && v.num <= v'.num
      && (v.num == v'.num && v'.primary != "" ==> v'.primary == v.primary)
      && (v.num == v'.num && v'.backup != "" ==> v'.backup == v.backup)
  {
    LaterViewOnlyClears(ss, es, i, j);
  }

  // ------------------------------------------------------------------------------
  // The acknowledgement gate
  // ------------------------------------------------------------------------------

  // Event j is view n's own primary pinging with n while n is current.
  predicate AcksView(ss: seq<VS>, es: seq<Event>, j: nat, n: nat)
    requires j < |es| && j < |ss|
  {
    var v := ss[j].view;
    v.num == n && v.primary != "" && es[j].PingEv? && es[j].me == v.primary && es[j].viewnum == n
  }

  lemma AckedStep(s: VS, e: Event)
    requires ValidEvent(s, e)
    ensures var s' := Apply(s, e);
      s'.acked && s'.view.num >= 1 ==>
        || (s.acked && s.view.num == s'.view.num)
        || (s.view.num == s'.view.num && s.view.primary != "" && e.PingEv? && e.me == s.view.primary
            && e.viewnum == s.view.num)
  {
  }

  lemma {:induction false} AckedHasAPing(ss: seq<VS>, es: seq<Event>, k: nat)
    requires IsRun(ss, es) && k <= |es|
    requires ss[k].acked && ss[k].view.num >= 1
    ensures exists j :: 0 <= j < k && AcksView(ss, es, j, ss[k].view.num)
    decreases k
  {
    if k > 0 {
      var s, n := ss[k - 1], ss[k].view.num;
      assert ss[k] == Apply(s, es[k - 1]);
      AckedStep(s, es[k - 1]);
      if s.acked && s.view.num == n {
        AckedHasAPing(ss, es, k - 1);
      } else {
        assert AcksView(ss, es, k - 1, n);
      }
    }
  }

  // The view number server x gave in its last ping among the first k events.
  function LastPinged(ss: seq<VS>, es: seq<Event>, k: nat, x: Name): Option<nat>
    requires k <= |es| && k <= |ss|
  {
    if k == 0 then None
    else if !ss[k - 1].crashed && es[k - 1].PingEv? && es[k - 1].me == x then Some(es[k - 1].viewnum)
    else LastPinged(ss, es, k - 1, x)
  }

  lemma RecordStep(s: VS, e: Event, x: Name)
    ensures var c, c' := s.clients, Apply(s, e).clients;
      if !s.crashed && e.PingEv? && e.me == x then x in c' && c'[x].lastViewnum == e.viewnum
      else (x in c <==> x in c') && (x in c ==> c'[x].lastViewnum == c[x].lastViewnum)
  {
  }

  lemma {:induction false} RecordsHoldLastPing(ss: seq<VS>, es: seq<Event>, k: nat, x: Name)
    requires IsRun(ss, es) && k <= |es|
    ensures var c := ss[k].clients;
      && (x in c <==> LastPinged(ss, es, k, x).Some?)
      && (x in c ==> LastPinged(ss, es, k, x) == Some(c[x].lastViewnum))
    decreases k
  {
    if k > 0 {
      assert ss[k] == Apply(ss[k - 1], es[k - 1]);
      RecordsHoldLastPing(ss, es, k - 1, x);
      RecordStep(ss[k - 1], es[k - 1], x);
    }
  }

  // A tick that moves on from a view.
  predicate Supersedes(ss: seq<VS>, es: seq<Event>, k: nat)
    requires k < |es| && k + 1 < |ss|
  {
    ss[k + 1].view.num != ss[k].view.num
  }

  // A superseded view was acknowledged by its own primary, and the next primary is that
  // primary, or the backup if its last ping carried the number, or, when no server of
  // the view is left, a live idle one whose last ping carried it.
  lemma Succession(ss: seq<VS>, es: seq<Event>, k: nat)
    requires IsRun(ss, es) && k < |es| && Supersedes(ss, es, k)
    ensures es[k].TickEv? && !ss[k].crashed
    ensures var s, v' := ss[k], ss[k + 1].view;
      var left := Pruned(s, es[k].now).view;  // the servers that are still in their slots
      && v'.num == s.view.num + 1 && v'.primary != ""
      && (s.view.num >= 1 ==> exists j :: 0 <= j < k && AcksView(ss, es, j, s.view.num))
      && (|| (v'.primary == left.primary == s.view.primary)
          || (left.primary == "" && v'.primary == left.backup == s.view.backup && v'.backup == ""
              && LastPinged(ss, es, k, v'.primary) == Some(s.view.num))
          || (left.primary == left.backup == "" && v'.backup == ""
              && v'.primary in s.clients && IsIdle(Judge(s.clients[v'.primary], es[k].now))
              && LastPinged(ss, es, k, v'.primary) == Some(s.view.num)))
  {
    var s, v' := ss[k], ss[k + 1].view;
    assert ss[k + 1] == Apply(s, es[k]);
    NamesAreNotEmpty(ss, es, k);
    RecordsHoldLastPing(ss, es, k, v'.primary);
    if s.view.num >= 1 {
      AckedHasAPing(ss, es, k);
    }
  }

  lemma NamesStep(s: VS, e: Event)
    requires ValidEvent(s, e) && "" !in s.clients
    ensures "" !in Apply(s, e).clients
  {
  }

  lemma {:induction false} NamesAreNotEmpty(ss: seq<VS>, es: seq<Event>, k: nat)
    requires IsRun(ss, es) && k <= |es|
    ensures "" !in ss[k].clients
    decreases k
  {
    if k > 0 {
      assert ss[k] == Apply(ss[k - 1], es[k - 1]);
      NamesAreNotEmpty(ss, es, k - 1);
      NamesStep(ss[k - 1], es[k - 1]);
    }
  }

  // ------------------------------------------------------------------------------
  // What the service knows of the servers in the view
  // ------------------------------------------------------------------------------

  predicate InView(v: View, x: Name) { x != "" && (x == v.primary || x == v.backup) }

  // Servers in the view are known, and a restart that is still to be dealt with is that of
  // a primary that is not marked dead, in an acknowledged view.
  ghost predicate Known(s: VS) {
    && "" !in s.clients
    && (forall x :: InView(s.view, x) ==> x in s.clients)
    && (s.primaryRestarted ==>
          s.acked && s.view.primary in s.clients && !s.clients[s.view.primary].dead)
  }

  lemma StepKeepsKnown(s: VS, e: Event, s': VS)
    requires Known(s) && ValidEvent(s, e) && s' == Apply(s, e)
    ensures Known(s')
  {
  }

  lemma {:induction false} RunKeepsKnown(ss: seq<VS>, es: seq<Event>, k: nat)
    requires IsRun(ss, es) && k <= |es|
    ensures Known(ss[k])
    decreases k
  {
    if k > 0 {
      RunKeepsKnown(ss, es, k - 1);
      StepKeepsKnown(ss[k - 1], es[k - 1], ss[k]);
    }
  }

  lemma StepOfARun(ss: seq<VS>, es: seq<Event>, k: nat)
    requires IsRun(ss, es) && k < |es|
    ensures Known(ss[k]) && ValidEvent(ss[k], es[k]) && ss[k + 1] == Apply(ss[k], es[k])
  {
    RunKeepsKnown(ss, es, k);
  }

  // ------------------------------------------------------------------------------
  // Primary and backup are different servers
  // ------------------------------------------------------------------------------

  predicate Coincide(v: View) { v.primary != "" && v.primary == v.backup }

  // x is in the view although its record is marked idle.
  predicate Flagged(s: VS, x: Name) { InView(s.view, x) && x in s.clients && s.clients[x].idle }

  // So it can be picked to join the view.
  predicate Available(s: VS, x: Name) { Flagged(s, x) && !s.clients[x].dead }

  // What a tick needs to put one server into both slots: the view is acknowledged, only
  // its primary is left in it, and the primary's record is live and marked idle.
  predicate CanCollide(s: VS, now: int) {
    var left := Pruned(s, now).view;
    && s.acked && !TickPanics(s, now)
    && left.primary != "" && left.backup == ""
    && left.primary in s.clients && IsIdle(Judge(s.clients[left.primary], now))
  }

  lemma ATickCollides(s: VS, now: int, idle: Option<Name>, inited: Option<Name>)
    requires Known(s) && !Coincide(s.view) && ValidPick(Sweep(s.clients, now), s.view.num, idle, inited)
    ensures Coincide(Tick(s, now, idle, inited).view) <==> CanCollide(s, now) && idle == Some(s.view.primary)
  {
  }

  lemma SomeInited(swept: map<Name, Client>, num: nat) returns (inited: Option<Name>)
    ensures inited.Some? ==>
              inited.value in swept && IsIdle(swept[inited.value]) && swept[inited.value].lastViewnum == num
    ensures inited.None? ==> forall x :: x in swept ==> !(IsIdle(swept[x]) && swept[x].lastViewnum == num)
  {
    if x :| x in swept && IsIdle(swept[x]) && swept[x].lastViewnum == num {
      inited := Some(x);
    } else {
      inited := None;
    }
  }

  // Exactly then: from different slots, some pick of a tick at this time puts one server
  // into both if and only if CanCollide.
  lemma TickCanCollide(s: VS, now: int)
    requires Known(s) && !Coincide(s.view)
    ensures CanCollide(s, now) <==>
              exists idle, inited :: ValidPick(Sweep(s.clients, now), s.view.num, idle, inited)
                                     && Coincide(Tick(s, now, idle, inited).view)
  {
    if CanCollide(s, now) {
      var inited := SomeInited(Sweep(s.clients, now), s.view.num);
      assert ValidPick(Sweep(s.clients, now), s.view.num, Some(s.view.primary), inited);
      ATickCollides(s, now, Some(s.view.primary), inited);
    }
    forall idle, inited | ValidPick(Sweep(s.clients, now), s.view.num, idle, inited)
                          && Coincide(Tick(s, now, idle, inited).view)
      ensures CanCollide(s, now)
    {
      ATickCollides(s, now, idle, inited);
    }
  }

  lemma CollidingStep(s: VS, e: Event, s': VS)
    requires Known(s) && !Coincide(s.view) && ValidEvent(s, e) && s' == Apply(s, e) && Coincide(s'.view)
    ensures s'.view.primary == s.view.primary && Available(s, s.view.primary)
  {
    if e.TickEv? && !s.crashed {
      ATickCollides(s, e.now, e.idle, e.inited);
    }
  }

  // A server of the view is found overdue while the view is not acknowledged: it is marked
  // dead and idle, and stays in the view.
  predicate Lapses(s: VS, e: Event, x: Name) {
    !s.crashed && !s.acked && e.TickEv? && InView(s.view, x) && x in s.clients && Overdue(s.clients[x], e.now)
  }

  lemma MarkAppears(s: VS, e: Event, s': VS, x: Name)
    requires Known(s) && !Coincide(s.view) && ValidEvent(s, e) && s' == Apply(s, e)
    requires Flagged(s', x) && !Flagged(s, x)
    ensures Lapses(s, e, x) && s'.clients[x].dead
  {
  }

  lemma ComesBack(s: VS, e: Event, s': VS, x: Name)
    requires Known(s) && !Coincide(s.view) && ValidEvent(s, e) && s' == Apply(s, e)
    requires Available(s', x) && !Available(s, x)
    ensures Flagged(s, x) && e.PingEv? && e.me == x && !s.crashed
  {
    if !Flagged(s, x) {
      MarkAppears(s, e, s', x);
    }
  }

  lemma MarkStays(s: VS, e: Event, s': VS, x: Name)
    requires Known(s) && ValidEvent(s, e) && s' == Apply(s, e)
    requires Flagged(s, x) && InView(s'.view, x) && !Available(s, x)
    ensures Flagged(s', x)
  {
  }

  lemma LapseMarks(s: VS, e: Event, s': VS, x: Name)
    requires Lapses(s, e, x) && s' == Apply(s, e)
    ensures Flagged(s', x)
  {
  }

  predicate Stays(ss: seq<VS>, i: nat, j: nat, x: Name)
    requires j < |ss|
  {
    forall m :: i < m <= j ==> InView(ss[m].view, x)
  }

  // x lapses at event i, stays in the view, and pings at event j.
  predicate LapsedAndBack(ss: seq<VS>, es: seq<Event>, i: nat, j: nat, x: Name)
    requires |ss| == |es| + 1
  {
    && i < j < |es| && Lapses(ss[i], es[i], x) && Stays(ss, i, j, x)
    && es[j].PingEv? && es[j].me == x && !ss[j].crashed
  }

  predicate ApartUpTo(ss: seq<VS>, k: nat)
    requires k < |ss|
  {
    forall m :: 0 <= m <= k ==> !Coincide(ss[m].view)
  }

  lemma {:induction false} MarkHasALapse(ss: seq<VS>, es: seq<Event>, k: nat, x: Name) returns (i: nat)
    requires IsRun(ss, es) && k <= |es| && ApartUpTo(ss, k) && Flagged(ss[k], x)
    ensures i < k && Lapses(ss[i], es[i], x) && Stays(ss, i, k, x)
    decreases k
  {
    StepOfARun(ss, es, k - 1);
    if Flagged(ss[k - 1], x) {
      i := MarkHasALapse(ss, es, k - 1, x);
    } else {
      MarkAppears(ss[k - 1], es[k - 1], ss[k], x);
      i := k - 1;
    }
  }

  lemma {:induction false} AvailableCameBack(ss: seq<VS>, es: seq<Event>, k: nat, x: Name) returns (i: nat, j: nat)
    requires IsRun(ss, es) && k <= |es| && ApartUpTo(ss, k) && Available(ss[k], x)
    ensures j < k && LapsedAndBack(ss, es, i, j, x)
    decreases k
  {
    StepOfARun(ss, es, k - 1);
    if Available(ss[k - 1], x) {
      i, j := AvailableCameBack(ss, es, k - 1, x);
    } else {
      ComesBack(ss[k - 1], es[k - 1], ss[k], x);
      i := MarkHasALapse(ss, es, k - 1, x);
      j := k - 1;
    }
  }

  lemma {:induction false} FirstCollision(ss: seq<VS>, k: nat) returns (f: nat)
    requires k < |ss| && !Coincide(ss[0].view) && Coincide(ss[k].view)
    ensures 1 <= f <= k && Coincide(ss[f].view) && ApartUpTo(ss, f - 1)
    decreases k
  {
    if ApartUpTo(ss, k - 1) {
      f := k;
    } else {
      var m :| 0 <= m <= k - 1 && Coincide(ss[m].view);
      f := FirstCollision(ss, m);
    }
  }

  // One server in both slots needs a lapse of that very server, and its ping.
  lemma CollisionNeedsALapse(ss: seq<VS>, es: seq<Event>, k: nat) returns (i: nat, j: nat, f: nat)
    requires IsRun(ss, es) && k <= |es| && Coincide(ss[k].view)
    ensures j < f <= k && Coincide(ss[f].view) && LapsedAndBack(ss, es, i, j, ss[f].view.primary)
  {
    f := FirstCollision(ss, k);
    StepOfARun(ss, es, f - 1);
    CollidingStep(ss[f - 1], es[f - 1], ss[f]);
    i, j := AvailableCameBack(ss, es, f - 1, ss[f].view.primary);
  }

  // The slots differ, and no live client that is marked idle is in the view.
  ghost predicate InOrder(s: VS) { !Coincide(s.view) && forall x :: !Available(s, x) }

  lemma {:induction false} LapsedStaysMarked(ss: seq<VS>, es: seq<Event>, i: nat, m: nat, x: Name)
    requires IsRun(ss, es) && i < m <= |es| && Lapses(ss[i], es[i], x) && Stays(ss, i, m, x)
    requires forall k :: 0 <= k <= |es| ==> !Available(ss[k], x)
    ensures Flagged(ss[m], x)
    decreases m
  {
    StepOfARun(ss, es, m - 1);
    if i == m - 1 {
      LapseMarks(ss[i], es[i], ss[m], x);
    } else {
      LapsedStaysMarked(ss, es, i, m - 1, x);
      MarkStays(ss[m - 1], es[m - 1], ss[m], x);
    }
  }

  lemma LapseSpoils(ss: seq<VS>, es: seq<Event>, i: nat, j: nat, x: Name)
    requires IsRun(ss, es) && LapsedAndBack(ss, es, i, j, x)
    ensures exists k :: 0 <= k <= |es| && Available(ss[k], x)
  {
    if forall k :: 0 <= k <= |es| ==> !Available(ss[k], x) {
      LapsedStaysMarked(ss, es, i, j, x);
      StepOfARun(ss, es, j);
      assert Available(ss[j + 1], x);
    }
  }

  // In every run, primary and backup are never the same server and no live client marked
  // idle is ever in the view, if and only if no server of the view is found overdue while
  // the view is not acknowledged and then, still in the view, pings.
  lemma InOrderUnlessOneComesBack(ss: seq<VS>, es: seq<Event>)
    requires IsRun(ss, es)
    ensures (forall k :: 0 <= k <= |es| ==> InOrder(ss[k])) <==> !exists i, j, x :: LapsedAndBack(ss, es, i, j, x)
  {
    if i: nat, j: nat, x :| LapsedAndBack(ss, es, i, j, x) {
      LapseSpoils(ss, es, i, j, x);
    }
    if k :| 0 <= k <= |es| && !InOrder(ss[k]) {
      var i, j, x := SpoiledByALapse(ss, es, k);
    }
  }

  lemma SpoiledByALapse(ss: seq<VS>, es: seq<Event>, k: nat) returns (i: nat, j: nat, x: Name)
    requires IsRun(ss, es) && k <= |es| && !InOrder(ss[k])
    ensures LapsedAndBack(ss, es, i, j, x)
  {
    if m :| 0 <= m <= k && Coincide(ss[m].view) {
      var f;
      i, j, f := CollisionNeedsALapse(ss, es, m);
      x := ss[f].view.primary;
    } else {
      x :| Available(ss[k], x);
      i, j := AvailableCameBack(ss, es, k, x);
    }
  }

  // With a lapse, one server can end up in both slots.
  lemma LapsePutsOneServerInBothSlots() returns (ss: seq<VS>, es: seq<Event>)
    ensures IsRun(ss, es) && ss[|es|].view == View(2, "a", "a")
  {
    es := [PingEv("a", 0, 0), TickEv(100, Some("a"), Some("a")),   // view 1 is (a, -)
           TickEv(700, None, None),                                // a is late, view 1 not acknowledged
           PingEv("a", 1, 800), TickEv(900, Some("a"), Some("a"))];
    var a0, a1, a2 := Client(false, true, 0, 0), Client(true, true, 0, 0), Client(false, true, 1, 800);
    ss := [START,
           START.(clients := map["a" := a0]),
           VS(View(1, "a", ""), map["a" := a0.(idle := false)], false, false, false),
           VS(View(1, "a", ""), map["a" := a1], false, false, false),
           VS(View(1, "a", ""), map["a" := a2], true, false, false),
           VS(View(2, "a", "a"), map["a" := a2.(idle := false)], false, false, false)];
    assert Sweep(ss[1].clients, 100) == ss[1].clients;
    assert Sweep(ss[2].clients, 700) == ss[3].clients;
    assert Sweep(ss[4].clients, 900) == ss[4].clients;
    assert Apply(ss[0], es[0]) == ss[1];
    assert Apply(ss[1], es[1]) == ss[2];
    assert Apply(ss[2], es[2]) == ss[3];
    assert Apply(ss[3], es[3]) == ss[4];
    assert Apply(ss[4], es[4]) == ss[5];
  }

  // ------------------------------------------------------------------------------
  // When a nil record is dereferenced
  // ------------------------------------------------------------------------------

  // In every run, a tick panics if and only if it has a restart of the primary to deal
  // with and finds that primary overdue.
  lemma TickPanicsIffRestartedAndOverdue(ss: seq<VS>, es: seq<Event>, k: nat, now: int)
    requires IsRun(ss, es) && k <= |es|
    ensures TickPanics(ss[k], now) <==>
              ss[k].primaryRestarted
              && ss[k].view.primary in ss[k].clients && Overdue(ss[k].clients[ss[k].view.primary], now)
  {
    RunKeepsKnown(ss, es, k);
    PanicCause(ss[k], now);
  }

  lemma PanicCause(s: VS, now: int)
    requires Known(s)
    ensures TickPanics(s, now) <==>
              s.primaryRestarted && s.view.primary in s.clients && Overdue(s.clients[s.view.primary], now)
  {
  }

  // The time of the last tick among the first k events.
  function LastTick(es: seq<Event>, k: nat): Option<int>
    requires k <= |es|
  {
    if k == 0 then None
    else if es[k - 1].TickEv? then Some(es[k - 1].now)
    else LastTick(es, k - 1)
  }

  // The clock does not go back, and ticks are never further apart than the dead limit.
  predicate SteadyTicks(es: seq<Event>) {
    && (forall i, j :: 0 <= i < j < |es| ==> es[i].now <= es[j].now)
    && forall k :: 0 <= k < |es| && es[k].TickEv? && LastTick(es, k).Some? ==>
         es[k].now - LastTick(es, k).value <= DEAD_AFTER
  }

  // A restarted primary has pinged since the last tick.
  predicate RestartIsRecent(s: VS, lastTick: Option<int>) {
    && (lastTick.None? ==> s.view.primary == "")
    && (s.primaryRestarted && s.view.primary in s.clients ==>
          s.view.primary != "" && lastTick.Some? && lastTick.value <= s.clients[s.view.primary].lastPing)
  }

  lemma PingIsRecent(s: VS, me: Name, viewnum: nat, now: int, lastTick: Option<int>)
    requires me != "" && RestartIsRecent(s, lastTick) && (s.primaryRestarted ==> s.view.primary in s.clients)
    requires lastTick.Some? ==> lastTick.value <= now
    ensures RestartIsRecent(Ping(s, me, viewnum, now), lastTick)
  {
  }

  lemma TickIsRecent(s: VS, now: int, idle: Option<Name>, inited: Option<Name>, lastTick: Option<int>)
    requires Known(s) && RestartIsRecent(s, lastTick) && (lastTick.Some? ==> now - lastTick.value <= DEAD_AFTER)
    ensures !TickPanics(s, now) && !Tick(s, now, idle, inited).primaryRestarted
  {
    PanicCause(s, now);
  }

  lemma LastTickWasAnEvent(es: seq<Event>, k: nat)
    requires k <= |es| && LastTick(es, k).Some?
    ensures exists j :: 0 <= j < k && LastTick(es, k) == Some(es[j].now)
  {
  }

  lemma {:induction false} RestartsAreRecent(ss: seq<VS>, es: seq<Event>, k: nat)
    requires IsRun(ss, es) && k <= |es| && SteadyTicks(es)
    ensures RestartIsRecent(ss[k], LastTick(es, k)) && !ss[k].crashed
    decreases k
  {
    if k > 0 {
      RestartsAreRecent(ss, es, k - 1);
      StepOfARun(ss, es, k - 1);
      var last := LastTick(es, k - 1);
      match es[k - 1] {
        case PingEv(me, n, now) =>
          if last.Some? {
            LastTickWasAnEvent(es, k - 1);
          }
          PingIsRecent(ss[k - 1], me, n, now, last);
        case TickEv(now, idle, inited) =>
          TickIsRecent(ss[k - 1], now, idle, inited, last);
      }
    }
  }

  lemma NoTickPanics(ss: seq<VS>, es: seq<Event>)
    requires IsRun(ss, es) && SteadyTicks(es)
    ensures !ss[|es|].crashed
  {
    RestartsAreRecent(ss, es, |es|);
  }

  // With ticks too far apart a restarted primary can time out before the tick that
  // handles the restart, which then looks up a record under the empty name.
  lemma SlowTicksPanic() returns (ss: seq<VS>, es: seq<Event>)
    ensures IsRun(ss, es) && ss[|es|].crashed
  {
    es := [PingEv("a", 0, 0), TickEv(100, Some("a"), Some("a")),
           PingEv("a", 1, 200), PingEv("a", 0, 300), TickEv(900, None, None)];
    var a0 := Client(false, true, 0, 0);
    ss := [START,
           START.(clients := map["a" := a0]),
           VS(View(1, "a", ""), map["a" := a0.(idle := false)], false, false, false),
           VS(View(1, "a", ""), map["a" := Client(false, false, 1, 200)], true, false, false),
           VS(View(1, "a", ""), map["a" := Client(false, false, 0, 300)], true, true, false),
           VS(View(1, "a", ""), map["a" := Client(false, false, 0, 300)], true, true, true)];
    assert Sweep(ss[1].clients, 100) == ss[1].clients;
    assert Sweep(ss[4].clients, 900) == map["a" := Client(true, true, 0, 300)];
    assert Apply(ss[0], es[0]) == ss[1];
    assert Apply(ss[1], es[1]) == ss[2];
    assert Apply(ss[2], es[2]) == ss[3];
    assert Apply(ss[3], es[3]) == ss[4];
    assert Apply(ss[4], es[4]) == ss[5];
  }
}
