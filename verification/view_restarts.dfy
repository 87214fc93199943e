// What a tick makes of the view, from the pings that came before it: which servers leave
// their slots, who takes them, and that a restarted primary is noticed.

module ViewRestarts {
  import opened Wrappers
  import opened ViewService
  import opened ViewRuns

  // ------------------------------------------------------------------------------
  // The two flags, from the events
  // ------------------------------------------------------------------------------

  predicate Acknowledged(ss: seq<VS>, es: seq<Event>, k: nat, n: nat)
    requires k <= |es| && k <= |ss|
  {
    exists j :: 0 <= j < k && AcksView(ss, es, j, n)
  }

  lemma AckLastsAStep(s: VS, e: Event)
    requires s.acked && Apply(s, e).view.num == s.view.num
    ensures Apply(s, e).acked
  {
  }

  lemma AckIsTaken(ss: seq<VS>, es: seq<Event>, j: nat, n: nat)
    requires IsRun(ss, es) && j < |es| && AcksView(ss, es, j, n)
    ensures ss[j].crashed || ss[j + 1].acked
  {
    assert ss[j + 1] == Apply(ss[j], es[j]);
  }

  lemma CrashedStep(s: VS, e: Event)
    requires s.crashed ==> s.acked
    ensures Apply(s, e).crashed ==> Apply(s, e).acked
  {
  }

  lemma {:induction false} CrashedIsAcked(ss: seq<VS>, es: seq<Event>, k: nat)
    requires IsRun(ss, es) && k <= |es|
    ensures ss[k].crashed ==> ss[k].acked
    decreases k
  {
    if k > 0 {
      CrashedIsAcked(ss, es, k - 1);
      StepOfARun(ss, es, k - 1);
      CrashedStep(ss[k - 1], es[k - 1]);
    }
  }

  lemma {:induction false} AckLasts(ss: seq<VS>, es: seq<Event>, j: nat, k: nat, n: nat)
    requires IsRun(ss, es) && j < k <= |es| && AcksView(ss, es, j, n) && ss[k].view.num == n
    ensures ss[k].acked
    decreases k
  {
    StepOfARun(ss, es, k - 1);
    ViewsAgree(ss, es, j, k - 1);
    ViewsAgree(ss, es, k - 1, k);
    if j == k - 1 {
      CrashedIsAcked(ss, es, j);
      AckIsTaken(ss, es, j, n);
    } else {
      AckLasts(ss, es, j, k - 1, n);
    }
    if ss[k - 1].acked {
      AckLastsAStep(ss[k - 1], es[k - 1]);
    }
  }

  // The current view counts as acknowledged exactly if its own primary has pinged with its
  // number while it was current.
  lemma AckedIffPinged(ss: seq<VS>, es: seq<Event>, k: nat)
    requires IsRun(ss, es) && k <= |es| && ss[k].view.num >= 1
    ensures ss[k].acked <==> Acknowledged(ss, es, k, ss[k].view.num)
  {
    if ss[k].acked {
      AckedHasAPing(ss, es, k);
    }
    if j :| 0 <= j < k && AcksView(ss, es, j, ss[k].view.num) {
      AckLasts(ss, es, j, k, ss[k].view.num);
    }
  }

  // Event j is the primary of an acknowledged view pinging with 0: it has restarted.
  predicate RestartPing(ss: seq<VS>, es: seq<Event>, j: nat)
    requires j < |es| && j < |ss|
  {
    var v := ss[j].view;
    && es[j].PingEv? && es[j].viewnum == 0 && v.primary != "" && es[j].me == v.primary
    && v.num >= 1 && Acknowledged(ss, es, j, v.num) && !ss[j].crashed
  }

  predicate NoTick(es: seq<Event>, i: nat, j: nat)
    requires j <= |es|
  {
    forall m :: i <= m < j ==> es[m].PingEv?
  }

  // There was one, and no tick since.
  predicate RestartPending(ss: seq<VS>, es: seq<Event>, k: nat)
    requires k <= |es| && k <= |ss|
  {
    exists j :: 0 <= j < k && RestartPing(ss, es, j) && NoTick(es, j, k)
  }

  lemma PingSetsFlag(s: VS, me: Name, n: nat, now: int)
    requires me != ""
    ensures var p := s.view.primary;
      Ping(s, me, n, now).primaryRestarted <==>
        s.primaryRestarted || (n == 0 && p != "" && me == p && s.view.num >= 1 && s.acked)
  {
  }

  lemma TickClearsFlag(s: VS, now: int, idle: Option<Name>, inited: Option<Name>)
    requires Known(s) && !TickPanics(s, now)
    ensures !Tick(s, now, idle, inited).primaryRestarted
  {
  }

  lemma PendingStep(ss: seq<VS>, es: seq<Event>, k: nat)
    requires k < |es| && k < |ss|
    ensures RestartPending(ss, es, k + 1) <==>
              es[k].PingEv? && (RestartPing(ss, es, k) || RestartPending(ss, es, k))
  {
    if RestartPending(ss, es, k + 1) {
      var j :| 0 <= j < k + 1 && RestartPing(ss, es, j) && NoTick(es, j, k + 1);
      assert NoTick(es, j, k);
    }
    if es[k].PingEv? && RestartPending(ss, es, k) {
      var j :| 0 <= j < k && RestartPing(ss, es, j) && NoTick(es, j, k);
      assert NoTick(es, j, k + 1);
    }
    if RestartPing(ss, es, k) {
      assert NoTick(es, k, k + 1);
    }
  }

  lemma {:induction false} FlagIffPending(ss: seq<VS>, es: seq<Event>, k: nat)
    requires IsRun(ss, es) && k <= |es| && !ss[k].crashed
    ensures ss[k].primaryRestarted <==> RestartPending(ss, es, k)
    decreases k
  {
    if k > 0 {
      var s := ss[k - 1];
      StepOfARun(ss, es, k - 1);
      FlagIffPending(ss, es, k - 1);
      PendingStep(ss, es, k - 1);
      match es[k - 1] {
        case PingEv(me, n, now) =>
          PingSetsFlag(s, me, n, now);
          if s.view.num >= 1 {
            AckedIffPinged(ss, es, k - 1);
          }
        case TickEv(now, idle, inited) =>
          TickClearsFlag(s, now, idle, inited);
      }
    }
  }

  // ------------------------------------------------------------------------------
  // What a tick does
  // ------------------------------------------------------------------------------

  // x has pinged, and the tick at this time does not take it for dead.
  predicate Alive(s: VS, x: Name, now: int) { x in s.clients && !Judge(s.clients[x], now).dead }

  // Event i is the last ping of x among the first k events.
  predicate LastPingAt(es: seq<Event>, i: nat, k: nat, x: Name)
    requires k <= |es|
  {
    i < k && es[i].PingEv? && es[i].me == x && forall m :: i < m < k ==> !(es[m].PingEv? && es[m].me == x)
  }

  // A tick among the first k events came too late after it.
  predicate Late(es: seq<Event>, i: nat, k: nat)
    requires i < k <= |es|
  {
    exists m :: i < m < k && es[m].TickEv? && es[m].now - es[i].now > DEAD_AFTER
  }

  lemma RecordOfStep(s: VS, e: Event, s': VS, x: Name)
    requires s' == Apply(s, e) && !s'.crashed && x in s'.clients
    ensures !s.crashed
    ensures e.PingEv? && e.me == x ==> s'.clients[x].lastPing == e.now && !s'.clients[x].dead
    ensures !(e.PingEv? && e.me == x) ==>
              && x in s.clients && s'.clients[x].lastPing == s.clients[x].lastPing
              && (s'.clients[x].dead <==> s.clients[x].dead || (e.TickEv? && Overdue(s.clients[x], e.now)))
  {
  }

  lemma {:induction false} RecordFromPings(ss: seq<VS>, es: seq<Event>, k: nat, x: Name) returns (i: nat)
    requires IsRun(ss, es) && k <= |es| && !ss[k].crashed && x in ss[k].clients
    ensures LastPingAt(es, i, k, x)
    ensures ss[k].clients[x].lastPing == es[i].now && (ss[k].clients[x].dead <==> Late(es, i, k))
    decreases k
  {
    StepOfARun(ss, es, k - 1);
    var e := es[k - 1];
    RecordOfStep(ss[k - 1], e, ss[k], x);
    if e.PingEv? && e.me == x {
      i := k - 1;
    } else {
      i := RecordFromPings(ss, es, k - 1, x);
      if Late(es, i, k - 1) {
        var m :| i < m < k - 1 && es[m].TickEv? && es[m].now - es[i].now > DEAD_AFTER;
        assert i < m < k;
      }
    }
  }

  lemma {:induction false} UnknownNeverPinged(ss: seq<VS>, es: seq<Event>, i: nat, k: nat)
    requires IsRun(ss, es) && i < k <= |es| && es[i].PingEv? && !ss[k].crashed
    ensures es[i].me in ss[k].clients
    decreases k
  {
    StepOfARun(ss, es, k - 1);
    if i < k - 1 {
      UnknownNeverPinged(ss, es, i, k - 1);
      RecordStep(ss[k - 1], es[k - 1], es[i].me);
    }
  }

  // In every run, a tick takes x for alive if and only if x has pinged, and neither this
  // tick nor one since its last ping came more than five ping intervals after that.
  lemma AliveIffPingIsRecent(ss: seq<VS>, es: seq<Event>, k: nat, x: Name)
    requires IsRun(ss, es) && k < |es| && es[k].TickEv? && !ss[k].crashed
    ensures Alive(ss[k], x, es[k].now) <==> exists i :: 0 <= i < k && LastPingAt(es, i, k, x) && !Late(es, i, k + 1)
  {
    if x in ss[k].clients {
      var i := RecordFromPings(ss, es, k, x);
      LateWithTick(es, i, k);
      forall j | 0 <= j < k && LastPingAt(es, j, k, x) ensures j == i {
      }
    }
    if i :| 0 <= i < k && LastPingAt(es, i, k, x) {
      UnknownNeverPinged(ss, es, i, k);
    }
  }

  lemma LateWithTick(es: seq<Event>, i: nat, k: nat)
    requires i < k < |es| && es[k].TickEv?
    ensures Late(es, i, k + 1) <==> Late(es, i, k) || es[k].now - es[i].now > DEAD_AFTER
  {
    if Late(es, i, k) {
      var m :| i < m < k && es[m].TickEv? && es[m].now - es[i].now > DEAD_AFTER;
      assert i < m < k + 1;
    }
  }

  // x could join the view: it is not in it (or is, but came back after a lapse).
  predicate Spare(s: VS, x: Name, now: int) { Alive(s, x, now) && (InView(s.view, x) ==> Flagged(s, x)) }

  // Whoever is not in the view, or dead, is marked idle.
  predicate RestIsIdle(s: VS) {
    forall x :: x in s.clients && (!InView(s.view, x) || s.clients[x].dead) ==> s.clients[x].idle
  }

  lemma PingKeepsRest(s: VS, me: Name, n: nat, now: int)
    requires RestIsIdle(s) && me != ""
    ensures RestIsIdle(Ping(s, me, n, now))
  {
  }

  lemma PruneKeepsRest(s: VS, now: int)
    requires Known(s) && RestIsIdle(s) && !TickPanics(s, now) && s.acked
    ensures RestIsIdle(Pruned(s, now))
  {
  }

  lemma AdvanceKeepsRest(s: VS, now: int, idle: Option<Name>, inited: Option<Name>)
    requires RestIsIdle(s) && "" !in s.clients
    requires idle.Some? ==> idle.value in s.clients && !s.clients[idle.value].dead
    requires inited.Some? ==> inited.value in s.clients && !s.clients[inited.value].dead
    ensures RestIsIdle(Advance(s, idle, inited))
  {
  }

  lemma PrunedKeepsLife(s: VS, now: int, x: Name)
    requires x in Sweep(s.clients, now)
    ensures x in Pruned(s, now).clients && Pruned(s, now).clients[x].dead == Sweep(s.clients, now)[x].dead
  {
  }

  lemma TickKeepsRest(s: VS, now: int, idle: Option<Name>, inited: Option<Name>)
    requires Known(s) && RestIsIdle(s) && ValidPick(Sweep(s.clients, now), s.view.num, idle, inited)
    ensures RestIsIdle(Tick(s, now, idle, inited))
  {
    if !TickPanics(s, now) && s.acked {
      PruneKeepsRest(s, now);
      if idle.Some? {
        PrunedKeepsLife(s, now, idle.value);
      }
      if inited.Some? {
        PrunedKeepsLife(s, now, inited.value);
      }
      AdvanceKeepsRest(Pruned(s, now), now, idle, inited);
    }
  }

  lemma {:induction false} RunKeepsRest(ss: seq<VS>, es: seq<Event>, k: nat)
    requires IsRun(ss, es) && k <= |es|
    ensures RestIsIdle(ss[k])
    decreases k
  {
    if k > 0 {
      RunKeepsRest(ss, es, k - 1);
      StepOfARun(ss, es, k - 1);
      if !ss[k - 1].crashed {
        match es[k - 1] {
          case PingEv(me, n, now) => PingKeepsRest(ss[k - 1], me, n, now);
          case TickEv(now, idle, inited) => TickKeepsRest(ss[k - 1], now, idle, inited);
        }
      }
    }
  }

  // The server in a slot stays there.
  predicate PrimaryStays(s: VS, now: int, restarted: bool) {
    s.view.primary != "" && Alive(s, s.view.primary, now) && !restarted
  }

  predicate BackupStays(s: VS, now: int) { s.view.backup != "" && Alive(s, s.view.backup, now) }

  // The view after a tick that looks at the slots. restarted: the primary has.
  ghost predicate Outcome(s: VS, now: int, restarted: bool, v': View) {
    var v := s.view;
    if PrimaryStays(s, now, restarted) then
      if BackupStays(s, now) then v' == v
      else if exists x :: Spare(s, x, now) then
        v'.num == v.num + 1 && v'.primary == v.primary && Spare(s, v'.backup, now)
      else v' == View(v.num, v.primary, "")
    else if BackupStays(s, now) then
      v' == if s.clients[v.backup].lastViewnum == v.num then View(v.num + 1, v.backup, "")
            else View(v.num, "", v.backup)
    else if exists x :: Spare(s, x, now) && s.clients[x].lastViewnum == v.num then
      v'.num == v.num + 1 && v'.backup == ""
      && Spare(s, v'.primary, now) && s.clients[v'.primary].lastViewnum == v.num
    else v' == View(v.num, "", "")
  }

  lemma SpareIffIdle(s: VS, now: int, x: Name)
    requires RestIsIdle(s)
    ensures Spare(s, x, now) <==> x in s.clients && IsIdle(Judge(s.clients[x], now))
  {
  }

  lemma PicksAreSpares(s: VS, now: int, idle: Option<Name>, inited: Option<Name>)
    requires Known(s) && RestIsIdle(s) && ValidPick(Sweep(s.clients, now), s.view.num, idle, inited)
    ensures if idle.Some? then Spare(s, idle.value, now) else forall x :: !Spare(s, x, now)
    ensures if inited.Some? then Spare(s, inited.value, now) && s.clients[inited.value].lastViewnum == s.view.num
            else forall x :: !(Spare(s, x, now) && s.clients[x].lastViewnum == s.view.num)
  {
    forall x ensures Spare(s, x, now) <==> x in s.clients && IsIdle(Judge(s.clients[x], now)) {
      SpareIffIdle(s, now, x);
    }
  }

  lemma TickOutcome(s: VS, now: int, idle: Option<Name>, inited: Option<Name>)
    requires Known(s) && RestIsIdle(s) && ValidPick(Sweep(s.clients, now), s.view.num, idle, inited)
    requires s.acked && !TickPanics(s, now)
    ensures Outcome(s, now, s.primaryRestarted, Tick(s, now, idle, inited).view)
  {
    PicksAreSpares(s, now, idle, inited);
  }

  // The primary, to be dealt with as restarted, is overdue.
  predicate RestartedAndOverdue(ss: seq<VS>, es: seq<Event>, k: nat)
    requires k < |es| && k < |ss|
  {
    var s := ss[k];
    RestartPending(ss, es, k) && s.view.primary in s.clients && Overdue(s.clients[s.view.primary], es[k].now)
  }

  // In every run, a tick panics if its primary has restarted and is overdue, leaves an
  // unacknowledged view alone, and otherwise has exactly the outcome that the pings before
  // it call for.
  lemma EveryTick(ss: seq<VS>, es: seq<Event>, k: nat)
    requires IsRun(ss, es) && k < |es| && es[k].TickEv? && !ss[k].crashed
    ensures ss[k + 1].crashed <==> RestartedAndOverdue(ss, es, k)
    ensures var s, v' := ss[k], ss[k + 1].view;
      !ss[k + 1].crashed ==>
        if s.view.num == 0 || Acknowledged(ss, es, k, s.view.num)
        then Outcome(s, es[k].now, RestartPending(ss, es, k), v') else v' == s.view
  {
    var s := ss[k];
    StepOfARun(ss, es, k);
    RunKeepsRest(ss, es, k);
    FlagIffPending(ss, es, k);
    PanicCause(s, es[k].now);
    if s.view.num >= 1 {
      AckedIffPinged(ss, es, k);
    } else {
      ViewZero(ss, es, k);
    }
    if s.acked && !TickPanics(s, es[k].now) {
      TickOutcome(s, es[k].now, es[k].idle, es[k].inited);
    }
  }

  lemma ViewZeroStep(s: VS, e: Event)
    requires s.view.num == 0 ==> s.acked
    ensures var s' := Apply(s, e); s'.view.num == 0 ==> s'.acked
  {
  }

  lemma {:induction false} ViewZero(ss: seq<VS>, es: seq<Event>, k: nat)
    requires IsRun(ss, es) && k <= |es|
    ensures ss[k].view.num == 0 ==> ss[k].acked
    decreases k
  {
    if k > 0 {
      ViewZero(ss, es, k - 1);
      StepOfARun(ss, es, k - 1);
      ViewZeroStep(ss[k - 1], es[k - 1]);
    }
  }

  // ------------------------------------------------------------------------------
  // A restarted primary
  // ------------------------------------------------------------------------------

  lemma {:induction false} PingsKeepView(ss: seq<VS>, es: seq<Event>, j: nat, k: nat)
    requires IsRun(ss, es) && j <= k <= |es| && NoTick(es, j, k)
    ensures ss[k].view == ss[j].view && ss[k].crashed == ss[j].crashed
    decreases k
  {
    if j < k {
      PingsKeepView(ss, es, j, k - 1);
      StepOfARun(ss, es, k - 1);
    }
  }

  // The primary of an acknowledged view pings with 0 at event j, and k is the next tick.
  // Unless that finds the primary overdue (and panics), it takes it out of its slot; a
  // backup that is alive leads the next view if its last ping carried the view's number,
  // and else the view is left without a primary. (It can only return to the slot at once if
  // it is in both slots or came back after a lapse.)
  lemma RestartedPrimaryIsReplaced(ss: seq<VS>, es: seq<Event>, j: nat, k: nat)
    requires IsRun(ss, es) && j < k < |es| && RestartPing(ss, es, j) && NoTick(es, j, k) && es[k].TickEv?
    ensures var s, v, v' := ss[k], ss[j].view, ss[k + 1].view; var p, b := v.primary, v.backup;
      && s.view == v && p in s.clients
      && (ss[k + 1].crashed <==> Overdue(s.clients[p], es[k].now))
      && (!ss[k + 1].crashed ==>
            && (v'.primary == p ==> b == p || Flagged(s, p))
            && (b != "" && Alive(s, b, es[k].now) ==>
                  v' == if LastPinged(ss, es, k, b) == Some(v.num) then View(v.num + 1, b, "") else View(v.num, "", b)))
  {
    PingsKeepView(ss, es, j, k);
    var i :| 0 <= i < j && AcksView(ss, es, i, ss[j].view.num);
    assert Acknowledged(ss, es, k, ss[j].view.num);
    assert RestartPending(ss, es, k);
    EveryTick(ss, es, k);
    RunKeepsKnown(ss, es, k);
    RecordsHoldLastPing(ss, es, k, ss[j].view.backup);
  }

  // And only then, or when it is found dead: a tick takes the primary out of its slot if
  // and only if the view is acknowledged and the primary is dead or has pinged with 0
  // since the tick before (with the same exceptions).
  lemma PrimaryLeavesIff(ss: seq<VS>, es: seq<Event>, k: nat)
    requires IsRun(ss, es) && k < |es| && es[k].TickEv? && !ss[k + 1].crashed
    requires ss[k].view.num >= 1 && ss[k].view.primary != ""
    ensures var s, p := ss[k], ss[k].view.primary;
      var out := Acknowledged(ss, es, k, s.view.num) && (!Alive(s, p, es[k].now) || RestartPending(ss, es, k));
      && (ss[k + 1].view.primary != p ==> out)
      && (out ==> ss[k + 1].view.primary != p || s.view.backup == p || Flagged(s, p))
  {
    StepOfARun(ss, es, k);
    EveryTick(ss, es, k);
  }
}
