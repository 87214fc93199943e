// The lock service in every interleaving of its clients, with the primary (or the
// backup) crashing at any point: it is one atomic lock table.

module LockRuns {
  import opened Wrappers
  import opened LockService

  // A request the primary is working on: its decision, and whether the backup has been
  // told. The primary's lock keeps other requests out meanwhile.
  datatype Work = Work(req: Req, ok: bool, forwarded: bool)

  datatype Entry = Entry(req: Req, ok: bool)

  // stray: a forwarded request still on its way when the primary crashed.
  // log: the single history of the requests that took effect. replies: results sent to
  // clients by a server.
  datatype Sys = Sys(
    primary: Table, backup: Table,
    primaryUp: bool, backupUp: bool,
    work: Option<Work>, stray: Option<Req>,
    issued: map<Uuid, Req>,
    log: seq<Entry>, replies: seq<Entry>)

  const EMPTY: Sys := Sys(NO_LOCKS, NO_LOCKS, true, true, None, None, map[], [], [])

  datatype Step =
    | Issue(r: Req)          // a client picks a Uuid for a new request
    | Begin(u: Uuid)         // the primary takes the request and decides
    | ForwardCall            // its call to the backup ends
    | Finish                 // it records the result and replies
    | CrashPrimary
    | CrashBackup
    | StrayArrives           // a forwarded request outlives the primary
    | AskBackup(u: Uuid)     // a client whose call to the primary failed tries the backup

  function AtBackup(s: Sys, r: Req): Sys {
    s.(backup := Serve(s.backup, r),
       log := if r.uuid in s.backup.replays then s.log else s.log + [Entry(r, Decide(s.backup, r))])
  }

  function Apply(s: Sys, step: Step): Sys {
    match step
    case Issue(r) =>
      if r.uuid in s.issued then s else s.(issued := s.issued[r.uuid := r])
    case Begin(u) =>
      if !s.primaryUp || s.work.Some? || u !in s.issued then s
      else if u in s.primary.replays then s.(replies := s.replies + [Entry(s.issued[u], s.primary.replays[u])])
      else var r := s.issued[u];
           s.(primary := s.primary.(locks := Locks(s.primary, r)), work := Some(Work(r, Decide(s.primary, r), false)))
    case ForwardCall =>
      if !s.primaryUp || s.work.None? || s.work.value.forwarded then s
      else var w := s.work.value;
           var s1 := if s.backupUp then AtBackup(s, w.req) else s.(log := s.log + [Entry(w.req, w.ok)]);
           s1.(work := Some(w.(forwarded := true)))
    case Finish =>
      if !s.primaryUp || s.work.None? || !s.work.value.forwarded then s
      else var w := s.work.value;
           s.(primary := s.primary.(replays := s.primary.replays[w.req.uuid := w.ok]),
              work := None, replies := s.replies + [Entry(w.req, w.ok)])
    case CrashPrimary =>
      s.(primaryUp := false, work := None,
         stray := if s.work.Some? && !s.work.value.forwarded then Some(s.work.value.req) else s.stray)
    case CrashBackup => s.(backupUp := false)
    case StrayArrives =>
      if s.stray.None? || !s.backupUp then s else AtBackup(s, s.stray.value).(stray := None)
    case AskBackup(u) =>
      if s.primaryUp || !s.backupUp || u !in s.issued then s
      else var r := s.issued[u];
           AtBackup(s, r).(replies := s.replies + [Entry(r, Result(s.backup, r))])
  }

  predicate IsRun(ss: seq<Sys>, steps: seq<Step>) {
    && |ss| == |steps| + 1 && ss[0] == EMPTY
    && forall k {:trigger steps[k]} :: 0 <= k < |steps| ==> ss[k + 1] == Apply(ss[k], steps[k])
  }

  // Left undisturbed, the steps of a call add up to what the handlers do at both servers.
  lemma UninterruptedCall(s: Sys, u: Uuid)
    requires s.primaryUp && s.work.None? && u in s.issued && s.issued[u].uuid == u
    ensures var r := s.issued[u];
      var s' := Apply(Apply(Apply(s, Begin(u)), ForwardCall), Finish);
      && s'.primary == Serve(s.primary, r) && s'.work.None?
      && s'.backup == (if s.backupUp && u !in s.primary.replays then Serve(s.backup, r) else s.backup)
      && s'.replies == s.replies + [Entry(r, Result(s.primary, r))]
  {
    var s1 := Apply(s, Begin(u));
    if u !in s.primary.replays {
      assert s1.work == Some(Work(s.issued[u], Decide(s.primary, s.issued[u]), false));
    }
  }

  // ------------------------------------------------------------------------------
  // The atomic lock table
  // ------------------------------------------------------------------------------

  // One table that serves the history one request at a time.
  function Atomic(log: seq<Entry>): Table {
    if log == [] then NO_LOCKS else Serve(Atomic(log[..|log| - 1]), log[|log| - 1].req)
  }

  // Every entry is a new request and carries the result the table gives it.
  predicate Sequential(log: seq<Entry>) {
    log != [] ==>
      var before, e := log[..|log| - 1], log[|log| - 1];
      && Sequential(before)
      && e.req.uuid !in Atomic(before).replays
      && e.ok == Decide(Atomic(before), e.req)
  }

  predicate Logged(log: seq<Entry>, e: Entry) { e in log }

  // ------------------------------------------------------------------------------
  // The servers follow it
  // ------------------------------------------------------------------------------

  predicate PrimaryFollows(p: Table, work: Option<Work>, t: Table) {
    match work
    case None => p == t
    case Some(w) =>
      if w.forwarded then
        w.req.uuid !in p.replays && t == Table(p.locks, p.replays[w.req.uuid := w.ok])
      else
        && w.req.uuid !in t.replays
        && w.ok == Decide(t, w.req)
        && p == Table(Locks(t, w.req), t.replays)
  }

  predicate RecordsOk(s: Sys) {
    && (forall e :: e in s.replies ==> Logged(s.log, e))
    && (forall e :: e in s.log ==> e.req.uuid in s.issued && s.issued[e.req.uuid] == e.req)
    && (forall u :: u in s.issued ==> s.issued[u].uuid == u)
    && (s.work.Some? ==> s.work.value.req.uuid in s.issued && s.issued[s.work.value.req.uuid] == s.work.value.req)
    && (s.work.Some? && s.work.value.forwarded ==> Logged(s.log, Entry(s.work.value.req, s.work.value.ok)))
    && (s.stray.Some? ==> s.stray.value.uuid in s.issued && s.issued[s.stray.value.uuid] == s.stray.value)
  }

  predicate TablesOk(s: Sys) {
    && Sequential(s.log)
    && (s.primaryUp ==> PrimaryFollows(s.primary, s.work, Atomic(s.log)))
    && (s.backupUp ==> s.backup == Atomic(s.log))
    && (!s.primaryUp ==> s.work.None?)
  }

  // The table's records are those of the history.
  lemma {:induction false} ReplaysAreTheLog(log: seq<Entry>, u: Uuid)
    requires Sequential(log)
    ensures u in Atomic(log).replays <==> exists i :: 0 <= i < |log| && log[i].req.uuid == u
    ensures u in Atomic(log).replays ==>
              exists i :: 0 <= i < |log| && log[i].req.uuid == u && log[i].ok == Atomic(log).replays[u]
  {
    if log != [] {
      var before := log[..|log| - 1];
      ReplaysAreTheLog(before, u);
      if u in Atomic(before).replays {
        var i :| 0 <= i < |before| && before[i].req.uuid == u && before[i].ok == Atomic(before).replays[u];
        assert log[i] == before[i];
      } else if u == log[|log| - 1].req.uuid {
        assert log[|log| - 1].ok == Atomic(log).replays[u];
      }
    }
  }

  // Serving a new request at a table that is up to date extends the history.
  lemma Extend(log: seq<Entry>, r: Req)
    requires Sequential(log) && r.uuid !in Atomic(log).replays
    ensures var log' := log + [Entry(r, Decide(Atomic(log), r))];
      Sequential(log') && Atomic(log') == Serve(Atomic(log), r)
  {
    assert (log + [Entry(r, Decide(Atomic(log), r))])[..|log|] == log;
  }

  predicate Inv(s: Sys) { TablesOk(s) && RecordsOk(s) }

  // A server's answer is the result recorded in the history.
  lemma AnswerIsLogged(s: Sys, r: Req, ok: bool)
    requires Inv(s) && r.uuid in s.issued && s.issued[r.uuid] == r
    requires r.uuid in Atomic(s.log).replays && ok == Atomic(s.log).replays[r.uuid]
    ensures Logged(s.log, Entry(r, ok))
  {
    ReplaysAreTheLog(s.log, r.uuid);
    var i :| 0 <= i < |s.log| && s.log[i].req.uuid == r.uuid && s.log[i].ok == ok;
    assert s.log[i] in s.log;
    assert s.log[i] == Entry(r, ok);
  }

  lemma BackupServes(s: Sys, r: Req)
    requires Inv(s) && s.backupUp && r.uuid in s.issued && s.issued[r.uuid] == r
    requires !s.primaryUp || (s.work.Some? && s.work.value.req == r && !s.work.value.forwarded)
    ensures var s' := AtBackup(s, r);
      && Sequential(s'.log) && s'.backup == Atomic(s'.log)
      && (s.primaryUp ==> s'.log == s.log + [Entry(r, s.work.value.ok)] && s'.backup == Serve(Atomic(s.log), r))
      && Logged(s'.log, Entry(r, Result(s.backup, r)))
      && s.log <= s'.log
      && (forall e :: e in s'.log ==> e in s.log || e.req == r)
  {
    if r.uuid in s.backup.replays {
      AnswerIsLogged(s, r, s.backup.replays[r.uuid]);
    } else {
      Extend(s.log, r);
    }
  }

  lemma BeginKeeps(s: Sys, u: Uuid)
    requires Inv(s)
    ensures Inv(Apply(s, Begin(u)))
  {
    if s.primaryUp && s.work.None? && u in s.issued && u in s.primary.replays {
      AnswerIsLogged(s, s.issued[u], s.primary.replays[u]);
    }
  }

  lemma ForwardExtends(s: Sys, s': Sys)
    requires Inv(s) && s.primaryUp && s.work.Some? && !s.work.value.forwarded && s' == Apply(s, ForwardCall)
    ensures var w := s.work.value;
      && s'.log == s.log + [Entry(w.req, w.ok)] && Sequential(s'.log)
      && Atomic(s'.log) == Serve(Atomic(s.log), w.req)
      && (s.backupUp ==> s'.backup == Atomic(s'.log))
  {
    Extend(s.log, s.work.value.req);
    if s.backupUp {
      BackupServes(s, s.work.value.req);
    }
  }

  lemma ForwardKeeps(s: Sys)
    requires Inv(s)
    ensures Inv(Apply(s, ForwardCall))
  {
    if s.primaryUp && s.work.Some? && !s.work.value.forwarded {
      var s' := Apply(s, ForwardCall);
      ForwardExtends(s, s');
      assert s'.log[|s.log|] == Entry(s.work.value.req, s.work.value.ok);
    }
  }

  lemma AskKeeps(s: Sys, u: Uuid)
    requires Inv(s)
    ensures Inv(Apply(s, AskBackup(u)))
  {
    if !s.primaryUp && s.backupUp && u in s.issued {
      BackupServes(s, s.issued[u]);
    }
  }

  lemma StrayKeeps(s: Sys)
    requires Inv(s) && (s.stray.Some? ==> !s.primaryUp)
    ensures Inv(Apply(s, StrayArrives))
  {
    if s.stray.Some? && s.backupUp {
      BackupServes(s, s.stray.value);
    }
  }

  lemma OtherStepKeeps(s: Sys, step: Step)
    requires Inv(s) && (step.Issue? || step.Finish? || step.CrashPrimary? || step.CrashBackup?)
    ensures Inv(Apply(s, step))
  {
  }

  lemma StepKeeps(s: Sys, step: Step, s': Sys)
    requires Inv(s) && (s.stray.Some? ==> !s.primaryUp) && s' == Apply(s, step)
    ensures Inv(s') && (s'.stray.Some? ==> !s'.primaryUp)
    ensures s.log <= s'.log
    ensures forall u :: u in s.issued ==> u in s'.issued && s'.issued[u] == s.issued[u]
  {
    match step {
      case Begin(u) => BeginKeeps(s, u);
      case ForwardCall => ForwardKeeps(s);
      case AskBackup(u) => AskKeeps(s, u);
      case StrayArrives => StrayKeeps(s);
      case _ => OtherStepKeeps(s, step);
    }
  }

  lemma {:induction false} RunKeeps(ss: seq<Sys>, steps: seq<Step>, k: nat)
    requires IsRun(ss, steps) && k <= |steps|
    ensures Inv(ss[k]) && (ss[k].stray.Some? ==> !ss[k].primaryUp)
    decreases k
  {
    if k > 0 {
      RunKeeps(ss, steps, k - 1);
      StepKeeps(ss[k - 1], steps[k - 1], ss[k]);
    }
  }

  // ------------------------------------------------------------------------------
  // What clients can rely on
  // ------------------------------------------------------------------------------

  lemma {:induction false} DistinctRequests(log: seq<Entry>, i: nat, j: nat)
    requires Sequential(log) && i < j < |log|
    ensures log[i].req.uuid != log[j].req.uuid
  {
    if j == |log| - 1 {
      ReplaysAreTheLog(log[..j], log[j].req.uuid);
      assert log[..j][i] == log[i];
    } else {
      DistinctRequests(log[..|log| - 1], i, j);
    }
  }

  function Count(log: seq<Entry>, kind: Kind, name: string): nat {
    if log == [] then 0
    else var e := log[|log| - 1];
         Count(log[..|log| - 1], kind, name) + if e.ok && e.req.kind == kind && e.req.name == name then 1 else 0
  }

  lemma {:induction false} HeldIsLocksMinusUnlocks(log: seq<Entry>, name: string)
    requires Sequential(log)
    ensures Count(log, LockOp, name) - Count(log, UnlockOp, name) == if Held(Atomic(log), name) then 1 else 0
  {
    if log != [] {
      HeldIsLocksMinusUnlocks(log[..|log| - 1], name);
    }
  }

  // What the requests before it make of request i: a Lock succeeds exactly if the Locks of
  // its name that succeeded are matched by Unlocks, an Unlock exactly if one is not.
  predicate Granted(log: seq<Entry>, i: nat)
    requires i < |log|
  {
    var r := log[i].req;
    var taken := Count(log[..i], LockOp, r.name) - Count(log[..i], UnlockOp, r.name);
    log[i].ok <==> taken == if r.kind == LockOp then 0 else 1
  }

  lemma {:induction false} GrantedByTheCounts(log: seq<Entry>, i: nat)
    requires Sequential(log) && i < |log|
    ensures Granted(log, i)
  {
    var before := log[..|log| - 1];
    if i == |log| - 1 {
      HeldIsLocksMinusUnlocks(before, log[i].req.name);
    } else {
      GrantedByTheCounts(before, i);
      assert before[..i] == log[..i];
    }
  }

  // In every run there is one sequential history in which every request takes effect at
  // most once and with the result that the counts of successes before it call for, every
  // reply a server gave is its request's result, a lock's successful Locks exceed its
  // successful Unlocks by one exactly while it is held, and the tables of the servers in
  // service are the table of that history.
  lemma OneAtomicLockTable(ss: seq<Sys>, steps: seq<Step>, k: nat)
    requires IsRun(ss, steps) && k <= |steps|
    ensures var s := ss[k];
      && Sequential(s.log)
      && (forall i, j :: 0 <= i < j < |s.log| ==> s.log[i].req.uuid != s.log[j].req.uuid)
      && (forall i :: 0 <= i < |s.log| ==> Granted(s.log, i))
      && (forall e :: e in s.replies ==> e in s.log && e.req.uuid in s.issued && s.issued[e.req.uuid] == e.req)
      && (forall name :: Count(s.log, LockOp, name) - Count(s.log, UnlockOp, name)
                         == if Held(Atomic(s.log), name) then 1 else 0)
      && (s.backupUp ==> s.backup == Atomic(s.log))
      && (s.primaryUp && s.work.None? ==> s.primary == Atomic(s.log))
  {
    RunKeeps(ss, steps, k);
    var s := ss[k];
    forall i, j | 0 <= i < j < |s.log| ensures s.log[i].req.uuid != s.log[j].req.uuid {
      DistinctRequests(s.log, i, j);
    }
    forall i | 0 <= i < |s.log| ensures Granted(s.log, i) {
      GrantedByTheCounts(s.log, i);
    }
    forall name ensures Count(s.log, LockOp, name) - Count(s.log, UnlockOp, name) ==
        if Held(Atomic(s.log), name) then 1 else 0 {
      HeldIsLocksMinusUnlocks(s.log, name);
    }
    forall e | e in s.replies ensures e in s.log {
      assert Logged(s.log, e);
    }
  }

  lemma {:induction false} HistoryOnlyGrows(ss: seq<Sys>, steps: seq<Step>, i: nat, j: nat)
    requires IsRun(ss, steps) && i <= j <= |steps|
    ensures ss[i].log <= ss[j].log
    ensures forall u :: u in ss[i].issued ==> u in ss[j].issued && ss[j].issued[u] == ss[i].issued[u]
    decreases j
  {
    if i < j {
      HistoryOnlyGrows(ss, steps, i, j - 1);
      RunKeeps(ss, steps, j - 1);
      StepKeeps(ss[j - 1], steps[j - 1], ss[j]);
    }
  }

  // Whoever retries with the same Uuid gets the same answer, from whichever server.
  lemma RepliesAgree(ss: seq<Sys>, steps: seq<Step>, k: nat, a: Entry, b: Entry)
    requires IsRun(ss, steps) && k <= |steps|
    requires a in ss[k].replies && b in ss[k].replies && a.req.uuid == b.req.uuid
    ensures a == b
  {
    OneAtomicLockTable(ss, steps, k);
    var i :| 0 <= i < |ss[k].log| && ss[k].log[i] == a;
    var j :| 0 <= j < |ss[k].log| && ss[k].log[j] == b;
  }

  // The history respects real time: a request answered before another was issued comes
  // first.
  lemma AnsweredBeforeIssued(ss: seq<Sys>, steps: seq<Step>, m: nat, k: nat, a: Entry, i: nat, j: nat)
    requires IsRun(ss, steps) && m <= k <= |steps|
    requires a in ss[m].replies
    requires i < |ss[k].log| && ss[k].log[i] == a
    requires j < |ss[k].log| && ss[k].log[j].req.uuid !in ss[m].issued
    ensures i < j
  {
    RunKeeps(ss, steps, m);
    OneAtomicLockTable(ss, steps, k);
    HistoryOnlyGrows(ss, steps, m, k);
    assert Logged(ss[m].log, a);
    var i' :| 0 <= i' < |ss[m].log| && ss[m].log[i'] == a;
    assert ss[k].log[i'] == a;
    assert forall x :: 0 <= x < |ss[m].log| ==> ss[m].log[x].req.uuid in ss[m].issued;
  }
}
