// No Put that was answered OK is lost, however often the backup is promoted.

module PBRuns {
  import opened Wrappers
  import opened ViewService
  import opened PBService
  import opened PBSystem
  import opened PBSteps
  import opened PBPuts

  lemma ServerStepKeeps(sys: Sys, step: Step, sys': Sys)
    requires Inv(sys) && Allowed(sys, step) && sys' == Apply(sys, step)
    requires step.Boot? || step.Crash? || step.ServerPing? || step.SyncArrives? || step.RetryPing?
    ensures Inv(sys')
  {
    if sys' != sys {
      match step {
        case Boot(s) => BootKeeps(sys, s, sys');
        case Crash(s) => CrashKeeps(sys, s, sys');
        case ServerPing(s, now, net) => ServerPingKeeps(sys, s, now, net, sys');
        case SyncArrives(s, now, net, lost) =>
          assert NodeOk(sys.nodes[s], s, sys.vs.view, sys.lead, sys.second, sys.nextId);
          SyncArrivesKeeps(sys, s, sys.nodes[s].pb.view.backup, now, net, lost, sys');
        case RetryPing(s, now, net) => RetryPingKeeps(sys, s, now, net, sys');
      }
    }
  }

  lemma PutStepKeeps(sys: Sys, step: Step, sys': Sys)
    requires Inv(sys) && Allowed(sys, step) && sys' == Apply(sys, step)
    requires step.BeginPut? || step.ForwardArrives? || step.ForwardFails? || step.FinishPut? || step.StrayForward?
    ensures Inv(sys')
  {
    if sys' != sys {
      match step {
        case BeginPut(s, k, v) => BeginKeeps(sys, s, Write(sys.nextId, k, v), sys');
        case ForwardArrives(s, lost) => ForwardKeeps(sys, s, sys.nodes[s].pb.view.backup, lost, sys');
        case ForwardFails(s) => FailKeeps(sys, s, sys');
        case FinishPut(s) => FinishKeeps(sys, s, sys');
        case StrayForward(b, w) => StrayForwardKeeps(sys, b, w, sys');
      }
    }
  }

  lemma StepKeeps(sys: Sys, step: Step, sys': Sys)
    requires Inv(sys) && Allowed(sys, step) && sys' == Apply(sys, step)
    ensures Inv(sys')
  {
    if step.ServiceTick? {
      ServiceTickKeeps(sys, step, sys');
    } else if step.BeginPut? || step.ForwardArrives? || step.ForwardFails? || step.FinishPut? || step.StrayForward? {
      PutStepKeeps(sys, step, sys');
    } else {
      ServerStepKeeps(sys, step, sys');
    }
  }

  // ------------------------------------------------------------------------------
  // Durability
  // ------------------------------------------------------------------------------

  lemma {:induction false} RunKeeps(ss: seq<Sys>, steps: seq<Step>, k: nat)
    requires IsRun(ss, steps) && k <= |steps|
    ensures Inv(ss[k])
    decreases k
  {
    if k > 0 {
      RunKeeps(ss, steps, k - 1);
      StepKeeps(ss[k - 1], steps[k - 1], ss[k]);
    }
  }

  // In every run, through any number of crashes and promotions and with any overlap of
  // Puts, the server in charge of the current view has every Put that was ever answered
  // OK; it has it before every Put that began after the answer; and its value for that
  // key is that Put's or that of one it has after it.
  lemma NoAcknowledgedWriteIsLost(ss: seq<Sys>, steps: seq<Step>, i: nat) returns (p: nat, j: nat)
    requires IsRun(ss, steps)
    requires var end := ss[|steps|]; i < |end.acks|
    ensures var end := ss[|steps|];
      && end.lead in end.nodes
      && var n, a := end.nodes[end.lead], end.acks[i];
         && p <= j < |n.log| && n.log[p] == a.write && n.log[j].key == a.write.key
         && (forall q :: 0 <= q < |n.log| && n.log[q].id >= a.at ==> p < q)
         && a.write.key in n.pb.store && n.pb.store[a.write.key] == n.log[j].value
  {
    RunKeeps(ss, steps, |steps|);
    var end := ss[|steps|];
    var n, a := end.nodes[end.lead], end.acks[i];
    assert NodeOk(n, end.lead, end.vs.view, end.lead, end.second, end.nextId) && Kept(n.log, a);
    var at :| 0 <= at < |n.log| && StandsAt(n.log, at, a.write, a.at);
    p := at;
    assert n.log[p].key in n.pb.store && LastValue(n.log, a.write.key, n.pb.store[a.write.key]);
    j :| 0 <= j < |n.log| && IsLast(n.log, j, a.write.key) && n.log[j].value == n.pb.store[a.write.key];
  }

  // At the moment a backup takes over, it already has everything.
  lemma PromotedBackupHasEverything(ss: seq<Sys>, steps: seq<Step>, k: nat)
    requires IsRun(ss, steps) && k < |steps| && ss[k].vs.view.num >= 1
    requires ss[k + 1].vs.view.num != ss[k].vs.view.num && ss[k + 1].vs.view.primary == ss[k].vs.view.backup
    ensures var b := ss[k].vs.view.backup;
      && b in ss[k].nodes
      && AllKept(ss[k].nodes[b].log, ss[k].acks)
      && Reflects(ss[k].nodes[b].pb.store, ss[k].nodes[b].log)
  {
    RunKeeps(ss, steps, k);
    RunKeeps(ss, steps, k + 1);
    assert ss[k + 1] == Apply(ss[k], steps[k]);
    OnlyTicksMove(ss[k], steps[k]);
    assert NodeOk(ss[k + 1].nodes[ss[k + 1].lead], ss[k + 1].lead, ss[k + 1].vs.view, ss[k + 1].lead,
           ss[k + 1].second, ss[k + 1].nextId);
  }

  lemma OnlyTicksMove(sys: Sys, step: Step)
    requires Apply(sys, step).vs.view.num != sys.vs.view.num
    ensures step.ServiceTick?
  {
  }
}
