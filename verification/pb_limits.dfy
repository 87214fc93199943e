// Runs whose first Sync of every view goes through need no further assumption; and what
// goes wrong when a Sync has to be retried, or when a Put is sent to the wrong server.

module PBLimits {
  import opened Wrappers
  import opened ViewService
  import opened PBService
  import opened PBSystem
  import opened PBSteps
  import opened PBPuts
  import opened PBRuns

  // As Allowed, without the clause about Syncs.
  predicate Plain(sys: Sys, step: Step) {
    match step
    case ServiceTick(now, idle, inited) =>
      && ValidPick(Sweep(sys.vs.clients, now), sys.vs.view.num, idle, inited)
      && (Promotes(sys, step) ==> Pruned(sys.vs, now).view.backup != "")
    case BeginPut(s, _, _) => Addressed(sys, s)
    case ForwardArrives(s, _) => InTime(sys, s)
    case SyncArrives(s, _, _, _) => FromLead(sys, s)
    case _ => true
  }

  // The tick moves on from a view without its primary.
  predicate Promotes(sys: Sys, step: Step) {
    step.ServiceTick? && Apply(sys, step).vs.view.num != sys.vs.view.num && sys.vs.view.num >= 1
    && Pruned(sys.vs, step.now).view.primary == ""
  }

  predicate IsTrace(ss: seq<Sys>, steps: seq<Step>) {
    && |ss| == |steps| + 1 && ss[0] == EMPTY
    && forall k {:trigger steps[k]} :: 0 <= k < |steps| ==> ss[k + 1] == Apply(ss[k], steps[k])
  }

  predicate PingsAnswered(step: Step) {
    match step
    case ServerPing(_, _, net) => net == Answered
    case SyncArrives(_, _, net, _) => net == Answered
    case RetryPing(_, _, net) => net == Answered
    case _ => true
  }

  // The service moves on only from a view that its primary has learned, and a primary that
  // is not busy with a Sync has done it.
  predicate Informed(sys: Sys) {
    var v := sys.vs.view;
    v.num >= 1 ==>
      && sys.lead in sys.nodes
      && (sys.vs.acked ==> sys.nodes[sys.lead].pb.view.num == v.num)
      && (!sys.vs.acked ==> v.primary == sys.lead && v.backup == sys.second)
      && (sys.nodes[sys.lead].pb.view.num == v.num && !sys.nodes[sys.lead].syncing && v.backup != "" ==> sys.reached)
  }

  lemma InformedTick(sys: Sys, step: Step, sys': Sys)
    requires Inv(sys) && Informed(sys) && step.ServiceTick? && Plain(sys, step) && Inv(sys') && sys' == Apply(sys, step)
    ensures Informed(sys')
  {
    if !sys.vs.crashed {
      TickFacts(sys.vs, step.now, step.idle, step.inited);
      assert sys'.lead in sys.nodes ==> NodeOk(sys.nodes[sys'.lead], sys'.lead, sys.vs.view, sys.lead,
             sys.second, sys.nextId);
    }
  }

  lemma InformedPing(sys: Sys, s: Name, now: int, sys': Sys)
    requires Inv(sys) && Informed(sys) && Idle(sys, s) && sys' == ApplyServerPing(sys, s, now, Answered)
    ensures Informed(sys')
  {
    PingFacts(sys.vs, s, sys.nodes[s].pb.view.num, now);
    assert NodeOk(sys.nodes[s], s, sys.vs.view, sys.lead, sys.second, sys.nextId);
  }

  lemma InformedRetry(sys: Sys, s: Name, now: int, sys': Sys)
    requires Inv(sys) && Informed(sys) && Syncing(sys, s) && sys.nodes[s].alive
    requires sys' == ApplyRetryPing(sys, s, now, Answered)
    ensures Informed(sys')
  {
    PingFacts(sys.vs, s, sys.nodes[s].pb.view.num, now);
    assert NodeOk(sys.nodes[s], s, sys.vs.view, sys.lead, sys.second, sys.nextId);
  }

  lemma InformedSync(sys: Sys, s: Name, b: Name, now: int, lost: bool, sys': Sys)
    requires Inv(sys) && Informed(sys) && Syncing(sys, s) && s == sys.lead && b == sys.nodes[s].pb.view.backup
    requires Idle(sys, b) && sys' == ApplySyncArrives(sys, s, b, now, Answered, lost)
    ensures Informed(sys')
  {
    PingFacts(sys.vs, b, sys.nodes[b].pb.view.num, now);
    assert NodeOk(sys.nodes[s], s, sys.vs.view, sys.lead, sys.second, sys.nextId);
    assert NodeOk(sys.nodes[b], b, sys.vs.view, sys.lead, sys.second, sys.nextId);
  }

  lemma InformedOther(sys: Sys, step: Step, sys': Sys)
    requires Informed(sys) && sys' == Apply(sys, step)
    requires step.Boot? || step.Crash? || step.BeginPut? || step.ForwardArrives? || step.ForwardFails?
             || step.FinishPut? || step.StrayForward?
    ensures Informed(sys')
  {
  }

  lemma InformedStep(sys: Sys, step: Step, sys': Sys)
    requires Inv(sys) && Informed(sys) && Plain(sys, step) && PingsAnswered(step) && Inv(sys')
            && sys' == Apply(sys, step)
    ensures Informed(sys')
  {
    if sys' != sys {
      match step {
        case ServiceTick(_, _, _) => InformedTick(sys, step, sys');
        case ServerPing(s, now, _) => InformedPing(sys, s, now, sys');
        case RetryPing(s, now, _) => InformedRetry(sys, s, now, sys');
        case SyncArrives(s, now, _, lost) =>
          assert NodeOk(sys.nodes[s], s, sys.vs.view, sys.lead, sys.second, sys.nextId);
          InformedSync(sys, s, sys.nodes[s].pb.view.backup, now, lost, sys');
        case _ => InformedOther(sys, step, sys');
      }
    }
  }

  // The primary is not in the middle of a Sync, or has crashed after its Sync had reached
  // the backup.
  predicate NotBusy(sys: Sys) {
    sys.lead in sys.nodes && sys.nodes[sys.lead].syncing ==> !sys.nodes[sys.lead].alive && sys.reached
  }

  lemma InformedIsAllowed(sys: Sys, step: Step)
    requires Inv(sys) && Informed(sys) && Plain(sys, step) && (Promotes(sys, step) ==> NotBusy(sys))
    ensures Allowed(sys, step)
  {
    if Promotes(sys, step) {
      TickFacts(sys.vs, step.now, step.idle, step.inited);
    }
  }

  lemma {:induction false} InformedUpTo(ss: seq<Sys>, steps: seq<Step>, k: nat)
    requires IsTrace(ss, steps) && k <= |steps|
    requires forall i {:trigger steps[i]} :: 0 <= i < |steps| ==> Plain(ss[i], steps[i]) && PingsAnswered(steps[i])
    requires forall i {:trigger steps[i]} :: 0 <= i < k && Promotes(ss[i], steps[i]) ==> NotBusy(ss[i])
    ensures Inv(ss[k]) && Informed(ss[k])
    decreases k
  {
    if k > 0 {
      InformedUpTo(ss, steps, k - 1);
      InformedNext(ss[k - 1], steps[k - 1], ss[k]);
    }
  }

  lemma InformedNext(sys: Sys, step: Step, sys': Sys)
    requires Inv(sys) && Informed(sys) && Plain(sys, step) && PingsAnswered(step) && sys' == Apply(sys, step)
    requires Promotes(sys, step) ==> NotBusy(sys)
    ensures Inv(sys') && Informed(sys')
  {
    InformedIsAllowed(sys, step);
    StepKeeps(sys, step, sys');
    InformedStep(sys, step, sys');
  }

  // As long as pings are answered, acknowledged writes are safe if no backup is promoted
  // while its primary is in the middle of the Sync, or after a crash in the middle of a
  // Sync that had not reached it.
  lemma AnsweredPingsSuffice(ss: seq<Sys>, steps: seq<Step>)
    requires IsTrace(ss, steps)
    requires forall i {:trigger steps[i]} :: 0 <= i < |steps| ==> Plain(ss[i], steps[i]) && PingsAnswered(steps[i])
    requires forall i {:trigger steps[i]} :: 0 <= i < |steps| && Promotes(ss[i], steps[i]) ==> NotBusy(ss[i])
    ensures IsRun(ss, steps) && Durable(ss[|steps|])
  {
    forall k | 0 <= k < |steps| ensures Allowed(ss[k], steps[k]) {
      InformedUpTo(ss, steps, k);
      InformedIsAllowed(ss[k], steps[k]);
    }
    InformedUpTo(ss, steps, |steps|);
  }

  // While a Sync is pending its view is not acknowledged, so the service waits.
  predicate PendingMeansUnacked(sys: Sys) {
    forall s :: s in sys.nodes && sys.nodes[s].syncing ==> !sys.vs.acked && sys.vs.view.num >= 1 && s == sys.lead
  }

  lemma PendingPing(sys: Sys, s: Name, now: int, sys': Sys)
    requires Inv(sys) && Informed(sys) && PendingMeansUnacked(sys) && Idle(sys, s)
    requires sys' == ApplyServerPing(sys, s, now, Answered)
    ensures PendingMeansUnacked(sys')
  {
    PingFacts(sys.vs, s, sys.nodes[s].pb.view.num, now);
    assert NodeOk(sys.nodes[s], s, sys.vs.view, sys.lead, sys.second, sys.nextId);
  }

  lemma PendingSync(sys: Sys, s: Name, b: Name, now: int, lost: bool, sys': Sys)
    requires Inv(sys) && PendingMeansUnacked(sys) && Syncing(sys, s) && Idle(sys, b)
    requires sys' == ApplySyncArrives(sys, s, b, now, Answered, lost)
    ensures PendingMeansUnacked(sys')
  {
    PingFacts(sys.vs, b, sys.nodes[b].pb.view.num, now);
    assert NodeOk(sys.nodes[b], b, sys.vs.view, sys.lead, sys.second, sys.nextId);
  }

  lemma PendingTick(sys: Sys, step: Step, sys': Sys)
    requires Inv(sys) && PendingMeansUnacked(sys) && step.ServiceTick? && Plain(sys, step) && sys' == Apply(sys, step)
    ensures PendingMeansUnacked(sys') && (Promotes(sys, step) ==> NotBusy(sys))
  {
    if !sys.vs.crashed {
      TickFacts(sys.vs, step.now, step.idle, step.inited);
    }
  }

  lemma PendingOther(sys: Sys, step: Step, sys': Sys)
    requires PendingMeansUnacked(sys) && sys' == Apply(sys, step)
    requires step.Boot? || step.Crash? || step.BeginPut? || step.ForwardArrives? || step.ForwardFails?
             || step.FinishPut? || step.StrayForward?
    ensures PendingMeansUnacked(sys')
  {
  }

  lemma PendingStep(sys: Sys, step: Step, sys': Sys)
    requires Inv(sys) && Informed(sys) && PendingMeansUnacked(sys)
    requires Plain(sys, step) && PingsAnswered(step) && !step.RetryPing? && sys' == Apply(sys, step)
    ensures PendingMeansUnacked(sys') && (Promotes(sys, step) ==> NotBusy(sys))
  {
    if step.ServiceTick? {
      PendingTick(sys, step, sys');
    } else if sys' != sys {
      match step {
        case ServerPing(s, now, _) => PendingPing(sys, s, now, sys');
        case SyncArrives(s, now, _, lost) => PendingSync(sys, s, sys.nodes[s].pb.view.backup, now, lost, sys');
        case _ => PendingOther(sys, step, sys');
      }
    }
  }

  lemma {:induction false} PendingUpTo(ss: seq<Sys>, steps: seq<Step>, k: nat)
    requires IsTrace(ss, steps) && k <= |steps|
    requires forall i {:trigger steps[i]} :: 0 <= i < |steps| ==>
               Plain(ss[i], steps[i]) && PingsAnswered(steps[i]) && !steps[i].RetryPing?
    ensures Inv(ss[k]) && Informed(ss[k]) && PendingMeansUnacked(ss[k])
    decreases k
  {
    if k > 0 {
      PendingUpTo(ss, steps, k - 1);
      PendingStep(ss[k - 1], steps[k - 1], ss[k]);
      InformedNext(ss[k - 1], steps[k - 1], ss[k]);
    }
  }

  // When moreover no primary has to ping again before its Sync is done, no Sync is ever
  // pending when a backup is promoted, and nothing has to be assumed about that.
  lemma FirstSyncSucceeds(ss: seq<Sys>, steps: seq<Step>)
    requires IsTrace(ss, steps)
    requires forall i {:trigger steps[i]} :: 0 <= i < |steps| ==>
               Plain(ss[i], steps[i]) && PingsAnswered(steps[i]) && !steps[i].RetryPing?
    ensures IsRun(ss, steps) && Durable(ss[|steps|])
  {
    forall k | 0 <= k < |steps| && Promotes(ss[k], steps[k]) ensures NotBusy(ss[k]) {
      PendingUpTo(ss, steps, k);
      PendingStep(ss[k], steps[k], ss[k + 1]);
    }
    AnsweredPingsSuffice(ss, steps);
  }

  // ------------------------------------------------------------------------------
  // Where the assumptions are needed
  // ------------------------------------------------------------------------------

  // The store after a history of writes.
  function Replay(log: seq<Write>): map<Key, Value> {
    if log == [] then map[]
    else Replay(log[..|log| - 1])[log[|log| - 1].key := log[|log| - 1].value]
  }

  function Up(me: Name, view: View, syncing: bool, log: seq<Write>): Node {
    Node(PB(me, Replay(log), view), true, syncing, None, log)
  }

  function Live(idle: bool, num: nat, at: int): Client { Client(false, idle, num, at) }

  const W: Write := Write(0, "k", "v")
  const A: Ack := Ack(W, 1)
  const V1: View := View(1, "a", "")
  const V2: View := View(2, "a", "b")

  const W2: Write := Write(1, "k", "u")
  const A_2: Ack := Ack(W2, 2)

  lemma Replays()
    ensures Replay([]) == map[] && Replay([W]) == map["k" := "v"] && [] + [W] == [W]
    ensures [W] + [W2] == [W, W2] && Replay([W, W2]) == map["k" := "u"] && [A] + [A_2] == [A, A_2]
  {
    assert [W][..0] == [] && [W, W2][..1] == [W];
  }

  // A step that every run may take, and that promotes nobody.
  predicate Quiet(s: Sys, step: Step, s': Sys) {
    Plain(s, step) && PingsAnswered(step) && !Promotes(s, step) && s' == Apply(s, step)
  }

  predicate QuietRun(ss: seq<Sys>, steps: seq<Step>) {
    && |ss| == |steps| + 1 && ss[0] == EMPTY
    && forall k {:trigger steps[k]} :: 0 <= k < |steps| ==> Quiet(ss[k], steps[k], ss[k + 1])
  }

  predicate Reaches(ss: seq<Sys>, steps: seq<Step>, s: Sys) { QuietRun(ss, steps) && ss[|steps|] == s }

  lemma Grow(ss: seq<Sys>, steps: seq<Step>, s: Sys, step: Step, s': Sys) returns (ss': seq<Sys>, steps': seq<Step>)
    requires Reaches(ss, steps, s) && Quiet(s, step, s')
    ensures Reaches(ss', steps', s') && ss' == ss + [s'] && steps' == steps + [step]
    ensures ss <= ss' && steps <= steps'
  {
    ss', steps' := ss + [s'], steps + [step];
    forall k {:trigger steps'[k]} | 0 <= k < |steps'| ensures Quiet(ss'[k], steps'[k], ss'[k + 1]) {
      if k < |steps| {
        assert Quiet(ss[k], steps[k], ss[k + 1]);
      }
    }
  }

  lemma QuietRunIsARun(ss: seq<Sys>, steps: seq<Step>)
    requires QuietRun(ss, steps)
    ensures IsTrace(ss, steps) && IsRun(ss, steps) && Durable(ss[|steps|])
  {
    AnsweredPingsSuffice(ss, steps);
  }

  // The service with a and b at these pings.
  function Service(v: View, acked: bool, a: Client, b: Client): VS {
    VS(v, map["a" := a, "b" := b], acked, false, false)
  }

  function OnlyA(v: View, a: Client): VS { VS(v, map["a" := a], false, false, false) }

  function A0(): Node { Up("a", NO_VIEW, false, []) }
  function A1(): Node { Up("a", V1, false, [W]) }
  function A2(): Node { Up("a", V2, true, [W]) }
  function B1(): Node { Up("b", V1, false, []) }
  function B2(): Node { Up("b", V2, false, []) }

  // a is the first primary and stores W; b joins as its backup in view 2, and a calls Sync.

  function S1(): Sys { Sys(START, map["a" := A0()], [], "", "", 0, false) }
  function S2(): Sys { S1().(vs := START.(clients := map["a" := Live(true, 0, 0)])) }
  function S3(): Sys { Sys(OnlyA(V1, Live(false, 0, 0)), map["a" := A0()], [], "a", "", 0, false) }
  function S4(): Sys {
    Sys(OnlyA(V1, Live(false, 0, 150)), map["a" := Up("a", V1, false, [])], [], "a", "", 0, false)
  }
  function S5(): Sys {
    S4().(nodes := map["a" := Up("a", V1, false, []).(work := Some(Work(W, Some(true))))], nextId := 1)
  }
  function S6(): Sys { Sys(OnlyA(V1, Live(false, 0, 150)), map["a" := A1()], [A], "a", "", 1, false) }
  function S7(): Sys { S6().(nodes := map["a" := A1(), "b" := Up("b", NO_VIEW, false, [])]) }
  function S8(): Sys {
    Sys(Service(V1, false, Live(false, 0, 150), Live(true, 0, 200)),
        map["a" := A1(), "b" := B1()], [A], "a", "", 1, false)
  }
  function S9(): Sys { S8().(vs := Service(V1, true, Live(false, 1, 250), Live(true, 0, 200))) }
  function S10(): Sys { S8().(vs := Service(V2, false, Live(false, 1, 250), Live(false, 0, 200)), second := "b") }
  function S11(): Sys {
    Sys(Service(V2, false, Live(false, 1, 350), Live(false, 0, 200)),
        map["a" := A2(), "b" := B1()], [A], "a", "b", 1, false)
  }
  function S12(): Sys { S11().(vs := Service(V2, true, Live(false, 2, 360), Live(false, 0, 200))) }

  lemma Goes0() ensures Quiet(EMPTY, Boot("a"), S1()) { Replays(); }
  lemma Goes1() ensures Quiet(S1(), ServerPing("a", 0, Answered), S2()) {}

  lemma Goes2()
    ensures Quiet(S2(), ServiceTick(100, Some("a"), Some("a")), S3())
  {
    assert Sweep(S2().vs.clients, 100) == S2().vs.clients;
  }

  lemma Goes3() ensures Quiet(S3(), ServerPing("a", 150, Answered), S4()) {}
  lemma Goes4() ensures Quiet(S4(), BeginPut("a", "k", "v"), S5()) { Replays(); }
  lemma Goes5() ensures Quiet(S5(), FinishPut("a"), S6()) { Replays(); }
  lemma Goes6() ensures Quiet(S6(), Boot("b"), S7()) { Replays(); }
  lemma Goes7() ensures Quiet(S7(), ServerPing("b", 200, Answered), S8()) {}
  lemma Goes8() ensures Quiet(S8(), ServerPing("a", 250, Answered), S9()) {}

  lemma Goes9()
    ensures Quiet(S9(), ServiceTick(300, Some("b"), None), S10())
  {
    assert Sweep(S9().vs.clients, 300) == S9().vs.clients;
  }

  lemma Goes10() ensures Quiet(S10(), ServerPing("a", 350, Answered), S11()) {}
  lemma Goes11() ensures Quiet(S11(), RetryPing("a", 360, Answered), S12()) {}

  lemma TwoServers() returns (ss: seq<Sys>, steps: seq<Step>)
    ensures Reaches(ss, steps, S8())
  {
    ss, steps := [EMPTY], [];
    Goes0();
    ss, steps := Grow(ss, steps, EMPTY, Boot("a"), S1());
    Goes1();
    ss, steps := Grow(ss, steps, S1(), ServerPing("a", 0, Answered), S2());
    Goes2();
    ss, steps := Grow(ss, steps, S2(), ServiceTick(100, Some("a"), Some("a")), S3());
    Goes3();
    ss, steps := Grow(ss, steps, S3(), ServerPing("a", 150, Answered), S4());
    ss, steps := TwoServersFrom4(ss, steps);
  }

  lemma TwoServersFrom4(ss0: seq<Sys>, steps0: seq<Step>) returns (ss: seq<Sys>, steps: seq<Step>)
    requires Reaches(ss0, steps0, S4())
    ensures Reaches(ss, steps, S8())
  {
    Goes4();
    ss, steps := Grow(ss0, steps0, S4(), BeginPut("a", "k", "v"), S5());
    Goes5();
    ss, steps := Grow(ss, steps, S5(), FinishPut("a"), S6());
    Goes6();
    ss, steps := Grow(ss, steps, S6(), Boot("b"), S7());
    Goes7();
    ss, steps := Grow(ss, steps, S7(), ServerPing("b", 200, Answered), S8());
  }

  lemma CallsSync() returns (ss: seq<Sys>, steps: seq<Step>)
    ensures Reaches(ss, steps, S11())
  {
    ss, steps := TwoServers();
    Goes8();
    ss, steps := Grow(ss, steps, S8(), ServerPing("a", 250, Answered), S9());
    Goes9();
    ss, steps := Grow(ss, steps, S9(), ServiceTick(300, Some("b"), None), S10());
    Goes10();
    ss, steps := Grow(ss, steps, S10(), ServerPing("a", 350, Answered), S11());
  }

  // a's first Sync fails. Its next ping acknowledges view 2 all the same; a dies, and b,
  // whose store is empty, is promoted.

  function S13(): Sys {
    Sys(Service(V2, true, Live(false, 2, 360), Live(false, 1, 400)),
        map["a" := A2(), "b" := B2()], [A], "a", "b", 1, false)
  }
  function S14(): Sys { S13().(vs := Service(V2, true, Live(false, 2, 360), Live(false, 2, 900))) }
  function S15(): Sys {
    Sys(Service(View(3, "b", ""), false, Client(true, true, 2, 360), Live(false, 2, 900)),
        map["a" := A2(), "b" := B2()], [A], "b", "", 1, false)
  }

  lemma Goes12() ensures Quiet(S12(), ServerPing("b", 400, Answered), S13()) {}
  lemma Goes13() ensures Quiet(S13(), ServerPing("b", 900, Answered), S14()) {}

  lemma Goes14()
    ensures Plain(S14(), ServiceTick(1000, None, None)) && Apply(S14(), ServiceTick(1000, None, None)) == S15()
  {
    assert Sweep(S14().vs.clients, 1000) == map["a" := Client(true, true, 2, 360), "b" := Live(false, 2, 900)];
  }

  lemma SyncPending() returns (ss: seq<Sys>, steps: seq<Step>)
    ensures Reaches(ss, steps, S14())
  {
    ss, steps := CallsSync();
    Goes11();
    ss, steps := Grow(ss, steps, S11(), RetryPing("a", 360, Answered), S12());
    Goes12();
    ss, steps := Grow(ss, steps, S12(), ServerPing("b", 400, Answered), S13());
    Goes13();
    ss, steps := Grow(ss, steps, S13(), ServerPing("b", 900, Answered), S14());
  }

  // Whatever was acknowledged is lost with a promotion to a server without data.
  lemma PromotedEmptyServer(sys: Sys, vs: VS)
    requires vs.view.num != sys.vs.view.num && vs.view.primary in sys.nodes && sys.nodes[vs.view.primary].log == []
    ensures Durable(Tell(sys, vs)) <==> sys.acks == []
  {
    if sys.acks != [] {
      assert !Kept([], sys.acks[0]);
    }
  }

  // All steps are ordinary ones, and after the last, a promotion during a Sync that has not
  // reached the backup, an acknowledged write is gone.
  lemma RetriedSyncLosesAWrite() returns (ss: seq<Sys>, steps: seq<Step>, last: Step)
    ensures IsTrace(ss, steps) && IsRun(ss, steps) && Durable(ss[|steps|])
    ensures Plain(ss[|steps|], last) && PingsAnswered(last) && !ss[|steps|].reached
    ensures !Durable(Apply(ss[|steps|], last))
  {
    ss, steps := SyncPending();
    last := ServiceTick(1000, None, None);
    QuietRunIsARun(ss, steps);
    Goes14();
    LosesAll();
  }

  lemma LosesAll()
    ensures !Durable(S15())
  {
    PromotedEmptyServer(S14(), S15().vs);
    assert Tell(S14(), S15().vs) == S15();
  }

  // ------------------------------------------------------------------------------
  // A call that is served after its caller has given it up
  // ------------------------------------------------------------------------------

  // A Sync that n called earlier is served at b, with the store n had then.
  function LateSync(sys: Sys, b: Name, n: Node, now: int): Sys
    requires b in sys.nodes
  {
    var m, v := sys.nodes[b], sys.vs.view;
    WithNode(Pinged(sys, b, m.pb.view.num, now), b,
             m.(pb := Synced(m.pb, v, n.pb.store), log := if SyncReply(m.pb, v) == OK then n.log else m.log))
  }

  // a gives its first Sync up; its second one goes through, and a Put of a after it.

  function AtB(): VS { Service(V2, true, Live(false, 2, 360), Live(false, 1, 370)) }
  function U1(): Sys {
    Sys(AtB(), map["a" := Up("a", V2, false, [W]), "b" := Up("b", V2, false, [W])], [A], "a", "b", 1, true)
  }
  function U2(): Sys {
    U1().(nodes := map["a" := Up("a", V2, false, [W]).(work := Some(Work(W2, None))), "b" := Up("b", V2, false, [W])],
          nextId := 2)
  }
  function U3(): Sys {
    U2().(nodes := map["a" := Up("a", V2, false, [W]).(work := Some(Work(W2, Some(true)))),
                       "b" := Up("b", V2, false, [W, W2])])
  }
  function U4(): Sys {
    U2().(nodes := map["a" := Up("a", V2, false, [W, W2]), "b" := Up("b", V2, false, [W, W2])], acks := [A, A_2])
  }

  lemma Late0()
    ensures Quiet(S12(), SyncArrives("a", 370, Answered, false), U1())
  {
    assert Syncing(S12(), "a") && S12().nodes["a"].pb.view.backup == "b" && Idle(S12(), "b");
    assert SyncReply(B1().pb, V2) == OK && Synced(B1().pb, V2, A2().pb.store) == PB("b", Replay([W]), V2);
    assert ApplySyncArrives(S12(), "a", "b", 370, Answered, false) == U1();
  }

  lemma Late1() ensures Quiet(U1(), BeginPut("a", "k", "u"), U2()) {}
  lemma Late2() ensures Quiet(U2(), ForwardArrives("a", false), U3()) { Replays(); }
  lemma Late3() ensures Quiet(U3(), FinishPut("a"), U4()) { Replays(); }

  lemma SecondSync(ss0: seq<Sys>, steps0: seq<Step>) returns (ss: seq<Sys>, steps: seq<Step>)
    requires Reaches(ss0, steps0, S12())
    ensures Reaches(ss, steps, U2()) && ss0 <= ss && steps0 <= steps
  {
    Late0();
    var ss1, steps1 := Grow(ss0, steps0, S12(), SyncArrives("a", 370, Answered, false), U1());
    Late1();
    ss, steps := Grow(ss1, steps1, U1(), BeginPut("a", "k", "u"), U2());
  }

  lemma SecondPut(ss0: seq<Sys>, steps0: seq<Step>) returns (ss: seq<Sys>, steps: seq<Step>)
    requires Reaches(ss0, steps0, U2())
    ensures Reaches(ss, steps, U4()) && ss0 <= ss && steps0 <= steps
  {
    Late2();
    var ss1, steps1 := Grow(ss0, steps0, U2(), ForwardArrives("a", false), U3());
    Late3();
    ss, steps := Grow(ss1, steps1, U3(), FinishPut("a"), U4());
  }

  // Then the first Sync is served after all; a dies, and b is promoted.

  function U5(): Sys {
    U4().(nodes := map["a" := Up("a", V2, false, [W, W2]), "b" := Up("b", V2, false, [W])],
          vs := Service(V2, true, Live(false, 2, 360), Live(false, 2, 380)))
  }
  function U6(): Sys { U5().(vs := Service(V2, true, Live(false, 2, 360), Live(false, 2, 900))) }
  function U7(): Sys {
    Sys(Service(View(3, "b", ""), false, Client(true, true, 2, 360), Live(false, 2, 900)),
        U5().nodes, [A, A_2], "b", "", 2, false)
  }

  lemma Late4()
    ensures "a" in S11().nodes && "b" in U4().nodes && LateSync(U4(), "b", S11().nodes["a"], 380) == U5()
  {
    Replays();
  }

  lemma Late5() ensures Quiet(U5(), ServerPing("b", 900, Answered), U6()) {}

  lemma Late6()
    ensures Apply(U6(), ServiceTick(1000, None, None)) == U7()
    ensures ValidPick(Sweep(U6().vs.clients, 1000), U6().vs.view.num, None, None)
    ensures Pruned(U6().vs, 1000).view.backup == "b"
  {
    assert Sweep(U6().vs.clients, 1000) == map["a" := Client(true, true, 2, 360), "b" := Live(false, 2, 900)];
  }

  lemma Late7()
    ensures Allowed(U6(), ServiceTick(1000, None, None))
  {
    Late6();
    assert SyncDone(U6());
  }

  lemma WriteMissing()
    ensures !Durable(U7())
  {
    assert U7().acks[1] == A_2 && !Kept([W], A_2);
  }

  // A run in which a calls Sync at b (in `calling`), gives the call up and calls again, and
  // then has a Put answered OK. If now the first call is served after all, it takes the
  // write back at b; and with the next promotion, in two more steps that are allowed like
  // all others, the write is lost.
  lemma LateSyncLosesAWrite()
      returns (calling: Sys, ss: seq<Sys>, steps: seq<Step>, ping: Step, tick: Step)
    ensures IsRun(ss, steps) && Durable(ss[|steps|]) && "b" in ss[|steps|].nodes
    ensures exists k :: 0 <= k < |steps| && ss[k] == calling && steps[k] == RetryPing("a", 360, Answered)
    ensures "a" in calling.nodes && calling.nodes["a"].syncing && calling.nodes["a"].pb.view.backup == "b"
    ensures var late := LateSync(ss[|steps|], "b", calling.nodes["a"], 380);
      && Allowed(late, ping) && Allowed(Apply(late, ping), tick)
      && !Durable(Apply(Apply(late, ping), tick))
  {
    var ss0, steps0 := CallsSync();
    Goes11();
    var ss1, steps1 := Grow(ss0, steps0, S11(), RetryPing("a", 360, Answered), S12());
    var ss2, steps2 := SecondSync(ss1, steps1);
    ss, steps := SecondPut(ss2, steps2);
    calling := S11();
    QuietRunIsARun(ss, steps);
    assert ss[|steps0|] == S11() && steps[|steps0|] == RetryPing("a", 360, Answered);
    ping, tick := ServerPing("b", 900, Answered), ServiceTick(1000, None, None);
    Late4();
    Late5();
    Late6();
    Late7();
    WriteMissing();
  }

  // A Put that is answered OK anywhere keeps acknowledged writes safe if and only if the
  // server that answers is the one in charge, or took it for its backup.
  predicate ReachesTheLead(sys: Sys, s: Name)
    requires s in sys.nodes
  {
    var p := sys.nodes[s].pb;
    s == sys.lead || (Forwards(p) && p.view.backup == sys.lead)
  }

  // A Put with nothing in between: its call arrives if the backup is there and unlocked.
  function PutAtOnce(sys: Sys, s: Name, k: Key, v: Value): Sys {
    var sys1 := Apply(sys, BeginPut(s, k, v));
    var sys2 := Apply(sys1, ForwardArrives(s, false));
    var sys3 := Apply(sys2, ForwardFails(s));
    Apply(sys3, FinishPut(s))
  }

  lemma AnsweredPut(sys: Sys, s: Name, k: Key, v: Value, sys': Sys)
    requires Idle(sys, s) && sys.lead in sys.nodes && sys' == PutAtOnce(sys, s, k, v) && sys'.acks != sys.acks
    ensures var w := Write(sys.nextId, k, v);
      && sys'.acks == sys.acks + [Ack(w, sys.nextId + 1)] && sys'.lead == sys.lead && sys'.lead in sys'.nodes
      && sys'.nodes[sys.lead].log ==
           if ReachesTheLead(sys, s) then sys.nodes[sys.lead].log + [w] else sys.nodes[sys.lead].log
  {
    var w := Write(sys.nextId, k, v);
    var sys1 := ApplyBegin(sys, s, w);
    assert Apply(sys, BeginPut(s, k, v)) == sys1;
  }

  lemma PutIsSafeIffItReachesTheLead(sys: Sys, s: Name, k: Key, v: Value)
    requires Idle(sys, s) && sys.lead in sys.nodes && Durable(sys)
    requires forall x :: x in sys.nodes ==> IdsBelow(sys.nodes[x].log, sys.nextId)
    requires PutAtOnce(sys, s, k, v).acks != sys.acks
    ensures Durable(PutAtOnce(sys, s, k, v)) <==> ReachesTheLead(sys, s)
  {
    var log, w := sys.nodes[sys.lead].log, Write(sys.nextId, k, v);
    var sys' := PutAtOnce(sys, s, k, v);
    AnsweredPut(sys, s, k, v, sys');
    if ReachesTheLead(sys, s) {
      AllKeptAppend(log, w, sys.acks);
      KeptAcknowledged(log + [w], sys.acks, w, sys.nextId + 1);
    } else {
      assert w !in log;
      assert sys'.acks[|sys.acks|] == Ack(w, sys.nextId + 1) && !Kept(log, sys'.acks[|sys.acks|]);
    }
  }

  // The same for a call that was under way for any length of time: when it is taken and
  // answered OK, acknowledged writes stay safe if and only if it reached the server that
  // is in charge by then, or came from it.
  lemma LateForwardIsSafeIffItReachesTheLead(sys: Sys, s: Name, sys': Sys)
    requires Calling(sys, s) && sys.nodes[s].alive && Idle(sys, sys.nodes[s].pb.view.backup)
    requires Forwards(sys.nodes[s].pb) && ForwardReply(sys.nodes[sys.nodes[s].pb.view.backup].pb) == OK
    requires sys.lead in sys.nodes && Durable(sys)
    requires forall x :: x in sys.nodes ==> IdsBelow(sys.nodes[x].log, sys.nextId)
    requires var w := sys.nodes[s].work.value.write; w.id < sys.nextId && w !in sys.nodes[sys.lead].log
    requires sys' == Apply(Apply(sys, ForwardArrives(s, false)), FinishPut(s))
    ensures Durable(sys') <==> ReachesTheLead(sys, s)
  {
    var log, w := sys.nodes[sys.lead].log, sys.nodes[s].work.value.write;
    assert sys'.acks == sys.acks + [Ack(w, sys.nextId)];
    if ReachesTheLead(sys, s) {
      assert sys'.nodes[sys.lead].log == log + [w];
      AllKeptAppend(log, w, sys.acks);
      KeptAcknowledged(log + [w], sys.acks, w, sys.nextId);
    } else {
      assert sys'.nodes[sys.lead].log == log;
      assert sys'.acks[|sys.acks|] == Ack(w, sys.nextId) && !Kept(log, sys'.acks[|sys.acks|]);
    }
  }

  // It happens: in view 1 of the run above, led by a, server b answers OK as well.
  lemma MisdirectedPutIsAnsweredOK() returns (ss: seq<Sys>, steps: seq<Step>)
    ensures IsRun(ss, steps)
    ensures var sys := ss[|steps|];
      && sys.vs.view == V1 && !Addressed(sys, "b") && sys.acks == [A]
      && PutAtOnce(sys, "b", "k", "x").acks == [A, Ack(Write(1, "k", "x"), 2)]
      && !Durable(PutAtOnce(sys, "b", "k", "x"))
  {
    ss, steps := TwoServers();
    QuietRunIsARun(ss, steps);
    AnsweredByB();
  }

  lemma AnsweredByB()
    ensures !Addressed(S8(), "b") && S8().acks == [A]
    ensures PutAtOnce(S8(), "b", "k", "x").acks == [A, Ack(Write(1, "k", "x"), 2)]
    ensures !Durable(PutAtOnce(S8(), "b", "k", "x"))
  {
    var w := Write(1, "k", "x");
    assert !Forwards(S8().nodes["b"].pb) && S8().nodes["a"].log == [W];
    assert [A] + [Ack(w, 2)] == [A, Ack(w, 2)];
    var sys' := PutAtOnce(S8(), "b", "k", "x");
    assert sys'.acks == [A, Ack(w, 2)];
    AnsweredPut(S8(), "b", "k", "x", sys');
    assert !Kept([W], sys'.acks[1]);
  }
}
