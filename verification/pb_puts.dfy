// The parts of a Put keep the invariant.

module PBPuts {
  import opened Wrappers
  import opened ViewService
  import opened PBService
  import opened PBSystem
  import opened PBSteps

  lemma ReflectsAppend(store: map<Key, Value>, log: seq<Write>, w: Write, store': map<Key, Value>, log': seq<Write>)
    requires Reflects(store, log) && store' == store[w.key := w.value] && log' == log + [w]
    ensures Reflects(store', log')
  {
    forall k | k in store' ensures LastValue(log', k, store'[k]) {
      if k == w.key {
        assert IsLast(log', |log|, k);
      } else {
        assert LastValue(log, k, store[k]);
        var j :| 0 <= j < |log| && IsLast(log, j, k) && log[j].value == store[k];
        assert IsLast(log', j, k);
      }
    }
  }

  lemma AppendData(n: Node, n': Node, w: Write, nextId: nat)
    requires DataOk(n, nextId) && w.id < nextId
    requires n'.log == n.log + [w] && n'.pb.store == n.pb.store[w.key := w.value]
    ensures DataOk(n', nextId)
  {
    ReflectsAppend(n.pb.store, n.log, w, n'.pb.store, n'.log);
  }

  lemma KeptAppend(log: seq<Write>, w: Write, a: Ack)
    requires Kept(log, a)
    ensures Kept(log + [w], a)
  {
    var p :| 0 <= p < |log| && StandsAt(log, p, a.write, a.at);
    assert StandsAt(log + [w], p, a.write, a.at);
  }

  lemma AllKeptAppend(log: seq<Write>, w: Write, acks: seq<Ack>)
    requires AllKept(log, acks)
    ensures AllKept(log + [w], acks)
  {
    forall i | 0 <= i < |acks| ensures Kept(log + [w], acks[i]) {
      KeptAppend(log, w, acks[i]);
    }
  }

  // One more answer, for a write that the log has, when no later write has begun.
  lemma KeptAcknowledged(log: seq<Write>, acks: seq<Ack>, w: Write, nextId: nat)
    requires AllKept(log, acks) && w in log && IdsBelow(log, nextId)
    ensures AllKept(log, acks + [Ack(w, nextId)])
  {
    var p :| 0 <= p < |log| && log[p] == w;
    assert StandsAt(log, p, w, nextId);
    forall i | 0 <= i <= |acks| ensures Kept(log, (acks + [Ack(w, nextId)])[i]) {
      assert i < |acks| ==> Kept(log, acks[i]);
    }
  }

  // Who can serve a Put, and who its backup then is.
  lemma WhoIsAddressed(sys: Sys, s: Name)
    requires NodesOk(sys) && ServiceOk(sys) && s in sys.nodes && Addressed(sys, s)
    ensures sys.vs.view.num >= 1
    ensures s == sys.lead || (Forwards(sys.nodes[s].pb) && sys.nodes[s].pb.view.backup == sys.lead)
    ensures s == sys.lead && Ready(sys) ==>
              Forwards(sys.nodes[s].pb) && sys.nodes[s].pb.view.backup == sys.second
  {
    assert NodeOk(sys.nodes[s], s, sys.vs.view, sys.lead, sys.second, sys.nextId);
    if sys.lead in sys.nodes {
      assert NodeOk(sys.nodes[sys.lead], sys.lead, sys.vs.view, sys.lead, sys.second, sys.nextId);
    }
  }

  lemma BeginKeeps(sys: Sys, s: Name, w: Write, sys': Sys)
    requires Inv(sys) && Idle(sys, s) && Addressed(sys, s) && w.id == sys.nextId && sys' == ApplyBegin(sys, s, w)
    ensures Inv(sys')
  {
    WhoIsAddressed(sys, s);
    assert NodeOk(sys.nodes[s], s, sys.vs.view, sys.lead, sys.second, sys.nextId);
    BegunOk(sys.nodes[s], s, w, sys.vs.view, sys.lead, sys.second, sys.nextId);
    OneNodeChanged(sys, sys', s, sys'.nodes[s]);
    forall x | x in sys'.nodes ensures Promise(sys', sys'.nodes[x], x) {
      assert Promise(sys, sys.nodes[x], x);
    }
  }

  lemma BegunOk(n: Node, s: Name, w: Write, view: View, lead: Name, second: Name, nextId: nat)
    requires NodeOk(n, s, view, lead, second, nextId) && Unlocked(n) && view.num >= 1 && w.id == nextId
    ensures NodeOk(n.(work := Some(Work(w, if Forwards(n.pb) then None else Some(true)))), s, view, lead, second,
                   nextId + 1)
  {
  }

  lemma FailKeeps(sys: Sys, s: Name, sys': Sys)
    requires Inv(sys) && Calling(sys, s) && sys' == WithNode(sys, s, Learned(sys.nodes[s], false))
    ensures Inv(sys')
  {
    assert NodeOk(sys.nodes[s], s, sys.vs.view, sys.lead, sys.second, sys.nextId);
    QuietChangeKeeps(sys, s, Learned(sys.nodes[s], false), sys');
  }

  // A server in charge that has learned the current view takes no forwarded writes,
  // unless it is its own backup.
  lemma LeadTakesNoForwards(sys: Sys)
    requires NodesOk(sys) && sys.lead in sys.nodes && sys.vs.view.num >= 1
    requires sys.nodes[sys.lead].pb.view.num == sys.vs.view.num && sys.lead != sys.second
    ensures ForwardReply(sys.nodes[sys.lead].pb) != OK
  {
    assert NodeOk(sys.nodes[sys.lead], sys.lead, sys.vs.view, sys.lead, sys.second, sys.nextId);
  }

  // Whom a forwarded call reaches.
  lemma ForwardTarget(sys: Sys, s: Name, b: Name)
    requires NodesOk(sys) && ServiceOk(sys) && Calling(sys, s) && InTime(sys, s)
    requires b == sys.nodes[s].pb.view.backup && Idle(sys, b)
    ensures b != s && (s != sys.lead ==> b == sys.lead) && (s == sys.lead && Ready(sys) ==> b == sys.second)
    ensures b == sys.lead && ForwardReply(sys.nodes[b].pb) == OK ==> !Ready(sys)
  {
    assert NodeOk(sys.nodes[s], s, sys.vs.view, sys.lead, sys.second, sys.nextId);
    if b == sys.lead && Ready(sys) {
      LeadTakesNoForwards(sys);
    }
  }

  lemma ForwardedOk(m: Node, b: Name, w: Write, view: View, lead: Name, second: Name, nextId: nat)
    requires NodeOk(m, b, view, lead, second, nextId) && m.work.None? && DataOk(AfterForward(m, w), nextId)
    ensures NodeOk(AfterForward(m, w), b, view, lead, second, nextId)
  {
  }

  lemma LearnedOk(n: Node, s: Name, ok: bool, view: View, lead: Name, second: Name, nextId: nat)
    requires NodeOk(n, s, view, lead, second, nextId) && n.work.Some?
    ensures NodeOk(Learned(n, ok), s, view, lead, second, nextId)
  {
  }

  lemma ForwardKeepsNodes(sys: Sys, s: Name, b: Name, lost: bool, sys': Sys)
    requires NodesOk(sys) && ServiceOk(sys) && Calling(sys, s) && Idle(sys, b) && b != s
    requires sys' == ApplyForward(sys, s, b, lost)
    ensures NodesOk(sys') && ServiceOk(sys') && (Ready(sys') <==> Ready(sys))
  {
    var n, m := sys.nodes[s], sys.nodes[b];
    assert NodeOk(n, s, sys.vs.view, sys.lead, sys.second, sys.nextId);
    assert NodeOk(m, b, sys.vs.view, sys.lead, sys.second, sys.nextId);
    if ForwardReply(m.pb) == OK {
      AppendData(m, AfterForward(m, n.work.value.write), n.work.value.write, sys.nextId);
    }
    ForwardedOk(m, b, n.work.value.write, sys.vs.view, sys.lead, sys.second, sys.nextId);
    LearnedOk(n, s, sys'.nodes[s].work.value.ok.value, sys.vs.view, sys.lead, sys.second, sys.nextId);
    var mid := sys.(nodes := sys.nodes[b := sys'.nodes[b]]);
    OneNodeChanged(sys, mid, b, sys'.nodes[b]);
    OneNodeChanged(mid, sys', s, sys'.nodes[s]);
  }

  // Every log only grew, and keeps what it had.
  predicate LogsGrow(sys: Sys, sys': Sys) {
    && sys'.nodes.Keys == sys.nodes.Keys
    && forall x :: x in sys.nodes ==> GrewBy(sys.nodes[x].log, sys'.nodes[x].log)
  }

  predicate GrewBy(log: seq<Write>, log': seq<Write>) {
    log' == log || (|log'| == |log| + 1 && log' == log + [log'[|log|]])
  }

  lemma KeptInGrown(log: seq<Write>, log': seq<Write>, acks: seq<Ack>)
    requires GrewBy(log, log') && AllKept(log, acks)
    ensures AllKept(log', acks)
  {
    if log' != log {
      AllKeptAppend(log, log'[|log|], acks);
    }
  }

  lemma GrownIsSafe(sys: Sys, sys': Sys)
    requires BackupReady(sys) && Durable(sys) && LogsGrow(sys, sys')
    requires sys'.acks == sys.acks && sys'.lead == sys.lead && sys'.second == sys.second && (Ready(sys') ==> Ready(sys))
    ensures BackupReady(sys') && Durable(sys')
  {
    if sys.lead in sys.nodes && AllKept(sys.nodes[sys.lead].log, sys.acks) {
      KeptInGrown(sys.nodes[sys.lead].log, sys'.nodes[sys.lead].log, sys.acks);
    }
    if Ready(sys) {
      KeptInGrown(sys.nodes[sys.second].log, sys'.nodes[sys.second].log, sys.acks);
    }
  }

  lemma PromiseInGrown(sys: Sys, sys': Sys, n: Node, x: Name)
    requires Promise(sys, n, x) && LogsGrow(sys, sys')
    requires sys'.lead == sys.lead && sys'.second == sys.second && (Ready(sys') ==> Ready(sys))
    ensures Promise(sys', n, x)
  {
  }

  lemma ForwardPromises(sys: Sys, s: Name, b: Name, lost: bool, sys': Sys)
    requires Calling(sys, s) && Idle(sys, b) && b != s && sys' == ApplyForward(sys, s, b, lost)
    requires s != sys.lead ==> b == sys.lead
    requires s == sys.lead && Ready(sys) ==> b == sys.second
    requires b == sys.lead && ForwardReply(sys.nodes[b].pb) == OK ==> !Ready(sys)
    requires Ready(sys') <==> Ready(sys)
    ensures Promise(sys', sys'.nodes[s], s)
  {
    if ForwardReply(sys.nodes[b].pb) == OK {
      assert sys'.nodes[b].log[|sys.nodes[b].log|] == sys.nodes[s].work.value.write;
    }
  }

  lemma ForwardKeeps(sys: Sys, s: Name, b: Name, lost: bool, sys': Sys)
    requires Inv(sys) && Calling(sys, s) && InTime(sys, s) && b == sys.nodes[s].pb.view.backup && Idle(sys, b)
    requires sys' == ApplyForward(sys, s, b, lost)
    ensures Inv(sys')
  {
    ForwardTarget(sys, s, b);
    ForwardKeepsNodes(sys, s, b, lost, sys');
    ForwardGrows(sys, s, b, lost, sys');
    GrownIsSafe(sys, sys');
    ForwardPromises(sys, s, b, lost, sys');
    forall x | x in sys'.nodes ensures Promise(sys', sys'.nodes[x], x) {
      if x != s {
        OtherPromise(sys, sys', x);
      }
    }
  }

  lemma ForwardGrows(sys: Sys, s: Name, b: Name, lost: bool, sys': Sys)
    requires Calling(sys, s) && Idle(sys, b) && b != s && sys' == ApplyForward(sys, s, b, lost)
    ensures LogsGrow(sys, sys') && forall x :: x in sys.nodes && x != s ==> sys'.nodes[x].work == sys.nodes[x].work
    ensures sys'.acks == sys.acks && sys'.lead == sys.lead && sys'.second == sys.second
  {
  }

  lemma OtherPromise(sys: Sys, sys': Sys, x: Name)
    requires Promises(sys) && LogsGrow(sys, sys') && x in sys.nodes && sys'.nodes[x].work == sys.nodes[x].work
    requires sys'.lead == sys.lead && sys'.second == sys.second && (Ready(sys') ==> Ready(sys))
    ensures Promise(sys', sys'.nodes[x], x)
  {
    assert Promise(sys, sys.nodes[x], x);
    PromiseInGrown(sys, sys', sys.nodes[x], x);
  }

  // A write that is taken after all, though its Put was refused, does no harm.
  lemma StrayForwardKeeps(sys: Sys, b: Name, w: Write, sys': Sys)
    requires Inv(sys) && Idle(sys, b) && w.id < sys.nextId && sys' == WithNode(sys, b, AfterForward(sys.nodes[b], w))
    ensures Inv(sys')
  {
    assert NodeOk(sys.nodes[b], b, sys.vs.view, sys.lead, sys.second, sys.nextId);
    if ForwardReply(sys.nodes[b].pb) == OK {
      AppendData(sys.nodes[b], AfterForward(sys.nodes[b], w), w, sys.nextId);
    }
    ForwardedOk(sys.nodes[b], b, w, sys.vs.view, sys.lead, sys.second, sys.nextId);
    OneNodeChanged(sys, sys', b, sys'.nodes[b]);
    StrayGrows(sys, b, w, sys');
    GrownIsSafe(sys, sys');
    forall x | x in sys'.nodes ensures Promise(sys', sys'.nodes[x], x) {
      OtherPromise(sys, sys', x);
    }
  }

  lemma StrayGrows(sys: Sys, b: Name, w: Write, sys': Sys)
    requires Idle(sys, b) && sys' == WithNode(sys, b, AfterForward(sys.nodes[b], w))
    ensures LogsGrow(sys, sys') && (Ready(sys') <==> Ready(sys)) && (ServiceOk(sys) ==> ServiceOk(sys'))
    ensures forall x :: x in sys.nodes ==> sys'.nodes[x].work == sys.nodes[x].work
  {
  }

  lemma FinishedOk(n: Node, s: Name, view: View, lead: Name, second: Name, nextId: nat)
    requires NodeOk(n, s, view, lead, second, nextId) && n.work.Some? && DataOk(Finished(n), nextId)
    ensures NodeOk(Finished(n), s, view, lead, second, nextId)
  {
  }

  lemma FinishShape(sys: Sys, s: Name, sys': Sys)
    requires s in sys.nodes && sys.nodes[s].work.Some? && sys' == ApplyFinish(sys, s)
    ensures LogsGrow(sys, sys') && (Ready(sys') <==> Ready(sys))
    ensures sys'.vs == sys.vs && sys'.lead == sys.lead && sys'.second == sys.second && sys'.nextId == sys.nextId
    ensures forall x :: x in sys.nodes && x != s ==> sys'.nodes[x] == sys.nodes[x]
    ensures forall x :: x in sys.nodes ==> sys'.nodes[x].pb.view == sys.nodes[x].pb.view
  {
  }

  lemma FinishKeepsNodes(sys: Sys, s: Name, sys': Sys)
    requires NodesOk(sys) && ServiceOk(sys) && s in sys.nodes && sys.nodes[s].work.Some? && sys' == ApplyFinish(sys, s)
    ensures NodesOk(sys') && ServiceOk(sys')
  {
    assert NodeOk(sys.nodes[s], s, sys.vs.view, sys.lead, sys.second, sys.nextId);
    if sys.nodes[s].work.value.ok == Some(true) {
      AppendData(sys.nodes[s], Finished(sys.nodes[s]), sys.nodes[s].work.value.write, sys.nextId);
    }
    FinishedOk(sys.nodes[s], s, sys.vs.view, sys.lead, sys.second, sys.nextId);
    OneNodeChanged(sys, sys', s, Finished(sys.nodes[s]));
  }

  // Where the write is that is now answered OK.
  lemma AnsweredWrite(sys: Sys, s: Name, sys': Sys)
    requires Promises(sys) && s in sys.nodes && sys.nodes[s].work.Some? && sys' == ApplyFinish(sys, s)
    requires sys.nodes[s].work.value.ok == Some(true) && LogsGrow(sys, sys')
    ensures var w := sys.nodes[s].work.value.write;
      && sys.lead in sys.nodes && w in sys'.nodes[sys.lead].log
      && (Ready(sys) ==> w in sys'.nodes[sys.second].log)
  {
    assert Promise(sys, sys.nodes[s], s);
    var w := sys.nodes[s].work.value.write;
    assert sys'.nodes[s].log == sys.nodes[s].log + [w];
    assert sys'.nodes[s].log[|sys.nodes[s].log|] == w;
  }

  lemma AckIsKept(sys: Sys, x: Name, w: Write, acks: seq<Ack>)
    requires NodesOk(sys) && x in sys.nodes && w in sys.nodes[x].log && AllKept(sys.nodes[x].log, acks)
    ensures AllKept(sys.nodes[x].log, acks + [Ack(w, sys.nextId)])
  {
    assert NodeOk(sys.nodes[x], x, sys.vs.view, sys.lead, sys.second, sys.nextId);
    KeptAcknowledged(sys.nodes[x].log, acks, w, sys.nextId);
  }

  // mid: the Put has finished, but does not count as answered yet.
  lemma FinishAcknowledges(mid: Sys, w: Write, sys': Sys)
    requires NodesOk(mid) && BackupReady(mid) && Durable(mid) && mid.lead in mid.nodes && w in mid.nodes[mid.lead].log
    requires Ready(mid) ==> w in mid.nodes[mid.second].log
    requires sys' == mid.(acks := mid.acks + [Ack(w, mid.nextId)])
    ensures BackupReady(sys') && Durable(sys')
  {
    AckIsKept(mid, mid.lead, w, mid.acks);
    if Ready(mid) {
      AckIsKept(mid, mid.second, w, mid.acks);
    }
    assert Ready(sys') <==> Ready(mid);
  }

  lemma FinishIsDurable(sys: Sys, s: Name, mid: Sys, sys': Sys)
    requires Inv(sys) && s in sys.nodes && sys.nodes[s].work.Some? && sys' == ApplyFinish(sys, s)
    requires mid == sys'.(acks := sys.acks) && NodesOk(sys') && BackupReady(mid) && Durable(mid)
    ensures BackupReady(sys') && Durable(sys')
  {
    FinishShape(sys, s, sys');
    if sys.nodes[s].work.value.ok == Some(true) {
      AnsweredWrite(sys, s, sys');
      assert NodesOk(mid);
      assert Ready(mid) <==> Ready(sys);
      FinishAcknowledges(mid, sys.nodes[s].work.value.write, sys');
    } else {
      assert mid == sys';
    }
  }

  lemma FinishKeeps(sys: Sys, s: Name, sys': Sys)
    requires Inv(sys) && s in sys.nodes && sys.nodes[s].work.Some? && sys' == ApplyFinish(sys, s)
    ensures Inv(sys')
  {
    FinishKeepsNodes(sys, s, sys');
    FinishShape(sys, s, sys');
    var mid := sys'.(acks := sys.acks);
    GrownIsSafe(sys, mid);
    FinishIsDurable(sys, s, mid, sys');
    forall x | x in sys'.nodes ensures Promise(sys', sys'.nodes[x], x) {
      if x != s {
        OtherPromise(sys, sys', x);
      }
    }
  }

  // ------------------------------------------------------------------------------
  // The parts of a Put, undisturbed, are the Put of the server
  // ------------------------------------------------------------------------------

  // The call to the backup, if the server makes one.
  function ForwardPart(sys: Sys, s: Name, net: Net): Sys {
    if !Calling(sys, s) then sys
    else Apply(sys, if net == RequestLost then ForwardFails(s) else ForwardArrives(s, net == ReplyLost))
  }

  // What the call finds at the backup and leaves there.
  predicate CallGoesAs(m: Node, m': Node, w: Write, net: Net) {
    var stored := net != RequestLost && m.pb.view.backup == m.pb.me;
    m'.pb == m.pb.(store := if stored then m.pb.store[w.key := w.value] else m.pb.store)
  }

  lemma BegunPut(sys: Sys, s: Name, k: Key, v: Value, sys1: Sys)
    requires Idle(sys, s) && sys1 == Apply(sys, BeginPut(s, k, v))
    ensures var n := sys.nodes[s]; var w := Write(sys.nextId, k, v);
      var calls := n.pb.view.primary == n.pb.me && n.pb.view.backup != "";
      && sys1.nodes == sys.nodes[s := n.(work := Some(Work(w, if calls then None else Some(true))))]
      && sys1.acks == sys.acks && sys1.nextId == sys.nextId + 1
  {
  }

  lemma ForwardedPut(sys1: Sys, s: Name, net: Net, sys2: Sys)
    requires Calling(sys1, s) && sys2 == ForwardPart(sys1, s, net)
    requires net != RequestLost ==> sys1.nodes[s].pb.view.backup != s && Idle(sys1, sys1.nodes[s].pb.view.backup)
    ensures s in sys2.nodes && sys2.acks == sys1.acks && sys2.nextId == sys1.nextId
    ensures var n := sys1.nodes[s]; var b := n.pb.view.backup;
      && sys2.nodes[s] == n.(work := Some(n.work.value.(ok := Some(
           net == Answered && sys1.nodes[b].pb.view.backup == sys1.nodes[b].pb.me))))
      && (b != s && b in sys1.nodes ==>
            b in sys2.nodes && CallGoesAs(sys1.nodes[b], sys2.nodes[b], n.work.value.write, net))
      && (forall x :: x in sys1.nodes && x != s && x != b ==> x in sys2.nodes && sys2.nodes[x] == sys1.nodes[x])
  {
  }

  lemma FinishedPut(sys2: Sys, s: Name, sys': Sys)
    requires s in sys2.nodes && sys2.nodes[s].alive && sys2.nodes[s].work.Some?
    requires sys2.nodes[s].work.value.ok.Some? && sys' == Apply(sys2, FinishPut(s))
    ensures var n := sys2.nodes[s]; var w := n.work.value.write;
      && s in sys'.nodes && sys'.nodes[s].work.None?
      && (forall x :: x in sys2.nodes && x != s ==> x in sys'.nodes && sys'.nodes[x] == sys2.nodes[x])
      && if n.work.value.ok.value
         then sys'.nodes[s].pb.store == n.pb.store[w.key := w.value] && sys'.acks == sys2.acks + [Ack(w, sys2.nextId)]
              && sys'.nodes[s].pb.view == n.pb.view && sys'.nodes[s].pb.me == n.pb.me
         else sys'.nodes[s].pb == n.pb && sys'.acks == sys2.acks
  {
  }

  // Begin, forward and finish with nothing in between leave both servers as Server.Put
  // does, and acknowledge the write exactly if that answers OK.
  lemma UndisturbedPut(sys: Sys, s: Name, k: Key, v: Value, net: Net, sys': Sys)
    requires Idle(sys, s) && sys.nodes[s].pb.me == s
    requires var p := sys.nodes[s].pb; var b := p.view.backup;
      b in sys.nodes && b != s && (Forwards(p) && net != RequestLost ==> Idle(sys, b))
    requires sys' == Apply(ForwardPart(Apply(sys, BeginPut(s, k, v)), s, net), FinishPut(s))
    ensures var p := sys.nodes[s].pb; var b := p.view.backup;
      && s in sys'.nodes && b in sys'.nodes && Unlocked(sys'.nodes[s])
      && sys'.acks == (if |sys'.acks| == |sys.acks| then sys.acks
                       else sys.acks + [Ack(Write(sys.nextId, k, v), sys.nextId + 1)])
      && PutDid(p, sys.nodes[b].pb, k, v, net, |sys'.acks| > |sys.acks|, sys'.nodes[s].pb, sys'.nodes[b].pb)
      && forall x :: x in sys.nodes && x != s && x != b ==> x in sys'.nodes && sys'.nodes[x] == sys.nodes[x]
  {
    var sys1 := Apply(sys, BeginPut(s, k, v));
    BegunPut(sys, s, k, v, sys1);
    var sys2 := ForwardPart(sys1, s, net);
    if Calling(sys1, s) {
      ForwardedPut(sys1, s, net, sys2);
    }
    FinishedPut(sys2, s, sys');
  }

  // The same, when there is no backup to name.
  lemma UndisturbedPutAlone(sys: Sys, s: Name, k: Key, v: Value, sys': Sys)
    requires Idle(sys, s) && !(sys.nodes[s].pb.view.primary == sys.nodes[s].pb.me && sys.nodes[s].pb.view.backup != "")
    requires sys' == Apply(Apply(sys, BeginPut(s, k, v)), FinishPut(s))
    ensures s in sys'.nodes && sys'.acks == sys.acks + [Ack(Write(sys.nextId, k, v), sys.nextId + 1)]
    ensures sys'.nodes[s].pb == sys.nodes[s].pb.(store := sys.nodes[s].pb.store[k := v])
    ensures forall x :: x in sys.nodes && x != s ==> x in sys'.nodes && sys'.nodes[x] == sys.nodes[x]
  {
    var sys1 := Apply(sys, BeginPut(s, k, v));
    BegunPut(sys, s, k, v, sys1);
    FinishedPut(sys1, s, sys');
  }
}
