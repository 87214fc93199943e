// The steps of servers and service keep the invariant: booting and crashing, pings, Syncs,
// and the ticks of the view service.

module PBSteps {
  import opened Wrappers
  import opened ViewService
  import opened PBService
  import opened PBSystem

  // A change after which everything that matters for durability is as it was.
  predicate SameData(sys: Sys, sys': Sys) {
    && sys'.acks == sys.acks && sys'.lead == sys.lead && sys'.second == sys.second
    && sys.nodes.Keys <= sys'.nodes.Keys
    && (forall x :: x in sys.nodes ==> sys'.nodes[x].log == sys.nodes[x].log)
    && (forall x :: x in sys'.nodes && sys'.nodes[x].work.Some? && sys'.nodes[x].work.value.ok == Some(true) ==>
          x in sys.nodes && sys'.nodes[x].work == sys.nodes[x].work)
    && (Ready(sys') ==> Ready(sys))
  }

  lemma SameDataIsSafe(sys: Sys, sys': Sys)
    requires BackupReady(sys) && Durable(sys) && Promises(sys) && SameData(sys, sys')
    ensures BackupReady(sys') && Durable(sys') && Promises(sys')
  {
    forall x | x in sys'.nodes ensures Promise(sys', sys'.nodes[x], x) {
      assert x in sys.nodes ==> Promise(sys, sys.nodes[x], x);
    }
  }

  // One node changed, and perhaps the service's records, but not the view.
  lemma OneNodeChanged(sys: Sys, sys': Sys, s: Name, n: Node)
    requires NodesOk(sys) && sys'.nodes == sys.nodes[s := n] && sys'.vs.view == sys.vs.view
    requires sys'.lead == sys.lead && sys'.second == sys.second && sys.nextId <= sys'.nextId
    requires NodeOk(n, s, sys.vs.view, sys.lead, sys.second, sys'.nextId)
    ensures NodesOk(sys')
  {
    forall x | x in sys'.nodes ensures NodeOk(sys'.nodes[x], x, sys'.vs.view, sys'.lead, sys'.second, sys'.nextId) {
      assert x != s ==> NodeOk(sys.nodes[x], x, sys.vs.view, sys.lead, sys.second, sys.nextId);
    }
  }

  lemma BootKeeps(sys: Sys, s: Name, sys': Sys)
    requires Inv(sys) && s != "" && s !in sys.nodes && sys' == WithNode(sys, s, Node(Booted(s), true, false, None, []))
    ensures Inv(sys')
  {
    BootedOk(s, sys.vs.view, sys.lead, sys.second, sys.nextId);
    OneNodeChanged(sys, sys', s, Node(Booted(s), true, false, None, []));
    SameDataIsSafe(sys, sys');
  }

  lemma BootedOk(s: Name, view: View, lead: Name, second: Name, nextId: nat)
    requires s != "" && (view.num == 0 ==> lead == second == view.primary == view.backup == "")
    ensures NodeOk(Node(Booted(s), true, false, None, []), s, view, lead, second, nextId)
  {
  }

  // One node changed, in nothing that others rely on.
  lemma QuietChangeKeeps(sys: Sys, s: Name, n: Node, sys': Sys)
    requires Inv(sys) && s in sys.nodes && sys' == WithNode(sys, s, n)
    requires NodeOk(n, s, sys.vs.view, sys.lead, sys.second, sys.nextId)
    requires n.log == sys.nodes[s].log && n.pb.view == sys.nodes[s].pb.view && n.syncing == sys.nodes[s].syncing
    requires n.work == sys.nodes[s].work || (n.work.Some? && n.work.value.ok == Some(false))
    ensures Inv(sys')
  {
    OneNodeChanged(sys, sys', s, n);
    QuietShape(sys, s, n, sys');
    SameDataIsSafe(sys, sys');
  }

  lemma QuietShape(sys: Sys, s: Name, n: Node, sys': Sys)
    requires s in sys.nodes && sys' == WithNode(sys, s, n)
    requires n.log == sys.nodes[s].log && n.pb.view == sys.nodes[s].pb.view && n.syncing == sys.nodes[s].syncing
    requires n.work == sys.nodes[s].work || (n.work.Some? && n.work.value.ok == Some(false))
    ensures SameData(sys, sys') && (ServiceOk(sys) ==> ServiceOk(sys'))
  {
  }

  lemma CrashKeeps(sys: Sys, s: Name, sys': Sys)
    requires Inv(sys) && s in sys.nodes && sys' == WithNode(sys, s, sys.nodes[s].(alive := false))
    ensures Inv(sys')
  {
    assert NodeOk(sys.nodes[s], s, sys.vs.view, sys.lead, sys.second, sys.nextId);
    QuietChangeKeeps(sys, s, sys.nodes[s].(alive := false), sys');
  }

  // A ping changes neither view nor crash; it acknowledges only for the primary.
  lemma PingFacts(vs: VS, s: Name, num: nat, now: int)
    ensures var vs' := Ping(vs, s, num, now);
      && vs'.view == vs.view && vs'.crashed == vs.crashed
      && vs'.clients.Keys == vs.clients.Keys + {s}
      && (vs'.acked <==> vs.acked || (s == vs.view.primary && num == vs.view.num))
  {
  }

  lemma PingedByFacts(sys: Sys, s: Name, num: nat, now: int, net: Net, sys': Sys)
    requires sys' == PingedBy(sys, s, num, now, net)
    ensures sys' == sys.(vs := sys'.vs) && sys'.vs.view == sys.vs.view
    ensures forall x :: x in sys'.vs.clients ==> x in sys.vs.clients || x == s
  {
    PingFacts(sys.vs, s, num, now);
  }

  lemma ServerPingNode(sys: Sys, s: Name, now: int, net: Net, sys': Sys)
    requires Inv(sys) && Idle(sys, s) && sys' == ApplyServerPing(sys, s, now, net)
    ensures NodeOk(sys'.nodes[s], s, sys.vs.view, sys.lead, sys.second, sys.nextId)
    ensures ServiceOk(sys') && (Ready(sys') ==> Ready(sys))
  {
    PingedByFacts(sys, s, sys.nodes[s].pb.view.num, now, net, PingedBy(sys, s, sys.nodes[s].pb.view.num, now, net));
    assert NodeOk(sys.nodes[s], s, sys.vs.view, sys.lead, sys.second, sys.nextId);
  }

  lemma ServerPingShape(sys: Sys, s: Name, now: int, net: Net, sys': Sys)
    requires Idle(sys, s) && sys' == ApplyServerPing(sys, s, now, net) && (Ready(sys') ==> Ready(sys))
    ensures SameData(sys, sys') && sys'.nodes == sys.nodes[s := sys'.nodes[s]]
    ensures sys'.vs.view == sys.vs.view && sys'.nextId == sys.nextId
  {
  }

  lemma ServerPingKeeps(sys: Sys, s: Name, now: int, net: Net, sys': Sys)
    requires Inv(sys) && Idle(sys, s) && sys' == ApplyServerPing(sys, s, now, net)
    ensures Inv(sys')
  {
    ServerPingNode(sys, s, now, net, sys');
    ServerPingShape(sys, s, now, net, sys');
    OneNodeChanged(sys, sys', s, sys'.nodes[s]);
    SameDataIsSafe(sys, sys');
  }

  lemma RetryPingNode(sys: Sys, s: Name, now: int, net: Net, sys': Sys)
    requires Inv(sys) && Syncing(sys, s) && sys.nodes[s].alive && sys' == ApplyRetryPing(sys, s, now, net)
    ensures NodeOk(sys'.nodes[s], s, sys.vs.view, sys.lead, sys.second, sys.nextId)
    ensures ServiceOk(sys') && SameData(sys, sys')
  {
    PingedByFacts(sys, s, sys.nodes[s].pb.view.num, now, net, PingedBy(sys, s, sys.nodes[s].pb.view.num, now, net));
    assert NodeOk(sys.nodes[s], s, sys.vs.view, sys.lead, sys.second, sys.nextId);
  }

  lemma RetryPingKeeps(sys: Sys, s: Name, now: int, net: Net, sys': Sys)
    requires Inv(sys) && Syncing(sys, s) && sys.nodes[s].alive && sys' == ApplyRetryPing(sys, s, now, net)
    ensures Inv(sys')
  {
    RetryPingNode(sys, s, now, net, sys');
    OneNodeChanged(sys, sys', s, sys'.nodes[s]);
    SameDataIsSafe(sys, sys');
  }

  // A Sync comes from the server in charge. If it is taken when both know the current
  // view, it has reached the current backup.
  lemma SyncKeepsNodes(sys: Sys, s: Name, b: Name, now: int, net: Net, lost: bool, sys': Sys)
    requires Inv(sys) && Syncing(sys, s) && s == sys.lead && b == sys.nodes[s].pb.view.backup && Idle(sys, b)
    requires sys' == ApplySyncArrives(sys, s, b, now, net, lost)
    ensures NodesOk(sys') && ServiceOk(sys') && b != s
    ensures Ready(sys') && !Ready(sys) ==> SyncReply(sys.nodes[b].pb, Seen(sys, net)) == OK && b == sys.second
  {
    var n, m := sys.nodes[s], sys.nodes[b];
    PingedByFacts(sys, b, m.pb.view.num, now, net, PingedBy(sys, b, m.pb.view.num, now, net));
    assert NodeOk(n, s, sys.vs.view, sys.lead, sys.second, sys.nextId);
    assert NodeOk(m, b, sys.vs.view, sys.lead, sys.second, sys.nextId);
    var mid := sys.(nodes := sys.nodes[b := sys'.nodes[b]]);
    OneNodeChanged(sys, mid, b, sys'.nodes[b]);
    OneNodeChanged(mid, sys', s, sys'.nodes[s]);
  }

  // What a Sync does to the logs.
  lemma SyncedLogs(sys: Sys, s: Name, b: Name, now: int, net: Net, lost: bool, sys': Sys)
    requires Syncing(sys, s) && Idle(sys, b) && b != s && sys' == ApplySyncArrives(sys, s, b, now, net, lost)
    ensures sys'.nodes.Keys == sys.nodes.Keys && sys'.acks == sys.acks
    ensures sys'.lead == sys.lead && sys'.second == sys.second
    ensures forall x :: x in sys.nodes ==> sys'.nodes[x].work == sys.nodes[x].work
    ensures forall x :: x in sys.nodes && x != b ==> sys'.nodes[x].log == sys.nodes[x].log
    ensures sys'.nodes[b].log ==
              if SyncReply(sys.nodes[b].pb, Seen(sys, net)) == OK then sys.nodes[s].log else sys.nodes[b].log
  {
  }

  lemma SyncPromises(sys: Sys, b: Name, sys': Sys, x: Name, ok: bool)
    requires Promises(sys) && x in sys.nodes && sys.lead in sys.nodes && b in sys.nodes && b != sys.lead
    requires sys'.nodes.Keys == sys.nodes.Keys && sys'.lead == sys.lead && sys'.second == sys.second
    requires sys'.nodes[x].work == sys.nodes[x].work && sys.nodes[sys.lead].work.None?
    requires forall y :: y in sys.nodes && y != b ==> sys'.nodes[y].log == sys.nodes[y].log
    requires sys'.nodes[b].log == if ok then sys.nodes[sys.lead].log else sys.nodes[b].log
    requires Ready(sys') && !Ready(sys) ==> ok && b == sys.second
    ensures Promise(sys', sys'.nodes[x], x)
  {
    assert Promise(sys, sys.nodes[x], x);
  }

  lemma SyncArrivesKeeps(sys: Sys, s: Name, b: Name, now: int, net: Net, lost: bool, sys': Sys)
    requires Inv(sys) && Syncing(sys, s) && s == sys.lead && b == sys.nodes[s].pb.view.backup && Idle(sys, b)
    requires sys' == ApplySyncArrives(sys, s, b, now, net, lost)
    ensures Inv(sys')
  {
    SyncKeepsNodes(sys, s, b, now, net, lost, sys');
    SyncedLogs(sys, s, b, now, net, lost, sys');
    assert NodeOk(sys.nodes[s], s, sys.vs.view, sys.lead, sys.second, sys.nextId);
    forall x | x in sys'.nodes ensures Promise(sys', sys'.nodes[x], x) {
      SyncPromises(sys, b, sys', x, SyncReply(sys.nodes[b].pb, Seen(sys, net)) == OK);
    }
  }

  // A tick changes slots of the current view only when it is acknowledged; it moves on
  // with the primary that is left, the backup that is left, or an idle server.
  lemma TickFacts(vs: VS, now: int, idle: Option<Name>, inited: Option<Name>)
    requires ValidPick(Sweep(vs.clients, now), vs.view.num, idle, inited)
    ensures var vs', left := Tick(vs, now, idle, inited), Pruned(vs, now).view;
      && vs'.clients.Keys == vs.clients.Keys
      && (vs'.view.num == vs.view.num ==>
            && (vs'.acked <==> vs.acked)
            && vs'.view.primary in {"", vs.view.primary} && vs'.view.backup in {"", vs.view.backup}
            && (!vs.acked ==> vs'.view == vs.view))
      && (vs'.view.num != vs.view.num ==>
            && vs.acked && !vs'.acked && vs'.view.num == vs.view.num + 1
            && (left.primary != "" ==> vs'.view.primary == left.primary == vs.view.primary
                                       && vs'.view.backup in vs.clients)
            && (left.primary == "" && left.backup != "" ==>
                  vs'.view.primary == left.backup == vs.view.backup && vs'.view.backup == "")
            && (left.primary == "" && left.backup == "" ==>
                  vs'.view.primary in vs.clients && vs'.view.backup == ""))
  {
  }

  lemma TickInPlaceKeeps(sys: Sys, vs: VS, sys': Sys)
    requires Inv(sys) && vs.view.num == sys.vs.view.num && vs.clients.Keys == sys.vs.clients.Keys
    requires vs.acked <==> sys.vs.acked
    requires vs.view.primary in {"", sys.vs.view.primary} && vs.view.backup in {"", sys.vs.view.backup}
    requires !vs.acked ==> vs.view == sys.vs.view
    requires sys' == Tell(sys, vs)
    ensures Inv(sys')
  {
    forall x | x in sys.nodes ensures NodeOk(sys.nodes[x], x, vs.view, sys.lead, sys.second, sys.nextId) {
      assert NodeOk(sys.nodes[x], x, sys.vs.view, sys.lead, sys.second, sys.nextId);
    }
    SameDataIsSafe(sys, sys');
  }

  // The next view is led by the same server, by its backup, or is the first view.
  predicate Follows(sys: Sys, vs: VS) {
    var p, b := vs.view.primary, vs.view.backup;
    || (sys.vs.view.num == 0 && p in sys.vs.clients && b == "")
    || (sys.vs.view.num >= 1 && p != "" && p == sys.vs.view.primary && b in sys.vs.clients)
    || (sys.vs.view.num >= 1 && p != "" && p == sys.vs.view.backup && b == "" && SyncDone(sys))
  }

  lemma TickMovesNodes(sys: Sys, vs: VS, sys': Sys)
    requires Inv(sys) && vs.view.num == sys.vs.view.num + 1 && vs.clients.Keys == sys.vs.clients.Keys
    requires sys.vs.acked && !vs.acked && Follows(sys, vs) && sys' == Tell(sys, vs)
    ensures NodesOk(sys') && ServiceOk(sys') && !Ready(sys')
    ensures sys.vs.view.num >= 1 && sys'.lead != sys.lead ==> Ready(sys) && sys'.lead == sys.second
    ensures sys.vs.view.num == 0 ==> forall x :: x in sys.nodes ==> sys.nodes[x].work.None?
  {
    assert sys.lead in sys.nodes ==> NodeOk(sys.nodes[sys.lead], sys.lead, sys.vs.view, sys.lead, sys.second,
           sys.nextId);
    forall x | x in sys.nodes ensures NodeOk(sys.nodes[x], x, vs.view, sys'.lead, sys'.second, sys.nextId) {
      assert NodeOk(sys.nodes[x], x, sys.vs.view, sys.lead, sys.second, sys.nextId);
    }
    forall x | x in sys.nodes && sys.vs.view.num == 0 ensures sys.nodes[x].work.None? {
      assert NodeOk(sys.nodes[x], x, sys.vs.view, sys.lead, sys.second, sys.nextId);
    }
  }

  lemma TickMovesKeeps(sys: Sys, vs: VS, sys': Sys)
    requires Inv(sys) && vs.view.num == sys.vs.view.num + 1 && vs.clients.Keys == sys.vs.clients.Keys
    requires sys.vs.acked && !vs.acked && Follows(sys, vs) && sys' == Tell(sys, vs)
    ensures Inv(sys')
  {
    TickMovesNodes(sys, vs, sys');
    forall x | x in sys'.nodes ensures Promise(sys', sys'.nodes[x], x) {
      assert Promise(sys, sys.nodes[x], x);
    }
  }

  lemma ServiceTickKeeps(sys: Sys, step: Step, sys': Sys)
    requires Inv(sys) && step.ServiceTick? && Allowed(sys, step) && sys' == Apply(sys, step)
    ensures Inv(sys')
  {
    if !sys.vs.crashed {
      TickFacts(sys.vs, step.now, step.idle, step.inited);
      var vs := Tick(sys.vs, step.now, step.idle, step.inited);
      if vs.view.num == sys.vs.view.num {
        TickInPlaceKeeps(sys, vs, sys');
      } else {
        assert Pruned(sys.vs, step.now).view.primary in {"", sys.vs.view.primary};
        TickMovesKeeps(sys, vs, sys');
      }
    }
  }
}
