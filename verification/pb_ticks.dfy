// The parts of a server's tick in the system, undisturbed, are the tick of the server.

module PBTicks {
  import opened Wrappers
  import opened ViewService
  import opened PBService
  import opened PBSystem

  // A Sync call that reaches the backup: how the backup's own ping goes, and whether the
  // reply of the call is lost.
  datatype Arrival = Arrival(now: int, net: Net, lost: bool)

  // One turn of the retry loop: a ping, and a Sync call if it reaches the backup.
  datatype Turn = Turn(now: int, net: Net, arrival: Option<Arrival>)

  function CallPart(sys: Sys, s: Name, a: Option<Arrival>): Sys {
    if a.Some? then Apply(sys, SyncArrives(s, a.value.now, a.value.net, a.value.lost)) else sys
  }

  function TakeTurn(sys: Sys, s: Name, t: Turn): Sys {
    CallPart(Apply(sys, RetryPing(s, t.now, t.net)), s, t.arrival)
  }

  function TakeTurns(sys: Sys, s: Name, turns: seq<Turn>): Sys
    decreases |turns|
  {
    if turns == [] then sys else TakeTurns(TakeTurn(sys, s, turns[0]), s, turns[1..])
  }

  // The call goes through: the backup is there, not locked, and its reply is seen.
  predicate WentThrough(sys: Sys, s: Name, a: Option<Arrival>) {
    a.Some? && !a.value.lost && s in sys.nodes && Idle(sys, sys.nodes[s].pb.view.backup)
  }

  // What the server meets in a turn, as `Server.Tick` is told.
  function Met(sys: Sys, s: Name, t: Turn): Retry {
    Retry(Seen(sys, t.net), WentThrough(Apply(sys, RetryPing(s, t.now, t.net)), s, t.arrival))
  }

  function AllMet(sys: Sys, s: Name, turns: seq<Turn>): (met: seq<Retry>)
    ensures |met| == |turns|
    decreases |turns|
  {
    if turns == [] then [] else [Met(sys, s, turns[0])] + AllMet(TakeTurn(sys, s, turns[0]), s, turns[1..])
  }

  // The server is up, and so is the view service. It is not its own backup: the call would
  // wait for its own lock.
  predicate Up(sys: Sys, s: Name) { s in sys.nodes && sys.nodes[s].alive && !sys.vs.crashed }

  predicate NeverOwnBackup(sys: Sys, s: Name, turns: seq<Turn>)
    decreases |turns|
  {
    turns != [] ==>
      && (s in sys.nodes ==> sys.nodes[s].pb.view.backup != s)
      && NeverOwnBackup(TakeTurn(sys, s, turns[0]), s, turns[1..])
  }

  predicate SameData(n: Node, n': Node) {
    n'.pb.me == n.pb.me && n'.pb.store == n.pb.store && n'.log == n.log && n'.alive == n.alive && n'.work == n.work
  }

  lemma CallEnds(sys: Sys, s: Name, a: Option<Arrival>, sys': Sys)
    requires Up(sys, s) && Syncing(sys, s) && sys' == CallPart(sys, s, a)
    ensures Up(sys', s) && SameData(sys.nodes[s], sys'.nodes[s]) && sys'.nodes[s].pb.view == sys.nodes[s].pb.view
    ensures !sys'.nodes[s].syncing <==> WentThrough(sys, s, a)
  {
  }

  lemma PingedAgain(sys: Sys, s: Name, now: int, net: Net, sys': Sys)
    requires Up(sys, s) && Syncing(sys, s) && sys.nodes[s].pb.view.backup != s
    requires sys' == Apply(sys, RetryPing(s, now, net))
    ensures Up(sys', s) && SameData(sys.nodes[s], sys'.nodes[s])
    ensures sys'.nodes[s].pb.view == Seen(sys, net) && (sys'.nodes[s].syncing <==> Seen(sys, net).backup != "")
  {
  }

  lemma TurnEnds(sys: Sys, s: Name, t: Turn, sys': Sys)
    requires Up(sys, s) && Syncing(sys, s) && sys.nodes[s].pb.view.backup != s && sys' == TakeTurn(sys, s, t)
    ensures Up(sys', s) && SameData(sys.nodes[s], sys'.nodes[s]) && sys'.nodes[s].pb.view == Met(sys, s, t).pinged
    ensures !sys'.nodes[s].syncing <==> Met(sys, s, t).Ends()
  {
    var sys1 := Apply(sys, RetryPing(s, t.now, t.net));
    PingedAgain(sys, s, t.now, t.net, sys1);
    if sys1.nodes[s].syncing {
      CallEnds(sys1, s, t.arrival, sys');
    }
  }

  lemma {:induction false} NothingMoreToDo(sys: Sys, s: Name, turns: seq<Turn>)
    requires !Syncing(sys, s)
    ensures TakeTurns(sys, s, turns) == sys
    decreases |turns|
  {
    if turns != [] {
      NothingMoreToDo(sys, s, turns[1..]);
    }
  }

  lemma {:induction false} TurnsAreTheLoop(sys: Sys, s: Name, turns: seq<Turn>, sys': Sys)
    requires Up(sys, s) && NeverOwnBackup(sys, s, turns) && sys' == TakeTurns(sys, s, turns)
    ensures Up(sys', s) && SameData(sys.nodes[s], sys'.nodes[s])
    ensures (sys'.nodes[s].pb.view, !sys'.nodes[s].syncing)
         == RetryLoop(sys.nodes[s].pb.view, !sys.nodes[s].syncing, AllMet(sys, s, turns))
    decreases |turns|
  {
    if !sys.nodes[s].syncing {
      NothingMoreToDo(sys, s, turns);
    } else if turns != [] {
      var sys1, met := TakeTurn(sys, s, turns[0]), AllMet(sys, s, turns);
      TurnEnds(sys, s, turns[0], sys1);
      assert met[0] == Met(sys, s, turns[0]) && met[1..] == AllMet(sys1, s, turns[1..]);
      TurnsAreTheLoop(sys1, s, turns[1..], sys');
    }
  }

  // A tick's ping that is answered, the Sync call it leads to and any number of turns of
  // the retry loop, with no other step of the server in between, leave it with the view
  // that `Server.Tick` returns, and out of its tick exactly if that has finished.
  lemma UndisturbedTick(sys: Sys, s: Name, now: int, a: Option<Arrival>, turns: seq<Turn>,
      sys1: Sys, sys2: Sys, sys': Sys)
    requires Up(sys, s) && Idle(sys, s)
    requires sys1 == Apply(sys, ServerPing(s, now, Answered)) && sys2 == CallPart(sys1, s, a)
    requires NeverOwnBackup(sys2, s, turns) && sys' == TakeTurns(sys2, s, turns)
    ensures Up(sys', s) && SameData(sys.nodes[s], sys'.nodes[s])
    ensures var p, v, n := sys.nodes[s].pb, sys.vs.view, sys'.nodes[s];
      if v.num == p.view.num then n.pb.view == p.view && !n.syncing
      else if v.primary != p.me || v.backup == "" then n.pb.view == v && !n.syncing
      else (n.pb.view, !n.syncing) == RetryLoop(v, WentThrough(sys1, s, a), AllMet(sys2, s, turns))
  {
    if sys1.nodes[s].syncing {
      CallEnds(sys1, s, a, sys2);
    }
    TurnsAreTheLoop(sys2, s, turns, sys');
  }
}
