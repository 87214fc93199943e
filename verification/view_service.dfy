// The view service of the primary/backup system: the handlers as functions of the
// server's state, and the server object that runs them in place.

module ViewService {
  import opened Wrappers

  type Name = string

  // PingInterval (100 ms) times DeadPings (5).
  const DEAD_AFTER: int := 500

  datatype View = View(num: nat, primary: Name, backup: Name)

  datatype Client = Client(dead: bool, idle: bool, lastViewnum: nat, lastPing: int)

  // `crashed`: a tick dereferenced the record of a server it does not know.
  datatype VS = VS(view: View, clients: map<Name, Client>, acked: bool, primaryRestarted: bool, crashed: bool)

  const START: VS := VS(View(0, "", ""), map[], true, false, false)

  function Ping(s: VS, me: Name, viewnum: nat, now: int): VS {
    var cli := if me in s.clients then s.clients[me] else Client(false, true, 0, 0);
    var acked := s.acked || (me == s.view.primary && viewnum == s.view.num);
    s.(clients := s.clients[me := cli.(dead := false, lastViewnum := viewnum, lastPing := now)],
       acked := acked,
       primaryRestarted := s.primaryRestarted ||
                           (me == s.view.primary && viewnum == 0 && s.view.num != 0 && acked))
  }

  predicate Overdue(c: Client, now: int) { now - c.lastPing > DEAD_AFTER }

  function Judge(c: Client, now: int): Client {
    if Overdue(c, now) then c.(idle := true, dead := true) else c
  }

  // Every client after the loop of a tick.
  function Sweep(clients: map<Name, Client>, now: int): (swept: map<Name, Client>)
    ensures swept.Keys == clients.Keys
  {
    map x | x in clients :: Judge(clients[x], now)
  }

  predicate IsIdle(c: Client) { !c.dead && c.idle }

  // The clients the loop may have settled on: any live idle one, any live idle one whose
  // last ping carried the current number; none only if there is none.
  predicate ValidPick(swept: map<Name, Client>, num: nat, idle: Option<Name>, inited: Option<Name>) {
    && (idle.Some? ==> idle.value in swept && IsIdle(swept[idle.value]))
    && (idle.None? ==> forall x :: x in swept ==> !IsIdle(swept[x]))
    && (inited.Some? ==> inited.value in swept && IsIdle(swept[inited.value]) && swept[inited.value].lastViewnum == num)
    && (inited.None? ==> forall x :: x in swept ==> !(IsIdle(swept[x]) && swept[x].lastViewnum == num))
  }

  // A slot after servers found dead have been taken out of it.
  function Cleared(slot: Name, clients: map<Name, Client>): Name {
    if slot != "" && slot in clients && clients[slot].dead then "" else slot
  }

  predicate Unknown(slot: Name, clients: map<Name, Client>) { slot != "" && slot !in clients }

  predicate TickPanics(s: VS, now: int) {
    var c := Sweep(s.clients, now);
    s.acked &&
    (|| Unknown(s.view.primary, c) || Unknown(s.view.backup, c)
     || (s.primaryRestarted && Cleared(s.view.primary, c) !in c))
  }

  function WithIdle(clients: map<Name, Client>, x: Name, idle: bool): map<Name, Client> {
    if x in clients then clients[x := clients[x].(idle := idle)] else clients
  }

  // Slots and clients once dead servers and a restarted primary are out.
  function Pruned(s: VS, now: int): VS {
    var c := Sweep(s.clients, now);
    var p, b := Cleared(s.view.primary, c), Cleared(s.view.backup, c);
    if s.primaryRestarted then
      s.(view := View(s.view.num, "", b), clients := WithIdle(c, p, true), primaryRestarted := false)
    else
      s.(view := View(s.view.num, p, b), clients := c)
  }

  // The next view, if there is one to move to.
  function Advance(s: VS, idle: Option<Name>, inited: Option<Name>): VS {
    var v := s.view;
    if v.primary == "" && v.backup == "" then
      if inited.None? then s
      else s.(view := View(v.num + 1, inited.value, ""), acked := false,
              clients := WithIdle(s.clients, inited.value, false))
    else if v.primary == "" then
      if v.backup in s.clients && s.clients[v.backup].lastViewnum == v.num
      then s.(view := View(v.num + 1, v.backup, ""), acked := false)
      else s
    else if v.backup == "" then
      if idle.None? then s
      else s.(view := View(v.num + 1, v.primary, idle.value), acked := false,
              clients := WithIdle(s.clients, idle.value, false))
    else s
  }

  function Tick(s: VS, now: int, idle: Option<Name>, inited: Option<Name>): VS {
    if TickPanics(s, now) then s.(crashed := true)
    else if s.acked then Advance(Pruned(s, now), idle, inited)
    else s.(clients := Sweep(s.clients, now))
  }

  class ViewServer {
    var view: View
    var clients: map<Name, Client>
    var acked: bool
    var primaryRestarted: bool

    ghost function State(): VS
      reads this
    {
      VS(view, clients, acked, primaryRestarted, false)
    }

    constructor ()
      ensures State() == START
    {
      view, clients := View(0, "", ""), map[];
      acked, primaryRestarted := true, false;
    }

    method PingHandler(me: Name, viewnum: nat, now: int) returns (reply: View)
      modifies this
      ensures State() == Ping(old(State()), me, viewnum, now)
      ensures reply == old(view) == view
    {
      if me !in clients {
        clients := clients[me := Client(false, true, 0, 0)];
      }
      if me == view.primary && viewnum == view.num {
        acked := true;
      }
      if me == view.primary && viewnum == 0 && view.num != 0 && acked {
        primaryRestarted := true;
      }
      clients := clients[me := clients[me].(dead := false, lastViewnum := viewnum, lastPing := now)];
      return view;
    }

    // The loop over the clients, in whatever order the map gives them.
    method Survey(now: int) returns (idle: Option<Name>, inited: Option<Name>)
      modifies this`clients
      ensures clients == Sweep(old(clients), now)
      ensures ValidPick(clients, view.num, idle, inited)
    {
      idle, inited := None, None;
      ghost var before := clients;
      var todo := clients.Keys;
      while todo != {}
        invariant todo <= clients.Keys == before.Keys
        invariant forall x :: x in before ==>
                    clients[x] == if x in todo then before[x] else Judge(before[x], now)
        invariant idle.Some? ==> idle.value in clients && idle.value !in todo && IsIdle(clients[idle.value])
        invariant idle.None? ==> forall x :: x in clients && x !in todo ==> !IsIdle(clients[x])
        invariant inited.Some? ==> inited.value in clients && inited.value !in todo
        invariant inited.Some? ==> IsIdle(clients[inited.value]) && clients[inited.value].lastViewnum == view.num
        invariant inited.None? ==> forall x :: x in clients && x !in todo ==>
                    !(IsIdle(clients[x]) && clients[x].lastViewnum == view.num)
        decreases todo
      {
        var name :| name in todo;
        todo := todo - {name};
        var cli := clients[name];
        if now - cli.lastPing > DEAD_AFTER {
          cli := cli.(idle := true, dead := true);
          clients := clients[name := cli];
        }
        if !cli.dead && cli.idle && idle.None? {
          idle := Some(name);
        }
        if !cli.dead && cli.idle && cli.lastViewnum == view.num && inited.None? {
          inited := Some(name);
        }
      }
    }

    method TickHandler(now: int) returns (panicked: bool)
      modifies this
      ensures panicked <==> TickPanics(old(State()), now)
      ensures !panicked ==> exists idle, inited ::
                ValidPick(Sweep(old(clients), now), old(view).num, idle, inited)
                && State() == Tick(old(State()), now, idle, inited)
    {
      var idle, inited := Survey(now);
      if !acked {
        return false;
      }
      if Unknown(view.primary, clients) {
        return true;
      }
      if view.primary != "" && clients[view.primary].dead {
        view := view.(primary := "");
      }
      if Unknown(view.backup, clients) {
        return true;
      }
      if view.backup != "" && clients[view.backup].dead {
        view := view.(backup := "");
      }
      if primaryRestarted {
        if view.primary !in clients {
          return true;
        }
        clients := clients[view.primary := clients[view.primary].(idle := true)];
        view := view.(primary := "");
        primaryRestarted := false;
      }
      assert State() == Pruned(old(State()), now);
      MoveOn(idle, inited);
      return false;
    }

    // The last part of a tick: the next view, if there is one to move to.
    method MoveOn(idle: Option<Name>, inited: Option<Name>)
      requires idle.Some? ==> idle.value in clients
      requires inited.Some? ==> inited.value in clients
      requires view.backup == "" || view.backup in clients
      modifies this
      ensures State() == Advance(old(State()), idle, inited)
    {
      if view.primary == "" && view.backup == "" {
        if inited.Some? {
          view := View(view.num + 1, inited.value, view.backup);
          acked := false;
          clients := clients[inited.value := clients[inited.value].(idle := false)];
        }
      } else if view.primary == "" {
        if clients[view.backup].lastViewnum == view.num {
          view := View(view.num + 1, view.backup, "");
          acked := false;
        }
      } else if view.backup == "" {
        if idle.Some? {
          view := View(view.num + 1, view.primary, idle.value);
          acked := false;
          clients := clients[idle.value := clients[idle.value].(idle := false)];
        }
      }
    }
  }
}
