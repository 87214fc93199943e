// What the clients of one LSP server can expect of each other: their connections are
// independent, the loop of the server goes on unless it waits for a connection that takes
// nothing any more, and ids tell connections apart until they wrap.

module LspClients {
  import opened Wrappers
  import opened LspConn
  import LspNet
  import opened LspServer

  // ------------------------------------------------------------------------------
  // Independence
  // ------------------------------------------------------------------------------

  // What the server knows of one client, and which send to it the loop waits in.
  datatype View = View(link: Option<Link>, waiting: Option<Push>)

  function ViewOf(s: Srv, a: Addr): View {
    View(if a in s.connMap then Some(s.connMap[a]) else None,
         if s.waiting.Some? && s.waiting.value.addr == a then Some(s.waiting.value.push) else None)
  }

  // An event of one client, with the id and the rank that a new connection would get.
  datatype Given = Given(e: Event, nextId: ConnId, total: nat)

  function Own(s: Srv, es: seq<Event>, a: Addr): seq<Given>
    requires CanRun(s, es)
    decreases |es|
  {
    if es == [] then []
    else (if AddrOf(es[0]) == Some(a) then [Given(es[0], s.nextConnId, s.total)] else [])
         + Own(Apply(s, es[0]), es[1..], a)
  }

  // A server that has no client but a, at most.
  function Alone(v: View, id: ConnId, total: nat, a: Addr): Srv {
    Srv(id, if v.link.Some? then map[a := v.link.value] else map[],
        if v.waiting.Some? then Some(Blocked(a, v.waiting.value)) else None, false, total)
  }

  // Such a server can run through these events.
  predicate CanServe(v: View, own: seq<Given>, a: Addr)
    decreases |own|
  {
    own != [] ==>
      var t := Alone(v, own[0].nextId, own[0].total, a);
      Enabled(t, own[0].e) && CanServe(ViewOf(Apply(t, own[0].e), a), own[1..], a)
  }

  function Serve(v: View, own: seq<Given>, a: Addr): View
    requires CanServe(v, own, a)
    decreases |own|
  {
    if own == [] then v
    else Serve(ViewOf(Apply(Alone(v, own[0].nextId, own[0].total, a), own[0].e), a), own[1..], a)
  }

  // The connection that is removed is the one that asked for it.
  predicate OwnRemoval(e: Event) { e.Remove? ==> e.to == Some(e.addr) }

  predicate OwnRemovals(es: seq<Event>) { forall k :: 0 <= k < |es| ==> OwnRemoval(es[k]) }

  // An event of another client disturbs a client only by removing its connection.
  lemma OthersLeaveAlone(s: Srv, e: Event, a: Addr)
    requires Enabled(s, e) && AddrOf(e) != Some(a)
    ensures ViewOf(Apply(s, e), a) == ViewOf(s, a) <==> !(e.Remove? && e.to == Some(a))
  {
  }

  lemma SameForLoop(s: Srv, t: Srv, e: Event, a: Addr)
    requires Enabled(s, e) && AddrOf(e) == Some(a) && IsLoopEvent(e) && OwnRemoval(e)
    requires t == Alone(ViewOf(s, a), s.nextConnId, s.total, a)
    ensures Enabled(t, e) && ViewOf(Apply(s, e), a) == ViewOf(Apply(t, e), a)
  {
  }

  lemma SameForConnection(s: Srv, t: Srv, e: Event, a: Addr)
    requires Enabled(s, e) && AddrOf(e) == Some(a) && !IsLoopEvent(e)
    requires t == Alone(ViewOf(s, a), s.nextConnId, s.total, a)
    ensures Enabled(t, e) && ViewOf(Apply(s, e), a) == ViewOf(Apply(t, e), a)
  {
    assert s.waiting == Some(Blocked(a, ToClose)) <==> t.waiting == Some(Blocked(a, ToClose));
    assert Turn(s.connMap[a], s.waiting, e) == Turn(t.connMap[a], t.waiting, e);
  }

  lemma OwnOf(s: Srv, es: seq<Event>, a: Addr)
    requires es != [] && CanRun(s, es)
    ensures var rest := Own(Apply(s, es[0]), es[1..], a);
      if AddrOf(es[0]) == Some(a)
      then |Own(s, es, a)| > 0 && Own(s, es, a)[0] == Given(es[0], s.nextConnId, s.total) && Own(s, es, a)[1..] == rest
      else Own(s, es, a) == rest
  {
    assert [] + Own(Apply(s, es[0]), es[1..], a) == Own(Apply(s, es[0]), es[1..], a);
  }

  // Clients do not disturb each other's connections: in any run, with any mix of clients
  // that come, are removed and come again, a client's connection and what waits for it are
  // exactly what its own events make of them on a server that serves this client alone and
  // gives it the same ids. (Unless a removal hits the connection of another client; see
  // FewConnectionsAreIndependent.)
  lemma {:induction false} ConnectionsAreIndependent(s: Srv, es: seq<Event>, a: Addr)
    requires CanRun(s, es) && OwnRemovals(es)
    ensures CanServe(ViewOf(s, a), Own(s, es, a), a)
    ensures Serve(ViewOf(s, a), Own(s, es, a), a) == ViewOf(Exec(s, es), a)
    decreases |es|
  {
    if es != [] {
      var e, s1 := es[0], Apply(s, es[0]);
      ConnectionsAreIndependent(s1, es[1..], a);
      OwnOf(s, es, a);
      assert OwnRemoval(e);
      if AddrOf(e) == Some(a) {
        var t := Alone(ViewOf(s, a), s.nextConnId, s.total, a);
        if IsLoopEvent(e) {
          SameForLoop(s, t, e, a);
        } else {
          SameForConnection(s, t, e, a);
        }
      } else {
        OthersLeaveAlone(s, e, a);
      }
    }
  }

  // ------------------------------------------------------------------------------
  // Availability
  // ------------------------------------------------------------------------------

  // The loop waits for a connection, and that connection's channel is full.
  predicate WellFormed(s: Srv) {
    && (s.waiting.Some? ==>
          s.waiting.value.addr in s.connMap && !HasRoom(s.connMap[s.waiting.value.addr], s.waiting.value.push))
    && forall a :: a in s.connMap ==> |s.connMap[a].recvChan| <= 1 && |s.connMap[a].sendChan| <= 1
  }

  // The connection takes nothing any more: it has completed its close, or it waits for its
  // removal, or it has ended.
  predicate Stopped(s: Srv, a: Addr) {
    a in s.connMap && (s.connMap[a].conn.done || s.connMap[a].phase != Running)
  }

  // The loop waits for such a connection.
  predicate Stuck(s: Srv) { s.waiting.Some? && Stopped(s, s.waiting.value.addr) }

  lemma StepKeepsWellFormed(s: Srv, e: Event)
    requires WellFormed(s) && Enabled(s, e)
    ensures WellFormed(Apply(s, e))
  {
  }

  lemma {:induction false} RunKeepsWellFormed(s: Srv, es: seq<Event>)
    requires WellFormed(s) && CanRun(s, es)
    ensures WellFormed(Exec(s, es))
    decreases |es|
  {
    if es != [] {
      StepKeepsWellFormed(s, es[0]);
      RunKeepsWellFormed(Apply(s, es[0]), es[1..]);
    }
  }

  lemma StuckStep(s: Srv, e: Event)
    requires Stuck(s) && Enabled(s, e)
    ensures !IsLoopEvent(e) && Stuck(Apply(s, e)) && Apply(s, e).connMap.Keys == s.connMap.Keys
  {
  }

  // Once stuck, the loop never handles anything again: nobody connects, nothing arrives.
  lemma {:induction false} StuckForEver(s: Srv, es: seq<Event>)
    requires Stuck(s) && CanRun(s, es)
    ensures Stuck(Exec(s, es)) && Exec(s, es).connMap.Keys == s.connMap.Keys
    ensures forall k :: 0 <= k < |es| ==> !IsLoopEvent(es[k])
    decreases |es|
  {
    if es != [] {
      StuckStep(s, es[0]);
      StuckForEver(Apply(s, es[0]), es[1..]);
    }
  }

  // Unless it is stuck (or crashed), one step of the connection it waits for frees it.
  lemma NotStuckGoesOn(s: Srv) returns (es: seq<Event>)
    requires WellFormed(s) && !s.crashed && !Stuck(s)
    ensures |es| <= 1 && CanRun(s, es) && Exec(s, es).waiting.None? && !Exec(s, es).crashed
  {
    es := [];
    if s.waiting.Some? {
      var a := s.waiting.value.addr;
      var e := match s.waiting.value.push
               case ToRecv(_) => TakeRecv(a)
               case ToSend(_) => TakeSend(a)
               case ToClose => TakeClose(a);
      es := [e];
      assert Enabled(s, e) && es[1..] == [];
      assert Exec(s, es) == Exec(Apply(s, e), []);
    }
  }

  // How much has been sent to a connection and not been taken.
  function Untaken(s: Srv, a: Addr, push: Push): nat {
    if a !in s.connMap then 0 else
    (match push
     case ToRecv(_) => |s.connMap[a].recvChan|
     case ToSend(_) => |s.connMap[a].sendChan|
     case ToClose => 0)
    + if s.waiting.Some? && s.waiting.value.addr == a && SameChannel(s.waiting.value.push, push) then 1 else 0
  }

  predicate SameChannel(p: Push, q: Push) {
    p.ToRecv? == q.ToRecv? && p.ToSend? == q.ToSend?
  }

  // The loop sends to this channel of the connection.
  predicate SendsTo(e: Event, a: Addr, push: Push) {
    match push
    case ToRecv(_) => e.Arrive? && e.p.addr == a && (e.p.msg.typ == MsgData || e.p.msg.typ == MsgAck)
    case ToSend(_) => e.AppWrite? && e.to == Some(a)
    case ToClose => e.AppClose? && e.to == Some(a)
  }

  function Sends(es: seq<Event>, a: Addr, push: Push): nat {
    if es == [] then 0 else (if SendsTo(es[0], a, push) then 1 else 0) + Sends(es[1..], a, push)
  }

  // No removal takes the connection out of the map.
  predicate Stays(es: seq<Event>, a: Addr) { forall k :: 0 <= k < |es| && es[k].Remove? ==> es[k].to != Some(a) }

  lemma UntakenStep(s: Srv, e: Event, a: Addr, push: Push)
    requires WellFormed(s) && Stopped(s, a) && Enabled(s, e) && (e.Remove? ==> e.to != Some(a))
    ensures Stopped(Apply(s, e), a)
    ensures Untaken(Apply(s, e), a, push) == Untaken(s, a, push) + if SendsTo(e, a, push) then 1 else 0
  {
  }

  lemma {:induction false} UntakenAdds(s: Srv, es: seq<Event>, a: Addr, push: Push)
    requires WellFormed(s) && Stopped(s, a) && CanRun(s, es) && Stays(es, a)
    ensures Stopped(Exec(s, es), a)
    ensures Untaken(Exec(s, es), a, push) == Untaken(s, a, push) + Sends(es, a, push)
    decreases |es|
  {
    if es != [] {
      UntakenStep(s, es[0], a, push);
      StepKeepsWellFormed(s, es[0]);
      UntakenAdds(Apply(s, es[0]), es[1..], a, push);
    }
  }

  predicate WaitsFor(s: Srv, a: Addr) { s.waiting.Some? && s.waiting.value.addr == a }

  const ANY_MESSAGE: LspMsg := GenAckMsg(0, 0)

  lemma WaitsIffFull(s: Srv, a: Addr)
    requires WellFormed(s) && a in s.connMap
    ensures WaitsFor(s, a) <==>
              || Untaken(s, a, ToRecv(ANY_MESSAGE)) == 2 || Untaken(s, a, ToSend(ANY_MESSAGE)) == 2
              || Untaken(s, a, ToClose) == 1
  {
  }

  // The exact condition: since a connection stopped (at s), and while it is in the map, the
  // loop got stuck with it if and only if it has sent it a second packet, a second write of
  // the application, or a close. Until then it is available to every client.
  lemma StuckIffSecondSend(s: Srv, es: seq<Event>, a: Addr)
    requires WellFormed(s) && Stopped(s, a) && CanRun(s, es) && Stays(es, a)
    ensures WaitsFor(Exec(s, es), a) <==>
              || Untaken(s, a, ToRecv(ANY_MESSAGE)) + Sends(es, a, ToRecv(ANY_MESSAGE)) == 2
              || Untaken(s, a, ToSend(ANY_MESSAGE)) + Sends(es, a, ToSend(ANY_MESSAGE)) == 2
              || Untaken(s, a, ToClose) + Sends(es, a, ToClose) == 1
    ensures WaitsFor(Exec(s, es), a) ==> Stuck(Exec(s, es))
  {
    UntakenAdds(s, es, a, ToRecv(ANY_MESSAGE));
    UntakenAdds(s, es, a, ToSend(ANY_MESSAGE));
    UntakenAdds(s, es, a, ToClose);
    RunKeepsWellFormed(s, es);
    WaitsIffFull(Exec(s, es), a);
  }

  // ------------------------------------------------------------------------------
  // It happens
  // ------------------------------------------------------------------------------

  // A server whose only client is "a".
  function WithA(l: Link, waiting: Option<Blocked>): Srv { Srv(2, map["a" := l], waiting, false, 1) }

  lemma Turns(l: Link, e: Event, l': Link)
    requires !IsLoopEvent(e) && e.addr == "a" && CanTurn(l, None, e) && l' == Turn(l, None, e).link
    ensures Enabled(WithA(l, None), e) && Apply(WithA(l, None), e) == WithA(l', None)
  {
  }

  lemma Offers(l: Link, e: Event, push: Push)
    requires IsLoopEvent(e) && Enabled(WithA(l, None), e) && AddrOf(e) == Some("a") && SendsTo(e, "a", push)
    requires match e
             case Arrive(p) => push == ToRecv(p.msg)
             case AppWrite(id, x, _) => push == ToSend(GenDataMsg(id, 0, x))
             case _ => push == ToClose
    ensures Apply(WithA(l, None), e) == if HasRoom(l, push) then WithA(Pushed(l, push), None)
            else WithA(l, Some(Blocked("a", push)))
  {
  }

  const CONNECT: Event := Arrive(Datagram("a", GenConnMsg(0)))
  const ACK: Event := Arrive(Datagram("a", GenAckMsg(1, 1)))
  const STRAY: Event := Arrive(Datagram("a", GenDataMsg(1, 1, [])))
  const TALK: seq<Event> := [CONNECT, TakeSend("a"), AppWrite(1, [], Some("a")), TakeSend("a"), AppClose(1, Some("a"))]
  const CLOSED: seq<Event> := [TakeClose("a"), ACK, TakeRecv("a"), STRAY, STRAY]

  const WRITTEN: Conn := Conn(1, [GenDataMsg(1, 1, [])], [], 2, 1, GenAckMsg(1, 0), false, false)
  const COMPLETED: Conn := Conn(1, [], [], 2, 1, GenAckMsg(1, 0), true, true)

  function Calm(c: Conn): Link { Link(c, ServerSide, [], [], Running, 1) }

  lemma OneByOne(s: Srv, e: Event, es: seq<Event>, s': Srv)
    requires Enabled(s, e) && CanRun(Apply(s, e), es) && s' == Exec(Apply(s, e), es)
    ensures CanRun(s, [e] + es) && Exec(s, [e] + es) == s'
  {
    assert ([e] + es)[0] == e && ([e] + es)[1..] == es;
  }

  lemma Talk()
    ensures CanRun(START, TALK) && Exec(START, TALK) == WithA(Calm(WRITTEN), Some(Blocked("a", ToClose)))
  {
    var s1 := WithA(NewLink(1, 1), None);
    assert Apply(START, CONNECT) == s1;
    var s2 := WithA(Calm(Fresh(1)), None);
    Turns(NewLink(1, 1), TakeSend("a"), Calm(Fresh(1)));
    var data := GenDataMsg(1, 0, []);
    var l3 := Calm(Fresh(1)).(sendChan := [data]);
    Offers(Calm(Fresh(1)), TALK[2], ToSend(data));
    assert Fresh(1).sendBuf + [data.(seqNum := 1)] == WRITTEN.sendBuf;
    Turns(l3, TakeSend("a"), Calm(WRITTEN));
    var s4 := WithA(Calm(WRITTEN), None);
    var s5 := WithA(Calm(WRITTEN), Some(Blocked("a", ToClose)));
    Offers(Calm(WRITTEN), TALK[4], ToClose);
    OneByOne(s4, TALK[4], [], s5);
    OneByOne(WithA(l3, None), TALK[3], [TALK[4]], s5);
    OneByOne(s2, TALK[2], [TALK[3]] + [TALK[4]], s5);
    OneByOne(s1, TALK[1], [TALK[2]] + ([TALK[3]] + [TALK[4]]), s5);
    OneByOne(START, TALK[0], [TALK[1]] + ([TALK[2]] + ([TALK[3]] + [TALK[4]])), s5);
    assert TALK == [TALK[0]] + ([TALK[1]] + ([TALK[2]] + ([TALK[3]] + [TALK[4]])));
    assert [TALK[4]] + [] == [TALK[4]];
  }

  lemma CloseAndStray()
    ensures var s := WithA(Calm(WRITTEN), Some(Blocked("a", ToClose)));
      && CanRun(s, CLOSED)
      && Exec(s, CLOSED) == WithA(Calm(COMPLETED).(recvChan := [STRAY.p.msg]), Some(Blocked("a", ToRecv(STRAY.p.msg))))
  {
    var s := WithA(Calm(WRITTEN), Some(Blocked("a", ToClose)));
    var closing := Calm(WRITTEN.(closed := true));
    var s1 := WithA(closing, None);
    assert Apply(s, CLOSED[0]) == s1;
    var acked := closing.(recvChan := [ACK.p.msg]);
    Offers(closing, CLOSED[1], ToRecv(ACK.p.msg));
    assert WRITTEN.sendBuf[1..] == [];
    Turns(acked, CLOSED[2], Calm(COMPLETED));
    var full := Calm(COMPLETED).(recvChan := [STRAY.p.msg]);
    Offers(Calm(COMPLETED), STRAY, ToRecv(STRAY.p.msg));
    Offers(full, STRAY, ToRecv(STRAY.p.msg));
    var s5 := WithA(full, Some(Blocked("a", ToRecv(STRAY.p.msg))));
    OneByOne(WithA(full, None), CLOSED[4], [], s5);
    OneByOne(WithA(Calm(COMPLETED), None), CLOSED[3], [CLOSED[4]], s5);
    OneByOne(WithA(acked, None), CLOSED[2], [CLOSED[3]] + [CLOSED[4]], s5);
    OneByOne(s1, CLOSED[1], [CLOSED[2]] + ([CLOSED[3]] + [CLOSED[4]]), s5);
    OneByOne(s, CLOSED[0], [CLOSED[1]] + ([CLOSED[2]] + ([CLOSED[3]] + [CLOSED[4]])), s5);
    assert CLOSED == [CLOSED[0]] + ([CLOSED[1]] + ([CLOSED[2]] + ([CLOSED[3]] + [CLOSED[4]])));
    assert [CLOSED[4]] + [] == [CLOSED[4]];
  }

  lemma {:induction false} RunOn(s: Srv, es: seq<Event>, more: seq<Event>)
    requires CanRun(s, es) && CanRun(Exec(s, es), more)
    ensures CanRun(s, es + more) && Exec(s, es + more) == Exec(Exec(s, es), more)
    decreases |es|
  {
    if es == [] {
      assert es + more == more;
    } else {
      assert (es + more)[0] == es[0] && (es + more)[1..] == es[1..] + more;
      RunOn(Apply(s, es[0]), es[1..], more);
    }
  }

  // Two packets from a client whose connection has completed its close keep every other
  // client from ever connecting.
  lemma ClosedClientBlocksEveryone() returns (es: seq<Event>)
    ensures CanRun(START, es) && Stuck(Exec(START, es))
    ensures forall more, b :: CanRun(Exec(START, es), more) && b != "a" ==> b !in Exec(Exec(START, es), more).connMap
  {
    es := TALK + CLOSED;
    Talk();
    CloseAndStray();
    RunOn(START, TALK, CLOSED);
    var s := Exec(START, es);
    forall more, b | CanRun(s, more) && b != "a" ensures b !in Exec(s, more).connMap {
      StuckForEver(s, more);
    }
  }

  const LEAVE: seq<Event> := [CONNECT, TakeSend("a"), EpochLimit("a"), AppClose(1, Some("a"))]

  // Without any close being completed: a connection that was silent for too long asks the
  // loop for its removal while the loop sends it the close of the application. Each waits
  // for the other, and no other client ever connects.
  lemma RemovalAndCloseDeadlock() returns (es: seq<Event>)
    ensures CanRun(START, es) && Stuck(Exec(START, es))
    ensures "a" in Exec(START, es).connMap && !Exec(START, es).connMap["a"].conn.done
    ensures forall more, b :: CanRun(Exec(START, es), more) && b != "a" ==> b !in Exec(Exec(START, es), more).connMap
  {
    es := LEAVE;
    var calm := Calm(Fresh(1));
    var leaving := calm.(phase := Leaving);
    var s4 := WithA(leaving, Some(Blocked("a", ToClose)));
    assert Apply(START, CONNECT) == WithA(NewLink(1, 1), None);
    Turns(NewLink(1, 1), TakeSend("a"), calm);
    Turns(calm, EpochLimit("a"), leaving);
    Offers(leaving, LEAVE[3], ToClose);
    OneByOne(WithA(leaving, None), LEAVE[3], [], s4);
    OneByOne(WithA(calm, None), LEAVE[2], [LEAVE[3]], s4);
    OneByOne(WithA(NewLink(1, 1), None), LEAVE[1], [LEAVE[2]] + [LEAVE[3]], s4);
    OneByOne(START, LEAVE[0], [LEAVE[1]] + ([LEAVE[2]] + [LEAVE[3]]), s4);
    assert LEAVE == [LEAVE[0]] + ([LEAVE[1]] + ([LEAVE[2]] + [LEAVE[3]]));
    assert [LEAVE[3]] + [] == [LEAVE[3]];
    forall more, b | CanRun(s4, more) && b != "a" ensures b !in Exec(s4, more).connMap {
      StuckForEver(s4, more);
    }
  }

  // ------------------------------------------------------------------------------
  // The two-party model
  // ------------------------------------------------------------------------------

  // How the server serves one packet of a client when nothing else is under way.
  function Serving(s: Srv, p: Datagram): seq<Event> {
    match p.msg.typ
    case MsgConnect => if p.addr in s.connMap then [Arrive(p)] else [Arrive(p), TakeSend(p.addr)]
    case MsgInvalid => [Arrive(p)]
    case _ => [Arrive(p), TakeRecv(p.addr)]
  }

  predicate AtRest(s: Srv, a: Addr) {
    && !s.crashed && s.waiting.None?
    && (a in s.connMap ==>
          var l := s.connMap[a];
          l.recvChan == [] && l.sendChan == [] && !l.conn.done && l.phase == Running && l.side == ServerSide)
  }

  function ConnAt(s: Srv, a: Addr): Option<Conn> {
    if a in s.connMap then Some(s.connMap[a].conn) else None
  }

  // The datagrams written in the course of some events.
  function AllOut(s: Srv, es: seq<Event>): seq<LspMsg>
    requires CanRun(s, es)
    decreases |es|
  {
    if es == [] then [] else Out(s, es[0]) + AllOut(Apply(s, es[0]), es[1..])
  }

  function Messages(ps: seq<LspNet.Packet>): (ms: seq<LspMsg>)
    ensures |ms| == |ps|
  {
    seq(|ps|, i requires 0 <= i < |ps| => ps[i].msg)
  }

  // A connection and the datagrams to its client are as in the two-party runs.
  predicate Matches(s: Srv, a: Addr, out: seq<LspMsg>, w: LspNet.World, w': LspNet.World) {
    && ConnAt(s, a) == w'.server.conn
    && Messages(w'.toClient) == Messages(w.toClient) + out
  }

  lemma Ran(s: Srv, es: seq<Event>)
    requires 1 <= |es| <= 2 && Enabled(s, es[0]) && (|es| == 2 ==> Enabled(Apply(s, es[0]), es[1]))
    ensures CanRun(s, es)
    ensures if |es| == 1 then Exec(s, es) == Apply(s, es[0]) && AllOut(s, es) == Out(s, es[0])
            else Exec(s, es) == Apply(Apply(s, es[0]), es[1])
                 && AllOut(s, es) == Out(s, es[0]) + Out(Apply(s, es[0]), es[1])
  {
    if |es| == 2 {
      var s1 := Apply(s, es[0]);
      RanOne(s1, es[1]);
      assert es[1..] == [es[1]];
      assert Exec(s, es) == Exec(s1, [es[1]]) && AllOut(s, es) == Out(s, es[0]) + AllOut(s1, [es[1]]);
    } else {
      RanOne(s, es[0]);
      assert es == [es[0]];
    }
  }

  lemma RanOne(s: Srv, e: Event)
    requires Enabled(s, e)
    ensures CanRun(s, [e]) && Exec(s, [e]) == Apply(s, e) && AllOut(s, [e]) == Out(s, e)
  {
    var s1 := Apply(s, e);
    assert [e][1..] == [] && CanRun(s1, []) && Exec(s1, []) == s1;
    assert AllOut(s, [e]) == Out(s, e) + [];
  }

  lemma EmitMatches(w: LspNet.World, e: LspNet.End, out: seq<LspMsg>)
    ensures Messages(LspNet.Emit(w, LspNet.Server, e, out).toClient) == Messages(w.toClient) + out
  {
  }

  // A packet served by loop and connection has the effect, and brings the datagrams, that
  // the server of the two-party runs has for it.
  lemma MatchesTheTwoPartyModel(s: Srv, p: Datagram, w: LspNet.World)
    requires AtRest(s, p.addr) && w.server.conn == ConnAt(s, p.addr)
    requires p.addr in s.connMap
             || (w.serverId == s.nextConnId != 0 && p.msg.typ != MsgData && p.msg.typ != MsgAck)
    ensures var es := Serving(s, p);
      && CanRun(s, es)
      && Matches(Exec(s, es), p.addr, AllOut(s, es), w, LspNet.Handle(w, LspNet.Server, p.msg))
      && (AtRest(Exec(s, es), p.addr)
          || (ConnAt(Exec(s, es), p.addr).Some? && ConnAt(Exec(s, es), p.addr).value.done))
  {
    var es := Serving(s, p);
    Ran(s, es);
    if p.addr in s.connMap && p.msg.typ != MsgConnect {
      var eff := Receive(w.server.conn.value, p.msg);
      EmitMatches(w, w.server.(conn := Some(eff.conn)), eff.out);
    } else if p.addr !in s.connMap && p.msg.typ == MsgConnect {
      EmitMatches(w, w.server.(conn := Some(Open(w.serverId).conn)), Open(w.serverId).out);
    }
  }

  // ------------------------------------------------------------------------------
  // Connection ids
  // ------------------------------------------------------------------------------

  // The n-th connection was opened under id n, modulo the width of the counter.
  predicate Ranked(s: Srv) {
    && s.nextConnId == (1 + s.total) % 0x1_0000
    && (forall a :: a in s.connMap ==> RankOk(s.connMap[a], s.total))
    && (forall a, b :: a in s.connMap && b in s.connMap && a != b ==> s.connMap[a].rank != s.connMap[b].rank)
  }

  predicate RankOk(l: Link, total: nat) {
    1 <= l.rank <= total && (l.side == ClientSide <==> l.rank % 0x1_0000 == 0)
  }

  predicate OwnId(l: Link) { l.conn.connId == l.rank % 0x1_0000 }

  predicate OwnIds(s: Srv) { forall a :: a in s.connMap ==> OwnId(s.connMap[a]) }

  // The connection takes another id.
  predicate Overwrites(s: Srv, e: Event)
    requires Enabled(s, e)
  {
    e.TakeRecv? && Turn(s.connMap[e.addr], s.waiting, e).link.conn.connId != s.connMap[e.addr].conn.connId
  }

  // Only an ack with sequence number 0 of the front message does that.
  lemma OverwritesOnlyByAckZero(s: Srv, e: Event)
    requires Enabled(s, e) && e.TakeRecv?
    ensures Overwrites(s, e) <==>
              var l := s.connMap[e.addr]; var m := l.recvChan[0];
              m.typ == MsgAck && m.seqNum == 0 && l.conn.sendBuf != [] && l.conn.sendBuf[0].seqNum == 0
              && m.connId != l.conn.connId
  {
  }

  predicate NoOverwrite(s: Srv, es: seq<Event>)
    requires CanRun(s, es)
    decreases |es|
  {
    es != [] ==> !Overwrites(s, es[0]) && NoOverwrite(Apply(s, es[0]), es[1..])
  }

  predicate Opens(s: Srv, a: Addr, s': Srv) {
    a !in s.connMap && s'.total == s.total + 1 && s'.nextConnId == NextId(s.nextConnId)
    && s'.connMap == s.connMap[a := NewLink(s.nextConnId, s.total + 1)]
  }

  // Connections may be removed; those that stay keep rank and side.
  predicate NoneOpens(s: Srv, s': Srv) {
    && s'.total == s.total && s'.nextConnId == s.nextConnId && s'.connMap.Keys <= s.connMap.Keys
    && forall a :: a in s'.connMap ==>
         s'.connMap[a].side == s.connMap[a].side && s'.connMap[a].rank == s.connMap[a].rank
  }

  predicate SameIds(s: Srv, s': Srv) {
    forall a :: a in s.connMap && a in s'.connMap ==> s'.connMap[a].conn.connId == s.connMap[a].conn.connId
  }

  lemma LoopShape(s: Srv, e: Event, s': Srv)
    requires Enabled(s, e) && IsLoopEvent(e) && s' == Apply(s, e)
    ensures if e.Arrive? && e.p.msg.typ == MsgConnect && e.p.addr !in s.connMap then Opens(s, e.p.addr, s')
            else NoneOpens(s, s')
    ensures SameIds(s, s')
  {
  }

  lemma TurnShape(s: Srv, e: Event, s': Srv)
    requires Enabled(s, e) && !IsLoopEvent(e) && s' == Apply(s, e)
    ensures NoneOpens(s, s') && (!Overwrites(s, e) ==> SameIds(s, s'))
  {
  }

  lemma NextIdIsNext(id: ConnId, n: nat)
    requires id == (1 + n) % 0x1_0000
    ensures NextId(id) == (1 + (n + 1)) % 0x1_0000
    ensures RankOk(NewLink(id, n + 1), n + 1) && OwnId(NewLink(id, n + 1))
  {
  }

  lemma OpeningKeepsRanks(s: Srv, a: Addr, s': Srv)
    requires Ranked(s) && Opens(s, a, s')
    ensures Ranked(s') && (OwnIds(s) ==> OwnIds(s'))
  {
    NextIdIsNext(s.nextConnId, s.total);
    forall b | b in s.connMap && b != a ensures RankOk(s'.connMap[b], s'.total) {
      assert RankOk(s.connMap[b], s.total);
    }
  }

  lemma OthersKeepRanks(s: Srv, s': Srv)
    requires Ranked(s) && NoneOpens(s, s')
    ensures Ranked(s') && (OwnIds(s) && SameIds(s, s') ==> OwnIds(s'))
  {
    forall a | a in s'.connMap ensures RankOk(s'.connMap[a], s'.total) {
      assert RankOk(s.connMap[a], s.total);
    }
    if OwnIds(s) && SameIds(s, s') {
      forall a | a in s'.connMap ensures OwnId(s'.connMap[a]) {
        assert OwnId(s.connMap[a]);
      }
    }
  }

  lemma StepKeepsRanks(s: Srv, e: Event, s': Srv)
    requires Ranked(s) && Enabled(s, e) && s' == Apply(s, e)
    ensures Ranked(s') && s.total <= s'.total
    ensures OwnIds(s) && !Overwrites(s, e) ==> OwnIds(s')
  {
    if IsLoopEvent(e) {
      LoopShape(s, e, s');
    } else {
      TurnShape(s, e, s');
    }
    if NoneOpens(s, s') {
      OthersKeepRanks(s, s');
    } else {
      OpeningKeepsRanks(s, e.p.addr, s');
    }
  }

  lemma {:induction false} RunKeepsRanks(s: Srv, es: seq<Event>)
    requires Ranked(s) && CanRun(s, es)
    ensures Ranked(Exec(s, es)) && s.total <= Exec(s, es).total
    ensures OwnIds(s) && NoOverwrite(s, es) ==> OwnIds(Exec(s, es))
    decreases |es|
  {
    if es != [] {
      StepKeepsRanks(s, es[0], Apply(s, es[0]));
      RunKeepsRanks(Apply(s, es[0]), es[1..]);
    }
  }

  // What getConnById relies on.
  predicate DistinctIds(s: Srv) {
    forall a, b :: a in s.connMap && b in s.connMap && a != b ==> s.connMap[a].conn.connId != s.connMap[b].conn.connId
  }

  predicate Congruent(m: nat, n: nat) { m % 0x1_0000 == n % 0x1_0000 }

  // As long as no ack overwrites an id, two connections that are there at the same time
  // share an id if and only if their ranks are congruent modulo 65536.
  lemma SameIdIffRanksAreCongruent(es: seq<Event>, a: Addr, b: Addr)
    requires CanRun(START, es) && NoOverwrite(START, es)
    requires a in Exec(START, es).connMap && b in Exec(START, es).connMap
    ensures var s := Exec(START, es);
      s.connMap[a].conn.connId == s.connMap[b].conn.connId <==> Congruent(s.connMap[a].rank, s.connMap[b].rank)
    ensures var s := Exec(START, es); a != b ==> s.connMap[a].rank != s.connMap[b].rank
  {
    RunKeepsRanks(START, es);
    assert OwnId(Exec(START, es).connMap[a]) && OwnId(Exec(START, es).connMap[b]);
  }

  lemma FewAreNotCongruent(m: nat, n: nat)
    requires 1 <= m <= 0x1_0000 && 1 <= n <= 0x1_0000 && m != n
    ensures !Congruent(m, n)
  {
  }

  lemma DistinctWhenFew(s: Srv)
    requires Ranked(s) && OwnIds(s) && s.total <= 0x1_0000
    ensures DistinctIds(s)
  {
    forall a, b | a in s.connMap && b in s.connMap && a != b
      ensures s.connMap[a].conn.connId != s.connMap[b].conn.connId
    {
      assert RankOk(s.connMap[a], s.total) && RankOk(s.connMap[b], s.total);
      assert OwnId(s.connMap[a]) && OwnId(s.connMap[b]);
      FewAreNotCongruent(s.connMap[a].rank, s.connMap[b].rank);
    }
  }

  lemma RemovalIsOwn(s: Srv, e: Event)
    requires DistinctIds(s) && Enabled(s, e)
    ensures OwnRemoval(e)
  {
  }

  lemma {:induction false} RemovalsAreOwn(s: Srv, es: seq<Event>)
    requires Ranked(s) && OwnIds(s) && CanRun(s, es) && NoOverwrite(s, es) && Exec(s, es).total <= 0x1_0000
    ensures OwnRemovals(es)
    decreases |es|
  {
    if es != [] {
      var s1 := Apply(s, es[0]);
      StepKeepsRanks(s, es[0], s1);
      RunKeepsRanks(s1, es[1..]);
      DistinctWhenFew(s);
      RemovalIsOwn(s, es[0]);
      RemovalsAreOwn(s1, es[1..]);
      forall k | 0 <= k < |es| ensures OwnRemoval(es[k]) {
        assert k > 0 ==> es[k] == es[1..][k - 1];
      }
    }
  }

  // While the counter has not come round and no ack overwrites an id, every removal takes
  // the connection that asked for it, and clients are independent.
  lemma FewConnectionsAreIndependent(es: seq<Event>, a: Addr)
    requires CanRun(START, es) && NoOverwrite(START, es) && Exec(START, es).total <= 0x1_0000
    ensures DistinctIds(Exec(START, es)) && OwnRemovals(es)
    ensures CanServe(View(None, None), Own(START, es, a), a)
    ensures Serve(View(None, None), Own(START, es, a), a) == ViewOf(Exec(START, es), a)
  {
    RunKeepsRanks(START, es);
    DistinctWhenFew(Exec(START, es));
    RemovalsAreOwn(START, es);
    ConnectionsAreIndependent(START, es, a);
  }

  // In every run, the epoch of a running connection reaches its client, with the last ack,
  // unless it is the 65536th, the 131072th and so on: of these nothing ever does.
  lemma EveryWrapSilencesAClient(es: seq<Event>, e: Event)
    requires CanRun(START, es) && Enabled(Exec(START, es), e) && !IsLoopEvent(e)
    ensures var l := Exec(START, es).connMap[e.addr];
      && (l.rank % 0x1_0000 == 0 ==> Out(Exec(START, es), e) == [])
      && (l.rank % 0x1_0000 != 0 && e.EpochTick? ==> Out(Exec(START, es), e) != [])
  {
    RunKeepsRanks(START, es);
    assert RankOk(Exec(START, es).connMap[e.addr], Exec(START, es).total);
  }

  function NameOf(i: nat): Addr { seq(i, _ => 'c') }

  // The server can get there: any number of clients can connect.
  lemma {:induction false} ManyConnect(s: Srv, n: nat) returns (es: seq<Event>)
    requires !s.crashed && s.waiting.None? && s.total <= n && forall a :: a in s.connMap ==> |a| < s.total
    ensures CanRun(s, es) && Exec(s, es).total == n
    decreases n - s.total
  {
    es := [];
    if s.total < n {
      var e := Arrive(Datagram(NameOf(s.total), GenConnMsg(0)));
      var s1 := Apply(s, e);
      var rest := ManyConnect(s1, n);
      OneByOne(s, e, rest, Exec(s1, rest));
      es := [e] + rest;
    }
  }

  // After 65535 connections the next id is 0.
  lemma TheCounterReachesZero() returns (es: seq<Event>)
    ensures CanRun(START, es) && Exec(START, es).total == 0xFFFF && Exec(START, es).nextConnId == 0
  {
    es := ManyConnect(START, 0xFFFF);
    RunKeepsRanks(START, es);
  }
}
