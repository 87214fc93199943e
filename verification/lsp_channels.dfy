// What the channels between the loop of an LSP server and its connections promise: nothing
// that is sent to a connection is lost or reordered while the connection is there, and its
// turns are the steps of the server in the two-party runs.

module LspChannels {
  import opened Wrappers
  import opened LspConn
  import LspNet
  import opened LspServer
  import opened LspClients

  // ------------------------------------------------------------------------------
  // Nothing is lost or reordered
  // ------------------------------------------------------------------------------

  // In the channel of received messages, and the one the loop waits to put there.
  function RecvHeld(s: Srv, a: Addr): seq<LspMsg>
    requires a in s.connMap
  {
    s.connMap[a].recvChan
    + if WaitsFor(s, a) && s.waiting.value.push.ToRecv? then [s.waiting.value.push.msg] else []
  }

  // The same for the messages to send.
  function SendHeld(s: Srv, a: Addr): seq<LspMsg>
    requires a in s.connMap
  {
    s.connMap[a].sendChan
    + if WaitsFor(s, a) && s.waiting.value.push.ToSend? then [s.waiting.value.push.msg] else []
  }

  // What an event brings for the connection of a, and what the connection takes in it.
  function Arrived(e: Event, a: Addr): seq<LspMsg> {
    if e.Arrive? && e.p.addr == a && (e.p.msg.typ == MsgData || e.p.msg.typ == MsgAck) then [e.p.msg] else []
  }

  function Written(e: Event, a: Addr): seq<LspMsg> {
    if e.AppWrite? && e.to == Some(a) then [GenDataMsg(e.id, 0, e.payload)] else []
  }

  function TakenIn(s: Srv, e: Event, a: Addr): seq<LspMsg>
    requires a in s.connMap
  {
    if e == TakeRecv(a) then s.connMap[a].recvChan else []
  }

  function TakenToSend(s: Srv, e: Event, a: Addr): seq<LspMsg>
    requires a in s.connMap
  {
    if e == TakeSend(a) then s.connMap[a].sendChan else []
  }

  // A step keeps the order for both channels of a.
  predicate Keeps(s: Srv, e: Event, a: Addr, s': Srv)
    requires a in s.connMap && a in s'.connMap
  {
    && RecvHeld(s, a) + Arrived(e, a) == TakenIn(s, e, a) + RecvHeld(s', a)
    && SendHeld(s, a) + Written(e, a) == TakenToSend(s, e, a) + SendHeld(s', a)
  }

  lemma LoopKeeps(s: Srv, e: Event, a: Addr, s': Srv)
    requires WellFormed(s) && Enabled(s, e) && IsLoopEvent(e) && s' == LoopStep(s, e)
    requires a in s.connMap && a in s'.connMap
    ensures Keeps(s, e, a, s')
  {
  }

  lemma TurnKeeps(s: Srv, e: Event, a: Addr, s': Srv)
    requires WellFormed(s) && Enabled(s, e) && !IsLoopEvent(e) && s' == ConnStep(s, e.addr, e)
    requires a in s.connMap && a in s'.connMap
    ensures Keeps(s, e, a, s')
  {
  }

  lemma ChannelStep(s: Srv, e: Event, a: Addr, s': Srv)
    requires WellFormed(s) && Enabled(s, e) && s' == Apply(s, e) && a in s.connMap && a in s'.connMap
    ensures Keeps(s, e, a, s')
  {
    if IsLoopEvent(e) {
      LoopKeeps(s, e, a, s');
    } else {
      TurnKeeps(s, e, a, s');
    }
  }

  // The connection of a is there in every state of the run.
  predicate There(s: Srv, es: seq<Event>, a: Addr)
    requires CanRun(s, es)
    decreases |es|
  {
    a in s.connMap && (es != [] ==> There(Apply(s, es[0]), es[1..], a))
  }

  function AllArrived(es: seq<Event>, a: Addr): seq<LspMsg> {
    if es == [] then [] else Arrived(es[0], a) + AllArrived(es[1..], a)
  }

  function AllWritten(es: seq<Event>, a: Addr): seq<LspMsg> {
    if es == [] then [] else Written(es[0], a) + AllWritten(es[1..], a)
  }

  function AllTakenIn(s: Srv, es: seq<Event>, a: Addr): seq<LspMsg>
    requires CanRun(s, es) && There(s, es, a)
    decreases |es|
  {
    if es == [] then [] else TakenIn(s, es[0], a) + AllTakenIn(Apply(s, es[0]), es[1..], a)
  }

  function AllTakenToSend(s: Srv, es: seq<Event>, a: Addr): seq<LspMsg>
    requires CanRun(s, es) && There(s, es, a)
    decreases |es|
  {
    if es == [] then [] else TakenToSend(s, es[0], a) + AllTakenToSend(Apply(s, es[0]), es[1..], a)
  }

  lemma Rejoin(held: seq<LspMsg>, first: seq<LspMsg>, more: seq<LspMsg>, taken: seq<LspMsg>, held1: seq<LspMsg>,
      rest: seq<LspMsg>, held2: seq<LspMsg>)
    requires held + first == taken + held1 && held1 + more == rest + held2
    ensures held + (first + more) == (taken + rest) + held2
  {
    assert held + (first + more) == (held + first) + more;
    assert (taken + held1) + more == taken + (held1 + more);
    assert taken + (rest + held2) == (taken + rest) + held2;
  }

  // In every run in which a connection stays: what was on its way to it and all that comes
  // for it is, in order, what it takes and what is then on its way; for the packets that
  // arrive and for the messages that the application writes.
  lemma {:induction false} NothingIsLostOrReordered(s: Srv, es: seq<Event>, a: Addr)
    requires WellFormed(s) && CanRun(s, es) && There(s, es, a)
    ensures a in Exec(s, es).connMap
    ensures RecvHeld(s, a) + AllArrived(es, a) == AllTakenIn(s, es, a) + RecvHeld(Exec(s, es), a)
    ensures SendHeld(s, a) + AllWritten(es, a) == AllTakenToSend(s, es, a) + SendHeld(Exec(s, es), a)
    decreases |es|
  {
    if es != [] {
      var e, s1, more := es[0], Apply(s, es[0]), es[1..];
      StepKeepsWellFormed(s, e);
      ChannelStep(s, e, a, s1);
      NothingIsLostOrReordered(s1, more, a);
      Rejoin(RecvHeld(s, a), Arrived(e, a), AllArrived(more, a), TakenIn(s, e, a), RecvHeld(s1, a),
             AllTakenIn(s1, more, a), RecvHeld(Exec(s1, more), a));
      Rejoin(SendHeld(s, a), Written(e, a), AllWritten(more, a), TakenToSend(s, e, a), SendHeld(s1, a),
             AllTakenToSend(s1, more, a), SendHeld(Exec(s1, more), a));
    }
  }

  // ------------------------------------------------------------------------------
  // The turns of a connection
  // ------------------------------------------------------------------------------

  // The step of the two-party runs that a turn stands for.
  function StepFor(l: Link, e: Event): LspNet.Step
    requires !IsLoopEvent(e) && !e.TakeRecv? && (e.TakeSend? ==> l.sendChan != [])
  {
    match e
    case TakeSend(_) => LspNet.Write(LspNet.Server, l.sendChan[0].payload)
    case HandOver(_) => LspNet.Read(LspNet.Server)
    case TakeClose(_) => LspNet.Close(LspNet.Server)
    case _ => LspNet.Tick(LspNet.Server)
  }

  // The message it takes to send, if it does, is data under the id it has now.
  predicate OwnData(l: Link, e: Event) {
    e.TakeSend? && l.sendChan != [] ==> l.sendChan[0] == GenDataMsg(l.conn.connId, 0, l.sendChan[0].payload)
  }

  // A turn of a connection, a packet taken in excepted, has the effect and brings the
  // datagrams that the write, read, close or epoch of the server in the two-party runs has;
  // the epoch limit is an epoch after which the connection asks for its removal.
  lemma TurnsMatchTheTwoPartyModel(s: Srv, e: Event, w: LspNet.World)
    requires Enabled(s, e) && !IsLoopEvent(e) && !e.TakeRecv? && s.connMap[e.addr].side == ServerSide
    requires w.server.conn == ConnAt(s, e.addr) && OwnData(s.connMap[e.addr], e)
    ensures Matches(Apply(s, e), e.addr, Out(s, e), w, LspNet.Apply(w, StepFor(s.connMap[e.addr], e)))
    ensures Apply(s, e).connMap[e.addr].phase == if e.EpochLimit? then Leaving else Running
  {
    var step := StepFor(s.connMap[e.addr], e);
    var (end, out) := LspNet.Local(w.server, step);
    EmitMatches(w, end, out);
    assert out == Out(s, e);
  }

  // A packet taken in, wherever the loop stands, has the effect of its arrival there.
  lemma TakingInMatches(s: Srv, a: Addr, w: LspNet.World)
    requires WellFormed(s) && Enabled(s, TakeRecv(a)) && s.connMap[a].side == ServerSide
    requires w.server.conn == ConnAt(s, a) && s.connMap[a].recvChan[0].typ in {MsgData, MsgAck}
    ensures Matches(Apply(s, TakeRecv(a)), a, Out(s, TakeRecv(a)), w,
                    LspNet.Handle(w, LspNet.Server, s.connMap[a].recvChan[0]))
  {
    var eff := Receive(w.server.conn.value, s.connMap[a].recvChan[0]);
    EmitMatches(w, w.server.(conn := Some(eff.conn)), eff.out);
  }
}
