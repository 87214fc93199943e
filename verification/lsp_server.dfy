// The server's side of connection set-up: one connection per client address, opened by
// the first CONNECT, and every packet routed by the address it came from. Connections run
// on their own and are fed through channels; the loop of the server waits when it sends
// to a channel that has no room.

module LspServer {
  import opened Wrappers
  import opened LspConn

  type Addr = string

  datatype Datagram = Datagram(addr: Addr, msg: LspMsg)

  // A connection writes with Write on the client's side and with WriteToUDP on the
  // server's; on the listening socket of the server only the latter gets through.
  datatype WhichSide = ClientSide | ServerSide

  // The loop of a connection runs; or it waits for the server to take its removal, when
  // nothing was received for too many epochs; or it has ended.
  datatype Phase = Running | Leaving | Ended

  // A connection with its two channels, which hold one message each. It is the rank-th
  // that the server opened.
  datatype Link = Link(
    conn: Conn, side: WhichSide, recvChan: seq<LspMsg>, sendChan: seq<LspMsg>, phase: Phase, rank: nat)

  // What the loop sends to a connection.
  datatype Push = ToRecv(msg: LspMsg) | ToSend(msg: LspMsg) | ToClose

  datatype Blocked = Blocked(addr: Addr, push: Push)

  // waiting: the send in which the loop is blocked. crashed: a nil connection was
  // dereferenced. total: how many connections were opened so far.
  datatype Srv = Srv(
    nextConnId: ConnId, connMap: map<Addr, Link>, waiting: Option<Blocked>, crashed: bool, total: nat)

  const START: Srv := Srv(1, map[], None, false, 0)

  datatype Event =
    // the loop of the server; `to` is the connection found under the id, if any
    | Arrive(p: Datagram)
    | AppWrite(id: ConnId, payload: Payload, to: Option<Addr>)
    | AppClose(id: ConnId, to: Option<Addr>)
    | Remove(addr: Addr, to: Option<Addr>)  // the removal that the connection of addr asks for
    // the loops of the connections
    | TakeRecv(addr: Addr)
    | TakeSend(addr: Addr)
    | TakeClose(addr: Addr)
    | HandOver(addr: Addr)
    | EpochTick(addr: Addr)
    | EpochLimit(addr: Addr)

  predicate IsLoopEvent(e: Event) { e.Arrive? || e.AppWrite? || e.AppClose? || e.Remove? }

  function AddrOf(e: Event): Option<Addr> {
    match e
    case Arrive(p) => Some(p.addr)
    case AppWrite(_, _, to) => to
    case AppClose(_, to) => to
    case _ => Some(e.addr)
  }

  function NextId(id: ConnId): ConnId { (id + 1) % 0x1_0000 }

  // The first message of a connection waits in its send channel.
  function NewLink(id: ConnId, rank: nat): Link {
    Link(Fresh(id), if id == 0 then ClientSide else ServerSide, [],
         [if id == 0 then GenConnMsg(0) else GenAckMsg(id, 0)], Running, rank)
  }

  // closeChan has no buffer.
  predicate HasRoom(l: Link, push: Push) {
    match push
    case ToRecv(_) => l.recvChan == []
    case ToSend(_) => l.sendChan == []
    case ToClose => false
  }

  function Pushed(l: Link, push: Push): Link {
    match push
    case ToRecv(m) => l.(recvChan := [m])
    case ToSend(m) => l.(sendChan := [m])
    case ToClose => l
  }

  function Offer(s: Srv, a: Addr, push: Push): Srv
    requires a in s.connMap
  {
    if HasRoom(s.connMap[a], push) then s.(connMap := s.connMap[a := Pushed(s.connMap[a], push)])
    else s.(waiting := Some(Blocked(a, push)))
  }

  // getConnById looks through the connections in any order.
  predicate Finds(s: Srv, id: ConnId, to: Option<Addr>) {
    match to
    case Some(a) => a in s.connMap && s.connMap[a].conn.connId == id
    case None => forall a :: a in s.connMap ==> s.connMap[a].conn.connId != id
  }

  function HandlePacket(s: Srv, p: Datagram): Srv {
    match p.msg.typ
    case MsgConnect =>
      if p.addr in s.connMap then s
      else s.(nextConnId := NextId(s.nextConnId), total := s.total + 1,
              connMap := s.connMap[p.addr := NewLink(s.nextConnId, s.total + 1)])
    case MsgInvalid => s
    case _ => if p.addr in s.connMap then Offer(s, p.addr, ToRecv(p.msg)) else s.(crashed := true)
  }

  function LoopStep(s: Srv, e: Event): Srv
    requires IsLoopEvent(e)
  {
    match e
    case Arrive(p) => HandlePacket(s, p)
    case AppWrite(id, x, to) =>
      if to.Some? && to.value in s.connMap then Offer(s, to.value, ToSend(GenDataMsg(id, 0, x))) else s
    case AppClose(_, to) => if to.Some? && to.value in s.connMap then Offer(s, to.value, ToClose) else s
    case Remove(a, to) =>
      var ended := if a in s.connMap then s.connMap[a := s.connMap[a].(phase := Ended)] else s.connMap;
      s.(connMap := if to.Some? then ended - {to.value} else ended)
  }

  // Whether the loop of a connection can take this case. A completed close blocks it.
  predicate CanTurn(l: Link, waiting: Option<Blocked>, e: Event) {
    l.phase == Running && !l.conn.done &&
    match e
    case TakeRecv(_) => l.recvChan != []
    case TakeSend(_) => l.sendChan != []
    case TakeClose(a) => waiting == Some(Blocked(a, ToClose))
    case HandOver(_) => l.conn.recvBuf != []
    case _ => true
  }

  datatype Served = Served(link: Link, out: seq<LspMsg>)

  function Turn(l: Link, waiting: Option<Blocked>, e: Event): Served
    requires !IsLoopEvent(e) && CanTurn(l, waiting, e)
  {
    match e
    case TakeRecv(_) =>
      var eff := Receive(l.conn, l.recvChan[0]);
      Served(l.(conn := eff.conn, recvChan := []), eff.out)
    case TakeSend(_) =>
      var eff := ServeSend(l.conn, l.sendChan[0]);
      Served(l.(conn := eff.conn, sendChan := []), eff.out)
    case TakeClose(_) => Served(l.(conn := l.conn.(closed := true)), [])
    case HandOver(_) => Served(l.(conn := Take(l.conn)), [])
    case EpochTick(_) => Served(l, Epoch(l.conn).out)
    case EpochLimit(_) => Served(l.(phase := Leaving), Epoch(l.conn).out)
  }

  // A send that was waiting for this connection goes through once there is room.
  function ConnStep(s: Srv, a: Addr, e: Event): Srv
    requires !IsLoopEvent(e) && a in s.connMap && CanTurn(s.connMap[a], s.waiting, e)
  {
    var l := Turn(s.connMap[a], s.waiting, e).link;
    if e.TakeClose? then s.(connMap := s.connMap[a := l], waiting := None)
    else if s.waiting.Some? && s.waiting.value.addr == a && HasRoom(l, s.waiting.value.push) then
      s.(connMap := s.connMap[a := Pushed(l, s.waiting.value.push)], waiting := None)
    else s.(connMap := s.connMap[a := l])
  }

  predicate Enabled(s: Srv, e: Event) {
    !s.crashed &&
    if IsLoopEvent(e) then
      && s.waiting.None?
      && (e.AppWrite? ==> Finds(s, e.id, e.to))
      && (e.AppClose? ==> Finds(s, e.id, e.to))
      && (e.Remove? ==>
            e.addr in s.connMap && s.connMap[e.addr].phase == Leaving && Finds(s, s.connMap[e.addr].conn.connId, e.to))
    else e.addr in s.connMap && CanTurn(s.connMap[e.addr], s.waiting, e)
  }

  function Apply(s: Srv, e: Event): Srv
    requires Enabled(s, e)
  {
    if IsLoopEvent(e) then LoopStep(s, e) else ConnStep(s, e.addr, e)
  }

  // The datagrams that reach the network.
  function Out(s: Srv, e: Event): seq<LspMsg>
    requires Enabled(s, e)
  {
    if IsLoopEvent(e) || s.connMap[e.addr].side == ClientSide then []
    else Turn(s.connMap[e.addr], s.waiting, e).out
  }

  predicate CanRun(s: Srv, es: seq<Event>)
    decreases |es|
  {
    es != [] ==> Enabled(s, es[0]) && CanRun(Apply(s, es[0]), es[1..])
  }

  function Exec(s: Srv, es: seq<Event>): Srv
    requires CanRun(s, es)
    decreases |es|
  {
    if es == [] then s else Exec(Apply(s, es[0]), es[1..])
  }

  // The server's loop as an object. A packet either is handled, dereferences a nil
  // connection, or leaves the loop blocked in its send.
  datatype Outcome = Handled | NilConnection | Blocks

  class Server {
    var nextConnId: ConnId
    var connMap: map<Addr, Link>
    var waiting: Option<Blocked>
    var crashed: bool
    var total: nat

    ghost function State(): Srv
      reads this
    {
      Srv(nextConnId, connMap, waiting, crashed, total)
    }

    constructor ()
      ensures State() == START
    {
      nextConnId, connMap, waiting, crashed, total := 1, map[], None, false, 0;
    }

    method HandleUdpPacket(p: Datagram) returns (outcome: Outcome)
      requires !crashed && waiting.None?
      modifies this
      ensures State() == Apply(old(State()), Arrive(p))
      ensures outcome == NilConnection <==>
                p.addr !in old(connMap) && (p.msg.typ == MsgData || p.msg.typ == MsgAck)
      ensures outcome == Blocks <==>
                p.addr in old(connMap) && (p.msg.typ == MsgData || p.msg.typ == MsgAck)
                && old(connMap)[p.addr].recvChan != []
    {
      outcome := Handled;
      match p.msg.typ {
        case MsgConnect =>
          if p.addr !in connMap {
            total := total + 1;
            connMap := connMap[p.addr := NewLink(nextConnId, total)];
            nextConnId := NextId(nextConnId);
          }
        case MsgInvalid =>
        case _ =>
          if p.addr !in connMap {
            crashed := true;
            outcome := NilConnection;
          } else if connMap[p.addr].recvChan == [] {
            connMap := connMap[p.addr := connMap[p.addr].(recvChan := [p.msg])];
          } else {
            waiting := Some(Blocked(p.addr, ToRecv(p.msg)));
            outcome := Blocks;
          }
      }
    }

    // Looks through the connections in any order.
    method GetConnById(id: ConnId) returns (found: Option<Addr>)
      ensures Finds(State(), id, found)
    {
      var todo := connMap.Keys;
      while todo != {}
        invariant todo <= connMap.Keys
        invariant forall a :: a in connMap && a !in todo ==> connMap[a].conn.connId != id
        decreases todo
      {
        var a :| a in todo;
        if connMap[a].conn.connId == id {
          return Some(a);
        }
        todo := todo - {a};
      }
      return None;
    }

    // Takes the id that the connection of `from` sends before its loop ends.
    method HandleRemoval(from: Addr) returns (found: Option<Addr>)
      requires !crashed && waiting.None? && from in connMap && connMap[from].phase == Leaving
      modifies this
      ensures Enabled(old(State()), Remove(from, found)) && State() == Apply(old(State()), Remove(from, found))
    {
      found := GetConnById(connMap[from].conn.connId);
      connMap := connMap[from := connMap[from].(phase := Ended)];
      if found.Some? {
        connMap := connMap - {found.value};
      }
    }
  }
}
