// One endpoint of an LSP connection: its state as a value, what each case of the
// serve loop does to it, and the object that does the same in place over two
// linked buffers.

module LspConn {
  import opened Bufi

  type Byte = n: int | 0 <= n < 256
  type ConnId = n: int | 0 <= n < 0x1_0000
  type Payload = seq<Byte>

  datatype MsgType = MsgConnect | MsgData | MsgAck | MsgInvalid

  datatype LspMsg = LspMsg(typ: MsgType, connId: ConnId, seqNum: Byte, payload: Payload)

  function GenConnMsg(id: ConnId): LspMsg { LspMsg(MsgConnect, id, 0, []) }

  function GenAckMsg(id: ConnId, seqNum: Byte): LspMsg { LspMsg(MsgAck, id, seqNum, []) }

  function GenDataMsg(id: ConnId, seqNum: Byte, payload: Payload): LspMsg { LspMsg(MsgData, id, seqNum, payload) }

  // Sequence numbers are one byte and wrap.
  function Succ(b: Byte): Byte { (b + 1) % 256 }

  // The fields of a connection that its behaviour depends on. `done` records that the
  // close-completion send has been reached, after which the endpoint is blocked.
  datatype Conn = Conn(
    connId: ConnId,
    sendBuf: seq<LspMsg>,
    recvBuf: seq<LspMsg>,
    nextSend: Byte,
    nextRecv: Byte,
    lastAck: LspMsg,
    closed: bool,
    done: bool)

  // A connection after a step, with the datagrams the step wrote, in order.
  datatype Effect = Effect(conn: Conn, out: seq<LspMsg>)

  function Fresh(id: ConnId): Conn {
    Conn(id, [], [], 1, 1, GenAckMsg(id, 0), false, false)
  }

  // Client side is id 0: it opens with CONNECT. Server side opens with its first ack.
  function Open(id: ConnId): Effect {
    if id == 0 then Send(Fresh(id), GenConnMsg(0)) else Send(Fresh(id), Fresh(id).lastAck)
  }

  function Send(c: Conn, msg: LspMsg): Effect {
    match msg.typ
    case MsgConnect => Effect(c.(sendBuf := c.sendBuf + [msg]), [msg])
    case MsgData =>
      var buf := c.sendBuf + [msg.(seqNum := c.nextSend)];
      Effect(c.(sendBuf := buf, nextSend := Succ(c.nextSend)), [buf[0]])
    case _ => Effect(c, [msg])
  }

  // The send case of the serve loop: a closed connection ignores the message.
  function ServeSend(c: Conn, msg: LspMsg): Effect {
    if c.closed then Effect(c, []) else Send(c, msg)
  }

  function Receive(c: Conn, msg: LspMsg): Effect {
    match msg.typ
    case MsgData => ReceiveData(c, msg)
    case MsgAck => if c.sendBuf == [] then Effect(c, []) else ReceiveAck(c, msg)
    case _ => Effect(c, [])
  }

  function ReceiveData(c: Conn, msg: LspMsg): Effect {
    var d := if msg.seqNum == c.nextRecv
             then c.(recvBuf := c.recvBuf + [msg],
                     nextRecv := Succ(c.nextRecv),
                     lastAck := GenAckMsg(c.connId, msg.seqNum))
             else c;
    Effect(d, [d.lastAck])
  }

  function ReceiveAck(c: Conn, msg: LspMsg): Effect
    requires c.sendBuf != []
  {
    if msg.seqNum == c.sendBuf[0].seqNum then
      var rest := c.sendBuf[1..];
      var d := c.(sendBuf := rest,
                  connId := if msg.seqNum == 0 then msg.connId else c.connId,
                  done := c.done || (rest == [] && c.closed));
      Effect(d, if rest == [] then [] else [rest[0]])
    else
      Effect(c, [c.sendBuf[0]])
  }

  function Epoch(c: Conn): Effect {
    Effect(c, (if c.sendBuf == [] then [] else [c.sendBuf[0]]) + [c.lastAck])
  }

  // The application takes the oldest received message.
  function Take(c: Conn): Conn
    requires c.recvBuf != []
  {
    c.(recvBuf := c.recvBuf[1..])
  }

  // The same endpoint as the object that is updated in place. The datagrams a call
  // writes to the UDP socket are its out-parameter.
  class Connection {
    var connId: ConnId
    const sendBuf: Buf<LspMsg>
    const recvBuf: Buf<LspMsg>
    var nextRecvSeqNum: Byte
    var nextSendSeqNum: Byte
    var lastAck: LspMsg
    var lastTime: int
    var closed: bool
    var done: bool
    const epochLimit: int
    const epochMilliseconds: int

    ghost function Footprint(): set<object>
      reads this, sendBuf, recvBuf
    {
      {this} + sendBuf.repr + recvBuf.repr
    }

    ghost predicate Valid()
      reads this, sendBuf, recvBuf, sendBuf.repr, recvBuf.repr
    {
      && this !in sendBuf.repr && this !in recvBuf.repr
      && sendBuf.repr !! recvBuf.repr
      && sendBuf.Valid() && recvBuf.Valid()
    }

    ghost function State(): Conn
      reads this, sendBuf, recvBuf
    {
      Conn(connId, sendBuf.contents, recvBuf.contents, nextSendSeqNum, nextRecvSeqNum, lastAck, closed, done)
    }

    constructor (id: ConnId, now: int, epochLimit: int, epochMilliseconds: int)
      ensures Valid() && fresh(Footprint())
      ensures State() == Fresh(id) && lastTime == now
      ensures this.epochLimit == epochLimit && this.epochMilliseconds == epochMilliseconds
    {
      connId := id;
      sendBuf := new Buf();
      recvBuf := new Buf();
      nextRecvSeqNum, nextSendSeqNum := 1, 1;
      lastTime := now;
      lastAck := GenAckMsg(id, 0);
      closed, done := false, false;
      this.epochLimit, this.epochMilliseconds := epochLimit, epochMilliseconds;
    }

    // What newLspConn puts on the send channel before it returns.
    method Start() returns (out: seq<LspMsg>)
      requires Valid() && State() == Fresh(connId)
      modifies Footprint()
      ensures Valid() && fresh(Footprint() - old(Footprint()))
      ensures Effect(State(), out) == Open(old(connId))
      ensures lastTime == old(lastTime)
    {
      if connId == 0 {
        out := SendMsg(GenConnMsg(0));
      } else {
        out := SendMsg(lastAck);
      }
    }

    method SendMsg(m: LspMsg) returns (out: seq<LspMsg>)
      requires Valid()
      modifies Footprint()
      ensures Valid() && fresh(Footprint() - old(Footprint()))
      ensures Effect(State(), out) == Send(old(State()), m)
      ensures m.typ == MsgData ==>
                && sendBuf.contents == old(sendBuf.contents) + [m.(seqNum := old(nextSendSeqNum))]
                && out == [sendBuf.contents[0]]
      ensures lastTime == old(lastTime)
    {
      var msg := m;
      match msg.typ {
        case MsgConnect =>
          sendBuf.Insert(msg);
        case MsgData =>
          msg := msg.(seqNum := nextSendSeqNum);
          nextSendSeqNum := Succ(nextSendSeqNum);
          sendBuf.Insert(msg);
          var b := sendBuf.Front();
          msg := b.value;
        case _ =>
      }
      out := [msg];
    }

    method ReceiveMsg(msg: LspMsg, now: int) returns (out: seq<LspMsg>)
      requires Valid()
      modifies Footprint()
      ensures Valid() && fresh(Footprint() - old(Footprint()))
      ensures Effect(State(), out) == Receive(old(State()), msg)
      ensures msg.typ == MsgData ==> out == [lastAck]
      ensures msg.typ == MsgAck ==> out == if sendBuf.contents == [] then [] else [sendBuf.contents[0]]
      ensures lastTime == now
    {
      lastTime := now;
      out := [];
      match msg.typ {
        case MsgData =>
          out := AcceptOrIgnore(msg);
        case MsgAck =>
          var empty := sendBuf.Empty();
          if empty {
            return;
          }
          out := Acknowledge(msg);
        case _ =>
      }
    }

    method AcceptOrIgnore(msg: LspMsg) returns (out: seq<LspMsg>)
      requires Valid()
      modifies Footprint()
      ensures Valid() && fresh(Footprint() - old(Footprint()))
      ensures Effect(State(), out) == ReceiveData(old(State()), msg)
      ensures out == [lastAck]
      ensures if msg.seqNum == old(nextRecvSeqNum)
              then recvBuf.contents == old(recvBuf.contents) + [msg] && lastAck == GenAckMsg(connId, msg.seqNum)
              else recvBuf.contents == old(recvBuf.contents) && lastAck == old(lastAck)
      ensures lastTime == old(lastTime)
    {
      if msg.seqNum == nextRecvSeqNum {
        recvBuf.Insert(msg);
        nextRecvSeqNum := Succ(nextRecvSeqNum);
        lastAck := GenAckMsg(connId, msg.seqNum);
      }
      out := [lastAck];
    }

    method Acknowledge(msg: LspMsg) returns (out: seq<LspMsg>)
      requires Valid() && sendBuf.contents != []
      modifies this, sendBuf
      ensures Valid() && Footprint() == old(Footprint())
      ensures Effect(State(), out) == ReceiveAck(old(State()), msg)
      ensures out == if sendBuf.contents == [] then [] else [sendBuf.contents[0]]
      ensures lastTime == old(lastTime)
    {
      var expected := sendBuf.Front();
      if msg.seqNum != expected.value.seqNum {
        return [expected.value];
      }
      out := Advance(msg);
    }

    // The front message is acknowledged: the next one goes out. `done` is raised where the
    // source blocks on its own writeDone channel.
    method Advance(msg: LspMsg) returns (out: seq<LspMsg>)
      requires Valid() && sendBuf.contents != [] && msg.seqNum == sendBuf.contents[0].seqNum
      modifies this, sendBuf
      ensures Valid() && Footprint() == old(Footprint())
      ensures Effect(State(), out) == ReceiveAck(old(State()), msg)
      ensures sendBuf.contents == old(sendBuf.contents)[1..]
      ensures done <==> old(done) || (sendBuf.contents == [] && closed)
      ensures lastTime == old(lastTime)
    {
      var _ := sendBuf.Remove();
      if msg.seqNum == 0 {
        connId := msg.connId;
      }
      var more := sendBuf.Front();
      if more.Got? {
        return [more.value];
      }
      if closed {
        done := true;
      }
      return [];
    }

    // Returns false when nothing was received for epochLimit epochs.
    method EpochTrigger(now: int) returns (alive: bool, out: seq<LspMsg>)
      requires Valid()
      ensures Effect(State(), out) == Epoch(State())
      ensures alive <==> now - lastTime < epochMilliseconds * epochLimit
    {
      out := [];
      var b := sendBuf.Front();
      if b.Got? {
        out := [b.value];
      }
      out := out + [lastAck];
      var delay := now - lastTime;
      var allowed := epochMilliseconds * epochLimit;
      alive := delay < allowed;
    }

    // The serve case that hands the first received message to the application.
    method HandOver() returns (msg: LspMsg)
      requires Valid() && recvBuf.contents != []
      modifies recvBuf
      ensures Valid() && Footprint() == old(Footprint())
      ensures msg == old(recvBuf.contents)[0] && State() == Take(old(State()))
    {
      var first := recvBuf.Remove();
      msg := first.value;
    }
  }
}
