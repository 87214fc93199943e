// A client and the server's connection for it, joined by two datagram channels that
// may drop, duplicate and (when allowed to) reorder. Every packet carries its logical
// message number beside the one-byte sequence number; no step ever reads it.

module LspNet {
  import opened Wrappers
  import opened LspConn

  datatype Side = Client | Server

  // num: 0 for CONNECT, k for the k-th accepted application message, and for an ack
  // the number of the message it answers.
  datatype Packet = Packet(msg: LspMsg, num: int)

  // `sent` is what the application's writes added so far, `got` what its reads returned.
  datatype End = End(conn: Option<Conn>, sent: seq<Payload>, got: seq<Payload>)

  datatype World = World(
    serverId: ConnId,
    client: End,
    server: End,
    toServer: seq<Packet>,
    toClient: seq<Packet>)

  datatype Step =
    | Write(side: Side, payload: Payload)
    | Deliver(dest: Side, i: nat, keep: bool)  // keep: the network holds on to a copy
    | Drop(dest: Side, i: nat)
    | Read(side: Side)
    | Tick(side: Side)
    | Close(side: Side)                        // the source closes servers' connections only

  function Peer(s: Side): Side { if s == Client then Server else Client }

  function At(w: World, s: Side): End { if s == Client then w.client else w.server }

  // The packets in flight to a side.
  function Chan(w: World, dest: Side): seq<Packet> {
    if dest == Client then w.toClient else w.toServer
  }

  function WithChan(w: World, dest: Side, ps: seq<Packet>): World {
    if dest == Client then w.(toClient := ps) else w.(toServer := ps)
  }

  function WithEnd(w: World, s: Side, e: End): World {
    if s == Client then w.(client := e) else w.(server := e)
  }

  function SendBuf(e: End): seq<LspMsg> { if e.conn.Some? then e.conn.value.sendBuf else [] }

  function RecvBuf(e: End): seq<LspMsg> { if e.conn.Some? then e.conn.value.recvBuf else [] }

  // S: the number of the last own message known to be acknowledged (-1 before CONNECT is).
  function Acked(e: End): int { |e.sent| - |SendBuf(e)| }

  // R: the number of the last message accepted from the peer (-1 before the server has a connection).
  function Accepted(e: End): int { if e.conn.None? then -1 else |e.got| + |RecvBuf(e)| }

  function Payloads(ms: seq<LspMsg>): (ps: seq<Payload>)
    ensures |ps| == |ms|
  {
    seq(|ms|, i requires 0 <= i < |ms| => ms[i].payload)
  }

  // Everything accepted from the peer: handed to the application, then still buffered.
  function Delivered(e: End): seq<Payload> { e.got + Payloads(RecvBuf(e)) }

  function Number(e: End, m: LspMsg): int {
    if m.typ == MsgAck then Accepted(e) else Acked(e) + 1
  }

  function Tag(e: End, out: seq<LspMsg>): (ps: seq<Packet>)
    ensures |ps| == |out|
  {
    seq(|out|, i requires 0 <= i < |out| => Packet(out[i], Number(e, out[i])))
  }

  // Side s is now e and has written `out`.
  function Emit(w: World, s: Side, e: End, out: seq<LspMsg>): World {
    WithChan(WithEnd(w, s, e), Peer(s), Chan(w, Peer(s)) + Tag(e, out))
  }

  function WithConn(w: World, s: Side, eff: Effect): World {
    Emit(w, s, At(w, s).(conn := Some(eff.conn)), eff.out)
  }

  // A side takes steps while it has a connection that is not blocked on its close.
  predicate Running(e: End) {
    e.conn.Some? && !e.conn.value.done
  }

  function Remove<T>(s: seq<T>, i: nat): seq<T>
    requires i < |s|
  {
    s[..i] + s[i + 1..]
  }

  // What a side does with a packet, including the server's connection set-up.
  function Handle(w: World, s: Side, msg: LspMsg): World {
    if s == Server && w.server.conn.None? then
      if msg.typ == MsgConnect then WithConn(w, s, Open(w.serverId)) else w
    else if s == Server && msg.typ == MsgConnect then w
    else if Running(At(w, s)) then WithConn(w, s, Receive(At(w, s).conn.value, msg))
    else w
  }

  // The application writing, reading or closing, and the epoch timer.
  function Local(e: End, step: Step): (End, seq<LspMsg>)
    requires !step.Deliver? && !step.Drop?
  {
    if !Running(e) then (e, []) else
    var c := e.conn.value;
    match step
    case Write(_, p) =>
      var eff := ServeSend(c, GenDataMsg(c.connId, 0, p));
      if c.closed then (e, eff.out) else (e.(conn := Some(eff.conn), sent := e.sent + [p]), eff.out)
    case Read(_) =>
      if c.recvBuf == [] then (e, [])
      else (e.(conn := Some(Take(c)), got := e.got + [c.recvBuf[0].payload]), [])
    case Tick(_) => (e, Epoch(c).out)
    case Close(_) => (e.(conn := Some(c.(closed := true))), [])
  }

  function Apply(w: World, step: Step): World {
    match step
    case Deliver(d, i, keep) =>
      if i < |Chan(w, d)| then
        var rest := if keep then Chan(w, d) else Remove(Chan(w, d), i);
        Handle(WithChan(w, d, rest), d, Chan(w, d)[i].msg)
      else w
    case Drop(d, i) =>
      if i < |Chan(w, d)| then WithChan(w, d, Remove(Chan(w, d), i)) else w
    case _ =>
      var (e, out) := Local(At(w, step.side), step);
      Emit(w, step.side, e, out)
  }

  function Exec(w: World, steps: seq<Step>): World
    decreases |steps|
  {
    if steps == [] then w else Exec(Apply(w, steps[0]), steps[1..])
  }

  // The client has just started: CONNECT is buffered and on its way.
  function Init(serverId: ConnId): World {
    var c := Open(0);
    var e := End(Some(c.conn), [], []);
    World(serverId, e, End(None, [], []), Tag(e, c.out), [])
  }

  // ------------------------------------------------------------------------------
  // Runs
  // ------------------------------------------------------------------------------

  // lag: how many messages a packet is behind the one its receiver expects. One byte
  // cannot tell lags apart that differ by 256.
  predicate OnTime(lag: int) { lag % 256 == 0 ==> lag == 0 }

  // The packet is not a positive multiple of 256 messages late at this endpoint.
  predicate Prompt(p: Packet, e: End) {
    match p.msg.typ
    case MsgData => OnTime(Accepted(e) + 1 - p.num)
    case MsgAck => OnTime(Acked(e) + 1 - p.num)
    case _ => true
  }

  predicate Timely(w: World, step: Step) {
    step.Deliver? && step.i < |Chan(w, step.dest)| ==> Prompt(Chan(w, step.dest)[step.i], At(w, step.dest))
  }

  predicate AllTimely(w: World, steps: seq<Step>)
    decreases |steps|
  {
    steps != [] ==> Timely(w, steps[0]) && AllTimely(Apply(w, steps[0]), steps[1..])
  }

  // The network delivers only its oldest packet to each side (drops and copies allowed).
  predicate InOrder(steps: seq<Step>) {
    forall k :: 0 <= k < |steps| && steps[k].Deliver? ==> steps[k].i == 0
  }

  // ------------------------------------------------------------------------------
  // The invariant
  // ------------------------------------------------------------------------------

  // m is message k of a stream that accepted `sent`.
  predicate Carries(m: LspMsg, k: int, sent: seq<Payload>) {
    && 0 <= k <= |sent|
    && m.seqNum == k % 256
    && if k == 0 then m.typ == MsgConnect else m.typ == MsgData && m.payload == sent[k - 1]
  }

  predicate Answers(m: LspMsg, k: int) {
    m.typ == MsgAck && 0 <= k && m.seqNum == k % 256
  }

  // One stream, from `snd` to `rcv`.
  predicate StreamInv(snd: End, rcv: End) {
    && -1 <= Acked(snd) <= Accepted(rcv) <= Acked(snd) + 1
    && Accepted(rcv) <= |snd.sent|
    && Delivered(rcv) <= snd.sent
    && (forall i :: 0 <= i < |SendBuf(snd)| ==> Carries(SendBuf(snd)[i], Acked(snd) + 1 + i, snd.sent))
    && (snd.conn.Some? ==> snd.conn.value.nextSend == (|snd.sent| + 1) % 256)
    && (rcv.conn.Some? ==>
          && rcv.conn.value.nextRecv == (Accepted(rcv) + 1) % 256
          && Answers(rcv.conn.value.lastAck, Accepted(rcv)))
  }

  predicate EndInv(e: End) {
    && (e.conn.None? ==> e.sent == [] && e.got == [])
    && (e.conn.Some? && e.conn.value.done ==> e.conn.value.closed && SendBuf(e) == [])
  }

  // A packet written by `src`.
  predicate PacketInv(p: Packet, src: End) {
    if p.msg.typ == MsgAck then
      Answers(p.msg, p.num) && p.num <= Accepted(src)
    else
      Carries(p.msg, p.num, src.sent) && p.num <= Acked(src) + 1
  }

  predicate ChanInv(ps: seq<Packet>, src: End) {
    forall i :: 0 <= i < |ps| ==> PacketInv(ps[i], src)
  }

  predicate Ends(e: End, peer: End) {
    EndInv(e) && StreamInv(e, peer) && StreamInv(peer, e)
  }

  predicate Inv(w: World) {
    && w.serverId != 0
    && w.client.conn.Some?
    && Ends(w.client, w.server) && Ends(w.server, w.client)
    && ChanInv(w.toServer, w.client) && ChanInv(w.toClient, w.server)
  }

  // e' comes after e.
  predicate Later(e: End, e': End) {
    Acked(e) <= Acked(e') && Accepted(e) <= Accepted(e') && e.sent <= e'.sent
  }

  // Endpoints write nothing but the front of the send buffer and the last ack.
  predicate Writes(e: End, out: seq<LspMsg>) {
    e.conn.Some? &&
    forall i :: 0 <= i < |out| ==>
      if out[i].typ == MsgAck then out[i] == e.conn.value.lastAck
      else SendBuf(e) != [] && out[i] == SendBuf(e)[0]
  }

  lemma PacketsStayGood(ps: seq<Packet>, src: End, src': End)
    requires ChanInv(ps, src) && Later(src, src')
    ensures ChanInv(ps, src')
  {
    forall i | 0 <= i < |ps| ensures PacketInv(ps[i], src') {
      assert PacketInv(ps[i], src);
    }
  }

  // What has to hold of an endpoint that changed, for its stream and its peer's.
  predicate GoodChange(e: End, e': End, out: seq<LspMsg>, peer: End) {
    && Later(e, e') && Writes(e', out) && EndInv(e')
    && StreamInv(e', peer) && StreamInv(peer, e')
  }

  lemma WrittenPacketsAreGood(ps: seq<Packet>, e: End, out: seq<LspMsg>, peer: End)
    requires ChanInv(ps, e) && Writes(e, out) && Ends(e, peer)
    ensures ChanInv(ps + Tag(e, out), e)
  {
    forall i | 0 <= i < |out| ensures PacketInv(Tag(e, out)[i], e) {
      if out[i].typ != MsgAck {
        assert Carries(SendBuf(e)[0], Acked(e) + 1 + 0, e.sent);
      }
    }
  }

  // The one way in which an endpoint changes and writes.
  lemma EmitKeepsInv(w: World, s: Side, e: End, out: seq<LspMsg>)
    requires Inv(w) && GoodChange(At(w, s), e, out, At(w, Peer(s)))
    ensures Inv(Emit(w, s, e, out))
  {
    PacketsStayGood(Chan(w, Peer(s)), At(w, s), e);
    WrittenPacketsAreGood(Chan(w, Peer(s)), e, out, At(w, Peer(s)));
  }

  lemma NextByte(b: Byte, k: int)
    requires b == k % 256
    ensures Succ(b) == (k + 1) % 256
  {
  }

  lemma WriteIsGood(e: End, peer: End, p: Payload, e': End, out: seq<LspMsg>)
    requires Ends(e, peer) && e.conn.Some? && !e.conn.value.closed
    requires var c := e.conn.value;
             var eff := ServeSend(c, GenDataMsg(c.connId, 0, p));
             e' == e.(conn := Some(eff.conn), sent := e.sent + [p]) && out == eff.out
    ensures GoodChange(e, e', out, peer)
  {
    NextByte(e.conn.value.nextSend, |e.sent| + 1);
    PeerStreamUntouched(e, peer, e');
    forall i | 0 <= i < |SendBuf(e')| ensures Carries(SendBuf(e')[i], Acked(e') + 1 + i, e'.sent) {
      if i < |SendBuf(e)| {
        assert Carries(SendBuf(e)[i], Acked(e) + 1 + i, e.sent);
      }
    }
    assert RecvBuf(e') == RecvBuf(e);
  }

  lemma TakeIsGood(e: End, peer: End, e': End)
    requires Ends(e, peer) && e.conn.Some? && RecvBuf(e) != []
    requires e' == e.(conn := Some(Take(e.conn.value)), got := e.got + [RecvBuf(e)[0].payload])
    ensures GoodChange(e, e', [], peer)
    ensures Delivered(e') == Delivered(e)
  {
    assert Delivered(e') == Delivered(e);
    assert SendBuf(e') == SendBuf(e);
  }

  lemma CloseIsGood(e: End, peer: End, e': End)
    requires Ends(e, peer) && e.conn.Some?
    requires e' == e.(conn := Some(e.conn.value.(closed := true)))
    ensures GoodChange(e, e', [], peer)
  {
    assert SendBuf(e') == SendBuf(e) && RecvBuf(e') == RecvBuf(e);
  }

  lemma LocalIsGood(e: End, peer: End, step: Step)
    requires Ends(e, peer) && !step.Deliver? && !step.Drop?
    ensures var (e', out) := Local(e, step);
      && (e.conn.Some? ==> GoodChange(e, e', out, peer))
      && (e.conn.None? ==> e' == e && out == [])
      && Acked(e') == Acked(e) && Accepted(e') == Accepted(e)
  {
    var (e', out) := Local(e, step);
    if Running(e) {
      match step {
        case Write(_, p) => if !e.conn.value.closed { WriteIsGood(e, peer, p, e', out); }
        case Read(_) => if RecvBuf(e) != [] { TakeIsGood(e, peer, e'); }
        case Tick(_) =>
        case Close(_) => CloseIsGood(e, peer, e');
      }
    }
  }

  lemma EmitNothing(w: World, s: Side)
    ensures Emit(w, s, At(w, s), []) == w
  {
    assert Chan(w, Peer(s)) + Tag(At(w, s), []) == Chan(w, Peer(s));
  }

  lemma LocalStepKeepsInv(w: World, step: Step)
    requires Inv(w) && !step.Deliver? && !step.Drop?
    ensures Inv(Apply(w, step))
  {
    var s := step.side;
    var (e, out) := Local(At(w, s), step);
    LocalIsGood(At(w, s), At(w, Peer(s)), step);
    if e.conn.Some? {
      EmitKeepsInv(w, s, e, out);
    } else {
      EmitNothing(w, s);
    }
  }

  lemma LosePacketKeepsInv(w: World, d: Side, i: nat)
    requires Inv(w) && i < |Chan(w, d)|
    ensures Inv(WithChan(w, d, Remove(Chan(w, d), i)))
  {
    var ps, rest := Chan(w, d), Remove(Chan(w, d), i);
    forall k | 0 <= k < |rest| ensures PacketInv(rest[k], At(w, Peer(d))) {
      assert PacketInv(ps[if k < i then k else k + 1], At(w, Peer(d)));
    }
  }

  // Byte equality means message equality for packets that are on time.
  lemma SameByteSameNumber(expected: int, num: int)
    requires OnTime(expected - num) && expected % 256 == num % 256
    ensures expected == num
  {
  }

  lemma OwnStreamUntouched(e: End, peer: End, e': End)
    requires StreamInv(e, peer) && e.conn.Some? && e'.conn.Some?
    requires SendBuf(e') == SendBuf(e) && e'.sent == e.sent
    requires e'.conn.value.nextSend == e.conn.value.nextSend
    ensures StreamInv(e', peer)
  {
  }

  lemma PeerStreamUntouched(e: End, peer: End, e': End)
    requires StreamInv(peer, e) && e.conn.Some? && e'.conn.Some?
    requires RecvBuf(e') == RecvBuf(e) && e'.got == e.got
    requires e'.conn.value.nextRecv == e.conn.value.nextRecv && e'.conn.value.lastAck == e.conn.value.lastAck
    ensures StreamInv(peer, e')
  {
  }

  lemma DataIsGood(e: End, peer: End, p: Packet, e': End, out: seq<LspMsg>)
    requires Ends(e, peer) && e.conn.Some? && p.msg.typ == MsgData
    requires PacketInv(p, peer) && Prompt(p, e)
    requires var eff := ReceiveData(e.conn.value, p.msg); e' == e.(conn := Some(eff.conn)) && out == eff.out
    ensures GoodChange(e, e', out, peer)
    ensures Acked(e') == Acked(e) && (Accepted(e') == Accepted(e) || Accepted(e') == p.num)
    ensures p.num == Accepted(e) + 1 ==> Accepted(e') == p.num
  {
    OwnStreamUntouched(e, peer, e');
    if p.msg.seqNum == e.conn.value.nextRecv {
      SameByteSameNumber(Accepted(e) + 1, p.num);
      NextByte(e.conn.value.nextRecv, Accepted(e) + 1);
      assert Delivered(e') == Delivered(e) + [p.msg.payload];
    } else {
      assert e' == e;
    }
  }

  // The front message leaves the send buffer.
  lemma FrontLeaves(e: End, peer: End, e': End, connId: ConnId, done: bool)
    requires Ends(e, peer) && SendBuf(e) != [] && Acked(e) + 1 <= Accepted(peer)
    requires e' == e.(conn := Some(e.conn.value.(sendBuf := SendBuf(e)[1..], connId := connId, done := done)))
    ensures StreamInv(e', peer) && StreamInv(peer, e') && Acked(e') == Acked(e) + 1
  {
    PeerStreamUntouched(e, peer, e');
    forall i | 0 <= i < |SendBuf(e')| ensures Carries(SendBuf(e')[i], Acked(e') + 1 + i, e'.sent) {
      assert Carries(SendBuf(e)[i + 1], Acked(e) + 1 + (i + 1), e.sent);
    }
  }

  lemma AckIsGood(e: End, peer: End, p: Packet, e': End, out: seq<LspMsg>)
    requires Ends(e, peer) && SendBuf(e) != [] && p.msg.typ == MsgAck
    requires PacketInv(p, peer) && Prompt(p, e)
    requires var eff := ReceiveAck(e.conn.value, p.msg); e' == e.(conn := Some(eff.conn)) && out == eff.out
    ensures GoodChange(e, e', out, peer)
    ensures Accepted(e') == Accepted(e) && (Acked(e') == Acked(e) || Acked(e') == p.num)
    ensures p.num == Acked(e) + 1 ==> Acked(e') == p.num
  {
    assert Carries(SendBuf(e)[0], Acked(e) + 1 + 0, e.sent);
    if p.msg.seqNum == SendBuf(e)[0].seqNum {
      SameByteSameNumber(Acked(e) + 1, p.num);
      FrontLeaves(e, peer, e', e'.conn.value.connId, e'.conn.value.done);
    } else {
      assert e' == e;
    }
  }

  lemma OpenIsGood(e: End, peer: End, id: ConnId, e': End, out: seq<LspMsg>)
    requires Ends(e, peer) && e.conn.None? && id != 0
    requires var eff := Open(id); e' == e.(conn := Some(eff.conn)) && out == eff.out
    requires Acked(peer) == -1 && Accepted(peer) == 0 && peer.conn.Some?
    ensures GoodChange(e, e', out, peer)
  {
  }

  lemma HandleKeepsInv(w: World, s: Side, p: Packet, w': World)
    requires Inv(w) && PacketInv(p, At(w, Peer(s))) && w' == Handle(w, s, p.msg)
    requires Prompt(p, At(w, s))
    ensures Inv(w')
  {
    var e, peer := At(w, s), At(w, Peer(s));
    if s == Server && w.server.conn.None? {
      if p.msg.typ == MsgConnect {
        var eff := Open(w.serverId);
        OpenIsGood(e, peer, w.serverId, e.(conn := Some(eff.conn)), eff.out);
        EmitKeepsInv(w, s, e.(conn := Some(eff.conn)), eff.out);
      }
    } else if Running(At(w, s)) && !(s == Server && p.msg.typ == MsgConnect) {
      var eff := Receive(e.conn.value, p.msg);
      var e' := e.(conn := Some(eff.conn));
      if p.msg.typ == MsgData {
        DataIsGood(e, peer, p, e', eff.out);
      } else if p.msg.typ == MsgAck && SendBuf(e) != [] {
        AckIsGood(e, peer, p, e', eff.out);
      } else {
        assert e' == e;
      }
      EmitKeepsInv(w, s, e', eff.out);
    }
  }

  lemma DeliverKeepsInv(w: World, d: Side, i: nat, keep: bool, w': World)
    requires Inv(w) && i < |Chan(w, d)| && Timely(w, Deliver(d, i, keep)) && w' == Apply(w, Deliver(d, i, keep))
    ensures Inv(w')
  {
    var w1 := TakenOut(w, d, i, keep, w');
    HandleKeepsInv(w1, d, Chan(w, d)[i], w');
  }

  // A delivery takes the packet (or a copy) out of the channel and hands it over.
  lemma TakenOut(w: World, d: Side, i: nat, keep: bool, w': World) returns (w1: World)
    requires Inv(w) && i < |Chan(w, d)| && w' == Apply(w, Deliver(d, i, keep))
    ensures Inv(w1) && At(w1, d) == At(w, d) && At(w1, Peer(d)) == At(w, Peer(d))
            && Chan(w1, Peer(d)) == Chan(w, Peer(d))
    ensures PacketInv(Chan(w, d)[i], At(w, Peer(d)))
    ensures w' == Handle(w1, d, Chan(w, d)[i].msg)
  {
    w1 := WithChan(w, d, if keep then Chan(w, d) else Remove(Chan(w, d), i));
    if keep {
      assert w1 == w;
    } else {
      LosePacketKeepsInv(w, d, i);
    }
  }

  lemma StepKeepsInv(w: World, step: Step)
    requires Inv(w) && Timely(w, step)
    ensures Inv(Apply(w, step))
  {
    match step {
      case Deliver(d, i, keep) =>
        if i < |Chan(w, d)| {
          DeliverKeepsInv(w, d, i, keep, Apply(w, step));
        }
      case Drop(d, i) =>
        if i < |Chan(w, d)| {
          LosePacketKeepsInv(w, d, i);
        }
      case _ => LocalStepKeepsInv(w, step);
    }
  }
}
