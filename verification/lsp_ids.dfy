// The connection id of an endpoint changes when an ack with sequence number 0 removes the
// front message: that of CONNECT, and of every 256th message. When that is harmless.

module LspIds {
  import opened Wrappers
  import opened LspConn
  import opened LspNet
  import opened LspRuns
  import opened LspTight

  // The client has not accepted message 256 before its CONNECT was acknowledged.
  predicate Confirmed(w: World) { Acked(w.client) == -1 ==> Accepted(w.client) < 256 }

  predicate AllConfirmed(w: World, steps: seq<Step>)
    decreases |steps|
  {
    Confirmed(w) && (steps != [] ==> AllConfirmed(Apply(w, steps[0]), steps[1..]))
  }

  // An ack of a message whose number is a multiple of 256, other than CONNECT.
  predicate OfWrap(num: int) { num > 0 && num % 256 == 0 }

  predicate ClientIds(e: End, id: ConnId) {
    e.conn.Some? ==>
      && e.conn.value.connId == (if Acked(e) == -1 then 0 else id)
      && (OfWrap(Accepted(e)) ==> e.conn.value.lastAck.connId == id)
  }

  predicate ServerIds(e: End, id: ConnId) {
    e.conn.Some? ==> e.conn.value.connId == id && e.conn.value.lastAck.connId == id && 0 <= Acked(e)
  }

  predicate AcksToServer(ps: seq<Packet>, id: ConnId) {
    forall i :: 0 <= i < |ps| && ps[i].msg.typ == MsgAck && OfWrap(ps[i].num) ==> ps[i].msg.connId == id
  }

  predicate AcksToClient(ps: seq<Packet>, id: ConnId) {
    forall i :: 0 <= i < |ps| && ps[i].msg.typ == MsgAck ==> ps[i].msg.connId == id
  }

  predicate IdsOk(w: World) {
    && ClientIds(w.client, w.serverId) && ServerIds(w.server, w.serverId)
    && AcksToServer(w.toServer, w.serverId) && AcksToClient(w.toClient, w.serverId)
  }

  // An end as its stream sees it after it changed and wrote.
  predicate GoodIds(s: Side, e: End, out: seq<LspMsg>, id: ConnId) {
    Writes(e, out) && if s == Client then ClientIds(e, id) else ServerIds(e, id)
  }

  lemma EmitKeepsIds(w: World, s: Side, e: End, out: seq<LspMsg>)
    requires IdsOk(w) && GoodIds(s, e, out, w.serverId)
    ensures IdsOk(Emit(w, s, e, out))
  {
    var ps := Tag(e, out);
    if s == Client {
      assert forall i :: 0 <= i < |ps| && ps[i].msg.typ == MsgAck ==>
               ps[i].num == Accepted(e) && ps[i].msg == e.conn.value.lastAck;
    }
  }

  lemma LocalIds(s: Side, e: End, peer: End, step: Step, id: ConnId)
    requires Ends(e, peer) && e.conn.Some? && !step.Deliver? && !step.Drop?
    requires if s == Client then ClientIds(e, id) else ServerIds(e, id)
    ensures var (e', out) := Local(e, step); GoodIds(s, e', out, id)
  {
    LocalIsGood(e, peer, step);
  }

  lemma LocalStepKeepsIds(w: World, step: Step, w': World)
    requires Inv(w) && IdsOk(w) && !step.Deliver? && !step.Drop? && w' == Apply(w, step)
    ensures IdsOk(w')
  {
    var s := step.side;
    var (e, out) := Local(At(w, s), step);
    if At(w, s).conn.Some? {
      LocalIds(s, At(w, s), At(w, Peer(s)), step, w.serverId);
      EmitKeepsIds(w, s, e, out);
    } else {
      EmitNothing(w, s);
    }
  }

  lemma ClientAccepts(e: End, peer: End, p: Packet, e': End, out: seq<LspMsg>, id: ConnId)
    requires Ends(e, peer) && Running(e) && PacketInv(p, peer) && Prompt(p, e) && ClientIds(e, id)
             && p.msg.typ == MsgData
    requires var eff := ReceiveData(e.conn.value, p.msg); e' == e.(conn := Some(eff.conn)) && out == eff.out
    requires Acked(e') == -1 ==> Accepted(e') < 256
    ensures GoodIds(Client, e', out, id)
  {
    DataIsGood(e, peer, p, e', out);
    if p.msg.seqNum == e.conn.value.nextRecv {
      assert e'.conn.value.lastAck.connId == e.conn.value.connId;
    }
  }

  // CONNECT is the one message of the client whose number is 0.
  lemma FrontOrConfirmed(e: End, peer: End)
    requires Ends(e, peer) && SendBuf(e) != []
    ensures SendBuf(e)[0].seqNum == 0 || Acked(e) != -1
  {
    assert Carries(SendBuf(e)[0], Acked(e) + 1 + 0, e.sent);
  }

  lemma ClientAcknowledged(e: End, peer: End, p: Packet, e': End, out: seq<LspMsg>, id: ConnId)
    requires Ends(e, peer) && PacketInv(p, peer) && Prompt(p, e) && ClientIds(e, id)
    requires p.msg.typ == MsgAck && p.msg.connId == id && SendBuf(e) != []
    requires var eff := ReceiveAck(e.conn.value, p.msg); e' == e.(conn := Some(eff.conn)) && out == eff.out
    ensures GoodIds(Client, e', out, id)
  {
    AckIsGood(e, peer, p, e', out);
    FrontOrConfirmed(e, peer);
  }

  lemma ClientReceives(e: End, peer: End, p: Packet, e': End, out: seq<LspMsg>, id: ConnId)
    requires Ends(e, peer) && Running(e) && PacketInv(p, peer) && Prompt(p, e) && ClientIds(e, id)
    requires p.msg.typ == MsgAck ==> p.msg.connId == id
    requires var eff := Receive(e.conn.value, p.msg); e' == e.(conn := Some(eff.conn)) && out == eff.out
    requires Acked(e') == -1 ==> Accepted(e') < 256
    ensures GoodIds(Client, e', out, id)
  {
    if p.msg.typ == MsgData {
      ClientAccepts(e, peer, p, e', out, id);
    } else if p.msg.typ == MsgAck && SendBuf(e) != [] {
      ClientAcknowledged(e, peer, p, e', out, id);
    }
  }

  lemma ServerReceives(e: End, peer: End, p: Packet, e': End, out: seq<LspMsg>, id: ConnId)
    requires Ends(e, peer) && Running(e) && PacketInv(p, peer) && Prompt(p, e) && ServerIds(e, id)
    requires p.msg.typ == MsgAck && OfWrap(p.num) ==> p.msg.connId == id
    requires var eff := Receive(e.conn.value, p.msg); e' == e.(conn := Some(eff.conn)) && out == eff.out
    ensures GoodIds(Server, e', out, id)
  {
    if p.msg.typ == MsgData {
      DataIsGood(e, peer, p, e', out);
    } else if p.msg.typ == MsgAck && SendBuf(e) != [] {
      AckIsGood(e, peer, p, e', out);
      assert Carries(SendBuf(e)[0], Acked(e) + 1 + 0, e.sent);
      if p.msg.seqNum == SendBuf(e)[0].seqNum {
        SameByteSameNumber(Acked(e) + 1, p.num);
      }
    }
  }

  lemma HandleKeepsIds(w: World, s: Side, p: Packet, w': World)
    requires Inv(w) && IdsOk(w) && PacketInv(p, At(w, Peer(s))) && Prompt(p, At(w, s))
    requires s == Client && p.msg.typ == MsgAck ==> p.msg.connId == w.serverId
    requires s == Server && p.msg.typ == MsgAck && OfWrap(p.num) ==> p.msg.connId == w.serverId
    requires w' == Handle(w, s, p.msg) && Confirmed(w')
    ensures IdsOk(w')
  {
    var e, peer := At(w, s), At(w, Peer(s));
    if s == Server && (w.server.conn.None? || p.msg.typ == MsgConnect) {
      if w.server.conn.None? && p.msg.typ == MsgConnect {
        var eff := Open(w.serverId);
        OpenIsGood(e, peer, w.serverId, e.(conn := Some(eff.conn)), eff.out);
        EmitKeepsIds(w, s, e.(conn := Some(eff.conn)), eff.out);
      }
    } else if Running(e) {
      var eff := Receive(e.conn.value, p.msg);
      var e' := e.(conn := Some(eff.conn));
      assert w' == Emit(w, s, e', eff.out);
      if s == Client {
        ClientReceives(e, peer, p, e', eff.out, w.serverId);
      } else {
        ServerReceives(e, peer, p, e', eff.out, w.serverId);
      }
      EmitKeepsIds(w, s, e', eff.out);
    }
  }

  lemma TakenOutKeepsIds(w: World, d: Side, i: nat, keep: bool)
    requires IdsOk(w) && i < |Chan(w, d)|
    ensures IdsOk(WithChan(w, d, if keep then Chan(w, d) else Remove(Chan(w, d), i)))
  {
    var ps, rest := Chan(w, d), Remove(Chan(w, d), i);
    assert forall k :: 0 <= k < |rest| ==> rest[k] == ps[if k < i then k else k + 1];
  }

  lemma DeliverKeepsIds(w: World, d: Side, i: nat, keep: bool, w': World)
    requires Inv(w) && IdsOk(w) && i < |Chan(w, d)| && Timely(w, Deliver(d, i, keep))
    requires w' == Apply(w, Deliver(d, i, keep)) && Confirmed(w')
    ensures IdsOk(w')
  {
    var w0 := TakenOut(w, d, i, keep, w');
    var w1 := WithChan(w, d, if keep then Chan(w, d) else Remove(Chan(w, d), i));
    TakenOutKeepsIds(w, d, i, keep);
    if keep {
      assert w1 == w;
    } else {
      LosePacketKeepsInv(w, d, i);
    }
    HandleKeepsIds(w1, d, Chan(w, d)[i], w');
  }

  lemma StepKeepsIds(w: World, step: Step, w': World)
    requires Inv(w) && IdsOk(w) && Timely(w, step) && w' == Apply(w, step) && Confirmed(w')
    ensures IdsOk(w')
  {
    match step {
      case Deliver(d, i, keep) =>
        if i < |Chan(w, d)| {
          DeliverKeepsIds(w, d, i, keep, w');
        }
      case Drop(d, i) =>
        if i < |Chan(w, d)| {
          TakenOutKeepsIds(w, d, i, false);
        }
      case _ => LocalStepKeepsIds(w, step, w');
    }
  }

  lemma {:induction false} RunKeepsIds(w: World, steps: seq<Step>)
    requires Inv(w) && IdsOk(w) && AllTimely(w, steps) && AllConfirmed(w, steps)
    ensures IdsOk(Exec(w, steps)) && Inv(Exec(w, steps))
    decreases |steps|
  {
    if steps != [] {
      var w1 := Apply(w, steps[0]);
      StepKeepsInv(w, steps[0]);
      StepKeepsIds(w, steps[0], w1);
      RunKeepsIds(w1, steps[1..]);
    }
  }

  // In every timely run in which the client learns its id before it accepts message 256,
  // the server's connection keeps the id it was opened with, through all wraps, and the
  // client has that id once its CONNECT is acknowledged.
  lemma IdsAreStable(id: ConnId, steps: seq<Step>)
    requires id != 0 && AllTimely(Init(id), steps) && AllConfirmed(Init(id), steps)
    ensures var w := Exec(Init(id), steps);
      && (w.server.conn.Some? ==> w.server.conn.value.connId == id)
      && w.client.conn.Some? && w.client.conn.value.connId == if Acked(w.client) == -1 then 0 else id
  {
    InitInv(id);
    ServerIdNeverChanges(Init(id), steps);
    RunKeepsIds(Init(id), steps);
  }

  lemma {:induction false} ServerIdNeverChanges(w: World, steps: seq<Step>)
    ensures Exec(w, steps).serverId == w.serverId
    decreases |steps|
  {
    if steps != [] {
      ServerIdNeverChanges(Apply(w, steps[0]), steps[1..]);
    }
  }

  // ------------------------------------------------------------------------------
  // When the server's id changes
  // ------------------------------------------------------------------------------

  // The server's connection has no CONNECT of its own to be acknowledged.
  predicate Begun(w: World) { w.server.conn.Some? ==> 0 <= Acked(w.server) }

  lemma ReceivingKeepsBegun(e: End, peer: End, p: Packet, e': End, out: seq<LspMsg>)
    requires Ends(e, peer) && Running(e) && PacketInv(p, peer) && Prompt(p, e)
    requires var eff := Receive(e.conn.value, p.msg); e' == e.(conn := Some(eff.conn)) && out == eff.out
    ensures Acked(e) <= Acked(e')
  {
    if p.msg.typ == MsgData {
      DataIsGood(e, peer, p, e', out);
    } else if p.msg.typ == MsgAck && SendBuf(e) != [] {
      AckIsGood(e, peer, p, e', out);
    }
  }

  lemma HandleKeepsBegun(w: World, s: Side, p: Packet, w': World)
    requires Inv(w) && Begun(w) && PacketInv(p, At(w, Peer(s))) && Prompt(p, At(w, s)) && w' == Handle(w, s, p.msg)
    ensures Begun(w')
  {
    if s == Server && Running(w.server) && p.msg.typ != MsgConnect {
      var eff := Receive(w.server.conn.value, p.msg);
      ReceivingKeepsBegun(w.server, w.client, p, w.server.(conn := Some(eff.conn)), eff.out);
    }
  }

  lemma DeliverKeepsBegun(w: World, d: Side, i: nat, keep: bool, w': World)
    requires Inv(w) && Begun(w) && i < |Chan(w, d)| && Timely(w, Deliver(d, i, keep))
    requires w' == Apply(w, Deliver(d, i, keep))
    ensures Begun(w')
  {
    var w1 := TakenOut(w, d, i, keep, w');
    HandleKeepsBegun(w1, d, Chan(w, d)[i], w');
  }

  lemma LocalKeepsBegun(w: World, step: Step, w': World)
    requires Inv(w) && Begun(w) && !step.Deliver? && !step.Drop? && w' == Apply(w, step)
    ensures Begun(w')
  {
    LocalIsGood(At(w, step.side), At(w, Peer(step.side)), step);
  }

  lemma StepKeepsBegun(w: World, step: Step, w': World)
    requires Inv(w) && Begun(w) && Timely(w, step) && w' == Apply(w, step)
    ensures Begun(w')
  {
    match step {
      case Deliver(d, i, keep) =>
        if i < |Chan(w, d)| {
          DeliverKeepsBegun(w, d, i, keep, w');
        }
      case Drop(d, i) =>
      case _ => LocalKeepsBegun(w, step, w');
    }
  }

  lemma {:induction false} RunKeepsBegun(w: World, steps: seq<Step>)
    requires Inv(w) && Begun(w) && AllTimely(w, steps)
    ensures Begun(Exec(w, steps)) && Inv(Exec(w, steps))
    decreases |steps|
  {
    if steps != [] {
      StepKeepsInv(w, steps[0]);
      StepKeepsBegun(w, steps[0], Apply(w, steps[0]));
      RunKeepsBegun(Apply(w, steps[0]), steps[1..]);
    }
  }

  // The packet acknowledges the front message, whose number is a multiple of 256, and
  // carries another id.
  predicate BringsAnotherId(p: Packet, e: End) {
    && Running(e) && SendBuf(e) != [] && p.msg.typ == MsgAck
    && p.num == Acked(e) + 1 && OfWrap(p.num) && p.msg.connId != e.conn.value.connId
  }

  lemma ReceivingChangesId(e: End, peer: End, p: Packet, e': End)
    requires Ends(e, peer) && Running(e) && PacketInv(p, peer) && Prompt(p, e) && 0 <= Acked(e)
    requires e' == e.(conn := Some(Receive(e.conn.value, p.msg).conn))
    ensures e'.conn.value.connId != e.conn.value.connId <==> BringsAnotherId(p, e)
  {
    if p.msg.typ == MsgAck && SendBuf(e) != [] {
      assert Carries(SendBuf(e)[0], Acked(e) + 1 + 0, e.sent);
      if p.msg.seqNum == SendBuf(e)[0].seqNum {
        SameByteSameNumber(Acked(e) + 1, p.num);
      }
    }
  }

  predicate Delivers(w: World, step: Step) { step.Deliver? && step.dest == Server && step.i < |w.toServer| }

  lemma StepChangesId(w: World, step: Step, w': World)
    requires Inv(w) && Begun(w) && Timely(w, step) && w' == Apply(w, step) && w.server.conn.Some?
    ensures w'.server.conn.Some?
    ensures w'.server.conn.value.connId != w.server.conn.value.connId <==>
              Delivers(w, step) && BringsAnotherId(w.toServer[step.i], w.server)
  {
    if Delivers(w, step) {
      var p := w.toServer[step.i];
      var w1 := TakenOut(w, Server, step.i, step.keep, w');
      if Running(w.server) && p.msg.typ != MsgConnect {
        ReceivingChangesId(w.server, w.client, p, w.server.(conn := Some(Receive(w.server.conn.value, p.msg).conn)));
      }
    }
  }

  // In every timely run, the id of the server's connection changes if and only if the ack
  // arrives that its front message waits for, the number of that message is a multiple of
  // 256, and the ack carries another id.
  lemma IdChangesIffAnotherArrives(id: ConnId, steps: seq<Step>, step: Step)
    requires id != 0 && AllTimely(Init(id), steps) && Timely(Exec(Init(id), steps), step)
    requires Exec(Init(id), steps).server.conn.Some?
    ensures var w := Exec(Init(id), steps); var w' := Apply(w, step);
      && w'.server.conn.Some?
      && (w'.server.conn.value.connId != w.server.conn.value.connId <==>
            Delivers(w, step) && BringsAnotherId(w.toServer[step.i], w.server))
  {
    InitInv(id);
    RunKeepsBegun(Init(id), steps);
    var w := Exec(Init(id), steps);
    StepChangesId(w, step, Apply(w, step));
  }

  // ------------------------------------------------------------------------------
  // It happens
  // ------------------------------------------------------------------------------

  // The server has sent k messages, all accepted and acknowledged, and the ack of the
  // client's CONNECT was lost. The client answers with the id it has, 0.
  function Unconfirmed(id: ConnId, k: nat, x: Payload): World {
    World(id,
          End(Some(Conn(0, [GenConnMsg(0)], Messages(id, k, x), 1, (k + 1) % 256, GenAckMsg(0, k % 256), false, false)),
              [], []),
          End(Some(Conn(if k < 256 then id else 0, [], [], (k + 1) % 256, 1, GenAckMsg(id, 0), false, false)),
              Copies(k, x), []),
          [], [])
  }

  const LOST_ACK: seq<Step> := [Deliver(Server, 0, false), Drop(Client, 0)]
  const ANSWERED: seq<Step> := [Deliver(Client, 0, false), Deliver(Server, 0, false)]

  function ManySteps(k: nat, x: Payload): seq<Step> {
    if k == 0 then LOST_ACK else ManySteps(k - 1, x) + ([Write(Server, x)] + ANSWERED)
  }

  lemma LostAckReaches(id: ConnId, x: Payload)
    requires id != 0
    ensures Exec(Init(id), LOST_ACK) == Unconfirmed(id, 0, x) && AllTimely(Init(id), LOST_ACK)
  {
    TwoSteps(Init(id), LOST_ACK[0], LOST_ACK[1]);
    var w1 := Apply(Init(id), LOST_ACK[0]);
    assert w1.toServer == [] && w1.toClient == [Packet(GenAckMsg(id, 0), 0)];
    var w2 := Apply(w1, LOST_ACK[1]);
    assert w2.toClient == [] && Messages(id, 0, x) == [] && Copies(0, x) == [];
    assert w2.client.conn.value.sendBuf == [GenConnMsg(0)];
  }

  // The world after the k-th message is written, and after it is accepted.
  function Written(id: ConnId, k: nat, x: Payload): World {
    var w := Unconfirmed(id, k, x);
    w.(server := End(Some(w.server.conn.value.(sendBuf := [DataMsg(id, k + 1, x)], nextSend := (k + 2) % 256)),
                     Copies(k + 1, x), []),
       toClient := [Packet(DataMsg(id, k + 1, x), k + 1)])
  }

  function AcceptedOne(id: ConnId, k: nat, x: Payload): World {
    Written(id, k, x).(client := Unconfirmed(id, k + 1, x).client, toClient := [],
                       toServer := [Packet(GenAckMsg(0, (k + 1) % 256), k + 1)])
  }

  lemma ServerWrites(id: ConnId, k: nat, x: Payload)
    requires id != 0 && k < 256
    ensures Apply(Unconfirmed(id, k, x), Write(Server, x)) == Written(id, k, x)
  {
    var w := Unconfirmed(id, k, x);
    assert Copies(k, x) + [x] == Copies(k + 1, x);
    var (e, out) := Local(w.server, Write(Server, x));
    assert [] + [DataMsg(id, k + 1, x)] == [DataMsg(id, k + 1, x)];
    assert GenDataMsg(id, 0, x).(seqNum := (k + 1) % 256) == DataMsg(id, k + 1, x);
    NextByte((k + 1) % 256, k + 1);
    assert out == [DataMsg(id, k + 1, x)] && e.conn.value.sendBuf == [DataMsg(id, k + 1, x)];
    assert Tag(e, out) == [Packet(DataMsg(id, k + 1, x), k + 1)];
  }

  lemma ClientAnswers(id: ConnId, k: nat, x: Payload)
    requires id != 0 && k < 256
    ensures Apply(Written(id, k, x), ANSWERED[0]) == AcceptedOne(id, k, x) && Timely(Written(id, k, x), ANSWERED[0])
  {
    var w := Written(id, k, x);
    assert Messages(id, k, x) + [DataMsg(id, k + 1, x)] == Messages(id, k + 1, x);
    NextByte((k + 1) % 256, k + 1);
    var eff := Receive(w.client.conn.value, DataMsg(id, k + 1, x));
    var e := w.client.(conn := Some(eff.conn));
    assert Tag(e, eff.out) == [Packet(GenAckMsg(0, (k + 1) % 256), k + 1)];
    assert Remove(w.toClient, 0) == [];
  }

  lemma ServerTakesAnswer(id: ConnId, k: nat, x: Payload)
    requires id != 0 && k < 256
    ensures Apply(AcceptedOne(id, k, x), ANSWERED[1]) == Unconfirmed(id, k + 1, x)
    ensures Timely(AcceptedOne(id, k, x), ANSWERED[1])
  {
    var w := AcceptedOne(id, k, x);
    var eff := Receive(w.server.conn.value, w.toServer[0].msg);
    assert eff.conn.sendBuf == [] && eff.out == [];
    assert eff.conn.connId == if (k + 1) % 256 == 0 then 0 else id;
    assert Remove(w.toServer, 0) == [];
    assert w.toClient + Tag(w.server.(conn := Some(eff.conn)), []) == [];
  }

  lemma {:induction false} UnconfirmedReachable(id: ConnId, k: nat, x: Payload)
    requires id != 0 && k <= 256
    ensures Exec(Init(id), ManySteps(k, x)) == Unconfirmed(id, k, x) && AllTimely(Init(id), ManySteps(k, x))
  {
    if k == 0 {
      LostAckReaches(id, x);
    } else {
      UnconfirmedReachable(id, k - 1, x);
      ServerWrites(id, k - 1, x);
      ClientAnswers(id, k - 1, x);
      ServerTakesAnswer(id, k - 1, x);
      ThreeSteps(Unconfirmed(id, k - 1, x), Write(Server, x), ANSWERED[0], ANSWERED[1]);
      assert [Write(Server, x)] + ANSWERED == [Write(Server, x), ANSWERED[0], ANSWERED[1]];
      ExecConcat(Init(id), ManySteps(k - 1, x), [Write(Server, x)] + ANSWERED);
    }
  }

  // The ack of CONNECT is lost, 256 messages of the server are answered with id 0, and the
  // ack of the last one sets the id of the server's connection to 0.
  lemma ServerLosesItsId(id: ConnId, x: Payload) returns (steps: seq<Step>)
    requires id != 0
    ensures AllTimely(Init(id), steps)
    ensures var w := Exec(Init(id), steps);
      w.server.conn.Some? && w.server.conn.value.connId == 0 && |w.server.sent| == 256 && SendBuf(w.server) == []
  {
    steps := ManySteps(256, x);
    UnconfirmedReachable(id, 256, x);
  }
}
