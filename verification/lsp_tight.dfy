// The assumption on lags is tight: an endpoint takes a late packet for the one it expects
// exactly when it is a positive multiple of 256 messages late, and one such packet, of
// data or an ack, every other delivery prompt, breaks delivery.

module LspTight {
  import opened Wrappers
  import opened LspConn
  import opened LspNet
  import opened LspRuns

  lemma SameByteIffMultiple(b: Byte, c: Byte, expected: int, num: int)
    requires b == expected % 256 && c == num % 256
    ensures b == c <==> (expected - num) % 256 == 0
  {
  }

  // Whatever arrives, and however late: data is accepted, and an ack removes the front
  // message, if and only if the lag is a multiple of 256. The right lag is 0.
  lemma TakenIffLagIsAMultiple(e: End, peer: End, p: Packet)
    requires Ends(e, peer) && Running(e) && PacketInv(p, peer)
    ensures p.msg.typ == MsgData ==>
              (|ReceiveData(e.conn.value, p.msg).conn.recvBuf| > |RecvBuf(e)| <==> (Accepted(e) + 1 - p.num) % 256 == 0)
    ensures p.msg.typ == MsgAck && SendBuf(e) != [] ==>
              (|ReceiveAck(e.conn.value, p.msg).conn.sendBuf| < |SendBuf(e)| <==> (Acked(e) + 1 - p.num) % 256 == 0)
  {
    if p.msg.typ == MsgData {
      SameByteIffMultiple(e.conn.value.nextRecv, p.msg.seqNum, Accepted(e) + 1, p.num);
    } else if p.msg.typ == MsgAck && SendBuf(e) != [] {
      assert Carries(SendBuf(e)[0], Acked(e) + 1 + 0, e.sent);
      SameByteIffMultiple(SendBuf(e)[0].seqNum, p.msg.seqNum, Acked(e) + 1, p.num);
    }
  }

  function DataMsg(id: ConnId, k: int, x: Payload): LspMsg { GenDataMsg(id, k % 256, x) }

  function Messages(id: ConnId, k: nat, x: Payload): (ms: seq<LspMsg>)
    ensures |ms| == k
  {
    seq(k, i => DataMsg(id, i + 1, x))
  }

  function Copies(k: nat, x: Payload): (ps: seq<Payload>)
    ensures |ps| == k
  {
    seq(k, i => x)
  }

  // Client writes x k times, each message accepted and acknowledged; the network still
  // holds a copy of the first data packet and of the first ack.
  function Stage(id: ConnId, k: nat, x: Payload): World {
    World(id,
          End(Some(Conn(id, [], [], (k + 1) % 256, 1, GenAckMsg(0, 0), false, false)), Copies(k, x), []),
          End(Some(Conn(id, [], Messages(id, k, x), 1, (k + 1) % 256, GenAckMsg(id, k % 256), false, false)), [], []),
          if k == 0 then [] else [Packet(DataMsg(id, 1, x), 1)],
          if k == 0 then [] else [Packet(GenAckMsg(id, 1), 1)])
  }

  // One more message: written, delivered, acknowledged.
  function Cycle(k: nat, x: Payload): seq<Step> {
    if k == 0 then [Write(Client, x), Deliver(Server, 0, true), Deliver(Client, 0, true)]
    else [Write(Client, x), Deliver(Server, 1, false), Deliver(Client, 1, false)]
  }

  const CONNECTING: seq<Step> := [Deliver(Server, 0, false), Deliver(Client, 0, false)]

  function StageSteps(k: nat, x: Payload): seq<Step> {
    if k == 0 then CONNECTING else StageSteps(k - 1, x) + Cycle(k - 1, x)
  }

  lemma {:induction false} ExecConcat(w: World, a: seq<Step>, b: seq<Step>)
    ensures Exec(w, a + b) == Exec(Exec(w, a), b)
    ensures AllTimely(w, a + b) <==> AllTimely(w, a) && AllTimely(Exec(w, a), b)
    decreases |a|
  {
    if a == [] {
      assert a + b == b;
    } else {
      assert (a + b)[0] == a[0] && (a + b)[1..] == a[1..] + b;
      ExecConcat(Apply(w, a[0]), a[1..], b);
    }
  }

  lemma TwoSteps(w: World, a: Step, b: Step)
    ensures Exec(w, [a, b]) == Apply(Apply(w, a), b)
    ensures AllTimely(w, [a, b]) <==> Timely(w, a) && Timely(Apply(w, a), b)
  {
    var w1 := Apply(w, a);
    assert [a, b][1..] == [b] && [b][1..] == [];
    assert Exec(w, [a, b]) == Exec(w1, [b]) == Exec(Apply(w1, b), []);
    assert AllTimely(w1, [b]) <==> Timely(w1, b) && AllTimely(Apply(w1, b), []);
  }

  lemma ThreeSteps(w: World, a: Step, b: Step, c: Step)
    ensures Exec(w, [a, b, c]) == Apply(Apply(Apply(w, a), b), c)
    ensures AllTimely(w, [a, b, c]) <==>
              Timely(w, a) && Timely(Apply(w, a), b) && Timely(Apply(Apply(w, a), b), c)
  {
    assert [a, b, c][1..] == [b, c];
    TwoSteps(Apply(w, a), b, c);
  }

  lemma ConnectingReachesStage0(id: ConnId, x: Payload)
    requires id != 0
    ensures Exec(Init(id), CONNECTING) == Stage(id, 0, x) && AllTimely(Init(id), CONNECTING)
  {
    TwoSteps(Init(id), CONNECTING[0], CONNECTING[1]);
    var w1 := Apply(Init(id), CONNECTING[0]);
    assert w1.toServer == [] && w1.toClient == [Packet(GenAckMsg(id, 0), 0)];
    var w2 := Apply(w1, CONNECTING[1]);
    assert w2.toServer == [] && w2.toClient == [];
    assert w2.client.conn.value.sendBuf == [];
  }

  // The three states of a cycle, spelled out.
  lemma CycleWrite(id: ConnId, k: nat, x: Payload)
    requires id != 0
    ensures var w := Stage(id, k, x); var w1 := Apply(w, Write(Client, x));
      && w1.client == End(Some(w.client.conn.value.(sendBuf := [DataMsg(id, k + 1, x)], nextSend := (k + 2) % 256)),
                          Copies(k + 1, x), [])
      && w1.server == w.server && w1.serverId == id && w1.toClient == w.toClient
      && w1.toServer == w.toServer + [Packet(DataMsg(id, k + 1, x), k + 1)]
  {
    var w := Stage(id, k, x);
    var w1 := Apply(w, Write(Client, x));
    assert Copies(k, x) + [x] == Copies(k + 1, x);
    var (e, out) := Local(w.client, Write(Client, x));
    assert [] + [DataMsg(id, k + 1, x)] == [DataMsg(id, k + 1, x)];
    assert GenDataMsg(id, 0, x).(seqNum := (k + 1) % 256) == DataMsg(id, k + 1, x);
    NextByte((k + 1) % 256, k + 1);
    assert out == [DataMsg(id, k + 1, x)];
    assert e.conn.value.sendBuf == [DataMsg(id, k + 1, x)];
    assert Tag(e, out) == [Packet(DataMsg(id, k + 1, x), k + 1)];
  }

  lemma CycleAccept(id: ConnId, k: nat, x: Payload, w1: World, i: nat, keep: bool)
    requires w1.serverId == id != 0 && w1.server == Stage(id, k, x).server
    requires i < |w1.toServer| && w1.toServer[i] == Packet(DataMsg(id, k + 1, x), k + 1)
    ensures var w2 := Apply(w1, Deliver(Server, i, keep));
      && w2.server == Stage(id, k + 1, x).server && w2.client == w1.client && w2.serverId == id
      && w2.toServer == (if keep then w1.toServer else Remove(w1.toServer, i))
      && w2.toClient == w1.toClient + [Packet(GenAckMsg(id, (k + 1) % 256), k + 1)]
    ensures Timely(w1, Deliver(Server, i, keep))
  {
    assert Messages(id, k, x) + [DataMsg(id, k + 1, x)] == Messages(id, k + 1, x);
    var eff := Receive(w1.server.conn.value, DataMsg(id, k + 1, x));
    var e := w1.server.(conn := Some(eff.conn));
    assert Tag(e, eff.out) == [Packet(GenAckMsg(id, (k + 1) % 256), k + 1)];
  }

  lemma CycleAcked(id: ConnId, k: nat, x: Payload, w2: World, i: nat, keep: bool)
    requires w2.serverId == id != 0
    requires w2.client == End(Some(Stage(id, k, x).client.conn.value.(
                                     sendBuf := [DataMsg(id, k + 1, x)], nextSend := (k + 2) % 256)),
                                         Copies(k + 1, x), [])
    requires i < |w2.toClient| && w2.toClient[i] == Packet(GenAckMsg(id, (k + 1) % 256), k + 1)
    ensures var w3 := Apply(w2, Deliver(Client, i, keep));
      && w3.client == Stage(id, k + 1, x).client && w3.server == w2.server && w3.serverId == id
      && w3.toServer == w2.toServer
      && w3.toClient == if keep then w2.toClient else Remove(w2.toClient, i)
    ensures Timely(w2, Deliver(Client, i, keep))
  {
    var eff := Receive(w2.client.conn.value, w2.toClient[i].msg);
    assert eff.conn.sendBuf == [] && eff.out == [];
    assert w2.toServer + Tag(w2.client.(conn := Some(eff.conn)), []) == w2.toServer;
  }

  lemma CycleReachesNextStage(id: ConnId, k: nat, x: Payload)
    requires id != 0
    ensures Exec(Stage(id, k, x), Cycle(k, x)) == Stage(id, k + 1, x)
    ensures AllTimely(Stage(id, k, x), Cycle(k, x))
  {
    var w := Stage(id, k, x);
    var i := if k == 0 then 0 else 1;
    var w1 := Apply(w, Write(Client, x));
    CycleWrite(id, k, x);
    var w2 := Apply(w1, Deliver(Server, i, k == 0));
    CycleAccept(id, k, x, w1, i, k == 0);
    CycleAcked(id, k, x, w2, i, k == 0);
    ThreeSteps(w, Write(Client, x), Deliver(Server, i, k == 0), Deliver(Client, i, k == 0));
  }

  lemma {:induction false} StageReachable(id: ConnId, k: nat, x: Payload)
    requires id != 0
    ensures Exec(Init(id), StageSteps(k, x)) == Stage(id, k, x) && AllTimely(Init(id), StageSteps(k, x))
  {
    if k == 0 {
      ConnectingReachesStage0(id, x);
    } else {
      StageReachable(id, k - 1, x);
      CycleReachesNextStage(id, k - 1, x);
      ExecConcat(Init(id), StageSteps(k - 1, x), Cycle(k - 1, x));
    }
  }

  // How far behind its receiver a delivered packet is.
  function Lag(w: World, step: Step): int
    requires step.Deliver? && step.i < |Chan(w, step.dest)|
  {
    var p := Chan(w, step.dest)[step.i];
    if p.msg.typ == MsgAck then Acked(At(w, step.dest)) + 1 - p.num else Accepted(At(w, step.dest)) + 1 - p.num
  }

  // After 256 messages, the kept copy of data 1 is accepted again: the server then has
  // 257 messages of the 256 that were written.
  lemma LateDataIsAcceptedAgain(id: ConnId, x: Payload) returns (steps: seq<Step>, last: Step)
    requires id != 0
    ensures AllTimely(Init(id), steps)
    ensures var w := Exec(Init(id), steps);
      && last.Deliver? && last.i < |Chan(w, last.dest)| && Lag(w, last) == 256
      && |w.client.sent| == 256 && |Delivered(Apply(w, last).server)| == 257
      && !ExactlyOnceInOrder(Apply(w, last))
  {
    steps, last := StageSteps(256, x), Deliver(Server, 0, true);
    StageReachable(id, 256, x);
    var w := Stage(id, 256, x);
    var eff := Receive(w.server.conn.value, w.toServer[0].msg);
    assert eff.conn.recvBuf == w.server.conn.value.recvBuf + [w.toServer[0].msg];
  }

  // With message 257 waiting, the kept copy of ack 1 discards it unheard: the send
  // buffer is empty and the server never got the message.
  lemma LateAckLosesAMessage(id: ConnId, x: Payload) returns (steps: seq<Step>, last: Step)
    requires id != 0
    ensures AllTimely(Init(id), steps)
    ensures var w := Exec(Init(id), steps);
      && last.Deliver? && last.i < |Chan(w, last.dest)| && Lag(w, last) == 256
      && SendBuf(Apply(w, last).client) == []
      && |Apply(w, last).client.sent| == 257 && |Delivered(Apply(w, last).server)| == 256
      && !ExactlyOnceInOrder(Apply(w, last))
  {
    steps, last := StageSteps(256, x) + [Write(Client, x)], Deliver(Client, 0, true);
    StageReachable(id, 256, x);
    ExecConcat(Init(id), StageSteps(256, x), [Write(Client, x)]);
    var w := Apply(Stage(id, 256, x), Write(Client, x));
    assert Exec(Stage(id, 256, x), [Write(Client, x)]) == w;
    CycleWrite(id, 256, x);
    assert w.toClient[0] == Packet(GenAckMsg(id, 1), 1);
    var eff := Receive(w.client.conn.value, w.toClient[0].msg);
    assert eff.conn.sendBuf == [] && eff.out == [];
  }
}
