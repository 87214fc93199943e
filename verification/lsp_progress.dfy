// Progress: a resend whose packet and ack arrive acknowledges exactly one more message,
// from every state a run can reach, if and only if the peer has not completed its close.

module LspProgress {
  import opened Wrappers
  import opened LspConn
  import opened LspNet
  import opened LspRuns
  import opened LspTight

  // Blocked on the close-completion send.
  predicate Done(e: End) { e.conn.Some? && e.conn.value.done }

  // One epoch at s whose front message arrives.
  function Resend(w: World, s: Side): World {
    Apply(Apply(w, Tick(s)), Deliver(Peer(s), |Chan(w, Peer(s))|, false))
  }

  // From w to w1 the peer of s has written or not; its last packet, if it has, arrives.
  function Return(w: World, w1: World, s: Side): World {
    if |Chan(w1, s)| <= |Chan(w, s)| then w1 else Apply(w1, Deliver(s, |Chan(w1, s)| - 1, false))
  }

  // A CONNECT that reaches an existing connection is ignored: its ack has to be repeated
  // by an epoch of the peer.
  predicate IgnoredConnect(w: World, s: Side)
    requires SendBuf(At(w, s)) != []
  {
    SendBuf(At(w, s))[0].typ == MsgConnect && At(w, Peer(s)).conn.Some?
  }

  // The resend and the ack its arrival brings; whatever else is in flight stays in flight.
  function Round(w: World, s: Side): World
    requires SendBuf(At(w, s)) != []
  {
    var w2 := Resend(w, s);
    if IgnoredConnect(w, s) then Return(w2, Apply(w2, Tick(Peer(s))), s) else Return(w, w2, s)
  }

  // The packet is the message s resends.
  predicate IsFront(p: Packet, e: End) {
    SendBuf(e) != [] && p.msg == SendBuf(e)[0] && p.msg.typ != MsgAck && p.num == Acked(e) + 1
  }

  lemma FrontIsWritten(e: End, peer: End, ps: seq<Packet>)
    requires Ends(e, peer) && SendBuf(e) != []
    ensures var ps' := ps + Tag(e, Epoch(e.conn.value).out);
      |ps| < |ps'| && IsFront(ps'[|ps|], e)
  {
    assert Carries(SendBuf(e)[0], Acked(e) + 1 + 0, e.sent);
    assert (ps + Tag(e, Epoch(e.conn.value).out))[|ps|] == Tag(e, Epoch(e.conn.value).out)[0];
  }

  lemma EpochWrites(w: World, s: Side, w1: World)
    requires Inv(w) && SendBuf(At(w, s)) != [] && w1 == Apply(w, Tick(s))
    ensures Inv(w1) && At(w1, s) == At(w, s) && At(w1, Peer(s)) == At(w, Peer(s)) && Chan(w1, s) == Chan(w, s)
    ensures |Chan(w, Peer(s))| < |Chan(w1, Peer(s))| && IsFront(Chan(w1, Peer(s))[|Chan(w, Peer(s))|], At(w, s))
  {
    StepKeepsInv(w, Tick(s));
    FrontIsWritten(At(w, s), At(w, Peer(s)), Chan(w, Peer(s)));
  }

  // What the arrival of the front message does to the peer.
  lemma FrontAccepted(e: End, peer: End, p: Packet, peer': End, out: seq<LspMsg>)
    requires Ends(peer, e) && Running(peer) && PacketInv(p, e) && p.msg.typ == MsgData && p.num == Acked(e) + 1
    requires var eff := Receive(peer.conn.value, p.msg); peer' == peer.(conn := Some(eff.conn)) && out == eff.out
    ensures Accepted(peer') == p.num && !Done(peer') && peer'.conn.Some? && peer'.sent == peer.sent
  {
    DataIsGood(peer, e, p, peer', out);
  }

  // What s and its peer are once the front message has arrived.
  predicate FrontTaken(e: End, peer: End, e': End, peer': End) {
    && e' == e && peer'.sent == peer.sent
    && if Done(peer) then peer' == peer
       else Accepted(peer') == Acked(e) + 1 && !Done(peer') && peer'.conn.Some?
  }

  lemma HandledFront(w: World, s: Side, p: Packet, w': World)
    requires Inv(w) && PacketInv(p, At(w, s)) && IsFront(p, At(w, s)) && w' == Handle(w, Peer(s), p.msg)
    ensures FrontTaken(At(w, s), At(w, Peer(s)), At(w', s), At(w', Peer(s)))
    ensures Done(At(w, Peer(s))) ==> w' == w
    ensures !Done(At(w, Peer(s))) && !IgnoredConnect(w, s) ==> BringsAck(Chan(w, s), Chan(w', s), At(w', Peer(s)))
  {
    var d := Peer(s);
    var peer := At(w, d);
    if Running(peer) && p.msg.typ == MsgData {
      var eff := Receive(peer.conn.value, p.msg);
      FrontAccepted(At(w, s), peer, p, peer.(conn := Some(eff.conn)), eff.out);
      HandledData(w, d, p, w');
    }
  }

  // One packet has been written, an ack of everything e has accepted.
  predicate BringsAck(before: seq<Packet>, after: seq<Packet>, e: End) {
    && |after| == |before| + 1 && after[..|before|] == before
    && after[|before|].msg.typ == MsgAck && after[|before|].num == Accepted(e)
  }

  lemma HandledData(w: World, d: Side, p: Packet, w': World)
    requires Inv(w) && Running(At(w, d)) && p.msg.typ == MsgData && w' == Handle(w, d, p.msg)
    ensures BringsAck(Chan(w, Peer(d)), Chan(w', Peer(d)), At(w', d))
  {
  }

  // Every data packet that reaches a running endpoint, expected, repeated or late, is
  // answered at once.
  lemma DataIsAnswered(w: World, d: Side, i: nat, keep: bool, w': World)
    requires Inv(w) && Running(At(w, d)) && i < |Chan(w, d)| && Chan(w, d)[i].msg.typ == MsgData
    requires w' == Apply(w, Deliver(d, i, keep))
    ensures BringsAck(Chan(w, Peer(d)), Chan(w', Peer(d)), At(w', d))
  {
    var w1 := TakenOut(w, d, i, keep, w');
    HandledData(w1, d, Chan(w, d)[i], w');
  }

  // One packet has been written, the message e now waits for; none if it waits for none.
  predicate BringsFront(before: seq<Packet>, after: seq<Packet>, e: End) {
    if SendBuf(e) == [] then after == before
    else |after| == |before| + 1 && after[..|before|] == before && IsFront(after[|before|], e)
  }

  lemma AckWritesFront(e: End, msg: LspMsg, eff: Effect, e': End)
    requires e.conn.Some? && msg.typ == MsgAck && eff == Receive(e.conn.value, msg)
    requires e' == e.(conn := Some(eff.conn))
    ensures eff.out == if SendBuf(e') == [] then [] else [SendBuf(e')[0]]
  {
  }

  lemma FrontIsBrought(ps: seq<Packet>, e: End, peer: End, out: seq<LspMsg>)
    requires StreamInv(e, peer) && out == if SendBuf(e) == [] then [] else [SendBuf(e)[0]]
    ensures BringsFront(ps, ps + Tag(e, out), e)
  {
    if SendBuf(e) != [] {
      assert Carries(SendBuf(e)[0], Acked(e) + 1 + 0, e.sent);
    } else {
      assert ps + Tag(e, out) == ps;
    }
  }

  lemma HandledAnyAck(w: World, s: Side, p: Packet, w': World)
    requires Running(At(w, s)) && p.msg.typ == MsgAck && w' == Handle(w, s, p.msg)
    requires StreamInv(At(w', s), At(w', Peer(s)))
    ensures BringsFront(Chan(w, Peer(s)), Chan(w', Peer(s)), At(w', s))
  {
    var eff := Receive(At(w, s).conn.value, p.msg);
    var e' := At(w, s).(conn := Some(eff.conn));
    assert w' == Emit(w, s, e', eff.out);
    AckWritesFront(At(w, s), p.msg, eff, e');
    FrontIsBrought(Chan(w, Peer(s)), e', At(w', Peer(s)), eff.out);
  }

  // Every timely ack that reaches a running endpoint has it write the message it then waits
  // for: after an accepted ack the next one, without an epoch.
  lemma AckBringsFront(w: World, s: Side, i: nat, keep: bool, w': World)
    requires Inv(w) && Running(At(w, s)) && i < |Chan(w, s)| && Chan(w, s)[i].msg.typ == MsgAck
    requires Timely(w, Deliver(s, i, keep)) && w' == Apply(w, Deliver(s, i, keep))
    ensures BringsFront(Chan(w, Peer(s)), Chan(w', Peer(s)), At(w', s))
  {
    DeliverKeepsInv(w, s, i, keep, w');
    var w1 := TakenOut(w, s, i, keep, w');
    HandledAnyAck(w1, s, Chan(w, s)[i], w');
  }

  lemma FrontIsPrompt(e: End, peer: End, p: Packet)
    requires Ends(e, peer) && IsFront(p, e)
    ensures Prompt(p, peer)
  {
  }

  lemma FrontArrives(w: World, s: Side, i: nat, w': World)
    requires Inv(w) && i < |Chan(w, Peer(s))| && IsFront(Chan(w, Peer(s))[i], At(w, s))
    requires w' == Apply(w, Deliver(Peer(s), i, false))
    ensures Inv(w') && FrontTaken(At(w, s), At(w, Peer(s)), At(w', s), At(w', Peer(s)))
    ensures Done(At(w, Peer(s))) ==> Chan(w', s) == Chan(w, s)
    ensures !Done(At(w, Peer(s))) && !IgnoredConnect(w, s) ==> BringsAck(Chan(w, s), Chan(w', s), At(w', Peer(s)))
  {
    var d := Peer(s);
    FrontIsPrompt(At(w, s), At(w, d), Chan(w, d)[i]);
    DeliverKeepsInv(w, d, i, false, w');
    var w1 := TakenOut(w, d, i, false, w');
    HandledFront(w1, s, Chan(w, d)[i], w');
  }

  // The peer's epoch ended with its last ack, unless it is blocked.
  predicate Answered(w: World, d: Side, w': World) {
    && Inv(w') && At(w', d) == At(w, d) && At(w', Peer(d)) == At(w, Peer(d))
    && (Done(At(w, d)) ==> |Chan(w', Peer(d))| == |Chan(w, Peer(d))|)
    && (!Done(At(w, d)) ==>
          && |Chan(w', Peer(d))| > |Chan(w, Peer(d))|
          && var p := Chan(w', Peer(d))[|Chan(w', Peer(d))| - 1];
             p.msg.typ == MsgAck && p.num == Accepted(At(w, d)))
  }

  lemma PeerAnswers(w: World, d: Side, w': World)
    requires Inv(w) && At(w, d).conn.Some? && w' == Apply(w, Tick(d))
    ensures Answered(w, d, w')
  {
    StepKeepsInv(w, Tick(d));
    var e := At(w, d);
    var (e', out) := Local(e, Tick(d));
    assert w' == Emit(w, d, e', out);
    if !Done(e) {
      assert (Chan(w, Peer(d)) + Tag(e, out))[|Chan(w, Peer(d))| + |out| - 1] == Tag(e, out)[|out| - 1];
    }
  }

  lemma HandledAck(w: World, s: Side, p: Packet, w': World)
    requires w' == Handle(w, s, p.msg)
    requires Inv(w) && PacketInv(p, At(w, Peer(s))) && IsNextAck(p, At(w, s))
    ensures Acked(At(w', s)) == p.num && At(w', s).sent == At(w, s).sent && At(w', s).conn.Some?
    ensures At(w', Peer(s)) == At(w, Peer(s))
  {
    var e := At(w, s);
    var eff := Receive(e.conn.value, p.msg);
    AckTaken(e, At(w, Peer(s)), p, e.(conn := Some(eff.conn)), eff.out);
  }

  lemma AckTaken(e: End, peer: End, p: Packet, e': End, out: seq<LspMsg>)
    requires Ends(e, peer) && PacketInv(p, peer) && IsNextAck(p, e)
    requires var eff := Receive(e.conn.value, p.msg); e' == e.(conn := Some(eff.conn)) && out == eff.out
    ensures Acked(e') == p.num && e'.sent == e.sent && e'.conn.Some?
  {
    AckIsGood(e, peer, p, e', out);
  }

  // The packet acknowledges the message s resends.
  predicate IsNextAck(p: Packet, e: End) { SendBuf(e) != [] && p.msg.typ == MsgAck && p.num == Acked(e) + 1 }

  lemma AckArrives(w: World, s: Side, i: nat, w': World)
    requires Inv(w) && i < |Chan(w, s)| && IsNextAck(Chan(w, s)[i], At(w, s))
    requires w' == Apply(w, Deliver(s, i, false))
    ensures Inv(w') && At(w', Peer(s)) == At(w, Peer(s))
    ensures Acked(At(w', s)) == Acked(At(w, s)) + 1 && At(w', s).sent == At(w, s).sent && At(w', s).conn.Some?
  {
    DeliverKeepsInv(w, s, i, false, w');
    var w1 := TakenOut(w, s, i, false, w');
    HandledAck(w1, s, Chan(w, s)[i], w');
  }

  lemma FrontNumber(e: End, peer: End)
    requires StreamInv(e, peer) && SendBuf(e) != []
    ensures Carries(SendBuf(e)[0], Acked(e) + 1, e.sent)
  {
    assert Carries(SendBuf(e)[0], Acked(e) + 1 + 0, e.sent);
  }

  // In particular message Acked + 1 goes out in the step in which Acked is raised.
  lemma NextMessageGoesOutAtOnce(w: World, s: Side, i: nat, w': World)
    requires Inv(w) && Running(At(w, s)) && i < |Chan(w, s)| && IsNextAck(Chan(w, s)[i], At(w, s))
    requires |SendBuf(At(w, s))| > 1 && w' == Apply(w, Deliver(s, i, false))
    ensures var ps, ps' := Chan(w, Peer(s)), Chan(w', Peer(s));
      && Acked(At(w', s)) == Acked(At(w, s)) + 1
      && |ps'| == |ps| + 1 && ps'[|ps|].num == Acked(At(w', s)) + 1
      && Carries(ps'[|ps|].msg, Acked(At(w', s)) + 1, At(w, s).sent)
  {
    AckArrives(w, s, i, w');
    assert Timely(w, Deliver(s, i, false));
    AckBringsFront(w, s, i, false, w');
    FrontNumber(At(w', s), At(w', Peer(s)));
  }

  // What k rounds make of a world.
  predicate AfterRounds(w: World, s: Side, k: nat, w': World) {
    && Inv(w') && At(w', s).conn.Some?
    && At(w', s).sent == At(w, s).sent && At(w', Peer(s)).sent == At(w, Peer(s)).sent
    && Done(At(w', Peer(s))) == Done(At(w, Peer(s)))
    && Acked(At(w', s)) == Acked(At(w, s)) + if Done(At(w, Peer(s))) then 0 else k
  }

  lemma ResendArrives(w: World, s: Side, w2: World)
    requires Inv(w) && SendBuf(At(w, s)) != [] && w2 == Resend(w, s)
    ensures Inv(w2) && FrontTaken(At(w, s), At(w, Peer(s)), At(w2, s), At(w2, Peer(s)))
    ensures Done(At(w, Peer(s))) ==> Chan(w2, s) == Chan(w, s)
    ensures !Done(At(w, Peer(s))) && !IgnoredConnect(w, s) ==> BringsAck(Chan(w, s), Chan(w2, s), At(w2, Peer(s)))
  {
    var w1 := Apply(w, Tick(s));
    EpochWrites(w, s, w1);
    FrontArrives(w1, s, |Chan(w, Peer(s))|, w2);
  }

  // The ack comes home.
  lemma ReturnAdvances(w: World, s: Side, w2: World, w3: World, w': World)
    requires SendBuf(At(w, s)) != [] && Inv(w3) && w' == Return(w2, w3, s)
    requires FrontTaken(At(w, s), At(w, Peer(s)), At(w3, s), At(w3, Peer(s)))
    requires Done(At(w3, Peer(s))) ==> |Chan(w3, s)| == |Chan(w2, s)|
    requires !Done(At(w3, Peer(s))) ==>
               && |Chan(w3, s)| > |Chan(w2, s)|
               && var p := Chan(w3, s)[|Chan(w3, s)| - 1]; p.msg.typ == MsgAck && p.num == Accepted(At(w3, Peer(s)))
    ensures AfterRounds(w, s, 1, w')
  {
    if !Done(At(w3, Peer(s))) {
      AckArrives(w3, s, |Chan(w3, s)| - 1, w');
    }
    RoundIsDone(w, s, At(w3, s), At(w3, Peer(s)), w');
  }

  // From every state of a timely run with something to send: the round acknowledges
  // exactly one more message if the peer has not completed its close, and none if it has.
  lemma RoundAdvances(w: World, s: Side) returns (w': World)
    requires Inv(w) && SendBuf(At(w, s)) != []
    ensures IsRound(w, s, w') && AfterRounds(w, s, 1, w')
    ensures |SendBuf(At(w', s))| < |SendBuf(At(w, s))| <==> !Done(At(w, Peer(s)))
  {
    var w2 := Resend(w, s);
    ResendArrives(w, s, w2);
    w' := Round(w, s);
    if IgnoredConnect(w, s) {
      ConnectIsAnsweredLater(w, s, w2, Apply(w2, Tick(Peer(s))), w');
    } else {
      ReturnAdvances(w, s, w, w2, w');
    }
  }

  lemma ConnectIsAnsweredLater(w: World, s: Side, w2: World, w3: World, w': World)
    requires SendBuf(At(w, s)) != [] && At(w2, Peer(s)).conn.Some? && Inv(w2)
    requires FrontTaken(At(w, s), At(w, Peer(s)), At(w2, s), At(w2, Peer(s)))
    requires w3 == Apply(w2, Tick(Peer(s))) && w' == Return(w2, w3, s)
    ensures AfterRounds(w, s, 1, w')
  {
    PeerAnswers(w2, Peer(s), w3);
    ReturnAdvances(w, s, w2, w3, w');
  }

  // Step by step for data: an epoch of s, the arrival of the packet it resends, first time
  // or not, and the arrival of the one packet this brings. The peer has no epoch.
  lemma ResendIsAnsweredAtOnce(w: World, s: Side) returns (w1: World, w2: World, w3: World)
    requires Inv(w) && SendBuf(At(w, s)) != [] && SendBuf(At(w, s))[0].typ == MsgData && !Done(At(w, Peer(s)))
    ensures w1 == Apply(w, Tick(s)) && w2 == Apply(w1, Deliver(Peer(s), |Chan(w, Peer(s))|, false))
    ensures w3 == Apply(w2, Deliver(s, |Chan(w, s)|, false)) && |Chan(w2, s)| == |Chan(w, s)| + 1
    ensures Acked(At(w3, s)) == Acked(At(w, s)) + 1
  {
    w1 := Apply(w, Tick(s));
    w2 := Resend(w, s);
    ResendArrives(w, s, w2);
    w3 := Return(w, w2, s);
    ReturnAdvances(w, s, w, w2, w3);
  }

  // e2 and peer2: the two ends when the front message has arrived.
  lemma RoundIsDone(w: World, s: Side, e2: End, peer2: End, w': World)
    requires SendBuf(At(w, s)) != [] && Inv(w')
    requires FrontTaken(At(w, s), At(w, Peer(s)), e2, peer2) && At(w', Peer(s)) == peer2
    requires if Done(peer2) then At(w', s) == e2
             else Acked(At(w', s)) == Acked(e2) + 1 && At(w', s).sent == e2.sent && At(w', s).conn.Some?
    ensures AfterRounds(w, s, 1, w')
  {
  }

  predicate IsRound(w: World, s: Side, w': World) { SendBuf(At(w, s)) != [] && w' == Round(w, s) }

  // ws[0], ws[1], ... with one round from each to the next.
  predicate AreRounds(ws: seq<World>, s: Side) {
    ws != [] && (|ws| > 1 ==> IsRound(ws[0], s, ws[1]) && AreRounds(ws[1..], s))
  }

  lemma {:induction false} RoundsEmptyTheBuffer(w: World, s: Side, k: nat) returns (ws: seq<World>)
    requires Inv(w) && At(w, s).conn.Some? && k <= |SendBuf(At(w, s))|
    ensures AreRounds(ws, s) && |ws| == k + 1 && ws[0] == w && AfterRounds(w, s, k, ws[k])
    ensures |SendBuf(At(ws[k], s))| == |SendBuf(At(w, s))| - if Done(At(w, Peer(s))) then 0 else k
    decreases k
  {
    if k == 0 {
      ws := [w];
    } else {
      var w1 := RoundAdvances(w, s);
      var rest := RoundsEmptyTheBuffer(w1, s, k - 1);
      OneRoundMore(w, s, k, w1, rest[k - 1]);
      PrependRound(w, s, rest);
      ws := [w] + rest;
    }
  }

  lemma PrependRound(w: World, s: Side, ws: seq<World>)
    requires AreRounds(ws, s) && IsRound(w, s, ws[0])
    ensures AreRounds([w] + ws, s)
  {
    assert ([w] + ws)[1..] == ws;
  }

  lemma OneRoundMore(w: World, s: Side, k: nat, w1: World, w': World)
    requires k >= 1 && AfterRounds(w, s, 1, w1) && AfterRounds(w1, s, k - 1, w')
    ensures AfterRounds(w, s, k, w')
  {
  }

  // The buffer of s is empty, exactly if the peer has not completed its close or there was
  // nothing to send, and the peer then has everything.
  predicate Emptied(w: World, s: Side, w': World) {
    && (SendBuf(At(w', s)) == [] <==> !Done(At(w, Peer(s))) || SendBuf(At(w, s)) == [])
    && At(w', s).sent == At(w, s).sent
    && (SendBuf(At(w', s)) == [] ==> Delivered(At(w', Peer(s))) == At(w, s).sent)
  }

  lemma RoundsDeliver(w: World, s: Side) returns (ws: seq<World>)
    requires Inv(w) && At(w, s).conn.Some?
    ensures AreRounds(ws, s) && |ws| == |SendBuf(At(w, s))| + 1 && ws[0] == w && Emptied(w, s, ws[|ws| - 1])
  {
    ws := RoundsEmptyTheBuffer(w, s, |SendBuf(At(w, s))|);
    EmptyMeansDelivered(ws[|ws| - 1], s);
  }

  // After any timely run, as many rounds as there are waiting messages empty the buffer
  // if and only if the peer has not completed its close (or there were none); it then
  // has everything.
  lemma EveryMessageArrives(id: ConnId, steps: seq<Step>, s: Side) returns (ws: seq<World>)
    requires id != 0 && AllTimely(Init(id), steps) && At(Exec(Init(id), steps), s).conn.Some?
    ensures var w := Exec(Init(id), steps);
      AreRounds(ws, s) && |ws| == |SendBuf(At(w, s))| + 1 && ws[0] == w && Emptied(w, s, ws[|ws| - 1])
  {
    InitInv(id);
    TimelyRunKeepsInv(Init(id), steps);
    ws := RoundsDeliver(Exec(Init(id), steps), s);
  }

  lemma EmptyMeansDelivered(w: World, s: Side)
    requires Inv(w)
    ensures SendBuf(At(w, s)) == [] && At(w, s).conn.Some? ==> Delivered(At(w, Peer(s))) == At(w, s).sent
  {
  }

  // ------------------------------------------------------------------------------
  // A peer that has completed its close
  // ------------------------------------------------------------------------------

  lemma DoneStaysPut(w: World, d: Side, step: Step)
    requires Done(At(w, d))
    ensures At(Apply(w, step), d) == At(w, d)
  {
  }

  // It never changes again, in any continuation, so what it has not accepted by then is
  // never acknowledged.
  lemma {:induction false} DoneIsForever(w: World, d: Side, steps: seq<Step>)
    requires Done(At(w, d))
    ensures At(Exec(w, steps), d) == At(w, d)
    decreases |steps|
  {
    if steps != [] {
      DoneStaysPut(w, d, steps[0]);
      DoneIsForever(Apply(w, steps[0]), d, steps[1..]);
    }
  }

  lemma NeverAcknowledged(w: World, d: Side, steps: seq<Step>)
    requires Inv(w) && Done(At(w, d)) && AllTimely(w, steps)
    ensures Acked(At(Exec(w, steps), Peer(d))) <= Accepted(At(w, d))
    ensures Delivered(At(Exec(w, steps), d)) == Delivered(At(w, d))
  {
    TimelyRunKeepsInv(w, steps);
    DoneIsForever(w, d, steps);
  }

  // Connected; the server has written y, closed, and y was accepted; or, at the end, the
  // ack of y has completed the close.
  function ClosingServer(id: ConnId, y: Payload, sendBuf: seq<LspMsg>, done: bool, toServer: seq<Packet>): World {
    World(id,
          End(Some(Conn(id, [], [GenDataMsg(id, 1, y)], 1, 2, GenAckMsg(id, 1), false, false)), [], []),
          End(Some(Conn(id, sendBuf, [], 2, 1, GenAckMsg(id, 0), true, done)), [y], []), toServer, [])
  }

  const CLOSE: Step := Close(Server)
  const DATA: Step := Deliver(Client, 0, false)
  const LAST_ACK: Step := Deliver(Server, 0, false)

  lemma ServerWritesAndCloses(id: ConnId, y: Payload)
    requires id != 0
    ensures var w := Stage(id, 0, y); var w1 := Apply(w, Write(Server, y)); var w2 := Apply(w1, CLOSE);
      && Apply(w2, DATA) == ClosingServer(id, y, [GenDataMsg(id, 1, y)], false, [Packet(GenAckMsg(id, 1), 1)])
      && Timely(w2, DATA)
  {
    var data := GenDataMsg(id, 1, y);
    var w1 := Apply(Stage(id, 0, y), Write(Server, y));
    assert w1.server.conn.value.sendBuf == [data] && w1.server.sent == [y];
    assert w1.toClient == [Packet(data, 1)] && w1.toServer == [];
    var w2 := Apply(w1, CLOSE);
    assert w2.toClient == [Packet(data, 1)] && w2.toServer == [];
    var w3 := Apply(w2, DATA);
    assert w3.client.conn.value.recvBuf == [data];
    assert w3.toClient == [] && w3.toServer == [Packet(GenAckMsg(id, 1), 1)];
  }

  lemma AckCompletesTheClose(id: ConnId, x: Payload, y: Payload)
    requires id != 0
    ensures var w := ClosingServer(id, y, [GenDataMsg(id, 1, y)], false, [Packet(GenAckMsg(id, 1), 1)]);
      && Apply(w, LAST_ACK) == ClosingServer(id, y, [], true, []) && Timely(w, LAST_ACK)
    ensures var w' := Apply(ClosingServer(id, y, [], true, []), Write(Client, x));
      Done(w'.server) && w'.client.sent == [x] && |SendBuf(w'.client)| == 1 && Delivered(w'.server) == []
  {
    var w := ClosingServer(id, y, [GenDataMsg(id, 1, y)], false, [Packet(GenAckMsg(id, 1), 1)]);
    var w' := Apply(w, LAST_ACK);
    assert w'.server.conn.value.sendBuf == [] && w'.toServer == [] && w'.toClient == [];
  }

  // It happens: the server writes y and closes, the ack of y completes the close, and what
  // the client then writes is never delivered.
  lemma ClosedServerLeavesClientWaiting(id: ConnId, x: Payload, y: Payload) returns (steps: seq<Step>)
    requires id != 0
    ensures AllTimely(Init(id), steps)
    ensures var w := Exec(Init(id), steps);
      && Done(w.server) && Delivered(w.client) == [y] && w.client.sent == [x] && |SendBuf(w.client)| == 1
      && forall more :: AllTimely(w, more) ==> Delivered(Exec(w, more).server) == []
  {
    var opening := [Write(Server, y), CLOSE, DATA];
    var closing := [LAST_ACK, Write(Client, x)];
    steps := CONNECTING + (opening + closing);
    ConnectingReachesStage0(id, y);
    ServerWritesAndCloses(id, y);
    AckCompletesTheClose(id, x, y);
    ThreeSteps(Stage(id, 0, y), Write(Server, y), CLOSE, DATA);
    var w3 := Exec(Stage(id, 0, y), opening);
    TwoSteps(w3, LAST_ACK, Write(Client, x));
    ExecConcat(Stage(id, 0, y), opening, closing);
    ExecConcat(Init(id), CONNECTING, opening + closing);
    InitInv(id);
    TimelyRunKeepsInv(Init(id), steps);
    var w := Exec(Init(id), steps);
    DeliveredNow(id, x, y, w);
    forall more | AllTimely(w, more) ensures Delivered(Exec(w, more).server) == [] {
      NeverAcknowledged(w, Server, more);
    }
  }

  lemma DeliveredNow(id: ConnId, x: Payload, y: Payload, w: World)
    requires w == Apply(ClosingServer(id, y, [], true, []), Write(Client, x))
    ensures Delivered(w.client) == [y]
  {
    assert RecvBuf(w.client) == [GenDataMsg(id, 1, y)];
  }
}
