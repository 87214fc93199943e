// What every run of an LSP connection keeps: delivery exactly once and in order,
// over a network that reorders within bounds and over one that does not reorder.

module LspRuns {
  import opened Wrappers
  import opened LspConn
  import opened LspNet

  lemma {:induction false} TimelyRunKeepsInv(w: World, steps: seq<Step>)
    requires Inv(w) && AllTimely(w, steps)
    ensures Inv(Exec(w, steps))
    decreases |steps|
  {
    if steps != [] {
      StepKeepsInv(w, steps[0]);
      TimelyRunKeepsInv(Apply(w, steps[0]), steps[1..]);
    }
  }

  lemma InitInv(id: ConnId)
    requires id != 0
    ensures Inv(Init(id)) && Ordered(Init(id))
  {
    assert Carries(SendBuf(Init(id).client)[0], 0, []);
  }

  // Nothing lost, repeated or swapped, in either direction: what a side accepted (handed
  // to its application or still buffered) is a prefix of what its peer accepted for
  // sending, at most one message longer than what the peer knows to be acknowledged.
  predicate ExactlyOnceInOrder(w: World) {
    && Delivered(w.server) <= w.client.sent
    && Delivered(w.client) <= w.server.sent
    && Acked(w.client) <= Accepted(w.server) <= Acked(w.client) + 1
    && Acked(w.server) <= Accepted(w.client) <= Acked(w.server) + 1
  }

  // Over a network that drops, copies and reorders, for any number of wraps of the byte.
  lemma TimelyDelivery(id: ConnId, steps: seq<Step>)
    requires id != 0 && AllTimely(Init(id), steps)
    ensures ExactlyOnceInOrder(Exec(Init(id), steps))
  {
    InitInv(id);
    TimelyRunKeepsInv(Init(id), steps);
  }

  // ------------------------------------------------------------------------------
  // A network that does not reorder
  // ------------------------------------------------------------------------------

  predicate NotStale(p: Packet, dst: End) {
    if p.msg.typ == MsgAck then Acked(dst) <= p.num else Accepted(dst) <= p.num
  }

  predicate SameKind(p: Packet, q: Packet) { p.msg.typ == MsgAck <==> q.msg.typ == MsgAck }

  predicate Sorted(ps: seq<Packet>) {
    forall i, j :: 0 <= i < j < |ps| && SameKind(ps[i], ps[j]) ==> ps[i].num <= ps[j].num
  }

  predicate AllNotStale(ps: seq<Packet>, dst: End) {
    forall i :: 0 <= i < |ps| ==> NotStale(ps[i], dst)
  }

  predicate Ordered(w: World) {
    && Sorted(w.toServer) && Sorted(w.toClient)
    && AllNotStale(w.toServer, w.server) && AllNotStale(w.toClient, w.client)
  }

  lemma WrittenPacketsAreOrdered(ps: seq<Packet>, src: End, e: End, out: seq<LspMsg>, peer: End)
    requires ChanInv(ps, src) && GoodChange(src, e, out, peer)
    requires Sorted(ps) && AllNotStale(ps, peer)
    ensures Sorted(ps + Tag(e, out)) && AllNotStale(ps + Tag(e, out), peer)
  {
    forall i | 0 <= i < |ps| ensures ps[i].num <= if ps[i].msg.typ == MsgAck then Accepted(e) else Acked(e) + 1 {
      assert PacketInv(ps[i], src);
    }
  }

  lemma EmitKeepsOrder(w: World, s: Side, e: End, out: seq<LspMsg>)
    requires Inv(w) && Ordered(w) && GoodChange(At(w, s), e, out, At(w, Peer(s)))
    requires AllNotStale(Chan(w, s), e)
    ensures Ordered(Emit(w, s, e, out))
  {
    WrittenPacketsAreOrdered(Chan(w, Peer(s)), At(w, s), e, out, At(w, Peer(s)));
  }

  // The packet is no newer than those of its kind in the channel.
  predicate Oldest(p: Packet, ps: seq<Packet>) {
    forall i :: 0 <= i < |ps| && SameKind(p, ps[i]) ==> p.num <= ps[i].num
  }

  lemma HandleKeepsOrder(w: World, s: Side, p: Packet, w': World)
    requires Inv(w) && Ordered(w) && PacketInv(p, At(w, Peer(s))) && NotStale(p, At(w, s))
    requires Oldest(p, Chan(w, s)) && w' == Handle(w, s, p.msg)
    ensures Ordered(w')
  {
    var e, peer := At(w, s), At(w, Peer(s));
    if s == Server && w.server.conn.None? {
      if p.msg.typ == MsgConnect {
        var eff := Open(w.serverId);
        var e' := e.(conn := Some(eff.conn));
        OpenIsGood(e, peer, w.serverId, e', eff.out);
        forall i | 0 <= i < |Chan(w, s)| ensures NotStale(Chan(w, s)[i], e') {
          assert NotStale(Chan(w, s)[i], e);
        }
        EmitKeepsOrder(w, s, e', eff.out);
      }
    } else if Running(At(w, s)) && !(s == Server && p.msg.typ == MsgConnect) {
      var eff := Receive(e.conn.value, p.msg);
      var e' := e.(conn := Some(eff.conn));
      ReceiveAdvancesToTheNumber(e, peer, p, e', eff.out);
      forall i | 0 <= i < |Chan(w, s)| ensures NotStale(Chan(w, s)[i], e') {
        assert NotStale(Chan(w, s)[i], e);
      }
      EmitKeepsOrder(w, s, e', eff.out);
    }
  }

  // A packet moves the counter of its own kind only, and no further than its own number.
  lemma ReceiveAdvancesToTheNumber(e: End, peer: End, p: Packet, e': End, out: seq<LspMsg>)
    requires Ends(e, peer) && e.conn.Some? && PacketInv(p, peer) && NotStale(p, e)
    requires var eff := Receive(e.conn.value, p.msg); e' == e.(conn := Some(eff.conn)) && out == eff.out
    ensures GoodChange(e, e', out, peer)
    ensures Accepted(e') == Accepted(e) || (Accepted(e') == p.num && p.msg.typ == MsgData)
    ensures Acked(e') == Acked(e) || (Acked(e') == p.num && p.msg.typ == MsgAck)
  {
    if p.msg.typ == MsgData {
      DataIsGood(e, peer, p, e', out);
    } else if p.msg.typ == MsgAck && SendBuf(e) != [] {
      AckIsGood(e, peer, p, e', out);
    } else {
      assert e' == e;
    }
  }

  lemma LoseOneKeepsSorted(ps: seq<Packet>, i: nat, dst: End)
    requires i < |ps| && Sorted(ps) && AllNotStale(ps, dst)
    ensures Sorted(Remove(ps, i)) && AllNotStale(Remove(ps, i), dst)
  {
    var rest := Remove(ps, i);
    assert forall k :: 0 <= k < |rest| ==> rest[k] == ps[if k < i then k else k + 1];
  }

  lemma LosePacketKeepsOrder(w: World, d: Side, i: nat)
    requires Ordered(w) && i < |Chan(w, d)|
    ensures Ordered(WithChan(w, d, Remove(Chan(w, d), i)))
  {
    LoseOneKeepsSorted(Chan(w, d), i, At(w, d));
  }

  lemma RecentIsPrompt(p: Packet, src: End, dst: End)
    requires Ends(dst, src) && PacketInv(p, src) && NotStale(p, dst)
    ensures Prompt(p, dst)
  {
    assert p.msg.typ == MsgAck ==> Acked(dst) + 1 - p.num <= 1;
    assert p.msg.typ != MsgAck ==> Accepted(dst) + 1 - p.num <= 1;
  }

  // The head of a channel is recent, so delivering it keeps everything.
  lemma HeadIsTimely(w: World, step: Step)
    requires Inv(w) && Ordered(w) && (step.Deliver? ==> step.i == 0)
    ensures Timely(w, step)
  {
    if step.Deliver? && 0 < |Chan(w, step.dest)| {
      var p := Chan(w, step.dest)[0];
      assert NotStale(p, At(w, step.dest)) && PacketInv(p, At(w, Peer(step.dest)));
      RecentIsPrompt(p, At(w, Peer(step.dest)), At(w, step.dest));
    }
  }

  lemma HeadIsOldest(ps: seq<Packet>)
    requires ps != [] && Sorted(ps)
    ensures Oldest(ps[0], ps) && Oldest(ps[0], Remove(ps, 0))
  {
  }

  lemma DeliverHeadKeepsOrder(w: World, d: Side, keep: bool, w': World)
    requires Inv(w) && Ordered(w) && 0 < |Chan(w, d)| && w' == Apply(w, Deliver(d, 0, keep))
    ensures Ordered(w')
  {
    HeadIsOldest(Chan(w, d));
    var p := Chan(w, d)[0];
    assert PacketInv(p, At(w, Peer(d))) && NotStale(p, At(w, d));
    if keep {
      assert WithChan(w, d, Chan(w, d)) == w;
      HandleKeepsOrder(w, d, p, w');
    } else {
      LosePacketKeepsInv(w, d, 0);
      LosePacketKeepsOrder(w, d, 0);
      HandleKeepsOrder(WithChan(w, d, Remove(Chan(w, d), 0)), d, p, w');
    }
  }

  lemma LocalStepKeepsOrder(w: World, step: Step)
    requires Inv(w) && Ordered(w) && !step.Deliver? && !step.Drop?
    ensures Ordered(Apply(w, step))
  {
    var s := step.side;
    var (e, out) := Local(At(w, s), step);
    LocalIsGood(At(w, s), At(w, Peer(s)), step);
    if e.conn.Some? {
      forall i | 0 <= i < |Chan(w, s)| ensures NotStale(Chan(w, s)[i], e) {
        assert NotStale(Chan(w, s)[i], At(w, s));
      }
      EmitKeepsOrder(w, s, e, out);
    } else {
      EmitNothing(w, s);
    }
  }

  lemma OrderlyStep(w: World, step: Step)
    requires Inv(w) && Ordered(w) && (step.Deliver? ==> step.i == 0)
    ensures Inv(Apply(w, step)) && Ordered(Apply(w, step)) && Timely(w, step)
  {
    HeadIsTimely(w, step);
    StepKeepsInv(w, step);
    match step {
      case Deliver(d, i, keep) =>
        if 0 < |Chan(w, d)| {
          DeliverHeadKeepsOrder(w, d, keep, Apply(w, step));
        }
      case Drop(d, i) =>
        if i < |Chan(w, d)| {
          LosePacketKeepsOrder(w, d, i);
        }
      case _ =>
        LocalStepKeepsOrder(w, step);
    }
  }

  lemma {:induction false} OrderlyRun(w: World, steps: seq<Step>)
    requires Inv(w) && Ordered(w) && InOrder(steps)
    ensures Inv(Exec(w, steps)) && Ordered(Exec(w, steps)) && AllTimely(w, steps)
    decreases |steps|
  {
    if steps != [] {
      OrderlyStep(w, steps[0]);
      OrderlyRun(Apply(w, steps[0]), steps[1..]);
    }
  }

  // Every packet in flight is about the last acknowledged message or the one after it.
  predicate WindowOfTwo(ps: seq<Packet>, src: End, dst: End) {
    forall i :: 0 <= i < |ps| ==>
      if ps[i].msg.typ == MsgAck then Acked(dst) <= ps[i].num <= Acked(dst) + 1
      else Acked(src) <= ps[i].num <= Acked(src) + 1
  }

  // Without reordering nothing has to be assumed about delays: any drops and copies, any
  // number of wraps.
  lemma InOrderDelivery(id: ConnId, steps: seq<Step>)
    requires id != 0 && InOrder(steps)
    ensures var w := Exec(Init(id), steps);
      && ExactlyOnceInOrder(w)
      && WindowOfTwo(w.toServer, w.client, w.server)
      && WindowOfTwo(w.toClient, w.server, w.client)
  {
    InitInv(id);
    OrderlyRun(Init(id), steps);
    var w := Exec(Init(id), steps);
    InFlightWindow(w.toServer, w.client, w.server);
    InFlightWindow(w.toClient, w.server, w.client);
  }

  lemma InFlightWindow(ps: seq<Packet>, src: End, dst: End)
    requires Ends(src, dst) && ChanInv(ps, src) && AllNotStale(ps, dst)
    ensures WindowOfTwo(ps, src, dst)
  {
    forall i | 0 <= i < |ps|
      ensures if ps[i].msg.typ == MsgAck then Acked(dst) <= ps[i].num <= Acked(dst) + 1
              else Acked(src) <= ps[i].num <= Acked(src) + 1
    {
      assert PacketInv(ps[i], src) && NotStale(ps[i], dst);
    }
  }

  // The close-completion send is reached only when the peer has accepted everything.
  lemma CleanClose(id: ConnId, steps: seq<Step>, s: Side)
    requires id != 0 && AllTimely(Init(id), steps)
    requires var e := At(Exec(Init(id), steps), s); e.conn.Some? && e.conn.value.done
    ensures var w := Exec(Init(id), steps); Delivered(At(w, Peer(s))) == At(w, s).sent
  {
    InitInv(id);
    TimelyRunKeepsInv(Init(id), steps);
  }
}
