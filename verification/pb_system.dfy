// The whole primary/backup system: the view service, any number of key/value servers
// and their clients, with crashes, lost messages and false suspicions. A Put begins, is
// forwarded and is answered in separate steps. The system, what is assumed of its runs, and
// the invariant behind the durability of acknowledged writes.

module PBSystem {
  import opened Wrappers
  import opened ViewService
  import opened PBService

  // Ids are given in the order in which Puts begin.
  datatype Write = Write(id: nat, key: Key, value: Value)

  // A Put under way. ok: whether the backup took it; None while the call to it is out.
  datatype Work = Work(write: Write, ok: Option<bool>)

  // `log` is the history of writes behind the store. syncing: the server is inside a tick
  // that has not finished its Sync. It holds its lock then, and during a Put.
  datatype Node = Node(pb: PB, alive: bool, syncing: bool, work: Option<Work>, log: seq<Write>)

  // A Put that was answered OK. `at`: the id that the next Put to begin after it got.
  datatype Ack = Ack(write: Write, at: nat)

  // lead and second: primary and backup of the current view number when it began (the
  // slots themselves may have been cleared since). reached: a Sync that the primary made in
  // this view has reached the backup, and the primary has kept the view since.
  datatype Sys = Sys(
    vs: VS, nodes: map<Name, Node>, acks: seq<Ack>, lead: Name, second: Name, nextId: nat, reached: bool)

  const EMPTY: Sys := Sys(START, map[], [], "", "", 0, false)

  datatype Step =
    | Boot(s: Name)
    | Crash(s: Name)
    | ServiceTick(now: int, idle: Option<Name>, inited: Option<Name>)
    | ServerPing(s: Name, now: int, net: Net)  // a server's tick, up to the Sync call
    // The Sync call of s reaches its backup, whose own ping goes as `net` says; lost: the
    // reply is not seen.
    | SyncArrives(s: Name, now: int, net: Net, lost: bool)
    | RetryPing(s: Name, now: int, net: Net)   // the Sync call of s failed: it pings again
    | BeginPut(s: Name, key: Key, value: Value)
    | ForwardArrives(s: Name, lost: bool)      // the call of s reaches its backup
    | ForwardFails(s: Name)
    | FinishPut(s: Name)
    | StrayForward(b: Name, w: Write)          // a call reaches b after its caller has given it up

  predicate Unlocked(n: Node) { n.alive && !n.syncing && n.work.None? }

  predicate Idle(sys: Sys, s: Name) { s in sys.nodes && Unlocked(sys.nodes[s]) }

  predicate Syncing(sys: Sys, s: Name) { s in sys.nodes && sys.nodes[s].syncing }

  function WithNode(sys: Sys, s: Name, n: Node): Sys { sys.(nodes := sys.nodes[s := n]) }

  function Pinged(sys: Sys, s: Name, num: nat, now: int): Sys { sys.(vs := Ping(sys.vs, s, num, now)) }

  function Tell(sys: Sys, vs: VS): Sys {
    if vs.view.num == sys.vs.view.num then sys.(vs := vs)
    else sys.(vs := vs, lead := vs.view.primary, second := vs.view.backup, reached := false)
  }

  // What a ping does to the service, and the view it brings: the zero view if it fails.
  function PingedBy(sys: Sys, s: Name, num: nat, now: int, net: Net): Sys {
    if net == RequestLost then sys else Pinged(sys, s, num, now)
  }

  function Seen(sys: Sys, net: Net): View { if net == Answered then sys.vs.view else NO_VIEW }

  function ApplyServerPing(sys: Sys, s: Name, now: int, net: Net): Sys
    requires s in sys.nodes
  {
    var n, v := sys.nodes[s], sys.vs.view;
    var sys1 := PingedBy(sys, s, n.pb.view.num, now, net);
    if net == Answered then WithNode(sys1, s, n.(pb := AdoptView(n.pb, v), syncing := MustSync(n.pb, v)))
    else sys1
  }

  function ApplySyncArrives(sys: Sys, s: Name, b: Name, now: int, net: Net, lost: bool): Sys
    requires s in sys.nodes && b in sys.nodes
  {
    var n, m, v := sys.nodes[s], sys.nodes[b], Seen(sys, net);
    var ok := SyncReply(m.pb, v) == OK;
    var m' := m.(pb := Synced(m.pb, v, n.pb.store), log := if ok then n.log else m.log);
    WithNode(WithNode(PingedBy(sys, b, m.pb.view.num, now, net), b, m'), s, n.(syncing := lost)).(
      reached := sys.reached || (ok && n.pb.view.num == sys.vs.view.num))
  }

  function ApplyRetryPing(sys: Sys, s: Name, now: int, net: Net): Sys
    requires s in sys.nodes
  {
    var n, v := sys.nodes[s], Seen(sys, net);
    WithNode(PingedBy(sys, s, n.pb.view.num, now, net), s, n.(pb := n.pb.(view := v), syncing := v.backup != "")).(
      reached := sys.reached && net == Answered)
  }

  // Without a backup to ask, only the answer is left to do.
  function ApplyBegin(sys: Sys, s: Name, w: Write): Sys
    requires s in sys.nodes
  {
    var n := sys.nodes[s];
    WithNode(sys, s, n.(work := Some(Work(w, if Forwards(n.pb) then None else Some(true))))).(nextId := sys.nextId + 1)
  }

  function AfterForward(m: Node, w: Write): Node {
    m.(pb := Forwarded(m.pb, OpPut, w.key, w.value), log := if ForwardReply(m.pb) == OK then m.log + [w] else m.log)
  }

  predicate Calling(sys: Sys, s: Name) {
    s in sys.nodes && sys.nodes[s].work.Some? && sys.nodes[s].work.value.ok.None?
  }

  function Learned(n: Node, ok: bool): Node
    requires n.work.Some?
  {
    n.(work := Some(n.work.value.(ok := Some(ok))))
  }

  function ApplyForward(sys: Sys, s: Name, b: Name, lost: bool): Sys
    requires Calling(sys, s) && b in sys.nodes
  {
    var n, m := sys.nodes[s], sys.nodes[b];
    WithNode(WithNode(sys, b, AfterForward(m, n.work.value.write)), s, Learned(n, !lost && ForwardReply(m.pb) == OK))
  }

  function Finished(n: Node): Node
    requires n.work.Some?
  {
    var w := n.work.value.write;
    if n.work.value.ok == Some(true) then
      n.(work := None, pb := n.pb.(store := n.pb.store[w.key := w.value]), log := n.log + [w])
    else n.(work := None)
  }

  function ApplyFinish(sys: Sys, s: Name): Sys
    requires s in sys.nodes && sys.nodes[s].work.Some?
  {
    var work := sys.nodes[s].work.value;
    WithNode(sys, s, Finished(sys.nodes[s])).(
      acks := if work.ok == Some(true) then sys.acks + [Ack(work.write, sys.nextId)] else sys.acks)
  }

  // A call waits while the callee is locked; one that is its own backup waits for ever.
  function Apply(sys: Sys, step: Step): Sys {
    match step
    case Boot(s) =>
      if s == "" || s in sys.nodes then sys else WithNode(sys, s, Node(Booted(s), true, false, None, []))
    case Crash(s) =>
      if s in sys.nodes then WithNode(sys, s, sys.nodes[s].(alive := false)) else sys
    case ServiceTick(now, idle, inited) =>
      if sys.vs.crashed then sys else Tell(sys, Tick(sys.vs, now, idle, inited))
    case ServerPing(s, now, net) =>
      if Idle(sys, s) && !sys.vs.crashed then ApplyServerPing(sys, s, now, net) else sys
    case SyncArrives(s, now, net, lost) =>
      if Syncing(sys, s) && (lost || sys.nodes[s].alive) && !sys.vs.crashed && Idle(sys, sys.nodes[s].pb.view.backup)
      then ApplySyncArrives(sys, s, sys.nodes[s].pb.view.backup, now, net, lost) else sys
    case RetryPing(s, now, net) =>
      if Syncing(sys, s) && sys.nodes[s].alive && !sys.vs.crashed && sys.nodes[s].pb.view.backup != s
      then ApplyRetryPing(sys, s, now, net) else sys
    case BeginPut(s, k, v) =>
      if Idle(sys, s) then ApplyBegin(sys, s, Write(sys.nextId, k, v)) else sys
    case ForwardArrives(s, lost) =>
      if Calling(sys, s) && Idle(sys, sys.nodes[s].pb.view.backup)
      then ApplyForward(sys, s, sys.nodes[s].pb.view.backup, lost) else sys
    case ForwardFails(s) =>
      if Calling(sys, s) then WithNode(sys, s, Learned(sys.nodes[s], false)) else sys
    case FinishPut(s) =>
      if s in sys.nodes && sys.nodes[s].alive && sys.nodes[s].work.Some? && sys.nodes[s].work.value.ok.Some?
      then ApplyFinish(sys, s) else sys
    case StrayForward(b, w) =>
      if Idle(sys, b) && w.id < sys.nextId then WithNode(sys, b, AfterForward(sys.nodes[b], w)) else sys
  }

  // ------------------------------------------------------------------------------
  // What is assumed of a run
  // ------------------------------------------------------------------------------

  // Clients address the server that the service names as primary, or one that takes
  // itself for it and was so named at most one view ago.
  predicate Addressed(sys: Sys, s: Name) {
    || sys.vs.view.primary == s
    || (s in sys.nodes && sys.nodes[s].pb.view.primary == s && sys.vs.view.num <= sys.nodes[s].pb.view.num + 1)
  }

  // A forwarded call is not delayed past the second change of view after the one in which
  // it was made.
  predicate InTime(sys: Sys, s: Name) {
    s in sys.nodes ==> sys.vs.view.num <= sys.nodes[s].pb.view.num + 1
  }

  // Not every server of an existing view is lost at once (its data would be, too). And a
  // backup is promoted only when a Sync has reached it in this view, and the primary is not
  // still busy with it.
  predicate Survivable(sys: Sys, now: int, moves: bool) {
    var left := Pruned(sys.vs, now).view;
    moves && sys.vs.view.num >= 1 && left.primary == "" ==>
      left.backup != "" && SyncDone(sys)
  }

  predicate SyncDone(sys: Sys) {
    && sys.lead in sys.nodes && sys.reached
    && (sys.nodes[sys.lead].syncing ==> !sys.nodes[sys.lead].alive)
  }

  predicate Allowed(sys: Sys, step: Step) {
    match step
    case ServiceTick(now, idle, inited) =>
      && ValidPick(Sweep(sys.vs.clients, now), sys.vs.view.num, idle, inited)
      && Survivable(sys, now, Apply(sys, step).vs.view.num != sys.vs.view.num)
    case BeginPut(s, _, _) => Addressed(sys, s)
    case ForwardArrives(s, _) => InTime(sys, s)
    case SyncArrives(s, _, _, _) => FromLead(sys, s)
    case _ => true
  }

  // The Sync of a server that has crashed is not delayed past the next view.
  predicate FromLead(sys: Sys, s: Name) {
    s in sys.nodes && !sys.nodes[s].alive ==> s == sys.lead
  }

  predicate IsRun(ss: seq<Sys>, steps: seq<Step>) {
    && |ss| == |steps| + 1 && ss[0] == EMPTY
    && forall k {:trigger steps[k]} :: 0 <= k < |steps| ==>
         Allowed(ss[k], steps[k]) && ss[k + 1] == Apply(ss[k], steps[k])
  }

  // ------------------------------------------------------------------------------
  // The invariant
  // ------------------------------------------------------------------------------

  // What a server may have read from a slot: its first occupant, or nothing once cleared.
  predicate SlotRead(read: Name, first: Name, now: Name) {
    read in {"", first} && (read == "" ==> now == "")
  }

  predicate IdsBelow(log: seq<Write>, nextId: nat) { forall i :: 0 <= i < |log| ==> log[i].id < nextId }

  predicate DataOk(n: Node, nextId: nat) { Reflects(n.pb.store, n.log) && IdsBelow(n.log, nextId) }

  // log[j] is the last write of its key.
  predicate IsLast(log: seq<Write>, j: int, k: Key) {
    0 <= j < |log| && log[j].key == k && forall i :: j < i < |log| ==> log[i].key != k
  }

  // The value of each key is that of its last write, and there are no other keys.
  predicate Reflects(store: map<Key, Value>, log: seq<Write>) {
    && (forall i :: 0 <= i < |log| ==> log[i].key in store)
    && (forall k :: k in store ==> LastValue(log, k, store[k]))
  }

  predicate LastValue(log: seq<Write>, k: Key, v: Value) {
    exists j: int {:trigger IsLast(log, j, k)} :: 0 <= j < |log| && IsLast(log, j, k) && log[j].value == v
  }

  predicate NodeOk(n: Node, s: Name, view: View, lead: Name, second: Name, nextId: nat) {
    var v := n.pb.view;
    && n.pb.me == s && s != "" && DataOk(n, nextId)
    && v.num <= view.num
    && (v.num == view.num ==> SlotRead(v.primary, lead, view.primary) && SlotRead(v.backup, second, view.backup))
    && (v.num + 1 == view.num && v.primary == s && s != lead ==> v.backup == lead)
    && (v.num == 0 ==> v == NO_VIEW)
    && (n.syncing && n.alive ==> s == lead)
    && (n.work.Some? ==> !n.syncing && view.num >= 1 && n.work.value.write.id < nextId)
    && (n.work.Some? && n.work.value.ok.None? ==> Forwards(n.pb))
  }

  predicate NodesOk(sys: Sys) {
    forall s :: s in sys.nodes ==> NodeOk(sys.nodes[s], s, sys.vs.view, sys.lead, sys.second, sys.nextId)
  }

  predicate ServiceOk(sys: Sys) {
    var v := sys.vs.view;
    && v.primary in {"", sys.lead} && v.backup in {"", sys.second}
    && (forall x :: x in sys.vs.clients ==> x in sys.nodes)
    && (v.num == 0 ==> sys.lead == sys.second == "" && sys.acks == [])
    && (v.num >= 1 ==>
          && sys.lead in sys.nodes && (sys.second != "" ==> sys.second in sys.nodes)
          && (sys.reached ==> sys.nodes[sys.lead].pb.view.num == v.num))
    && (sys.reached ==> v.num >= 1)
  }

  // w stands at p, before every write with an id of at least `from`.
  predicate StandsAt(log: seq<Write>, p: int, w: Write, from: nat) {
    && 0 <= p < |log| && log[p] == w
    && forall q :: 0 <= q < |log| && log[q].id >= from ==> p < q
  }

  // The log has the write, and has it before every write that began after its answer.
  predicate Kept(log: seq<Write>, a: Ack) {
    exists p: int {:trigger StandsAt(log, p, a.write, a.at)} :: 0 <= p < |log| && StandsAt(log, p, a.write, a.at)
  }

  predicate AllKept(log: seq<Write>, acks: seq<Ack>) {
    forall i :: 0 <= i < |acks| ==> Kept(log, acks[i])
  }

  // The backup of the current view can stand in for its primary.
  predicate Ready(sys: Sys) {
    && sys.vs.view.num >= 1 && sys.vs.view.backup != "" && sys.lead in sys.nodes && sys.second in sys.nodes
    && sys.reached && sys.lead != sys.second
  }

  predicate BackupReady(sys: Sys) {
    Ready(sys) ==> AllKept(sys.nodes[sys.second].log, sys.acks)
  }

  // Every acknowledged write is in the log of the server in charge.
  predicate Durable(sys: Sys) {
    sys.acks != [] ==> sys.lead in sys.nodes && AllKept(sys.nodes[sys.lead].log, sys.acks)
  }

  // A Put that is going to be answered OK is already where it has to be.
  predicate Promise(sys: Sys, n: Node, s: Name) {
    n.work.Some? && n.work.value.ok == Some(true) ==>
      && (s != sys.lead ==> sys.lead in sys.nodes && n.work.value.write in sys.nodes[sys.lead].log)
      && (Ready(sys) ==> n.work.value.write in sys.nodes[sys.second].log)
  }

  predicate Promises(sys: Sys) {
    forall s :: s in sys.nodes ==> Promise(sys, sys.nodes[s], s)
  }

  predicate Inv(sys: Sys) {
    NodesOk(sys) && ServiceOk(sys) && BackupReady(sys) && Durable(sys) && Promises(sys)
  }
}
