// The primary/backup key/value server: each RPC handler as a function of the server's
// state, and the server object that runs them in place.

module PBService {
  import opened Wrappers
  import opened ViewService

  type Key = string
  type Value = string

  datatype Err = OK | ErrNoKey | ErrWrongServer

  datatype Op = OpGet | OpPut

  datatype PB = PB(me: Name, store: map<Key, Value>, view: View)

  const NO_VIEW: View := View(0, "", "")

  // How the network treats a forwarded call.
  datatype Net = Answered | RequestLost | ReplyLost

  function Booted(me: Name): PB { PB(me, map[], NO_VIEW) }

  // Only a server that takes itself for the backup accepts forwarded operations.
  function ForwardReply(b: PB): Err {
    if b.view.backup == b.me then OK else ErrWrongServer
  }

  function Forwarded(b: PB, op: Op, k: Key, v: Value): PB {
    if op == OpPut && ForwardReply(b) == OK then b.(store := b.store[k := v]) else b
  }

  predicate Forwards(p: PB) { p.view.primary == p.me && p.view.backup != "" }

  // answer: what the call to the backup returned, None if the call failed.
  function PutReply(p: PB, answer: Option<Err>): Err {
    if Forwards(p) && answer != Some(OK) then ErrWrongServer else OK
  }

  function AfterPut(p: PB, k: Key, v: Value, answer: Option<Err>): PB {
    if PutReply(p, answer) == OK then p.(store := p.store[k := v]) else p
  }

  // What a Put does to the stores of a server p and the server b it names as backup: it is
  // answered OK exactly if there is no backup to ask or that took the write and said so.
  predicate PutDid(p: PB, b: PB, k: Key, v: Value, net: Net, answered: bool, p': PB, b': PB) {
    var calls := p.view.primary == p.me && p.view.backup != "";
    var taken := b.view.backup == b.me;
    && (answered <==> !calls || (net == Answered && taken))
    && p' == p.(store := if answered then p.store[k := v] else p.store)
    && b' == b.(store := if calls && net != RequestLost && taken then b.store[k := v] else b.store)
  }

  // Sync at the server that receives it; v is the view its own ping returned.
  function SyncView(b: PB, v: View): View { if v.num != b.view.num then v else b.view }

  function SyncReply(b: PB, v: View): Err {
    if SyncView(b, v).backup == b.me then OK else ErrWrongServer
  }

  function Synced(b: PB, v: View, store: map<Key, Value>): PB {
    var b' := b.(view := SyncView(b, v));
    if SyncReply(b, v) == OK then b'.(store := store) else b'
  }

  // The view a tick adopts, and whether it then has a backup to bring up to date.
  function AdoptView(p: PB, v: View): PB { if v.num == p.view.num then p else p.(view := v) }

  predicate MustSync(p: PB, v: View) { v.num != p.view.num && v.primary == p.me && v.backup != "" }

  // One turn of the retry loop of a tick: what the ping returned (the zero view when it
  // failed), then whether the Sync call to that view's backup, if any, went through.
  datatype Retry = Retry(pinged: View, called: bool) {
    predicate Ends() { pinged.backup == "" || called }
  }

  predicate EndsAt(turns: seq<Retry>, i: int) {
    0 <= i < |turns| && turns[i].Ends() && forall j :: 0 <= j < i ==> !turns[j].Ends()
  }

  // The view after the given turns, and whether the loop is over.
  function RetryLoop(view: View, ok: bool, turns: seq<Retry>): (View, bool)
    decreases |turns|
  {
    if ok || turns == [] then (view, ok)
    else RetryLoop(turns[0].pinged, turns[0].pinged.backup == "" || turns[0].called, turns[1..])
  }

  class Server {
    const me: Name
    var store: map<Key, Value>
    var view: View

    ghost function State(): PB
      reads this
    {
      PB(me, store, view)
    }

    constructor (me: Name)
      ensures State() == Booted(me)
    {
      this.me := me;
      store, view := map[], NO_VIEW;
    }

    method Forward(op: Op, k: Key, v: Value) returns (err: Err)
      modifies this
      ensures State() == Forwarded(old(State()), op, k, v)
      ensures err == ForwardReply(old(State()))
      ensures view == old(view) && err == if view.backup == me then OK else ErrWrongServer
      ensures store == if err == OK && op == OpPut then old(store)[k := v] else old(store)
    {
      if view.backup != me {
        return ErrWrongServer;
      }
      if op == OpPut {
        store := store[k := v];
      }
      return OK;
    }

    // peer is the server the view names as backup.
    method Call(peer: Server, net: Net, op: Op, k: Key, v: Value) returns (answer: Option<Err>)
      requires peer != this
      modifies peer
      ensures peer.State() == (if net == RequestLost then old(peer.State()) else Forwarded(old(peer.State()), op, k, v))
      ensures answer == if net == Answered then Some(ForwardReply(old(peer.State()))) else None
      ensures peer.view == old(peer.view)
      ensures peer.store == if net != RequestLost && peer.view.backup == peer.me && op == OpPut
                            then old(peer.store)[k := v] else old(peer.store)
    {
      if net == RequestLost {
        return None;
      }
      var err := peer.Forward(op, k, v);
      return if net == Answered then Some(err) else None;
    }

    // None: the call goes to the server itself, whose lock the handler holds, and never
    // returns. A view can name one server twice.
    method Put(k: Key, v: Value, peer: Server, net: Net) returns (err: Option<Err>)
      modifies this, peer
      ensures err.None? <==> peer == this && Forwards(old(State())) && net != RequestLost
      ensures err.None? ==> State() == old(State())
      ensures err.Some? ==>
                var answer := if net == Answered && peer != this then Some(ForwardReply(old(peer.State()))) else None;
                err.value == PutReply(old(State()), answer) && State() == AfterPut(old(State()), k, v, answer)
      ensures peer != this ==>
                peer.State() == if Forwards(old(State())) && net != RequestLost
                                then Forwarded(old(peer.State()), OpPut, k, v) else old(peer.State())
      // In terms of the stores: OK means stored here and, with a backup, there.
      ensures view == old(view) && err in {None, Some(OK), Some(ErrWrongServer)}
      ensures store == if err == Some(OK) then old(store)[k := v] else old(store)
      ensures !(view.primary == me && view.backup != "") ==> err == Some(OK)
      ensures peer != this ==>
                PutDid(old(State()), old(peer.State()), k, v, net, err == Some(OK), State(), peer.State())
    {
      if view.primary == me && view.backup != "" {
        if peer == this {
          return if net == RequestLost then Some(ErrWrongServer) else None;
        }
        var answer := Call(peer, net, OpPut, k, v);
        if answer != Some(OK) {
          return Some(ErrWrongServer);
        }
      }
      store := store[k := v];
      return Some(OK);
    }

    method Get(k: Key, peer: Server, net: Net) returns (err: Option<Err>, value: Value)
      modifies peer
      ensures State() == old(State()) && peer.State() == old(peer.State())
      ensures err.None? <==> peer == this && Forwards(State()) && net != RequestLost
      ensures err == Some(ErrWrongServer) <==>
                Forwards(State()) && (if peer == this then net == RequestLost
                                      else net != Answered || ForwardReply(peer.State()) != OK)
      ensures err == Some(OK) ==> k in store && value == store[k]
      ensures err == Some(ErrNoKey) ==> k !in store
      ensures !(view.primary == me && view.backup != "") ==>
                err == if k in store then Some(OK) else Some(ErrNoKey)
    {
      value := "";
      if view.primary == me && view.backup != "" {
        if peer == this {
          return if net == RequestLost then Some(ErrWrongServer) else None, value;
        }
        var answer := Call(peer, net, OpGet, k, "");
        if answer != Some(OK) {
          return Some(ErrWrongServer), value;
        }
      }
      if k !in store {
        return Some(ErrNoKey), value;
      }
      return Some(OK), store[k];
    }

    method Sync(v: View, newStore: map<Key, Value>) returns (err: Err)
      modifies this
      ensures State() == Synced(old(State()), v, newStore)
      ensures err == SyncReply(old(State()), v)
      ensures view == if v.num == old(view.num) then old(view) else v
      ensures err == if view.backup == me then OK else ErrWrongServer
      ensures store == if err == OK then newStore else old(store)
    {
      if v.num != view.num {
        view := v;
      }
      if view.backup != me {
        return ErrWrongServer;
      }
      store := newStore;
      return OK;
    }

    // first: whether the first Sync call went through; turns: what the retry loop met.
    // Returns whether the tick has finished.
    method Tick(ping: Option<View>, first: bool, turns: seq<Retry>) returns (finished: bool)
      modifies this`view
      ensures ping.None? ==> finished && view == old(view)
      ensures ping.Some? && !MustSync(old(State()), ping.value) ==>
                finished && State() == AdoptView(old(State()), ping.value)
      ensures ping.Some? && MustSync(old(State()), ping.value) ==>
                (view, finished) == RetryLoop(ping.value, first, turns)
      // The view pinged, unless its number is the same; if its backup was to be told and was
      // not, the view of the first turn that finds no backup or whose call goes through.
      ensures ping.Some? && ping.value.num == old(view).num ==> finished && view == old(view)
      ensures ping.Some? && ping.value.num != old(view).num ==>
                if ping.value.primary != me || ping.value.backup == "" || first
                then finished && view == ping.value
                else if finished
                then exists i: int :: 0 <= i < |turns| && EndsAt(turns, i) && view == turns[i].pinged
                else forall i :: 0 <= i < |turns| ==> !turns[i].Ends()
    {
      if ping.None? {
        return true;
      }
      var v := ping.value;
      if v.num == view.num {
        return true;
      }
      view := v;
      if view.primary != me || view.backup == "" {
        return true;
      }
      var ok := first;
      var i := 0;
      while !ok && i < |turns|
        invariant 0 <= i <= |turns|
        invariant RetryLoop(view, ok, turns[i..]) == RetryLoop(v, first, turns)
        invariant ok && !first ==> i > 0 && EndsAt(turns, i - 1) && view == turns[i - 1].pinged
        invariant !ok ==> forall j :: 0 <= j < i ==> !turns[j].Ends()
      {
        view := turns[i].pinged;
        ok := if view.backup != "" then turns[i].called else true;
        i := i + 1;
      }
      return ok;
    }
  }

  // ------------------------------------------------------------------------------
  // The primary and the backup within one view
  // ------------------------------------------------------------------------------

  datatype Attempt = Attempt(key: Key, value: Value, net: Net)

  // Puts tried at the primary, one after the other.
  function Attempts(p: PB, b: PB, as_: seq<Attempt>): (PB, PB)
    decreases |as_|
  {
    if as_ == [] then (p, b) else
    var (p1, b1) := Attempts(p, b, as_[..|as_| - 1]);
    var a := as_[|as_| - 1];
    var answer := if a.net == Answered then Some(ForwardReply(b1)) else None;
    (AfterPut(p1, a.key, a.value, answer), if a.net == RequestLost then b1 else Forwarded(b1, OpPut, a.key, a.value))
  }

  // The last attempt to write k that satisfies `arrived` or, otherwise, that was answered OK.
  function LastWrite(as_: seq<Attempt>, k: Key, arrived: bool): Option<Attempt>
    decreases |as_|
  {
    if as_ == [] then None else
    var a := as_[|as_| - 1];
    if a.key == k && (if arrived then a.net != RequestLost else a.net == Answered) then Some(a)
    else LastWrite(as_[..|as_| - 1], k, arrived)
  }

  function Lookup(store: map<Key, Value>, k: Key): Option<Value> {
    if k in store then Some(store[k]) else None
  }

  function Written(store: map<Key, Value>, k: Key, last: Option<Attempt>): Option<Value> {
    if last.Some? then Some(last.value.value) else Lookup(store, k)
  }

  // After a Sync, the backup holds what the forwarded Puts that arrived make of the
  // store and the primary what those answered OK make of it, so they agree on every key
  // except where the last write to arrive was refused and made a difference.
  lemma {:induction false} StoresWithinAView(p: PB, b: PB, as_: seq<Attempt>, k: Key)
    requires Forwards(p) && p.view.backup == b.me && b.view.backup == b.me && p.store == b.store
    ensures var (p', b') := Attempts(p, b, as_);
      && p'.view == p.view && b'.view == b.view && p'.me == p.me && b'.me == b.me
      && Lookup(b'.store, k) == Written(p.store, k, LastWrite(as_, k, true))
      && Lookup(p'.store, k) == Written(p.store, k, LastWrite(as_, k, false))
      && (Lookup(p'.store, k) != Lookup(b'.store, k) ==>
            LastWrite(as_, k, true).Some? && LastWrite(as_, k, true).value.net == ReplyLost)
    decreases |as_|
  {
    if as_ != [] {
      StoresWithinAView(p, b, as_[..|as_| - 1], k);
    }
  }
}
