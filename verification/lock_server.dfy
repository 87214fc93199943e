// The replicated lock server and the clerk that fails over to its backup.

module LockService {

  type Uuid = int

  datatype Kind = LockOp | UnlockOp

  datatype Req = Req(uuid: Uuid, kind: Kind, name: string)

  // Which locks are held, and the results of requests already served.
  datatype Table = Table(locks: map<string, bool>, replays: map<Uuid, bool>)

  const NO_LOCKS: Table := Table(map[], map[])

  predicate Held(t: Table, name: string) { name in t.locks && t.locks[name] }

  // Lock succeeds on a free lock, Unlock on a held one.
  predicate Decide(t: Table, r: Req) { if r.kind == LockOp then !Held(t, r.name) else Held(t, r.name) }

  function Locks(t: Table, r: Req): map<string, bool> {
    if Decide(t, r) then t.locks[r.name := r.kind == LockOp] else t.locks
  }

  function Serve(t: Table, r: Req): Table {
    if r.uuid in t.replays then t else Table(Locks(t, r), t.replays[r.uuid := Decide(t, r)])
  }

  predicate Result(t: Table, r: Req) {
    if r.uuid in t.replays then t.replays[r.uuid] else Decide(t, r)
  }

  // What becomes of a server that a clerk calls.
  datatype Fate = Replies | Dead | DiesBeforeReply

  class LockServer {
    const amPrimary: bool
    var locks: map<string, bool>
    var replays: map<Uuid, bool>

    ghost function State(): Table
      reads this
    {
      Table(locks, replays)
    }

    constructor (amPrimary: bool)
      ensures State() == NO_LOCKS && this.amPrimary == amPrimary
    {
      this.amPrimary := amPrimary;
      locks, replays := map[], map[];
    }

    // At the backup: nothing is forwarded.
    method ServeAlone(r: Req) returns (ok: bool)
      modifies this
      ensures State() == Serve(old(State()), r) && ok == Result(old(State()), r)
      ensures r.uuid in old(replays) ==> ok == old(replays)[r.uuid]
      ensures r.uuid !in old(replays) ==> (ok <==> (r.name in old(locks) && old(locks)[r.name]) != (r.kind == LockOp))
      ensures locks == if ok && r.uuid !in old(replays) then old(locks)[r.name := r.kind == LockOp] else old(locks)
      ensures replays == old(replays)[r.uuid := ok]
    {
      if r.uuid in replays {
        return replays[r.uuid];
      }
      var locked := r.name in locks && locks[r.name];
      ok := if r.kind == LockOp then !locked else locked;
      if ok {
        locks := locks[r.name := r.kind == LockOp];
      }
      replays := replays[r.uuid := ok];
    }

    // Lock and Unlock; backup is null when it cannot be reached.
    method Handle(r: Req, backup: LockServer?) returns (ok: bool)
      requires backup != this
      modifies this, backup
      ensures State() == Serve(old(State()), r) && ok == Result(old(State()), r)
      ensures r.uuid in old(replays) ==> ok == old(replays)[r.uuid]
      ensures r.uuid !in old(replays) ==> (ok <==> (r.name in old(locks) && old(locks)[r.name]) != (r.kind == LockOp))
      ensures locks == if ok && r.uuid !in old(replays) then old(locks)[r.name := r.kind == LockOp] else old(locks)
      ensures replays == old(replays)[r.uuid := ok]
      ensures backup != null ==>
                backup.State() == if amPrimary && r.uuid !in old(replays) then Serve(old(backup.State()), r)
                                  else old(backup.State())
    {
      if r.uuid in replays {
        return replays[r.uuid];
      }
      var locked := r.name in locks && locks[r.name];
      if r.kind == LockOp {
        ok := !locked;
        if ok {
          locks := locks[r.name := true];
        }
      } else {
        ok := locked;
        if ok {
          locks := locks[r.name := false];
        }
      }
      if amPrimary && backup != null {
        var _ := backup.ServeAlone(r);
      }
      replays := replays[r.uuid := ok];
    }
  }

  // Clerk.Lock and Clerk.Unlock: the primary first, then the backup with the same Uuid.
  method Call(r: Req, primary: LockServer, backup: LockServer, fate: Fate, backupUp: bool) returns (ok: bool)
    requires primary != backup && primary.amPrimary && !backup.amPrimary
    modifies primary, backup
    ensures primary.State() == if fate == Dead then old(primary.State()) else Serve(old(primary.State()), r)
    // However the primary fares, one request counts once at a backup that is up.
    ensures old(primary.State() == backup.State()) && backupUp ==>
              backup.State() == Serve(old(backup.State()), r) && ok == Result(old(backup.State()), r)
              && (r.uuid !in old(backup.replays) ==>
                    (ok <==> (r.name in old(backup.locks) && old(backup.locks)[r.name]) != (r.kind == LockOp)))
    ensures !backupUp ==>
              backup.State() == old(backup.State())
              && ok == (fate == Replies && Result(old(primary.State()), r))
  {
    var answered := false;
    if fate != Dead {
      ok := primary.Handle(r, if backupUp then backup else null);
      answered := fate == Replies;
    }
    if !answered {
      if !backupUp {
        return false;
      }
      ok := backup.ServeAlone(r);
    }
  }
}
