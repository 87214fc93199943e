// The cache under concurrent use: Get looks an entry up under the lock of the cache and
// records its miss later, under the lock of the entry. When the lists are the history of
// misses, and when a miss is lost.

module LeaseRuns {
  import opened Wrappers
  import opened LeaseCache

  type Val = string

  // An entry ever made, and the key it was made for.
  datatype Obj = Obj(owner: string, entry: Entry<Val>)

  // What a call holds between its halves: the number of its entry.
  datatype Handle = ForGet(key: string, id: nat) | ForGrant(key: string, id: nat) | ForRevoke(key: string,
      id: nat) | Used

  datatype Miss = Miss(key: string, time: int)

  // misses: every miss that was recorded. last: the time of the last step that read the clock.
  datatype Sys = Sys(
    objs: seq<Obj>, cache: map<string, nat>, handles: seq<Handle>,
    misses: seq<Miss>, last: int, panicked: bool)

  const EMPTY: Sys := Sys([], map[], [], [], 0, false)

  datatype Step =
    | Lookup(key: string, now: int)
    | Finish(i: nat, now: int)
    | FindForGrant(key: string)
    | GrantEntry(i: nat, val: Val, validSeconds: int, now: int)
    | FindForRevoke(key: string)
    | RevokeEntry(i: nat)

  function Slot(s: Sys, key: string): Option<Entry<Val>> {
    if key in s.cache && s.cache[key] < |s.objs| then Some(s.objs[s.cache[key]].entry) else None
  }

  function EvictAll(s: Sys, now: int): Sys {
    s.(objs := seq(|s.objs|, id requires 0 <= id < |s.objs| =>
                 if id in s.cache.Values then s.objs[id].(entry := Refreshed(s.objs[id].entry, now)) else s.objs[id]),
       cache := map k | k in s.cache && Kept(Slot(s, k), now).Some? :: s.cache[k],
       last := now)
  }

  function FindOrMake(s: Sys, key: string): Sys {
    if key in s.cache then s.(handles := s.handles + [ForGet(key, s.cache[key])])
    else s.(objs := s.objs + [Obj(key, NewEntry())], cache := s.cache[key := |s.objs|],
            handles := s.handles + [ForGet(key, |s.objs|)])
  }

  predicate HasHandle(s: Sys, i: nat) { i < |s.handles| && !s.handles[i].Used? && s.handles[i].id < |s.objs| }

  function WithEntry(s: Sys, id: nat, e: Entry<Val>): Sys
    requires id < |s.objs|
  {
    s.(objs := s.objs[id := s.objs[id].(entry := e)])
  }

  function Apply(s: Sys, step: Step): Sys {
    if s.panicked then s else
    match step
    case Lookup(key, now) => FindOrMake(EvictAll(s, now), key)
    case Finish(i, now) =>
      if HasHandle(s, i) && s.handles[i].ForGet? then
        var h := s.handles[i];
        var s1 := s.(handles := s.handles[i := Used], last := now);
        if s.objs[h.id].entry.granted then s1
        else WithEntry(s1, h.id, Missed(s.objs[h.id].entry, now)).(misses := s.misses + [Miss(h.key, now)])
      else s
    case FindForGrant(key) =>
      if key in s.cache then s.(handles := s.handles + [ForGrant(key, s.cache[key])]) else s.(panicked := true)
    case GrantEntry(i, val, secs, now) =>
      if HasHandle(s, i) && s.handles[i].ForGrant? then
        WithEntry(s.(handles := s.handles[i := Used], last := now), s.handles[i].id,
                  Leased(s.objs[s.handles[i].id].entry, val, secs, now))
      else s
    case FindForRevoke(key) =>
      if key in s.cache then s.(handles := s.handles + [ForRevoke(key, s.cache[key])]) else s
    case RevokeEntry(i) =>
      if HasHandle(s, i) && s.handles[i].ForRevoke? then
        WithEntry(s.(handles := s.handles[i := Used]), s.handles[i].id,
                  s.objs[s.handles[i].id].entry.(granted := false))
      else s
  }

  // The clock does not go back.
  predicate Timed(s: Sys, step: Step) {
    step.Lookup? || step.Finish? || step.GrantEntry? ==> s.last <= step.now
  }

  predicate IsRun(ss: seq<Sys>, steps: seq<Step>) {
    && |ss| == |steps| + 1 && ss[0] == EMPTY
    && forall k {:trigger steps[k]} :: 0 <= k < |steps| ==>
         Timed(ss[k], steps[k]) && ss[k + 1] == Apply(ss[k], steps[k])
  }

  // ------------------------------------------------------------------------------
  // The plain form: the history of misses
  // ------------------------------------------------------------------------------

  function MissTimes(misses: seq<Miss>, key: string): seq<int> {
    if misses == [] then []
    else MissTimes(misses[..|misses| - 1], key)
         + if misses[|misses| - 1].key == key then [misses[|misses| - 1].time] else []
  }

  lemma MissAppend(misses: seq<Miss>, misses': seq<Miss>, m: Miss, key: string)
    requires misses' == misses + [m]
    ensures MissTimes(misses', key) == MissTimes(misses, key) + if m.key == key then [m.time] else []
  {
    assert misses'[..|misses'| - 1] == misses;
  }

  function ListOf(s: Sys, key: string): seq<int> {
    if Slot(s, key).Some? then Slot(s, key).value.ll else []
  }

  // The list remembers exactly the misses that can still matter.
  predicate Agrees(ts: seq<int>, all: seq<int>, last: int) { Recent(ts, last) == Recent(all, last) }

  ghost predicate Tracks(s: Sys) { forall k :: Agrees(ListOf(s, k), MissTimes(s.misses, k), s.last) }

  predicate MissedOften(misses: seq<Miss>, key: string, now: int) {
    |Recent(MissTimes(misses, key), now)| > THRESHOLD
  }

  // ------------------------------------------------------------------------------
  // Entries, handles and times
  // ------------------------------------------------------------------------------

  predicate ObjsOk(objs: seq<Obj>, last: int) {
    forall id :: 0 <= id < |objs| ==> InTimeOrder(objs[id].entry.ll, last)
  }

  predicate CacheOk(s: Sys) {
    forall k :: k in s.cache ==> s.cache[k] < |s.objs| && s.objs[s.cache[k]].owner == k
  }

  predicate HandlesOk(s: Sys) {
    forall i :: 0 <= i < |s.handles| && !s.handles[i].Used? ==>
      s.handles[i].id < |s.objs| && s.objs[s.handles[i].id].owner == s.handles[i].key
  }

  predicate Shape(s: Sys) { ObjsOk(s.objs, s.last) && CacheOk(s) && HandlesOk(s) }

  lemma LaterInOrder(ts: seq<int>, last: int, now: int)
    requires InTimeOrder(ts, last) && last <= now
    ensures InTimeOrder(ts, now)
  {
  }

  lemma EvictShape(s: Sys, now: int)
    requires Shape(s) && s.last <= now
    ensures Shape(EvictAll(s, now))
  {
    var s' := EvictAll(s, now);
    forall id | 0 <= id < |s'.objs| ensures InTimeOrder(s'.objs[id].entry.ll, now) {
      RecentIsInTimeOrder(s.objs[id].entry.ll, s.last, now);
    }
  }

  lemma MakeShape(s: Sys, key: string)
    requires Shape(s)
    ensures Shape(FindOrMake(s, key))
  {
  }

  lemma AppendInOrder(ts: seq<int>, now: int)
    requires InTimeOrder(ts, now)
    ensures InTimeOrder(ts + [now], now)
  {
    assert forall i :: 0 <= i < |ts| ==> ts[i] in ts;
  }

  lemma FinishShape(s: Sys, i: nat, now: int)
    requires Shape(s) && !s.panicked && s.last <= now
    ensures Shape(Apply(s, Finish(i, now)))
  {
    var s' := Apply(s, Finish(i, now));
    forall id | 0 <= id < |s'.objs| ensures InTimeOrder(s'.objs[id].entry.ll, s'.last) {
      LaterInOrder(s.objs[id].entry.ll, s.last, now);
      AppendInOrder(s.objs[id].entry.ll, now);
    }
  }

  lemma StepShape(s: Sys, step: Step, s': Sys)
    requires Shape(s) && Timed(s, step) && s' == Apply(s, step)
    ensures Shape(s')
  {
    if !s.panicked {
      match step {
        case Lookup(key, now) =>
          EvictShape(s, now);
          MakeShape(EvictAll(s, now), key);
        case Finish(i, now) => FinishShape(s, i, now);
        case _ =>
      }
    }
  }

  lemma {:induction false} RunShape(ss: seq<Sys>, steps: seq<Step>, k: nat)
    requires IsRun(ss, steps) && k <= |steps|
    ensures Shape(ss[k])
    decreases k
  {
    if k > 0 {
      RunShape(ss, steps, k - 1);
      StepShape(ss[k - 1], steps[k - 1], ss[k]);
    }
  }

  // ------------------------------------------------------------------------------
  // When the lists are the history
  // ------------------------------------------------------------------------------

  // The entry was dropped from the cache while the call held it.
  predicate Orphan(s: Sys, h: Handle)
    requires !h.Used?
  {
    !(h.key in s.cache && s.cache[h.key] == h.id)
  }

  // The step records a miss in an entry that is no longer in the cache.
  predicate LosesMiss(s: Sys, step: Step) {
    !s.panicked && step.Finish? && HasHandle(s, step.i) && s.handles[step.i].ForGet?
    && !s.objs[s.handles[step.i].id].entry.granted && Orphan(s, s.handles[step.i])
  }

  lemma AgreesLater(ts: seq<int>, all: seq<int>, last: int, now: int)
    requires Agrees(ts, all, last) && last <= now
    ensures Agrees(ts, all, now)
  {
    RecentOfRecent(ts, last, now);
    RecentOfRecent(all, last, now);
  }

  // After the eviction round of a lookup, every list is the whole history of its key,
  // cut to the window.
  lemma LookupLists(s: Sys, key: string, now: int, s': Sys, k: string)
    requires Shape(s) && Tracks(s) && !s.panicked && s.last <= now && s' == Apply(s, Lookup(key, now))
    ensures ListOf(s', k) == Recent(MissTimes(s'.misses, k), now) && Agrees(ListOf(s', k), MissTimes(s'.misses, k), now)
  {
    assert Agrees(ListOf(s, k), MissTimes(s.misses, k), s.last);
    AgreesLater(ListOf(s, k), MissTimes(s.misses, k), s.last, now);
    assert ListOf(s', k) == Recent(ListOf(s, k), now);
    RecentOfRecent(MissTimes(s.misses, k), now, now);
  }

  lemma SameListsTrack(s: Sys, s': Sys)
    requires Tracks(s) && s.last <= s'.last && s'.misses == s.misses && forall k :: ListOf(s', k) == ListOf(s, k)
    ensures Tracks(s')
  {
    forall k ensures Agrees(ListOf(s', k), MissTimes(s'.misses, k), s'.last) {
      assert Agrees(ListOf(s, k), MissTimes(s.misses, k), s.last);
      AgreesLater(ListOf(s, k), MissTimes(s.misses, k), s.last, s'.last);
    }
  }

  // One more miss, with or without the list of its key noting it.
  lemma NotedOrNot(ts: seq<int>, ts': seq<int>, all: seq<int>, last: int, now: int, noted: bool)
    requires Agrees(ts, all, last) && last <= now && ts' == if noted then ts + [now] else ts
    ensures Agrees(ts', all + [now], now) <==> noted
  {
    AgreesLater(ts, all, last, now);
    RecentAppend(all, now, now);
    RecentAppend(ts, now, now);
    assert |Recent(all + [now], now)| == |Recent(ts, now)| + 1;
  }

  predicate Records(s: Sys, i: nat) {
    !s.panicked && HasHandle(s, i) && s.handles[i].ForGet? && !s.objs[s.handles[i].id].entry.granted
  }

  lemma RecordedMiss(s: Sys, i: nat, now: int, s': Sys)
    requires Shape(s) && Tracks(s) && s.last <= now && Records(s, i) && s' == Apply(s, Finish(i, now))
    ensures Tracks(s') <==> !Orphan(s, s.handles[i])
  {
    var h := s.handles[i];
    var noted := !Orphan(s, h);
    assert s'.misses == s.misses + [Miss(h.key, now)];
    MissAppend(s.misses, s'.misses, Miss(h.key, now), h.key);
    assert Agrees(ListOf(s, h.key), MissTimes(s.misses, h.key), s.last);
    assert ListOf(s', h.key) == if noted then ListOf(s, h.key) + [now] else ListOf(s, h.key);
    NotedOrNot(ListOf(s, h.key), ListOf(s', h.key), MissTimes(s.misses, h.key), s.last, now, noted);
    if noted {
      forall k ensures Agrees(ListOf(s', k), MissTimes(s'.misses, k), now) {
        if k != h.key {
          MissAppend(s.misses, s'.misses, Miss(h.key, now), k);
          assert Agrees(ListOf(s, k), MissTimes(s.misses, k), s.last);
          AgreesLater(ListOf(s, k), MissTimes(s.misses, k), s.last, now);
          OtherList(s, i, now, s', k);
        }
      }
    } else {
      assert !Agrees(ListOf(s', h.key), MissTimes(s'.misses, h.key), s'.last);
    }
  }

  lemma OtherList(s: Sys, i: nat, now: int, s': Sys, k: string)
    requires Shape(s) && Records(s, i) && s' == Apply(s, Finish(i, now)) && k != s.handles[i].key
    ensures ListOf(s', k) == ListOf(s, k)
            && MissTimes(s.misses + [Miss(s.handles[i].key, now)], k) == MissTimes(s.misses, k)
  {
    MissAppend(s.misses, s.misses + [Miss(s.handles[i].key, now)], Miss(s.handles[i].key, now), k);
  }

  // A step that records nothing keeps every list.
  lemma QuietStep(s: Sys, step: Step, s': Sys)
    requires Shape(s) && Timed(s, step) && s' == Apply(s, step) && !step.Lookup?
    requires step.Finish? ==> !Records(s, step.i)
    ensures s.last <= s'.last && s'.misses == s.misses && forall k :: ListOf(s', k) == ListOf(s, k)
  {
  }

  lemma StepTracks(s: Sys, step: Step, s': Sys)
    requires Shape(s) && Tracks(s) && Timed(s, step) && s' == Apply(s, step)
    ensures Tracks(s') <==> !LosesMiss(s, step)
  {
    if step.Lookup? && !s.panicked {
      forall k ensures Agrees(ListOf(s', k), MissTimes(s'.misses, k), s'.last) {
        LookupLists(s, step.key, step.now, s', k);
      }
    } else if step.Finish? && Records(s, step.i) {
      RecordedMiss(s, step.i, step.now, s');
    } else if step.Lookup? {
      assert s' == s;
    } else {
      QuietStep(s, step, s');
      SameListsTrack(s, s');
    }
  }

  // In every run, the lists hold exactly the misses of the window at all times if and
  // only if no miss is recorded in an entry that has been dropped.
  lemma ListsAreTheHistory(ss: seq<Sys>, steps: seq<Step>)
    requires IsRun(ss, steps)
    ensures (forall k :: 0 <= k <= |steps| ==> Tracks(ss[k])) <==> (forall k :: 0 <= k < |steps| ==>
            !LosesMiss(ss[k], steps[k]))
  {
    if forall k :: 0 <= k < |steps| ==> !LosesMiss(ss[k], steps[k]) {
      forall k | 0 <= k <= |steps| ensures Tracks(ss[k]) {
        TracksUpTo(ss, steps, k);
      }
    } else {
      var k :| 0 <= k < |steps| && LosesMiss(ss[k], steps[k]);
      RunShape(ss, steps, k);
      if Tracks(ss[k]) {
        StepTracks(ss[k], steps[k], ss[k + 1]);
      }
    }
  }

  lemma {:induction false} TracksUpTo(ss: seq<Sys>, steps: seq<Step>, k: nat)
    requires IsRun(ss, steps) && k <= |steps|
    requires forall j :: 0 <= j < k ==> !LosesMiss(ss[j], steps[j])
    ensures Tracks(ss[k])
    decreases k
  {
    if k > 0 {
      TracksUpTo(ss, steps, k - 1);
      RunShape(ss, steps, k - 1);
      assert ss[k] == Apply(ss[k - 1], steps[k - 1]) && Timed(ss[k - 1], steps[k - 1]);
      assert !LosesMiss(ss[k - 1], steps[k - 1]);
      StepTracks(ss[k - 1], steps[k - 1], ss[k]);
    }
  }

  // A lookup then leaves under every key its whole history, cut to the window.
  lemma ListsAfterLookup(ss: seq<Sys>, steps: seq<Step>, k: nat, key: string)
    requires IsRun(ss, steps) && k < |steps|
    requires forall j :: 0 <= j < k ==> !LosesMiss(ss[j], steps[j])
    ensures steps[k].Lookup? && !ss[k].panicked ==>
              ListOf(ss[k + 1], key) == Recent(MissTimes(ss[k + 1].misses, key), steps[k].now)
  {
    TracksUpTo(ss, steps, k);
    RunShape(ss, steps, k);
    assert ss[k + 1] == Apply(ss[k], steps[k]) && Timed(ss[k], steps[k]);
    if steps[k].Lookup? && !ss[k].panicked {
      LookupLists(ss[k], steps[k].key, steps[k].now, ss[k + 1], key);
    }
  }

  // A lease is wanted whenever the plain count of misses in the window, this one included,
  // exceeds the threshold; and only then, unless the oldest noted miss has left the window
  // since the lookup.
  lemma WantsLease(s: Sys, i: nat, now: int)
    requires Shape(s) && Tracks(s) && s.last <= now && Records(s, i) && !Orphan(s, s.handles[i])
    ensures var h := s.handles[i];
      var ll, misses := s.objs[h.id].entry.ll, s.misses + [Miss(h.key, now)];
      && (MissedOften(misses, h.key, now) ==> |ll| + 1 > THRESHOLD)
      && (ll == [] || now - ll[0] <= WINDOW ==> (|ll| + 1 > THRESHOLD <==> MissedOften(misses, h.key, now)))
  {
    var h := s.handles[i];
    var ll := ListOf(s, h.key);
    assert Agrees(ll, MissTimes(s.misses, h.key), s.last) && InTimeOrder(s.objs[h.id].entry.ll, s.last);
    AgreesLater(ll, MissTimes(s.misses, h.key), s.last, now);
    MissAppend(s.misses, s.misses + [Miss(h.key, now)], Miss(h.key, now), h.key);
    RecentAppend(MissTimes(s.misses, h.key), now, now);
    RecentIsShorter(ll, now);
    if ll == [] || now - ll[0] <= WINDOW {
      RecentKeepsAll(ll, now);
    }
  }

  lemma {:induction false} RecentIsShorter(ts: seq<int>, now: int)
    ensures |Recent(ts, now)| <= |ts|
  {
    if ts != [] {
      RecentIsShorter(ts[1..], now);
    }
  }

  // Grant does not panic on a key that was missed within the window.
  lemma RecentlyMissedIsCached(s: Sys, key: string)
    requires Tracks(s) && Recent(MissTimes(s.misses, key), s.last) != []
    ensures key in s.cache
  {
    assert Agrees(ListOf(s, key), MissTimes(s.misses, key), s.last);
  }

  // ------------------------------------------------------------------------------
  // When an entry is dropped under a call that holds it
  // ------------------------------------------------------------------------------

  // The eviction round of this lookup finds no recent miss in the entry.
  predicate Drops(s: Sys, step: Step, id: nat) {
    !s.panicked && step.Lookup? && id < |s.objs| && Recent(s.objs[id].entry.ll, step.now) == []
  }

  predicate Owned(s: Sys, h: Handle) { !h.Used? && h.id < |s.objs| && s.objs[h.id].owner == h.key }

  lemma EvictionDrops(s: Sys, now: int, h: Handle)
    requires CacheOk(s) && Owned(s, h)
    ensures Owned(EvictAll(s, now), h) && CacheOk(EvictAll(s, now))
    ensures Orphan(EvictAll(s, now), h) <==> Orphan(s, h) || Recent(s.objs[h.id].entry.ll, now) == []
  {
  }

  lemma MakingKeeps(s: Sys, key: string, h: Handle)
    requires CacheOk(s) && Owned(s, h)
    ensures Owned(FindOrMake(s, key), h) && (Orphan(FindOrMake(s, key), h) <==> Orphan(s, h))
  {
  }

  lemma OtherStepsKeep(s: Sys, step: Step, s': Sys, h: Handle)
    requires CacheOk(s) && Owned(s, h) && s' == Apply(s, step) && (s.panicked || !step.Lookup?)
    ensures Owned(s', h) && (Orphan(s', h) <==> Orphan(s, h))
  {
    assert s'.cache == s.cache;
  }

  lemma StaysOrphan(s: Sys, step: Step, s': Sys, h: Handle)
    requires CacheOk(s) && Owned(s, h) && s' == Apply(s, step)
    ensures Owned(s', h) && (Orphan(s', h) <==> Orphan(s, h) || Drops(s, step, h.id))
  {
    if step.Lookup? && !s.panicked {
      EvictionDrops(s, step.now, h);
      MakingKeeps(EvictAll(s, step.now), step.key, h);
    } else {
      OtherStepsKeep(s, step, s', h);
    }
  }

  lemma OrphanAfter(ss: seq<Sys>, steps: seq<Step>, k: nat, h: Handle)
    requires IsRun(ss, steps) && k < |steps| && Owned(ss[k], h)
    ensures Owned(ss[k + 1], h) && (Orphan(ss[k + 1], h) <==> Orphan(ss[k], h) || Drops(ss[k], steps[k], h.id))
  {
    RunShape(ss, steps, k);
    assert ss[k + 1] == Apply(ss[k], steps[k]);
    StaysOrphan(ss[k], steps[k], ss[k + 1], h);
  }

  ghost predicate DroppedBetween(ss: seq<Sys>, steps: seq<Step>, c: nat, k: nat, id: nat)
    requires c <= k <= |steps| < |ss|
  {
    exists m :: c <= m < k && Drops(ss[m], steps[m], id)
  }

  lemma DroppedByTheLast(ss: seq<Sys>, steps: seq<Step>, c: nat, k: nat, id: nat)
    requires c <= k < |steps| < |ss|
    ensures DroppedBetween(ss, steps, c, k + 1, id) <==> DroppedBetween(ss, steps, c, k, id) || Drops(ss[k],
            steps[k], id)
  {
  }

  // Step j drops the entry of h or leaves it where it is.
  predicate OrphanStep(ss: seq<Sys>, steps: seq<Step>, j: nat, h: Handle)
    requires j < |steps| && j + 1 < |ss|
  {
    Owned(ss[j], h) ==>
      Owned(ss[j + 1], h) && (Orphan(ss[j + 1], h) <==> Orphan(ss[j], h) || Drops(ss[j], steps[j], h.id))
  }

  lemma {:induction false} OrphanUpTo(ss: seq<Sys>, steps: seq<Step>, c: nat, k: nat, h: Handle)
    requires c <= k <= |steps| < |ss| && Owned(ss[c], h) && !Orphan(ss[c], h)
    requires forall j :: c <= j < k ==> OrphanStep(ss, steps, j, h)
    ensures Owned(ss[k], h) && (Orphan(ss[k], h) <==> DroppedBetween(ss, steps, c, k, h.id))
    decreases k
  {
    if c < k {
      OrphanUpTo(ss, steps, c, k - 1, h);
      assert OrphanStep(ss, steps, k - 1, h);
      DroppedByTheLast(ss, steps, c, k - 1, h.id);
    }
  }

  // A call that has looked up its entry at step c holds an orphan at step k if and only if
  // some lookup in between found no recent miss in that entry: in particular, one that
  // falls between the making of an entry and its first miss.
  lemma OrphanIffDropped(ss: seq<Sys>, steps: seq<Step>, c: nat, k: nat, h: Handle)
    requires IsRun(ss, steps) && c <= k <= |steps| && Owned(ss[c], h) && !Orphan(ss[c], h)
    ensures Owned(ss[k], h) && (Orphan(ss[k], h) <==> DroppedBetween(ss, steps, c, k, h.id))
  {
    forall j | c <= j < k ensures OrphanStep(ss, steps, j, h) {
      if Owned(ss[j], h) {
        OrphanAfter(ss, steps, j, h);
      }
    }
    OrphanUpTo(ss, steps, c, k, h);
  }

  // The entry a lookup hands out is the one in the cache.
  lemma LookedUp(s: Sys, key: string, now: int, s': Sys)
    requires Shape(s) && !s.panicked && s.last <= now && s' == Apply(s, Lookup(key, now))
    ensures |s'.handles| == |s.handles| + 1 && var h := s'.handles[|s.handles|];
      h.ForGet? && h.key == key && Owned(s', h) && !Orphan(s', h)
  {
    EvictShape(s, now);
  }

  // The call that looks up at step c holds its entry as long as it has not finished: the
  // entry has been dropped by step k if and only if some lookup in between found no recent
  // miss in it.
  lemma HeldEntryIsDroppedIff(ss: seq<Sys>, steps: seq<Step>, c: nat, k: nat)
    requires IsRun(ss, steps) && c < k <= |steps| && steps[c].Lookup? && !ss[c].panicked
    ensures |ss[c].handles| < |ss[c + 1].handles|
    ensures var h := ss[c + 1].handles[|ss[c].handles|];
      && h.ForGet? && h.key == steps[c].key && Owned(ss[k], h)
      && (Orphan(ss[k], h) <==> DroppedBetween(ss, steps, c + 1, k, h.id))
  {
    RunShape(ss, steps, c);
    assert ss[c + 1] == Apply(ss[c], steps[c]) && Timed(ss[c], steps[c]);
    LookedUp(ss[c], steps[c].key, steps[c].now, ss[c + 1]);
    OrphanIffDropped(ss, steps, c + 1, k, ss[c + 1].handles[|ss[c].handles|]);
  }

  // It happens: a second lookup drops the empty entry of the first, whose miss is then
  // lost, and a grant for the key panics although the key has just been missed.
  lemma MissIsLost() returns (ss: seq<Sys>, steps: seq<Step>)
    ensures IsRun(ss, steps) && |steps| == 4 && LosesMiss(ss[2], steps[2]) && !Tracks(ss[3])
    ensures Recent(MissTimes(ss[3].misses, "k"), ss[3].last) == [2]
    ensures steps[3] == FindForGrant("k") && ss[4].panicked
  {
    steps := [Lookup("k", 0), Lookup("j", 1), Finish(0, 2), FindForGrant("k")];
    ss := [EMPTY, S1, S2, S3, S3.(panicked := true)];
    FirstLookup();
    SecondLookup();
    LostFinish();
  }

  const MADE: Entry<Val> := NewEntry()
  const S1: Sys := Sys([Obj("k", MADE)], map["k" := 0], [ForGet("k", 0)], [], 0, false)
  const S2: Sys := Sys([Obj("k", MADE), Obj("j", MADE)], map["j" := 1], [ForGet("k", 0), ForGet("j", 1)], [], 1, false)
  const S3: Sys := Sys([Obj("k", Missed(MADE, 2)), Obj("j", MADE)], map["j" := 1], [Used, ForGet("j", 1)],
      [Miss("k", 2)], 2, false)

  lemma FirstLookup()
    ensures Apply(EMPTY, Lookup("k", 0)) == S1
  {
    assert EvictAll(EMPTY, 0) == EMPTY;
  }

  lemma SecondLookup()
    ensures Apply(S1, Lookup("j", 1)) == S2
  {
    assert EvictAll(S1, 1).objs == [Obj("k", MADE)];
    assert EvictAll(S1, 1).cache == map[];
  }

  lemma LostFinish()
    ensures Apply(S2, Finish(0, 2)) == S3 && LosesMiss(S2, Finish(0, 2))
    ensures Recent(MissTimes(S3.misses, "k"), 2) == [2] && !Tracks(S3)
  {
    MissAppend([], [Miss("k", 2)], Miss("k", 2), "k");
    assert Recent([2][1..], 2) == [];
    assert !Agrees(ListOf(S3, "k"), MissTimes(S3.misses, "k"), 2);
  }

  // ------------------------------------------------------------------------------
  // How long a value is served
  // ------------------------------------------------------------------------------

  predicate Serves(s: Sys, i: nat) {
    !s.panicked && HasHandle(s, i) && s.handles[i].ForGet? && s.objs[s.handles[i].id].entry.granted
  }

  // The lease had not run out at that time, or is a later one.
  predicate LeasedSince(e: Entry<Val>, since: int) {
    e.granted ==> since - e.leaseTime <= e.leaseDur || since <= e.leaseTime
  }

  lemma LookupRefreshes(s: Sys, key: string, now: int, s': Sys)
    requires Shape(s) && !s.panicked && s.last <= now && s' == Apply(s, Lookup(key, now))
    ensures s'.last == now && |s'.handles| == |s.handles| + 1 && s'.handles[|s.handles|].ForGet?
    ensures var id := s'.handles[|s.handles|].id; id < |s'.objs| && LeasedSince(s'.objs[id].entry, now)
  {
    var s1 := EvictAll(s, now);
    EvictShape(s, now);
    if key in s1.cache {
      assert s1.cache[key] in s.cache.Values;
    }
  }

  lemma StepKeepsLease(s: Sys, step: Step, s': Sys, id: nat, since: int)
    requires Timed(s, step) && s' == Apply(s, step) && since <= s.last
    requires id < |s.objs| && LeasedSince(s.objs[id].entry, since)
    ensures since <= s'.last && id < |s'.objs| && LeasedSince(s'.objs[id].entry, since)
  {
  }

  lemma StepKeepsHandle(s: Sys, step: Step, s': Sys, i: nat)
    requires s' == Apply(s, step) && i < |s.handles|
    ensures i < |s'.handles| && (s'.handles[i] == s.handles[i] || s'.handles[i].Used?)
  {
  }

  // The entry that the handle made at step c stands for, and its lease.
  predicate Holds(s: Sys, i: nat, id: nat, since: int) {
    && since <= s.last && id < |s.objs| && LeasedSince(s.objs[id].entry, since)
    && i < |s.handles| && (s.handles[i].Used? || s.handles[i].id == id)
  }

  lemma HoldsStep(s: Sys, step: Step, s': Sys, i: nat, id: nat, since: int)
    requires Holds(s, i, id, since) && Timed(s, step) && s' == Apply(s, step)
    ensures Holds(s', i, id, since)
  {
    StepKeepsLease(s, step, s', id, since);
    StepKeepsHandle(s, step, s', i);
  }

  lemma {:induction false} HoldsUpTo(ss: seq<Sys>, steps: seq<Step>, c: nat, k: nat, i: nat, id: nat, since: int)
    requires IsRun(ss, steps) && c <= k <= |steps| && Holds(ss[c], i, id, since)
    ensures Holds(ss[k], i, id, since)
    decreases k
  {
    if c < k {
      HoldsUpTo(ss, steps, c, k - 1, i, id, since);
      assert ss[k] == Apply(ss[k - 1], steps[k - 1]) && Timed(ss[k - 1], steps[k - 1]);
      HoldsStep(ss[k - 1], steps[k - 1], ss[k], i, id, since);
    }
  }

  // In every run, a value is served under a lease that began after the lookup, or that has
  // run out for no longer than the call took from its lookup (at step c) to its end (at k).
  lemma ServedLeaseIsAlmostValid(ss: seq<Sys>, steps: seq<Step>, c: nat, k: nat)
    requires IsRun(ss, steps) && c < k < |steps| && steps[c].Lookup? && !ss[c].panicked
    requires steps[k].Finish? && steps[k].i == |ss[c].handles| && Serves(ss[k], steps[k].i)
    ensures var e := ss[k].objs[ss[k].handles[steps[k].i].id].entry;
      || steps[c].now <= e.leaseTime
      || steps[k].now - e.leaseTime <= e.leaseDur + (steps[k].now - steps[c].now)
  {
    RunShape(ss, steps, c);
    assert ss[c + 1] == Apply(ss[c], steps[c]) && Timed(ss[c], steps[c]);
    LookupRefreshes(ss[c], steps[c].key, steps[c].now, ss[c + 1]);
    var i := |ss[c].handles|;
    HoldsUpTo(ss, steps, c + 1, k, i, ss[c + 1].handles[i].id, steps[c].now);
  }

  // So a call that takes no time serves nothing that has run out.
  lemma PromptCallServesValidLease(ss: seq<Sys>, steps: seq<Step>, c: nat, k: nat)
    requires IsRun(ss, steps) && c < k < |steps| && steps[c].Lookup? && !ss[c].panicked
    requires steps[k].Finish? && steps[k].i == |ss[c].handles| && Serves(ss[k], steps[k].i)
    requires steps[k].now == steps[c].now && ss[k].objs[ss[k].handles[steps[k].i].id].entry.leaseDur >= 0
    ensures !Expired(ss[k].objs[ss[k].handles[steps[k].i].id].entry, steps[k].now)
  {
    ServedLeaseIsAlmostValid(ss, steps, c, k);
  }

  // ------------------------------------------------------------------------------
  // Which value is served
  // ------------------------------------------------------------------------------

  // The step stores a value in entry id.
  predicate Grants(s: Sys, step: Step, id: nat) {
    !s.panicked && step.GrantEntry? && HasHandle(s, step.i) && s.handles[step.i].ForGrant? && s.handles[step.i].id == id
  }

  // It revokes the lease of entry id, or is the lookup that finds it run out; the lease is
  // one of `secs` seconds from `since`.
  predicate Ends(s: Sys, step: Step, id: nat, since: int, secs: int) {
    !s.panicked &&
    match step
    case RevokeEntry(i) => HasHandle(s, i) && s.handles[i].ForRevoke? && s.handles[i].id == id
    case Lookup(_, now) => id in s.cache.Values && now - since > secs * SECOND
    case _ => false
  }

  predicate IsLease(e: Entry<Val>, val: Val, secs: int, since: int) {
    e.val == Some(val) && e.leaseTime == since && e.leaseDur == secs * SECOND
  }

  lemma LeaseBegins(s: Sys, step: Step, s': Sys, id: nat)
    requires s' == Apply(s, step) && Grants(s, step, id)
    ensures id < |s'.objs| && s'.objs[id].entry.granted && s'.objs[id].owner == s.objs[id].owner
    ensures IsLease(s'.objs[id].entry, step.val, step.validSeconds, step.now)
  {
  }

  lemma LeaseGoesOn(s: Sys, step: Step, s': Sys, id: nat)
    requires s' == Apply(s, step) && !Grants(s, step, id) && id < |s'.objs| && s'.objs[id].entry.granted
    ensures id < |s.objs| && s.objs[id].entry.granted && s'.objs[id].owner == s.objs[id].owner
  {
  }

  lemma LeaseStep(s: Sys, step: Step, s': Sys, id: nat, val: Val, secs: int, since: int)
    requires s' == Apply(s, step) && !Grants(s, step, id) && id < |s.objs|
    requires IsLease(s.objs[id].entry, val, secs, since)
    ensures id < |s'.objs| && IsLease(s'.objs[id].entry, val, secs, since) && s'.objs[id].owner == s.objs[id].owner
    ensures s'.objs[id].entry.granted <==> s.objs[id].entry.granted && !Ends(s, step, id, since, secs)
  {
  }

  // Step g is the last of the first k that stores a value in entry id, and the lease has
  // not been ended since.
  predicate LeasedBy(ss: seq<Sys>, steps: seq<Step>, g: nat, k: nat, id: nat)
    requires k <= |steps| < |ss|
  {
    && g < k && Grants(ss[g], steps[g], id)
    && forall m :: g < m < k ==>
         !Grants(ss[m], steps[m], id) && !Ends(ss[m], steps[m], id, steps[g].now, steps[g].validSeconds)
  }

  lemma {:induction false} LastGrant(ss: seq<Sys>, steps: seq<Step>, k: nat, id: nat) returns (g: nat)
    requires IsRun(ss, steps) && k <= |steps| && id < |ss[k].objs| && ss[k].objs[id].entry.granted
    ensures LeasedBy(ss, steps, g, k, id)
    ensures IsLease(ss[k].objs[id].entry, steps[g].val, steps[g].validSeconds, steps[g].now)
    ensures id < |ss[g].objs| && ss[k].objs[id].owner == ss[g].objs[id].owner
    decreases k
  {
    var s, step := ss[k - 1], steps[k - 1];
    assert ss[k] == Apply(s, step);
    if Grants(s, step, id) {
      LeaseBegins(s, step, ss[k], id);
      g := k - 1;
    } else {
      LeaseGoesOn(s, step, ss[k], id);
      g := LastGrant(ss, steps, k - 1, id);
      LeaseStep(s, step, ss[k], id, steps[g].val, steps[g].validSeconds, steps[g].now);
    }
  }

  lemma {:induction false} LeaseLasts(ss: seq<Sys>, steps: seq<Step>, g: nat, k: nat, id: nat)
    requires IsRun(ss, steps) && k <= |steps| && LeasedBy(ss, steps, g, k, id)
    ensures id < |ss[k].objs| && ss[k].objs[id].entry.granted
    ensures IsLease(ss[k].objs[id].entry, steps[g].val, steps[g].validSeconds, steps[g].now)
    decreases k
  {
    var s, step := ss[k - 1], steps[k - 1];
    assert ss[k] == Apply(s, step);
    if g == k - 1 {
      LeaseBegins(s, step, ss[k], id);
    } else {
      LeaseLasts(ss, steps, g, k - 1, id);
      LeaseStep(s, step, ss[k], id, steps[g].val, steps[g].validSeconds, steps[g].now);
    }
  }

  // In every run, the end of a Get serves a value if and only if its entry has been granted
  // one, and since the last grant no revoke and no lookup that found the lease run out has
  // come; the value and the lease are those of that grant, which was for the same key.
  lemma ServesTheLastGrant(ss: seq<Sys>, steps: seq<Step>, k: nat, i: nat)
    requires IsRun(ss, steps) && k <= |steps| && !ss[k].panicked && HasHandle(ss[k], i) && ss[k].handles[i].ForGet?
    ensures Serves(ss[k], i) <==> exists g :: 0 <= g < k && LeasedBy(ss, steps, g, k, ss[k].handles[i].id)
    ensures forall g :: 0 <= g < k && LeasedBy(ss, steps, g, k, ss[k].handles[i].id) ==>
              && steps[g].GrantEntry? && steps[g].i < |ss[g].handles| && !ss[g].handles[steps[g].i].Used?
              && IsLease(ss[k].objs[ss[k].handles[i].id].entry, steps[g].val, steps[g].validSeconds, steps[g].now)
              && ss[g].handles[steps[g].i].key == ss[k].handles[i].key
  {
    var id := ss[k].handles[i].id;
    if Serves(ss[k], i) {
      var g := LastGrant(ss, steps, k, id);
    }
    forall g | 0 <= g < k && LeasedBy(ss, steps, g, k, id)
      ensures ss[k].objs[id].entry.granted && ss[g].handles[steps[g].i].key == ss[k].handles[i].key
      ensures IsLease(ss[k].objs[id].entry, steps[g].val, steps[g].validSeconds, steps[g].now)
    {
      LeaseLasts(ss, steps, g, k, id);
      var g' := LastGrant(ss, steps, k, id);
      assert g' == g;
      RunShape(ss, steps, g);
      RunShape(ss, steps, k);
    }
  }

  const GRANTED: Entry<Val> := Leased(Missed(MADE, 0), "v", 10, 0)
  const E1: Sys := Sys([Obj("k", MADE)], map["k" := 0], [ForGet("k", 0)], [], 0, false)
  const E2: Sys := Sys([Obj("k", Missed(MADE, 0))], map["k" := 0], [Used], [Miss("k", 0)], 0, false)
  const E3: Sys := E2.(handles := [Used, ForGrant("k", 0)])
  const E4: Sys := Sys([Obj("k", GRANTED)], map["k" := 0], [Used, Used], [Miss("k", 0)], 0, false)
  const E5: Sys := E4.(handles := [Used, Used, ForGet("k", 0)], last := 5 * SECOND)
  const E6: Sys := E4.(handles := [Used, Used, Used], last := 20 * SECOND)

  // It happens: a lease of 10 seconds is looked up after 5 and its value served after 20.
  lemma ExpiredLeaseIsServed() returns (ss: seq<Sys>, steps: seq<Step>)
    ensures |steps| == 6 && IsRun(ss, steps) && steps[4] == Lookup("k", 5 * SECOND)
            && steps[5] == Finish(2, 20 * SECOND)
    ensures Serves(ss[5], 2) && Expired(ss[5].objs[ss[5].handles[2].id].entry, 20 * SECOND)
  {
    steps := [Lookup("k", 0), Finish(0, 0), FindForGrant("k"), GrantEntry(1, "v", 10, 0),
              Lookup("k", 5 * SECOND), Finish(2, 20 * SECOND)];
    ss := [EMPTY, E1, E2, E3, E4, E5, E6];
    FirstLookup();
    GrantedInTime();
    LookedUpInTime();
    assert Apply(E5, steps[5]) == E6;
  }

  lemma GrantedInTime()
    ensures Apply(E1, Finish(0, 0)) == E2 && Apply(E2, FindForGrant("k")) == E3
    ensures Apply(E3, GrantEntry(1, "v", 10, 0)) == E4
  {
    assert E1.handles[0 := Used] == [Used] && E2.handles + [ForGrant("k", 0)] == E3.handles;
    assert E3.handles[1 := Used] == [Used, Used];
  }

  lemma LookedUpInTime()
    ensures Apply(E4, Lookup("k", 5 * SECOND)) == E5
  {
    var now := 5 * SECOND;
    assert Recent([0][1..], now) == [] && Recent([0], now) == [0];
    assert GRANTED.ll == [0] && !Expired(GRANTED, now);
    assert Refreshed(GRANTED, now) == GRANTED;
    var s := EvictAll(E4, now);
    assert s.objs == [Obj("k", GRANTED)] && s.cache == map["k" := 0];
    assert E4.handles + [ForGet("k", 0)] == E5.handles;
  }
}
