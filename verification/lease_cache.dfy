// The client-side cache of the storage library: when to ask for a lease, and how long a
// leased value is served. Entries are objects of their own: a lookup hands one out, and
// what follows works on it without the lock of the cache.

module LeaseCache {
  import opened Wrappers

  // QUERY_CACHE_SECONDS in nanoseconds, and QUERY_CACHE_THRESH.
  const WINDOW: int := 10_000_000_000
  const SECOND: int := 1_000_000_000
  const THRESHOLD: int := 3

  datatype Entry<V> = Entry(granted: bool, ll: seq<int>, val: Option<V>, leaseTime: int, leaseDur: int)

  function NewEntry<V>(): Entry<V> { Entry(false, [], None, 0, 0) }

  // The times that are at most WINDOW ago.
  function Recent(ts: seq<int>, now: int): seq<int> {
    if ts == [] then []
    else (if now - ts[0] <= WINDOW then [ts[0]] else []) + Recent(ts[1..], now)
  }

  predicate Ascending(ts: seq<int>) { forall i, j :: 0 <= i < j < |ts| ==> ts[i] <= ts[j] }

  predicate InTimeOrder(ts: seq<int>, last: int) { Ascending(ts) && forall t :: t in ts ==> t <= last }

  predicate Expired<V>(e: Entry<V>, now: int) { now - e.leaseTime > e.leaseDur }

  // An entry after an eviction round.
  function Refreshed<V>(e: Entry<V>, now: int): Entry<V> {
    e.(granted := e.granted && !Expired(e, now), ll := Recent(e.ll, now))
  }

  // What an eviction round leaves under a key: nothing when no miss is recent.
  function Kept<V>(e: Option<Entry<V>>, now: int): Option<Entry<V>> {
    if e.Some? && Recent(e.value.ll, now) != [] then Some(Refreshed(e.value, now)) else None
  }

  // What a lookup finds or makes after it.
  function Found<V>(e: Option<Entry<V>>, now: int): Entry<V> {
    if Kept(e, now).Some? then Kept(e, now).value else NewEntry()
  }

  // An entry after a miss.
  function Missed<V>(e: Entry<V>, now: int): Entry<V> { e.(ll := e.ll + [now]) }

  function Leased<V>(e: Entry<V>, val: V, validSeconds: int, now: int): Entry<V> {
    e.(granted := true, val := Some(val), leaseTime := now, leaseDur := validSeconds * SECOND)
  }

  lemma {:induction false} RecentOfRecent(ts: seq<int>, before: int, now: int)
    requires before <= now
    ensures Recent(Recent(ts, before), now) == Recent(ts, now)
  {
    if ts != [] {
      RecentOfRecent(ts[1..], before, now);
      if before - ts[0] <= WINDOW {
        assert Recent(ts, before)[0] == ts[0] && Recent(ts, before)[1..] == Recent(ts[1..], before);
      } else {
        assert Recent(ts, before) == Recent(ts[1..], before) && Recent(ts, now) == Recent(ts[1..], now);
      }
    }
  }

  lemma {:induction false} RecentKeepsAll(ts: seq<int>, now: int)
    requires Ascending(ts) && (ts != [] ==> now - ts[0] <= WINDOW)
    ensures Recent(ts, now) == ts
  {
    if ts != [] {
      RecentKeepsAll(ts[1..], now);
    }
  }

  lemma {:induction false} RecentAppend(ts: seq<int>, t: int, now: int)
    ensures Recent(ts + [t], now) == Recent(ts, now) + if now - t <= WINDOW then [t] else []
  {
    if ts == [] {
      assert Recent([t][1..], now) == [];
    } else {
      assert (ts + [t])[0] == ts[0] && (ts + [t])[1..] == ts[1..] + [t];
      RecentAppend(ts[1..], t, now);
    }
  }

  lemma {:induction false} RecentArePart(ts: seq<int>, now: int, t: int)
    requires t in Recent(ts, now)
    ensures t in ts && now - t <= WINDOW
  {
    if t in Recent(ts[1..], now) {
      RecentArePart(ts[1..], now, t);
    }
  }

  lemma {:induction false} RecentIsAscending(ts: seq<int>, now: int)
    requires Ascending(ts)
    ensures Ascending(Recent(ts, now))
  {
    if ts != [] {
      RecentIsAscending(ts[1..], now);
      var rest := Recent(ts[1..], now);
      forall i | 0 <= i < |rest| ensures ts[0] <= rest[i] {
        RecentArePart(ts[1..], now, rest[i]);
      }
      PrependAscending(ts[0], rest);
    }
  }

  lemma PrependAscending(t: int, rest: seq<int>)
    requires Ascending(rest) && forall i :: 0 <= i < |rest| ==> t <= rest[i]
    ensures Ascending([t] + rest)
  {
  }

  lemma RecentIsInTimeOrder(ts: seq<int>, last: int, now: int)
    requires InTimeOrder(ts, last)
    ensures InTimeOrder(Recent(ts, now), last)
  {
    RecentIsAscending(ts, now);
    forall t | t in Recent(ts, now) ensures t <= last {
      RecentArePart(ts, now, t);
    }
  }

  class CacheEntry<V> {
    var granted: bool
    var ll: seq<int>
    var val: Option<V>
    var leaseTime: int
    var leaseDur: int

    ghost function Value(): Entry<V>
      reads this
    {
      Entry(granted, ll, val, leaseTime, leaseDur)
    }

    constructor ()
      ensures Value() == NewEntry<V>()
    {
      granted, ll, val, leaseTime, leaseDur := false, [], None, 0, 0;
    }

    // The cleaning loop. It stops at the first recent time, which is enough because the
    // list is in order of time.
    method Clean(now: int)
      requires Ascending(ll)
      modifies this`ll
      ensures ll == Recent(old(ll), now)
    {
      while ll != []
        invariant Ascending(ll) && Recent(ll, now) == Recent(old(ll), now)
        decreases |ll|
      {
        var dur := now - ll[0];
        if dur > WINDOW {
          ll := ll[1..];
        } else {
          break;
        }
      }
      RecentKeepsAll(ll, now);
    }

    method Refresh(now: int)
      requires Ascending(ll)
      modifies this
      ensures Value() == Refreshed(old(Value()), now)
    {
      if granted {
        var dur := now - leaseTime;
        if dur > leaseDur {
          granted := false;
        }
      }
      Clean(now);
    }

    // The second half of Get. A miss is recorded and may ask for a lease; a hit changes
    // nothing.
    method Finish(now: int) returns (served: bool, value: Option<V>, wantLease: bool)
      modifies this`ll
      ensures served == old(granted) && value == if served then val else None
      ensures Value() == if served then old(Value()) else Missed(old(Value()), now)
      ensures wantLease <==> !served && |ll| > THRESHOLD
    {
      if granted {
        return true, val, false;
      }
      ll := ll + [now];
      return false, None, |ll| > THRESHOLD;
    }

    method Grant(v: V, validSeconds: int, now: int)
      modifies this
      ensures Value() == Leased(old(Value()), v, validSeconds, now)
    {
      granted, val, leaseTime, leaseDur := true, Some(v), now, validSeconds * SECOND;
    }

    method Revoke()
      modifies this`granted
      ensures Value() == old(Value()).(granted := false)
    {
      granted := false;
    }
  }

  class Cache<V> {
    var cache: map<string, CacheEntry<V>>

    ghost predicate Valid()
      reads this
    {
      forall j, k :: j in cache && k in cache && j != k ==> cache[j] != cache[k]
    }

    ghost predicate InOrder(now: int)
      reads this, cache.Values
    {
      forall k :: k in cache ==> InTimeOrder(cache[k].ll, now)
    }

    ghost function Slot(key: string): Option<Entry<V>>
      reads this, cache.Values
    {
      if key in cache then Some(cache[key].Value()) else None
    }

    constructor ()
      ensures Valid() && cache == map[]
    {
      cache := map[];
    }

    // One turn of the eviction loop.
    method EvictOne(key: string, now: int)
      requires Valid() && key in cache && Ascending(cache[key].ll)
      modifies this, cache[key]
      ensures Slot(key) == Kept(old(Slot(key)), now)
      ensures forall k :: k != key ==> Slot(k) == old(Slot(k))
      ensures cache == if key in cache then old(cache) else old(cache) - {key}
    {
      var e := cache[key];
      e.Refresh(now);
      if e.ll == [] {
        cache := cache - {key};
      }
    }

    method Evict(now: int)
      requires Valid() && InOrder(now)
      modifies this, cache.Values
      ensures Valid() && cache.Keys <= old(cache).Keys
      ensures forall k :: k in cache ==> cache[k] == old(cache)[k]
      ensures forall k :: Slot(k) == Kept(old(Slot(k)), now)
    {
      ghost var before := cache;
      var todo := cache.Keys;
      while todo != {}
        invariant Valid() && todo <= cache.Keys <= before.Keys
        invariant forall k :: k in cache ==> cache[k] == before[k]
        invariant forall k :: Slot(k) == if k in todo then old(Slot(k)) else Kept(old(Slot(k)), now)
        decreases todo
      {
        var k :| k in todo;
        todo := todo - {k};
        assert Slot(k) == old(Slot(k)) && k in cache;
        EvictOne(k, now);
      }
    }

    // The first half of Get, under the lock of the cache.
    method Lookup(key: string, now: int) returns (e: CacheEntry<V>)
      requires Valid() && InOrder(now)
      modifies this, cache.Values
      ensures Valid() && key in cache && cache[key] == e
      ensures e.Value() == Found(old(Slot(key)), now)
      ensures if Kept(old(Slot(key)), now).Some? then key in old(cache) && e == old(cache)[key] else fresh(e)
      ensures forall k :: k in cache && k != key ==> k in old(cache) && cache[k] == old(cache)[k]
      ensures forall k :: k != key ==> Slot(k) == Kept(old(Slot(k)), now)
    {
      Evict(now);
      assert Slot(key) == Kept(old(Slot(key)), now);
      if key !in cache {
        e := new CacheEntry();
        cache := cache[key := e];
      }
      e := cache[key];
    }

    // Get with nothing in between its halves. Served only under a lease that has not run
    // out, for a key that was missed within the window.
    method Get(key: string, now: int) returns (served: bool, value: Option<V>, wantLease: bool)
      requires Valid() && InOrder(now)
      modifies this, cache.Values
      ensures Valid()
      ensures var e := old(Slot(key));
        served <==> e.Some? && Recent(e.value.ll, now) != [] && e.value.granted && !Expired(e.value, now)
      ensures served ==> value == old(Slot(key)).value.val && !wantLease
      ensures !served ==> (wantLease <==> |Found(old(Slot(key)), now).ll| + 1 > THRESHOLD)
      ensures Slot(key) == Some(if served then Found(old(Slot(key)), now) else Missed(Found(old(Slot(key)), now), now))
      ensures forall k :: k != key ==> Slot(k) == Kept(old(Slot(k)), now)
    {
      var e := Lookup(key, now);
      served, value, wantLease := e.Finish(now);
    }

    // The first half of Revoke and Grant; Grant panics when there is no entry.
    method Find(key: string) returns (e: Option<CacheEntry<V>>)
      ensures e == if key in cache then Some(cache[key]) else None
    {
      if key in cache {
        return Some(cache[key]);
      }
      return None;
    }
  }
}
