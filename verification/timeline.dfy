// Tribbler timelines: a user's newest posts, and the newest among all followed users.

module Timeline {
  import opened Wrappers

  datatype Tribble = Tribble(user: string, posted: int, contents: string)

  const LIMIT: nat := 100

  datatype Status = OK | ENOSUCHUSER | ENOSUCHTARGETUSER | EEXISTS

  function Min(a: nat, b: nat): nat { if a < b then a else b }

  // The last posts of a list in posting order, newest first.
  function Latest(posts: seq<Tribble>): (top: seq<Tribble>)
    ensures |top| == Min(LIMIT, |posts|)
  {
    seq(Min(LIMIT, |posts|), i requires 0 <= i < |posts| => posts[|posts| - 1 - i])
  }

  predicate PostingOrder(posts: seq<Tribble>) {
    forall i, j :: 0 <= i < j < |posts| ==> posts[i].posted <= posts[j].posted
  }

  predicate NewestFirst(ts: seq<Tribble>) {
    forall i, j :: 0 <= i < j < |ts| ==> ts[i].posted >= ts[j].posted
  }

  function Concat(lists: seq<seq<Tribble>>): seq<Tribble> {
    if lists == [] then [] else Concat(lists[..|lists| - 1]) + lists[|lists| - 1]
  }

  function LatestOfEach(lists: seq<seq<Tribble>>): (tops: seq<seq<Tribble>>)
    ensures |tops| == |lists|
  {
    seq(|lists|, i requires 0 <= i < |lists| => Latest(lists[i]))
  }

  // sel is a choice of `LIMIT` posts out of `all` (all of them when there are fewer) such
  // that nothing left out is newer than anything chosen.
  predicate NewestOf(sel: seq<Tribble>, all: seq<Tribble>) {
    && |sel| == Min(LIMIT, |all|)
    && multiset(sel) <= multiset(all)
    && forall x: Tribble, k: int :: x in multiset(all) - multiset(sel) && 0 <= k < |sel| ==> x.posted <= sel[k].posted
  }

  // ------------------------------------------------------------------------------
  // Why cutting each list first does no harm
  // ------------------------------------------------------------------------------

  function Newer(ts: seq<Tribble>, t: int): nat {
    if ts == [] then 0 else (if ts[0].posted > t then 1 else 0) + Newer(ts[1..], t)
  }

  lemma {:induction false} NewerConcat(a: seq<Tribble>, b: seq<Tribble>, t: int)
    ensures Newer(a + b, t) == Newer(a, t) + Newer(b, t)
    decreases |a|
  {
    if a == [] {
      assert a + b == b;
    } else {
      assert (a + b)[0] == a[0] && (a + b)[1..] == a[1..] + b;
      NewerConcat(a[1..], b, t);
    }
  }

  lemma Without(b: seq<Tribble>, k: nat, t: int)
    requires k < |b|
    ensures var rest := b[..k] + b[k + 1..];
      && multiset(b) == multiset(rest) + multiset{b[k]}
      && Newer(b, t) == Newer(rest, t) + if b[k].posted > t then 1 else 0
  {
    var tail := [b[k]] + b[k + 1..];
    assert b == b[..k] + tail && tail[1..] == b[k + 1..];
    NewerConcat(b[..k], tail, t);
    NewerConcat(b[..k], b[k + 1..], t);
  }

  lemma Cancel(a': multiset<Tribble>, b': multiset<Tribble>, a: multiset<Tribble>, b: multiset<Tribble>, x: Tribble)
    requires a == a' + multiset{x} && b == b' + multiset{x} && a == b
    ensures a' == b'
  {
    assert a' == a - multiset{x} && b' == b - multiset{x};
  }

  lemma ContentsWithout(b: seq<Tribble>, k: nat)
    requires k < |b|
    ensures multiset(b) == multiset(b[..k] + b[k + 1..]) + multiset{b[k]}
  {
    assert b == b[..k] + ([b[k]] + b[k + 1..]);
  }

  lemma FoundIn(a: seq<Tribble>, b: seq<Tribble>) returns (k: nat)
    requires multiset(a) == multiset(b) && a != []
    ensures k < |b| && b[k] == a[0]
  {
    assert a[0] in multiset(b);
    k :| 0 <= k < |b| && b[k] == a[0];
  }

  // Both lists without the first element of a.
  lemma MatchFirst(a: seq<Tribble>, b: seq<Tribble>, k: nat)
    requires multiset(a) == multiset(b) && a != [] && k < |b| && b[k] == a[0]
    ensures multiset(a[1..]) == multiset(b[..k] + b[k + 1..])
  {
    ContentsWithout(a, 0);
    ContentsWithout(b, k);
    assert a[..0] + a[1..] == a[1..];
    Cancel(multiset(a[1..]), multiset(b[..k] + b[k + 1..]), multiset(a), multiset(b), a[0]);
  }

  lemma {:induction false} NewerIsAboutContents(a: seq<Tribble>, b: seq<Tribble>, t: int)
    requires multiset(a) == multiset(b)
    ensures Newer(a, t) == Newer(b, t)
    decreases |a|
  {
    if a == [] {
      assert |multiset(b)| == 0;
    } else {
      var k := FoundIn(a, b);
      MatchFirst(a, b, k);
      NewerIsAboutContents(a[1..], b[..k] + b[k + 1..], t);
      Without(b, k, t);
    }
  }

  lemma {:induction false} AllNewer(ts: seq<Tribble>, t: int)
    requires forall i :: 0 <= i < |ts| ==> ts[i].posted > t
    ensures Newer(ts, t) == |ts|
  {
    if ts != [] {
      AllNewer(ts[1..], t);
    }
  }

  lemma {:induction false} NoneNewer(ts: seq<Tribble>, t: int)
    requires forall i :: 0 <= i < |ts| ==> ts[i].posted <= t
    ensures Newer(ts, t) == 0
  {
    if ts != [] {
      NoneNewer(ts[1..], t);
    }
  }

  lemma {:induction false} NewerAtMost(ts: seq<Tribble>, t: int)
    ensures Newer(ts, t) <= |ts|
  {
    if ts != [] {
      NewerAtMost(ts[1..], t);
    }
  }

  // In a list sorted newest first, what is newer than an element stands before it.
  lemma FewNewerThan(ts: seq<Tribble>, k: nat)
    requires NewestFirst(ts) && k < |ts|
    ensures Newer(ts, ts[k].posted) <= k
  {
    assert ts == ts[..k] + ts[k..];
    NewerConcat(ts[..k], ts[k..], ts[k].posted);
    NoneNewer(ts[k..], ts[k].posted);
    NewerAtMost(ts[..k], ts[k].posted);
  }

  // The posts of a list that its cut leaves out.
  function Older(posts: seq<Tribble>): seq<Tribble> { posts[..|posts| - Min(LIMIT, |posts|)] }

  lemma {:induction false} ReverseHasSameContents(s: seq<Tribble>, r: seq<Tribble>)
    requires |r| == |s| && forall i :: 0 <= i < |s| ==> r[i] == s[|s| - 1 - i]
    ensures multiset(r) == multiset(s)
  {
    if s != [] {
      assert s == [s[0]] + s[1..] && r == r[..|r| - 1] + [s[0]];
      ReverseHasSameContents(s[1..], r[..|r| - 1]);
    }
  }

  lemma LatestAndOlder(posts: seq<Tribble>)
    ensures multiset(posts) == multiset(Latest(posts)) + multiset(Older(posts))
  {
    var cut := |posts| - Min(LIMIT, |posts|);
    assert posts == posts[..cut] + posts[cut..];
    ReverseHasSameContents(posts[cut..], Latest(posts));
  }

  // Of a list in posting order, the cut is a newest selection, newest first.
  lemma LatestIsNewest(posts: seq<Tribble>)
    requires PostingOrder(posts)
    ensures NewestFirst(Latest(posts)) && NewestOf(Latest(posts), posts)
  {
    LatestAndOlder(posts);
    forall x: Tribble, k: int | x in multiset(posts) - multiset(Latest(posts)) && 0 <= k < |Latest(posts)|
      ensures x.posted <= Latest(posts)[k].posted
    {
      assert x in Older(posts);
    }
  }

  // A post left out by its own list's cut is not newer than the posts kept, of which
  // there are `LIMIT`.
  lemma KeptAreNewer(posts: seq<Tribble>, x: Tribble, t: int)
    requires PostingOrder(posts) && x in Older(posts) && x.posted > t
    ensures Newer(Latest(posts), t) == LIMIT
  {
    AllNewer(Latest(posts), t);
  }

  // What the cuts may lose: nothing is added, as much as needed is kept, and a lost post
  // leaves `LIMIT` newer ones behind.
  predicate CutWell(all: seq<Tribble>, tops: seq<Tribble>, x: Tribble, t: int) {
    && multiset(tops) <= multiset(all)
    && |tops| >= Min(LIMIT, |all|)
    && (x in multiset(all) - multiset(tops) && x.posted > t ==> Newer(tops, t) >= LIMIT)
  }

  lemma CutOneMore(all: seq<Tribble>, tops: seq<Tribble>, last: seq<Tribble>, x: Tribble, t: int)
    requires CutWell(all, tops, x, t) && PostingOrder(last)
    ensures CutWell(all + last, tops + Latest(last), x, t)
  {
    NewerConcat(tops, Latest(last), t);
    LatestAndOlder(last);
    if x in Older(last) && x.posted > t {
      KeptAreNewer(last, x, t);
    }
    assert multiset(all + last) == multiset(all) + multiset(last);
    assert multiset(tops + Latest(last)) == multiset(tops) + multiset(Latest(last));
  }

  lemma {:induction false} ConcatSplits(lists: seq<seq<Tribble>>, x: Tribble, t: int)
    requires forall i :: 0 <= i < |lists| ==> PostingOrder(lists[i])
    ensures CutWell(Concat(lists), Concat(LatestOfEach(lists)), x, t)
    decreases |lists|
  {
    if lists != [] {
      var front, last := lists[..|lists| - 1], lists[|lists| - 1];
      ConcatSplits(front, x, t);
      assert LatestOfEach(lists)[..|lists| - 1] == LatestOfEach(front);
      CutOneMore(Concat(front), Concat(LatestOfEach(front)), last, x, t);
    }
  }

  lemma LeftOutIsNotNewer(lists: seq<seq<Tribble>>, sorted: seq<Tribble>, x: Tribble, k: nat)
    requires forall i :: 0 <= i < |lists| ==> PostingOrder(lists[i])
    requires multiset(sorted) == multiset(Concat(LatestOfEach(lists))) && NewestFirst(sorted)
    requires k < Min(LIMIT, |sorted|)
    requires x in multiset(Concat(lists)) - multiset(sorted)
    ensures x.posted <= sorted[k].posted
  {
    if x.posted > sorted[k].posted {
      ConcatSplits(lists, x, sorted[k].posted);
      NewerIsAboutContents(sorted, Concat(LatestOfEach(lists)), sorted[k].posted);
      FewNewerThan(sorted, k);
    }
  }

  lemma CutKeepsNewest(sorted: seq<Tribble>, n: nat, x: Tribble, k: nat)
    requires NewestFirst(sorted) && k < n <= |sorted| && x in sorted[n..]
    ensures x.posted <= sorted[k].posted
  {
    var j :| 0 <= j < |sorted[n..]| && sorted[n..][j] == x;
    assert sorted[n + j] == x;
  }

  // Where a post that is not selected can be: behind the cut, or left out of its list's cut.
  lemma NotSelected(all: multiset<Tribble>, tops: multiset<Tribble>, sel: multiset<Tribble>,
      tail: multiset<Tribble>, x: Tribble)
    requires tops == sel + tail && x in all - sel
    ensures x in tail || x in all - tops
  {
  }

  lemma CutSizes(lists: seq<seq<Tribble>>, sorted: seq<Tribble>)
    requires forall i :: 0 <= i < |lists| ==> PostingOrder(lists[i])
    requires multiset(sorted) == multiset(Concat(LatestOfEach(lists)))
    ensures Min(LIMIT, |sorted|) == Min(LIMIT, |Concat(lists)|) && multiset(sorted) <= multiset(Concat(lists))
  {
    SameContentsSameLength(sorted, Concat(LatestOfEach(lists)));
    ConcatSplits(lists, Tribble("", 0, ""), 0);
    SmallerContents(Concat(LatestOfEach(lists)), Concat(lists));
  }

  lemma LeftOutVersusChosen(lists: seq<seq<Tribble>>, sorted: seq<Tribble>, n: nat, x: Tribble, k: nat)
    requires forall i :: 0 <= i < |lists| ==> PostingOrder(lists[i])
    requires multiset(sorted) == multiset(Concat(LatestOfEach(lists))) && NewestFirst(sorted)
    requires k < n == Min(LIMIT, |sorted|)
    requires x in multiset(Concat(lists)) - multiset(sorted[..n])
    ensures x.posted <= sorted[k].posted
  {
    CutContents(sorted, n);
    NotSelected(multiset(Concat(lists)), multiset(sorted), multiset(sorted[..n]), multiset(sorted[n..]), x);
    if x in multiset(sorted[n..]) {
      CutKeepsNewest(sorted, n, x, k);
    } else {
      LeftOutIsNotNewer(lists, sorted, x, k);
    }
  }

  lemma CutContents(s: seq<Tribble>, n: nat)
    requires n <= |s|
    ensures multiset(s) == multiset(s[..n]) + multiset(s[n..])
  {
    assert s == s[..n] + s[n..];
  }

  // Concatenating every followed user's latest posts, sorting and cutting gives a newest
  // selection of the union of all their posts.
  lemma CutSortCut(lists: seq<seq<Tribble>>, sorted: seq<Tribble>)
    requires forall i :: 0 <= i < |lists| ==> PostingOrder(lists[i])
    requires multiset(sorted) == multiset(Concat(LatestOfEach(lists))) && NewestFirst(sorted)
    ensures NewestOf(sorted[..Min(LIMIT, |sorted|)], Concat(lists))
  {
    var n := Min(LIMIT, |sorted|);
    CutSizes(lists, sorted);
    CutContents(sorted, n);
    forall x: Tribble, k: int | x in multiset(Concat(lists)) - multiset(sorted[..n]) && 0 <= k < n
      ensures x.posted <= sorted[..n][k].posted
    {
      LeftOutVersusChosen(lists, sorted, n, x, k);
    }
  }

  lemma SameContentsSameLength(a: seq<Tribble>, b: seq<Tribble>)
    requires multiset(a) == multiset(b)
    ensures |a| == |b|
  {
    assert |multiset(a)| == |a| && |multiset(b)| == |b|;
  }

  lemma SmallerContents(a: seq<Tribble>, b: seq<Tribble>)
    requires multiset(a) <= multiset(b)
    ensures |a| <= |b|
  {
    assert |multiset(a)| == |a| && |multiset(b)| == |b|;
    assert multiset(b) == multiset(a) + (multiset(b) - multiset(a));
  }

  // ------------------------------------------------------------------------------
  // The server, over a store of lists and messages
  // ------------------------------------------------------------------------------

  type User = string

  // The store a server works on: who exists, whom they follow, the ids of their posts in
  // the order they were appended, and the messages by user and id.
  datatype Store = Store(
    users: set<User>,
    follows: map<User, seq<User>>,
    ids: map<User, seq<int>>,
    messages: map<(User, int), Tribble>)

  // The message of a post, or a blank one while it is not stored.
  function MessageOf(s: Store, u: User, id: int): Tribble {
    if (u, id) in s.messages then s.messages[(u, id)] else Tribble("", 0, "")
  }

  function IdsOf(s: Store, u: User): seq<int> { if u in s.ids then s.ids[u] else [] }

  function PostsOf(s: Store, u: User): (posts: seq<Tribble>) {
    seq(|IdsOf(s, u)|, i requires 0 <= i < |IdsOf(s, u)| => MessageOf(s, u, IdsOf(s, u)[i]))
  }

  // All messages that GetTribbles asks for are stored.
  predicate TopStored(s: Store, u: User) {
    var ids := IdsOf(s, u);
    forall i :: |ids| - Min(LIMIT, |ids|) <= i < |ids| ==> (u, ids[i]) in s.messages
  }

  // What GetTribbles shows of a followed name: nothing for an unknown user.
  function Shown(s: Store, u: User): seq<Tribble> {
    if u in s.users then PostsOf(s, u) else []
  }

  // It fails on a post whose message is not stored yet.
  predicate Fails(s: Store, u: User) { u in s.users && u in s.ids && !TopStored(s, u) }

  function AllShown(s: Store, us: seq<User>): (lists: seq<seq<Tribble>>)
    ensures |lists| == |us|
  {
    seq(|us|, i requires 0 <= i < |us| => Shown(s, us[i]))
  }

  // The id i places before the last one.
  function LastButI(ids: seq<int>, i: nat): int
    requires i < |ids|
  {
    ids[|ids| - 1 - i]
  }

  predicate IsMessageOf(s: Store, u: User, id: int, t: Tribble) {
    (u, id) in s.messages && t == s.messages[(u, id)]
  }

  predicate NotAfter(posts: seq<Tribble>, now: int) {
    forall i :: 0 <= i < |posts| ==> posts[i].posted <= now
  }

  // The lists of these users are in posting order.
  predicate ShownInOrder(s: Store, us: seq<User>) {
    forall i :: 0 <= i < |us| ==> PostingOrder(Shown(s, us[i]))
  }

  // The two halves of a post: its id is appended to the author's list, and then its
  // message is stamped and stored.
  function Appended(s: Store, u: User, id: int): Store {
    s.(ids := s.ids[u := IdsOf(s, u) + [id]])
  }

  function Stamped(s: Store, u: User, id: int, trib: Tribble): Store {
    s.(messages := s.messages[(u, id) := trib])
  }

  // Failed: an error instead of a reply.
  datatype Answer = Posts(status: Status, tribbles: seq<Tribble>) | Failed

  class TribServer {
    var store: Store
    var id: int

    predicate Valid()
      reads this
    {
      && (forall u, i :: u in store.ids && 0 <= i < |store.ids[u]| ==> store.ids[u][i] <= id)
      && (forall m :: m in store.messages ==> m.1 <= id)
    }

    constructor ()
      ensures Valid() && store == Store({}, map[], map[], map[])
    {
      store, id := Store({}, map[], map[], map[]), 0;
    }

    // The newest posts of a user, newest first. A user without posts is reported as
    // unknown, with an empty list.
    method GetTribbles(u: User) returns (a: Answer)
      ensures a == if u !in store.users || u !in store.ids then Posts(ENOSUCHUSER, [])
                   else if TopStored(store, u) then Posts(OK, Latest(PostsOf(store, u)))
                   else Failed
      ensures a.Failed? <==> Fails(store, u)
      ensures a.Posts? ==> a.tribbles == Latest(Shown(store, u))
      // Tribble by tribble: the stored messages of the ids from the last one backwards.
      ensures a.Posts? && a.status == OK ==>
                u in store.ids && |a.tribbles| == Min(LIMIT, |store.ids[u]|)
                && forall i :: 0 <= i < |a.tribbles| ==> IsMessageOf(store, u, LastButI(store.ids[u], i), a.tribbles[i])
      ensures a.Posts? && PostingOrder(Shown(store, u)) ==>
                NewestFirst(a.tribbles) && NewestOf(a.tribbles, Shown(store, u))
    {
      if u !in store.users || u !in store.ids {
        return Posts(ENOSUCHUSER, []);
      }
      var ids := store.ids[u];
      var length := if |ids| > LIMIT then LIMIT else |ids|;
      var tribbles := [];
      var i := 0;
      while i < length
        invariant 0 <= i <= length && |tribbles| == i
        invariant forall j :: 0 <= j < i ==> IsMessageOf(store, u, LastButI(ids, j), tribbles[j])
        invariant forall j :: |ids| - i <= j < |ids| ==> (u, ids[j]) in store.messages
      {
        if (u, ids[|ids| - 1 - i]) !in store.messages {
          assert IdsOf(store, u) == ids && !TopStored(store, u);
          return Failed;
        }
        tribbles := tribbles + [store.messages[(u, ids[|ids| - 1 - i])]];
        i := i + 1;
      }
      assert tribbles == Latest(PostsOf(store, u));
      if PostingOrder(PostsOf(store, u)) {
        LatestIsNewest(PostsOf(store, u));
      }
      return Posts(OK, tribbles);
    }

    method AppendId(u: User) returns (status: Status, post: int)
      requires Valid()
      modifies this
      ensures Valid()
      ensures u !in old(store).users ==> status == ENOSUCHUSER && store == old(store) && id == old(id)
      ensures u in old(store).users ==>
                status == OK && post == id == old(id) + 1 && store == Appended(old(store), u, post)
    {
      if u !in store.users {
        return ENOSUCHUSER, 0;
      }
      id := id + 1;
      store := Appended(store, u, id);
      return OK, id;
    }

    method StampAndStore(u: User, post: int, contents: string, now: int)
      requires Valid() && post <= id
      modifies this`store
      ensures Valid() && store == Stamped(old(store), u, post, Tribble(u, now, contents))
    {
      store := store.(messages := store.messages[(u, post) := Tribble(u, now, contents)]);
    }

    // A post with nothing in between its halves.
    method PostTribble(u: User, contents: string, now: int) returns (status: Status)
      requires Valid()
      modifies this
      ensures Valid()
      ensures status == if u in old(store).users then OK else ENOSUCHUSER
      ensures status != OK ==> store == old(store)
      ensures status == OK ==> PostsOf(store, u) == PostsOf(old(store), u) + [Tribble(u, now, contents)]
      ensures status == OK && TopStored(old(store), u) ==> TopStored(store, u)
      ensures forall v :: v != u ==> PostsOf(store, v) == PostsOf(old(store), v)
      ensures store.users == old(store).users && store.follows == old(store).follows
      // A clock that does not run backwards keeps the list in posting order.
      ensures PostingOrder(PostsOf(old(store), u)) && NotAfter(PostsOf(old(store), u), now) ==>
                PostingOrder(PostsOf(store, u))
    {
      ghost var before := store;
      var post;
      status, post := AppendId(u);
      if status == OK {
        StampAndStore(u, post, contents, now);
        PostsAfter(before, store, u, post, Tribble(u, now, contents));
        if TopStored(before, u) {
          TopAfter(before, store, u, post, Tribble(u, now, contents));
        }
      }
    }

    // The loop over the followed users. It stops at the first error.
    method Collect(follows: seq<User>) returns (failed: bool, tribbles: seq<Tribble>)
      ensures failed <==> exists i :: 0 <= i < |follows| && Fails(store, follows[i])
      ensures !failed ==> tribbles == Concat(LatestOfEach(AllShown(store, follows)))
    {
      tribbles := [];
      var i := 0;
      while i < |follows|
        invariant 0 <= i <= |follows|
        invariant tribbles == Collected(store, follows, i)
        invariant forall j :: 0 <= j < i ==> !Fails(store, follows[j])
      {
        var top := GetTribbles(follows[i]);
        if top.Failed? {
          return true, tribbles;
        }
        CollectedNext(store, follows, i);
        tribbles := tribbles + top.tribbles;
        i := i + 1;
      }
      AllCollected(store, follows);
      failed := false;
    }

    // The newest posts among all followed users, newest first.
    method GetTribblesBySubscription(u: User) returns (a: Answer)
      ensures a.Failed? <==>
                u in store.users && u in store.follows
                && exists i :: 0 <= i < |store.follows[u]| && Fails(store, store.follows[u][i])
      ensures u !in store.users || u !in store.follows ==> a == Posts(ENOSUCHUSER, [])
      ensures u in store.users && u in store.follows && a.Posts? ==>
                && a.status == OK && NewestFirst(a.tribbles)
                && (ShownInOrder(store, store.follows[u]) ==>
                      NewestOf(a.tribbles, Concat(AllShown(store, store.follows[u]))))
    {
      if u !in store.users || u !in store.follows {
        return Posts(ENOSUCHUSER, []);
      }
      var failed, all := Collect(store.follows[u]);
      if failed {
        return Failed;
      }
      var sorted := SortNewestFirst(all);
      TimelineIsNewest(store, store.follows[u], sorted);
      if |sorted| > LIMIT {
        return Posts(OK, sorted[..LIMIT]);
      }
      assert sorted[..|sorted|] == sorted;
      return Posts(OK, sorted);
    }
  }

  // The latest posts of the first i users, joined.
  function Collected(s: Store, us: seq<User>, i: nat): seq<Tribble>
    requires i <= |us|
  {
    Concat(LatestOfEach(AllShown(s, us))[..i])
  }

  lemma CollectedNext(s: Store, us: seq<User>, i: nat)
    requires i < |us|
    ensures Collected(s, us, i + 1) == Collected(s, us, i) + Latest(Shown(s, us[i]))
  {
    var tops := LatestOfEach(AllShown(s, us));
    assert tops[..i + 1][..i] == tops[..i] && tops[i] == Latest(Shown(s, us[i]));
  }

  lemma AllCollected(s: Store, us: seq<User>)
    ensures Collected(s, us, |us|) == Concat(LatestOfEach(AllShown(s, us)))
  {
    var tops := LatestOfEach(AllShown(s, us));
    assert tops[..|us|] == tops;
  }

  lemma TimelineIsNewest(s: Store, us: seq<User>, sorted: seq<Tribble>)
    requires NewestFirst(sorted)
    requires multiset(sorted) == multiset(Concat(LatestOfEach(AllShown(s, us))))
    ensures ShownInOrder(s, us) ==> NewestOf(sorted[..Min(LIMIT, |sorted|)], Concat(AllShown(s, us)))
  {
    if ShownInOrder(s, us) {
      forall i | 0 <= i < |us| ensures PostingOrder(AllShown(s, us)[i]) {
        assert PostingOrder(Shown(s, us[i]));
      }
      CutSortCut(AllShown(s, us), sorted);
    }
  }

  lemma PostsAfter(s: Store, s': Store, u: User, id: int, trib: Tribble)
    requires forall v, i :: v in s.ids && 0 <= i < |s.ids[v]| ==> s.ids[v][i] < id
    requires s' == Stamped(Appended(s, u, id), u, id, trib)
    ensures PostsOf(s', u) == PostsOf(s, u) + [trib]
    ensures forall v :: v != u ==> PostsOf(s', v) == PostsOf(s, v)
  {
    assert IdsOf(s', u) == IdsOf(s, u) + [id];
  }

  lemma TopAfter(s: Store, s': Store, u: User, id: int, trib: Tribble)
    requires s' == Stamped(Appended(s, u, id), u, id, trib) && TopStored(s, u)
    ensures TopStored(s', u)
  {
    var ids, ids' := IdsOf(s, u), IdsOf(s', u);
    assert ids' == ids + [id];
    forall i | |ids'| - Min(LIMIT, |ids'|) <= i < |ids'| ensures (u, ids'[i]) in s'.messages {
      assert i < |ids| ==> ids'[i] == ids[i] && i >= |ids| - Min(LIMIT, |ids|);
    }
  }

  // Stands for the library sort: some permutation in descending order of time.
  method SortNewestFirst(ts: seq<Tribble>) returns (sorted: seq<Tribble>)
    ensures NewestFirst(sorted) && multiset(sorted) == multiset(ts)
  {
    sorted := [];
    var i := 0;
    while i < |ts|
      invariant 0 <= i <= |ts|
      invariant NewestFirst(sorted) && multiset(sorted) == multiset(ts[..i])
    {
      assert ts[..i + 1] == ts[..i] + [ts[i]];
      sorted := Insert(sorted, ts[i]);
      i := i + 1;
    }
    assert ts[..i] == ts;
  }

  method Insert(sorted: seq<Tribble>, t: Tribble) returns (r: seq<Tribble>)
    requires NewestFirst(sorted)
    ensures NewestFirst(r) && multiset(r) == multiset(sorted) + multiset{t}
  {
    var k := 0;
    while k < |sorted| && sorted[k].posted >= t.posted
      invariant 0 <= k <= |sorted|
      invariant forall j :: 0 <= j < k ==> sorted[j].posted >= t.posted
    {
      k := k + 1;
    }
    r := sorted[..k] + [t] + sorted[k..];
    InsertedContents(sorted, k, t);
    InsertedOrder(sorted, k, t);
  }

  lemma InsertedContents(sorted: seq<Tribble>, k: nat, t: Tribble)
    requires k <= |sorted|
    ensures multiset(sorted[..k] + [t] + sorted[k..]) == multiset(sorted) + multiset{t}
  {
    assert sorted == sorted[..k] + sorted[k..];
  }

  lemma InsertedOrder(sorted: seq<Tribble>, k: nat, t: Tribble)
    requires NewestFirst(sorted) && k <= |sorted|
    requires forall j :: 0 <= j < k ==> sorted[j].posted >= t.posted
    requires k < |sorted| ==> sorted[k].posted < t.posted
    ensures NewestFirst(sorted[..k] + [t] + sorted[k..])
  {
    var r := sorted[..k] + [t] + sorted[k..];
    forall i, j | 0 <= i < j < |r| ensures r[i].posted >= r[j].posted {
      assert r[i] == if i < k then sorted[i] else if i == k then t else sorted[i - 1];
      assert r[j] == if j < k then sorted[j] else if j == k then t else sorted[j - 1];
    }
  }
}
