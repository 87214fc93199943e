// Posts as they overlap: the id of a post is appended to its author's list before the
// message is stamped with the time and stored. When lists are complete, and when they are
// in posting order.

module TimelineRuns {
  import opened Timeline

  // A post under way, or stored. Taking its id and appending it are one step here, as are
  // reading the clock and storing the message: a post counts as stamped when its message is
  // stored.
  datatype Post = Post(user: User, id: int, contents: string, stored: bool)

  // last: the time of the last stamp.
  datatype Sys = Sys(store: Store, posts: seq<Post>, id: int, last: int)

  datatype Step = Begin(u: User, contents: string) | Finish(i: nat, now: int)

  function Empty(users: set<User>): Sys { Sys(Store(users, map[], map[], map[]), [], 0, 0) }

  predicate Open(s: Sys, i: nat) { i < |s.posts| && !s.posts[i].stored }

  function Apply(s: Sys, step: Step): Sys {
    match step
    case Begin(u, contents) =>
      if u !in s.store.users then s
      else Sys(Appended(s.store, u, s.id + 1), s.posts + [Post(u, s.id + 1, contents, false)], s.id + 1, s.last)
    case Finish(i, now) =>
      if !Open(s, i) then s
      else var p := s.posts[i];
           s.(store := Stamped(s.store, p.user, p.id, Tribble(p.user, now, p.contents)),
              posts := s.posts[i := p.(stored := true)], last := now)
  }

  // The clock does not go back.
  predicate Timed(s: Sys, step: Step) { step.Finish? ==> s.last <= step.now }

  predicate IsRun(ss: seq<Sys>, steps: seq<Step>, users: set<User>) {
    && |ss| == |steps| + 1 && ss[0] == Empty(users)
    && forall k {:trigger steps[k]} :: 0 <= k < |steps| ==>
         Timed(ss[k], steps[k]) && ss[k + 1] == Apply(ss[k], steps[k])
  }

  // ------------------------------------------------------------------------------
  // Lists, messages and posts under way
  // ------------------------------------------------------------------------------

  predicate Listed(s: Sys, u: User, id: int) { id in IdsOf(s.store, u) }

  predicate ListsOk(s: Sys) {
    forall u, i, j :: u in s.store.ids && 0 <= i < j < |s.store.ids[u]| ==> s.store.ids[u][i] < s.store.ids[u][j]
  }

  predicate IdsOk(s: Sys) {
    && (forall u, i :: u in s.store.ids && 0 <= i < |s.store.ids[u]| ==> s.store.ids[u][i] <= s.id)
    && (forall m :: m in s.store.messages ==> Listed(s, m.0, m.1) && s.store.messages[m].posted <= s.last)
  }

  predicate PostsOk(s: Sys) {
    && (forall i :: 0 <= i < |s.posts| ==>
          && Listed(s, s.posts[i].user, s.posts[i].id) && s.posts[i].id <= s.id
          && (s.posts[i].stored <==> (s.posts[i].user, s.posts[i].id) in s.store.messages))
    && (forall i, j :: 0 <= i < j < |s.posts| ==> s.posts[i].id < s.posts[j].id)
  }

  predicate HasPost(s: Sys, u: User, id: int) {
    exists i :: 0 <= i < |s.posts| && s.posts[i].user == u && s.posts[i].id == id
  }

  ghost predicate AllPosted(s: Sys) { forall u, id :: Listed(s, u, id) ==> HasPost(s, u, id) }

  ghost predicate Inv(s: Sys) { ListsOk(s) && IdsOk(s) && PostsOk(s) && AllPosted(s) }

  lemma ListedAfterBegin(s: Sys, u: User, contents: string, s': Sys, v: User, id: int)
    requires u in s.store.users && s' == Apply(s, Begin(u, contents))
    ensures Listed(s', v, id) <==> Listed(s, v, id) || (v == u && id == s.id + 1)
  {
    assert IdsOf(s'.store, u) == IdsOf(s.store, u) + [s.id + 1];
  }

  lemma BeginKeepsLists(s: Sys, u: User, contents: string, s': Sys)
    requires ListsOk(s) && IdsOk(s) && u in s.store.users && s' == Apply(s, Begin(u, contents))
    ensures ListsOk(s') && IdsOk(s')
  {
    assert IdsOf(s'.store, u) == IdsOf(s.store, u) + [s.id + 1];
    forall m | m in s'.store.messages ensures Listed(s', m.0, m.1) {
      ListedAfterBegin(s, u, contents, s', m.0, m.1);
    }
  }

  lemma BeginKeepsPosts(s: Sys, u: User, contents: string, s': Sys)
    requires IdsOk(s) && PostsOk(s) && AllPosted(s) && u in s.store.users && s' == Apply(s, Begin(u, contents))
    ensures PostsOk(s') && AllPosted(s')
  {
    forall i | 0 <= i < |s'.posts| ensures Listed(s', s'.posts[i].user, s'.posts[i].id) {
      ListedAfterBegin(s, u, contents, s', s'.posts[i].user, s'.posts[i].id);
    }
    NewIdIsFresh(s, u);
    forall v, id | Listed(s', v, id) ensures HasPost(s', v, id) {
      ListedAfterBegin(s, u, contents, s', v, id);
      if Listed(s, v, id) {
        assert HasPost(s, v, id);
        var i :| 0 <= i < |s.posts| && s.posts[i].user == v && s.posts[i].id == id;
        assert s'.posts[i] == s.posts[i];
      } else {
        assert s'.posts[|s.posts|].user == v && s'.posts[|s.posts|].id == id;
      }
    }
  }

  lemma NewIdIsFresh(s: Sys, u: User)
    requires IdsOk(s)
    ensures (u, s.id + 1) !in s.store.messages
  {
    assert !Listed(s, u, s.id + 1);
  }

  lemma BeginKeeps(s: Sys, u: User, contents: string, s': Sys)
    requires Inv(s) && u in s.store.users && s' == Apply(s, Begin(u, contents))
    ensures Inv(s')
  {
    BeginKeepsLists(s, u, contents, s');
    BeginKeepsPosts(s, u, contents, s');
  }

  lemma FinishKeepsPosted(s: Sys, i: nat, now: int, s': Sys)
    requires AllPosted(s) && Open(s, i) && s' == Apply(s, Finish(i, now))
    ensures AllPosted(s')
  {
    forall u, id | Listed(s', u, id) ensures HasPost(s', u, id) {
      assert Listed(s, u, id) && HasPost(s, u, id);
      var j :| 0 <= j < |s.posts| && s.posts[j].user == u && s.posts[j].id == id;
      assert s'.posts[j].user == u && s'.posts[j].id == id;
    }
  }

  lemma FinishKeepsLists(s: Sys, i: nat, now: int, s': Sys)
    requires ListsOk(s) && IdsOk(s) && PostsOk(s) && Open(s, i) && s.last <= now && s' == Apply(s, Finish(i, now))
    ensures ListsOk(s') && IdsOk(s')
  {
    assert Listed(s, s.posts[i].user, s.posts[i].id);
    forall u, id | Listed(s, u, id) ensures Listed(s', u, id) {
    }
  }

  lemma FinishKeepsPosts(s: Sys, i: nat, now: int, s': Sys)
    requires PostsOk(s) && Open(s, i) && s' == Apply(s, Finish(i, now))
    ensures PostsOk(s')
  {
    forall u, id | Listed(s, u, id) ensures Listed(s', u, id) {
    }
  }

  lemma FinishKeeps(s: Sys, i: nat, now: int, s': Sys)
    requires Inv(s) && Open(s, i) && s.last <= now && s' == Apply(s, Finish(i, now))
    ensures Inv(s')
  {
    FinishKeepsLists(s, i, now, s');
    FinishKeepsPosts(s, i, now, s');
    FinishKeepsPosted(s, i, now, s');
  }

  lemma StepKeeps(s: Sys, step: Step, s': Sys)
    requires Inv(s) && Timed(s, step) && s' == Apply(s, step)
    ensures Inv(s')
  {
    match step {
      case Begin(u, contents) => if u in s.store.users { BeginKeeps(s, u, contents, s'); }
      case Finish(i, now) => if Open(s, i) { FinishKeeps(s, i, now, s'); }
    }
  }

  lemma {:induction false} RunKeeps(ss: seq<Sys>, steps: seq<Step>, users: set<User>, k: nat)
    requires IsRun(ss, steps, users) && k <= |steps|
    ensures Inv(ss[k])
    decreases k
  {
    if k > 0 {
      RunKeeps(ss, steps, users, k - 1);
      StepKeeps(ss[k - 1], steps[k - 1], ss[k]);
    }
  }

  // ------------------------------------------------------------------------------
  // Complete lists
  // ------------------------------------------------------------------------------

  predicate Complete(s: Store, u: User) {
    forall i :: 0 <= i < |IdsOf(s, u)| ==> (u, IdsOf(s, u)[i]) in s.messages
  }

  predicate Busy(s: Sys, u: User) { exists i :: 0 <= i < |s.posts| && Open(s, i) && s.posts[i].user == u }

  lemma CompleteUnlessBusy(s: Sys, u: User)
    requires Inv(s) && !Busy(s, u)
    ensures Complete(s.store, u)
  {
    forall j | 0 <= j < |IdsOf(s.store, u)| ensures (u, IdsOf(s.store, u)[j]) in s.store.messages {
      var id := IdsOf(s.store, u)[j];
      assert Listed(s, u, id) && HasPost(s, u, id);
      var i :| 0 <= i < |s.posts| && s.posts[i].user == u && s.posts[i].id == id;
      assert !Open(s, i);
    }
  }

  lemma BusyIsIncomplete(s: Sys, u: User)
    requires Inv(s) && Busy(s, u)
    ensures !Complete(s.store, u)
  {
    var i :| 0 <= i < |s.posts| && Open(s, i) && s.posts[i].user == u;
    assert Listed(s, u, s.posts[i].id);
    var j :| 0 <= j < |IdsOf(s.store, u)| && IdsOf(s.store, u)[j] == s.posts[i].id;
    assert (u, IdsOf(s.store, u)[j]) !in s.store.messages;
  }

  // In every run, a user's list has a message for each of its posts if and only if no post
  // of this user is under way; GetTribbles then does not fail.
  lemma CompleteIffNotBusy(ss: seq<Sys>, steps: seq<Step>, users: set<User>, k: nat, u: User)
    requires IsRun(ss, steps, users) && k <= |steps|
    ensures Complete(ss[k].store, u) <==> !Busy(ss[k], u)
    ensures Complete(ss[k].store, u) ==> !Fails(ss[k].store, u)
  {
    RunKeeps(ss, steps, users, k);
    if Busy(ss[k], u) {
      BusyIsIncomplete(ss[k], u);
    } else {
      CompleteUnlessBusy(ss[k], u);
    }
  }

  // ------------------------------------------------------------------------------
  // Posting order
  // ------------------------------------------------------------------------------

  // Stored posts have their times in the order in which they were appended.
  predicate Ordered(s: Store, u: User) {
    forall m, n :: m in s.messages && n in s.messages && m.0 == n.0 == u && m.1 < n.1 ==>
      s.messages[m].posted <= s.messages[n].posted
  }

  // A post is stamped after a later one of the same user was, with a later time.
  predicate Overtaken(s: Sys, step: Step) {
    step.Finish? && Open(s, step.i)
    && exists n :: n in s.store.messages && n.0 == s.posts[step.i].user && s.posts[step.i].id < n.1
                   && s.store.messages[n].posted < step.now
  }

  lemma FinishOrders(s: Sys, step: Step, s': Sys, u: User)
    requires Inv(s) && Timed(s, step) && s' == Apply(s, step) && Ordered(s.store, u)
    ensures Ordered(s'.store, u) <==> !(Overtaken(s, step) && s.posts[step.i].user == u)
  {
    if step.Finish? && Open(s, step.i) && s.posts[step.i].user == u {
      var p := s.posts[step.i];
      var m := (u, p.id);
      assert m !in s.store.messages && m in s'.store.messages && s'.store.messages[m].posted == step.now;
      if Overtaken(s, step) {
        var n :| n in s.store.messages && n.0 == u && p.id < n.1 && s.store.messages[n].posted < step.now;
        assert n in s'.store.messages && s'.store.messages[n] == s.store.messages[n];
      } else {
        forall a, b | a in s'.store.messages && b in s'.store.messages && a.0 == b.0 == u && a.1 < b.1
          ensures s'.store.messages[a].posted <= s'.store.messages[b].posted
        {
          assert a != m ==> s'.store.messages[a] == s.store.messages[a];
          assert b != m ==> s'.store.messages[b] == s.store.messages[b];
        }
      }
    }
  }

  ghost predicate AllOrdered(s: Sys) { forall u :: Ordered(s.store, u) }

  lemma StepOrders(s: Sys, step: Step, s': Sys)
    requires Inv(s) && Timed(s, step) && s' == Apply(s, step) && AllOrdered(s)
    ensures AllOrdered(s') <==> !Overtaken(s, step)
  {
    if Overtaken(s, step) {
      assert Ordered(s.store, s.posts[step.i].user);
      FinishOrders(s, step, s', s.posts[step.i].user);
    } else {
      forall u ensures Ordered(s'.store, u) {
        assert Ordered(s.store, u);
        FinishOrders(s, step, s', u);
      }
    }
  }

  // In every run with a clock that does not run backwards, every user's posts are in
  // posting order at all times if and only if no post is stamped after a later post of
  // the same user, with a later time.
  lemma OrderedUnlessOvertaken(ss: seq<Sys>, steps: seq<Step>, users: set<User>)
    requires IsRun(ss, steps, users)
    ensures (forall k :: 0 <= k <= |steps| ==> AllOrdered(ss[k]))
       <==> (forall k :: 0 <= k < |steps| ==> !Overtaken(ss[k], steps[k]))
  {
    if k :| 0 <= k < |steps| && Overtaken(ss[k], steps[k]) {
      RunKeeps(ss, steps, users, k);
      assert ss[k + 1] == Apply(ss[k], steps[k]) && Timed(ss[k], steps[k]);
      if AllOrdered(ss[k]) {
        StepOrders(ss[k], steps[k], ss[k + 1]);
      }
    } else {
      forall k | 0 <= k <= |steps| ensures AllOrdered(ss[k]) {
        OrderedUpTo(ss, steps, users, k);
      }
    }
  }

  lemma {:induction false} OrderedUpTo(ss: seq<Sys>, steps: seq<Step>, users: set<User>, k: nat)
    requires IsRun(ss, steps, users) && k <= |steps|
    requires forall j :: 0 <= j < k ==> !Overtaken(ss[j], steps[j])
    ensures AllOrdered(ss[k])
    decreases k
  {
    if k > 0 {
      OrderedUpTo(ss, steps, users, k - 1);
      RunKeeps(ss, steps, users, k - 1);
      assert ss[k] == Apply(ss[k - 1], steps[k - 1]) && Timed(ss[k - 1], steps[k - 1]);
      StepOrders(ss[k - 1], steps[k - 1], ss[k]);
    }
  }

  // A post begins while another one of the same user is under way.
  predicate Overlaps(s: Sys, step: Step) { step.Begin? && step.u in s.store.users && Busy(s, step.u) }

  // The post under way is the last of its user.
  predicate OpenIsLast(s: Sys) {
    forall i, j :: 0 <= i < j < |s.posts| && s.posts[i].user == s.posts[j].user ==> s.posts[i].stored
  }

  lemma NothingLater(s: Sys, i: nat)
    requires Inv(s) && OpenIsLast(s) && Open(s, i)
    ensures forall n :: n in s.store.messages && n.0 == s.posts[i].user ==> n.1 <= s.posts[i].id
  {
    forall n | n in s.store.messages && n.0 == s.posts[i].user ensures n.1 <= s.posts[i].id {
      assert Listed(s, n.0, n.1) && HasPost(s, n.0, n.1);
      var j :| 0 <= j < |s.posts| && s.posts[j].user == n.0 && s.posts[j].id == n.1;
      assert j <= i;
    }
  }

  lemma NoOverlapStep(s: Sys, step: Step, s': Sys)
    requires Inv(s) && OpenIsLast(s) && !Overlaps(s, step) && s' == Apply(s, step)
    ensures OpenIsLast(s') && !Overtaken(s, step)
  {
    if step.Finish? && Open(s, step.i) {
      NothingLater(s, step.i);
    }
    if step.Begin? && step.u in s.store.users {
      forall i | 0 <= i < |s.posts| && s.posts[i].user == step.u ensures s.posts[i].stored {
        assert !Open(s, i);
      }
    }
  }

  lemma NoOverlapAt(ss: seq<Sys>, steps: seq<Step>, users: set<User>, k: nat)
    requires IsRun(ss, steps, users) && k < |steps| && OpenIsLast(ss[k]) && !Overlaps(ss[k], steps[k])
    ensures OpenIsLast(ss[k + 1]) && !Overtaken(ss[k], steps[k])
  {
    RunKeeps(ss, steps, users, k);
    assert ss[k + 1] == Apply(ss[k], steps[k]);
    NoOverlapStep(ss[k], steps[k], ss[k + 1]);
  }

  lemma {:induction false} NoOverlapUpTo(ss: seq<Sys>, steps: seq<Step>, users: set<User>, k: nat)
    requires IsRun(ss, steps, users) && k <= |steps|
    requires forall j :: 0 <= j < |steps| ==> !Overlaps(ss[j], steps[j])
    ensures OpenIsLast(ss[k])
    decreases k
  {
    if k > 0 {
      NoOverlapUpTo(ss, steps, users, k - 1);
      NoOverlapAt(ss, steps, users, k - 1);
    }
  }

  // If no two posts of one user overlap, the list of every user who is not posting is
  // complete and in posting order: what a timeline needs.
  lemma SinglePostersKeepOrder(ss: seq<Sys>, steps: seq<Step>, users: set<User>, k: nat, u: User)
    requires IsRun(ss, steps, users) && k <= |steps| && !Busy(ss[k], u)
    requires forall j :: 0 <= j < |steps| ==> !Overlaps(ss[j], steps[j])
    ensures Complete(ss[k].store, u) && PostingOrder(PostsOf(ss[k].store, u))
  {
    forall j | 0 <= j < k ensures !Overtaken(ss[j], steps[j]) {
      NoOverlapUpTo(ss, steps, users, j);
      NoOverlapAt(ss, steps, users, j);
    }
    OrderedUpTo(ss, steps, users, k);
    CompleteIffNotBusy(ss, steps, users, k, u);
    RunKeeps(ss, steps, users, k);
    assert Ordered(ss[k].store, u);
    OrderedListIsInOrder(ss[k], u);
  }

  lemma OrderedListIsInOrder(s: Sys, u: User)
    requires ListsOk(s) && Complete(s.store, u) && Ordered(s.store, u)
    ensures PostingOrder(PostsOf(s.store, u))
  {
    var ids, posts := IdsOf(s.store, u), PostsOf(s.store, u);
    forall i, j | 0 <= i < j < |posts| ensures posts[i].posted <= posts[j].posted {
      assert (u, ids[i]) in s.store.messages && (u, ids[j]) in s.store.messages && ids[i] < ids[j];
    }
  }

  lemma SinglePostersAreShownInOrder(ss: seq<Sys>, steps: seq<Step>, users: set<User>, k: nat, us: seq<User>)
    requires IsRun(ss, steps, users) && k <= |steps|
    requires forall i :: 0 <= i < |us| ==> !Busy(ss[k], us[i])
    requires forall j :: 0 <= j < |steps| ==> !Overlaps(ss[j], steps[j])
    ensures ShownInOrder(ss[k].store, us) && forall i :: 0 <= i < |us| ==> !Fails(ss[k].store, us[i])
  {
    forall i | 0 <= i < |us| ensures PostingOrder(Shown(ss[k].store, us[i])) && !Fails(ss[k].store, us[i]) {
      SinglePostersKeepOrder(ss, steps, users, k, us[i]);
      CompleteIffNotBusy(ss, steps, users, k, us[i]);
    }
  }

  // In every run in which no two posts of one user overlap: the timeline of a reader none of
  // whose followed users is just posting is a newest selection of all their posts, whatever
  // the other users do, and no error occurs. `sorted` is what the merge and the sort make of
  // the followed users' latest posts.
  lemma TimelineOfSinglePosters(
      ss: seq<Sys>, steps: seq<Step>, users: set<User>, k: nat, us: seq<User>, sorted: seq<Tribble>)
    requires IsRun(ss, steps, users) && k <= |steps|
    requires forall j :: 0 <= j < |steps| ==> !Overlaps(ss[j], steps[j])
    requires forall i :: 0 <= i < |us| ==> !Busy(ss[k], us[i])
    requires multiset(sorted) == multiset(Concat(LatestOfEach(AllShown(ss[k].store, us)))) && NewestFirst(sorted)
    ensures NewestOf(sorted[..Min(LIMIT, |sorted|)], Concat(AllShown(ss[k].store, us)))
    ensures forall i :: 0 <= i < |us| ==> !Fails(ss[k].store, us[i])
  {
    SinglePostersAreShownInOrder(ss, steps, users, k, us);
    TimelineIsNewest(ss[k].store, us, sorted);
  }

  // It happens: of two overlapping posts, the first is stamped last, and stands before a
  // post that is older.
  lemma OverlapBreaksOrder() returns (ss: seq<Sys>, steps: seq<Step>)
    ensures |steps| == 4 && IsRun(ss, steps, {"u"}) && !Busy(ss[4], "u")
    ensures PostsOf(ss[4].store, "u") == [Tribble("u", 2, "first"), Tribble("u", 1, "second")]
    ensures !PostingOrder(PostsOf(ss[4].store, "u"))
  {
    steps := [Begin("u", "first"), Begin("u", "second"), Finish(1, 1), Finish(0, 2)];
    var s3 := Sys(Store({"u"}, map[], map["u" := [1, 2]], map[("u", 2) := SECOND]),
                  [OPEN1, OPEN2.(stored := true)], 2, 1);
    var s4 := Sys(Store({"u"}, map[], map["u" := [1, 2]], map[("u", 2) := SECOND, ("u", 1) := FIRST]),
                  [OPEN1.(stored := true), OPEN2.(stored := true)], 2, 2);
    ss := [Empty({"u"}), S1, S2, s3, s4];
    TwoBegin();
    assert Apply(S2, steps[2]) == s3;
    assert Apply(s3, steps[3]) == s4;
    var posts := PostsOf(s4.store, "u");
    assert posts[0] == FIRST && posts[1] == SECOND;
  }

  const FIRST: Tribble := Tribble("u", 2, "first")
  const SECOND: Tribble := Tribble("u", 1, "second")
  const OPEN1: Post := Post("u", 1, "first", false)
  const OPEN2: Post := Post("u", 2, "second", false)
  const S1: Sys := Sys(Store({"u"}, map[], map["u" := [1]], map[]), [OPEN1], 1, 0)
  const S2: Sys := Sys(Store({"u"}, map[], map["u" := [1, 2]], map[]), [OPEN1, OPEN2], 2, 0)

  lemma TwoBegin()
    ensures Apply(Empty({"u"}), Begin("u", "first")) == S1 && Apply(S1, Begin("u", "second")) == S2
  {
    assert IdsOf(Empty({"u"}).store, "u") + [1] == [1];
    assert IdsOf(S1.store, "u") + [2] == [1, 2];
    assert [OPEN1] + [OPEN2] == [OPEN1, OPEN2] && [] + [OPEN1] == [OPEN1];
  }
}
