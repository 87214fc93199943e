// The URL store: Put counts, generates a key and sets it, and starts over when another
// Put was faster.

module UrlStore {
  import opened Wrappers
  import opened UrlKey

  type Urls = map<string, string>

  function Images(f: nat -> string, n: nat): set<string> {
    if n == 0 then {} else Images(f, n - 1) + {f(n - 1)}
  }

  ghost predicate OneToOne(f: nat -> string) { forall i, j :: i != j ==> f(i) != f(j) }

  lemma {:induction false} ImagesAre(f: nat -> string, n: nat, m: nat)
    requires OneToOne(f)
    ensures f(m) in Images(f, n) <==> m < n
    ensures |Images(f, n)| == n
  {
    if n > 0 {
      ImagesAre(f, n - 1, m);
      ImagesAre(f, n - 1, n - 1);
    }
  }

  // The keys of the first n numbers.
  function FirstKeys(n: nat): (keys: set<string>) { Images(KeyOf, n) }

  lemma FirstKeysAre(n: nat, m: nat)
    ensures KeyOf(m) in FirstKeys(n) <==> m < n
    ensures |FirstKeys(n)| == n
  {
    assert OneToOne(KeyOf) by {
      forall i: nat, j: nat | i != j ensures KeyOf(i) != KeyOf(j) {
        KeysDiffer(i, j);
      }
    }
    ImagesAre(KeyOf, n, m);
  }

  // The keys in use are those of 0, 1, ..., count - 1.
  predicate Contiguous(urls: Urls) { urls.Keys == FirstKeys(|urls|) }

  lemma NextKey(urls: Urls, url: string)
    requires Contiguous(urls)
    ensures KeyOf(|urls|) !in urls
    ensures Contiguous(urls[KeyOf(|urls|) := url]) && |urls[KeyOf(|urls|) := url]| == |urls| + 1
  {
    FirstKeysAre(|urls|, |urls|);
    var urls' := urls[KeyOf(|urls|) := url];
    assert urls'.Keys == urls.Keys + {KeyOf(|urls|)};
    FirstKeysAre(|urls| + 1, 0);
    assert urls'.Keys == FirstKeys(|urls| + 1);
    assert |urls'| == |urls'.Keys|;
  }

  class URLStore {
    var urls: Urls

    constructor ()
      ensures urls == map[] && Contiguous(urls)
    {
      urls := map[];
      assert FirstKeys(0) == {};
    }

    method Get(key: string) returns (url: Option<string>)
      ensures url == if key in urls then Some(urls[key]) else None
    {
      if key in urls {
        return Some(urls[key]);
      }
      return None;
    }

    // false: the key already exists.
    method Set(key: string, url: string) returns (ok: bool)
      modifies this
      ensures ok <==> key !in old(urls)
      ensures urls == if ok then old(urls)[key := url] else old(urls)
    {
      if key in urls {
        return false;
      }
      urls := urls[key := url];
      return true;
    }

    method Count() returns (n: nat)
      ensures n == |urls|
    {
      return |urls|;
    }

    // One turn of Put's loop with nobody else at the store.
    method Turn(url: string) returns (key: string, ok: bool)
      requires |urls| < INT_LIMIT
      modifies this
      ensures key == KeyOf(|old(urls)|)
      ensures ok <==> key !in old(urls)
      ensures urls == if ok then old(urls)[key := url] else old(urls)
    {
      var n := Count();
      ElevenDigits(n);
      key := GenKey(n);
      ok := Set(key, url);
    }

    // Put with nobody else at the store. None: the next key is taken, every turn meets the
    // same store, and the loop never ends. On a store that only Put has filled the first
    // turn succeeds.
    method Put(url: string) returns (key: Option<string>)
      requires |urls| < INT_LIMIT
      modifies this
      ensures key == if KeyOf(|old(urls)|) in old(urls) then None else Some(KeyOf(|old(urls)|))
      ensures urls == if key.None? then old(urls) else old(urls)[key.value := url]
      ensures Contiguous(old(urls)) ==> key.Some? && Contiguous(urls)
    {
      if Contiguous(urls) {
        NextKey(urls, url);
      }
      var k, done := Turn(url);
      return if done then Some(k) else None;
    }
  }

  // ------------------------------------------------------------------------------
  // Any number of concurrent Puts
  // ------------------------------------------------------------------------------

  // Where a Put stands: about to count, holding a key generated from a count, set but not
  // yet handed to the save loop, returned.
  datatype Putter =
    | Counting(url: string)
    | Setting(url: string, seen: nat)
    | Saving(url: string, key: string)
    | Returned(url: string, key: string)

  predicate IsSet(p: Putter) { p.Saving? || p.Returned? }

  datatype Record = Record(key: string, url: string)

  // saved: the records in the order in which the save loop gets them.
  datatype Sys = Sys(urls: Urls, puts: seq<Putter>, saved: seq<Record>)

  datatype Step = Call(url: string) | CountStep(i: nat) | SetStep(i: nat) | SaveStep(i: nat)

  function Apply(s: Sys, step: Step): Sys {
    match step
    case Call(url) => s.(puts := s.puts + [Counting(url)])
    case CountStep(i) =>
      if i < |s.puts| && s.puts[i].Counting? then s.(puts := s.puts[i := Setting(s.puts[i].url, |s.urls|)]) else s
    case SetStep(i) =>
      if i < |s.puts| && s.puts[i].Setting? then
        var url, key := s.puts[i].url, KeyOf(s.puts[i].seen);
        if key in s.urls then s.(puts := s.puts[i := Counting(url)])
        else s.(urls := s.urls[key := url], puts := s.puts[i := Saving(url, key)])
      else s
    case SaveStep(i) =>
      if i < |s.puts| && s.puts[i].Saving? then
        s.(puts := s.puts[i := Returned(s.puts[i].url, s.puts[i].key)],
           saved := s.saved + [Record(s.puts[i].key, s.puts[i].url)])
      else s
  }

  const EMPTY: Sys := Sys(map[], [], [])

  predicate IsRun(ss: seq<Sys>, steps: seq<Step>) {
    && |ss| == |steps| + 1 && ss[0] == EMPTY
    && forall k {:trigger steps[k]} :: 0 <= k < |steps| ==> ss[k + 1] == Apply(ss[k], steps[k])
  }

  predicate PutterOk(p: Putter, urls: Urls) {
    match p
    case Counting(_) => true
    case Setting(_, seen) => seen <= |urls|
    case _ => p.key in urls && urls[p.key] == p.url
  }

  // The number of Puts that have succeeded.
  function SetCount(puts: seq<Putter>): nat {
    if puts == [] then 0
    else SetCount(puts[..|puts| - 1]) + if IsSet(puts[|puts| - 1]) then 1 else 0
  }

  predicate Inv(s: Sys) {
    && Contiguous(s.urls)
    && SetCount(s.puts) == |s.urls|
    && (forall i :: 0 <= i < |s.puts| ==> PutterOk(s.puts[i], s.urls))
    && (forall i, j :: 0 <= i < j < |s.puts| && IsSet(s.puts[i]) && IsSet(s.puts[j]) ==> s.puts[i].key != s.puts[j].key)
  }

  lemma {:induction false} CountAfterUpdate(puts: seq<Putter>, i: nat, p: Putter)
    requires i < |puts|
    ensures SetCount(puts[i := p]) == SetCount(puts) + (if IsSet(p) then 1 else 0) - (if IsSet(puts[i]) then 1 else 0)
    decreases |puts|
  {
    var last := |puts| - 1;
    if i == last {
      assert puts[i := p][..last] == puts[..last];
    } else {
      assert puts[i := p][..last] == puts[..last][i := p];
      CountAfterUpdate(puts[..last], i, p);
    }
  }

  // A Set succeeds exactly when no other Put has succeeded since its Count.
  lemma SetSucceedsIffUndisturbed(s: Sys, i: nat)
    requires Inv(s) && i < |s.puts| && s.puts[i].Setting?
    ensures IsSet(Apply(s, SetStep(i)).puts[i]) <==> s.puts[i].seen == |s.urls|
  {
    assert PutterOk(s.puts[i], s.urls);
    FirstKeysAre(|s.urls|, s.puts[i].seen);
  }

  lemma SetKeeps(s: Sys, i: nat)
    requires Inv(s) && i < |s.puts| && s.puts[i].Setting?
    ensures Inv(Apply(s, SetStep(i)))
    ensures forall key :: key in s.urls ==>
              key in Apply(s, SetStep(i)).urls && Apply(s, SetStep(i)).urls[key] == s.urls[key]
  {
    SetSucceedsIffUndisturbed(s, i);
    var s' := Apply(s, SetStep(i));
    CountAfterUpdate(s.puts, i, s'.puts[i]);
    NextKey(s.urls, s.puts[i].url);
    forall k | 0 <= k < |s'.puts| ensures PutterOk(s'.puts[k], s'.urls) {
      if k != i {
        assert PutterOk(s.puts[k], s.urls);
      }
    }
  }

  lemma StepKeeps(s: Sys, step: Step, s': Sys)
    requires Inv(s) && s' == Apply(s, step)
    ensures Inv(s')
    ensures forall key :: key in s.urls ==> key in s'.urls && s'.urls[key] == s.urls[key]
  {
    match step {
      case Call(url) =>
        assert s'.puts[..|s.puts|] == s.puts;
      case CountStep(i) =>
        if i < |s.puts| && s.puts[i].Counting? {
          CountAfterUpdate(s.puts, i, s'.puts[i]);
        }
      case SetStep(i) =>
        if i < |s.puts| && s.puts[i].Setting? {
          SetKeeps(s, i);
        }
      case SaveStep(i) =>
        if i < |s.puts| && s.puts[i].Saving? {
          CountAfterUpdate(s.puts, i, s'.puts[i]);
          forall k | 0 <= k < |s'.puts| ensures PutterOk(s'.puts[k], s'.urls) {
            assert PutterOk(s.puts[k], s.urls);
          }
        }
    }
  }

  lemma {:induction false} RunKeeps(ss: seq<Sys>, steps: seq<Step>, k: nat)
    requires IsRun(ss, steps) && k <= |steps|
    ensures Inv(ss[k])
    decreases k
  {
    if k > 0 {
      RunKeeps(ss, steps, k - 1);
      StepKeeps(ss[k - 1], steps[k - 1], ss[k]);
    } else {
      assert FirstKeys(0) == {};
    }
  }

  // In every interleaving: the keys are those of 0 .. count - 1, one for each Put that
  // has succeeded, no two Puts get the same key, and each key leads to its Put's URL.
  lemma KeysAreUniqueAndDense(ss: seq<Sys>, steps: seq<Step>, k: nat)
    requires IsRun(ss, steps) && k <= |steps|
    ensures var s := ss[k];
      && s.urls.Keys == FirstKeys(|s.urls|) && SetCount(s.puts) == |s.urls|
      && (forall i, j :: 0 <= i < j < |s.puts| && IsSet(s.puts[i]) && IsSet(s.puts[j]) ==>
          s.puts[i].key != s.puts[j].key)
      && (forall i :: 0 <= i < |s.puts| && IsSet(s.puts[i]) ==>
           s.puts[i].key in s.urls && s.urls[s.puts[i].key] == s.puts[i].url)
  {
    RunKeeps(ss, steps, k);
    forall i | 0 <= i < |ss[k].puts| ensures PutterOk(ss[k].puts[i], ss[k].urls) {
    }
  }

  lemma StepOfARun(ss: seq<Sys>, steps: seq<Step>, k: nat, key: string)
    requires IsRun(ss, steps) && k < |steps| && key in ss[k].urls
    ensures key in ss[k + 1].urls && ss[k + 1].urls[key] == ss[k].urls[key]
  {
    RunKeeps(ss, steps, k);
    StepKeeps(ss[k], steps[k], ss[k + 1]);
  }

  lemma {:induction false} StoredUrlsNeverChange(ss: seq<Sys>, steps: seq<Step>, i: nat, j: nat, key: string)
    requires IsRun(ss, steps) && i <= j <= |steps| && key in ss[i].urls
    ensures key in ss[j].urls && ss[j].urls[key] == ss[i].urls[key]
    decreases j
  {
    if i < j {
      StoredUrlsNeverChange(ss, steps, i, j - 1, key);
      StepOfARun(ss, steps, j - 1, key);
    }
  }

  // A Set fails only because another Put succeeded since its Count.
  lemma FailedSetWasOvertaken(ss: seq<Sys>, steps: seq<Step>, c: nat, k: nat, i: nat)
    requires IsRun(ss, steps) && c < k < |steps|
    requires steps[c] == CountStep(i) && steps[k] == SetStep(i)
    requires i < |ss[c].puts| && ss[c].puts[i].Counting?
    requires i < |ss[k].puts| && ss[k].puts[i] == Setting(ss[c].puts[i].url, |ss[c].urls|)
    ensures IsSet(ss[k + 1].puts[i]) <==> |ss[k].urls| == |ss[c].urls|
    ensures !IsSet(ss[k + 1].puts[i]) ==> |ss[k].urls| > |ss[c].urls|
  {
    RunKeeps(ss, steps, k);
    SetSucceedsIffUndisturbed(ss[k], i);
    assert PutterOk(ss[k].puts[i], ss[k].urls);
    assert ss[k + 1] == Apply(ss[k], steps[k]);
  }

  // A Put that is left alone from its Count on returns what URLStore.Put gives; one that was
  // overtaken counts again.
  lemma LeftAloneItReturns(s: Sys, i: nat, s1: Sys, s2: Sys, s3: Sys)
    requires Inv(s) && i < |s.puts| && s.puts[i].Counting?
    requires s1 == Apply(s, CountStep(i)) && s2 == Apply(s1, SetStep(i)) && s3 == Apply(s2, SaveStep(i))
    ensures var key, url := KeyOf(|s.urls|), s.puts[i].url;
      && key !in s.urls && s3.urls == s.urls[key := url]
      && s3.puts == s.puts[i := Returned(url, key)] && s3.saved == s.saved + [Record(key, url)]
  {
    FirstKeysAre(|s.urls|, |s.urls|);
  }

  lemma OvertakenPutCountsAgain(s: Sys, i: nat)
    requires Inv(s) && i < |s.puts| && s.puts[i].Setting? && s.puts[i].seen != |s.urls|
    ensures Apply(s, SetStep(i)) == s.(puts := s.puts[i := Counting(s.puts[i].url)])
  {
    assert PutterOk(s.puts[i], s.urls);
    FirstKeysAre(|s.urls|, s.puts[i].seen);
  }

  // On a store holding other keys (loaded from a file, say), a Put left alone succeeds
  // at once or, its turn having changed nothing, never.
  function TurnAlone(urls: Urls, url: string): Urls {
    var key := KeyOf(|urls|);
    if key in urls then urls else urls[key := url]
  }

  function TurnsAlone(urls: Urls, url: string, n: nat): Urls
    decreases n
  {
    if n == 0 then urls else TurnsAlone(TurnAlone(urls, url), url, n - 1)
  }

  lemma {:induction false} AloneItSucceedsIffTheNextKeyIsFree(urls: Urls, url: string, n: nat)
    decreases n
    ensures TurnAlone(urls, url) != urls <==> KeyOf(|urls|) !in urls
    ensures KeyOf(|urls|) in urls ==> TurnsAlone(urls, url, n) == urls
  {
    if n > 0 && KeyOf(|urls|) in urls {
      AloneItSucceedsIffTheNextKeyIsFree(urls, url, n - 1);
    }
    if KeyOf(|urls|) !in urls {
      assert KeyOf(|urls|) in TurnAlone(urls, url);
    }
  }

  // ------------------------------------------------------------------------------
  // Saving and loading
  // ------------------------------------------------------------------------------

  // What a store loads from the records that reached the file, with Set.
  function Loaded(saved: seq<Record>): Urls {
    if saved == [] then map[]
    else
      var urls, r := Loaded(saved[..|saved| - 1]), saved[|saved| - 1];
      if r.key in urls then urls else urls[r.key := r.url]
  }

  // Of the records with one key, the first counts.
  lemma {:induction false} FirstRecordCounts(saved: seq<Record>, i: nat)
    requires i < |saved| && forall j :: 0 <= j < i ==> saved[j].key != saved[i].key
    ensures saved[i].key in Loaded(saved) && Loaded(saved)[saved[i].key] == saved[i].url
    decreases |saved|
  {
    var front := saved[..|saved| - 1];
    if i < |front| {
      FirstRecordCounts(front, i);
    } else {
      LoadedKeys(front, saved[i].key);
    }
  }

  lemma {:induction false} LoadedKeys(saved: seq<Record>, key: string)
    ensures key in Loaded(saved) ==> exists j :: 0 <= j < |saved| && saved[j].key == key
    decreases |saved|
  {
    if saved != [] {
      var front := saved[..|saved| - 1];
      LoadedKeys(front, key);
      if key in Loaded(front) {
        var j :| 0 <= j < |front| && front[j].key == key;
        assert saved[j].key == key;
      }
    }
  }

  lemma {:induction false} LoadedInOrder(saved: seq<Record>)
    requires forall j :: 0 <= j < |saved| ==> saved[j].key == KeyOf(j)
    ensures Contiguous(Loaded(saved)) && |Loaded(saved)| == |saved|
  {
    if saved == [] {
      assert FirstKeys(0) == {};
    } else {
      var front := saved[..|saved| - 1];
      LoadedInOrder(front);
      NextKey(Loaded(front), saved[|saved| - 1].url);
    }
  }

  // There is a Put that has set this key.
  predicate Owned(puts: seq<Putter>, key: string) {
    exists i :: 0 <= i < |puts| && IsSet(puts[i]) && puts[i].key == key
  }

  predicate BeingSaved(puts: seq<Putter>, key: string) {
    exists i :: 0 <= i < |puts| && puts[i].Saving? && puts[i].key == key
  }

  // The records are those of the Puts that have returned.
  predicate SavedOk(s: Sys) {
    && (forall key :: key in s.urls ==> Owned(s.puts, key))
    && (forall r :: r in s.saved ==> Returned(r.url, r.key) in s.puts)
    && (forall i :: 0 <= i < |s.puts| && s.puts[i].Returned? ==> Record(s.puts[i].key, s.puts[i].url) in s.saved)
  }

  lemma OwnedStays(s: Sys, step: Step, s': Sys, key: string)
    requires s' == Apply(s, step) && Owned(s.puts, key)
    ensures Owned(s'.puts, key)
  {
    var i :| 0 <= i < |s.puts| && IsSet(s.puts[i]) && s.puts[i].key == key;
    assert IsSet(s'.puts[i]) && s'.puts[i].key == key;
  }

  lemma RecordsStay(s: Sys, step: Step, s': Sys, r: Record)
    requires s' == Apply(s, step) && Returned(r.url, r.key) in s.puts
    ensures Returned(r.url, r.key) in s'.puts
  {
    var i :| 0 <= i < |s.puts| && s.puts[i] == Returned(r.url, r.key);
    assert s'.puts[i] == s.puts[i];
  }

  lemma SavedStep(s: Sys, step: Step, s': Sys)
    requires SavedOk(s) && s' == Apply(s, step)
    ensures SavedOk(s') && s.saved <= s'.saved
  {
    forall key | key in s'.urls ensures Owned(s'.puts, key) {
      if key in s.urls {
        OwnedStays(s, step, s', key);
      } else {
        assert IsSet(s'.puts[step.i]) && s'.puts[step.i].key == key;
      }
    }
    forall r | r in s'.saved ensures Returned(r.url, r.key) in s'.puts {
      if r in s.saved {
        RecordsStay(s, step, s', r);
      } else {
        assert s'.puts[step.i] == Returned(r.url, r.key);
      }
    }
  }

  lemma {:induction false} RunKeepsSaved(ss: seq<Sys>, steps: seq<Step>, k: nat)
    requires IsRun(ss, steps) && k <= |steps|
    ensures SavedOk(ss[k])
    decreases k
  {
    if k > 0 {
      RunKeepsSaved(ss, steps, k - 1);
      SavedStep(ss[k - 1], steps[k - 1], ss[k]);
    }
  }

  // Records once handed over stay as they are, in their order.
  lemma {:induction false} SavedOnlyGrows(ss: seq<Sys>, steps: seq<Step>, i: nat, j: nat)
    requires IsRun(ss, steps) && i <= j <= |steps|
    ensures ss[i].saved <= ss[j].saved
    decreases j
  {
    if i < j {
      SavedOnlyGrows(ss, steps, i, j - 1);
      RunKeepsSaved(ss, steps, j - 1);
      SavedStep(ss[j - 1], steps[j - 1], ss[j]);
    }
  }

  lemma {:induction false} LoadedHasTheRecords(saved: seq<Record>, urls: Urls)
    requires forall r :: r in saved ==> r.key in urls && urls[r.key] == r.url
    ensures forall key :: key in Loaded(saved) <==> exists r :: r in saved && r.key == key
    ensures forall key :: key in Loaded(saved) ==> key in urls && Loaded(saved)[key] == urls[key]
    decreases |saved|
  {
    if saved != [] {
      var front, last := saved[..|saved| - 1], saved[|saved| - 1];
      LoadedHasTheRecords(front, urls);
      assert saved == front + [last];
      forall key ensures key in Loaded(saved) <==> exists r :: r in saved && r.key == key {
        if key == last.key {
          assert last in saved;
        } else if key in Loaded(front) {
          var r :| r in front && r.key == key;
          assert r in saved;
        }
      }
    }
  }

  lemma ReturnedIsStored(s: Sys, r: Record)
    requires Inv(s) && SavedOk(s) && r in s.saved
    ensures r.key in s.urls && s.urls[r.key] == r.url && !BeingSaved(s.puts, r.key)
  {
    var i :| 0 <= i < |s.puts| && s.puts[i] == Returned(r.url, r.key);
    assert PutterOk(s.puts[i], s.urls);
  }

  lemma StoredIsReturned(s: Sys, key: string) returns (r: Record)
    requires SavedOk(s) && key in s.urls && !BeingSaved(s.puts, key)
    ensures r in s.saved && r.key == key
  {
    assert Owned(s.puts, key);
    var i :| 0 <= i < |s.puts| && IsSet(s.puts[i]) && s.puts[i].key == key;
    r := Record(s.puts[i].key, s.puts[i].url);
  }

  // In every run, what is loaded from the records handed over so far is the store, except
  // for the Puts whose records are still to be handed over; with none of these it is the
  // whole store.
  lemma LoadingGivesTheStoreBack(ss: seq<Sys>, steps: seq<Step>, k: nat)
    requires IsRun(ss, steps) && k <= |steps|
    ensures var s, urls := ss[k], Loaded(ss[k].saved);
      && (forall key :: key in urls <==> key in s.urls && !BeingSaved(s.puts, key))
      && (forall key :: key in urls ==> urls[key] == s.urls[key])
      && ((forall i :: 0 <= i < |s.puts| ==> !s.puts[i].Saving?) ==> urls == s.urls)
  {
    var s := ss[k];
    RunKeeps(ss, steps, k);
    RunKeepsSaved(ss, steps, k);
    forall r | r in s.saved ensures r.key in s.urls && s.urls[r.key] == r.url && !BeingSaved(s.puts, r.key) {
      ReturnedIsStored(s, r);
    }
    LoadedHasTheRecords(s.saved, s.urls);
    forall key | key in s.urls && !BeingSaved(s.puts, key) ensures key in Loaded(s.saved) {
      var r := StoredIsReturned(s, key);
    }
  }

  // A store loaded from a file whose records are in the order of their keys accepts the
  // next Put at once. A save record can overtake an earlier one, and if the process then
  // ends before the other is saved, the loaded store refuses every Put left alone for ever.
  lemma OvertakenSaveStopsPut() returns (ss: seq<Sys>, steps: seq<Step>)
    ensures IsRun(ss, steps)
    ensures var urls := Loaded(ss[|steps|].saved);
      |urls| == 1 && KeyOf(|urls|) in urls && forall url, n: nat :: TurnsAlone(urls, url, n) == urls
  {
    var k0, k1 := KeyOf(0), KeyOf(1);
    KeysDiffer(0, 1);
    steps := [Call("x"), Call("y"), CountStep(0), SetStep(0), CountStep(1), SetStep(1), SaveStep(1)];
    ss := [EMPTY,
           Sys(map[], [Counting("x")], []),
           Sys(map[], [Counting("x"), Counting("y")], []),
           Sys(map[], [Setting("x", 0), Counting("y")], []),
           Sys(map[k0 := "x"], [Saving("x", k0), Counting("y")], []),
           Sys(map[k0 := "x"], [Saving("x", k0), Setting("y", 1)], []),
           Sys(map[k0 := "x", k1 := "y"], [Saving("x", k0), Saving("y", k1)], []),
           Sys(map[k0 := "x", k1 := "y"], [Saving("x", k0), Returned("y", k1)], [Record(k1, "y")])];
    RunSteps(k0, k1);
    var urls := Loaded([Record(k1, "y")]);
    LoadedOne(Record(k1, "y"));
    forall url, n: nat ensures TurnsAlone(urls, url, n) == urls {
      AloneItSucceedsIffTheNextKeyIsFree(urls, url, n);
    }
  }

  lemma LoadedOne(r: Record)
    ensures Loaded([r]) == map[r.key := r.url]
  {
    assert [r][..0] == [];
    assert Loaded([r][..0]) == map[];
  }

  lemma RunSteps(k0: string, k1: string)
    requires k0 == KeyOf(0) && k1 == KeyOf(1) && k0 != k1
    ensures Apply(EMPTY, Call("x")) == Sys(map[], [Counting("x")], [])
    ensures Apply(Sys(map[], [Counting("x")], []), Call("y")) == Sys(map[], [Counting("x"), Counting("y")], [])
    ensures Apply(Sys(map[], [Counting("x"), Counting("y")], []), CountStep(0))
         == Sys(map[], [Setting("x", 0), Counting("y")], [])
    ensures Apply(Sys(map[], [Setting("x", 0), Counting("y")], []), SetStep(0))
         == Sys(map[k0 := "x"], [Saving("x", k0), Counting("y")], [])
    ensures Apply(Sys(map[k0 := "x"], [Saving("x", k0), Counting("y")], []), CountStep(1))
         == Sys(map[k0 := "x"], [Saving("x", k0), Setting("y", 1)], [])
    ensures Apply(Sys(map[k0 := "x"], [Saving("x", k0), Setting("y", 1)], []), SetStep(1))
         == Sys(map[k0 := "x", k1 := "y"], [Saving("x", k0), Saving("y", k1)], [])
    ensures Apply(Sys(map[k0 := "x", k1 := "y"], [Saving("x", k0), Saving("y", k1)], []), SaveStep(1))
         == Sys(map[k0 := "x", k1 := "y"], [Saving("x", k0), Returned("y", k1)], [Record(k1, "y")])
  {
    assert [] + [Counting("x")] == [Counting("x")];
    assert [Counting("x")] + [Counting("y")] == [Counting("x"), Counting("y")];
  }
}
