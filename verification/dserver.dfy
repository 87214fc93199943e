// The buffer server that defers Remove and Front while the buffer is empty: a blocking
// FIFO queue behind one loop over two linked lists.

module DServer {
  import opened Bufi

  datatype Op = DoInsert | DoRemove | DoFlush | DoEmpty | DoFront | DoContents | DoList | DoString

  // client stands for the channel the reply goes to.
  datatype Request<V> = Request(client: int, op: Op, val: V)

  // Rendering: the string made of these values. Live: the server's own buffer, whatever it
  // holds by the time the client looks at it.
  datatype Reply<V> = Nil | Element(v: V) | Flag(b: bool) | Listing(vs: seq<V>) | Rendering(vs: seq<V>) | Live

  datatype Answer<V> = Answer(req: Request<V>, reply: Reply<V>)

  predicate DeferOnEmpty(op: Op) { op == DoRemove || op == DoFront }

  // The buffer, the deferred requests and the replies sent so far.
  datatype State<V> = State(sb: seq<V>, db: seq<Request<V>>, answers: seq<Answer<V>>)

  function ReplyTo<V>(sb: seq<V>, r: Request<V>): Reply<V> {
    match r.op
    case DoInsert => Nil
    case DoFlush => Nil
    case DoRemove => if sb == [] then Nil else Element(sb[0])
    case DoFront => if sb == [] then Nil else Element(sb[0])
    case DoEmpty => Flag(sb == [])
    case DoContents => Listing(sb)
    case DoString => Rendering(sb)
    case DoList => Live
  }

  function BufferAfter<V>(sb: seq<V>, r: Request<V>): seq<V> {
    match r.op
    case DoInsert => sb + [r.val]
    case DoRemove => if sb == [] then [] else sb[1..]
    case DoFlush => []
    case _ => sb
  }

  function Serve<V>(s: State<V>, r: Request<V>): State<V> {
    State(BufferAfter(s.sb, r), s.db, s.answers + [Answer(r, ReplyTo(s.sb, r))])
  }

  // The loop until it waits for a new request.
  function Drain<V>(s: State<V>): State<V>
    decreases |s.db|
  {
    if s.sb != [] && s.db != [] then Drain(Serve(s.(db := s.db[1..]), s.db[0])) else s
  }

  function Accept<V>(s: State<V>, r: Request<V>): State<V> {
    if s.sb == [] && DeferOnEmpty(r.op) then s.(db := s.db + [r]) else Drain(Serve(s, r))
  }

  function After<V>(input: seq<Request<V>>): State<V> {
    if input == [] then State([], [], []) else Accept(After(input[..|input| - 1]), input[|input| - 1])
  }

  lemma TakeInput<V>(input: seq<Request<V>>, i: nat, s: State<V>)
    requires i < |input| && Drain(s) == After(input[..i]) && (s.sb == [] || s.db == [])
    ensures After(input[..i + 1]) == Accept(s, input[i])
  {
    assert input[..i + 1][..i] == input[..i];
  }

  // The server on a finite input. It returns where it would wait for the next request,
  // with what its two buffers then hold.
  method RunServer<V>(input: seq<Request<V>>)
    returns (answers: seq<Answer<V>>, left: seq<V>, deferred: seq<Request<V>>)
    ensures State(left, deferred, answers) == After(input)
  {
    var sb: Buf<V> := new Buf();
    var db: Buf<Request<V>> := new Buf();
    answers := [];
    var i, waiting := 0, false;
    while !waiting
      invariant sb.Valid() && db.Valid() && fresh(sb.repr) && fresh(db.repr) && sb.repr !! db.repr
      invariant 0 <= i <= |input|
      invariant Drain(State(sb.contents, db.contents, answers)) == After(input[..i])
      invariant waiting ==> i == |input| && (sb.contents == [] || db.contents == [])
      decreases !waiting, |input| - i, |db.contents|
    {
      i, answers, waiting := Turn(sb, db, input, i, answers);
    }
    assert input[..i] == input;
    left := sb.Contents();
    deferred := db.Contents();
  }

  // How a turn of the loop gets a request to serve, if it does.
  datatype Next<V> = Wait | Deferred | Take(r: Request<V>)

  // q and d are the two buffers, d' the deferred requests that remain.
  predicate Chosen<V(==)>(q: seq<V>, d: seq<Request<V>>, input: seq<Request<V>>, i: nat,
                          next: Next<V>, i': nat, d': seq<Request<V>>)
    requires i <= |input|
  {
    if q != [] && d != [] then next == Take(d[0]) && i' == i && d' == d[1..]
    else if i == |input| then next == Wait && i' == i && d' == d
    else
      && i' == i + 1
      && next == (if q == [] && DeferOnEmpty(input[i].op) then Deferred else Take(input[i]))
      && d' == if next == Deferred then d + [input[i]] else d
  }

  lemma TurnFollows<V>(s: State<V>, input: seq<Request<V>>, i: nat, next: Next<V>, i': nat, d: seq<Request<V>>,
      s': State<V>)
    requires i <= |input| && Drain(s) == After(input[..i])
    requires Chosen(s.sb, s.db, input, i, next, i', d)
    requires s' == if next.Take? then Serve(s.(db := d), next.r) else s.(db := d)
    ensures i <= i' <= |input| && Drain(s') == After(input[..i'])
    ensures next == Wait ==> i' == |input| && (s'.sb == [] || s'.db == [])
    ensures next != Wait && i' == i ==> |s'.db| < |s.db|
  {
    if i < |input| && (s.sb == [] || s.db == []) {
      TakeInput(input, i, s);
    }
  }

  // Deferred requests go first while the buffer has something.
  method NextRequest<V>(sb: Buf<V>, db: Buf<Request<V>>, input: seq<Request<V>>, i: nat)
    returns (next: Next<V>, i': nat)
    requires sb.Valid() && db.Valid() && sb.repr !! db.repr && i <= |input|
    modifies db.repr
    ensures sb.Valid() && db.Valid() && fresh(db.repr - old(db.repr))
    ensures sb.contents == old(sb.contents) && sb.repr == old(sb.repr)
    ensures Chosen(sb.contents, old(db.contents), input, i, next, i', db.contents)
  {
    i' := i;
    var sbEmpty := sb.Empty();
    var dbEmpty := db.Empty();
    if !sbEmpty && !dbEmpty {
      var b := db.Remove();
      return Take(b.value), i;
    }
    if i == |input| {
      return Wait, i;
    }
    var r := input[i];
    if sbEmpty && DeferOnEmpty(r.op) {
      db.Insert(r);
      return Deferred, i + 1;
    }
    return Take(r), i + 1;
  }

  method Turn<V>(sb: Buf<V>, db: Buf<Request<V>>, input: seq<Request<V>>, i: nat, answers: seq<Answer<V>>)
    returns (i': nat, answers': seq<Answer<V>>, waiting: bool)
    requires sb.Valid() && db.Valid() && sb.repr !! db.repr && i <= |input|
    requires Drain(State(sb.contents, db.contents, answers)) == After(input[..i])
    modifies sb.repr, db.repr
    ensures sb.Valid() && db.Valid() && sb.repr !! db.repr
    ensures fresh(sb.repr - old(sb.repr)) && fresh(db.repr - old(db.repr))
    ensures i <= i' <= |input| && (waiting ==> i' == |input| && (sb.contents == [] || db.contents == []))
    ensures Drain(State(sb.contents, db.contents, answers')) == After(input[..i'])
    ensures !waiting && i' == i ==> |db.contents| < |old(db.contents)|
  {
    ghost var s := State(sb.contents, db.contents, answers);
    var next;
    next, i' := NextRequest(sb, db, input, i);
    answers', waiting := answers, next == Wait;
    ghost var d := db.contents;
    if next.Take? {
      var reply := Dispatch(sb, next.r);
      answers' := answers + [Answer(next.r, reply)];
    }
    TurnFollows(s, input, i, next, i', d, State(sb.contents, db.contents, answers'));
  }

  method Dispatch<V>(sb: Buf<V>, r: Request<V>) returns (reply: Reply<V>)
    requires sb.Valid()
    modifies sb.repr
    ensures sb.Valid() && fresh(sb.repr - old(sb.repr))
    ensures sb.contents == BufferAfter(old(sb.contents), r) && reply == ReplyTo(old(sb.contents), r)
  {
    match r.op {
      case DoInsert =>
        sb.Insert(r.val);
        reply := Nil;
      case DoRemove =>
        var v := sb.Remove();
        reply := if v.Got? then Element(v.value) else Nil;
      case DoEmpty =>
        var b := sb.Empty();
        reply := Flag(b);
      case DoFlush =>
        sb.Flush();
        reply := Nil;
      case DoFront =>
        var v := sb.Front();
        reply := if v.Got? then Element(v.value) else Nil;
      case DoContents =>
        var vs := sb.Contents();
        reply := Listing(vs);
      case DoString =>
        var vs := sb.Contents();
        reply := Rendering(vs);
      case DoList =>
        reply := Live;
    }
  }

  // ------------------------------------------------------------------------------
  // The answers are a history of a blocking queue
  // ------------------------------------------------------------------------------

  // The queue after the answered requests, served one at a time.
  function Queue<V>(answers: seq<Answer<V>>): seq<V> {
    if answers == [] then [] else BufferAfter(Queue(answers[..|answers| - 1]), answers[|answers| - 1].req)
  }

  // Each reply is right for the queue it met, and nothing was taken from an empty queue.
  predicate Legal<V(==)>(answers: seq<Answer<V>>) {
    answers != [] ==>
      var before, a := answers[..|answers| - 1], answers[|answers| - 1];
      && Legal(before)
      && a.reply == ReplyTo(Queue(before), a.req)
      && (DeferOnEmpty(a.req.op) ==> Queue(before) != [])
  }

  // The requests of one kind, in order.
  function Kind<V>(rs: seq<Request<V>>, deferrable: bool): seq<Request<V>> {
    if rs == [] then []
    else Kind(rs[..|rs| - 1], deferrable)
         + if DeferOnEmpty(rs[|rs| - 1].op) == deferrable then [rs[|rs| - 1]] else []
  }

  function Requests<V>(answers: seq<Answer<V>>): (rs: seq<Request<V>>)
    ensures |rs| == |answers|
  {
    seq(|answers|, i requires 0 <= i < |answers| => answers[i].req)
  }

  predicate AllDeferrable<V>(rs: seq<Request<V>>) { forall i :: 0 <= i < |rs| ==> DeferOnEmpty(rs[i].op) }

  // s has taken in `input`.
  predicate Consistent<V(==)>(s: State<V>, input: seq<Request<V>>) {
    && Legal(s.answers) && Queue(s.answers) == s.sb
    && AllDeferrable(s.db)
    && Kind(input, true) == Kind(Requests(s.answers), true) + s.db
    && Kind(input, false) == Kind(Requests(s.answers), false)
  }

  lemma KindAppend<V>(rs: seq<Request<V>>, r: Request<V>, deferrable: bool)
    ensures Kind(rs + [r], deferrable) == Kind(rs, deferrable) + if DeferOnEmpty(r.op) == deferrable then [r] else []
  {
    assert (rs + [r])[..|rs|] == rs;
  }

  lemma AnswerAppend<V>(answers: seq<Answer<V>>, a: Answer<V>)
    requires Legal(answers) && a.reply == ReplyTo(Queue(answers), a.req)
    requires DeferOnEmpty(a.req.op) ==> Queue(answers) != []
    ensures Legal(answers + [a]) && Queue(answers + [a]) == BufferAfter(Queue(answers), a.req)
    ensures Kind(Requests(answers + [a]), true) == Kind(Requests(answers),
            true) + if DeferOnEmpty(a.req.op) then [a.req] else []
    ensures Kind(Requests(answers + [a]), false) == Kind(Requests(answers),
            false) + if DeferOnEmpty(a.req.op) then [] else [a.req]
  {
    assert (answers + [a])[..|answers|] == answers;
    assert Requests(answers + [a]) == Requests(answers) + [a.req];
    KindAppend(Requests(answers), a.req, true);
    KindAppend(Requests(answers), a.req, false);
  }

  lemma {:induction false} DrainKeeps<V>(s: State<V>, input: seq<Request<V>>)
    requires Consistent(s, input)
    ensures Consistent(Drain(s), input) && (Drain(s).sb == [] || Drain(s).db == [])
    ensures s.answers <= Drain(s).answers
    decreases |s.db|
  {
    if s.sb != [] && s.db != [] {
      var s' := Serve(s.(db := s.db[1..]), s.db[0]);
      AnswerAppend(s.answers, s'.answers[|s.answers|]);
      assert s.db == [s.db[0]] + s.db[1..];
      DrainKeeps(s', input);
    }
  }

  lemma ServeKeeps<V>(s: State<V>, input: seq<Request<V>>, r: Request<V>, s1: State<V>)
    requires Consistent(s, input) && (s.sb == [] || s.db == []) && !(s.sb == [] && DeferOnEmpty(r.op))
    requires s1 == Serve(s, r)
    ensures Consistent(s1, input + [r]) && s.answers <= s1.answers
  {
    KindAppend(input, r, true);
    KindAppend(input, r, false);
    AnswerAppend(s.answers, s1.answers[|s.answers|]);
  }

  lemma AcceptKeeps<V>(s: State<V>, input: seq<Request<V>>, r: Request<V>)
    requires Consistent(s, input) && (s.sb == [] || s.db == [])
    ensures var s' := Accept(s, r);
      Consistent(s', input + [r]) && (s'.sb == [] || s'.db == []) && s.answers <= s'.answers
  {
    if s.sb == [] && DeferOnEmpty(r.op) {
      KindAppend(input, r, true);
      KindAppend(input, r, false);
    } else {
      var s1 := Serve(s, r);
      ServeKeeps(s, input, r, s1);
      DrainKeeps(s1, input + [r]);
    }
  }

  // On every input: the answers form a legal history of a FIFO queue in which Remove and
  // Front only ever meet an element; requests that can wait are answered in the order
  // they came, the others likewise, and none is forgotten; and whenever the server waits,
  // the buffer or the list of deferred requests is empty.
  lemma {:induction false} BlockingQueue<V>(input: seq<Request<V>>)
    ensures var s := After(input); Consistent(s, input) && (s.sb == [] || s.db == [])
  {
    if input != [] {
      var before := input[..|input| - 1];
      BlockingQueue(before);
      AcceptKeeps(After(before), before, input[|input| - 1]);
      assert input == before + [input[|input| - 1]];
    }
  }

  lemma {:induction false} AnswersArePermanent<V>(input: seq<Request<V>>, k: nat)
    requires k <= |input|
    ensures After(input[..k]).answers <= After(input).answers
    decreases |input|
  {
    if k == |input| {
      assert input[..k] == input;
    } else {
      var before := input[..|input| - 1];
      AnswersArePermanent(before, k);
      assert before[..k] == input[..k];
      BlockingQueue(before);
      AcceptKeeps(After(before), before, input[|input| - 1]);
    }
  }

  // What went in, and what Remove brought out, since the last Flush.
  function Inserted<V>(answers: seq<Answer<V>>): seq<V> {
    if answers == [] then [] else
    var before, a := Inserted(answers[..|answers| - 1]), answers[|answers| - 1];
    match a.req.op
    case DoFlush => []
    case DoInsert => before + [a.req.val]
    case _ => before
  }

  function Removed<V>(answers: seq<Answer<V>>): seq<V> {
    if answers == [] then [] else
    var before, a := Removed(answers[..|answers| - 1]), answers[|answers| - 1];
    match a.req.op
    case DoFlush => []
    case DoRemove => if a.reply.Element? then before + [a.reply.v] else before
    case _ => before
  }

  // First in, first out: removed values, then those still buffered, are the inserted ones.
  lemma {:induction false} FirstInFirstOut<V>(answers: seq<Answer<V>>)
    requires Legal(answers)
    ensures Inserted(answers) == Removed(answers) + Queue(answers)
  {
    if answers != [] {
      var before := answers[..|answers| - 1];
      FirstInFirstOut(before);
      if answers[|answers| - 1].req.op == DoRemove {
        assert Queue(before) == [Queue(before)[0]] + Queue(before)[1..];
      }
    }
  }

  // Every Remove and every Front is answered with an element.
  lemma {:induction false} RealElements<V>(answers: seq<Answer<V>>, i: nat)
    requires Legal(answers) && i < |answers| && DeferOnEmpty(answers[i].req.op)
    ensures answers[i].reply.Element?
  {
    if i < |answers| - 1 {
      RealElements(answers[..|answers| - 1], i);
    }
  }

  // The reply that what went in and what was taken out call for: Front and Remove get the
  // next value that was inserted and not yet removed, Empty tells whether there is none,
  // and the listings show them all.
  predicate RightReply<V(==)>(ins: seq<V>, outs: seq<V>, a: Answer<V>) {
    && outs <= ins
    && match a.req.op
       case DoInsert => a.reply == Nil
       case DoFlush => a.reply == Nil
       case DoRemove => |outs| < |ins| && a.reply == Element(ins[|outs|])
       case DoFront => |outs| < |ins| && a.reply == Element(ins[|outs|])
       case DoEmpty => a.reply == Flag(ins == outs)
       case DoContents => a.reply == Listing(ins[|outs|..])
       case DoString => a.reply == Rendering(ins[|outs|..])
       case DoList => a.reply == Live
  }

  lemma {:induction false} RepliesAreRight<V>(answers: seq<Answer<V>>, i: nat)
    requires Legal(answers) && i < |answers|
    ensures RightReply(Inserted(answers[..i]), Removed(answers[..i]), answers[i])
    decreases |answers|
  {
    var before := answers[..|answers| - 1];
    if i == |answers| - 1 {
      FirstInFirstOut(before);
      var ins, outs := Inserted(before), Removed(before);
      assert ins[|outs|..] == Queue(before);
    } else {
      RepliesAreRight(before, i);
      assert before[..i] == answers[..i];
    }
  }

  // On every input, every answer is the one that the values inserted and removed before it
  // call for.
  lemma EveryAnswerIsRight<V>(input: seq<Request<V>>, i: nat)
    requires i < |After(input).answers|
    ensures var answers := After(input).answers;
      RightReply(Inserted(answers[..i]), Removed(answers[..i]), answers[i])
  {
    BlockingQueue(input);
    RepliesAreRight(After(input).answers, i);
  }
}
