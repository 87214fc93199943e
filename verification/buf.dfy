// The singly linked FIFO buffer shared by the LSP connection and the deferring
// buffer server (two identical copies in the repository).

module Bufi {

  class BufEle<T> {
    var val: T
    var next: BufEle?<T>

    constructor (val: T)
      ensures this.val == val && next == null
    {
      this.val := val;
      this.next := null;
    }
  }

  // The two ways Front and Remove can end.
  datatype Taken<+T> = Got(value: T) | EmptyBuffer

  class Buf<T> {
    var head: BufEle?<T>  // oldest element
    var tail: BufEle?<T>  // most recently inserted element
    var cnt: int          // number of elements in list

    ghost var nodes: seq<BufEle<T>>  // the chain from head to tail
    ghost var contents: seq<T>       // the values along the chain
    ghost var repr: set<object>      // this buffer and the cells it may write

    ghost predicate Valid()
      reads this, repr
      ensures Valid() ==> this in repr
    {
      && this in repr
      && (forall n :: n in nodes ==> n in repr)
      && cnt == |nodes| == |contents|
      && head == (if nodes == [] then null else nodes[0])
      && tail == (if nodes == [] then null else nodes[|nodes| - 1])
      && (forall i :: 0 <= i < |nodes| ==> nodes[i].val == contents[i])
      && (forall i :: 0 <= i < |nodes| - 1 ==> nodes[i].next == nodes[i + 1])
      && (nodes != [] ==> nodes[|nodes| - 1].next == null)
      && (forall i, j :: 0 <= i < j < |nodes| ==> nodes[i] != nodes[j])
    }

    constructor ()
      ensures Valid() && fresh(repr) && contents == []
    {
      head, tail, cnt := null, null, 0;
      nodes, contents, repr := [], [], {this};
    }

    method Insert(val: T)
      requires Valid()
      modifies repr
      ensures Valid() && fresh(repr - old(repr))
      ensures contents == old(contents) + [val]
    {
      var ele := new BufEle(val);
      if head == null {
        head := ele;
        tail := ele;
      } else {
        tail.next := ele;
        tail := ele;
      }
      cnt := cnt + 1;
      nodes := nodes + [ele];
      contents := contents + [val];
      repr := repr + {ele};
    }

    method Front() returns (r: Taken<T>)
      requires Valid()
      ensures r == if contents == [] then EmptyBuffer else Got(contents[0])
    {
      if head == null {
        return EmptyBuffer;
      }
      return Got(head.val);
    }

    method Remove() returns (r: Taken<T>)
      requires Valid()
      modifies this
      ensures Valid() && repr == old(repr)
      ensures old(contents) == [] ==> r == EmptyBuffer && contents == []
      ensures old(contents) != [] ==> r == Got(old(contents)[0]) && contents == old(contents)[1..]
    {
      var e := head;
      if e == null {
        return EmptyBuffer;
      }
      head := e.next;
      if e == tail {
        tail := null;
      }
      cnt := cnt - 1;
      nodes := nodes[1..];
      contents := contents[1..];
      return Got(e.val);
    }

    method Empty() returns (b: bool)
      requires Valid()
      ensures b <==> contents == []
    {
      return head == null;
    }

    method Flush()
      requires Valid()
      modifies this
      ensures Valid() && repr == old(repr) && contents == []
    {
      head, tail, cnt := null, null, 0;
      nodes, contents := [], [];
    }

    // Walks the chain into a fresh slice of length cnt.
    method Contents() returns (result: seq<T>)
      requires Valid()
      ensures result == contents
    {
      result := [];
      var e := head;
      var i := 0;
      while i < cnt
        invariant 0 <= i <= cnt
        invariant result == contents[..i]
        invariant e == if i < cnt then nodes[i] else null
      {
        result := result + [e.val];
        e := e.next;
        i := i + 1;
      }
    }
  }
}
