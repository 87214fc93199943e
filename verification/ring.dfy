// Consistent-hash routing: which storage node a key belongs to.

module Ring {
  import opened Wrappers

  // Ids and hashes are 32-bit; nothing below depends on the bound.
  datatype Node = Node(hostPort: string, id: nat)

  // ------------------------------------------------------------------------------
  // What the routing should be, on the set of nodes alone
  // ------------------------------------------------------------------------------

  predicate DistinctIds(nodes: set<Node>) {
    forall m, n :: m in nodes && n in nodes && m.id == n.id ==> m == n
  }

  // The next node at or after the hash, around the ring.
  predicate Owns(n: Node, nodes: set<Node>, hash: nat) {
    && n in nodes
    && if n.id >= hash then forall m :: m in nodes && m.id >= hash ==> n.id <= m.id
       else forall m :: m in nodes ==> m.id < hash && n.id <= m.id
  }

  lemma OneOwner(m: Node, n: Node, nodes: set<Node>, hash: nat)
    requires DistinctIds(nodes) && Owns(m, nodes, hash) && Owns(n, nodes, hash)
    ensures m == n
  {
    assert m.id <= n.id && n.id <= m.id;
  }

  // p comes before x on the ring of `nodes`, next to it.
  predicate Precedes(p: Node, x: Node, nodes: set<Node>) {
    && p in nodes
    && if p.id < x.id then forall m :: m in nodes ==> m.id <= p.id || m.id > x.id
       else forall m :: m in nodes ==> x.id < m.id <= p.id
  }

  // Every ring has a predecessor for a joining node.
  lemma HasPredecessor(nodes: set<Node>, x: Node) returns (p: Node)
    requires nodes != {} && x !in nodes && DistinctIds(nodes + {x})
    ensures Precedes(p, x, nodes)
    decreases nodes
  {
    p :| p in nodes;
    if nodes != {p} {
      var q := HasPredecessor(nodes - {p}, x);
      assert nodes == (nodes - {p}) + {p};
      assert x in nodes + {x} && p in nodes + {x} && q in nodes + {x};
      // q stays the nearest unless p lies between q and x
      if !Precedes(p, x, nodes) {
        p := q;
      }
    }
  }

  // The hashes after p, up to and including x, around the ring.
  predicate InArc(hash: nat, p: Node, x: Node) {
    if p.id < x.id then p.id < hash <= x.id else hash > p.id || hash <= x.id
  }

  // A node that joins takes over exactly the hashes between its predecessor and itself;
  // every other hash stays where it was.
  lemma JoiningNodeTakesItsArc(nodes: set<Node>, x: Node, p: Node, hash: nat, before: Node, after: Node)
    requires DistinctIds(nodes + {x}) && x !in nodes && Precedes(p, x, nodes)
    requires Owns(before, nodes, hash) && Owns(after, nodes + {x}, hash)
    ensures after == if InArc(hash, p, x) then x else before
  {
    assert x in nodes + {x} && p in nodes + {x} && before in nodes + {x};
    if InArc(hash, p, x) {
      assert Owns(x, nodes + {x}, hash);
      OneOwner(after, x, nodes + {x}, hash);
    } else {
      assert Owns(before, nodes + {x}, hash);
      OneOwner(after, before, nodes + {x}, hash);
    }
  }

  // ------------------------------------------------------------------------------
  // The sorted list and the search
  // ------------------------------------------------------------------------------

  predicate Less(a: Node, b: Node) { a.id < b.id }

  predicate Sorted(nodes: seq<Node>) {
    forall i, j :: 0 <= i < j < |nodes| ==> !Less(nodes[j], nodes[i])
  }

  function NodeSet(nodes: seq<Node>): set<Node> { set i | 0 <= i < |nodes| :: nodes[i] }

  lemma SameContentsSameSet(a: seq<Node>, b: seq<Node>)
    requires multiset(a) == multiset(b)
    ensures NodeSet(a) == NodeSet(b)
  {
    forall n ensures n in NodeSet(a) <==> n in NodeSet(b) {
      assert n in NodeSet(a) <==> n in multiset(a);
      assert n in NodeSet(b) <==> n in multiset(b);
    }
  }

  // The part of a key that is hashed: everything up to the first colon.
  function Prefix(key: string): string {
    if key == "" || key[0] == ':' then "" else [key[0]] + Prefix(key[1..])
  }

  // All keys of one user go to one node.
  lemma {:induction false} SuffixDoesNotMatter(user: string, rest: string)
    requires ':' !in user
    ensures Prefix(user + ":" + rest) == user
  {
    var key := user + ":" + rest;
    if user != "" {
      assert key[0] == user[0] && key[1..] == user[1..] + ":" + rest;
      SuffixDoesNotMatter(user[1..], rest);
    }
  }

  class Libstore {
    const hash: string -> nat
    var nodes: seq<Node>
    var rpcConn: seq<Option<string>>  // the host each open connection leads to

    predicate Valid()
      reads this
    {
      && Sorted(nodes) && nodes != [] && |rpcConn| == |nodes|
      && forall i :: 0 <= i < |nodes| && rpcConn[i].Some? ==> rpcConn[i].value == nodes[i].hostPort
    }

    // servers: the list as the master sent it, in whatever order.
    constructor (servers: seq<Node>, hash: string -> nat)
      requires servers != []
      ensures Valid() && NodeSet(nodes) == NodeSet(servers) && this.hash == hash
    {
      nodes := servers;
      rpcConn := seq(|servers|, i => None);
      this.hash := hash;
      new;
      SortNodes();
    }

    method Swap(i: nat, j: nat)
      requires i < |nodes| && j < |nodes|
      modifies this`nodes
      ensures nodes == old(nodes)[i := old(nodes)[j]][j := old(nodes)[i]]
      ensures multiset(nodes) == multiset(old(nodes))
    {
      var a, b := nodes[i], nodes[j];
      nodes := nodes[i := b];
      nodes := nodes[j := a];
      assert multiset(nodes) == multiset(old(nodes)) - multiset{a} + multiset{b} - multiset{b} + multiset{a};
    }

    // Stands for the library sort: any order with no descent will do.
    method SortNodes()
      modifies this`nodes
      ensures Sorted(nodes) && |nodes| == |old(nodes)| && NodeSet(nodes) == NodeSet(old(nodes))
    {
      var k := 0;
      while k < |nodes|
        invariant 0 <= k <= |nodes| && |nodes| == |old(nodes)|
        invariant Sorted(nodes[..k]) && multiset(nodes) == multiset(old(nodes))
      {
        var j := k;
        while j > 0 && Less(nodes[j], nodes[j - 1])
          invariant 0 <= j <= k < |nodes| && |nodes| == |old(nodes)|
          invariant multiset(nodes) == multiset(old(nodes))
          invariant forall a, b :: 0 <= a < b <= k && b != j ==> !Less(nodes[b], nodes[a])
        {
          Swap(j - 1, j);
          j := j - 1;
        }
        k := k + 1;
      }
      assert nodes[..k] == nodes;
      SameContentsSameSet(nodes, old(nodes));
    }

    // dialed: whether dialing the node, if it comes to that, succeeds.
    method PickServer(key: string, dialed: bool) returns (id: nat, conn: Option<string>)
      requires Valid()
      modifies this`rpcConn
      ensures Valid() && id < |nodes|
      ensures Owns(nodes[id], NodeSet(nodes), hash(Prefix(key)))
      ensures conn == if dialed || old(rpcConn)[id].Some? then Some(nodes[id].hostPort) else None
      ensures rpcConn == old(rpcConn)[id := conn]
    {
      var h := hash(Prefix(key));
      id := 0;
      var i := 0;
      while i < |nodes|
        invariant 0 <= i <= |nodes| && id == 0
        invariant forall j :: 0 <= j < i ==> nodes[j].id < h
      {
        if nodes[i].id >= h {
          id := i;
          break;
        }
        i := i + 1;
      }
      ChosenOwns(nodes, id, h);
      if rpcConn[id].None? {
        if !dialed {
          return id, None;
        }
        rpcConn := rpcConn[id := Some(nodes[id].hostPort)];
      }
      return id, rpcConn[id];
    }
  }

  lemma ChosenOwns(nodes: seq<Node>, id: nat, hash: nat)
    requires Sorted(nodes) && id < |nodes|
    requires (nodes[id].id >= hash && forall j :: 0 <= j < id ==> nodes[j].id < hash)
             || (id == 0 && forall j :: 0 <= j < |nodes| ==> nodes[j].id < hash)
    ensures Owns(nodes[id], NodeSet(nodes), hash)
  {
    forall m | m in NodeSet(nodes) ensures nodes[id].id <= m.id || m.id < hash {
      var j :| 0 <= j < |nodes| && nodes[j] == m;
      assert j <= id || !Less(nodes[j], nodes[id]);
    }
    forall m | m in NodeSet(nodes) && nodes[id].id < hash ensures m.id < hash && nodes[id].id <= m.id {
      var j :| 0 <= j < |nodes| && nodes[j] == m;
      assert j == 0 || !Less(nodes[j], nodes[0]);
    }
  }

  // With distinct ids the choice depends on the set of nodes and the user alone, not on
  // the order in which the list arrived.
  lemma OrderDoesNotMatter(a: seq<Node>, b: seq<Node>, i: nat, j: nat, hash: nat)
    requires NodeSet(a) == NodeSet(b) && DistinctIds(NodeSet(a)) && i < |a| && j < |b|
    requires Owns(a[i], NodeSet(a), hash) && Owns(b[j], NodeSet(b), hash)
    ensures a[i] == b[j]
  {
    OneOwner(a[i], b[j], NodeSet(a), hash);
  }
}
