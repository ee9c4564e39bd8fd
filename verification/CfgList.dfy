/** The circular doubly linked list under the function and block lists, on the heap: nodes are
    relinked in place, and the sorted insertion of cfg.c does to the keys what Insert says. */
module CfgList {
  import opened CfgSpec

  // A list entry; key is the instruction pointer its list is sorted by.  The node that stands for
  // the list itself has a key nobody reads.
  class Node {
    var next: Node?
    var prev: Node?
    var key: int

    constructor (key: int)
      ensures this.key == key && next == null && prev == null
    {
      this.key := key;
      next, prev := null, null;
    }
  }

  function Around(i: nat, n: nat): (j: nat)
    requires i < n
    ensures j < n
  {
    if i + 1 < n then i + 1 else 0
  }

  // The nodes form one circle, in this order, linked both ways.
  ghost predicate Ring(ns: seq<Node>)
    reads ns
  {
    ns != [] && (forall i, j | 0 <= i < j < |ns| :: ns[i] != ns[j])
    && forall i | 0 <= i < |ns| :: Linked(ns, i)
  }

  ghost predicate Linked(ns: seq<Node>, i: nat)
    requires i < |ns|
    reads ns
  {
    ns[i].next == ns[Around(i, |ns|)] && ns[Around(i, |ns|)].prev == ns[i]
  }

  // The keys of the entries behind the list head.
  ghost function Keys(ns: seq<Node>): (ks: seq<int>)
    requires ns != []
    reads ns
    ensures |ks| == |ns| - 1
    ensures forall i | 0 <= i < |ks| :: ks[i] == ns[i + 1].key
  {
    seq(|ns| - 1, i requires 0 <= i < |ns| - 1 reads ns => ns[i + 1].key)
  }

  function Added(ns: seq<Node>, i: nat, x: Node): seq<Node>
    requires i < |ns|
  {
    ns[..i + 1] + [x] + ns[i + 1..]
  }

  // INIT_LIST_HEAD
  method InitListHead(head: Node)
    modifies head
    ensures Ring([head]) && head.key == old(head.key)
  {
    head.next := head;
    head.prev := head;
  }

  // __list_add between ns[i] and the node behind it
  method Insert2(x: Node, prev: Node, next: Node, ghost ns: seq<Node>, ghost i: nat)
    requires Ring(ns) && x !in ns && i < |ns| && prev == ns[i] && next == ns[Around(i, |ns|)]
    modifies ns, x
    ensures Ring(Added(ns, i, x))
    ensures x.key == old(x.key) && forall n | n in ns :: n.key == old(n.key)
  {
    ghost var after := Added(ns, i, x);
    assert forall k | 0 <= k < |ns| :: Linked(ns, k);
    next.prev := x;
    x.next := next;
    x.prev := prev;
    prev.next := x;
    forall k | 0 <= k < |after| ensures Linked(after, k) {
      if k < i {
        assert old(Linked(ns, k)) && after[k] == ns[k] && after[k + 1] == ns[k + 1];
      } else if k > i + 1 {
        assert old(Linked(ns, k - 1)) && after[k] == ns[k - 1];
      } else {
        assert old(Linked(ns, i)) && after[i] == ns[i] && after[i + 1] == x;
      }
    }
  }

  // list_add: behind the entry at
  method ListAdd(x: Node, at: Node, ghost ns: seq<Node>, ghost i: nat)
    requires Ring(ns) && x !in ns && i < |ns| && at == ns[i]
    modifies ns, x
    ensures Ring(Added(ns, i, x))
    ensures x.key == old(x.key) && forall n | n in ns :: n.key == old(n.key)
  {
    assert Linked(ns, i);
    Insert2(x, at, at.next, ns, i);
  }

  // list_add_tail: before the list head, that is at the end
  method ListAddTail(x: Node, head: Node, ghost ns: seq<Node>)
    requires Ring(ns) && x !in ns && head == ns[0]
    modifies ns, x
    ensures Ring(ns + [x])
    ensures x.key == old(x.key) && forall n | n in ns :: n.key == old(n.key)
  {
    assert Linked(ns, |ns| - 1);
    Insert2(x, head.prev, head, ns, |ns| - 1);
    assert Added(ns, |ns| - 1, x) == ns + [x];
  }

  // list_del: the neighbours are linked to each other, the entry's own links are poisoned.
  method ListDel(x: Node, ghost ns: seq<Node>, ghost i: nat)
    requires Ring(ns) && 0 < i < |ns| && x == ns[i]
    modifies ns
    ensures Ring(ns[..i] + ns[i + 1..]) && x.next == null && x.prev == null
    ensures forall n | n in ns :: n.key == old(n.key)
  {
    assert forall k | 0 <= k < |ns| :: Linked(ns, k);
    assert Linked(ns, i - 1) && Linked(ns, i);
    ghost var after := ns[..i] + ns[i + 1..];
    x.next.prev := x.prev;
    x.prev.next := x.next;
    x.next := null;
    x.prev := null;
    forall k | 0 <= k < |after| ensures Linked(after, k) {
      var m := if k < i then k else k + 1;
      assert after[k] == ns[m] && old(Linked(ns, m));
    }
  }

  // list_empty
  method ListEmpty(head: Node, ghost ns: seq<Node>) returns (empty: bool)
    requires Ring(ns) && head == ns[0]
    ensures empty <==> Keys(ns) == []
  {
    assert Linked(ns, 0);
    empty := head.next == head;
  }

  // Walks the list up to the first entry whose key is not below the given one.
  method Search(head: Node, key: int, ghost ns: seq<Node>) returns (pos: Node, ghost k: nat)
    requires Ring(ns) && head == ns[0]
    ensures k == Place(Keys(ns), key) + 1 <= |ns| && pos == (if k < |ns| then ns[k] else head)
  {
    assert Linked(ns, 0);
    pos := head.next;
    k := 1;
    while pos != head && pos.key < key
      invariant 1 <= k <= |ns| && pos == (if k < |ns| then ns[k] else head)
      invariant forall j | 0 <= j < k - 1 :: Keys(ns)[j] < key
      decreases |ns| - k
    {
      assert Linked(ns, k);
      pos := pos.next;
      k := k + 1;
    }
    PlaceIs(Keys(ns), key, k - 1);
  }

  lemma KeysAdded(ns: seq<Node>, i: nat, x: Node)
    requires i < |ns|
    ensures Keys(Added(ns, i, x)) == Keys(ns)[..i] + [x.key] + Keys(ns)[i..]
  {
  }

  // cfg_append_func and func_append_bb: the entry with this key, inserted in order if it is new.
  method AppendSorted(head: Node, key: int, ghost ns: seq<Node>) returns (x: Node, ghost after: seq<Node>)
    requires Ring(ns) && head == ns[0]
    modifies ns
    ensures Ring(after) && head == after[0] && x in after[1..] && x.key == key
    ensures Keys(after) == Insert(old(Keys(ns)), key)
    ensures after == ns || (fresh(x) && after == Added(ns, Place(old(Keys(ns)), key), x))
    ensures forall n | n in ns :: n.key == old(n.key)
  {
    ghost var keys := Keys(ns);
    ghost var k;
    x, k := Search(head, key, ns);
    if x != head && x.key == key {
      assert ns[1..][k - 1] == x;
      return x, ns;
    }
    assert Linked(ns, k - 1);
    var prev := x.prev;
    x := new Node(key);
    ListAdd(x, prev, ns, k - 1);
    after := Added(ns, k - 1, x);
    assert after[1..][k - 1] == x;
    KeysAdded(ns, k - 1, x);
    assert Keys(ns) == keys;
  }
}
