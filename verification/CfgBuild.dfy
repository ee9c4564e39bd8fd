/** The graph builder: function and block nodes are created, inserted in order and patched in place.
    A list of nodes is a field of type seq here; CfgList has the links under it. */
module CfgBuild {
  import opened CfgSpec

  const ENTRY_BLOCK_INDEX: nat := 0
  const EXIT_BLOCK_INDEX: nat := 1
  const NUM_FIXED_BLOCKS: nat := 2

  // A pointer to an instruction; the entry and exit blocks have none.
  datatype Ptr = Null | At(i: int)

  datatype Edge = Edge(src: BbNode, dst: BbNode?, flag: Flag)

  class BbNode {
    var head: Ptr
    var tail: Ptr
    var idx: nat
    var prevs: seq<Edge>
    var succs: seq<Edge>

    constructor (head: Ptr)
      ensures this.head == head && tail == Null && idx == 0 && prevs == [] && succs == []
    {
      this.head := head;
      tail, idx, prevs, succs := Null, 0, [], [];
    }
  }

  predicate Distinct(bbs: seq<BbNode>) {
    forall i, j | 0 <= i < j < |bbs| :: bbs[i] != bbs[j]
  }

  // Blocks with these heads and without edges.
  ghost predicate Raw(bbs: seq<BbNode>, h: seq<int>)
    reads bbs`head, bbs`prevs, bbs`succs
  {
    |bbs| == |h| && Distinct(bbs) && forall k | 0 <= k < |h| :: IsRaw(bbs, h, k)
  }

  ghost predicate IsRaw(bbs: seq<BbNode>, h: seq<int>, k: nat)
    requires k < |bbs| == |h|
    reads bbs`head, bbs`prevs, bbs`succs
  {
    bbs[k].head == At(h[k]) && bbs[k].prevs == [] && bbs[k].succs == []
  }

  lemma Differ(bbs: seq<BbNode>, h: seq<int>, i: nat)
    requires Raw(bbs, h) && i < |bbs|
    ensures |bbs| == |h| && IsRaw(bbs, h, i) && forall k | 0 <= k < |bbs| && k != i :: bbs[k] != bbs[i]
  {
  }

  // A new block among others.
  lemma RawAdded(bbs: seq<BbNode>, h: seq<int>, i: nat, b: BbNode, x: int)
    requires Raw(bbs, h) && i <= |bbs| && b !in bbs && b.head == At(x) && b.prevs == [] && b.succs == []
    ensures var all := bbs[..i] + [b] + bbs[i..];
      Raw(all, h[..i] + [x] + h[i..]) && forall y | y in all :: y in bbs || y == b
  {
    var all, g := bbs[..i] + [b] + bbs[i..], h[..i] + [x] + h[i..];
    forall k | 0 <= k < |g| ensures IsRaw(all, g, k) {
      if k != i {
        assert IsRaw(bbs, h, if k < i then k else k - 1);
      }
    }
  }

  lemma BetweenSpecial(all: seq<BbNode>, bbs: seq<BbNode>, h: seq<int>)
    requires Raw(bbs, h) && |all| == |bbs| + 2 && all[1..|all| - 1] == bbs && all[0] !in bbs && all[|all| - 1] !in bbs
    requires all[0] != all[|all| - 1]
    requires forall b | b in [all[0], all[|all| - 1]] :: b.prevs == [] && b.succs == []
    ensures |bbs| == |h| && Distinct(all) && forall k | 0 <= k < |all| :: all[k].succs == [] && all[k].prevs == []
  {
    forall k | 0 <= k < |all| ensures all[k].succs == [] && all[k].prevs == [] {
      if 0 < k < |all| - 1 {
        assert IsRaw(bbs, h, k - 1);
      }
    }
    forall i, j | 0 <= i < j < |all| ensures all[i] != all[j] {
      assert 0 < i < |all| - 1 ==> all[i] == bbs[i - 1];
      assert 0 < j < |all| - 1 ==> all[j] == bbs[j - 1];
    }
  }

  // Position k of the list is block k of a range cut at h.
  ghost predicate Numbered(bbs: seq<BbNode>, h: seq<int>, end: int)
    reads bbs`head, bbs`tail, bbs`idx
  {
    |bbs| == |h| && forall k | 0 <= k < |h| :: IsBlock(bbs, h, end, k)
  }

  ghost predicate IsBlock(bbs: seq<BbNode>, h: seq<int>, end: int, k: nat)
    requires k < |bbs| == |h|
    reads bbs`head, bbs`tail, bbs`idx
  {
    bbs[k].head == At(h[k]) && bbs[k].tail == At(Last(h, k, end)) && bbs[k].idx == NUM_FIXED_BLOCKS + k
  }

  // The node a destination stands for.
  function NodeAt(bbs: seq<BbNode>, n: Node): BbNode?
    requires |bbs| >= 2
  {
    match n
    case Entry => bbs[0]
    case Block(k) => if k + 1 < |bbs| then bbs[k + 1] else null
    case Exit => bbs[|bbs| - 1]
    case Missing => null
  }

  function EdgesAt(bbs: seq<BbNode>, src: BbNode, arcs: seq<Arc>): (es: seq<Edge>)
    requires |bbs| >= 2
    ensures |es| == |arcs| && forall i | 0 <= i < |es| :: es[i] == Edge(src, NodeAt(bbs, arcs[i].dst), arcs[i].flag)
  {
    seq(|arcs|, i requires 0 <= i < |arcs| => Edge(src, NodeAt(bbs, arcs[i].dst), arcs[i].flag))
  }

  class FuncNode {
    var start: int
    var end: int
    var idx: nat
    var bbNum: nat
    var bbs: seq<BbNode>

    constructor (start: int, idx: nat)
      ensures this.start == start && this.idx == idx && bbs == []
    {
      this.start := start;
      this.idx := idx;
      end, bbNum, bbs := start, 0, [];
    }

    // func_append_bb
    method AppendBb(insn: int, ghost h: seq<int>)
      requires Raw(bbs, h)
      modifies this`bbs
      ensures Raw(bbs, Insert(h, insn)) && forall b | b in bbs :: b in old(bbs) || fresh(b)
    {
      hide Raw, Place;
      var i := FindPlace(insn, h);
      if i < |bbs| { Differ(bbs, h, i); }
      if i == |bbs| || bbs[i].head.i != insn {
        var b := new BbNode(At(insn));
        RawAdded(bbs, h, i, b, insn);
        bbs := bbs[..i] + [b] + bbs[i..];
      }
    }

    method FindPlace(insn: int, ghost h: seq<int>) returns (i: nat)
      requires Raw(bbs, h)
      ensures i == Place(h, insn) <= |bbs| == |h|
    {
      i := 0;
      assert |bbs| > 0 ==> IsRaw(bbs, h, 0);
      while i < |bbs| && bbs[i].head.i < insn
        invariant 0 <= i <= |bbs| && forall j | 0 <= j < i :: h[j] < insn
        invariant i < |bbs| ==> IsRaw(bbs, h, i)
      {
        i := i + 1;
      }
      PlaceIs(h, insn, i);
    }

    // func_partition_bb_head
    method PartitionHead(prog: seq<Insn>)
      requires 0 <= start <= end + 1 <= |prog|
      modifies this`bbs
      ensures Raw(bbs, Heads(prog, start, end + 1)) && fresh(bbs)
    {
      hide Insert, Raw;
      bbs := [];
      NothingRaw();
      AppendBb(start, []);
      InsertFirst(start);
      var cur := start;
      while cur <= end
        invariant start <= cur <= end + 1
        invariant Raw(bbs, Heads(prog, start, cur)) && forall b | b in bbs :: fresh(b)
      {
        var x := prog[cur];
        ghost var h := Heads(prog, start, cur);
        if Leaps(x) {
          AppendBb(Dest(prog, cur), h);
          if Op(x) != BPF_JA {
            AppendBb(cur + 1, Insert(h, Dest(prog, cur)));
          }
        }
        cur := cur + 1;
      }
      assert forall i | 0 <= i < |bbs| :: bbs[i] in bbs;
    }

    // func_partition_bb_tail
    method PartitionTail(ghost h: seq<int>)
      requires bbs != [] && Raw(bbs, h)
      modifies this`bbNum, bbs`tail, bbs`idx
      ensures Raw(bbs, h) && Numbered(bbs, h, end) && bbNum == |bbs| + NUM_FIXED_BLOCKS
    {
      hide Raw, Distinct;
      Differ(bbs, h, |bbs| - 1);
      var last := bbs[|bbs| - 1];
      last.tail := At(end);
      var i := 0;
      while i < |bbs| - 1
        invariant 0 <= i <= |bbs| - 1 == |h| - 1 && last.tail == At(end) && Raw(bbs, h)
        invariant forall k | 0 <= k < i :: IsBlock(bbs, h, end, k)
      {
        Differ(bbs, h, i);
        Differ(bbs, h, i + 1);
        label Before:
        bbs[i].tail := At(bbs[i + 1].head.i - 1);
        bbs[i].idx := NUM_FIXED_BLOCKS + i;
        forall k | 0 <= k <= i ensures IsBlock(bbs, h, end, k) {
          if k < i { assert old@Before(IsBlock(bbs, h, end, k)); }
        }
        i := i + 1;
      }
      Differ(bbs, h, i);
      label After:
      last.idx := NUM_FIXED_BLOCKS + i;
      bbNum := NUM_FIXED_BLOCKS + i + 1;
      forall k | 0 <= k <= i ensures IsBlock(bbs, h, end, k) {
        if k < i { assert old@After(IsBlock(bbs, h, end, k)); }
      }
    }

    // func_add_special_bb
    method AddSpecialBbs()
      modifies this`bbs
      ensures |bbs| == |old(bbs)| + 2 && bbs[1..|bbs| - 1] == old(bbs)
      ensures var entry, exit := bbs[0], bbs[|bbs| - 1];
        fresh(entry) && fresh(exit) && entry != exit && entry.prevs == entry.succs == exit.prevs == exit.succs == []
        && entry.head == exit.head == Null && entry.idx == ENTRY_BLOCK_INDEX && exit.idx == EXIT_BLOCK_INDEX
        && entry !in old(bbs) && exit !in old(bbs)
    {
      var entry := new BbNode(Null);
      entry.idx := ENTRY_BLOCK_INDEX;
      var exit := new BbNode(Null);
      exit.idx := EXIT_BLOCK_INDEX;
      bbs := [entry] + bbs + [exit];
    }

    // Between entry and exit, the blocks with the given heads.
    ghost predicate Framed(h: seq<int>)
      reads this`bbs, this`end, bbs`head, bbs`tail, bbs`idx
    {
      |bbs| == |h| + 2 && h != [] && Distinct(bbs) && bbs[0].head == bbs[|bbs| - 1].head == Null
      && Numbered(bbs[1..|bbs| - 1], h, end)
    }

    // func_search_bb_with_head
    method SearchBb(insn: int, ghost h: seq<int>) returns (b: BbNode?)
      requires Framed(h)
      ensures b == NodeAt(bbs, FindHead(h, insn))
    {
      var i := 0;
      while i < |bbs|
        invariant 0 <= i <= |bbs| && forall j | 0 <= j < i :: bbs[j].head != At(insn)
      {
        if bbs[i].head == At(insn) {
          assert IsBlock(bbs[1..|bbs| - 1], h, end, i - 1);
          forall j | 0 <= j < i - 1 ensures h[j] != insn {
            assert IsBlock(bbs[1..|bbs| - 1], h, end, j);
          }
          FirstHead(h, insn, i - 1);
          return bbs[i];
        }
        i := i + 1;
      }
      forall k | 0 <= k < |h| ensures h[k] != insn {
        assert IsBlock(bbs[1..|bbs| - 1], h, end, k);
      }
      return null;
    }

    // The edges of one block.
    method AddBlockEdges(prog: seq<Insn>, bb: BbNode, next: BbNode, ghost k: nat, ghost h: seq<int>)
      requires Framed(h) && k < |h| && bb == bbs[k + 1] && next == bbs[k + 2]
      requires 0 <= Last(h, k, end) < |prog| && bb.succs == []
      modifies bb`succs
      ensures bb.succs == EdgesAt(bbs, bb, Arcs(prog, h, end, k))
    {
      assert IsBlock(bbs[1..|bbs| - 1], h, end, k) && bbs[1..|bbs| - 1][k] == bb;
      assert next == NodeAt(bbs, NextNode(h, k));
      var tail := bb.tail.i;
      var x := prog[tail];
      if !IsJmp(x) || Op(x) == BPF_EXIT {
        bb.succs := bb.succs + [Edge(bb, next, Fallthrough)];
        return;
      }
      var dst := SearchBb(tail + x.off + 1, h);
      if Op(x) == BPF_JA {
        bb.succs := bb.succs + [Edge(bb, dst, Jump)];
        return;
      }
      bb.succs := bb.succs + [Edge(bb, next, Fallthrough)];
      bb.succs := bb.succs + [Edge(bb, dst, Jump)];
    }

    // The edges drawn from block k.
    ghost predicate Wired(prog: seq<Insn>, h: seq<int>, k: nat)
      requires |bbs| == |h| + 2 && k < |h| && 0 <= Last(h, k, end) < |prog|
      reads this`bbs, this`end, bbs`succs
    {
      bbs[k + 1].succs == EdgesAt(bbs, bbs[k + 1], Arcs(prog, h, end, k))
    }

    // The edges from entry and to exit.
    ghost predicate Ends()
      requires |bbs| >= 2
      reads this`bbs, bbs`prevs, bbs`succs
    {
      var entry, exit := bbs[0], bbs[|bbs| - 1];
      entry.succs == [Edge(entry, bbs[1], Fallthrough)] && exit.prevs == [Edge(bbs[|bbs| - 2], exit, Fallthrough)]
    }

    // func_add_bb_edges
    method AddEdges(prog: seq<Insn>, ghost h: seq<int>)
      requires Framed(h) && (forall k | 0 <= k < |bbs| :: bbs[k].succs == [] && bbs[k].prevs == [])
      requires forall k | 0 <= k < |h| :: 0 <= Last(h, k, end) < |prog|
      modifies bbs`prevs, bbs`succs
      ensures Framed(h) && Ends() && forall k | 0 <= k < |h| :: Wired(prog, h, k)
    {
      var entry := bbs[0];
      entry.succs := entry.succs + [Edge(entry, bbs[1], Fallthrough)];
      var exit := bbs[|bbs| - 1];
      exit.prevs := exit.prevs + [Edge(bbs[|bbs| - 2], exit, Fallthrough)];
      var i := 1;
      while i < |bbs| - 1
        invariant 1 <= i <= |bbs| - 1 && Framed(h) && Ends()
        invariant forall k | i <= k < |bbs| - 1 :: bbs[k].succs == []
        invariant forall k | 0 <= k < i - 1 :: Wired(prog, h, k)
      {
        label Before:
        AddBlockEdges(prog, bbs[i], bbs[i + 1], i - 1, h);
        forall k | 0 <= k <= i - 1 ensures Wired(prog, h, k) {
          if k < i - 1 { assert old@Before(Wired(prog, h, k)); }
        }
        i := i + 1;
      }
    }

    // The finished graph of the function.
    ghost predicate Built(prog: seq<Insn>)
      requires 0 <= start <= end + 1 <= |prog|
      reads this, bbs
    {
      var h := Heads(prog, start, end + 1);
      Framed(h) && bbNum == |bbs| && Ends()
      && bbs[0].idx == ENTRY_BLOCK_INDEX && bbs[|bbs| - 1].idx == EXIT_BLOCK_INDEX
      && forall k | 0 <= k < |h| :: 0 <= Last(h, k, end) < |prog| && Wired(prog, h, k)
    }

    // func_partition_bb and func_add_special_bb
    method AddBlocks(prog: seq<Insn>)
      requires 0 <= start <= end + 1 <= |prog|
      modifies this`bbs, this`bbNum
      ensures Framed(Heads(prog, start, end + 1)) && fresh(bbs) && bbNum == |bbs|
      ensures bbs[0].idx == ENTRY_BLOCK_INDEX && bbs[|bbs| - 1].idx == EXIT_BLOCK_INDEX
      ensures forall k | 0 <= k < |bbs| :: bbs[k].succs == [] && bbs[k].prevs == []
    {
      hide Raw, Numbered, Heads;
      ghost var h := Heads(prog, start, end + 1);
      HeadsAre(prog, start, end + 1);
      PartitionHead(prog);
      RawLength(bbs, h);
      PartitionTail(h);
      ghost var blocks := bbs;
      AddSpecialBbs();
      assert bbs[1..|bbs| - 1] == blocks;
      BetweenSpecial(bbs, blocks, h);
    }

    // What cfg_build does with one function.
    method BuildGraph(prog: seq<Insn>)
      requires InProgram(prog) && prog != [] && 0 <= start <= end + 1 <= |prog| && 0 <= end
      modifies this`bbs, this`bbNum
      ensures Built(prog) && fresh(bbs)
    {
      hide Framed, Heads, Wired, Ends;
      AddBlocks(prog);
      TailsInside(prog, start, end);
      AddEdges(prog, Heads(prog, start, end + 1));
    }
  }

  // Functions that start at s, numbered in some order.
  ghost predicate Ordered(funcs: seq<FuncNode>, s: seq<int>)
    reads funcs`start, funcs`idx
  {
    |funcs| == |s| && (forall k | 0 <= k < |s| :: IsFunc(funcs, s, k))
    && forall i, j | 0 <= i < j < |funcs| :: Apart(funcs, i, j)
  }

  ghost predicate IsFunc(funcs: seq<FuncNode>, s: seq<int>, k: nat)
    requires k < |funcs| == |s|
    reads funcs`start, funcs`idx
  {
    funcs[k].start == s[k] && funcs[k].idx < |funcs|
  }

  ghost predicate Apart(funcs: seq<FuncNode>, i: nat, j: nat)
    requires i < |funcs| && j < |funcs|
    reads funcs`idx
  {
    funcs[i] != funcs[j] && funcs[i].idx != funcs[j].idx
  }

  lemma FuncAdded(funcs: seq<FuncNode>, s: seq<int>, i: nat, f: FuncNode, x: int)
    requires Ordered(funcs, s) && i <= |funcs| && f !in funcs && f.start == x && f.idx == |funcs|
    ensures var all := funcs[..i] + [f] + funcs[i..];
      Ordered(all, s[..i] + [x] + s[i..]) && forall y | y in all :: y in funcs || y == f
  {
    var all, t := funcs[..i] + [f] + funcs[i..], s[..i] + [x] + s[i..];
    forall k | 0 <= k < |t| ensures IsFunc(all, t, k) {
      if k != i { assert IsFunc(funcs, s, if k < i then k else k - 1); }
    }
    forall a, b | 0 <= a < b < |all| ensures Apart(all, a, b) {
      var a', b' := if a < i then a else a - 1, if b < i then b else b - 1;
      if a != i && b != i {
        assert Apart(funcs, a', b');
      } else if a == i {
        assert IsFunc(funcs, s, b') && funcs[b'] in funcs;
      } else {
        assert IsFunc(funcs, s, a') && funcs[a'] in funcs;
      }
    }
  }

  class Cfg {
    var funcs: seq<FuncNode>
    var funcNum: nat

    constructor ()
      ensures funcs == [] && funcNum == 0
    {
      funcs, funcNum := [], 0;
    }

    // cfg_append_func
    method AppendFunc(insn: int, ghost s: seq<int>)
      requires Ordered(funcs, s) && funcNum == |funcs|
      modifies this
      ensures Ordered(funcs, Insert(s, insn)) && funcNum == |funcs|
      ensures forall f | f in funcs :: f in old(funcs) || fresh(f)
    {
      hide Place;
      var i := 0;
      assert |funcs| > 0 ==> IsFunc(funcs, s, 0);
      while i < |funcs| && funcs[i].start < insn
        invariant 0 <= i <= |funcs| && forall j | 0 <= j < i :: s[j] < insn
        invariant i < |funcs| ==> IsFunc(funcs, s, i)
      {
        i := i + 1;
      }
      PlaceIs(s, insn, i);
      if i == |funcs| || funcs[i].start != insn {
        var f := new FuncNode(insn, funcNum);
        FuncAdded(funcs, s, i, f, insn);
        funcs := funcs[..i] + [f] + funcs[i..];
        funcNum := funcNum + 1;
      }
    }

    // cfg_partition_funcs
    method PartitionFuncs(prog: seq<Insn>)
      requires funcs == [] && funcNum == 0
      modifies this
      ensures Ordered(funcs, Starts(prog, |prog|)) && funcNum == |funcs| == |Starts(prog, |prog|)| && fresh(funcs)
      ensures forall k | 0 <= k < |funcs| :: funcs[k].end == FuncEnd(prog, k)
    {
      hide Insert, Ordered;
      NoFuncs();
      InsertFirst(0);
      AppendFunc(0, []);
      var cur := 0;
      while cur < |prog|
        invariant 0 <= cur <= |prog|
        invariant Ordered(funcs, Starts(prog, cur)) && funcNum == |funcs| && forall f | f in funcs :: fresh(f)
      {
        if CallsFunc(prog[cur]) {
          AppendFunc(cur + prog[cur].off + 1, Starts(prog, cur));
        }
        cur := cur + 1;
      }
      assert forall i | 0 <= i < |funcs| :: funcs[i] in funcs;
      OrderedLength(funcs, Starts(prog, |prog|));
      StartsAre(prog, |prog|);
      assert IsStart(prog, |prog|, 0) && 0 in Starts(prog, |prog|);
      SetEnds(|prog|, Starts(prog, |prog|));
    }

    // cfg_build: every function of the program with its finished graph
    method Build(prog: seq<Insn>)
      requires InProgram(prog) && prog != [] && funcs == [] && funcNum == 0
      modifies this
      ensures Ordered(funcs, Starts(prog, |prog|)) && funcNum == |funcs| == |Starts(prog, |prog|)|
      ensures forall k | 0 <= k < |funcs| :: HasGraph(prog, k)
    {
      hide Starts, Ordered, InProgram, FuncEnd;
      PartitionFuncs(prog);
      var i := 0;
      ghost var s := Starts(prog, |prog|);
      while i < |funcs|
        invariant 0 <= i <= |funcs| == |s| && Ordered(funcs, s) && fresh(funcs) && funcNum == |funcs|
        invariant forall k | 0 <= k < |funcs| :: funcs[k].end == FuncEnd(prog, k)
        invariant forall k | 0 <= k < i :: HasGraph(prog, k)
      {
        OthersApart(funcs, s, i);
        FuncRange(prog, i);
        label Before:
        funcs[i].BuildGraph(prog);
        forall k | 0 <= k <= i ensures HasGraph(prog, k) {
          if k < i {
            assert old@Before(HasGraph(prog, k)) && funcs[k] != funcs[i];
          }
        }
        i := i + 1;
      }
    }

    // Function k has its range and its graph.
    ghost predicate HasGraph(prog: seq<Insn>, k: nat)
      requires k < |funcs| == |Starts(prog, |prog|)| && prog != [] && InProgram(prog)
      reads this`funcs, funcs, funcs[k].bbs
    {
      var f := funcs[k];
      f.start == Starts(prog, |prog|)[k] && f.end == FuncEnd(prog, k)
      && 0 <= f.start <= f.end + 1 <= |prog| && f.Built(prog)
    }

    // The ends of all functions.
    method SetEnds(n: nat, ghost s: seq<int>)
      requires funcs != [] && Ordered(funcs, s)
      modifies funcs`end
      ensures forall k | 0 <= k < |funcs| :: k < |s| && funcs[k].end == Last(s, k, n - 1)
    {
      var last := funcs[|funcs| - 1];
      last.end := n - 1;
      var i := 0;
      while i < |funcs| - 1
        invariant 0 <= i <= |funcs| - 1 && last.end == n - 1
        invariant forall k | 0 <= k < i :: funcs[k].end == Last(s, k, n - 1)
      {
        assert IsFunc(funcs, s, i + 1);
        forall k | 0 <= k < |funcs| && k != i ensures funcs[k] != funcs[i] {
          assert Apart(funcs, if k < i then k else i, if k < i then i else k);
        }
        funcs[i].end := funcs[i + 1].start - 1;
        i := i + 1;
      }
    }
  }

  // The range of function k.
  lemma FuncRange(prog: seq<Insn>, k: nat)
    requires InProgram(prog) && prog != [] && k < |Starts(prog, |prog|)|
    ensures var s := Starts(prog, |prog|); 0 <= s[k] <= FuncEnd(prog, k) + 1 <= |prog| && 0 <= FuncEnd(prog, k)
  {
    var s := Starts(prog, |prog|);
    FirstStart(prog);
    StartsAre(prog, |prog|);
    assert s[k] in s;
    if k + 1 < |s| { assert s[k + 1] in s; }
  }

  lemma NoFuncs()
    ensures Ordered([], [])
  {
  }

  lemma OthersApart(funcs: seq<FuncNode>, s: seq<int>, i: nat)
    requires Ordered(funcs, s) && i < |funcs|
    ensures |funcs| == |s| && funcs[i].start == s[i] && forall k | 0 <= k < |funcs| && k != i :: funcs[k] != funcs[i]
  {
    assert IsFunc(funcs, s, i);
    forall k | 0 <= k < |funcs| && k != i ensures funcs[k] != funcs[i] {
      assert Apart(funcs, if k < i then k else i, if k < i then i else k);
    }
  }

  lemma OrderedLength(funcs: seq<FuncNode>, s: seq<int>)
    requires Ordered(funcs, s)
    ensures |funcs| == |s|
  {
  }

  lemma {:induction false} FirstHead(h: seq<int>, p: int, k: nat)
    requires k < |h| && h[k] == p && forall j | 0 <= j < k :: h[j] != p
    ensures FindHead(h, p) == Block(k)
  {
    if k > 0 {
      FirstHead(h[1..], p, k - 1);
    }
  }

  lemma RawLength(bbs: seq<BbNode>, h: seq<int>)
    requires Raw(bbs, h)
    ensures |bbs| == |h|
  {
  }

  lemma NothingRaw()
    ensures Raw([], [])
  {
  }

  lemma InsertFirst(x: int)
    ensures Insert([], x) == [x]
  {
    InsertIs([], x);
    assert |Insert([], x)| == 1;
  }
}
