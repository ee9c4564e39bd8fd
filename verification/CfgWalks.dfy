/** The finished graph: a run through a whole function is a walk from its entry block to its exit block
    over the successor lists of the nodes. */
module CfgWalks {
  import opened CfgSpec
  import opened CfgSteps
  import opened CfgBuild

  // A successor of a is b.
  ghost predicate Leads(a: BbNode, b: BbNode)
    reads a`succs
  {
    exists e | e in a.succs :: e.src == a && e.dst == b
  }

  ghost predicate NodeWalk(ns: seq<BbNode>)
    reads ns`succs
  {
    ns != [] && forall i | 0 <= i < |ns| - 1 :: LeadsOn(ns, i)
  }

  ghost predicate LeadsOn(ns: seq<BbNode>, i: nat)
    requires i + 1 < |ns|
    reads ns`succs
  {
    Leads(ns[i], ns[i + 1])
  }

  // The nodes of blocks.
  function NodesOf(bbs: seq<BbNode>, bs: seq<int>): (ns: seq<BbNode>)
    requires forall i | 0 <= i < |bs| :: 0 <= bs[i] && bs[i] + 1 < |bbs|
    ensures |ns| == |bs| && forall i | 0 <= i < |ns| :: ns[i] == bbs[bs[i] + 1]
  {
    seq(|bs|, i requires 0 <= i < |bs| => bbs[bs[i] + 1])
  }

  lemma EdgeFor(bbs: seq<BbNode>, src: BbNode, arcs: seq<Arc>, arc: Arc)
    requires |bbs| >= 2 && arc in arcs
    ensures Edge(src, NodeAt(bbs, arc.dst), arc.flag) in EdgesAt(bbs, src, arcs)
  {
    var i :| 0 <= i < |arcs| && arcs[i] == arc;
    assert EdgesAt(bbs, src, arcs)[i] == Edge(src, NodeAt(bbs, arc.dst), arc.flag);
  }

  // An edge of the blocks is one of the nodes.
  lemma DrawnLeads(f: FuncNode, prog: seq<Insn>, a: nat, b: nat)
    requires 0 <= f.start <= f.end < |prog| && f.Built(prog)
    requires var h := HeadsOf(prog, f.start, f.end);
      a < |h| && b < |h| && 0 <= Last(h, a, f.end) < |prog| && Drawn(prog, h, f.end, a, b)
    ensures b + 1 < |f.bbs| && Leads(f.bbs[a + 1], f.bbs[b + 1])
  {
    hide Heads, Arcs, f.Ends;
    var h := HeadsOf(prog, f.start, f.end);
    var arcs := Arcs(prog, h, f.end, a);
    var arc :| arc in arcs && arc.dst.Block? && arc.dst.k == b;
    assert f.Wired(prog, h, a);
    EdgeFor(f.bbs, f.bbs[a + 1], arcs, arc);
  }

  // The last block leads to the exit unless it ends in an unconditional jump, and no other block does.
  lemma LeadsOut(f: FuncNode, prog: seq<Insn>, a: nat)
    requires 0 <= f.start <= f.end < |prog| && f.Built(prog)
    requires var h := HeadsOf(prog, f.start, f.end); a < |h| && 0 <= Last(h, a, f.end) < |prog|
    ensures var h := HeadsOf(prog, f.start, f.end);
      |f.bbs| == |h| + 2
      && (Leads(f.bbs[a + 1], f.bbs[|h| + 1]) <==> a == |h| - 1 && !FlowOf(prog[Last(h, a, f.end)]).Goto?)
  {
    hide Heads, Arcs, FlowOf, f.Ends;
    var h := HeadsOf(prog, f.start, f.end);
    var arcs := Arcs(prog, h, f.end, a);
    assert f.Wired(prog, h, a);
    ExitEdge(prog, h, f.end, a);
    var exit := f.bbs[|f.bbs| - 1];
    if arc :| arc in arcs && arc.dst == Exit {
      EdgeFor(f.bbs, f.bbs[a + 1], arcs, arc);
    }
    if Leads(f.bbs[a + 1], exit) {
      var e :| e in f.bbs[a + 1].succs && e.src == f.bbs[a + 1] && e.dst == exit;
      var i :| 0 <= i < |arcs| && f.bbs[a + 1].succs[i] == e;
      ArcEnds(prog, h, f.end, a, i);
      NotExit(f.bbs, arcs[i].dst);
      assert arcs[i] in arcs;
    }
  }

  // An edge leads to a block, to the exit or nowhere.
  lemma ArcEnds(prog: seq<Insn>, h: seq<int>, end: int, a: nat, i: nat)
    requires a < |h| && 0 <= Last(h, a, end) < |prog| && i < |Arcs(prog, h, end, a)|
    ensures var n := Arcs(prog, h, end, a)[i].dst; n == Exit || n == Missing || (n.Block? && n.k < |h|)
  {
  }

  lemma NotExit(bbs: seq<BbNode>, n: Node)
    requires |bbs| >= 2 && Distinct(bbs) && NodeAt(bbs, n) == bbs[|bbs| - 1]
    ensures n == Exit || (n.Block? && n.k == |bbs| - 2) || (n == Entry && |bbs| == 1)
  {
  }

  // From the entry over the blocks to the exit.
  function Through(bbs: seq<BbNode>, bs: seq<int>): seq<BbNode>
    requires |bbs| >= 2 && forall i | 0 <= i < |bs| :: 0 <= bs[i] && bs[i] + 1 < |bbs|
  {
    [bbs[0]] + NodesOf(bbs, bs) + [bbs[|bbs| - 1]]
  }

  lemma LinkLeads(f: FuncNode, prog: seq<Insn>, bs: seq<int>, i: nat)
    requires SelfContained(prog, f.start, f.end) && f.Built(prog) && i + 1 < |bs|
    requires Walk(prog, HeadsOf(prog, f.start, f.end), f.end, bs)
    ensures 0 <= bs[i] && bs[i] + 1 < |f.bbs| && 0 <= bs[i + 1] && bs[i + 1] + 1 < |f.bbs|
    ensures Leads(f.bbs[bs[i] + 1], f.bbs[bs[i + 1] + 1])
  {
    hide Heads, Drawn, f.Wired, f.Ends, FlowOf;
    var h := HeadsOf(prog, f.start, f.end);
    FramedLength(f, h);
    assert Linked(prog, h, f.end, bs, i);
    DrawnLeads(f, prog, bs[i], bs[i + 1]);
  }

  lemma BlocksIn(f: FuncNode, prog: seq<Insn>, bs: seq<int>)
    requires 0 <= f.start <= f.end < |prog| && f.Built(prog) && Walk(prog, HeadsOf(prog, f.start, f.end), f.end, bs)
    ensures |f.bbs| == |HeadsOf(prog, f.start, f.end)| + 2 && bs != []
    ensures forall i | 0 <= i < |bs| :: 0 <= bs[i] && bs[i] + 1 < |f.bbs| - 1
  {
    hide Heads, Drawn, f.Wired, f.Ends;
    FramedLength(f, HeadsOf(prog, f.start, f.end));
  }

  lemma EntryLeads(f: FuncNode, prog: seq<Insn>)
    requires 0 <= f.start <= f.end + 1 <= |prog| && f.Built(prog)
    ensures |f.bbs| >= 3 && Leads(f.bbs[0], f.bbs[1])
  {
    hide Heads, f.Wired;
    var e := Edge(f.bbs[0], f.bbs[1], Fallthrough);
    assert e in f.bbs[0].succs;
  }

  lemma WalkThrough(f: FuncNode, prog: seq<Insn>, bs: seq<int>)
    requires SelfContained(prog, f.start, f.end) && f.Built(prog) && !FlowOf(prog[f.end]).Goto?
    requires var h := HeadsOf(prog, f.start, f.end); Walk(prog, h, f.end, bs) && bs[0] == 0 && bs[|bs| - 1] == |h| - 1
    ensures |f.bbs| >= 2 && (forall i | 0 <= i < |bs| :: 0 <= bs[i] && bs[i] + 1 < |f.bbs|)
    ensures NodeWalk(Through(f.bbs, bs))
  {
    hide HeadsOf, FlowOf, SelfContained, Walk, Leads, f.Built;
    InFunction(prog, f.start, f.end);
    BlocksIn(f, prog, bs);
    EntryLeads(f, prog);
    LeadsOut(f, prog, |HeadsOf(prog, f.start, f.end)| - 1);
    var ns := Through(f.bbs, bs);
    forall i | 0 <= i < |ns| - 1 ensures LeadsOn(ns, i) {
      if 0 < i < |ns| - 2 {
        LinkLeads(f, prog, bs, i - 1);
      }
    }
  }

  // In the finished graph, a run of a function from its first instruction to its last, which ends it,
  // is a walk from the entry block over the blocks of its trace to the exit block.
  lemma RunsThrough(f: FuncNode, prog: seq<Insn>, p: seq<int>)
    requires SelfContained(prog, f.start, f.end) && JasFit(prog, f.start, f.end) && f.Built(prog)
    requires Run(prog, f.start, f.end, p) && p[0] == f.start && p[|p| - 1] == f.end && FlowOf(prog[f.end]).ExitFlow?
    ensures var bs := Trace(HeadsOf(prog, f.start, f.end), f.end, p);
      |f.bbs| >= 2 && (forall i | 0 <= i < |bs| :: 0 <= bs[i] && bs[i] + 1 < |f.bbs|) && NodeWalk(Through(f.bbs, bs))
  {
    hide HeadsOf, FlowOf, JasFit, Trace, Walk, f.Built, NodeWalk, PartOf;
    RunsAreWalks(prog, f.start, f.end, p);
    FirstBlock(prog, f.start, f.end);
    var bs := Trace(HeadsOf(prog, f.start, f.end), f.end, p);
    WalkFacts(prog, HeadsOf(prog, f.start, f.end), f.end, bs);
    WalkThrough(f, prog, bs);
  }

  lemma FramedLength(f: FuncNode, h: seq<int>)
    requires f.Framed(h)
    ensures |f.bbs| == |h| + 2
  {
  }

  lemma FirstBlock(prog: seq<Insn>, start: int, end: int)
    requires SelfContained(prog, start, end)
    ensures var h := HeadsOf(prog, start, end); PartOf(h, start) == 0 && PartOf(h, end) == |h| - 1
  {
    hide Heads, PartOf;
    var h := HeadsOf(prog, start, end);
    HeadsInside(prog, start, end);
    HeadBlock(prog, start, end, 0);
    PartsCover(h, end, end);
    assert h[|h| - 1] in h;
    assert h[|h| - 1] <= end <= Last(h, |h| - 1, end);
  }
}
