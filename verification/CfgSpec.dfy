/** Functions and basic blocks of an instruction array, as plain sequences of positions.  A pointer to
    an instruction is its index, which may lie outside the array. */
module CfgSpec {
  type u8 = x: int | 0 <= x < 0x100

  datatype Insn = Insn(code: u8, src: int, off: int, imm: int)

  const BPF_JMP: int := 0x05
  const BPF_JMP32: int := 0x06
  const BPF_JA: int := 0x00
  const BPF_CALL: int := 0x80
  const BPF_EXIT: int := 0x90
  const BPF_PSEUDO_CALL: int := 1

  function Class(x: Insn): int { x.code % 8 }

  function Op(x: Insn): int { x.code - x.code % 16 }

  predicate IsJmp(x: Insn) {
    Class(x) == BPF_JMP || Class(x) == BPF_JMP32
  }

  // A jump that names a destination.
  predicate Leaps(x: Insn) {
    IsJmp(x) && Op(x) != BPF_EXIT && Op(x) != BPF_CALL
  }

  predicate Branches(x: Insn) {
    Leaps(x) && Op(x) != BPF_JA
  }

  predicate CallsFunc(x: Insn) {
    x.code == BPF_JMP + BPF_CALL && x.src == BPF_PSEUDO_CALL
  }

  function Dest(prog: seq<Insn>, i: int): int
    requires 0 <= i < |prog|
  {
    i + prog[i].off + 1
  }

  // --- sorted insertion

  predicate Sorted(keys: seq<int>) {
    forall i, j | 0 <= i < j < |keys| :: keys[i] < keys[j]
  }

  // The position of the first key not below x.
  function Place(keys: seq<int>, x: int): (i: nat)
    ensures i <= |keys|
    ensures forall k | 0 <= k < i :: keys[k] < x
    ensures i < |keys| ==> keys[i] >= x
  {
    if keys == [] || keys[0] >= x then 0 else 1 + Place(keys[1..], x)
  }

  // x joins the keys unless it is there already.
  function Insert(keys: seq<int>, x: int): seq<int> {
    var i := Place(keys, x);
    if i < |keys| && keys[i] == x then keys else keys[..i] + [x] + keys[i..]
  }

  lemma PlaceIs(keys: seq<int>, key: int, i: nat)
    requires i <= |keys| && (forall j | 0 <= j < i :: keys[j] < key) && (i < |keys| ==> keys[i] >= key)
    ensures Place(keys, key) == i
  {
  }

  lemma InsertIs(keys: seq<int>, x: int)
    requires Sorted(keys)
    ensures Sorted(Insert(keys, x))
    ensures forall y :: y in Insert(keys, x) <==> y in keys || y == x
  {
    var i := Place(keys, x);
    assert keys == keys[..i] + keys[i..];
    forall y ensures y in Insert(keys, x) <==> y in keys || y == x {
      assert y in keys <==> y in keys[..i] || y in keys[i..];
    }
  }

  // --- functions

  // Where functions start, as far as the first n instructions tell.
  function Starts(prog: seq<Insn>, n: nat): seq<int>
    requires n <= |prog|
  {
    if n == 0 then [0] else
    var s := Starts(prog, n - 1);
    if CallsFunc(prog[n - 1]) then Insert(s, Dest(prog, n - 1)) else s
  }

  predicate IsStart(prog: seq<Insn>, n: nat, y: int)
    requires n <= |prog|
  {
    y == 0 || exists i | 0 <= i < n :: CallsFunc(prog[i]) && y == Dest(prog, i)
  }

  // Function starts are exactly the start of the program and the targets of calls, in order.
  lemma {:induction false} StartsAre(prog: seq<Insn>, n: nat)
    requires n <= |prog|
    ensures Sorted(Starts(prog, n))
    ensures forall y :: y in Starts(prog, n) <==> IsStart(prog, n, y)
  {
    if n > 0 {
      StartsAre(prog, n - 1);
      if CallsFunc(prog[n - 1]) {
        InsertIs(Starts(prog, n - 1), Dest(prog, n - 1));
      }
      forall y ensures y in Starts(prog, n) <==> IsStart(prog, n, y) {
        if y in Starts(prog, n - 1) { assert IsStart(prog, n - 1, y); }
        if IsStart(prog, n - 1, y) { assert y in Starts(prog, n - 1); }
      }
    }
  }

  // Part k of a range that ends at end and is cut at the given positions.
  function Last(cuts: seq<int>, k: nat, end: int): int
    requires k < |cuts|
  {
    if k + 1 < |cuts| then cuts[k + 1] - 1 else end
  }

  // The part that position p belongs to.
  function PartOf(cuts: seq<int>, p: int): int {
    Place(cuts, p + 1) - 1
  }

  // The parts cover the range completely and do not overlap.
  lemma PartsCover(cuts: seq<int>, end: int, p: int)
    requires Sorted(cuts) && cuts != [] && cuts[0] <= p <= end
    ensures 0 <= PartOf(cuts, p) < |cuts|
    ensures forall k | 0 <= k < |cuts| :: cuts[k] <= p <= Last(cuts, k, end) <==> k == PartOf(cuts, p)
  {
    var a := PartOf(cuts, p);
    assert cuts[a] <= p;
    forall k | 0 <= k < |cuts| ensures cuts[k] <= p <= Last(cuts, k, end) <==> k == a {
      if k < a {
        assert k + 1 == a || cuts[k + 1] < cuts[a];
      } else if k > a {
        assert a + 1 == k || cuts[a + 1] < cuts[k];
      }
    }
  }

  // What the caller promises: calls and jumps stay in the program, up to its very end.
  predicate InProgram(prog: seq<Insn>) {
    forall i | 0 <= i < |prog| && (Leaps(prog[i]) || CallsFunc(prog[i])) :: 0 <= Dest(prog, i) <= |prog|
  }

  function FuncEnd(prog: seq<Insn>, k: nat): int
    requires k < |Starts(prog, |prog|)|
  {
    Last(Starts(prog, |prog|), k, |prog| - 1)
  }

  // Every instruction belongs to exactly one function.
  lemma FunctionsCover(prog: seq<Insn>, p: int)
    requires InProgram(prog) && 0 <= p < |prog|
    ensures var s := Starts(prog, |prog|);
      0 <= PartOf(s, p) < |s| && forall k | 0 <= k < |s| :: s[k] <= p <= FuncEnd(prog, k) <==> k == PartOf(s, p)
  {
    FirstStart(prog);
    StartsAre(prog, |prog|);
    PartsCover(Starts(prog, |prog|), |prog| - 1, p);
  }

  lemma FirstStart(prog: seq<Insn>)
    requires InProgram(prog)
    ensures var s := Starts(prog, |prog|); s != [] && s[0] == 0 && forall y | y in s :: 0 <= y <= |prog|
  {
    var s := Starts(prog, |prog|);
    StartsAre(prog, |prog|);
    assert IsStart(prog, |prog|, 0);
    assert 0 in s;
    forall y | y in s ensures 0 <= y <= |prog| {
      assert IsStart(prog, |prog|, y);
    }
    assert s[0] in s;
  }

  // --- basic blocks of the function that starts at start

  // Block heads, as far as the instructions before i tell.
  function Heads(prog: seq<Insn>, start: int, i: int): seq<int>
    requires 0 <= start && i <= |prog|
    decreases i - start
  {
    if i <= start then [start] else
    var h := Heads(prog, start, i - 1);
    var x := prog[i - 1];
    if !Leaps(x) then h else
    var h1 := Insert(h, Dest(prog, i - 1));
    if Branches(x) then Insert(h1, i) else h1
  }

  // Some instruction of start..i jumps to y, or branches just before it.
  predicate IsTarget(prog: seq<Insn>, start: int, i: int, y: int)
    requires 0 <= start && i <= |prog|
  {
    exists k | start <= k < i :: (Leaps(prog[k]) && y == Dest(prog, k)) || (Branches(prog[k]) && y == k + 1)
  }

  // Block heads are exactly the function start and the targets, in order.
  lemma {:induction false} HeadsAre(prog: seq<Insn>, start: int, i: int)
    requires 0 <= start && i <= |prog|
    ensures var h := Heads(prog, start, i);
      h != [] && Sorted(h) && forall y :: y in h <==> y == start || IsTarget(prog, start, i, y)
    decreases i - start
  {
    if i > start {
      HeadsAre(prog, start, i - 1);
      var h, x := Heads(prog, start, i - 1), prog[i - 1];
      if Leaps(x) {
        InsertIs(h, Dest(prog, i - 1));
        InsertIs(Insert(h, Dest(prog, i - 1)), i);
      }
      forall y ensures y in Heads(prog, start, i) <==> y == start || IsTarget(prog, start, i, y) {
        assert y in h <==> y == start || IsTarget(prog, start, i - 1, y);
        TargetSnoc(prog, start, i, y);
      }
    }
  }

  lemma TargetSnoc(prog: seq<Insn>, start: int, i: int, y: int)
    requires 0 <= start < i <= |prog|
    ensures IsTarget(prog, start, i, y) <==>
      IsTarget(prog, start, i - 1, y) || (Leaps(prog[i - 1]) && y == Dest(prog, i - 1)) || (Branches(prog[i - 1]) && y == i)
  {
    var k := i - 1;
    assert (Leaps(prog[k]) && y == Dest(prog, k)) || (Branches(prog[k]) && y == k + 1) ==> IsTarget(prog, start, i, y);
  }

  // --- edges

  datatype Node = Entry | Block(k: nat) | Exit | Missing

  datatype Flag = Fallthrough | Jump

  datatype Arc = Arc(dst: Node, flag: Flag)

  function NextNode(heads: seq<int>, k: nat): Node {
    if k + 1 < |heads| then Block(k + 1) else Exit
  }

  // The first block with the given head.
  function FindHead(heads: seq<int>, p: int): (n: Node)
    ensures if p in heads then n.Block? && n.k < |heads| && heads[n.k] == p else n == Missing
  {
    if heads == [] then Missing
    else if heads[0] == p then Block(0)
    else
      var n := FindHead(heads[1..], p);
      if n.Block? then Block(n.k + 1) else Missing
  }

  // The edges drawn from block k, in the order they are added.
  function Arcs(prog: seq<Insn>, heads: seq<int>, end: int, k: nat): seq<Arc>
    requires k < |heads| && 0 <= Last(heads, k, end) < |prog|
  {
    var i := Last(heads, k, end);
    var x := prog[i];
    if !IsJmp(x) || Op(x) == BPF_EXIT then [Arc(NextNode(heads, k), Fallthrough)]
    else if Op(x) == BPF_JA then [Arc(FindHead(heads, Dest(prog, i)), Jump)]
    else [Arc(NextNode(heads, k), Fallthrough), Arc(FindHead(heads, Dest(prog, i)), Jump)]
  }

  // As long as jumps stay in the program, every block of a nonempty program ends inside it.
  lemma TailsInside(prog: seq<Insn>, start: int, end: int)
    requires InProgram(prog) && 0 <= start <= end + 1 <= |prog| && prog != [] && 0 <= end
    ensures var h := Heads(prog, start, end + 1);
      forall k | 0 <= k < |h| :: 0 <= h[k] && 0 <= Last(h, k, end) < |prog|
  {
    var h := Heads(prog, start, end + 1);
    HeadsAre(prog, start, end + 1);
    forall k | 0 <= k < |h| ensures 0 <= h[k] <= |prog| {
      assert h[k] in h;
      assert h[k] == start || IsTarget(prog, start, end + 1, h[k]);
    }
  }
}
