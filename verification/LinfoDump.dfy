/** The instruction loop of the xlated dumper: second slots are skipped, and function and line records
    are printed before the instructions they belong to. */
module LinfoDump {
  import opened LinfoIndex

  // BPF_LD | BPF_IMM | BPF_DW
  const LD_IMM64: nat := 0x18

  // Func(k): function record k is taken; its signature is printed unless it is empty.
  datatype Event = Func(k: nat) | Line(k: nat) | Insn(i: nat)

  // The offsets of the function records, in memory from the first record on: the loop is not told how
  // many there are.  Without BTF or function records it looks at none.
  type Records = Option<nat -> nat>

  // Slot i holds the first half of a 64-bit load, or another instruction.
  predicate Visited(codes: seq<nat>, i: nat)
    requires i < |codes|
  {
    i == 0 || !(Visited(codes, i - 1) && codes[i - 1] == LD_IMM64)
  }

  predicate TakesFunc(funcs: Records, taken: nat, i: nat) {
    funcs.Some? && funcs.value(taken) == i
  }

  // What has been printed, and how many line and function records have been taken.
  datatype Output = Output(events: seq<Event>, skip: nat, taken: nat)

  function WithFunc(funcs: Records, d: Output, i: nat): Output {
    if TakesFunc(funcs, d.taken, i) then Output(d.events + [Func(d.taken)], d.skip, d.taken + 1) else d
  }

  function WithLine(offs: seq<nat>, d: Output, i: nat): Output {
    match Before(offs, d.skip, |offs|, i)
    case Some(k) => Output(d.events + [Line(k), Insn(i)], d.skip + 1, d.taken)
    case None => Output(d.events + [Insn(i)], d.skip, d.taken)
  }

  // The first n slots.
  function Dump(codes: seq<nat>, offs: seq<nat>, funcs: Records, n: nat): Output
    requires n <= |codes|
  {
    if n == 0 then Output([], 0, 0)
    else if !Visited(codes, n - 1) then Dump(codes, offs, funcs, n - 1)
    else WithLine(offs, WithFunc(funcs, Dump(codes, offs, funcs, n - 1), n - 1), n - 1)
  }

  // dump_xlated_plain, as far as slots and records go
  method DumpPlain(codes: seq<nat>, linfo: ProgLinfo, funcs: Records) returns (es: seq<Event>)
    requires linfo.Valid()
    ensures es == Dump(codes, linfo.offs, funcs, |codes|).events
  {
    hide Before;
    es := [];
    var skip, taken, double := 0, 0, false;
    for i := 0 to |codes|
      invariant Dump(codes, linfo.offs, funcs, i) == Output(es, skip, taken)
      invariant i > 0 ==> double == (Visited(codes, i - 1) && codes[i - 1] == LD_IMM64)
      invariant i == 0 ==> !double
    {
      if double {
        double := false;
      } else {
        if funcs.Some? {
          if funcs.value(taken) == i {
            es := es + [Func(taken)];
            taken := taken + 1;
          }
        }
        var r := linfo.FindInsn(i, skip);
        ghost var before := es;
        if r.Some? {
          es := es + [Line(r.value)];
          skip := skip + 1;
        }
        double := codes[i] == LD_IMM64;
        es := es + [Insn(i)];
        assert r.Some? ==> es == before + [Line(r.value), Insn(i)];
      }
    }
  }

  predicate Rising(offs: seq<nat>) {
    forall i, j | 0 <= i < j < |offs| :: offs[i] < offs[j]
  }

  // No record belongs to the second slot of a 64-bit load or lies outside the program.
  predicate OnInstructions(codes: seq<nat>, offs: seq<nat>) {
    forall k | 0 <= k < |offs| :: offs[k] < |codes| && Visited(codes, offs[k])
  }

  // Record k is printed immediately before the instruction at its offset.
  predicate PrintedAt(es: seq<Event>, offs: seq<nat>, k: nat, j: nat)
    requires k < |offs|
  {
    j + 1 < |es| && es[j] == Line(k) && es[j + 1] == Insn(offs[k])
  }

  ghost predicate Printed(es: seq<Event>, offs: seq<nat>, k: nat)
    requires k < |offs|
  {
    exists j: nat :: PrintedAt(es, offs, k, j)
  }

  // The numbers of the printed records, in order.
  function Lines(es: seq<Event>): seq<nat> {
    if es == [] then [] else Lines(es[..|es| - 1]) + (if es[|es| - 1].Line? then [es[|es| - 1].k] else [])
  }

  function Upto(n: nat): (s: seq<nat>)
    ensures |s| == n && forall k | 0 <= k < n :: s[k] == k
  {
    if n == 0 then [] else Upto(n - 1) + [n - 1]
  }

  // After n slots exactly the records below n have been printed, each before its instruction.
  ghost predicate PrintedBelow(offs: seq<nat>, d: Output, n: nat) {
    d.skip <= |offs| && (forall k | 0 <= k < |offs| :: k < d.skip <==> offs[k] < n)
    && Lines(d.events) == Upto(d.skip) && forall k | 0 <= k < d.skip :: Printed(d.events, offs, k)
  }

  lemma {:induction false} DumpSoFar(codes: seq<nat>, offs: seq<nat>, funcs: Records, n: nat)
    requires n <= |codes| && Rising(offs) && OnInstructions(codes, offs)
    ensures PrintedBelow(offs, Dump(codes, offs, funcs, n), n)
  {
    hide PrintedBelow, WithFunc, WithLine;
    if n == 0 {
      NothingPrinted(offs);
    } else {
      DumpSoFar(codes, offs, funcs, n - 1);
      var d := Dump(codes, offs, funcs, n - 1);
      if Visited(codes, n - 1) {
        FuncAdded(offs, funcs, d, n - 1);
        SlotPrinted(offs, WithFunc(funcs, d, n - 1), n - 1);
      } else {
        NoneAt(offs, d, n - 1);
      }
    }
  }

  lemma NothingPrinted(offs: seq<nat>)
    ensures PrintedBelow(offs, Output([], 0, 0), 0)
  {
  }

  lemma NoneAt(offs: seq<nat>, d: Output, i: nat)
    requires PrintedBelow(offs, d, i) && forall k | 0 <= k < |offs| :: offs[k] != i
    ensures PrintedBelow(offs, d, i + 1)
  {
  }

  lemma SlotPrinted(offs: seq<nat>, d: Output, i: nat)
    requires PrintedBelow(offs, d, i) && Rising(offs)
    ensures PrintedBelow(offs, WithLine(offs, d, i), i + 1)
  {
    hide Printed, Lines, Upto;
    BeforeIsNext(offs, d.skip, i);
    if d.skip < |offs| && offs[d.skip] == i {
      LineAdded(d.events, offs, d.skip, i);
    } else {
      InsnAdded(d.events, offs, d.skip, i);
    }
  }

  lemma FuncAdded(offs: seq<nat>, funcs: Records, d: Output, i: nat)
    requires PrintedBelow(offs, d, i)
    ensures PrintedBelow(offs, WithFunc(funcs, d, i), i)
  {
    hide Lines;
    LinesSnoc(d.events, Func(d.taken));
    forall k | 0 <= k < d.skip ensures Printed(d.events + [Func(d.taken)], offs, k) {
      PrintedStays(d.events, [Func(d.taken)], offs, k);
    }
  }

  lemma InsnAdded(es: seq<Event>, offs: seq<nat>, skip: nat, i: nat)
    requires skip <= |offs| && Lines(es) == Upto(skip) && forall k | 0 <= k < skip :: Printed(es, offs, k)
    ensures var es2 := es + [Insn(i)]; Lines(es2) == Upto(skip) && forall k | 0 <= k < skip :: Printed(es2, offs, k)
  {
    hide Lines;
    LinesSnoc(es, Insn(i));
    forall k | 0 <= k < skip ensures Printed(es + [Insn(i)], offs, k) {
      PrintedStays(es, [Insn(i)], offs, k);
    }
  }

  lemma LineAdded(es: seq<Event>, offs: seq<nat>, skip: nat, i: nat)
    requires skip < |offs| && offs[skip] == i && Lines(es) == Upto(skip) && forall k | 0 <= k < skip :: Printed(es, offs, k)
    ensures var es2 := es + [Line(skip), Insn(i)];
      Lines(es2) == Upto(skip + 1) && forall k | 0 <= k < skip + 1 :: Printed(es2, offs, k)
  {
    hide Lines;
    var es2 := es + [Line(skip), Insn(i)];
    LinesSnoc(es, Line(skip));
    LinesSnoc(es + [Line(skip)], Insn(i));
    assert es2 == es + [Line(skip)] + [Insn(i)];
    assert PrintedAt(es2, offs, skip, |es|);
    forall k | 0 <= k < skip ensures Printed(es2, offs, k) {
      PrintedStays(es, [Line(skip), Insn(i)], offs, k);
    }
  }

  lemma PrintedStays(es: seq<Event>, more: seq<Event>, offs: seq<nat>, k: nat)
    requires k < |offs| && Printed(es, offs, k)
    ensures Printed(es + more, offs, k)
  {
    var j: nat :| PrintedAt(es, offs, k, j);
    assert PrintedAt(es + more, offs, k, j);
  }

  lemma LinesSnoc(es: seq<Event>, e: Event)
    ensures Lines(es + [e]) == Lines(es) + (if e.Line? then [e.k] else [])
  {
    assert (es + [e])[..|es|] == es;
  }

  // With the records below i taken, the search finds the one at i, if there is one.
  lemma BeforeIsNext(offs: seq<nat>, skip: nat, i: nat)
    requires Rising(offs) && skip <= |offs| && forall k | 0 <= k < |offs| :: k < skip <==> offs[k] < i
    ensures Before(offs, skip, |offs|, i) == if skip < |offs| && offs[skip] == i then Some(skip) else None
  {
    if skip < |offs| && offs[skip] == i {
      assert skip + 1 < |offs| ==> offs[skip + 1] > i;
      assert FirstAbove(offs, skip, |offs|, i) == FirstAbove(offs, skip + 1, |offs|, i) == skip + 1;
    }
  }

  lemma {:induction false} InsnVisited(codes: seq<nat>, offs: seq<nat>, funcs: Records, n: nat, i: nat)
    requires n <= |codes| && Insn(i) in Dump(codes, offs, funcs, n).events
    ensures i < n && Visited(codes, i)
  {
    if n > 0 {
      var es := Dump(codes, offs, funcs, n - 1).events;
      if Insn(i) in es {
        InsnVisited(codes, offs, funcs, n - 1, i);
      }
    }
  }

  // With strictly increasing offsets, every record is printed exactly once, in order, immediately
  // before the instruction at its offset, if and only if none belongs to a second slot or lies
  // outside the program.
  lemma EachLineOnce(codes: seq<nat>, offs: seq<nat>, funcs: Records)
    requires Rising(offs)
    ensures var es := Dump(codes, offs, funcs, |codes|).events;
      (Lines(es) == Upto(|offs|) && forall k | 0 <= k < |offs| :: Printed(es, offs, k))
      <==> OnInstructions(codes, offs)
  {
    hide Lines, Upto, Dump;
    var es := Dump(codes, offs, funcs, |codes|).events;
    if OnInstructions(codes, offs) {
      DumpSoFar(codes, offs, funcs, |codes|);
      assert offs != [] ==> offs[|offs| - 1] < |codes|;
    }
    if forall k | 0 <= k < |offs| :: Printed(es, offs, k) {
      forall k | 0 <= k < |offs| ensures offs[k] < |codes| && Visited(codes, offs[k]) {
        assert Printed(es, offs, k);
        var j: nat :| PrintedAt(es, offs, k, j);
        assert es[j + 1] in es;
        InsnVisited(codes, offs, funcs, |codes|, offs[k]);
      }
    }
  }
  // --- instructions

  // The printed instructions, in order.
  function Insns(es: seq<Event>): seq<nat> {
    if es == [] then [] else Insns(es[..|es| - 1]) + (if es[|es| - 1].Insn? then [es[|es| - 1].i] else [])
  }

  lemma InsnsSnoc(es: seq<Event>, e: Event)
    ensures Insns(es + [e]) == Insns(es) + (if e.Insn? then [e.i] else [])
  {
    assert (es + [e])[..|es|] == es;
  }

  lemma SlotInsn(offs: seq<nat>, funcs: Records, d: Output, i: nat)
    ensures Insns(WithLine(offs, WithFunc(funcs, d, i), i).events) == Insns(d.events) + [i]
  {
    hide Insns, Before;
    InsnsSnoc(d.events, Func(d.taken));
    var d1 := WithFunc(funcs, d, i);
    assert Insns(d1.events) == Insns(d.events);
    var r := Before(offs, d1.skip, |offs|, i);
    if r.Some? {
      InsnsSnoc(d1.events, Line(r.value));
      InsnsSnoc(d1.events + [Line(r.value)], Insn(i));
      assert d1.events + [Line(r.value), Insn(i)] == d1.events + [Line(r.value)] + [Insn(i)];
    } else {
      InsnsSnoc(d1.events, Insn(i));
    }
  }

  // Slots below n, each once and in order, exactly the visited ones.
  ghost predicate VisitedBelow(codes: seq<nat>, ns: seq<nat>, n: nat)
    requires n <= |codes|
  {
    (forall i, j | 0 <= i < j < |ns| :: ns[i] < ns[j]) && (forall i: nat :: i in ns <==> i < n && Visited(codes, i))
  }

  lemma NextVisited(codes: seq<nat>, ns: seq<nat>, n: nat)
    requires n < |codes| && VisitedBelow(codes, ns, n) && Visited(codes, n)
    ensures VisitedBelow(codes, ns + [n], n + 1)
  {
    forall i | 0 <= i < |ns| ensures ns[i] < n {
      assert ns[i] in ns;
    }
  }

  lemma NotVisited(codes: seq<nat>, ns: seq<nat>, n: nat)
    requires n < |codes| && VisitedBelow(codes, ns, n) && !Visited(codes, n)
    ensures VisitedBelow(codes, ns, n + 1)
  {
  }

  lemma {:induction false} InsnsSoFar(codes: seq<nat>, offs: seq<nat>, funcs: Records, n: nat)
    requires n <= |codes|
    ensures VisitedBelow(codes, Insns(Dump(codes, offs, funcs, n).events), n)
  {
    hide VisitedBelow, WithLine, WithFunc, Insns;
    if n == 0 {
      NoneVisited(codes);
    } else {
      InsnsSoFar(codes, offs, funcs, n - 1);
      var d := Dump(codes, offs, funcs, n - 1);
      if Visited(codes, n - 1) {
        SlotInsn(offs, funcs, d, n - 1);
        NextVisited(codes, Insns(d.events), n - 1);
      } else {
        NotVisited(codes, Insns(d.events), n - 1);
      }
    }
  }

  lemma NoneVisited(codes: seq<nat>)
    ensures VisitedBelow(codes, Insns([]), 0)
  {
  }

  // Whatever the records are, the dump prints every instruction once and in order, and no second slot
  // of a 64-bit load.
  lemma EachInsnOnce(codes: seq<nat>, offs: seq<nat>, funcs: Records)
    ensures VisitedBelow(codes, Insns(Dump(codes, offs, funcs, |codes|).events), |codes|)
  {
    InsnsSoFar(codes, offs, funcs, |codes|);
  }

  // A slot is skipped exactly if an odd number of 64-bit load codes stand right before it.
  function LoadsBefore(codes: seq<nat>, i: nat): nat
    requires i <= |codes|
  {
    if i == 0 || codes[i - 1] != 0x18 then 0 else 1 + LoadsBefore(codes, i - 1)
  }

  lemma {:induction false} SkippedIsOdd(codes: seq<nat>, i: nat)
    requires i < |codes|
    ensures Visited(codes, i) <==> LoadsBefore(codes, i) % 2 == 0
  {
    if i > 0 {
      SkippedIsOdd(codes, i - 1);
    }
  }

  // --- function records

  // Function record k is taken immediately before its instruction and the line that belongs to it.
  ghost predicate FuncAt(es: seq<Event>, off: nat -> nat, k: nat, j: nat) {
    j + 1 < |es| && es[j] == Func(k)
    && (es[j + 1] == Insn(off(k)) || (es[j + 1].Line? && j + 2 < |es| && es[j + 2] == Insn(off(k))))
  }

  // The numbers of the function records taken, in order.
  function Funcs(es: seq<Event>): seq<nat> {
    if es == [] then [] else Funcs(es[..|es| - 1]) + (if es[|es| - 1].Func? then [es[|es| - 1].k] else [])
  }

  lemma FuncsSnoc(es: seq<Event>, e: Event)
    ensures Funcs(es + [e]) == Funcs(es) + (if e.Func? then [e.k] else [])
  {
    assert (es + [e])[..|es|] == es;
  }

  // Records 0 to k lie on instructions among the first n slots, in strictly increasing order.
  ghost predicate InOrder(codes: seq<nat>, off: nat -> nat, k: nat, n: nat)
    requires n <= |codes|
  {
    forall m: nat | m <= k :: off(m) < n && Visited(codes, off(m)) && (m > 0 ==> off(m - 1) < off(m))
  }

  // After n slots exactly the records in order have been taken, each before its instruction.
  ghost predicate TakenBelow(codes: seq<nat>, off: nat -> nat, d: Output, n: nat)
    requires n <= |codes|
  {
    Funcs(d.events) == Upto(d.taken) && (forall k: nat :: k < d.taken <==> InOrder(codes, off, k, n))
    && forall k: nat | k < d.taken :: FuncBefore(d.events, off, k)
  }

  ghost predicate FuncBefore(es: seq<Event>, off: nat -> nat, k: nat) {
    exists j: nat :: FuncAt(es, off, k, j)
  }

  lemma {:induction false} FuncsSoFar(codes: seq<nat>, offs: seq<nat>, funcs: Records, n: nat)
    requires n <= |codes| && funcs.Some?
    ensures TakenBelow(codes, funcs.value, Dump(codes, offs, funcs, n), n)
  {
    hide WithFunc, WithLine, InOrder, Funcs, Upto, FuncBefore;
    if n == 0 {
      NoFuncs(codes, funcs.value);
    } else {
      FuncsSoFar(codes, offs, funcs, n - 1);
      if Visited(codes, n - 1) {
        SlotTaken(codes, offs, funcs, Dump(codes, offs, funcs, n - 1), n);
      } else {
        SecondSlot(codes, funcs.value, n);
      }
    }
  }

  // A slot takes the next function record or none, and keeps what was printed.
  lemma SlotTaken(codes: seq<nat>, offs: seq<nat>, funcs: Records, d: Output, n: nat)
    requires 0 < n <= |codes| && Visited(codes, n - 1) && funcs.Some? && TakenBelow(codes, funcs.value, d, n - 1)
    ensures TakenBelow(codes, funcs.value, WithLine(offs, WithFunc(funcs, d, n - 1), n - 1), n)
  {
    hide InOrder, Funcs, Upto, Before, FuncBefore;
    var off, d1 := funcs.value, WithFunc(funcs, d, n - 1);
    var d2 := WithLine(offs, d1, n - 1);
    InOrderNext(codes, off, d.taken, n - 1, n);
    FuncsSnoc(d.events, Func(d.taken));
    UptoNext(d.taken);
    LineLater(offs, d1, n - 1);
    forall k: nat | k < d1.taken ensures FuncBefore(d2.events, off, k) {
      if k == d.taken {
        FuncThen(offs, funcs, d, n - 1);
      } else {
        FuncStays(d.events, d2.events, off, k);
      }
    }
  }

  // The rest of a slot takes no function record.
  lemma LineLater(offs: seq<nat>, d: Output, i: nat)
    ensures var d2 := WithLine(offs, d, i); d2.taken == d.taken && Funcs(d2.events) == Funcs(d.events) && d.events <= d2.events
  {
    hide Funcs, Before;
    var r := Before(offs, d.skip, |offs|, i);
    if r.Some? {
      FuncsSnoc(d.events, Line(r.value));
      FuncsSnoc(d.events + [Line(r.value)], Insn(i));
      assert d.events + [Line(r.value), Insn(i)] == d.events + [Line(r.value)] + [Insn(i)];
    } else {
      FuncsSnoc(d.events, Insn(i));
    }
  }

  lemma FuncThen(offs: seq<nat>, funcs: Records, d: Output, i: nat)
    requires TakesFunc(funcs, d.taken, i)
    ensures FuncBefore(WithLine(offs, WithFunc(funcs, d, i), i).events, funcs.value, d.taken)
  {
    hide Before;
    assert FuncAt(WithLine(offs, WithFunc(funcs, d, i), i).events, funcs.value, d.taken, |d.events|);
  }

  lemma NoFuncs(codes: seq<nat>, off: nat -> nat)
    ensures TakenBelow(codes, off, Output([], 0, 0), 0)
  {
    forall k: nat ensures !InOrder(codes, off, k, 0) {
      assert !(off(k) < 0);
    }
  }

  lemma UptoNext(n: nat)
    ensures Upto(n + 1) == Upto(n) + [n]
  {
  }

  lemma FuncStays(es: seq<Event>, es2: seq<Event>, off: nat -> nat, k: nat)
    requires FuncBefore(es, off, k) && es <= es2
    ensures FuncBefore(es2, off, k)
  {
    var j: nat :| FuncAt(es, off, k, j);
    assert FuncAt(es2, off, k, j);
  }

  // No record lies on a second slot.
  lemma SecondSlot(codes: seq<nat>, off: nat -> nat, n: nat)
    requires 0 < n <= |codes| && !Visited(codes, n - 1)
    ensures forall k: nat :: InOrder(codes, off, k, n) <==> InOrder(codes, off, k, n - 1)
  {
  }

  // With taken records in order below slot i, that slot can only bring the next one.
  lemma InOrderNext(codes: seq<nat>, off: nat -> nat, taken: nat, i: nat, n: nat)
    requires i + 1 == n <= |codes| && Visited(codes, i)
    requires forall k: nat :: k < taken <==> InOrder(codes, off, k, i)
    ensures var taken2 := if off(taken) == i then taken + 1 else taken;
      forall k: nat :: k < taken2 <==> InOrder(codes, off, k, n)
  {
    var taken2 := if off(taken) == i then taken + 1 else taken;
    forall k: nat ensures k < taken2 <==> InOrder(codes, off, k, n) {
      assert taken > 0 ==> InOrder(codes, off, taken - 1, i);
      assert !InOrder(codes, off, taken, i);
      if k > taken {
        OrderStops(codes, off, taken, n);
      }
    }
  }

  // Behind a record that is not in order below n - 1 there is none in order below n.
  lemma OrderStops(codes: seq<nat>, off: nat -> nat, m: nat, n: nat)
    requires 0 < n <= |codes| && !InOrder(codes, off, m, n - 1) && (m > 0 ==> InOrder(codes, off, m - 1, n - 1))
    ensures forall k: nat | k > m :: !InOrder(codes, off, k, n)
  {
    forall k: nat | k > m ensures !InOrder(codes, off, k, n) {
      if off(m) < n && off(m + 1) < n && off(m) < off(m + 1) {
        assert off(m) < n - 1;
      }
    }
  }

  // A function record is taken, right before its instruction and once, if and only if it and the ones
  // before it lie on instructions in strictly increasing order; behind one that does not, none is taken.
  lemma FuncOnce(codes: seq<nat>, offs: seq<nat>, funcs: Records, k: nat)
    requires funcs.Some?
    ensures var es := Dump(codes, offs, funcs, |codes|).events;
      (k in Funcs(es) <==> InOrder(codes, funcs.value, k, |codes|))
      && (k in Funcs(es) ==> FuncBefore(es, funcs.value, k))
      && forall i, j | 0 <= i < j < |Funcs(es)| :: Funcs(es)[i] < Funcs(es)[j]
  {
    hide Funcs, Dump, FuncBefore, InOrder;
    FuncsSoFar(codes, offs, funcs, |codes|);
    var taken := Dump(codes, offs, funcs, |codes|).taken;
    assert k < taken ==> Upto(taken)[k] == k;
  }
}
