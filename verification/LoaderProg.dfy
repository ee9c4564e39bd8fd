/** A program with kernel symbols and an attach target, step by step: the searches of its relocations
    follow the account, each descriptor found stands where it will be closed, and at the end the
    instructions are relocated as they should be. */
module LoaderProg {
  import opened LoaderBytes
  import opened LoaderMachine
  import opened LoaderIR
  import opened LoaderGen
  import opened LoaderShape
  import opened LoaderLedger
  import opened LoaderFollow
  import opened LoaderSave
  import opened LoaderRelos
  import opened LoaderLookups

  // A program being loaded: where its pieces are and how far its own data goes, the number of its
  // first search, and the blob before the first relocation.
  datatype Load = Load(prog: ProgSpec, pend: Pending, at: ProgBlob, end: int, k0: nat, base: Bytes)

  function InsnAt(q: Load, n: nat): int
    requires n < |q.pend.relos|
  {
    q.at.insns + INSN_SZ * q.pend.relos[n].insnIdx
  }

  predicate Laid(q: Load) {
    FD_AREA <= q.at.insns && q.at.insns + |q.prog.insns| <= q.at.attr && q.at.attr + PROG_ATTR_SZ <= q.end <= |q.base|
    && q.base[q.at.insns..q.at.insns + |q.prog.insns|] == q.prog.insns
    && RelosFit(q.pend.relos, q.prog.insns)
  }

  // --- symbols of the first n relocations

  function Firsts(rs: seq<Relo>, n: nat): (fs: seq<nat>)
    requires n <= |rs|
    ensures forall i | 0 <= i < |fs| :: fs[i] < n
  {
    if n == 0 then [] else Firsts(rs, n - 1) + (if Known(rs, n - 1) then [] else [n - 1])
  }

  lemma {:induction false} FirstsAre(rs: seq<Relo>, n: nat, f: nat)
    requires f < n <= |rs|
    ensures f in Firsts(rs, n) <==> !Known(rs, f)
  {
    if f < n - 1 {
      FirstsAre(rs, n - 1, f);
    } else {
      var fs := Firsts(rs, n - 1);
      assert forall i | 0 <= i < |fs| :: fs[i] < n - 1;
    }
  }

  predicate EntryFor(k: Ksym, r: Relo, insns: int) {
    k.name == r.name && k.kind == r.kind && k.insn == insns + INSN_SZ * r.insnIdx
    && (r.kind != BTF_KIND_FUNC ==> k.off == if r.isTypeless then 1 else 0)
  }

  ghost predicate SymbolsOf(q: Load, n: nat, ks: seq<Ksym>)
    requires n <= |q.pend.relos|
  {
    var fs := Firsts(q.pend.relos, n);
    |ks| == |fs| && forall i | 0 <= i < |ks| :: EntryFor(ks[i], q.pend.relos[fs[i]], q.at.insns)
  }

  // A symbol is known exactly if it has an entry, and that is the entry of its first use.
  lemma KnownEntry(q: Load, n: nat, ks: seq<Ksym>)
    requires n < |q.pend.relos| && SymbolsOf(q, n, ks)
    ensures var rs, i := q.pend.relos, FindKsym(ks, q.pend.relos[n].name);
      (i < |ks| <==> Known(rs, n)) && (FirstUse(rs, n) < n <==> Known(rs, n))
      && (i < |ks| ==> EntryFor(ks[i], rs[FirstUse(rs, n)], q.at.insns))
  {
    hide EntryFor, FindKsym, FirstUse;
    var rs, fs := q.pend.relos, Firsts(q.pend.relos, n);
    var i, f := FindKsym(ks, rs[n].name), FirstUse(rs, n);
    if i < |ks| {
      EntryNamed(ks[i], rs[fs[i]], q.at.insns);
      assert fs[i] in fs;
      FirstsAre(rs, n, fs[i]);
      assert rs[fs[i]].name == rs[n].name && fs[i] == f;
    }
    if f < n {
      assert !Known(rs, f);
      FirstsAre(rs, n, f);
      var j :| 0 <= j < |fs| && fs[j] == f;
      EntryNamed(ks[j], rs[f], q.at.insns);
    }
  }

  lemma EntryNamed(k: Ksym, r: Relo, insns: int)
    requires EntryFor(k, r, insns)
    ensures k.name == r.name
  {
  }

  // --- what the symbols hold

  // cleanup_relos closes something for this entry.
  predicate Closes(k: Ksym) {
    k.kind == BTF_KIND_FUNC || (k.kind == BTF_KIND_VAR && k.off == 0)
  }

  // The word it closes.
  function LocOf(k: Ksym): int {
    if k.kind == BTF_KIND_FUNC then FdSlot(k.off) else k.insn + INSN_SZ + INSN_IMM
  }

  // A kernel function's slot: one of the reserved ones in use, or behind the program's own data.
  predicate SlotIn(off: int, nrFdArray: int, end: int, size: int) {
    MAX_USED_MAPS <= off <= INT16_MAX
    && (off < MAX_USED_MAPS + nrFdArray <= MAX_FD_ARRAY_SZ || (end <= FdSlot(off) && FdSlot(off) + 4 <= size))
  }

  ghost predicate SlotsIn(q: Load, g: Gen)
    requires g.Live?
  {
    forall k | k in g.ksyms && k.kind == BTF_KIND_FUNC :: SlotIn(k.off, g.nrFdArray, q.end, |g.data|)
  }

  predicate HoldsFor(k: Ksym, b: Bytes, es: seq<Event>, a: Source) {
    if Closes(k) then Get(b, LocOf(k), 4) == Fd(es, a) else a == Nowhere
  }

  ghost predicate Held(ks: seq<Ksym>, b: Bytes, l: Ledger, es: seq<Event>) {
    |ks| == |l.held| && forall i | 0 <= i < |ks| :: HoldsFor(ks[i], b, es, l.held[i])
  }

  // --- relocations done

  // Relocation n is done, and a slot that its instruction names belongs to a symbol.
  ghost predicate DoneAt(q: Load, n: nat, ks: seq<Ksym>, b: Bytes, es: seq<Event>)
    requires n < |q.pend.relos|
  {
    ReloDone(q.pend.relos, n, q.prog.insns, b, q.at.insns, es, q.k0)
    && (q.pend.relos[n].kind == BTF_KIND_FUNC && FirstUse(q.pend.relos, n) == n && OffAt(b, InsnAt(q, n)) != 0 ==>
          exists i | 0 <= i < |ks| :: ks[i].kind == BTF_KIND_FUNC && ks[i].off == OffAt(b, InsnAt(q, n)))
  }

  // The program's own data is as before the first relocation, patched bytes apart.
  ghost predicate KeptData(q: Load, n: nat, b: Bytes)
    requires n <= |q.pend.relos|
  {
    |b| == |q.base|
    && forall x | FD_AREA <= x < q.end && x < |b| && Unpatched(q.pend.relos, n, x - q.at.insns) :: b[x] == q.base[x]
  }

  // What the attribute says of the attach target and the BTF.
  predicate Attached(q: Load, b: Bytes, l: Ledger, es: seq<Event>) {
    Get(b, q.at.attr + PROG_BTF_FD, 4) == Fd(es, l.btf)
    && (if q.pend.attachKind == 0 then l.attach == Nowhere else
        l.attach.Of? && l.attach.k < |es| && es[l.attach.k].Find?
        && Get(b, q.at.attr + ATTR_ATTACH_BTF_ID, 4) == es[l.attach.k].ret % TWO32
        && Get(b, q.at.attr + ATTR_ATTACH_BTF_OBJ_FD, 4) == Fd(es, l.attach))
  }

  // The state of generator and run when the first n relocations are done.
  ghost predicate Mid(env: Env, q: Load, n: nat, g: Gen, w: World, d: Bytes, ctx: Bytes, cs: seq<Request>) {
    n <= |q.pend.relos| && Tracks(env, g, w, d, ctx, cs) && Counted(g) && q.end <= |g.data|
    && g.attachKind == q.pend.attachKind
    && |cs| == q.k0 + |Sought(q.pend.relos, n)|
    && SymbolsOf(q, n, g.ksyms) && SlotsIn(q, g)
    && var l, es := LedgerAfter(cs), Calls(w.trace);
       g.nrFdArray == (if l.functions < MAX_KFUNC_DESCS then l.functions else MAX_KFUNC_DESCS)
       && Held(g.ksyms, w.blob, l, es) && Attached(q, w.blob, l, es) && KeptData(q, n, w.blob)
       && forall j | 0 <= j < n :: DoneAt(q, j, g.ksyms, w.blob, es)
  }

  // --- bytes that a relocation leaves alone

  // What relocation n touches is apart from a range of other bytes.
  lemma RangeKept(q: Load, n: nat, b: Bytes, b2: Bytes, slot: int, lo: int, hi: int, at: int, len: nat)
    requires n < |q.pend.relos| && Touches(b, b2, q.pend.relos[n], InsnAt(q, n), slot, lo, hi)
    requires at + len <= InsnAt(q, n) || InsnAt(q, n) + Span(q.pend.relos[n]) <= at
    requires at + len <= slot || slot + 4 <= at
    requires at + len <= lo || hi <= at
    ensures Get(b2, at, len) == Get(b, at, len)
  {
    hide Get;
    SameGet(b2, b, at, len);
  }

  // Another relocation's instruction.
  lemma InsnKept(q: Load, n: nat, j: nat, b: Bytes, b2: Bytes, slot: int, lo: int, hi: int)
    requires n < |q.pend.relos| && j < |q.pend.relos| && j != n && Laid(q) && q.end <= lo
    requires Touches(b, b2, q.pend.relos[n], InsnAt(q, n), slot, lo, hi) && (slot + 4 <= FD_AREA || q.end <= slot)
    ensures var r, insn := q.pend.relos[j], InsnAt(q, j);
      ImmAt(b2, insn) == ImmAt(b, insn)
      && if r.kind == BTF_KIND_FUNC then OffAt(b2, insn) == OffAt(b, insn)
         else FdAt(b2, insn) == FdAt(b, insn) && SrcAt(b2, insn) == SrcAt(b, insn)
  {
    hide Get, Touches;
    var r, insn := q.pend.relos[j], InsnAt(q, j);
    assert Apart(q.pend.relos[n], r);
    RangeKept(q, n, b, b2, slot, lo, hi, insn + INSN_IMM, 4);
    if r.kind == BTF_KIND_FUNC {
      RangeKept(q, n, b, b2, slot, lo, hi, insn + INSN_OFF, 2);
    } else {
      RangeKept(q, n, b, b2, slot, lo, hi, insn + INSN_SZ + INSN_IMM, 4);
      RangeKept(q, n, b, b2, slot, lo, hi, insn + INSN_CODE_END, 1);
    }
  }

  // A slot that relocation n may write: none, the next reserved one, or one in new data.
  predicate NewSlot(g: Gen, slot: int)
    requires g.Live?
  {
    slot == NO_SLOT || |g.data| <= slot
    || (0 <= g.nrFdArray < MAX_KFUNC_DESCS && slot == FdSlot(MAX_USED_MAPS + g.nrFdArray))
  }

  // What a symbol holds is apart from what a later relocation writes.
  lemma LocKept(q: Load, n: nat, g: Gen, i: nat, b: Bytes, b2: Bytes, slot: int, hi: int)
    requires n < |q.pend.relos| && g.Live? && Laid(q) && FD_AREA <= q.end <= |g.data| && SymbolsOf(q, n, g.ksyms)
      && SlotsIn(q, g)
    requires i < |g.ksyms| && Closes(g.ksyms[i]) && NewSlot(g, slot)
    requires Touches(b, b2, q.pend.relos[n], InsnAt(q, n), slot, |g.data|, hi)
    ensures Get(b2, LocOf(g.ksyms[i]), 4) == Get(b, LocOf(g.ksyms[i]), 4)
  {
    hide Get, Touches;
    var k, f := g.ksyms[i], Firsts(q.pend.relos, n)[i];
    assert k in g.ksyms && EntryFor(k, q.pend.relos[f], q.at.insns) && f < n;
    assert Apart(q.pend.relos[n], q.pend.relos[f]);
    RangeKept(q, n, b, b2, slot, |g.data|, hi, LocOf(k), 4);
  }

  lemma HeldKept(q: Load, n: nat, g: Gen, l: Ledger, es: seq<Event>, b: Bytes, b2: Bytes, slot: int, hi: int)
    requires n < |q.pend.relos| && g.Live? && Laid(q) && FD_AREA <= q.end <= |g.data| && SymbolsOf(q, n, g.ksyms)
      && SlotsIn(q, g)
    requires NewSlot(g, slot) && Held(g.ksyms, b, l, es)
    requires Touches(b, b2, q.pend.relos[n], InsnAt(q, n), slot, |g.data|, hi)
    ensures Held(g.ksyms, b2, l, es)
  {
    hide Get, Touches, Laid, SymbolsOf, SlotsIn, NewSlot, Fd;
    forall i | 0 <= i < |g.ksyms| ensures HoldsFor(g.ksyms[i], b2, es, l.held[i]) {
      assert HoldsFor(g.ksyms[i], b, es, l.held[i]);
      if Closes(g.ksyms[i]) {
        LocKept(q, n, g, i, b, b2, slot, hi);
      }
    }
  }

  lemma HeldGrows(ks: seq<Ksym>, b: Bytes, l: Ledger, es: seq<Event>, e: Event)
    requires Held(ks, b, l, es) && Below(l, |es|)
    ensures Held(ks, b, l, es + [e])
  {
    hide Get, Fd, SourceBelow, LocOf, Closes;
    forall i | 0 <= i < |ks| ensures HoldsFor(ks[i], b, es + [e], l.held[i]) {
      assert HoldsFor(ks[i], b, es, l.held[i]);
      assert l.held[i] in l.held;
      FdGrows(es, e, l.held[i]);
    }
  }

  lemma AttachedKept(q: Load, n: nat, l: Ledger, es: seq<Event>, b: Bytes, b2: Bytes, slot: int, lo: int, hi: int)
    requires n < |q.pend.relos| && Laid(q) && FD_AREA <= q.end <= lo && Attached(q, b, l, es)
    requires Touches(b, b2, q.pend.relos[n], InsnAt(q, n), slot, lo, hi) && (slot + 4 <= FD_AREA || q.end <= slot)
    ensures Attached(q, b2, l, es)
  {
    hide Get, Touches, Fd;
    RangeKept(q, n, b, b2, slot, lo, hi, q.at.attr + PROG_BTF_FD, 4);
    RangeKept(q, n, b, b2, slot, lo, hi, q.at.attr + ATTR_ATTACH_BTF_ID, 4);
    RangeKept(q, n, b, b2, slot, lo, hi, q.at.attr + ATTR_ATTACH_BTF_OBJ_FD, 4);
  }

  lemma AttachedGrows(q: Load, b: Bytes, l: Ledger, es: seq<Event>, e: Event)
    requires Attached(q, b, l, es) && Below(l, |es|)
    ensures Attached(q, b, l, es + [e])
  {
    hide Get;
    FdGrows(es, e, l.btf);
    FdGrows(es, e, l.attach);
  }

  lemma AttachedSame(q: Load, b: Bytes, l: Ledger, l2: Ledger, es: seq<Event>)
    requires Attached(q, b, l, es) && l2.btf == l.btf && l2.attach == l.attach
    ensures Attached(q, b, l2, es)
  {
  }

  lemma KeptMore(q: Load, n: nat, b: Bytes, b2: Bytes, slot: int, lo: int, hi: int)
    requires n < |q.pend.relos| && FD_AREA <= q.end <= lo && KeptData(q, n, b)
    requires Touches(b, b2, q.pend.relos[n], InsnAt(q, n), slot, lo, hi) && (slot + 4 <= FD_AREA || q.end <= slot)
    ensures KeptData(q, n + 1, b2)
  {
    hide Patches;
    var rs := q.pend.relos;
    forall x | FD_AREA <= x < q.end && x < |b2| && Unpatched(rs, n + 1, x - q.at.insns) ensures b2[x] == q.base[x] {
      assert !Patches(rs[n], x - q.at.insns - INSN_SZ * rs[n].insnIdx);
      assert x - InsnAt(q, n) == x - q.at.insns - INSN_SZ * rs[n].insnIdx;
      assert Unpatched(rs, n, x - q.at.insns);
    }
  }

  // A relocation that is done stays done.
  lemma DoneKept(q: Load, n: nat, j: nat, g: Gen, es: seq<Event>, b: Bytes, b2: Bytes, slot: int, hi: int)
    requires j < n < |q.pend.relos| && g.Live? && Laid(q) && FD_AREA <= q.end <= |g.data|
    requires SymbolsOf(q, n, g.ksyms) && SlotsIn(q, g) && NewSlot(g, slot)
    requires Touches(b, b2, q.pend.relos[n], InsnAt(q, n), slot, |g.data|, hi) && DoneAt(q, j, g.ksyms, b, es)
    ensures DoneAt(q, j, g.ksyms, b2, es)
  {
    hide Get, Touches, Laid, SymbolsOf, Sought, SlotsIn, NewSlot;
    NewSlotApart(q, g, slot);
    var rs := q.pend.relos;
    var f := FirstUse(rs, j);
    InsnKept(q, n, j, b, b2, slot, |g.data|, hi);
    InsnKept(q, n, f, b, b2, slot, |g.data|, hi);
    if rs[j].kind == BTF_KIND_FUNC && f == j && OffAt(b, InsnAt(q, j)) != 0 {
      var i :| 0 <= i < |g.ksyms| && g.ksyms[i].kind == BTF_KIND_FUNC && g.ksyms[i].off == OffAt(b, InsnAt(q, j));
      LocKept(q, n, g, i, b, b2, slot, hi);
    }
  }

  lemma NewSlotApart(q: Load, g: Gen, slot: int)
    requires g.Live? && q.end <= |g.data| && NewSlot(g, slot)
    ensures slot + 4 <= FD_AREA || q.end <= slot
  {
  }

  // It stays done when there are more answers and more symbols.
  lemma DoneGrows(q: Load, j: nat, ks: seq<Ksym>, ks2: seq<Ksym>, b: Bytes, es: seq<Event>, more: seq<Event>)
    requires j < |q.pend.relos| && DoneAt(q, j, ks, b, es)
    requires |ks| <= |ks2| && forall i | 0 <= i < |ks| :: ks2[i].kind == ks[i].kind && ks2[i].off == ks[i].off
    ensures DoneAt(q, j, ks2, b, es + more)
  {
    hide Get, VariableDone, FunctionDone, CopyDone, Sought, FirstUse;
    if q.pend.relos[j].kind == BTF_KIND_FUNC && FirstUse(q.pend.relos, j) == j && OffAt(b, InsnAt(q, j)) != 0 {
      var i :| 0 <= i < |ks| && ks[i].kind == BTF_KIND_FUNC && ks[i].off == OffAt(b, InsnAt(q, j));
      assert ks2[i].kind == BTF_KIND_FUNC && ks2[i].off == OffAt(b, InsnAt(q, j));
    }
  }

  // --- the relocation just done

  // src_reg before a relocation is that of the program.
  lemma SrcBefore(q: Load, n: nat, b: Bytes)
    requires n < |q.pend.relos| && Laid(q) && KeptData(q, n, b) && q.pend.relos[n].kind != BTF_KIND_FUNC
    ensures SrcAt(b, InsnAt(q, n)) == Get(q.prog.insns, INSN_SZ * q.pend.relos[n].insnIdx + INSN_CODE_END, 1)
  {
    var rs := q.pend.relos;
    var y := INSN_SZ * rs[n].insnIdx + INSN_CODE_END;
    var x := q.at.insns + y;
    forall j | 0 <= j < n ensures !Patches(rs[j], y - INSN_SZ * rs[j].insnIdx) {
      assert Apart(rs[n], rs[j]);
    }
    assert b[x] == q.base[x] == q.base[q.at.insns..q.at.insns + |q.prog.insns|][y];
    assert b[x..x + 1] == q.prog.insns[y..y + 1];
  }

  lemma FunctionNew(q: Load, n: nat, ks: seq<Ksym>, idx: int, b: Bytes, ret: int64, es: seq<Event>)
    requires n < |q.pend.relos| && q.pend.relos[n].kind == BTF_KIND_FUNC && FirstUse(q.pend.relos, n) == n
    requires InRange(b, InsnAt(q, n), INSN_SZ) && InRange(b, FdSlot(idx), 4) && MAX_USED_MAPS <= idx <= INT16_MAX
    requires FdSlot(idx) + 4 <= InsnAt(q, n) || InsnAt(q, n) + INSN_SZ <= FdSlot(idx)
    requires var k := q.k0 + |Sought(q.pend.relos, n)|; k < |es| && es[k].Find? && es[k].ret == ret
    requires ks != [] && ks[|ks| - 1].kind == BTF_KIND_FUNC && ks[|ks| - 1].off == idx
    ensures DoneAt(q, n, ks, FunctionBlob(b, InsnAt(q, n), idx, ret), es)
  {
    hide Get, FunctionBlob, Sought, FirstUse;
    FunctionBlobIs(b, q.pend.relos[n], InsnAt(q, n), idx, ret);
  }

  lemma VariableNew(q: Load, n: nat, ks: seq<Ksym>, b: Bytes, ret: int64, es: seq<Event>)
    requires n < |q.pend.relos| && q.pend.relos[n].kind == BTF_KIND_VAR && FirstUse(q.pend.relos, n) == n
    requires Laid(q) && KeptData(q, n, b) && InRange(b, InsnAt(q, n), 2 * INSN_SZ) && !q.pend.relos[n].isTypeless
    requires var k := q.k0 + |Sought(q.pend.relos, n)|; k < |es| && es[k].Find? && es[k].ret == ret
    ensures DoneAt(q, n, ks, VariableBlob(b, InsnAt(q, n), ret), es)
  {
    hide Get, VariableBlob, Sought, FirstUse, Laid, KeptData;
    VariableBlobIs(b, q.pend.relos[n], InsnAt(q, n), ret);
    SrcBefore(q, n, b);
  }

  lemma CopyNew(q: Load, n: nat, ks: seq<Ksym>, b: Bytes, es: seq<Event>)
    requires n < |q.pend.relos| && Laid(q) && KeptData(q, n, b) && FirstUse(q.pend.relos, n) < n
    requires q.pend.relos[n].kind == BTF_KIND_VAR || q.pend.relos[n].kind == BTF_KIND_FUNC
    ensures DoneAt(q, n, ks, CopyBlob(b, q.pend.relos[n], InsnAt(q, n), InsnAt(q, FirstUse(q.pend.relos, n))), es)
  {
    hide Get, CopyBlob, Sought, FirstUse, KeptData;
    var rs, f := q.pend.relos, FirstUse(q.pend.relos, n);
    var r, insn, first := rs[n], InsnAt(q, n), InsnAt(q, f);
    assert Apart(r, rs[f]);
    if r.kind == rs[f].kind && r.isTypeless == rs[f].isTypeless {
      SizeKept(q, n, b);
      if r.kind == BTF_KIND_FUNC {
        CopyFunctionIs(b, r, insn, first);
      } else {
        CopyVariableIs(b, r, insn, first);
        SrcBefore(q, n, b);
      }
    }
  }

  lemma SizeKept(q: Load, n: nat, b: Bytes)
    requires n <= |q.pend.relos| && KeptData(q, n, b)
    ensures |b| == |q.base|
  {
  }

  // --- one step

  lemma TouchedFrame(b: Bytes, b2: Bytes, r: Relo, insn: int, slot: int, lo: int, hi: int)
    requires Touches(b, b2, r, insn, slot, lo, hi) && FD_AREA <= insn && FD_AREA <= lo <= hi <= |b| && insn + 2 * INSN_SZ <= hi
    requires slot + 4 <= hi
    ensures slot + 4 <= 0 || FD_AREA <= slot ==> b2[..FD_AREA] == b[..FD_AREA]
    ensures b2[hi..] == b[hi..]
  {
    forall x | hi <= x < |b| ensures b2[x] == b[x] {
    }
  }

  // A state with more data and other bytes behind the descriptor area.
  lemma TracksMoved(env: Env, g: Gen, g': Gen, w: World, w2: World, d: Bytes, ctx: Bytes, cs: seq<Request>)
    requires Tracks(env, g, w, d, ctx, cs) && g'.Live? && |g.data| <= |g'.data| <= |d|
    requires g'.nrMaps == g.nrMaps && g'.nrProgs == g.nrProgs
    requires w2 == w.(blob := w2.blob, calls := w2.calls) && |w2.blob| == |w.blob|
    requires w2.blob[..FD_AREA] == w.blob[..FD_AREA] && w2.blob[|g'.data|..] == w.blob[|g'.data|..]
    ensures Tracks(env, g', w2, d, ctx, cs)
  {
    hide Given, InPlace, Calls, Play, LedgerAfter, Followed;
    InPlaceKept(w, w2, LedgerAfter(cs), Calls(w.trace), FD_AREA);
    TailKept(w.blob, w2.blob, d, |g.data|, |g'.data|);
  }

  // What Mid says, apart from the account.
  lemma Parts(env: Env, q: Load, n: nat, g: Gen, w: World, d: Bytes, ctx: Bytes, cs: seq<Request>)
    requires Mid(env, q, n, g, w, d, ctx, cs)
    ensures n <= |q.pend.relos| && g.Live? && w.ok && Counted(g) && q.end <= |g.data| <= |d| && |w.blob| == |d|
    ensures KeptData(q, n, w.blob) && FD_AREA <= |g.data| && w.blob[|g.data|..] == d[|g.data|..]
    ensures Tracks(env, g, w, d, ctx, cs) && SymbolsOf(q, n, g.ksyms) && |cs| == q.k0 + |Sought(q.pend.relos, n)|
    ensures g.nrFdArray == var f := LedgerAfter(cs).functions; if f < MAX_KFUNC_DESCS then f else MAX_KFUNC_DESCS
  {
    hide Counted, KeptData, SymbolsOf, LedgerAfter;
  }

  // Another use of a known symbol.
  lemma KnownStep(q: Load, n: nat, ks: seq<Ksym>, i: nat, ref: nat)
    requires n < |q.pend.relos| && SymbolsOf(q, n, ks) && Known(q.pend.relos, n) && i < |ks|
    ensures SymbolsOf(q, n + 1, ks[i := ks[i].(ref := ref)]) && Sought(q.pend.relos, n + 1) == Sought(q.pend.relos, n)
  {
    assert Sought(q.pend.relos, n) + [] == Sought(q.pend.relos, n);
    assert Firsts(q.pend.relos, n) + [] == Firsts(q.pend.relos, n);
  }

  lemma HeldSame(ks: seq<Ksym>, i: nat, ref: nat, b: Bytes, l: Ledger, es: seq<Event>)
    requires i < |ks| && Held(ks, b, l, es)
    ensures Held(ks[i := ks[i].(ref := ref)], b, l, es)
  {
    hide Get, Fd;
    var ks2 := ks[i := ks[i].(ref := ref)];
    forall j | 0 <= j < |ks2| ensures HoldsFor(ks2[j], b, es, l.held[j]) {
      assert HoldsFor(ks[j], b, es, l.held[j]);
    }
  }

  lemma SlotsSame(q: Load, g: Gen, g': Gen, i: nat, ref: nat)
    requires g.Live? && g'.Live? && SlotsIn(q, g) && i < |g.ksyms| && g'.ksyms == g.ksyms[i := g.ksyms[i].(ref := ref)]
    requires g'.nrFdArray == g.nrFdArray && |g.data| <= |g'.data|
    ensures SlotsIn(q, g')
  {
    forall k | k in g'.ksyms && k.kind == BTF_KIND_FUNC ensures SlotIn(k.off, g'.nrFdArray, q.end, |g'.data|) {
      var j :| 0 <= j < |g'.ksyms| && g'.ksyms[j] == k;
      assert g.ksyms[j] in g.ksyms;
    }
  }

  lemma LaidEnd(q: Load)
    requires Laid(q)
    ensures FD_AREA <= q.end
  {
  }

  lemma NoSlotNew(g: Gen)
    requires g.Live?
    ensures NewSlot(g, NO_SLOT)
  {
  }

  lemma TouchesMore(b: Bytes, b2: Bytes, r: Relo, insn: int, slot: int, lo: int, hi: int)
    requires Touches(b, b2, r, insn, slot, 0, 0)
    ensures Touches(b, b2, r, insn, slot, lo, hi)
  {
    hide Patches;
  }

  lemma CopyTouches(q: Load, n: nat, b: Bytes)
    requires n < |q.pend.relos| && Laid(q) && KeptData(q, n, b) && FirstUse(q.pend.relos, n) < n
    requires q.pend.relos[n].kind == BTF_KIND_VAR || q.pend.relos[n].kind == BTF_KIND_FUNC
    ensures var r, insn, first := q.pend.relos[n], InsnAt(q, n), InsnAt(q, FirstUse(q.pend.relos, n));
      Touches(b, CopyBlob(b, r, insn, first), r, insn, NO_SLOT, 0, 0)
  {
    hide CopyBlob, FirstUse, Touches;
    var rs, f := q.pend.relos, FirstUse(q.pend.relos, n);
    assert Apart(rs[n], rs[f]);
    if rs[n].kind == BTF_KIND_FUNC {
      CopyFunctionIs(b, rs[n], InsnAt(q, n), InsnAt(q, f));
    } else {
      CopyVariableIs(b, rs[n], InsnAt(q, n), InsnAt(q, f));
    }
  }

  lemma CopyTracks(env: Env, q: Load, n: nat, g: Gen, g': Gen, w: World, w2: World, d: Bytes, ctx: Bytes, cs: seq<Request>)
    requires n < |q.pend.relos| && Laid(q) && Tracks(env, g, w, d, ctx, cs) && g'.Live? && g.data <= g'.data <= d
    requires g'.nrMaps == g.nrMaps && g'.nrProgs == g.nrProgs && q.end <= |g.data|
    requires w2 == w.(blob := w2.blob, calls := w2.calls)
    requires Touches(w.blob, w2.blob, q.pend.relos[n], InsnAt(q, n), NO_SLOT, |g.data|, |g'.data|)
    ensures Tracks(env, g', w2, d, ctx, cs)
  {
    hide Touches, Tracks;
    Sized(env, g, w, d, ctx, cs);
    TouchedFrame(w.blob, w2.blob, q.pend.relos[n], InsnAt(q, n), NO_SLOT, |g.data|, |g'.data|);
    SameSize(w.blob, w2.blob, q.pend.relos[n], InsnAt(q, n), NO_SLOT, |g.data|, |g'.data|);
    TracksMoved(env, g, g', w, w2, d, ctx, cs);
  }

  lemma SameSize(b: Bytes, b2: Bytes, r: Relo, insn: int, slot: int, lo: int, hi: int)
    requires Touches(b, b2, r, insn, slot, lo, hi)
    ensures |b2| == |b|
  {
  }

  lemma Sized(env: Env, g: Gen, w: World, d: Bytes, ctx: Bytes, cs: seq<Request>)
    requires Tracks(env, g, w, d, ctx, cs)
    ensures g.Live? && |w.blob| == |d| && FD_AREA <= |g.data| <= |d| && |Calls(w.trace)| == |cs|
  {
  }

  // The state after a repeated use, given what its code does.
  lemma CopyMid(env: Env, q: Load, n: nat, g: Gen, g': Gen, m: M, m2: M, main: seq<Group>, logs: seq<Group>, x: Spots,
                d: Bytes, ctx: Bytes, cs: seq<Request>)
    requires Mid(env, q, n, g, m.w, d, ctx, cs) && Laid(q) && n < |q.pend.relos| && g'.Live? && Counted(g') && g'.data <= d
    requires Relocates(g, g', q.pend.relos[n], InsnAt(q, n), main, logs, x) && Known(q.pend.relos, n)
    requires var f := FirstUse(q.pend.relos, n);
      m2.w == m.w.(blob := CopyBlob(m.w.blob, q.pend.relos[n], InsnAt(q, n), InsnAt(q, f)), calls := m2.w.calls)
    ensures Mid(env, q, n + 1, g', m2.w, d, ctx, cs)
  {
    hide Tracks, Counted, SymbolsOf, Held, Attached, KeptData, DoneAt, Laid, Touches, CopyBlob, Sought, LedgerAfter, Calls;
    hide FindKsym, FirstUse, Known, SlotsIn, Prints, NameIn, SlotAdded, CopyGroups, FirstGroups, NewSlot;
    Parts(env, q, n, g, m.w, d, ctx, cs);
    LaidEnd(q);
    var r, b, b2 := q.pend.relos[n], m.w.blob, m2.w.blob;
    var i, l, es := FindKsym(g.ksyms, r.name), LedgerAfter(cs), Calls(m.w.trace);
    KnownEntry(q, n, g.ksyms);
    CopyTouches(q, n, b);
    NoSlotNew(g);
    KnownStep(q, n, g.ksyms, i, g.ksyms[i].ref + 1);
    TouchesMore(b, b2, r, InsnAt(q, n), NO_SLOT, |g.data|, |g.data|);
    HeldKept(q, n, g, l, es, b, b2, NO_SLOT, |g.data|);
    HeldSame(g.ksyms, i, g.ksyms[i].ref + 1, b2, l, es);
    AttachedKept(q, n, l, es, b, b2, NO_SLOT, |g.data|, |g.data|);
    KeptMore(q, n, b, b2, NO_SLOT, |g.data|, |g.data|);
    SlotsSame(q, g, g', i, g.ksyms[i].ref + 1);
    TouchesMore(b, b2, r, InsnAt(q, n), NO_SLOT, |g.data|, |g'.data|);
    CopyTracks(env, q, n, g, g', m.w, m2.w, d, ctx, cs);
    forall j | 0 <= j < n + 1 ensures DoneAt(q, j, g'.ksyms, b2, es) {
      if j < n {
        DoneKept(q, n, j, g, es, b, b2, NO_SLOT, |g.data|);
        DoneGrows(q, j, g.ksyms, g'.ksyms, b2, es, []);
        assert es + [] == es;
      } else {
        CopyNew(q, n, g'.ksyms, b, es);
      }
    }
  }

  // --- a first use

  lemma NewStep(q: Load, n: nat, ks: seq<Ksym>, k: Ksym)
    requires n < |q.pend.relos| && SymbolsOf(q, n, ks) && !Known(q.pend.relos, n)
    requires EntryFor(k, q.pend.relos[n], q.at.insns)
    ensures SymbolsOf(q, n + 1, ks + [k])
    ensures Sought(q.pend.relos, n + 1) == Sought(q.pend.relos, n) + [SearchFor(q.pend.relos[n])]
  {
    hide EntryFor;
  }

  lemma SlotsMore(q: Load, g: Gen, g': Gen, k: Ksym)
    requires g.Live? && g'.Live? && SlotsIn(q, g) && g'.ksyms == g.ksyms + [k]
    requires g.nrFdArray <= g'.nrFdArray <= MAX_KFUNC_DESCS && |g.data| <= |g'.data|
    requires k.kind == BTF_KIND_FUNC ==> SlotIn(k.off, g'.nrFdArray, q.end, |g'.data|)
    ensures SlotsIn(q, g')
  {
  }

  // The account after a search: one more symbol is held.
  lemma PerformSearch(l: Ledger, r: Relo, k: nat)
    requires r.kind == BTF_KIND_VAR || r.kind == BTF_KIND_FUNC
    ensures var l2 := Perform(l, SearchFor(r), k);
      |l2.held| == |l.held| + 1 && l2.held[..|l.held|] == l.held
      && l2 == l.(held := l2.held, functions := l2.functions, slots := l2.slots, script := l.script + [Issue(k)])
      && l2.functions == l.functions + (if r.kind == BTF_KIND_FUNC then 1 else 0)
      && (r.kind == BTF_KIND_VAR ==> l2.slots == l.slots && l2.held[|l.held|] == if r.isTypeless then Nowhere else Of(k))
      && (r.kind == BTF_KIND_FUNC && l.functions >= MAX_KFUNC_DESCS ==> l2.slots == l.slots && l2.held[|l.held|] == Of(k))
      && (r.kind == BTF_KIND_FUNC && l.functions < MAX_KFUNC_DESCS ==>
            var ks := Users(l, l.functions) + [k];
            l2.slots == l.slots[l.functions := ks] && l2.held[|l.held|] == LastOf(ks))
  {
    assert Answered(l, SearchFor(r), k) == l.script + [Issue(k)];
  }

  lemma HeldMore(ks: seq<Ksym>, k: Ksym, b: Bytes, l: Ledger, l2: Ledger, es: seq<Event>)
    requires Held(ks, b, l, es) && |l2.held| == |l.held| + 1 && l2.held[..|l.held|] == l.held
    requires HoldsFor(k, b, es, l2.held[|l.held|])
    ensures Held(ks + [k], b, l2, es)
  {
    hide HoldsFor;
    forall i | 0 <= i < |ks| + 1 ensures HoldsFor((ks + [k])[i], b, es, l2.held[i]) {
      if i < |ks| {
        assert l2.held[i] == l2.held[..|l.held|][i];
      }
    }
  }

  // What a first use has done once it goes on.
  ghost predicate Stored(q: Load, n: nat, g: Gen, g': Gen, l: Ledger, l2: Ledger, es: seq<Event>, b: Bytes,
    w2: World, slot: int,
                         x: Spots)
    requires n < |q.pend.relos| && g.Live? && g'.Live?
  {
    Touches(b, w2.blob, q.pend.relos[n], InsnAt(q, n), slot, |g.data|, |g'.data|) && NewSlot(g, slot) && slot + 4 <= |g'.data|
    && g'.ksyms != [] && |l2.held| == |l.held| + 1
    && HoldsFor(g'.ksyms[|g'.ksyms| - 1], w2.blob, es, l2.held[|l.held|])
    && DoneAt(q, n, g'.ksyms, w2.blob, es) && InPlace(w2, l2, es)
    && (q.pend.relos[n].kind == BTF_KIND_FUNC ==> SlotIn(x.idx, g'.nrFdArray, q.end, |g'.data|))
  }

  lemma FirstMid(env: Env, q: Load, n: nat, g: Gen, g': Gen, m: M, m2: M, main: seq<Group>, logs: seq<Group>, x: Spots,
                 e: Event, slot: int, d: Bytes, ctx: Bytes, cs: seq<Request>)
    requires Mid(env, q, n, g, m.w, d, ctx, cs) && Laid(q) && n < |q.pend.relos| && g'.Live? && Counted(g') && g'.data <= d
    requires Relocates(g, g', q.pend.relos[n], InsnAt(q, n), main, logs, x) && !Known(q.pend.relos, n)
    requires var c := SearchFor(q.pend.relos[n]); Given(env, c, LedgerAfter(cs), Calls(m.w.trace), ctx, e) && Succeeds(c, e)
    requires m2.w == m.w.(blob := m2.w.blob, trace := m.w.trace + [e], calls := m2.w.calls) && !e.Close?
    requires var l, c := LedgerAfter(cs), SearchFor(q.pend.relos[n]);
      g.Live? && Stored(q, n, g, g', l, Perform(l, c, |cs|), Calls(m.w.trace) + [e], m.w.blob, m2.w, slot, x)
    ensures Mid(env, q, n + 1, g', m2.w, d, ctx, cs + [SearchFor(q.pend.relos[n])])
  {
    hide Tracks, Counted, SymbolsOf, Held, Attached, KeptData, DoneAt, Laid, Touches, Sought, LedgerAfter, Calls,
      Given, Succeeds;
    hide FindKsym, FirstUse, Known, SlotsIn, Prints, NameIn, SlotAdded, CopyGroups, FirstGroups, NewSlot, HoldsFor, InPlace;
    hide Perform, SearchFor, SlotIn;
    Parts(env, q, n, g, m.w, d, ctx, cs);
    LaidEnd(q);
    var r, b, b2, k := q.pend.relos[n], m.w.blob, m2.w.blob, |cs|;
    var c, l, es := SearchFor(r), LedgerAfter(cs), Calls(m.w.trace);
    var l2, es2 := Perform(l, c, k), es + [e];
    Sized(env, g, m.w, d, ctx, cs);
    KnownEntry(q, n, g.ksyms);
    PerformSearch(l, r, k);
    LedgerBelow(cs);
    var key := g'.ksyms[|g.ksyms|];
    NewStep(q, n, g.ksyms, key);
    FirstNumbers(g, g', r, InsnAt(q, n), main, logs, x);
    assert g'.ksyms[..|g'.ksyms| - 1] == g.ksyms;
    FirstSlots(q, g, g', r, x);
    HeldKept(q, n, g, l, es, b, b2, slot, |g'.data|);
    HeldGrows(g.ksyms, b2, l, es, e);
    HeldMore(g.ksyms, key, b2, l, l2, es2);
    NewSlotApart(q, g, slot);
    AttachedKept(q, n, l, es, b, b2, slot, |g.data|, |g'.data|);
    AttachedGrows(q, b2, l, es, e);
    AttachedSame(q, b2, l, l2, es2);
    KeptMore(q, n, b, b2, slot, |g.data|, |g'.data|);
    FirstTracks(env, q, n, g, g', m.w, m2.w, e, slot, d, ctx, cs);
    CallsGrow(m.w.trace, e);
    LedgerSnoc(cs, c);
    forall j | 0 <= j < n + 1 ensures DoneAt(q, j, g'.ksyms, b2, es2) {
      if j < n {
        DoneKept(q, n, j, g, es, b, b2, slot, |g'.data|);
        DoneGrows(q, j, g.ksyms, g'.ksyms, b2, es, [e]);
      }
    }
  }

  lemma FirstNumbers(g: Gen, g': Gen, r: Relo, insn: int, main: seq<Group>, logs: seq<Group>, x: Spots)
    requires g.Live? && g'.Live? && Relocates(g, g', r, insn, main, logs, x) && FindKsym(g.ksyms, r.name) == |g.ksyms|
    ensures g'.nrFdArray == g.nrFdArray + if r.kind == BTF_KIND_FUNC && g.nrFdArray != MAX_KFUNC_DESCS then 1 else 0
  {
    hide Prints, NameIn, FirstGroups, CopyGroups, FindKsym;
  }

  // The new entry of a first use.
  lemma FirstEntry(g: Gen, g': Gen, r: Relo, insn: int, main: seq<Group>, logs: seq<Group>, x: Spots)
    requires g.Live? && g'.Live? && Relocates(g, g', r, insn, main, logs, x) && FindKsym(g.ksyms, r.name) == |g.ksyms|
    ensures g.data <= g'.data && g'.ksyms == g.ksyms + [Ksym(r.name, r.kind, 1, x.idx, insn)] && main == FirstGroups(r, insn, x)
    ensures NameIn(g'.data, |g.data|, x.name, r.name) && DbgIn(x.dbg, |g'.data|) && Prints(logs, |g'.data|)
    ensures r.kind == BTF_KIND_FUNC || r.kind == BTF_KIND_VAR
    ensures r.kind == BTF_KIND_FUNC ==> SlotAdded(g, g', x.idx)
    ensures r.kind == BTF_KIND_VAR ==> x.idx == if r.isTypeless then 1 else 0
    ensures r.kind == BTF_KIND_VAR && r.isTypeless ==> |g.data| <= x.room && x.room + 8 <= |g'.data|
    ensures g'.nrMaps == g.nrMaps && g'.nrProgs == g.nrProgs && g'.groups == g.groups + main + logs
  {
    hide Prints, FirstGroups, CopyGroups, FindKsym, SlotAdded;
  }

  lemma FirstSlots(q: Load, g: Gen, g': Gen, r: Relo, x: Spots)
    requires g.Live? && g'.Live? && SlotsIn(q, g) && g'.ksyms != [] && Counted(g) && Counted(g') && g.data <= g'.data
    requires g'.ksyms[..|g'.ksyms| - 1] == g.ksyms && var k := g'.ksyms[|g'.ksyms| - 1]; k.kind == r.kind && k.off == x.idx
    requires r.kind == BTF_KIND_FUNC ==> SlotIn(x.idx, g'.nrFdArray, q.end, |g'.data|)
    requires g.nrFdArray <= g'.nrFdArray
    ensures SlotsIn(q, g')
  {
    hide SlotIn;
    assert g'.ksyms == g.ksyms + [g'.ksyms[|g'.ksyms| - 1]];
    hide Counted;
    SlotsMore(q, g, g', g'.ksyms[|g'.ksyms| - 1]);
  }

  lemma FirstTracks(env: Env, q: Load, n: nat, g: Gen, g': Gen, w: World, w2: World, e: Event, slot: int,
                    d: Bytes, ctx: Bytes, cs: seq<Request>)
    requires n < |q.pend.relos| && Laid(q) && Tracks(env, g, w, d, ctx, cs) && g'.Live? && g.data <= g'.data <= d
    requires g'.nrMaps == g.nrMaps && g'.nrProgs == g.nrProgs && q.end <= |g.data|
    requires w2 == w.(blob := w2.blob, trace := w.trace + [e], calls := w2.calls) && !e.Close?
    requires var c := SearchFor(q.pend.relos[n]); Given(env, c, LedgerAfter(cs), Calls(w.trace), ctx, e) && Succeeds(c, e)
    requires g.Live? && Touches(w.blob, w2.blob, q.pend.relos[n], InsnAt(q, n), slot, |g.data|, |g'.data|)
      && slot + 4 <= |g'.data|
    requires q.pend.relos[n].kind == BTF_KIND_VAR || q.pend.relos[n].kind == BTF_KIND_FUNC
    requires InPlace(w2, Perform(LedgerAfter(cs), SearchFor(q.pend.relos[n]), |cs|), Calls(w.trace) + [e])
    ensures Tracks(env, g', w2, d, ctx, cs + [SearchFor(q.pend.relos[n])])
  {
    hide Touches, InPlace, Given, Succeeds, LedgerAfter, Calls, Perform, SearchFor, Play, Followed;
    var c, l, es := SearchFor(q.pend.relos[n]), LedgerAfter(cs), Calls(w.trace);
    Sized(env, g, w, d, ctx, cs);
    TouchedFrame(w.blob, w2.blob, q.pend.relos[n], InsnAt(q, n), slot, |g.data|, |g'.data|);
    SameSize(w.blob, w2.blob, q.pend.relos[n], InsnAt(q, n), slot, |g.data|, |g'.data|);
    PerformSearch(l, q.pend.relos[n], |cs|);
    CallsGrow(w.trace, e);
    LedgerBelow(cs);
    PlayGrows(es, e, l.script);
    PlaySnoc(es + [e], l.script, Issue(|cs|));
    Assemble(env, g, g', c, w, w2, e, d, ctx, cs);
  }

  // --- what each kind of first use stores

  // Where a kernel function's slot is.
  lemma SlotPosition(q: Load, g: Gen, g': Gen, idx: int)
    requires g.Live? && g'.Live? && SlotAdded(g, g', idx) && Counted(g) && FD_AREA <= q.end <= |g.data| <= |g'.data|
    ensures NewSlot(g, FdSlot(idx)) && MAX_USED_MAPS <= idx <= INT16_MAX && FdSlot(idx) + 4 <= |g'.data|
    ensures SlotIn(idx, g'.nrFdArray, q.end, |g'.data|)
    ensures FdSlot(idx) + 4 <= FD_AREA || q.end <= FdSlot(idx)
    ensures if g.nrFdArray < MAX_KFUNC_DESCS then idx == MAX_USED_MAPS + g.nrFdArray else |g.data| <= FdSlot(idx)
  {
    hide Zeros;
  }

  // The slots of the descriptor array after a kernel function's has been written.
  lemma SlotWords(q: Load, n: nat, b: Bytes, b2: Bytes, slot: int, lo: int, hi: int, j: nat)
    requires n < |q.pend.relos| && Laid(q) && Touches(b, b2, q.pend.relos[n], InsnAt(q, n), slot, lo, hi)
    requires j < MAX_FD_ARRAY_SZ && q.end <= lo && (slot == NO_SLOT || (slot >= 0 && slot % 4 == 0)) && slot != FdSlot(j)
    ensures Get(b2, FdSlot(j), 4) == Get(b, FdSlot(j), 4)
  {
    hide Get, Touches;
    assert slot + 4 <= FdSlot(j) || FdSlot(j) + 4 <= slot;
    RangeKept(q, n, b, b2, slot, lo, hi, FdSlot(j), 4);
  }

  lemma FreshZero(b: Bytes, d: Bytes, lo: int, at: int)
    requires 0 <= lo <= at && at + 4 <= |d| == |b| && b[lo..] == d[lo..] && d[at..at + 4] == Zeros(4)
    ensures Get(b, at, 4) == 0
  {
    assert b[at..at + 4] == b[lo..][at - lo..at - lo + 4] == d[lo..][at - lo..at - lo + 4] == d[at..at + 4];
    ReadBack(0, 4);
    assert LittleEndian(0, 4) == Zeros(4);
  }

  // The places after a kernel function of the reserved slots.
  lemma ReservedPlaced(w: World, w2: World, l: Ledger, es: seq<Event>, e: Event, k: nat, i: nat)
    requires i < MAX_KFUNC_DESCS && InPlace(w, l, es) && Below(l, |es|) && w2.stack == w.stack && k == |es|
    requires var fd := Descriptor(e);
      forall j: nat | j < MAX_FD_ARRAY_SZ ::
        Get(w2.blob, FdSlot(j), 4) == if j == MAX_USED_MAPS + i && fd != 0 then fd else Get(w.blob, FdSlot(j), 4)
    ensures InPlace(w2, l.(slots := l.slots[i := Users(l, i) + [k]]), es + [e])
    ensures Get(w2.blob, FdSlot(MAX_USED_MAPS + i), 4) == LastFd(es + [e], Users(l, i) + [k])
  {
    hide Get, LastFd;
    InPlaceGrows(w, l, es, e);
    var l2 := l.(slots := l.slots[i := Users(l, i) + [k]]);
    UserPlace(w, w2, l, l2, es + [e], i);
    assert LastFd(es + [e], Users(l2, i)) == Get(w2.blob, FdSlot(MAX_USED_MAPS + i), 4);
  }

  // Other searches leave the places alone.
  lemma OtherPlaced(w: World, w2: World, l: Ledger, l2: Ledger, es: seq<Event>, e: Event)
    requires InPlace(w, l, es) && Below(l, |es|) && w2.stack == w.stack && |w.blob| >= FD_AREA && |w2.blob| >= FD_AREA
    requires w2.blob[..FD_AREA] == w.blob[..FD_AREA]
    requires l2 == l.(held := l2.held, functions := l2.functions, attach := l2.attach, script := l2.script)
    ensures InPlace(w2, l2, es + [e])
  {
    hide InPlace, Get;
    InPlaceKept(w, w2, l, es, FD_AREA);
    InPlaceGrows(w2, l, es, e);
    InPlaceSame(w2, l, l2, es + [e]);
  }

  // Places and slot after a first use of a kernel function.
  lemma FunctionPlaced(q: Load, n: nat, w: World, w2: World, l: Ledger, es: seq<Event>, e: Event, idx: int, lo: int, hi: int)
    requires n < |q.pend.relos| && Laid(q) && q.pend.relos[n].kind == BTF_KIND_FUNC && FD_AREA <= q.end <= lo <= hi <= |w.blob|
    requires InPlace(w, l, es) && Below(l, |es|) && w2.stack == w.stack
    requires Touches(w.blob, w2.blob, q.pend.relos[n], InsnAt(q, n), FdSlot(idx), lo, hi) && FdSlot(idx) + 4 <= hi
    requires if l.functions < MAX_KFUNC_DESCS then idx == MAX_USED_MAPS + l.functions
             else lo <= FdSlot(idx) && Get(w.blob, FdSlot(idx), 4) == 0
    requires Get(w2.blob, FdSlot(idx), 4) == if Descriptor(e) != 0 then Descriptor(e) else Get(w.blob, FdSlot(idx), 4)
    ensures var l2, es2 := Perform(l, SearchFor(q.pend.relos[n]), |es|), es + [e];
      InPlace(w2, l2, es2) && |l2.held| == |l.held| + 1 && Get(w2.blob, FdSlot(idx), 4) == Fd(es2, l2.held[|l.held|])
  {
    hide Laid, Touches, InPlace, Perform, Get, Below, Descriptor, LastFd;
    var r, l2 := q.pend.relos[n], Perform(l, SearchFor(q.pend.relos[n]), |es|);
    PerformSearch(l, r, |es|);
    LaidInsn(q, n);
    SameSize(w.blob, w2.blob, r, InsnAt(q, n), FdSlot(idx), lo, hi);
    if l.functions < MAX_KFUNC_DESCS {
      forall j: nat | j < MAX_FD_ARRAY_SZ
        ensures Get(w2.blob, FdSlot(j), 4) == if j == idx
          && Descriptor(e) != 0 then Descriptor(e) else Get(w.blob, FdSlot(j), 4)
      {
        if j != idx {
          SlotWords(q, n, w.blob, w2.blob, FdSlot(idx), lo, hi, j);
        }
      }
      ReservedPlaced(w, w2, l, es, e, |es|, l.functions);
      InPlaceSame(w2, l.(slots := l2.slots), l2, es + [e]);
    } else {
      TouchedFrame(w.blob, w2.blob, r, InsnAt(q, n), FdSlot(idx), lo, hi);
      OtherPlaced(w, w2, l, l2, es, e);
    }
  }

  // Where a first use of a kernel function has its slot, and what is there before.
  lemma FunctionRoom(env: Env, q: Load, n: nat, g: Gen, g': Gen, w: World, main: seq<Group>, logs: seq<Group>, x: Spots,
                     d: Bytes, ctx: Bytes, cs: seq<Request>)
    requires Mid(env, q, n, g, w, d, ctx, cs) && Laid(q) && n < |q.pend.relos| && g'.Live? && g'.data <= d
    requires Relocates(g, g', q.pend.relos[n], InsnAt(q, n), main, logs, x) && !Known(q.pend.relos, n)
    requires q.pend.relos[n].kind == BTF_KIND_FUNC
    ensures g.Live? && |w.blob| == |d| && FD_AREA <= q.end <= |g.data| <= |g'.data| <= |d|
    ensures NewSlot(g, FdSlot(x.idx)) && MAX_USED_MAPS <= x.idx <= INT16_MAX && FdSlot(x.idx) + 4 <= |g'.data|
    ensures SlotIn(x.idx, g'.nrFdArray, q.end, |g'.data|) && (FdSlot(x.idx) + 4 <= FD_AREA || q.end <= FdSlot(x.idx))
    ensures var l := LedgerAfter(cs);
      if l.functions < MAX_KFUNC_DESCS then x.idx == MAX_USED_MAPS + l.functions
      else |g.data| <= FdSlot(x.idx) && Get(w.blob, FdSlot(x.idx), 4) == 0
    ensures FirstUse(q.pend.relos, n) == n && g'.ksyms != []
    ensures g'.ksyms[|g'.ksyms| - 1] == Ksym(q.pend.relos[n].name, BTF_KIND_FUNC, 1, x.idx, InsnAt(q, n))
    ensures InPlace(w, LedgerAfter(cs), Calls(w.trace)) && |Calls(w.trace)| == |cs| == q.k0 + |Sought(q.pend.relos, n)|
  {
    hide Tracks, SymbolsOf, Held, Attached, KeptData, Laid, Touches, LedgerAfter, Calls, SlotAdded, FindKsym, FirstUse, Known,
      SlotsIn, Prints, NameIn, CopyGroups, FirstGroups, NewSlot, InPlace, Get, Sought, SlotIn, Counted, Mid, Relocates;
    Parts(env, q, n, g, w, d, ctx, cs);
    LaidEnd(q);
    Placing(env, g, w, d, ctx, cs);
    KnownEntry(q, n, g.ksyms);
    FirstEntry(g, g', q.pend.relos[n], InsnAt(q, n), main, logs, x);
    CountedRange(g);
    SlotPosition(q, g, g', x.idx);
    if g.nrFdArray == MAX_KFUNC_DESCS {
      FreshSlotZero(g, g', x.idx, w.blob, d);
    }
  }

  // The slot and the instruction after it.
  lemma FunctionWritten(b: Bytes, r: Relo, insn: int, idx: int, ret: int64, e: Event, lo: int, hi: int)
    requires r.kind == BTF_KIND_FUNC && InRange(b, insn, INSN_SZ) && InRange(b, FdSlot(idx), 4) && 0 <= idx <= INT16_MAX
    requires (FdSlot(idx) + 4 <= insn || insn + INSN_SZ <= FdSlot(idx)) && e.Find? && e.ret == ret
    ensures var b2 := FunctionBlob(b, insn, idx, ret);
      Touches(b, b2, r, insn, FdSlot(idx), lo, hi)
      && Get(b2, FdSlot(idx), 4) == if Descriptor(e) != 0 then Descriptor(e) else Get(b, FdSlot(idx), 4)
  {
    hide Touches, FunctionBlob, Get;
    FunctionBlobIs(b, r, insn, idx, ret);
    TouchesMore(b, FunctionBlob(b, insn, idx, ret), r, insn, FdSlot(idx), lo, hi);
  }

  lemma FunctionStoredAt(q: Load, n: nat, g: Gen, g': Gen, w: World, w2: World, l: Ledger, es: seq<Event>, x: Spots, e: Event,
                         ret: int64)
    requires n < |q.pend.relos| && Laid(q) && q.pend.relos[n].kind == BTF_KIND_FUNC && FirstUse(q.pend.relos, n) == n
    requires g.Live? && g'.Live? && FD_AREA <= q.end <= |g.data| <= |g'.data| <= |w.blob|
    requires NewSlot(g, FdSlot(x.idx)) && MAX_USED_MAPS <= x.idx <= INT16_MAX && FdSlot(x.idx) + 4 <= |g'.data|
    requires SlotIn(x.idx, g'.nrFdArray, q.end, |g'.data|) && (FdSlot(x.idx) + 4 <= FD_AREA || q.end <= FdSlot(x.idx))
    requires if l.functions < MAX_KFUNC_DESCS then x.idx == MAX_USED_MAPS + l.functions
             else |g.data| <= FdSlot(x.idx) && Get(w.blob, FdSlot(x.idx), 4) == 0
    requires g'.ksyms != []
      && g'.ksyms[|g'.ksyms| - 1] == Ksym(q.pend.relos[n].name, BTF_KIND_FUNC, 1, x.idx, InsnAt(q, n))
    requires InPlace(w, l, es) && Below(l, |es|) && |es| == q.k0 + |Sought(q.pend.relos, n)|
    requires e.Find? && e.ret == ret && w2.stack == w.stack
    requires InRange(w.blob, InsnAt(q, n), INSN_SZ) && w2.blob == FunctionBlob(w.blob, InsnAt(q, n), x.idx, ret)
    ensures Stored(q, n, g, g', l, Perform(l, SearchFor(q.pend.relos[n]), |es|), es + [e], w.blob, w2, FdSlot(x.idx), x)
  {
    hide DoneAt, Laid, Touches, FunctionBlob, FirstUse, NewSlot, InPlace, Perform, Get, Sought, SlotIn, Fd, Below, Descriptor;
    LaidInsn(q, n);
    FunctionWritten(w.blob, q.pend.relos[n], InsnAt(q, n), x.idx, ret, e, |g.data|, |g'.data|);
    FunctionNew(q, n, g'.ksyms, x.idx, w.blob, ret, es + [e]);
    FunctionPlaced(q, n, w, w2, l, es, e, x.idx, |g.data|, |g'.data|);
  }

  lemma FunctionStored(env: Env, q: Load, n: nat, g: Gen, g': Gen, m: M, w2: World, main: seq<Group>, logs: seq<Group>,
                       x: Spots, e: Event, ret: int64, d: Bytes, ctx: Bytes, cs: seq<Request>)
    requires Mid(env, q, n, g, m.w, d, ctx, cs) && Laid(q) && n < |q.pend.relos| && g'.Live? && g'.data <= d
    requires Relocates(g, g', q.pend.relos[n], InsnAt(q, n), main, logs, x) && !Known(q.pend.relos, n)
    requires q.pend.relos[n].kind == BTF_KIND_FUNC && e.Find? && e.ret == ret
    requires w2.stack == m.w.stack && w2.blob == FunctionBlob(m.w.blob, InsnAt(q, n), x.idx, ret)
    ensures var l := LedgerAfter(cs);
      g.Live? && Stored(q, n, g, g', l, Perform(l, SearchFor(q.pend.relos[n]), |cs|), Calls(m.w.trace) + [e], m.w.blob, w2,
        FdSlot(x.idx), x)
  {
    hide Stored, Laid, LedgerAfter, Calls, FunctionBlob, FirstUse, Known, NewSlot, InPlace, Perform, Get, Sought, SlotIn, Mid;
    hide Relocates, Below, SearchFor;
    FunctionRoom(env, q, n, g, g', m.w, main, logs, x, d, ctx, cs);
    LaidInsn(q, n);
    LedgerBelow(cs);
    FunctionStoredAt(q, n, g, g', m.w, w2, LedgerAfter(cs), Calls(m.w.trace), x, e, ret);
  }

  lemma CountedRange(g: Gen)
    requires g.Live? && Counted(g)
    ensures 0 <= g.nrFdArray <= MAX_KFUNC_DESCS
  {
  }

  lemma FreshSlotZero(g: Gen, g': Gen, idx: int, b: Bytes, d: Bytes)
    requires g.Live? && g'.Live? && SlotAdded(g, g', idx) && g.nrFdArray == MAX_KFUNC_DESCS && |b| == |d| && |g.data| <= |d|
    requires b[|g.data|..] == d[|g.data|..] && g'.data <= d
    ensures Get(b, FdSlot(idx), 4) == 0
  {
    Slice(g'.data, d, FdSlot(idx), 4);
    FreshZero(b, d, |g.data|, FdSlot(idx));
  }

  lemma LaidInsn(q: Load, n: nat)
    requires Laid(q) && n < |q.pend.relos|
    ensures FD_AREA <= InsnAt(q, n) && InsnAt(q, n) + Span(q.pend.relos[n]) <= q.at.attr && InsnAt(q, n) + 2 * INSN_SZ <= q.end
  {
  }

  // What is in place in a run that tracks the account.
  lemma Placing(env: Env, g: Gen, w: World, d: Bytes, ctx: Bytes, cs: seq<Request>)
    requires Tracks(env, g, w, d, ctx, cs)
    ensures InPlace(w, LedgerAfter(cs), Calls(w.trace)) && |Calls(w.trace)| == |cs| && |w.blob| == |d| >= FD_AREA
  {
    hide InPlace;
  }

  // A first use that takes no slot.
  lemma PlainStored(env: Env, q: Load, n: nat, g: Gen, g': Gen, m: M, w2: World, main: seq<Group>, logs: seq<Group>, x: Spots,
                    e: Event, d: Bytes, ctx: Bytes, cs: seq<Request>)
    requires Mid(env, q, n, g, m.w, d, ctx, cs) && Laid(q) && n < |q.pend.relos| && g'.Live? && g'.data <= d
    requires Relocates(g, g', q.pend.relos[n], InsnAt(q, n), main, logs, x) && !Known(q.pend.relos, n)
    requires q.pend.relos[n].kind == BTF_KIND_VAR && w2.stack == m.w.stack
    requires g.Live? && Touches(m.w.blob, w2.blob, q.pend.relos[n], InsnAt(q, n), NO_SLOT, |g.data|, |g'.data|)
    requires !q.pend.relos[n].isTypeless ==> FdAt(w2.blob, InsnAt(q, n)) == Descriptor(e)
    requires DoneAt(q, n, g'.ksyms, w2.blob, Calls(m.w.trace) + [e])
    ensures var l := LedgerAfter(cs);
      Stored(q, n, g, g', l, Perform(l, SearchFor(q.pend.relos[n]), |cs|), Calls(m.w.trace) + [e], m.w.blob, w2, NO_SLOT, x)
  {
    hide Tracks, SymbolsOf, Held, Attached, KeptData, DoneAt, Laid, Touches, LedgerAfter, Calls, SlotAdded, Descriptor;
    hide FindKsym, FirstUse, Known, SlotsIn, Prints, NameIn, CopyGroups, FirstGroups, NewSlot, InPlace, Perform,
      Get, Sought, SlotIn;
    hide Counted, ModuleFd, Mid, ReloDone, Relocates, Fd, SearchFor, HoldsFor, FdAt;
    Parts(env, q, n, g, m.w, d, ctx, cs);
    LaidEnd(q);
    Placing(env, g, m.w, d, ctx, cs);
    KnownEntry(q, n, g.ksyms);
    FirstEntry(g, g', q.pend.relos[n], InsnAt(q, n), main, logs, x);
    NoSlotNew(g);
    var r, b, l, es := q.pend.relos[n], m.w.blob, LedgerAfter(cs), Calls(m.w.trace);
    LedgerBelow(cs);
    PlainPlaced(q, n, m.w, w2, l, es, e, |g.data|, |g'.data|);
    PerformSearch(l, r, |cs|);
    PlainHolds(r, x.idx, InsnAt(q, n), w2.blob, es, e);
  }

  lemma OwnDescriptor(es: seq<Event>, e: Event)
    ensures Fd(es + [e], Of(|es|)) == Descriptor(e)
  {
  }

  // The descriptor of a typed variable is the one just found.
  lemma PlainHolds(r: Relo, idx: int, insn: int, b: Bytes, es: seq<Event>, e: Event)
    requires r.kind == BTF_KIND_VAR && idx == (if r.isTypeless then 1 else 0)
    requires !r.isTypeless ==> FdAt(b, insn) == Descriptor(e)
    ensures HoldsFor(Ksym(r.name, r.kind, 1, idx, insn), b, es + [e], if r.isTypeless then Nowhere else Of(|es|))
  {
  }

  // Places after any other first use.
  lemma PlainPlaced(q: Load, n: nat, w: World, w2: World, l: Ledger, es: seq<Event>, e: Event, lo: int, hi: int)
    requires n < |q.pend.relos| && Laid(q) && q.pend.relos[n].kind == BTF_KIND_VAR && FD_AREA <= q.end <= lo <= hi <= |w.blob|
    requires InPlace(w, l, es) && Below(l, |es|) && w2.stack == w.stack
    requires Touches(w.blob, w2.blob, q.pend.relos[n], InsnAt(q, n), NO_SLOT, lo, hi)
    ensures InPlace(w2, Perform(l, SearchFor(q.pend.relos[n]), |es|), es + [e])
  {
    hide Laid, Touches, InPlace, Perform, Below;
    var r := q.pend.relos[n];
    LaidInsn(q, n);
    PerformSearch(l, r, |es|);
    TouchedFrame(w.blob, w2.blob, r, InsnAt(q, n), NO_SLOT, lo, hi);
    SameSize(w.blob, w2.blob, r, InsnAt(q, n), NO_SLOT, lo, hi);
    OtherPlaced(w, w2, l, Perform(l, SearchFor(r), |es|), es, e);
  }

  lemma TypelessNew(q: Load, n: nat, ks: seq<Ksym>, b: Bytes, room: int, bytes: Bytes, es: seq<Event>)
    requires n < |q.pend.relos| && q.pend.relos[n].kind == BTF_KIND_VAR && q.pend.relos[n].isTypeless
    requires FirstUse(q.pend.relos, n) == n && InRange(b, InsnAt(q, n), 2 * INSN_SZ)
    requires |bytes| == 8 && InRange(b, room, 8)
    requires var k := q.k0 + |Sought(q.pend.relos, n)|; k < |es| && es[k].Lookup? && es[k].address == FromLittleEndian(bytes)
    ensures DoneAt(q, n, ks, AddressBlob(b, InsnAt(q, n), room, bytes), es)
  {
    hide Get, AddressBlob, Sought, FirstUse, FromLittleEndian;
    AddressBlobIs(b, q.pend.relos[n], InsnAt(q, n), room, bytes);
  }

  lemma AddressTouches(b: Bytes, r: Relo, insn: int, room: int, bytes: Bytes, lo: int, hi: int)
    requires r.kind == BTF_KIND_VAR && InRange(b, insn, 2 * INSN_SZ) && lo <= room && room + |bytes| <= hi
      && InRange(b, room, |bytes|)
    ensures Touches(b, AddressBlob(b, insn, room, bytes), r, insn, NO_SLOT, lo, hi)
  {
    hide Put, LoadBlob64, LoadNum, Patches;
    var b1 := Put(b, room, bytes);
    var v := LoadNum(b1, room, 8);
    LoadBlobIs(b1, r, insn, U64(v), U64(U64(v) / TWO32));
    forall i | 0 <= i < |b| && !(room <= i < room + |bytes|) ensures b1[i] == b[i] {
      PutByte(b, room, bytes, i);
    }
  }

  // The name and the kind are the kernel's to see.
  lemma NameRead(w: World, d: Bytes, d2: Bytes, lo: int, name: int, text: Bytes)
    requires NameIn(d2, lo, name, text) && d2 <= d && |w.blob| == |d| && 0 <= lo <= |d| && w.blob[lo..] == d[lo..]
    ensures InRange(w.blob, name, |text| + 1) && BlobSlice(w, name, |text| + 1) == text + [0]
  {
    var n := |text| + 1;
    Slice(d2, d, name, n);
    assert w.blob[name..name + n] == w.blob[lo..][name - lo..name - lo + n] == d[lo..][name - lo..name - lo
      + n] == d[name..name + n];
  }

  // A request's answer, and whether the run goes on.
  lemma AnswerGiven(env: Env, m: M, r: Relo, x: Spots, l: Ledger, es: seq<Event>, ctx: Bytes)
    requires BlobSlice(m.w, x.name, |r.name| + 1) == r.name + [0] && (r.kind == BTF_KIND_VAR || r.kind == BTF_KIND_FUNC)
    ensures var e, c := AnswerOf(env, m, r, x), SearchFor(r);
      Given(env, c, l, es, ctx, e) && !e.Close? && (e.Find? <==> r.kind == BTF_KIND_FUNC || !r.isTypeless)
      && (Fails(c, e) <==> if e.Find? then e.ret < 0 && !r.isWeak else e.ret < 0 && e.ret != -ENOENT)
      && (Succeeds(c, e) <==> !Fails(c, e)) && e.ret == env.any(m.w.calls)
  {
  }

  // Where a first use's pieces are.
  lemma FirstPlaced(q: Load, n: nat, g: Gen, g': Gen, main: seq<Group>, logs: seq<Group>, x: Spots, b: Bytes)
    requires Laid(q) && n < |q.pend.relos| && g.Live? && g'.Live? && Counted(g) && q.end <= |g.data| && |g'.data| <= |b|
    requires Relocates(g, g', q.pend.relos[n], InsnAt(q, n), main, logs, x)
      && FindKsym(g.ksyms, q.pend.relos[n].name) == |g.ksyms|
    ensures RoomFor(b, q.pend.relos[n], InsnAt(q, n), x)
  {
    hide Prints, FirstGroups, CopyGroups, FindKsym, SlotAdded, Counted, Relocates, Laid;
    var r := q.pend.relos[n];
    FirstEntry(g, g', r, InsnAt(q, n), main, logs, x);
    LaidInsn(q, n);
    LaidEnd(q);
    if r.kind == BTF_KIND_FUNC {
      SlotPosition(q, g, g', x.idx);
    }
  }

  // The outcome of running groups: the relocations go on, or the last request failed.
  ghost predicate MidOutcome(env: Env, q: Load, n: nat, g: Gen, out: Out, d: Bytes, ctx: Bytes, cs: seq<Request>) {
    match out
    case Next(m) => Mid(env, q, n, g, m.w, d, ctx, cs)
    case Err(m) => |m.w.blob| == |d| && exists j | 0 <= j < |cs| :: FailedAt(env, m, ctx, cs, j)
  }

  lemma FirstFails(env: Env, q: Load, n: nat, g: Gen, g': Gen, m: M, m2: M, main: seq<Group>, logs: seq<Group>, x: Spots,
                   b2: Bytes, d: Bytes, ctx: Bytes, cs: seq<Request>)
    requires Mid(env, q, n, g, m.w, d, ctx, cs) && n < |q.pend.relos| && g'.Live? && g'.data <= d
    requires Relocates(g, g', q.pend.relos[n], InsnAt(q, n), main, logs, x) && !Known(q.pend.relos, n)
    requires var c, e := SearchFor(q.pend.relos[n]), AnswerOf(env, m, q.pend.relos[n], x);
      Given(env, c, LedgerAfter(cs), Calls(m.w.trace), ctx, e) && Fails(c, e) && !e.Close? && m2.r7 == Num(e.ret)
      && Moved(m, m2, [e], b2)
    requires b2 == m.w.blob
      || (q.pend.relos[n].kind == BTF_KIND_VAR && q.pend.relos[n].isTypeless
        && b2 == Put(m.w.blob, x.room, Fetched(env, m.w.calls, 8)))
    ensures |m2.w.blob| == |d| && FailedAt(env, m2, ctx, cs + [SearchFor(q.pend.relos[n])], |cs|)
  {
    hide Mid, Given, LedgerAfter, Calls, Tracks, Relocates, FirstGroups, SearchFor, Fails, AnswerOf, Prints, NameIn, Known;
    hide FindKsym, Counted, SymbolsOf, KeptData, FailedAt, SlotAdded, Put, Fetched;
    Parts(env, q, n, g, m.w, d, ctx, cs);
    KnownEntry(q, n, g.ksyms);
    FirstEntry(g, g', q.pend.relos[n], InsnAt(q, n), main, logs, x);
    var c, e := SearchFor(q.pend.relos[n]), AnswerOf(env, m, q.pend.relos[n], x);
    NotLoad(q.pend.relos[n]);
    if b2 != m.w.blob {
      PutBetween(m.w.blob, x.room, Fetched(env, m.w.calls, 8), |g.data|, |g'.data|);
    }
    Fail(env, g, |g'.data|, c, m, m2, e, d, ctx, cs);
  }

  lemma NotLoad(r: Relo)
    ensures !SearchFor(r).Do?
  {
  }

  lemma PutBetween(b: Bytes, off: int, bs: Bytes, lo: int, hi: int)
    requires 0 <= lo <= off && off + |bs| <= hi <= |b|
    ensures Put(b, off, bs)[..lo] == b[..lo] && Put(b, off, bs)[hi..] == b[hi..]
  {
  }

  // What a first use stores, by kind.
  lemma FirstStored(env: Env, q: Load, n: nat, g: Gen, g': Gen, m: M, w2: World, main: seq<Group>, logs: seq<Group>, x: Spots,
                    d: Bytes, ctx: Bytes, cs: seq<Request>) returns (slot: int)
    requires Mid(env, q, n, g, m.w, d, ctx, cs) && Laid(q) && n < |q.pend.relos| && g'.Live? && g'.data <= d
    requires Relocates(g, g', q.pend.relos[n], InsnAt(q, n), main, logs, x) && !Known(q.pend.relos, n)
    requires w2.stack == m.w.stack && w2.blob == FirstBlob(env, m, q.pend.relos[n], InsnAt(q, n), x)
    ensures var l, e := LedgerAfter(cs), AnswerOf(env, m, q.pend.relos[n], x);
      g.Live? && Stored(q, n, g, g', l, Perform(l, SearchFor(q.pend.relos[n]), |cs|), Calls(m.w.trace) + [e],
        m.w.blob, w2, slot, x)
  {
    hide Mid, LedgerAfter, Calls, Tracks, Relocates, FirstGroups, SearchFor, Prints, NameIn, Known, Stored, Perform, Laid;
    hide FindKsym, Counted, SymbolsOf, KeptData, SlotAdded, Fetched, FunctionBlob, AddressBlob, VariableBlob,
      Touches, DoneAt, Get;
    hide Sought, FirstUse;
    Parts(env, q, n, g, m.w, d, ctx, cs);
    KnownEntry(q, n, g.ksyms);
    FirstEntry(g, g', q.pend.relos[n], InsnAt(q, n), main, logs, x);
    LaidInsn(q, n);
    Placing(env, g, m.w, d, ctx, cs);
    var r, e, ret := q.pend.relos[n], AnswerOf(env, m, q.pend.relos[n], x), env.any(m.w.calls);
    var es := Calls(m.w.trace);
    if r.kind == BTF_KIND_FUNC {
      slot := FdSlot(x.idx);
      FunctionStored(env, q, n, g, g', m, w2, main, logs, x, e, ret, d, ctx, cs);
    } else {
      slot := NO_SLOT;
      if r.isTypeless {
        AddressTouches(m.w.blob, r, InsnAt(q, n), x.room, Fetched(env, m.w.calls, 8), |g.data|, |g'.data|);
        TypelessNew(q, n, g'.ksyms, m.w.blob, x.room, Fetched(env, m.w.calls, 8), es + [e]);
      } else {
        VariableBlobIs(m.w.blob, r, InsnAt(q, n), ret);
        TouchesMore(m.w.blob, w2.blob, r, InsnAt(q, n), NO_SLOT, |g.data|, |g'.data|);
        VariableNew(q, n, g'.ksyms, m.w.blob, ret, es + [e]);
      }
      PlainStored(env, q, n, g, g', m, w2, main, logs, x, e, d, ctx, cs);
    }
  }

  lemma FirstStep(env: Env, q: Load, n: nat, g: Gen, g': Gen, m: M, main: seq<Group>, logs: seq<Group>, x: Spots,
                  d: Bytes, ctx: Bytes, cs: seq<Request>)
    requires Mid(env, q, n, g, m.w, d, ctx, cs) && Laid(q) && n < |q.pend.relos| && g'.Live? && g'.data <= d && Counted(g')
    requires Relocates(g, g', q.pend.relos[n], InsnAt(q, n), main, logs, x) && !Known(q.pend.relos, n)
    ensures var out := DenAll(env, main, m);
      MidOutcome(env, q, n + 1, g', out, d, ctx, cs + [SearchFor(q.pend.relos[n])])
      && (out.Next? ==> out.m.r8 == BlobPtr(InsnAt(q, n)))
  {
    hide Mid, Given, LedgerAfter, Calls, Tracks, Relocates, FirstGroups, SearchFor, Succeeds, Fails, AnswerOf,
      Prints, NameIn, Known;
    hide FindKsym, Counted, SymbolsOf, KeptData, SlotAdded, Stored, Perform, DenAll, FirstBlob, FailedAt, Laid, Put, Fetched;
    hide RoomFor;
    Parts(env, q, n, g, m.w, d, ctx, cs);
    KnownEntry(q, n, g.ksyms);
    FirstEntry(g, g', q.pend.relos[n], InsnAt(q, n), main, logs, x);
    FirstPlaced(q, n, g, g', main, logs, x, m.w.blob);
    NameRead(m.w, d, g'.data, |g.data|, x.name, q.pend.relos[n].name);
    var r, insn, l, es := q.pend.relos[n], InsnAt(q, n), LedgerAfter(cs), Calls(m.w.trace);
    AnswerGiven(env, m, r, x, l, es, ctx);
    FirstRun(env, m, r, insn, x);
    var out := DenAll(env, main, m);
    var c, e := SearchFor(r), AnswerOf(env, m, r, x);
    if out.Next? {
      var slot := FirstStored(env, q, n, g, g', m, out.m.w, main, logs, x, d, ctx, cs);
      FirstMid(env, q, n, g, g', m, out.m, main, logs, x, e, slot, d, ctx, cs);
    } else {
      FirstFails(env, q, n, g, g', m, out.m, main, logs, x, out.m.w.blob, d, ctx, cs);
      assert |cs| < |cs + [c]|;
    }
  }

  // Both kinds of search in one.
  lemma FirstRun(env: Env, m: M, r: Relo, insn: int, x: Spots)
    requires m.w.ok && RoomFor(m.w.blob, r, insn, x) && (r.kind == BTF_KIND_VAR || r.kind == BTF_KIND_FUNC)
    ensures var o, e := DenAll(env, FirstGroups(r, insn, x), m), AnswerOf(env, m, r, x);
      (o.Err? <==> if e.Find? then e.ret < 0 && !r.isWeak else e.ret < 0 && e.ret != -ENOENT)
      && if o.Err? then o.m.r7 == Num(e.ret) && Moved(m, o.m, [e], o.m.w.blob)
           && (o.m.w.blob == m.w.blob
               || (r.kind == BTF_KIND_VAR && r.isTypeless && o.m.w.blob == Put(m.w.blob, x.room, Fetched(env, m.w.calls, 8))))
         else o.m.r8 == BlobPtr(insn) && Moved(m, o.m, [e], FirstBlob(env, m, r, insn, x))
  {
    hide DenAll, FirstGroups, FirstBlob, Put, Fetched;
    if r.kind == BTF_KIND_FUNC || !r.isTypeless {
      TypedRun(env, m, r, insn, x);
    } else {
      TypelessRun(env, m, r, insn, x);
    }
  }

  // The number of helper calls does not matter.
  lemma MidCalls(env: Env, q: Load, n: nat, g: Gen, w: World, w2: World, d: Bytes, ctx: Bytes, cs: seq<Request>)
    requires Mid(env, q, n, g, w, d, ctx, cs) && w2 == w.(calls := w2.calls)
    ensures Mid(env, q, n, g, w2, d, ctx, cs)
  {
    hide Counted, SymbolsOf, SlotsIn, Held, Attached, KeptData, DoneAt, Calls, LedgerAfter, Tracks;
    Parts(env, q, n, g, w, d, ctx, cs);
    TracksMoved(env, g, g, w, w2, d, ctx, cs);
  }

  // A repeated use.
  lemma CopyStep(env: Env, q: Load, n: nat, g: Gen, g': Gen, m: M, main: seq<Group>, logs: seq<Group>, x: Spots,
                 d: Bytes, ctx: Bytes, cs: seq<Request>)
    requires Mid(env, q, n, g, m.w, d, ctx, cs) && Laid(q) && n < |q.pend.relos| && g'.Live? && g'.data <= d && Counted(g')
    requires Relocates(g, g', q.pend.relos[n], InsnAt(q, n), main, logs, x) && Known(q.pend.relos, n)
    ensures var out := DenAll(env, main, m);
      out.Next? && Mid(env, q, n + 1, g', out.m.w, d, ctx, cs) && out.m.r8 == BlobPtr(InsnAt(q, n))
  {
    hide Mid, Relocates, CopyGroups, Prints, NameIn, Known, FindKsym, Counted, SymbolsOf, KeptData, SlotAdded,
      DenAll, Laid, FirstUse;
    hide CopyBlob, EntryFor, Tracks;
    Parts(env, q, n, g, m.w, d, ctx, cs);
    KnownEntry(q, n, g.ksyms);
    var r, f := q.pend.relos[n], FirstUse(q.pend.relos, n);
    LaidInsn(q, n);
    LaidInsn(q, f);
    KnownGroups(q, g, g', r, f, InsnAt(q, n), main, logs, x);
    CopyRun(env, m, r, InsnAt(q, n), InsnAt(q, f));
    CopyMid(env, q, n, g, g', m, DenAll(env, main, m).m, main, logs, x, d, ctx, cs);
  }

  lemma KnownGroups(q: Load, g: Gen, g': Gen, r: Relo, f: nat, insn: int, main: seq<Group>, logs: seq<Group>, x: Spots)
    requires g.Live? && g'.Live? && Relocates(g, g', r, insn, main, logs, x) && f < |q.pend.relos|
    requires var i := FindKsym(g.ksyms, r.name); i < |g.ksyms| && EntryFor(g.ksyms[i], q.pend.relos[f], q.at.insns)
    ensures main == CopyGroups(r, insn, InsnAt(q, f)) && Prints(logs, |g'.data|) && g'.groups == g.groups + main + logs
  {
    hide Prints, FindKsym, CopyGroups;
  }

  // --- all relocations

  // What relocation n asks for.
  function NextSearch(rs: seq<Relo>, n: nat): seq<Request>
    requires n < |rs|
  {
    if Known(rs, n) then [] else [SearchFor(rs[n])]
  }

  lemma ReloStep(env: Env, cfg: Config, q: Load, n: nat, g: Gen, m: M, d: Bytes, ctx: Bytes, cs: seq<Request>)
    returns (more: seq<Group>)
    requires Mid(env, q, n, g, m.w, d, ctx, cs) && Laid(q) && n < |q.pend.relos|
    requires var g' := EmitRelo(cfg, g, q.pend.relos[n], q.at.insns); g'.Live? && g'.data <= d
    ensures var g' := EmitRelo(cfg, g, q.pend.relos[n], q.at.insns);
      g.Live? && g'.groups == g.groups + more && MidOutcome(env, q, n + 1, g', DenAll(env, more, m), d, ctx,
        cs + NextSearch(q.pend.relos, n))
  {
    hide Mid, Relocates, FirstGroups, CopyGroups, Prints, Known, FindKsym, Counted, KeptData, SymbolsOf, DenAll, Laid, FailedAt;
    hide EmitRelo, SearchFor, Tracks, EntryFor, FirstUse;
    Parts(env, q, n, g, m.w, d, ctx, cs);
    KnownEntry(q, n, g.ksyms);
    LaidInsn(q, n);
    var r, g' := q.pend.relos[n], EmitRelo(cfg, g, q.pend.relos[n], q.at.insns);
    var main, logs, x := ReloAt(cfg, g, r, q.at.insns);
    more := main + logs;
    assert g.groups + main + logs == g.groups + more;
    DenAppend(env, main, logs, m);
    var out := DenAll(env, main, m);
    var cs2 := cs + NextSearch(q.pend.relos, n);
    if Known(q.pend.relos, n) {
      assert cs2 == cs;
      KnownGroups(q, g, g', r, FirstUse(q.pend.relos, n), InsnAt(q, n), main, logs, x);
      CopyStep(env, q, n, g, g', m, main, logs, x, d, ctx, cs);
    } else {
      FirstEntry(g, g', r, InsnAt(q, n), main, logs, x);
      FirstStep(env, q, n, g, g', m, main, logs, x, d, ctx, cs);
    }
    if out.Next? {
      Parts(env, q, n + 1, g', out.m.w, d, ctx, cs2);
      PrintsFit(logs, |g'.data|, |d|);
      PrintsRun(env, out.m, logs, InsnAt(q, n));
      MidCalls(env, q, n + 1, g', out.m.w, DenAll(env, logs, out.m).m.w, d, ctx, cs2);
    }
  }

  lemma PrintsFit(logs: seq<Group>, a: int, b: int)
    requires Prints(logs, a) && a <= b
    ensures Prints(logs, b)
  {
  }

  lemma {:induction false} RelosSnoc(cfg: Config, g: Gen, rs: seq<Relo>, r: Relo, insns: int)
    ensures EmitRelos(cfg, g, rs + [r], insns) == EmitRelo(cfg, EmitRelos(cfg, g, rs, insns), r, insns)
    decreases |rs|
  {
    hide EmitRelo;
    if rs == [] {
      assert EmitRelos(cfg, g, [r], insns) == EmitRelos(cfg, EmitRelo(cfg, g, r, insns), [], insns);
    } else {
      assert (rs + [r])[0] == rs[0] && (rs + [r])[1..] == rs[1..] + [r];
      RelosSnoc(cfg, EmitRelo(cfg, g, rs[0], insns), rs[1..], r, insns);
    }
  }

  // FailedAt does not depend on the requests after the failing one.
  lemma FailedLater(env: Env, m: M, ctx: Bytes, cs: seq<Request>, more: seq<Request>, j: nat)
    requires j < |cs| && FailedAt(env, m, ctx, cs, j)
    ensures j < |cs + more| && FailedAt(env, m, ctx, cs + more, j)
  {
    hide Given, InPlace, Calls, Play, LedgerAfter, Answered, Succeeds, Fails;
    var cs2 := cs + more;
    assert cs2[..j] == cs[..j];
    forall i | 0 <= i < j ensures cs2[..i] == cs[..i] {
    }
  }

  lemma StillFailed(env: Env, q: Load, n: nat, g: Gen, g': Gen, out: Out, d: Bytes, ctx: Bytes, cs: seq<Request>,
    more: seq<Request>)
    requires out.Err? && MidOutcome(env, q, n, g, out, d, ctx, cs)
    ensures MidOutcome(env, q, n + 1, g', out, d, ctx, cs + more)
  {
    hide FailedAt;
    var j :| 0 <= j < |cs| && FailedAt(env, out.m, ctx, cs, j);
    FailedLater(env, out.m, ctx, cs, more, j);
  }

  lemma {:induction false} RelosRun(env: Env, cfg: Config, q: Load, n: nat, g: Gen, m: M, d: Bytes, ctx: Bytes,
    cs: seq<Request>)
    returns (more: seq<Group>)
    requires Mid(env, q, 0, g, m.w, d, ctx, cs) && Laid(q) && n <= |q.pend.relos|
    requires var g' := EmitRelos(cfg, g, q.pend.relos[..n], q.at.insns); g'.Live? && g'.data <= d
    ensures var g' := EmitRelos(cfg, g, q.pend.relos[..n], q.at.insns);
      g.Live? && g'.groups == g.groups + more
      && MidOutcome(env, q, n, g', DenAll(env, more, m), d, ctx, cs + Sought(q.pend.relos, n))
    decreases n
  {
    hide Mid, DenAll, Laid, FailedAt, EmitRelo, Known, SearchFor;
    var rs, insns := q.pend.relos, q.at.insns;
    if n == 0 {
      more := [];
      Parts(env, q, 0, g, m.w, d, ctx, cs);
      DenNone(env, m);
      assert cs + [] == cs && g.groups + [] == g.groups;
      assert rs[..0] == [];
    } else {
      var i := n - 1;
      var g1 := EmitRelos(cfg, g, rs[..i], insns);
      RelosSnoc(cfg, g, rs[..i], rs[i], insns);
      assert rs[..i] + [rs[i]] == rs[..n];
      var g2 := EmitRelo(cfg, g1, rs[i], insns);
      PrefixTrans(g1.data, g2.data, d);
      var head := RelosRun(env, cfg, q, i, g, m, d, ctx, cs);
      var cs1, out := cs + Sought(rs, i), DenAll(env, head, m);
      assert cs1 + NextSearch(rs, i) == cs + Sought(rs, n);
      if out.Next? {
        var tail := ReloStep(env, cfg, q, i, g1, out.m, d, ctx, cs1);
        more := head + tail;
        assert g.groups + head + tail == g.groups + more;
        DenAppend(env, head, tail, m);
      } else {
        var tail := g2.groups[|g1.groups|..];
        more := head + tail;
        assert g2.groups == g1.groups + tail;
        assert g.groups + head + tail == g.groups + more;
        DenAppend(env, head, tail, m);
        StillFailed(env, q, i, g1, g2, out, d, ctx, cs1, NextSearch(rs, i));
      }
    }
  }
}
