/** Slots of kernel functions in the loader's descriptor array: distinct within a program, apart from
    the map slots and from all other data, and given back after each program. */
module LoaderKfunc {
  import opened LoaderBytes
  import opened LoaderMachine
  import opened LoaderIR
  import opened LoaderGen

  // Entries that hold one of the reserved slots.
  function Reserved(ks: seq<Ksym>): nat {
    if ks == [] then 0 else
    var n := |ks| - 1;
    Reserved(ks[..n]) + (if ks[n].kind == BTF_KIND_FUNC && ks[n].off < MAX_FD_ARRAY_SZ then 1 else 0)
  }

  // A slot behind the map slots: one of the reserved ones in use, or a piece of the blob of its own.
  predicate SlotOk(off: int, nrFdArray: int, pieces: seq<Piece>) {
    (MAX_USED_MAPS <= off < MAX_USED_MAPS + nrFdArray)
    || (MAX_FD_ARRAY_SZ <= off && Piece(FdSlot(off), 4) in pieces)
  }

  ghost predicate SlotsOk(ks: seq<Ksym>, nrFdArray: int, pieces: seq<Piece>) {
    nrFdArray == Reserved(ks) <= MAX_KFUNC_DESCS && (forall k | k in ks :: k.ref >= 1)
    && (forall i, j | 0 <= i < j < |ks| :: ks[i].name != ks[j].name)
    && (forall i | 0 <= i < |ks| && ks[i].kind == BTF_KIND_FUNC :: SlotOk(ks[i].off, nrFdArray, pieces))
    && (forall i, j | 0 <= i < j < |ks| && ks[i].kind == BTF_KIND_FUNC && ks[j].kind == BTF_KIND_FUNC :: ks[i].off != ks[j].off)
  }

  // Between two symbols of a program.
  ghost predicate KfuncInv(g: Gen) {
    g.Live? ==> SlotsOk(g.ksyms, g.nrFdArray, g.pieces)
  }

  // A new kfunc gets a slot that nothing else uses; past the reserved ones it is the end of the
  // blob, and the slot's index leads back to exactly that place.
  lemma FreshSlot(cfg: Config, g: Gen)
    requires g.Live? && |g.data| % 8 == 0 && |g.data| >= FdSlot(MAX_FD_ARRAY_SZ) && g.nrFdArray <= MAX_KFUNC_DESCS
    requires AddKfuncFd(cfg, g).0.Live?
    ensures var (g', idx) := AddKfuncFd(cfg, g);
      if g.nrFdArray == MAX_KFUNC_DESCS then
        FdSlot(idx) == |g.data| && |g'.data| == |g.data| + 8 && g'.nrFdArray == g.nrFdArray && idx >= MAX_FD_ARRAY_SZ
        && g'.pieces == g.pieces + [Piece(FdSlot(idx), 4)]
      else
        idx == MAX_USED_MAPS + g.nrFdArray < MAX_FD_ARRAY_SZ && g'.nrFdArray == g.nrFdArray + 1
          && g' == g.(nrFdArray := g'.nrFdArray)
  {
  }

  lemma ReservedSnoc(ks: seq<Ksym>, k: Ksym)
    ensures Reserved(ks + [k]) == Reserved(ks) + (if k.kind == BTF_KIND_FUNC && k.off < MAX_FD_ARRAY_SZ then 1 else 0)
  {
    assert (ks + [k])[..|ks|] == ks;
  }

  // Changing an entry without touching its kind and slot.
  lemma {:induction false} ReservedSame(ks: seq<Ksym>, i: nat, k: Ksym)
    requires i < |ks| && k.kind == ks[i].kind
    requires k.kind != BTF_KIND_FUNC || k.off == ks[i].off
    ensures Reserved(ks[i := k]) == Reserved(ks)
    decreases |ks|
  {
    var n := |ks| - 1;
    if i == n {
      assert ks[i := k][..n] == ks[..n];
    } else {
      assert ks[i := k][..n] == ks[..n][i := k];
      ReservedSame(ks[..n], i, k);
    }
  }

  // Changing an entry without touching its name, kind and slot.
  lemma SlotsSame(ks: seq<Ksym>, i: nat, k: Ksym, nrFdArray: int, pieces: seq<Piece>)
    requires i < |ks| && SlotsOk(ks, nrFdArray, pieces) && k.name == ks[i].name && k.kind == ks[i].kind && k.ref >= 1
    requires k.kind != BTF_KIND_FUNC || k.off == ks[i].off
    ensures SlotsOk(ks[i := k], nrFdArray, pieces)
  {
    hide SlotOk, Reserved;
    ReservedSame(ks, i, k);
    var ks2 := ks[i := k];
    forall x | x in ks2 ensures x.ref >= 1 {
      var j :| 0 <= j < |ks2| && ks2[j] == x;
      if j != i { assert ks[j] in ks; }
    }
  }

  // A new symbol that takes no slot.
  lemma SlotsSnoc(ks: seq<Ksym>, k: Ksym, nrFdArray: int, pieces: seq<Piece>)
    requires SlotsOk(ks, nrFdArray, pieces) && k.kind != BTF_KIND_FUNC && k.ref >= 1
    requires forall j | 0 <= j < |ks| :: ks[j].name != k.name
    ensures SlotsOk(ks + [k], nrFdArray, pieces)
  {
    hide SlotOk, Reserved;
    ReservedSnoc(ks, k);
  }

  // Another reference to a known symbol keeps every slot; a new symbol of another kind takes none.
  lemma RefKeeps(ks: seq<Ksym>, r: Relo, nrFdArray: int, pieces: seq<Piece>)
    requires SlotsOk(ks, nrFdArray, pieces)
    requires r.kind != BTF_KIND_FUNC || FindKsym(ks, r.name) < |ks|
    ensures SlotsOk(RefKsym(ks, r).0, nrFdArray, pieces)
  {
    hide FindKsym, SlotsOk;
    var i := FindKsym(ks, r.name);
    if i < |ks| {
      SlotsSame(ks, i, ks[i].(ref := ks[i].ref + 1), nrFdArray, pieces);
    } else {
      SlotsSnoc(ks, Ksym(r.name, r.kind, 1, 0, 0), nrFdArray, pieces);
    }
  }

  lemma SetKeeps(ks: seq<Ksym>, i: nat, off: int, insn: int, nrFdArray: int, pieces: seq<Piece>)
    requires i < |ks| && SlotsOk(ks, nrFdArray, pieces) && (ks[i].kind != BTF_KIND_FUNC || off == ks[i].off)
    ensures SlotsOk(ks[i := ks[i].(off := off, insn := insn)], nrFdArray, pieces)
  {
    assert ks[i] in ks;
    SlotsSame(ks, i, ks[i].(off := off, insn := insn), nrFdArray, pieces);
  }

  lemma PiecesGrow(ks: seq<Ksym>, nrFdArray: int, pieces: seq<Piece>, pieces2: seq<Piece>)
    requires SlotsOk(ks, nrFdArray, pieces) && pieces <= pieces2
    ensures SlotsOk(ks, nrFdArray, pieces2)
  {
  }

  // A new kfunc, entry i of ks, with its fresh slot.
  lemma KfuncKeeps(cfg: Config, g: Gen, ks: seq<Ksym>, name: Bytes, insn: int)
    requires g.Live? && SlotsOk(ks, g.nrFdArray, g.pieces) && forall k | k in ks :: k.name != name
    requires |g.data| % 8 == 0 && |g.data| >= FdSlot(MAX_FD_ARRAY_SZ) && AddKfuncFd(cfg, g).0.Live?
    requires Tiled(g.pieces, |g.data|)
    ensures var (g', idx) := AddKfuncFd(cfg, g);
      SlotsOk(ks + [Ksym(name, BTF_KIND_FUNC, 1, idx, insn)], g'.nrFdArray, g'.pieces)
  {
    FreshSlot(cfg, g);
    var (g', idx) := AddKfuncFd(cfg, g);
    ReservedSnoc(ks, Ksym(name, BTF_KIND_FUNC, 1, idx, insn));
  }

  // --- over the symbols of a program

  // The descriptor area: map slots, then reserved slots.
  const FD_AREA_PIECE: Piece := Piece(FD_ARRAY, 4 * MAX_FD_ARRAY_SZ)

  // A well-placed generator whose blob holds at least the descriptor array, with good slots.
  ghost predicate Slotted(cfg: Config, g: Gen) {
    Wf(cfg, g)
    && (g.Live? ==> |g.data| >= FdSlot(MAX_FD_ARRAY_SZ) && g.pieces != [] && g.pieces[0] == FD_AREA_PIECE)
    && KfuncInv(g)
  }

  lemma GrownSlotted(cfg: Config, g: Gen, g': Gen)
    requires Slotted(cfg, g) && Grown(cfg, g, g')
    ensures Slotted(cfg, g')
  {
    hide Wf, SlotsOk;
    if g'.Live? {
      PiecesGrow(g.ksyms, g.nrFdArray, g.pieces, g'.pieces);
    }
  }

  // A state that differs only in its symbols.
  lemma SymbolsSlotted(cfg: Config, g: Gen, g': Gen)
    requires Slotted(cfg, g) && g.Live? && g'.Live? && g' == g.(ksyms := g'.ksyms) && SlotsOk(g'.ksyms, g.nrFdArray, g.pieces)
    ensures Slotted(cfg, g')
  {
    hide SlotsOk, Placed, Insns;
  }

  lemma RefSlotted(cfg: Config, g: Gen, r: Relo)
    requires g.Live? && Slotted(cfg, g) && (r.kind != BTF_KIND_FUNC || FindKsym(g.ksyms, r.name) < |g.ksyms|)
    ensures Slotted(cfg, WithKsyms(cfg, g, RefKsym(g.ksyms, r).0))
  {
    hide SlotsOk, Wf, RefKsym;
    RefKeeps(g.ksyms, r, g.nrFdArray, g.pieces);
    SymbolsSlotted(cfg, g, WithKsyms(cfg, g, RefKsym(g.ksyms, r).0));
  }

  lemma TypelessSlotted(cfg: Config, g: Gen, r: Relo, insn: int)
    requires Slotted(cfg, g) && r.kind == BTF_KIND_VAR
    ensures Slotted(cfg, ReloTypeless(cfg, g, r, insn))
  {
    hide Slotted, Emit, EmitLookupName, KsymLog, Wf, Extends, SlotsOk;
    if g.Live? {
      var (ks, i) := RefKsym(g.ksyms, r);
      var g0 := WithKsyms(cfg, g, ks);
      RefSlotted(cfg, g, r);
      RefOk(cfg, g, r);
      if ks[i].ref > 1 {
        var a := Emit(cfg, g0, Blob2Blob(insn + INSN_IMM, W, ks[i].insn + INSN_IMM));
        var b := Emit(cfg, a, Blob2Blob(insn + INSN_SZ + INSN_IMM, W, ks[i].insn + INSN_SZ + INSN_IMM));
        GrownSlotted(cfg, g0, a);
        GrownSlotted(cfg, a, b);
        GrownSlotted(cfg, b, KsymLog(cfg, b, r, ks[i].ref));
      } else {
        var g1 := WithKsym(cfg, g0, i, 1, insn);
        NewVarSlotted(cfg, g, g0, g1, r, 1, insn);
        var g2 := EmitLookupName(cfg, g1, r);
        var a := Emit(cfg, g2, CheckErrUnlessEnoent);
        var b := Emit(cfg, a, StoreAddr);
        GrownSlotted(cfg, g1, g2);
        GrownSlotted(cfg, g2, a);
        GrownSlotted(cfg, a, b);
        GrownSlotted(cfg, b, KsymLog(cfg, b, r, 1));
      }
    } else {
      assert Slotted(cfg, Dead) by { DeadSlotted(cfg); }
    }
  }

  lemma DeadSlotted(cfg: Config)
    ensures Slotted(cfg, Dead)
  {
  }

  // The first reference to a variable fills in its entry.
  lemma NewVarSlotted(cfg: Config, g: Gen, g0: Gen, g1: Gen, r: Relo, off: int, insn: int)
    requires g.Live? && r.kind == BTF_KIND_VAR && Slotted(cfg, g0) && g0.Live?
    requires var (ks, i) := RefKsym(g.ksyms, r);
      g0 == g.(ksyms := ks) && ks[i].kind == BTF_KIND_VAR && g1 == WithKsym(cfg, g0, i, off, insn)
    ensures Slotted(cfg, g1)
  {
    hide SlotsOk, Wf, RefKsym;
    var (ks, i) := RefKsym(g.ksyms, r);
    SetKeeps(ks, i, off, insn, g.nrFdArray, g.pieces);
    SymbolsSlotted(cfg, g0, g1);
  }

  // A known symbol has more than one reference now, a new one exactly one.
  lemma RefCount(g: Gen, r: Relo)
    requires g.Live? && SlotsOk(g.ksyms, g.nrFdArray, g.pieces)
    ensures var (ks, i) := RefKsym(g.ksyms, r);
      (ks[i].ref > 1 <==> FindKsym(g.ksyms, r.name) < |g.ksyms|)
      && (ks[i].ref <= 1 ==> i == |g.ksyms| && ks == g.ksyms + [Ksym(r.name, r.kind, 1, 0, 0)])
  {
  }

  lemma KsymSlotted(cfg: Config, g: Gen, r: Relo, insn: int)
    requires Slotted(cfg, g) && r.kind == BTF_KIND_VAR
    ensures Slotted(cfg, ReloKsymBtf(cfg, g, r, insn))
  {
    hide Slotted, Emit, EmitFindByName, KsymLog, Wf, Extends, SlotsOk;
    if g.Live? {
      var (ks, i) := RefKsym(g.ksyms, r);
      var g0 := WithKsyms(cfg, g, ks);
      RefSlotted(cfg, g, r);
      RefOk(cfg, g, r);
      if ks[i].ref > 1 {
        var a := Emit(cfg, g0, Blob2Blob(insn + INSN_IMM, W, ks[i].insn + INSN_IMM));
        var b := Emit(cfg, a, CopyKsym(insn + INSN_SZ + INSN_IMM, ks[i].insn + INSN_SZ + INSN_IMM));
        GrownSlotted(cfg, g0, a);
        GrownSlotted(cfg, a, b);
        GrownSlotted(cfg, b, KsymLog(cfg, b, r, ks[i].ref));
      } else {
        var g1 := WithKsym(cfg, g0, i, ks[i].off, insn);
        NewVarSlotted(cfg, g, g0, g1, r, ks[i].off, insn);
        var g2 := EmitFindByName(cfg, g1, r.name, r.kind);
        GrownSlotted(cfg, g1, g2);
        var g3 := if r.isWeak then g2 else Emit(cfg, g2, CheckErr);
        if !r.isWeak {
          GrownSlotted(cfg, g2, g3);
        }
        var g4 := Emit(cfg, g3, StoreKsym);
        GrownSlotted(cfg, g3, g4);
        GrownSlotted(cfg, g4, KsymLog(cfg, g4, r, 1));
      }
    } else {
      DeadSlotted(cfg);
    }
  }

  lemma RefOk(cfg: Config, g: Gen, r: Relo)
    requires g.Live? && Slotted(cfg, g)
    ensures var (ks, i) := RefKsym(g.ksyms, r);
      (ks[i].ref > 1 <==> FindKsym(g.ksyms, r.name) < |g.ksyms|)
      && (ks[i].ref <= 1 ==> i == |g.ksyms| && ks == g.ksyms + [Ksym(r.name, r.kind, 1, 0, 0)])
  {
    hide RefKsym, SlotsOk, Wf;
    RefCount(g, r);
  }

  lemma KfuncSlotted(cfg: Config, g: Gen, r: Relo, insn: int)
    requires Slotted(cfg, g) && r.kind == BTF_KIND_FUNC
    ensures Slotted(cfg, ReloKfunc(cfg, g, r, insn))
  {
    hide Slotted, Emit, KfuncLog, Wf, Extends, SlotsOk, FirstKfunc;
    if g.Live? {
      var (ks, i) := RefKsym(g.ksyms, r);
      var g0 := WithKsyms(cfg, g, ks);
      RefOk(cfg, g, r);
      if ks[i].ref > 1 {
        RefSlotted(cfg, g, r);
        var a := Emit(cfg, g0, Blob2Blob(insn + INSN_IMM, W, ks[i].insn + INSN_IMM));
        var b := Emit(cfg, a, Blob2Blob(insn + INSN_OFF, H, ks[i].insn + INSN_OFF));
        GrownSlotted(cfg, g0, a);
        GrownSlotted(cfg, a, b);
        GrownSlotted(cfg, b, KfuncLog(cfg, b, r.name, ks[i].ref, ks[i].off));
      } else {
        FirstSlotted(cfg, g, r, insn);
      }
    } else {
      DeadSlotted(cfg);
    }
  }

  // A kfunc seen for the first time: its entry is complete once its slot is known.
  lemma FirstSlotted(cfg: Config, g: Gen, r: Relo, insn: int)
    requires g.Live? && Slotted(cfg, g) && r.kind == BTF_KIND_FUNC && FindKsym(g.ksyms, r.name) == |g.ksyms|
    ensures var ks := g.ksyms + [Ksym(r.name, r.kind, 1, 0, 0)];
      Slotted(cfg, FirstKfunc(cfg, WithKsyms(cfg, g, ks), r, |g.ksyms|, insn))
  {
    hide Emit, EmitFindByName, KfuncLog, Placed, Insns, SlotsOk, AddKfuncFd;
    var n := |g.ksyms|;
    var g0 := WithKsyms(cfg, g, g.ksyms + [Ksym(r.name, r.kind, 1, 0, 0)]);
    var g1 := EmitFindByName(cfg, g0, r.name, r.kind);
    var g2 := if r.isWeak then g1 else Emit(cfg, g1, CheckErr);
    var (g3, idx) := AddKfuncFd(cfg, g2);
    if g3.Live? && idx <= INT16_MAX {
      var g4 := WithKsym(cfg, g3, n, idx, insn);
      PiecesGrow(g.ksyms, g.nrFdArray, g.pieces, g2.pieces);
      assert forall k | k in g.ksyms :: k.name != r.name;
      KfuncKeeps(cfg, g2, g.ksyms, r.name, insn);
      assert g4.ksyms == g.ksyms + [Ksym(r.name, BTF_KIND_FUNC, 1, idx, insn)];
      var g5 := Emit(cfg, g4, StoreKfunc(idx, FdSlot(idx)));
      GrownSlotted(cfg, g4, g5);
      GrownSlotted(cfg, g5, KfuncLog(cfg, g5, r.name, 1, idx));
    }
  }

  lemma ReloSlotted(cfg: Config, g: Gen, r: Relo, insns: int)
    requires Slotted(cfg, g)
    ensures Slotted(cfg, EmitRelo(cfg, g, r, insns))
  {
    hide Slotted, Emit, ReloTypeless, ReloKsymBtf, ReloKfunc;
    var insn := insns + INSN_SZ * r.insnIdx;
    var g1 := Emit(cfg, g, LoadInsn(insn));
    GrownSlotted(cfg, g, g1);
    DeadSlotted(cfg);
    if r.kind == BTF_KIND_VAR {
      TypelessSlotted(cfg, g1, r, insn);
      KsymSlotted(cfg, g1, r, insn);
    } else if r.kind == BTF_KIND_FUNC {
      KfuncSlotted(cfg, g1, r, insn);
    }
  }

  lemma {:induction false} RelosSlotted(cfg: Config, g: Gen, rs: seq<Relo>, insns: int)
    requires Slotted(cfg, g)
    ensures Slotted(cfg, EmitRelos(cfg, g, rs, insns))
    decreases |rs|
  {
    hide Slotted, EmitRelo;
    if rs != [] {
      ReloSlotted(cfg, g, rs[0], insns);
      RelosSlotted(cfg, EmitRelo(cfg, g, rs[0], insns), rs[1..], insns);
    }
  }

  // --- over all programs of a loader

  lemma {:induction false} ReservedCons(ks: seq<Ksym>)
    requires ks != []
    ensures Reserved(ks) == (if ks[0].kind == BTF_KIND_FUNC && ks[0].off < MAX_FD_ARRAY_SZ then 1 else 0) + Reserved(ks[1..])
    decreases |ks|
  {
    var n := |ks| - 1;
    if n > 0 {
      ReservedCons(ks[..n]);
      assert ks[1..][..n - 1] == ks[..n][1..];
    }
  }

  // cleanup_relos gives back one reserved slot per symbol that holds one.
  lemma {:induction false} GivenBack(cfg: Config, g: Gen, ks: seq<Ksym>)
    requires CleanupKsyms(cfg, g, ks).Live?
    ensures g.Live? && CleanupKsyms(cfg, g, ks).nrFdArray == g.nrFdArray - Reserved(ks)
    decreases |ks|
  {
    hide EmitCloseBlob;
    if ks != [] {
      ReservedCons(ks);
      GivenBack(cfg, CleanupKsym(cfg, g, ks[0]), ks[1..]);
    }
  }

  // The state in which a program's relocations have been emitted.
  function AfterRelos(cfg: Config, g: Gen, s: ProgSpec): Gen {
    if g.Dead? then Dead else
    var (g1, at) := AddProg(cfg, g, s, g.coreRelos);
    var g2 := EmitProgFields(cfg, EmitProgPointers(cfg, g1, at), at.attr);
    EmitRelos(cfg, EmitAttach(cfg, g2, at.attr), g.relos, at.insns)
  }

  // No symbols and no reserved slots in use between two programs.
  ghost predicate Settled(cfg: Config, g: Gen) {
    Slotted(cfg, g) && (g.Live? ==> g.ksyms == [] && g.nrFdArray == 0)
  }

  lemma AfterRelosSlotted(cfg: Config, g: Gen, s: ProgSpec)
    requires Settled(cfg, g)
    ensures Slotted(cfg, AfterRelos(cfg, g, s))
  {
    hide Slotted, EmitProgFields, EmitProgPointers, EmitAttach, EmitRelos, AddProg;
    if g.Live? {
      var (g1, at) := AddProg(cfg, g, s, g.coreRelos);
      DataExtends(cfg, g, g1);
      GrownSlotted(cfg, g, g1);
      var g2 := EmitProgPointers(cfg, g1, at);
      GrownSlotted(cfg, g1, g2);
      var g3 := EmitProgFields(cfg, g2, at.attr);
      GrownSlotted(cfg, g2, g3);
      var g4 := EmitAttach(cfg, g3, at.attr);
      GrownSlotted(cfg, g3, g4);
      RelosSlotted(cfg, g4, g.relos, at.insns);
    } else {
      DeadSlotted(cfg);
    }
  }

  lemma ProgSettled(cfg: Config, g: Gen, s: ProgSpec)
    requires Settled(cfg, g)
    ensures Settled(cfg, GenProgLoad(cfg, g, s))
  {
    hide Slotted, EmitProgFields, EmitProgPointers, EmitAttach, EmitRelos, AddProg, EmitProgLoad, Emit, EmitCloseBlob;
    DeadSlotted(cfg);
    if g.Live? {
      AfterRelosSlotted(cfg, g, s);
      var at := AddProg(cfg, g, s, g.coreRelos).1;
      var g4 := AfterRelos(cfg, g, s);
      var g5 := EmitProgLoad(cfg, g4, s, at.attr);
      GrownSlotted(cfg, g4, g5);
      var g6 := CleanupRelos(cfg, g5);
      CleanedSlotted(cfg, g5);
      var g7 := CloseAttach(cfg, g6, at.attr);
      OtherSlotted(cfg, g6, g7);
      var g8 := Emit(cfg, g7, CheckErr);
      GrownSlotted(cfg, g7, g8);
      OtherSlotted(cfg, g8, SaveProg(cfg, g8));
    }
  }

  lemma CleanedSlotted(cfg: Config, g: Gen)
    requires Slotted(cfg, g)
    ensures Settled(cfg, CleanupRelos(cfg, g))
  {
    hide Wf, CleanupKsyms;
    if g.Live? && CleanupKsyms(cfg, g, g.ksyms).Live? {
      GivenBack(cfg, g, g.ksyms);
    }
  }

  // A step that does not touch the symbols.
  lemma OtherSlotted(cfg: Config, g: Gen, g': Gen)
    requires Slotted(cfg, g) && Extends(cfg, g, g')
    requires g'.Live? ==> g'.ksyms == g.ksyms && g'.nrFdArray == g.nrFdArray
    ensures Slotted(cfg, g')
  {
    hide Wf, SlotsOk;
    if g'.Live? {
      PiecesGrow(g.ksyms, g.nrFdArray, g.pieces, g'.pieces);
    }
  }

  lemma SettledStays(cfg: Config, g: Gen, op: Op)
    requires Settled(cfg, g)
    ensures Settled(cfg, Apply(cfg, g, op))
  {
    hide Slotted, Emit, AddData, AddDebug, EmitDebugRet, EmitMapAttr, EmitCloseStack, GenProgLoad;
    if op.ProgLoad? {
      ProgSettled(cfg, g, op.prog);
    } else {
      OtherSlotted(cfg, g, Apply(cfg, g, op));
    }
  }

  // Between programs no symbol and no reserved slot is in use.
  lemma {:induction false} SettledAfter(cfg: Config, ops: seq<Op>)
    ensures Settled(cfg, ApplyAll(cfg, ops))
    decreases |ops|
  {
    hide Apply, Wf, SlotsOk;
    if ops == [] {
      InitSettled(cfg);
    } else {
      var n := |ops| - 1;
      SettledAfter(cfg, ops[..n]);
      SettledStays(cfg, ApplyAll(cfg, ops[..n]), ops[n]);
    }
  }

  // --- apart from everything else

  predicate Disjoint(p: Piece, q: Piece) {
    p.off + p.len <= q.off || q.off + q.len <= p.off
  }

  function SlotPiece(k: Ksym): Piece
    requires k.off >= 0
  {
    Piece(FdSlot(k.off), 4)
  }

  // A kernel function's slot lies behind the map slots and inside the blob; it is one of the reserved
  // ones in use or a piece of its own, and shares no byte with any other piece.
  predicate SlotApart(g: Gen, k: Ksym)
    requires g.Live? && g.pieces != []
  {
    MAX_USED_MAPS <= k.off && FdSlot(k.off) + 4 <= |g.data|
    && (if k.off < MAX_FD_ARRAY_SZ then k.off < MAX_USED_MAPS + g.nrFdArray else SlotPiece(k) in g.pieces)
    && forall p | 0 <= p < |g.pieces| ::
         Disjoint(g.pieces[p], SlotPiece(k)) || (if k.off < MAX_FD_ARRAY_SZ then p == 0 else g.pieces[p] == SlotPiece(k))
  }

  // The descriptor area comes first, all pieces lie one behind the other, and each kernel function
  // has a slot of its own.
  ghost predicate SlotsApart(g: Gen)
    requires g.Live?
  {
    g.pieces != [] && g.pieces[0] == FD_AREA_PIECE && Tiled(g.pieces, |g.data|)
    && (forall k | k in g.ksyms && k.kind == BTF_KIND_FUNC :: SlotApart(g, k))
    && forall i, j | 0 <= i < j < |g.ksyms| && g.ksyms[i].kind == BTF_KIND_FUNC && g.ksyms[j].kind == BTF_KIND_FUNC ::
         g.ksyms[i].off >= 0 && g.ksyms[j].off >= 0 && Disjoint(SlotPiece(g.ksyms[i]), SlotPiece(g.ksyms[j]))
  }

  lemma OneApart(g: Gen, k: Ksym)
    requires g.Live? && g.pieces != [] && g.pieces[0] == FD_AREA_PIECE && Tiled(g.pieces, |g.data|)
    requires g.nrFdArray <= MAX_KFUNC_DESCS && SlotOk(k.off, g.nrFdArray, g.pieces)
    ensures SlotApart(g, k)
  {
    if k.off < MAX_FD_ARRAY_SZ {
      assert g.pieces[0].len == FdSlot(MAX_FD_ARRAY_SZ);
    } else {
      var x :| 0 <= x < |g.pieces| && g.pieces[x] == SlotPiece(k);
      forall p | 0 <= p < |g.pieces| ensures Disjoint(g.pieces[p], SlotPiece(k)) || g.pieces[p] == SlotPiece(k) {
      }
    }
  }

  lemma AreApart(cfg: Config, g: Gen)
    requires g.Live? && Slotted(cfg, g)
    ensures SlotsApart(g)
  {
    hide Placed, Insns, SlotOk, Tiled, SlotApart;
    forall k | k in g.ksyms && k.kind == BTF_KIND_FUNC ensures SlotApart(g, k) {
      var i :| 0 <= i < |g.ksyms| && g.ksyms[i] == k;
      OneApart(g, k);
    }
    forall i, j | 0 <= i < j < |g.ksyms| && g.ksyms[i].kind == BTF_KIND_FUNC && g.ksyms[j].kind == BTF_KIND_FUNC
      ensures g.ksyms[i].off >= 0 && g.ksyms[j].off >= 0 && Disjoint(SlotPiece(g.ksyms[i]), SlotPiece(g.ksyms[j]))
    {
      Placement(g, g.ksyms[i]);
      Placement(g, g.ksyms[j]);
    }
  }

  lemma Placement(g: Gen, k: Ksym)
    requires g.Live? && g.pieces != [] && SlotApart(g, k)
    ensures k.off >= MAX_USED_MAPS
  {
  }

  // The pieces of a program: license, instructions, function and line information, CO-RE relocations
  // and attribute.
  function ProgPieces(at: ProgBlob, s: ProgSpec, core: Bytes): seq<Piece>
    requires at.license >= 0 && at.insns >= 0 && at.funcInfo >= 0 && at.lineInfo >= 0 && at.core >= 0 && at.attr >= 0
  {
    [Piece(at.license, |s.license| + 1), Piece(at.insns, |s.insns|), Piece(at.funcInfo, |s.funcInfo|),
     Piece(at.lineInfo, |s.lineInfo|), Piece(at.core, |core|), Piece(at.attr, PROG_ATTR_SZ)]
  }

  lemma ProgPiecesAdded(cfg: Config, g: Gen, s: ProgSpec, core: Bytes)
    requires AddProg(cfg, g, s, core).0.Live?
    ensures var (g1, at) := AddProg(cfg, g, s, core);
      at.license >= 0 && at.insns >= 0 && at.funcInfo >= 0 && at.lineInfo >= 0 && at.core >= 0 && at.attr >= 0
      && g.Live? && g1.pieces == g.pieces + ProgPieces(at, s, core)
  {
    hide ProgAttr, Zeros;
  }

  // The state in which the first n of a program's relocations have been emitted.
  function Relocating(cfg: Config, g: Gen, s: ProgSpec, n: nat): Gen
    requires g.Live? ==> n <= |g.relos|
  {
    AfterRelos(cfg, if g.Dead? then g else g.(relos := g.relos[..n]), s)
  }

  lemma RelocatingPieces(cfg: Config, g: Gen, s: ProgSpec)
    requires AfterRelos(cfg, g, s).Live?
    ensures g.Live? && AddProg(cfg, g, s, g.coreRelos).0.Live?
    ensures AddProg(cfg, g, s, g.coreRelos).0.pieces <= AfterRelos(cfg, g, s).pieces
  {
    hide AddProg, EmitProgPointers, EmitProgFields, EmitAttach, EmitRelos, Wf;
  }

  lemma SameSettled(cfg: Config, g: Gen, n: nat)
    requires Settled(cfg, g) && g.Live? && n <= |g.relos|
    ensures Settled(cfg, g.(relos := g.relos[..n]))
  {
    hide Placed, Insns, SlotsOk, Tiled;
  }

  // Across any number of programs: nothing is in use between programs, and at every point of
  // resolving a program's symbols each kernel function has a slot of its own, apart from map slots,
  // license, instructions, attribute, names, prints and all other pieces of the blob.
  lemma KfuncSlots(cfg: Config, ops: seq<Op>, s: ProgSpec, n: nat)
    requires ApplyAll(cfg, ops).Live? && n <= |ApplyAll(cfg, ops).relos| && Relocating(cfg, ApplyAll(cfg, ops), s, n).Live?
    ensures var g, a := ApplyAll(cfg, ops), Relocating(cfg, ApplyAll(cfg, ops), s, n);
      g.ksyms == [] && g.nrFdArray == 0 && SlotsApart(a)
      && var (g1, at) := AddProg(cfg, g, s, g.coreRelos);
         g1.Live? && at.license >= 0 && at.insns >= 0 && at.funcInfo >= 0 && at.lineInfo >= 0 && at.core >= 0 && at.attr >= 0
         && g.pieces + ProgPieces(at, s, g.coreRelos) <= a.pieces
  {
    hide Apply, AfterRelos, Wf, SlotsOk, SlotsApart, AddProg, ProgPieces, Slotted;
    SettledAfter(cfg, ops);
    var g := ApplyAll(cfg, ops);
    var h := g.(relos := g.relos[..n]);
    SameSettled(cfg, g, n);
    AfterRelosSlotted(cfg, h, s);
    AreApart(cfg, AfterRelos(cfg, h, s));
    RelocatingPieces(cfg, h, s);
    ProgPiecesAdded(cfg, h, s, h.coreRelos);
    SameAdded(cfg, g, h, s);
  }

  lemma SameAdded(cfg: Config, g: Gen, h: Gen, s: ProgSpec)
    requires g.Live? && h.Live? && h == g.(relos := h.relos) && AddProg(cfg, h, s, g.coreRelos).0.Live?
    ensures var (g1, at) := AddProg(cfg, g, s, g.coreRelos); var (h1, at2) := AddProg(cfg, h, s, g.coreRelos);
      g1.Live? && at == at2 && g1.pieces == h1.pieces
  {
    hide ProgAttr, Zeros;
  }

  // A known kernel function keeps its slot: no further one is taken, and the code copies the index
  // that the first use has stored.
  lemma KnownSlot(cfg: Config, g: Gen, r: Relo, insns: int)
    requires g.Live? && KfuncInv(g) && r.kind == BTF_KIND_FUNC && FindKsym(g.ksyms, r.name) < |g.ksyms|
    requires EmitRelo(cfg, g, r, insns).Live?
    ensures var i, g' := FindKsym(g.ksyms, r.name), EmitRelo(cfg, g, r, insns);
      var insn := insns + INSN_SZ * r.insnIdx;
      g'.nrFdArray == g.nrFdArray && g'.ksyms == g.ksyms[i := g.ksyms[i].(ref := g.ksyms[i].ref + 1)]
      && g.groups + [LoadInsn(insn), Blob2Blob(insn + INSN_IMM, W, g.ksyms[i].insn + INSN_IMM),
                     Blob2Blob(insn + INSN_OFF, H, g.ksyms[i].insn + INSN_OFF)] <= g'.groups
  {
    hide SlotOk, Wf, Insns, KfuncLog, Reserved;
  }

  lemma InitSettled(cfg: Config)
    ensures Settled(cfg, Init(cfg))
  {
    hide Prologue;
    InsnsNone(cfg);
    assert ReserveFds(cfg).Dead? || |ReserveFds(cfg).data| == FdSlot(MAX_FD_ARRAY_SZ);
  }
}
