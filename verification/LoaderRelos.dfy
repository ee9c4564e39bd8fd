/** The groups emitted for a program's attach target and for each of its relocations. */
module LoaderRelos {
  import opened LoaderBytes
  import opened LoaderMachine
  import opened LoaderIR
  import opened LoaderGen
  import opened LoaderShape

  // Where add_data put a symbol's name, the room for its address and the print, and the index of
  // the slot of a kernel function.
  datatype Spots = Spots(name: int, room: int, dbg: Dbg, idx: int)

  // The lookup of a name in the kernel's BTFs; a strong symbol has to be found.
  function FindOf(name: int, len: int, kind: int, weak: bool, dbg: Dbg): seq<Group> {
    [FindByName(name, len, kind), DebugRet(dbg)] + (if weak then [] else [CheckErr])
  }

  // A first use of a symbol.
  function FirstGroups(r: Relo, insn: int, x: Spots): seq<Group> {
    var len := |r.name| + 1;
    if r.kind == BTF_KIND_FUNC then
      [LoadInsn(insn)] + FindOf(x.name, len, r.kind, r.isWeak, x.dbg) + [StoreKfunc(x.idx, FdSlot(x.idx))]
    else if r.isTypeless then
      [LoadInsn(insn), LookupName(x.name, len, x.room), DebugRet(x.dbg), CheckErrUnlessEnoent, StoreAddr]
    else
      [LoadInsn(insn)] + FindOf(x.name, len, r.kind, r.isWeak, x.dbg) + [StoreKsym]
  }

  // Any further use copies from the first.
  function CopyGroups(r: Relo, insn: int, first: int): (gs: seq<Group>)
    ensures |gs| == 3
  {
    [LoadInsn(insn), Blob2Blob(insn + INSN_IMM, W, first + INSN_IMM),
     if r.kind == BTF_KIND_FUNC then Blob2Blob(insn + INSN_OFF, H, first + INSN_OFF)
     else if r.isTypeless then Blob2Blob(insn + INSN_SZ + INSN_IMM, W, first + INSN_SZ + INSN_IMM)
     else CopyKsym(insn + INSN_SZ + INSN_IMM, first + INSN_SZ + INSN_IMM)]
  }

  // The prints behind a relocation: none, or what it stored.
  predicate Prints(logs: seq<Group>, hi: int) {
    logs == []
    || (|logs| == 4 && (logs[0].LogKsym1? || logs[0].LogKfunc1?) && logs[1].DebugPair? && DbgIn(logs[1].dbg, hi)
        && (logs[2].LogKsym2? || (logs[2].LogKfunc2? && 0 <= logs[2].slot && logs[2].slot + 4 <= hi))
        && logs[3].DebugR9? && DbgIn(logs[3].dbg, hi))
  }

  // A name and its terminator are part of the new data.
  predicate NameIn(d: Bytes, lo: int, name: int, text: Bytes) {
    lo <= name && InRange(d, name, |text| + 1) && d[name..name + |text| + 1] == text + [0]
  }

  // How the generator moves by one relocation: first use or repeated use of its symbol.
  predicate Relocates(g: Gen, g': Gen, r: Relo, insn: int, main: seq<Group>, logs: seq<Group>, x: Spots)
    requires g.Live? && g'.Live?
  {
    var i := FindKsym(g.ksyms, r.name);
    g' == g.(groups := g.groups + main + logs, data := g'.data, pieces := g'.pieces, ksyms := g'.ksyms,
      nrFdArray := g'.nrFdArray)
    && g.data <= g'.data && |g'.data| % 8 == 0 && Prints(logs, |g'.data|)
    && (r.kind == BTF_KIND_VAR || r.kind == BTF_KIND_FUNC)
    && if i < |g.ksyms| then
         main == CopyGroups(r, insn, g.ksyms[i].insn)
         && g'.ksyms == g.ksyms[i := g.ksyms[i].(ref := g.ksyms[i].ref + 1)] && g'.nrFdArray == g.nrFdArray
       else
         main == FirstGroups(r, insn, x) && NameIn(g'.data, |g.data|, x.name, r.name) && DbgIn(x.dbg, |g'.data|)
         && g'.ksyms == g.ksyms + [Ksym(r.name, r.kind, 1, x.idx, insn)]
         && (r.kind == BTF_KIND_FUNC ==> SlotAdded(g, g', x.idx))
         && (r.kind == BTF_KIND_VAR ==> g'.nrFdArray == g.nrFdArray && x.idx == if r.isTypeless then 1 else 0)
         && (r.kind == BTF_KIND_VAR && r.isTypeless ==> x.name + |r.name| + 1 <= x.room && x.room + 8 <= |g'.data|)
  }

  // The slot is the next reserved one, or four zero bytes of the new data when all are in use.
  predicate SlotAdded(g: Gen, g': Gen, idx: int)
    requires g.Live? && g'.Live?
  {
    idx <= INT16_MAX
    && if g.nrFdArray == MAX_KFUNC_DESCS then
         g'.nrFdArray == g.nrFdArray && |g.data| <= FdSlot(idx) && FdSlot(idx) + 4 <= |g'.data|
         && g'.data[FdSlot(idx)..FdSlot(idx) + 4] == Zeros(4)
       else idx == MAX_USED_MAPS + g.nrFdArray && g'.nrFdArray == g.nrFdArray + 1
  }

  // --- pieces of a relocation

  lemma FindAt(cfg: Config, g: Gen, name: Bytes, kind: int, weak: bool) returns (off: int, dbg: Dbg)
    requires var g1 := EmitFindByName(cfg, g, name, kind); (if weak then g1 else Emit(cfg, g1, CheckErr)).Live?
    requires g.Live? ==> |g.data| % 8 == 0
    ensures g.Live?
    ensures var g1 := EmitFindByName(cfg, g, name, kind);
      var g2 := if weak then g1 else Emit(cfg, g1, CheckErr);
      g2 == g.(groups := g.groups + FindOf(off, |name| + 1, kind, weak, dbg), data := g2.data, pieces := g2.pieces)
      && g.data <= g2.data && |g2.data| % 8 == 0 && NameIn(g2.data, |g.data|, off, name) && DbgIn(dbg, |g2.data|)
  {
    hide Emit, EmitDebugRet, AddData;
    var (g1, at) := AddData(cfg, g, name + [0]);
    var find := FindByName(at, |name| + 1, kind);
    var g2 := Emit(cfg, g1, find);
    var g3 := EmitDebugRet(cfg, g2, MsgFind(name, kind));
    off := at;
    if !weak {
      EmitAt(cfg, g3, CheckErr);
    }
    dbg := DebugRetAt(cfg, g2, MsgFind(name, kind));
    EmitAt(cfg, g1, find);
    AddDataAt(cfg, g, name + [0]);
    Multiple(cfg, g2, MsgFind(name, kind), true);
    PrefixTrans(g.data, g1.data, g3.data);
    Slice(g1.data, g3.data, at, |name| + 1);
    assert g.groups + [find] + [DebugRet(dbg)] + (if weak then [] else [CheckErr])
        == g.groups + FindOf(at, |name| + 1, kind, weak, dbg);
  }

  // A print keeps the blob's length a multiple of 8.
  lemma Multiple(cfg: Config, g: Gen, msg: Msg, single: bool)
    requires g.Live? && |g.data| % 8 == 0
    ensures var g2 := EmitDebugRet(cfg, g, msg); g2.Live? ==> |g2.data| % 8 == 0
    ensures var g2 := EmitDebugPair(cfg, g, msg); g2.Live? ==> |g2.data| % 8 == 0
    ensures var g2 := EmitDebugR9(cfg, g, msg); g2.Live? ==> |g2.data| % 8 == 0
  {
    hide Insns, Code, DebugText;
  }

  lemma PairAt(cfg: Config, g: Gen, msg: Msg) returns (dbg: Dbg)
    requires EmitDebugPair(cfg, g, msg).Live?
    ensures g.Live?
    ensures var g2 := EmitDebugPair(cfg, g, msg);
      g2 == g.(groups := g.groups + [DebugPair(dbg)], data := g2.data, pieces := g2.pieces) && g.data <= g2.data
        && DbgIn(dbg, |g2.data|)
  {
    hide Emit, AddDebug;
    var (g1, d) := AddDebug(cfg, g, msg, false);
    EmitAt(cfg, g1, DebugPair(d));
    AddDebugAt(cfg, g, msg, false);
    dbg := d;
  }

  lemma R9At(cfg: Config, g: Gen, msg: Msg) returns (dbg: Dbg)
    requires EmitDebugR9(cfg, g, msg).Live?
    ensures g.Live?
    ensures var g2 := EmitDebugR9(cfg, g, msg);
      g2 == g.(groups := g.groups + [DebugR9(dbg)], data := g2.data, pieces := g2.pieces) && g.data <= g2.data
        && DbgIn(dbg, |g2.data|)
  {
    hide Emit, AddDebug;
    var (g1, d) := AddDebug(cfg, g, msg, true);
    EmitAt(cfg, g1, DebugR9(d));
    AddDebugAt(cfg, g, msg, true);
    dbg := d;
  }

  lemma LogAt(cfg: Config, g: Gen, a: Group, x: Msg, b: Group, y: Msg) returns (logs: seq<Group>)
    requires EmitDebugR9(cfg, Emit(cfg, EmitDebugPair(cfg, Emit(cfg, g, a), x), b), y).Live?
    requires g.Live? ==> |g.data| % 8 == 0
    requires a.LogKsym1? || a.LogKfunc1?
    requires b.LogKsym2? || (b.LogKfunc2? && 0 <= b.slot && (g.Live? ==> b.slot + 4 <= |g.data|))
    ensures g.Live?
    ensures var g2 := EmitDebugR9(cfg, Emit(cfg, EmitDebugPair(cfg, Emit(cfg, g, a), x), b), y);
      g2 == g.(groups := g.groups + logs, data := g2.data, pieces := g2.pieces) && g.data <= g2.data && |g2.data| % 8 == 0
      && Prints(logs, |g2.data|)
  {
    hide Emit, EmitDebugPair, EmitDebugR9;
    var g1 := Emit(cfg, g, a);
    var g2 := EmitDebugPair(cfg, g1, x);
    var g3 := Emit(cfg, g2, b);
    var d2 := R9At(cfg, g3, y);
    EmitAt(cfg, g2, b);
    var d1 := PairAt(cfg, g1, x);
    EmitAt(cfg, g, a);
    Multiple(cfg, g1, x, true);
    Multiple(cfg, g3, y, true);
    logs := [a, DebugPair(d1), b, DebugR9(d2)];
    assert g.groups + [a] + [DebugPair(d1)] + [b] + [DebugR9(d2)] == g.groups + logs;
  }

  lemma KsymLogAt(cfg: Config, g: Gen, r: Relo, ref: nat) returns (logs: seq<Group>)
    requires KsymLog(cfg, g, r, ref).Live? && (g.Live? ==> |g.data| % 8 == 0)
    ensures g.Live?
    ensures var g2 := KsymLog(cfg, g, r, ref);
      g2 == g.(groups := g.groups + logs, data := g2.data, pieces := g2.pieces) && g.data <= g2.data
        && |g2.data| % 8 == 0 && Prints(logs, |g2.data|)
  {
    hide Emit, EmitDebugPair, EmitDebugR9;
    logs := [];
    if cfg.logLevel != 0 {
      logs := LogAt(cfg, g, LogKsym1, MsgKsym(r.name, ref, r.isTypeless, r.isWeak), LogKsym2,
        MsgKsymReg(r.name, ref, r.isTypeless, r.isWeak));
    }
  }

  lemma KfuncLogAt(cfg: Config, g: Gen, name: Bytes, ref: nat, off: int) returns (logs: seq<Group>)
    requires KfuncLog(cfg, g, name, ref, off).Live?
      && (g.Live? ==> |g.data| % 8 == 0 && 0 <= FdSlot(off) && FdSlot(off) + 4 <= |g.data|)
    ensures g.Live?
    ensures var g2 := KfuncLog(cfg, g, name, ref, off);
      g2 == g.(groups := g.groups + logs, data := g2.data, pieces := g2.pieces) && g.data <= g2.data
        && |g2.data| % 8 == 0 && Prints(logs, |g2.data|)
  {
    hide Emit, EmitDebugPair, EmitDebugR9;
    logs := [];
    if cfg.logLevel != 0 {
      logs := LogAt(cfg, g, LogKfunc1, MsgKfunc(name, ref), LogKfunc2(FdSlot(off)), MsgKfuncFd(name, ref));
    }
  }

  // --- the relocations

  // What is known of the symbols between two relocations.
  predicate Counted(g: Gen) {
    g.Live? ==>
      0 <= g.nrFdArray <= MAX_KFUNC_DESCS && |g.data| % 8 == 0 && |g.data| >= FdSlot(MAX_FD_ARRAY_SZ)
      && forall k | k in g.ksyms :: k.ref >= 1 && 0 <= FdSlot(k.off) && FdSlot(k.off) + 4 <= |g.data|
  }

  // The prints of a repeated use.
  function CopyLog(cfg: Config, g: Gen, r: Relo, ref: nat, off: int): Gen {
    if r.kind == BTF_KIND_FUNC then KfuncLog(cfg, g, r.name, ref, off) else KsymLog(cfg, g, r, ref)
  }

  lemma CopyPath(cfg: Config, g: Gen, r: Relo, insn: int)
    requires g.Live? && FindKsym(g.ksyms, r.name) < |g.ksyms| && (forall k | k in g.ksyms :: k.ref >= 1)
    requires r.kind == BTF_KIND_VAR || r.kind == BTF_KIND_FUNC
    ensures var i := FindKsym(g.ksyms, r.name); var k := g.ksyms[i];
      var h := g.(ksyms := g.ksyms[i := k.(ref := k.ref + 1)]);
      var c := CopyGroups(r, insn, k.insn);
      (if r.kind == BTF_KIND_FUNC then ReloKfunc(cfg, g, r, insn)
       else if r.isTypeless then ReloTypeless(cfg, g, r, insn) else ReloKsymBtf(cfg, g, r, insn))
      == CopyLog(cfg, Emit(cfg, Emit(cfg, h, c[1]), c[2]), r, k.ref + 1, k.off)
  {
    hide Emit, KsymLog, KfuncLog, FindKsym, FirstKsymBtf, FirstKfunc, EmitLookupName;
    assert g.ksyms[FindKsym(g.ksyms, r.name)] in g.ksyms;
  }

  // A repeated use of a symbol.
  lemma CopyAt(cfg: Config, g: Gen, r: Relo, insns: int) returns (logs: seq<Group>)
    requires EmitRelo(cfg, g, r, insns).Live? && Counted(g) && (g.Live? ==> FindKsym(g.ksyms, r.name) < |g.ksyms|)
    ensures g.Live?
    ensures var insn := insns + INSN_SZ * r.insnIdx;
      Relocates(g, EmitRelo(cfg, g, r, insns), r, insn, CopyGroups(r, insn, g.ksyms[FindKsym(g.ksyms, r.name)].insn), logs,
        Spots(0, 0, NoDbg, 0))
  {
    hide Emit, KsymLog, KfuncLog, FindKsym, Prints, SlotAdded, NameIn, ReloKfunc, ReloTypeless, ReloKsymBtf, CopyGroups;
    var insn := insns + INSN_SZ * r.insnIdx;
    EmitAt(cfg, g, LoadInsn(insn));
    var g1 := g.(groups := g.groups + [LoadInsn(insn)]);
    var i := FindKsym(g.ksyms, r.name);
    var k := g.ksyms[i];
    assert k in g.ksyms;
    CopyPath(cfg, g1, r, insn);
    var h := g1.(ksyms := g.ksyms[i := k.(ref := k.ref + 1)]);
    var c := CopyGroups(r, insn, k.insn);
    var h1 := Emit(cfg, h, c[1]);
    var h2 := Emit(cfg, h1, c[2]);
    EmitAt(cfg, h1, c[2]);
    EmitAt(cfg, h, c[1]);
    if r.kind == BTF_KIND_FUNC {
      logs := KfuncLogAt(cfg, h2, r.name, k.ref + 1, k.off);
    } else {
      logs := KsymLogAt(cfg, h2, r, k.ref + 1);
    }
    CopyIs(r, insn, k.insn);
    assert g.groups + [LoadInsn(insn)] + [c[1]] + [c[2]] + logs == g.groups + c + logs;
  }

  lemma CopyIs(r: Relo, insn: int, first: int)
    ensures var c := CopyGroups(r, insn, first); c == [LoadInsn(insn), c[1], c[2]]
  {
  }

  // A first use appends its entry; known symbols have more than one reference.
  lemma NewEntry(ks: seq<Ksym>, r: Relo)
    requires FindKsym(ks, r.name) == |ks|
    ensures RefKsym(ks, r) == (ks + [Ksym(r.name, r.kind, 1, 0, 0)], |ks|)
  {
  }

  lemma AddressAt(cfg: Config, g: Gen, r: Relo) returns (x: Spots)
    requires EmitLookupName(cfg, g, r).Live? && (g.Live? ==> |g.data| % 8 == 0)
    ensures g.Live?
    ensures var g2 := EmitLookupName(cfg, g, r);
      g2 == g.(groups := g.groups + [LookupName(x.name, |r.name| + 1, x.room), DebugRet(x.dbg)], data := g2.data,
        pieces := g2.pieces)
      && g.data <= g2.data && |g2.data| % 8 == 0 && NameIn(g2.data, |g.data|, x.name, r.name) && DbgIn(x.dbg, |g2.data|)
      && x.name + |r.name| + 1 <= x.room && x.room + 8 <= |g2.data| && x.idx == 1
  {
    hide Emit, EmitDebugRet, AddData;
    var (g1, off) := AddData(cfg, g, r.name + [0]);
    var (g2, room) := AddData(cfg, g1, Zeros(8));
    var look := LookupName(off, |r.name| + 1, room);
    var g3 := Emit(cfg, g2, look);
    var g4 := EmitDebugRet(cfg, g3, MsgLookup(r.name, r.kind));
    var dbg := DebugRetAt(cfg, g3, MsgLookup(r.name, r.kind));
    EmitAt(cfg, g2, look);
    AddDataAt(cfg, g1, Zeros(8));
    AddDataAt(cfg, g, r.name + [0]);
    Multiple(cfg, g3, MsgLookup(r.name, r.kind), true);
    PrefixTrans(g1.data, g2.data, g4.data);
    PrefixTrans(g.data, g1.data, g4.data);
    Slice(g1.data, g4.data, off, |r.name| + 1);
    assert g.groups + [look] + [DebugRet(dbg)] == g.groups + [look, DebugRet(dbg)];
    x := Spots(off, room, dbg, 1);
  }

  // A first use of a symbol without a type.
  lemma TypelessAt(cfg: Config, g: Gen, r: Relo, insn: int) returns (logs: seq<Group>, x: Spots)
    requires g.Live? && |g.data| % 8 == 0 && FindKsym(g.ksyms, r.name) == |g.ksyms| && r.kind == BTF_KIND_VAR && r.isTypeless
    requires var g1 := Emit(cfg, g, LoadInsn(insn)); ReloTypeless(cfg, g1, r, insn).Live?
    ensures Relocates(g, ReloTypeless(cfg, Emit(cfg, g, LoadInsn(insn)), r, insn), r, insn, FirstGroups(r, insn, x), logs, x)
  {
    hide Emit, KsymLog, EmitLookupName, FindKsym, RefKsym, Prints, NameIn;
    NewEntry(g.ksyms, r);
    EmitAt(cfg, g, LoadInsn(insn));
    var g1 := Emit(cfg, g, LoadInsn(insn));
    var h := WithKsym(cfg, WithKsyms(cfg, g1, g.ksyms + [Ksym(r.name, r.kind, 1, 0, 0)]), |g.ksyms|, 1, insn);
    var h1 := EmitLookupName(cfg, h, r);
    var h2 := Emit(cfg, h1, CheckErrUnlessEnoent);
    var h3 := Emit(cfg, h2, StoreAddr);
    EmitAt(cfg, h2, StoreAddr);
    EmitAt(cfg, h1, CheckErrUnlessEnoent);
    x := AddressAt(cfg, h, r);
    var g4 := KsymLog(cfg, h3, r, 1);
    logs := KsymLogAt(cfg, h3, r, 1);
    NameStays(h1.data, g4.data, |g.data|, x.name, r.name);
    assert g.groups + [LoadInsn(insn)] + [LookupName(x.name, |r.name| + 1, x.room), DebugRet(x.dbg)] + [CheckErrUnlessEnoent]
      + [StoreAddr] + logs == g.groups + FirstGroups(r, insn, x) + logs;
  }

  lemma NameStays(a: Bytes, b: Bytes, lo: int, name: int, text: Bytes)
    requires NameIn(a, lo, name, text) && a <= b
    ensures NameIn(b, lo, name, text)
  {
    Slice(a, b, name, |text| + 1);
  }

  // A first use of a typed symbol.
  lemma TypedAt(cfg: Config, g: Gen, r: Relo, insn: int) returns (logs: seq<Group>, x: Spots)
    requires g.Live? && |g.data| % 8 == 0 && FindKsym(g.ksyms, r.name) == |g.ksyms| && r.kind == BTF_KIND_VAR && !r.isTypeless
    requires var g1 := Emit(cfg, g, LoadInsn(insn)); ReloKsymBtf(cfg, g1, r, insn).Live?
    ensures Relocates(g, ReloKsymBtf(cfg, Emit(cfg, g, LoadInsn(insn)), r, insn), r, insn, FirstGroups(r, insn, x), logs, x)
  {
    hide Emit, KsymLog, EmitFindByName, FindKsym, RefKsym, Prints, NameIn, FindOf;
    NewEntry(g.ksyms, r);
    EmitAt(cfg, g, LoadInsn(insn));
    var g1 := Emit(cfg, g, LoadInsn(insn));
    var h := WithKsym(cfg, WithKsyms(cfg, g1, g.ksyms + [Ksym(r.name, r.kind, 1, 0, 0)]), |g.ksyms|, 0, insn);
    var h1 := EmitFindByName(cfg, h, r.name, r.kind);
    var h2 := if r.isWeak then h1 else Emit(cfg, h1, CheckErr);
    var h3 := Emit(cfg, h2, StoreKsym);
    var g4 := KsymLog(cfg, h3, r, 1);
    EmitAt(cfg, h2, StoreKsym);
    var off, dbg := FindAt(cfg, h, r.name, r.kind, r.isWeak);
    logs := KsymLogAt(cfg, h3, r, 1);
    NameStays(h2.data, g4.data, |g.data|, off, r.name);
    x := Spots(off, 0, dbg, 0);
    assert g.groups + [LoadInsn(insn)] + FindOf(off, |r.name| + 1, r.kind, r.isWeak, dbg) + [StoreKsym] + logs
        == g.groups + FirstGroups(r, insn, x) + logs;
  }

  lemma Quarter(n: nat)
    requires n % 8 == 0
    ensures 4 * (n / 4) == n
  {
  }

  lemma SlotAt(cfg: Config, g: Gen)
    requires g.Live? && |g.data| % 8 == 0 && |g.data| >= FdSlot(MAX_FD_ARRAY_SZ) && 0 <= g.nrFdArray <= MAX_KFUNC_DESCS
    requires var (g', idx) := AddKfuncFd(cfg, g); g'.Live? && idx <= INT16_MAX
    ensures var (g', idx) := AddKfuncFd(cfg, g);
      SlotAdded(g, g', idx) && g.data <= g'.data && |g'.data| % 8 == 0 && FdSlot(idx) + 4 <= |g'.data| && idx >= MAX_USED_MAPS
      && g' == g.(nrFdArray := g'.nrFdArray, data := g'.data, pieces := g'.pieces)
  {
    hide Zeros, Round8;
    if g.nrFdArray == MAX_KFUNC_DESCS {
      var (g', idx) := AddKfuncFd(cfg, g);
      AddDataAt(cfg, g, Zeros(4));
      Quarter(|g.data|);
    }
  }

  // A slot found in more data.
  lemma SlotStays(g0: Gen, g: Gen, g': Gen, g2: Gen, idx: int)
    requires g.Live? && g'.Live? && g2.Live? && g0.Live? && SlotAdded(g, g', idx)
    requires g0.nrFdArray == g.nrFdArray && |g0.data| <= |g.data| && g'.data <= g2.data && g2.nrFdArray == g'.nrFdArray
    ensures SlotAdded(g0, g2, idx)
  {
    hide Zeros;
  }

  // A first use of a kernel function.
  lemma FunctionAt(cfg: Config, g: Gen, r: Relo, insn: int) returns (logs: seq<Group>, x: Spots)
    requires g.Live? && FindKsym(g.ksyms, r.name) == |g.ksyms| && r.kind == BTF_KIND_FUNC
    requires |g.data| % 8 == 0 && |g.data| >= FdSlot(MAX_FD_ARRAY_SZ) && 0 <= g.nrFdArray <= MAX_KFUNC_DESCS
    requires var g1 := Emit(cfg, g, LoadInsn(insn)); ReloKfunc(cfg, g1, r, insn).Live?
    ensures Relocates(g, ReloKfunc(cfg, Emit(cfg, g, LoadInsn(insn)), r, insn), r, insn, FirstGroups(r, insn, x), logs, x)
  {
    hide Emit, KfuncLog, EmitFindByName, FindKsym, RefKsym, Prints, NameIn, FindOf, AddKfuncFd, SlotAdded;
    NewEntry(g.ksyms, r);
    EmitAt(cfg, g, LoadInsn(insn));
    var g1 := Emit(cfg, g, LoadInsn(insn));
    var h := WithKsyms(cfg, g1, g.ksyms + [Ksym(r.name, r.kind, 1, 0, 0)]);
    var h1 := EmitFindByName(cfg, h, r.name, r.kind);
    var h2 := if r.isWeak then h1 else Emit(cfg, h1, CheckErr);
    var (h3, idx) := AddKfuncFd(cfg, h2);
    var h4 := WithKsym(cfg, h3, |g.ksyms|, idx, insn);
    var h5 := Emit(cfg, h4, StoreKfunc(idx, FdSlot(idx)));
    var g6 := KfuncLog(cfg, h5, r.name, 1, idx);
    EmitAt(cfg, h4, StoreKfunc(idx, FdSlot(idx)));
    var off, dbg := FindAt(cfg, h, r.name, r.kind, r.isWeak);
    SlotAt(cfg, h2);
    logs := KfuncLogAt(cfg, h5, r.name, 1, idx);
    PrefixTrans(h2.data, h3.data, g6.data);
    PrefixTrans(g.data, h2.data, g6.data);
    NameStays(h2.data, g6.data, |g.data|, off, r.name);
    SlotStays(g, h2, h3, g6, idx);
    x := Spots(off, 0, dbg, idx);
    assert g.groups + [LoadInsn(insn)] + FindOf(off, |r.name| + 1, r.kind, r.isWeak, dbg)
      + [StoreKfunc(idx, FdSlot(idx))] + logs
        == g.groups + FirstGroups(r, insn, x) + logs;
  }

  // Any relocation.
  lemma ReloAt(cfg: Config, g: Gen, r: Relo, insns: int) returns (main: seq<Group>, logs: seq<Group>, x: Spots)
    requires EmitRelo(cfg, g, r, insns).Live? && Counted(g)
    ensures g.Live? && Relocates(g, EmitRelo(cfg, g, r, insns), r, insns + INSN_SZ * r.insnIdx, main, logs, x)
    ensures Counted(EmitRelo(cfg, g, r, insns))
  {
    hide Emit, ReloTypeless, ReloKsymBtf, ReloKfunc, FindKsym, Prints, NameIn, SlotAdded, FirstGroups, CopyGroups;
    var insn := insns + INSN_SZ * r.insnIdx;
    EmitAt(cfg, g, LoadInsn(insn));
    if FindKsym(g.ksyms, r.name) < |g.ksyms| {
      main, x := CopyGroups(r, insn, g.ksyms[FindKsym(g.ksyms, r.name)].insn), Spots(0, 0, NoDbg, 0);
      logs := CopyAt(cfg, g, r, insns);
    } else {
      if r.kind == BTF_KIND_FUNC {
        logs, x := FunctionAt(cfg, g, r, insn);
      } else if r.isTypeless {
        logs, x := TypelessAt(cfg, g, r, insn);
      } else {
        logs, x := TypedAt(cfg, g, r, insn);
      }
      main := FirstGroups(r, insn, x);
    }
    StaysCounted(g, EmitRelo(cfg, g, r, insns), r, insn, main, logs, x);
  }

  lemma StaysCounted(g: Gen, g': Gen, r: Relo, insn: int, main: seq<Group>, logs: seq<Group>, x: Spots)
    requires g.Live? && g'.Live? && Counted(g) && Relocates(g, g', r, insn, main, logs, x)
    ensures Counted(g')
  {
    hide Prints, NameIn, FirstGroups, CopyGroups, FindKsym;
    forall k | k in g'.ksyms ensures k.ref >= 1 && 0 <= FdSlot(k.off) && FdSlot(k.off) + 4 <= |g'.data| {
      var j :| 0 <= j < |g'.ksyms| && g'.ksyms[j] == k;
      if j < |g.ksyms| {
        assert g.ksyms[j] in g.ksyms;
      }
    }
  }

  // --- the attach target

  function AttachGroups(name: int, len: int, kind: int, attr: int, dbg: Dbg): seq<Group> {
    FindOf(name, len, kind, false, dbg) + [SaveAttach(attr)]
  }

  lemma AttachAt(cfg: Config, g: Gen, attr: int) returns (name: int, dbg: Dbg)
    requires EmitAttach(cfg, g, attr).Live? && (g.Live? ==> |g.data| % 8 == 0 && g.attachKind != 0)
    ensures g.Live?
    ensures var g2 := EmitAttach(cfg, g, attr);
      g2 == g.(groups := g.groups + AttachGroups(name, |g.attachTarget| + 1, g.attachKind, attr, dbg),
        data := g2.data, pieces := g2.pieces)
      && g.data <= g2.data && |g2.data| % 8 == 0 && NameIn(g2.data, |g.data|, name, g.attachTarget) && DbgIn(dbg, |g2.data|)
  {
    hide Emit, EmitFindByName, FindOf, NameIn;
    var g1 := Emit(cfg, EmitFindByName(cfg, g, g.attachTarget, g.attachKind), CheckErr);
    EmitAt(cfg, g1, SaveAttach(attr));
    name, dbg := FindAt(cfg, g, g.attachTarget, g.attachKind, false);
    assert g.groups + FindOf(name, |g.attachTarget| + 1, g.attachKind, false, dbg) + [SaveAttach(attr)]
        == g.groups + AttachGroups(name, |g.attachTarget| + 1, g.attachKind, attr, dbg);
  }
}
