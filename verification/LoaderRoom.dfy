/** Generators that do not run out of room: without prints, a call adds a bounded number of groups and
    bytes, so small sequences of calls finish without an error. */
module LoaderRoom {
  import opened LoaderBytes
  import opened LoaderMachine
  import opened LoaderIR
  import opened LoaderGen
  import opened LoaderRun
  import opened LoaderShape
  import opened LoaderSilent

  // The longest code of a group without a print.
  const LONGEST: nat := 16

  // Room for n more groups and b more bytes; nothing emitted so far prints.
  ghost predicate Roomy(cfg: Config, g: Gen, n: nat, b: nat) {
    g.Live? && cfg.logLevel == 0
    && |Insns(cfg, g.groups)| + LONGEST * n <= cfg.insnLimit <= 0x7000 && |g.data| + b <= cfg.dataLimit
    && AllSilent(g.groups)
  }

  lemma CodeShort(g: Group, pos: int)
    requires Silent(g)
    ensures |Code(g, pos, CLEANUP)| <= LONGEST
  {
  }

  lemma Emits(cfg: Config, g: Gen, group: Group, n: nat, b: nat)
    requires Roomy(cfg, g, n + 1, b) && Silent(group)
    ensures Roomy(cfg, Emit(cfg, g, group), n, b)
    ensures Emit(cfg, g, group) == g.(groups := g.groups + [group])
  {
    hide Code, Prologue, Flat;
    CodeShort(group, |Insns(cfg, g.groups)|);
    FlatOne(cfg, g.groups, group);
    ReachesBack(group, |Insns(cfg, g.groups)|);
  }

  lemma ReachesBack(group: Group, pos: nat)
    requires pos <= 0x7000
    ensures Reachable(group, pos)
  {
  }

  lemma Adds(cfg: Config, g: Gen, bytes: Bytes, n: nat, b: nat)
    requires Roomy(cfg, g, n, b + Round8(|bytes|))
    ensures Roomy(cfg, AddData(cfg, g, bytes).0, n, b)
  {
    hide Insns;
  }

  lemma Less(cfg: Config, g: Gen, n: nat, b: nat, n2: nat, b2: nat)
    requires Roomy(cfg, g, n, b) && n2 <= n && b2 <= b
    ensures Roomy(cfg, g, n2, b2)
  {
    hide Insns;
  }

  lemma Shows(cfg: Config, g: Gen, msg: Msg, n: nat, b: nat)
    requires Roomy(cfg, g, n + 1, b)
    ensures Roomy(cfg, EmitDebugRet(cfg, g, msg), n, b)
      && EmitDebugRet(cfg, g, msg) == g.(groups := g.groups + [DebugRet(NoDbg)])
  {
    hide Insns;
    Emits(cfg, g, DebugRet(NoDbg), n, b);
  }

  lemma ClosesStack(cfg: Config, g: Gen, off: int, n: nat, b: nat)
    requires Roomy(cfg, g, n + 1, b)
    ensures Roomy(cfg, EmitCloseStack(cfg, g, off), n, b)
    ensures EmitCloseStack(cfg, g, off) == g.(groups := g.groups + [CloseStack(off, NoDbg)])
  {
    hide Insns;
    Emits(cfg, g, CloseStack(off, NoDbg), n, b);
  }

  lemma ClosesBlob(cfg: Config, g: Gen, off: int, n: nat, b: nat)
    requires Roomy(cfg, g, n + 1, b)
    ensures Roomy(cfg, EmitCloseBlob(cfg, g, off), n, b)
    ensures EmitCloseBlob(cfg, g, off) == g.(groups := g.groups + [CloseBlob(off, NoDbg)])
  {
    hide Insns;
    Emits(cfg, g, CloseBlob(off, NoDbg), n, b);
  }

  // --- maps

  lemma MapAttrRoom(cfg: Config, g: Gen, s: MapSpec, idx: int, attr: int, n: nat, b: nat)
    requires Roomy(cfg, g, n + 4, b)
    ensures var g2 := EmitMapAttr(cfg, g, s, idx, attr); Roomy(cfg, g2, n, b) && g2 == g.(groups := g2.groups)
  {
    hide Roomy, Emit, IsOuter;
    var x, y, z := Stack2Blob(attr + MAP_BTF_FD, W, OFF_BTF_FD), Stack2Blob(attr + MAP_INNER_FD, W, OFF_INNER_MAP_FD),
      Ctx2Blob(attr + MAP_MAX_ENTRIES, W, CtxMaxEntries(idx), true);
    var g1 := if s.btfValueTypeId != 0 then Emit(cfg, g, x) else g;
    var g2 := if IsOuter(s) then Emit(cfg, g1, y) else g1;
    var g3 := if idx >= 0 then Emit(cfg, g2, z) else g2;
    Emits(cfg, g, x, n + 3, b);
    Less(cfg, g, n + 4, b, n + 3, b);
    Emits(cfg, g1, y, n + 2, b);
    Less(cfg, g1, n + 3, b, n + 2, b);
    Emits(cfg, g2, z, n + 1, b);
    Less(cfg, g2, n + 2, b, n + 1, b);
    Emits(cfg, g3, SysCall(BPF_MAP_CREATE, attr, MAP_ATTR_SZ), n, b);
  }

  lemma MapRoom(cfg: Config, g: Gen, s: MapSpec, idx: int, n: nat, b: nat)
    requires Roomy(cfg, g, n + 8, b + 72) && idx <= g.nrMaps < MAX_USED_MAPS && (idx >= 0 ==> idx == g.nrMaps)
    ensures var g2 := GenMapCreate(cfg, g, s, idx);
      Roomy(cfg, g2, n, b) && g2.nrMaps == g.nrMaps + (if idx >= 0 then 1 else 0) && g2.nrProgs == g.nrProgs
  {
    hide Roomy, Emit, EmitMapAttr, AddData, MapAttr, EmitDebugRet, EmitCloseStack, IsOuter;
    var (g1, attr) := AddData(cfg, g, MapAttr(s));
    Adds(cfg, g, MapAttr(s), n + 8, b);
    RoomyLive(cfg, g1, n + 8, b);
    var g2 := EmitMapAttr(cfg, g1, s, idx, attr);
    MapAttrRoom(cfg, g1, s, idx, attr, n + 4, b);
    var msg := MsgMapCreate(s.name, idx, s.mapType, s.valueSize, s.btfValueTypeId);
    var g3 := EmitDebugRet(cfg, g2, msg);
    Shows(cfg, g2, msg, n + 3, b);
    var g4 := Emit(cfg, g3, CheckErr);
    Emits(cfg, g3, CheckErr, n + 2, b);
    RoomyLive(cfg, g2, n + 4, b);
    var save := if idx < 0 then SaveToStack(OFF_INNER_MAP_FD) else SaveToBlob(FdSlot(idx));
    var g4' := if idx < 0 then g4 else g4.(nrMaps := g4.nrMaps + 1);
    Counted(cfg, g4, g4', n + 2, b);
    Emits(cfg, g4', save, n + 1, b);
    var g5 := Emit(cfg, g4', save);
    if IsOuter(s) {
      ClosesStack(cfg, g5, OFF_INNER_MAP_FD, n, b);
    } else {
      Less(cfg, g5, n + 1, b, n, b);
    }
  }

  lemma RoomyLive(cfg: Config, g: Gen, n: nat, b: nat)
    requires Roomy(cfg, g, n, b)
    ensures g.Live?
  {
  }

  // The room does not depend on what has been recorded or counted.
  lemma Counted(cfg: Config, g: Gen, g2: Gen, n: nat, b: nat)
    requires Roomy(cfg, g, n, b) && g2.Live? && g2.groups == g.groups && g2.data == g.data
    ensures Roomy(cfg, g2, n, b)
  {
    hide Insns;
  }

  // --- begin and end

  lemma {:induction false} NoMessages(cfg: Config, g: Gen, n: nat)
    requires cfg.logLevel == 0
    ensures MapCloses(cfg, g, n).0 == g && AllSilent(MapCloses(cfg, g, n).1)
  {
    if n > 0 {
      NoMessages(cfg, g, n - 1);
    }
  }

  lemma {:induction false} QuietSilent(n: nat)
    ensures AllSilent(QuietCloses(n))
  {
    if n > 0 {
      QuietSilent(n - 1);
    }
  }

  // The cleanup code prints nothing either.
  lemma CleanupSilent(cfg: Config)
    requires cfg.logLevel == 0
    ensures AllSilent(CleanupGroups(cfg))
  {
    NoMessages(cfg, ReserveFds(cfg), cfg.nrMaps);
    QuietSilent(NrProgsSz(cfg) / 4);
  }

  lemma InitRoom(cfg: Config, n: nat, b: nat)
    requires cfg.logLevel == 0 && cfg.insnLimit <= 0x7000
    requires 15 + 3 * cfg.nrProgs + 6 * cfg.nrMaps + LONGEST * n <= cfg.insnLimit
      && FdSlot(MAX_FD_ARRAY_SZ) + b <= cfg.dataLimit
    ensures Roomy(cfg, Init(cfg), n, b) && var g := Init(cfg);
      g.nrMaps == 0 && g.nrProgs == 0 && g.relos == [] && g.ksyms == [] && g.nrFdArray == 0 && g.attachKind == 0
        && g.coreRelos == []
  {
    hide Flat, QuietCloses, MapCloses, CleanupGroups, Zeros;
    NoMessages(cfg, ReserveFds(cfg), cfg.nrMaps);
    CleanupLength(cfg);
    InsnsNone(cfg);
  }

  lemma {:induction false} EmitsAll(cfg: Config, g: Gen, gs: seq<Group>, n: nat, b: nat)
    requires Roomy(cfg, g, |gs| + n, b) && AllSilent(gs)
    ensures Roomy(cfg, EmitAll(cfg, g, gs), n, b)
    decreases |gs|
  {
    hide Roomy, Emit;
    if gs != [] {
      assert gs[0] in gs && forall x | x in gs[1..] :: x in gs;
      Emits(cfg, g, gs[0], |gs| - 1 + n, b);
      EmitsAll(cfg, Emit(cfg, g, gs[0]), gs[1..], n, b);
    }
  }

  lemma {:induction false} ProgFdsSilent(nrMaps: nat, n: nat)
    ensures AllSilent(ProgFds(nrMaps, n)) && |ProgFds(nrMaps, n)| == n
  {
    if n > 0 {
      ProgFdsSilent(nrMaps, n - 1);
    }
  }

  lemma {:induction false} MapFdsSilent(n: nat)
    ensures AllSilent(MapFds(n)) && |MapFds(n)| == n
  {
    if n > 0 {
      MapFdsSilent(n - 1);
    }
  }

  lemma FinishRoom(cfg: Config, g: Gen)
    requires Roomy(cfg, g, 2 + cfg.nrProgs + cfg.nrMaps, 0) && g.nrProgs == cfg.nrProgs && g.nrMaps == cfg.nrMaps
    ensures var f := Finish(cfg, g, cfg.nrProgs, cfg.nrMaps); f.Live? && AllSilent(f.groups)
  {
    hide Roomy, EmitCloseStack, EmitAll, ProgFds, MapFds;
    ClosesStack(cfg, g, OFF_BTF_FD, 1 + cfg.nrProgs + cfg.nrMaps, 0);
    RoomyLive(cfg, g, 2 + cfg.nrProgs + cfg.nrMaps, 0);
    var g1 := EmitCloseStack(cfg, g, OFF_BTF_FD);
    ProgFdsSilent(g.nrMaps, g.nrProgs);
    MapFdsSilent(g.nrMaps);
    EmitsAll(cfg, g1, ProgFds(g.nrMaps, g.nrProgs), 1 + cfg.nrMaps, 0);
    var g2 := EmitAll(cfg, g1, ProgFds(g.nrMaps, g.nrProgs));
    EmitsAll(cfg, g2, MapFds(g.nrMaps), 1, 0);
    RoomLeft(cfg, EmitAll(cfg, g2, MapFds(g.nrMaps)));
  }

  lemma RoomLeft(cfg: Config, g: Gen)
    requires Roomy(cfg, g, 1, 0)
    ensures g.Live? && |Insns(cfg, g.groups)| + |RETURN_0| <= cfg.insnLimit && AllSilent(g.groups)
  {
    hide Insns;
  }

  // --- programs with kernel functions

  // The pieces of a small program.
  predicate Small(s: ProgSpec) {
    |s.license| < 16 && |s.insns| <= 16 && |s.funcInfo| == 0 && |s.lineInfo| == 0
  }

  lemma ProgRoom(cfg: Config, g: Gen, s: ProgSpec, n: nat, b: nat)
    requires Roomy(cfg, g, n, b + 176) && Small(s)
    ensures var (g2, at) := AddProg(cfg, g, s, []); Roomy(cfg, g2, n, b) && g2 == g.(data := g2.data, pieces := g2.pieces)
  {
    hide Roomy, AddData, ProgAttr;
    RoomyLive(cfg, g, n, b + 176);
    var (g1, license) := AddData(cfg, g, s.license + [0]);
    Less(cfg, g, n, b + 176, n, b + 160 + Round8(|s.license| + 1));
    Adds(cfg, g, s.license + [0], n, b + 160);
    var (g2, insns) := AddData(cfg, g1, s.insns);
    Less(cfg, g1, n, b + 160, n, b + 144 + Round8(|s.insns|));
    Adds(cfg, g1, s.insns, n, b + 144);
    var (g3, funcInfo) := AddData(cfg, g2, s.funcInfo);
    Adds(cfg, g2, s.funcInfo, n, b + 144);
    var (g4, lineInfo) := AddData(cfg, g3, s.lineInfo);
    Adds(cfg, g3, s.lineInfo, n, b + 144);
    var (g5, core) := AddData(cfg, g4, []);
    Adds(cfg, g4, [], n, b + 144);
    Adds(cfg, g5, ProgAttr(s, []), n, b);
    RoomyLive(cfg, AddData(cfg, g5, ProgAttr(s, [])).0, n, b);
  }

  lemma PointersRoom(cfg: Config, g: Gen, at: ProgBlob, n: nat, b: nat)
    requires Roomy(cfg, g, n + 6, b)
    ensures var g2 := EmitProgPointers(cfg, g, at); Roomy(cfg, g2, n, b) && g2 == g.(groups := g2.groups)
  {
    hide Roomy, Emit;
    var p := ProgPointers(at);
    Emits(cfg, g, p[0], n + 5, b);
    var g1 := Emit(cfg, g, p[0]);
    Emits(cfg, g1, p[1], n + 4, b);
    var g2 := Emit(cfg, g1, p[1]);
    Emits(cfg, g2, p[2], n + 3, b);
    var g3 := Emit(cfg, g2, p[2]);
    Emits(cfg, g3, p[3], n + 2, b);
    var g4 := Emit(cfg, g3, p[3]);
    Emits(cfg, g4, p[4], n + 1, b);
    Emits(cfg, Emit(cfg, g4, p[4]), p[5], n, b);
  }

  lemma FieldsRoom(cfg: Config, g: Gen, attr: int, n: nat, b: nat)
    requires Roomy(cfg, g, n + 4, b)
    ensures var g2 := EmitProgFields(cfg, g, attr); Roomy(cfg, g2, n, b) && g2 == g.(groups := g2.groups)
  {
    hide Roomy, Emit;
    var p := ProgFields(attr);
    Emits(cfg, g, p[0], n + 3, b);
    var g1 := Emit(cfg, g, p[0]);
    Emits(cfg, g1, p[1], n + 2, b);
    var g2 := Emit(cfg, g1, p[1]);
    Emits(cfg, g2, p[2], n + 1, b);
    Emits(cfg, Emit(cfg, g2, p[2]), p[3], n, b);
  }

  // A first kernel function with a short name.
  lemma FunctionRoom(cfg: Config, g: Gen, r: Relo, insns: int, n: nat, b: nat)
    requires Roomy(cfg, g, n + 5, b + 16) && r.kind == BTF_KIND_FUNC && !r.isWeak && |r.name| < 16
    requires 0 <= g.nrFdArray < MAX_KFUNC_DESCS && FindKsym(g.ksyms, r.name) == |g.ksyms|
    ensures var g2 := EmitRelo(cfg, g, r, insns);
      Roomy(cfg, g2, n, b) && g2 == g.(groups := g2.groups, data := g2.data, pieces := g2.pieces,
        ksyms := g2.ksyms, nrFdArray := g.nrFdArray + 1)
      && g2.ksyms == g.ksyms + [Ksym(r.name, r.kind, 1, MAX_USED_MAPS + g.nrFdArray, insns + INSN_SZ * r.insnIdx)]
  {
    hide Roomy, Emit, FindKsym, EmitFindByName, KfuncLog;
    var insn := insns + INSN_SZ * r.insnIdx;
    RoomyLive(cfg, g, n + 5, b + 16);
    Emits(cfg, g, LoadInsn(insn), n + 4, b + 16);
    var g1 := Emit(cfg, g, LoadInsn(insn));
    NewName(g1.ksyms, r);
    var h := g1.(ksyms := g1.ksyms + [Ksym(r.name, r.kind, 1, 0, 0)]);
    Counted(cfg, g1, h, n + 4, b + 16);
    FindRoom(cfg, h, r.name, r.kind, n + 2, b);
    var h3 := EmitFindByName(cfg, h, r.name, r.kind);
    Emits(cfg, h3, CheckErr, n + 1, b);
    var h4, idx := Emit(cfg, h3, CheckErr), MAX_USED_MAPS + g.nrFdArray;
    var h5 := WithKsym(cfg, h4.(nrFdArray := h4.nrFdArray + 1), |g.ksyms|, idx, insn);
    Counted(cfg, h4, h5, n + 1, b);
    Emits(cfg, h5, StoreKfunc(idx, FdSlot(idx)), n, b);
    NoLog(cfg, Emit(cfg, h5, StoreKfunc(idx, FdSlot(idx))), r.name, idx, n, b);
  }

  lemma FindRoom(cfg: Config, g: Gen, name: Bytes, kind: int, n: nat, b: nat)
    requires Roomy(cfg, g, n + 2, b + 16) && |name| < 16
    ensures var g2 := EmitFindByName(cfg, g, name, kind);
      Roomy(cfg, g2, n, b) && g2 == g.(groups := g2.groups, data := g2.data, pieces := g2.pieces)
  {
    hide Roomy, Emit, EmitDebugRet, AddData;
    var (g1, off) := AddData(cfg, g, name + [0]);
    Less(cfg, g, n + 2, b + 16, n + 2, b + Round8(|name| + 1));
    Adds(cfg, g, name + [0], n + 2, b);
    RoomyLive(cfg, g1, n + 2, b);
    Emits(cfg, g1, FindByName(off, |name| + 1, kind), n + 1, b);
    Shows(cfg, Emit(cfg, g1, FindByName(off, |name| + 1, kind)), MsgFind(name, kind), n, b);
  }

  lemma NoLog(cfg: Config, g: Gen, name: Bytes, idx: int, n: nat, b: nat)
    requires Roomy(cfg, g, n, b)
    ensures KfuncLog(cfg, g, name, 1, idx) == g
  {
  }

  lemma NewName(ks: seq<Ksym>, r: Relo)
    requires FindKsym(ks, r.name) == |ks|
    ensures RefKsym(ks, r) == (ks + [Ksym(r.name, r.kind, 1, 0, 0)], |ks|)
  {
  }

  // Strong kernel functions with short and different names.
  predicate PlainFunctions(rs: seq<Relo>) {
    (forall r | r in rs :: r.kind == BTF_KIND_FUNC && !r.isWeak && |r.name| < 16)
    && forall i, j | 0 <= i < j < |rs| :: rs[i].name != rs[j].name
  }

  predicate NewTo(rs: seq<Relo>, ks: seq<Ksym>) {
    forall r, k | r in rs && k in ks :: r.name != k.name
  }

  predicate AllFunctions(ks: seq<Ksym>) {
    forall k | k in ks :: k.kind == BTF_KIND_FUNC && k.off < MAX_FD_ARRAY_SZ
  }

  lemma {:induction false} FunctionsRoom(cfg: Config, g: Gen, rs: seq<Relo>, insns: int, n: nat, b: nat)
    requires Roomy(cfg, g, n + 5 * |rs|, b + 16 * |rs|) && PlainFunctions(rs) && NewTo(rs, g.ksyms) && AllFunctions(g.ksyms)
    requires 0 <= g.nrFdArray && g.nrFdArray + |rs| <= MAX_KFUNC_DESCS
    ensures var g2 := EmitRelos(cfg, g, rs, insns);
      Roomy(cfg, g2, n, b) && AllFunctions(g2.ksyms) && |g2.ksyms| == |g.ksyms| + |rs| && g2.nrFdArray == g.nrFdArray + |rs|
      && g2 == g.(groups := g2.groups, data := g2.data, pieces := g2.pieces, ksyms := g2.ksyms, nrFdArray := g2.nrFdArray)
    decreases |rs|
  {
    hide Roomy, EmitRelo, FindKsym;
    RoomyLive(cfg, g, n + 5 * |rs|, b + 16 * |rs|);
    if rs != [] {
      var m := |rs| - 1;
      assert rs[0] in rs && forall r | r in rs[1..] :: r in rs;
      NotThere(g.ksyms, rs[0].name);
      FunctionRoom(cfg, g, rs[0], insns, n + 5 * m, b + 16 * m);
      FunctionsRoom(cfg, EmitRelo(cfg, g, rs[0], insns), rs[1..], insns, n, b);
    }
  }

  lemma NotThere(ks: seq<Ksym>, name: Bytes)
    requires forall k | k in ks :: k.name != name
    ensures FindKsym(ks, name) == |ks|
  {
  }

  lemma {:induction false} CleanupRoom(cfg: Config, g: Gen, ks: seq<Ksym>, n: nat, b: nat)
    requires Roomy(cfg, g, n + |ks|, b) && AllFunctions(ks)
    ensures var g2 := CleanupKsyms(cfg, g, ks);
      Roomy(cfg, g2, n, b) && g2 == g.(groups := g2.groups, nrFdArray := g.nrFdArray - |ks|)
    decreases |ks|
  {
    hide Roomy, EmitCloseBlob;
    RoomyLive(cfg, g, n + |ks|, b);
    if ks != [] {
      assert ks[0] in ks && forall k | k in ks[1..] :: k in ks;
      var m := |ks| - 1;
      ClosesBlob(cfg, g, FdSlot(ks[0].off), n + m, b);
      var g1 := EmitCloseBlob(cfg, g, FdSlot(ks[0].off));
      var g2 := CleanupKsym(cfg, g, ks[0]);
      Counted(cfg, g1, g2, n + m, b);
      CleanupRoom(cfg, g2, ks[1..], n, b);
    }
  }

  // Nothing but these relocations is pending.
  predicate Waiting(g: Gen, rs: seq<Relo>) {
    g.Live? && g.relos == rs && g.ksyms == [] && g.nrFdArray == 0 && g.coreRelos == [] && g.attachKind == 0
  }

  // A small program with kernel functions.
  lemma LoadRoom(cfg: Config, g: Gen, s: ProgSpec, rs: seq<Relo>, n: nat, b: nat)
    requires Roomy(cfg, g, n + 14 + 6 * |rs|, b + 176 + 16 * |rs|) && Small(s) && Waiting(g, rs) && PlainFunctions(rs)
    requires |rs| <= MAX_KFUNC_DESCS
    ensures var g2 := GenProgLoad(cfg, g, s);
      Roomy(cfg, g2, n, b) && Waiting(g2, []) && g2.nrProgs == g.nrProgs + 1 && g2.nrMaps == g.nrMaps
  {
    hide Roomy, Emit, AddProg, EmitProgPointers, EmitProgFields, EmitRelos, CleanupKsyms, EmitDebugRet,
      PlainFunctions, AllFunctions;
    var k := |rs|;
    var (g1, at) := AddProg(cfg, g, s, []);
    ProgRoom(cfg, g, s, n + 14 + 6 * k, b + 16 * k);
    RoomyLive(cfg, g1, n + 14 + 6 * k, b + 16 * k);
    var h := EmitProgPointers(cfg, g1, at);
    PointersRoom(cfg, g1, at, n + 8 + 6 * k, b + 16 * k);
    var g2 := EmitProgFields(cfg, h, at.attr);
    FieldsRoom(cfg, h, at.attr, n + 4 + 6 * k, b + 16 * k);
    RoomyLive(cfg, g2, n + 4 + 6 * k, b + 16 * k);
    NoFunctions();
    FunctionsRoom(cfg, g2, rs, at.insns, n + 4 + k, b);
    var g4 := EmitRelos(cfg, g2, rs, at.insns);
    RoomyLive(cfg, g4, n + 4 + k, b);
    Emits(cfg, g4, SysCall(BPF_PROG_LOAD, at.attr, PROG_ATTR_SZ), n + 3 + k, b);
    var g5 := Emit(cfg, g4, SysCall(BPF_PROG_LOAD, at.attr, PROG_ATTR_SZ));
    Shows(cfg, g5, MsgProgLoad(s.name, |s.insns| / 8), n + 2 + k, b);
    var g6 := EmitDebugRet(cfg, g5, MsgProgLoad(s.name, |s.insns| / 8));
    CleanupRoom(cfg, g6, g6.ksyms, n + 2, b);
    var g7 := CleanupKsyms(cfg, g6, g6.ksyms);
    RoomyLive(cfg, g7, n + 2, b);
    var g8 := g7.(ksyms := [], relos := [], coreRelos := []);
    Counted(cfg, g7, g8, n + 2, b);
    Emits(cfg, g8, CheckErr, n + 1, b);
    var g9 := Emit(cfg, g8, CheckErr);
    Emits(cfg, g9, SaveToStack(OffProgFd(g9.nrProgs)), n, b);
    var g10 := Emit(cfg, g9, SaveToStack(OffProgFd(g9.nrProgs)));
    Counted(cfg, g10, g10.(nrProgs := g10.nrProgs + 1), n, b);
  }

  lemma NoFunctions()
    ensures AllFunctions([])
  {
  }
}
