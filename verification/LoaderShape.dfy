/** The groups each API call emits, kernel symbols apart: attribute fields first, then
    one command with its error check, then what is done with its result. */
module LoaderShape {
  import opened LoaderBytes
  import opened LoaderMachine
  import opened LoaderIR
  import opened LoaderGen
  import opened LoaderFrame

  datatype Shape = Shape(pre: seq<Group>, cmd: int, attr: int, size: nat, dbg: Dbg, post: seq<Group>)

  function Groups(sh: Shape): seq<Group> {
    sh.pre + [SysCall(sh.cmd, sh.attr, sh.size), DebugRet(sh.dbg), CheckErr] + sh.post
  }

  predicate DbgIn(dbg: Dbg, hi: int) {
    dbg.Dbg? ==> 0 <= dbg.addr && 0 <= dbg.len && dbg.addr + dbg.len <= hi
  }

  predicate IsCommand(op: Op) {
    op.LoadBtf? || op.MapCreate? || op.MapUpdate? || op.MapFreeze? || op.PopulateOuter? || op.ProgLoad?
  }

  // Calls that name maps of this loader.
  predicate ValidOp(cfg: Config, op: Op) {
    match op
    case MapUpdate(idx, _) => 0 <= idx < cfg.nrMaps
    case MapFreeze(idx) => 0 <= idx < cfg.nrMaps
    case PopulateOuter(outer, _, inner) => 0 <= outer < cfg.nrMaps && 0 <= inner < cfg.nrMaps
    case _ => true
  }

  // The shape stays inside what the call added to the blob.
  predicate Fits(sh: Shape, g: Gen, g': Gen)
    requires g.Live? && g'.Live?
  {
    g'.groups == g.groups + Groups(sh)
    && |g.data| <= sh.attr && sh.attr + sh.size <= |g'.data|
    && DbgIn(sh.dbg, |g'.data|)
    && g.data <= g'.data
  }

  lemma Slice(a: Bytes, b: Bytes, i: int, n: nat)
    requires a <= b && InRange(a, i, n)
    ensures InRange(b, i, n) && b[i..i + n] == a[i..i + n]
  {
  }

  lemma PrefixTrans(a: Bytes, b: Bytes, c: Bytes)
    requires a <= b && b <= c
    ensures a <= c
  {
  }

  // add_data puts the bytes at the returned offset, behind everything else.
  lemma AddDataAt(cfg: Config, g: Gen, bytes: Bytes)
    requires AddData(cfg, g, bytes).0.Live?
    ensures g.Live?
    ensures var (g', off) := AddData(cfg, g, bytes);
      off == |g.data| && |g'.data| == off + Round8(|bytes|) && g.data <= g'.data
        && g' == g.(data := g'.data, pieces := g'.pieces)
      && g'.data[off..off + |bytes|] == bytes
  {
  }

  lemma AddDebugAt(cfg: Config, g: Gen, msg: Msg, single: bool)
    requires AddDebug(cfg, g, msg, single).0.Live?
    ensures g.Live?
    ensures var (g', dbg) := AddDebug(cfg, g, msg, single);
      DbgIn(dbg, |g'.data|) && g.data <= g'.data && g' == g.(data := g'.data, pieces := g'.pieces)
  {
  }

  lemma EmitAt(cfg: Config, g: Gen, group: Group)
    requires Emit(cfg, g, group).Live?
    ensures g.Live? && Emit(cfg, g, group) == g.(groups := g.groups + [group])
  {
    hide Insns, Code;
  }

  lemma DebugRetAt(cfg: Config, g: Gen, msg: Msg) returns (dbg: Dbg)
    requires EmitDebugRet(cfg, g, msg).Live?
    ensures g.Live?
    ensures var g' := EmitDebugRet(cfg, g, msg);
      DbgIn(dbg, |g'.data|) && g.data <= g'.data && g' == g.(groups := g.groups + [DebugRet(dbg)], data := g'.data,
        pieces := g'.pieces)
  {
    hide Emit, AddDebug;
    var (g1, d) := AddDebug(cfg, g, msg, true);
    EmitAt(cfg, g1, DebugRet(d));
    AddDebugAt(cfg, g, msg, true);
    dbg := d;
  }

  // The command, its print and its check.
  lemma CommandAt(cfg: Config, g: Gen, cmd: int, attr: int, size: nat, msg: Msg) returns (dbg: Dbg)
    requires Emit(cfg, EmitDebugRet(cfg, Emit(cfg, g, SysCall(cmd, attr, size)), msg), CheckErr).Live?
    ensures g.Live?
    ensures var g' := Emit(cfg, EmitDebugRet(cfg, Emit(cfg, g, SysCall(cmd, attr, size)), msg), CheckErr);
      DbgIn(dbg, |g'.data|) && g.data <= g'.data
      && g' == g.(groups := g.groups + [SysCall(cmd, attr, size), DebugRet(dbg), CheckErr], data := g'.data,
        pieces := g'.pieces)
  {
    hide Emit, EmitDebugRet;
    var g1 := Emit(cfg, g, SysCall(cmd, attr, size));
    var g2 := EmitDebugRet(cfg, g1, msg);
    EmitAt(cfg, g2, CheckErr);
    dbg := DebugRetAt(cfg, g1, msg);
    EmitAt(cfg, g, SysCall(cmd, attr, size));
    assert g.groups + [SysCall(cmd, attr, size)] + [DebugRet(dbg)] + [CheckErr]
        == g.groups + [SysCall(cmd, attr, size), DebugRet(dbg), CheckErr];
  }

  lemma BtfShape(cfg: Config, g: Gen, raw: Bytes) returns (sh: Shape)
    requires GenLoadBtf(cfg, g, raw).Live?
    ensures g.Live?
    ensures var g' := GenLoadBtf(cfg, g, raw);
      Fits(sh, g, g') && g' == g.(groups := g'.groups, data := g'.data, pieces := g'.pieces)
      && sh.cmd == BPF_BTF_LOAD && sh.size == BTF_ATTR_SZ && sh.post == [SaveToStack(OFF_BTF_FD)]
      && sh.attr >= |g.data| + |raw|
      && sh.pre == [
        Ctx2Blob(sh.attr + BTF_LOG_LEVEL, W, CTX_LOG_LEVEL, false),
        Ctx2Blob(sh.attr + BTF_LOG_SIZE, W, CTX_LOG_SIZE, false),
        Ctx2Blob(sh.attr + BTF_LOG_BUF, DW, CTX_LOG_BUF, false),
        RelStore(sh.attr + BTF_BTF, |g.data|)]
      && g'.data[|g.data|..|g.data| + |raw|] == raw
      && g'.data[sh.attr..sh.attr + BTF_ATTR_SZ] == BtfAttr(|raw|)
  {
    hide Emit, AddData, EmitDebugRet, BtfAttr, Wf, Extends, Grown, DataGrown;
    var (g1, btf) := AddData(cfg, g, raw);
    var (g2, attr) := AddData(cfg, g1, BtfAttr(|raw|));
    var a := Ctx2Blob(attr + BTF_LOG_LEVEL, W, CTX_LOG_LEVEL, false);
    var b := Ctx2Blob(attr + BTF_LOG_SIZE, W, CTX_LOG_SIZE, false);
    var c := Ctx2Blob(attr + BTF_LOG_BUF, DW, CTX_LOG_BUF, false);
    var d := RelStore(attr + BTF_BTF, btf);
    var ga := Emit(cfg, g2, a);
    var gb := Emit(cfg, ga, b);
    var gc := Emit(cfg, gb, c);
    var gd := Emit(cfg, gc, d);
    var ge := Emit(cfg, EmitDebugRet(cfg, Emit(cfg, gd, SysCall(BPF_BTF_LOAD, attr, BTF_ATTR_SZ)),
      MsgBtfLoad(|raw|)), CheckErr);
    EmitAt(cfg, ge, SaveToStack(OFF_BTF_FD));
    var dbg := CommandAt(cfg, gd, BPF_BTF_LOAD, attr, BTF_ATTR_SZ, MsgBtfLoad(|raw|));
    EmitAt(cfg, gc, d);
    EmitAt(cfg, gb, c);
    EmitAt(cfg, ga, b);
    EmitAt(cfg, g2, a);
    AddDataAt(cfg, g1, BtfAttr(|raw|));
    AddDataAt(cfg, g, raw);
    sh := Shape([a, b, c, d], BPF_BTF_LOAD, attr, BTF_ATTR_SZ, dbg, [SaveToStack(OFF_BTF_FD)]);
    PrefixTrans(g.data, g1.data, g2.data);
    PrefixTrans(g.data, g2.data, ge.data);
    PrefixTrans(g1.data, g2.data, ge.data);
    Slice(g2.data, ge.data, attr, BTF_ATTR_SZ);
    Slice(g1.data, ge.data, btf, |raw|);
    assert ge.groups == g.groups + [a] + [b] + [c] + [d] + [SysCall(BPF_BTF_LOAD, attr, BTF_ATTR_SZ), DebugRet(dbg), CheckErr];
    assert ge.groups + [SaveToStack(OFF_BTF_FD)] == g.groups + Groups(sh);
  }

  // Map attributes: the fields known only at run time.
  function MapPre(s: MapSpec, idx: int, attr: int): seq<Group> {
    (if s.btfValueTypeId != 0 then [Stack2Blob(attr + MAP_BTF_FD, W, OFF_BTF_FD)] else [])
    + (if IsOuter(s) then [Stack2Blob(attr + MAP_INNER_FD, W, OFF_INNER_MAP_FD)] else [])
    + (if idx >= 0 then [Ctx2Blob(attr + MAP_MAX_ENTRIES, W, CtxMaxEntries(idx), true)] else [])
  }

  // What is done with a created map: saved in its slot, and the inner map it used closed.
  predicate MapPost(s: MapSpec, idx: int, post: seq<Group>, hi: int) {
    var save := if idx < 0 then SaveToStack(OFF_INNER_MAP_FD) else SaveToBlob(FdSlot(idx));
    if IsOuter(s) then |post| == 2 && post[0] == save && post[1].CloseStack? && post[1].stackOff == OFF_INNER_MAP_FD
      && DbgIn(post[1].dbg, hi)
    else post == [save]
  }

  lemma MapAttrAt(cfg: Config, g: Gen, s: MapSpec, idx: int, attr: int)
    requires EmitMapAttr(cfg, g, s, idx, attr).Live?
    ensures g.Live?
    ensures EmitMapAttr(cfg, g, s, idx, attr)
         == g.(groups := g.groups + MapPre(s, idx, attr) + [SysCall(BPF_MAP_CREATE, attr, MAP_ATTR_SZ)])
  {
    hide Emit;
    var a := Stack2Blob(attr + MAP_BTF_FD, W, OFF_BTF_FD);
    var b := Stack2Blob(attr + MAP_INNER_FD, W, OFF_INNER_MAP_FD);
    var c := Ctx2Blob(attr + MAP_MAX_ENTRIES, W, CtxMaxEntries(idx), true);
    var g1 := if s.btfValueTypeId != 0 then Emit(cfg, g, a) else g;
    var g2 := if IsOuter(s) then Emit(cfg, g1, b) else g1;
    var g3 := if idx >= 0 then Emit(cfg, g2, c) else g2;
    EmitAt(cfg, g3, SysCall(BPF_MAP_CREATE, attr, MAP_ATTR_SZ));
    if idx >= 0 { EmitAt(cfg, g2, c); }
    if IsOuter(s) { EmitAt(cfg, g1, b); }
    if s.btfValueTypeId != 0 { EmitAt(cfg, g, a); }
    assert g3.groups == g.groups + MapPre(s, idx, attr);
  }

  lemma CloseAt(cfg: Config, g: Gen, off: int) returns (dbg: Dbg)
    requires EmitCloseStack(cfg, g, off).Live?
    ensures g.Live?
    ensures var g' := EmitCloseStack(cfg, g, off);
      DbgIn(dbg, |g'.data|) && g.data <= g'.data && g' == g.(groups := g.groups + [CloseStack(off, dbg)],
        data := g'.data, pieces := g'.pieces)
  {
    hide Emit, AddDebug;
    var (g1, d) := AddDebug(cfg, g, MsgClose, false);
    EmitAt(cfg, g1, CloseStack(off, d));
    AddDebugAt(cfg, g, MsgClose, false);
    dbg := d;
  }

  lemma MapShape(cfg: Config, g: Gen, s: MapSpec, idx: int) returns (sh: Shape)
    requires GenMapCreate(cfg, g, s, idx).Live?
    ensures g.Live?
    ensures var g' := GenMapCreate(cfg, g, s, idx);
      Fits(sh, g, g') && g' == g.(groups := g'.groups, data := g'.data, pieces := g'.pieces, nrMaps := g'.nrMaps)
      && (if idx < 0 then g'.nrMaps == g.nrMaps else idx == g.nrMaps && g.nrMaps != MAX_USED_MAPS && g'.nrMaps == g.nrMaps + 1)
      && sh.cmd == BPF_MAP_CREATE && sh.size == MAP_ATTR_SZ && sh.pre == MapPre(s, idx, sh.attr)
      && MapPost(s, idx, sh.post, |g'.data|)
      && g'.data[sh.attr..sh.attr + MAP_ATTR_SZ] == MapAttr(s)
  {
    hide Emit, AddData, EmitDebugRet, EmitMapAttr, EmitCloseStack, MapAttr, Wf, Extends, Grown, DataGrown;
    var (g1, attr) := AddData(cfg, g, MapAttr(s));
    var g2 := EmitMapAttr(cfg, g1, s, idx, attr);
    var g3 := EmitDebugRet(cfg, g2, MsgMapCreate(s.name, idx, s.mapType, s.valueSize, s.btfValueTypeId));
    var g4 := Emit(cfg, g3, CheckErr);
    var save := if idx < 0 then SaveToStack(OFF_INNER_MAP_FD) else SaveToBlob(FdSlot(idx));
    var g4' := if idx < 0 then g4 else g4.(nrMaps := g4.nrMaps + 1);
    var g5 := Emit(cfg, g4', save);
    var g6 := GenMapCreate(cfg, g, s, idx);
    var post := [save];
    if IsOuter(s) {
      var d := CloseAt(cfg, g5, OFF_INNER_MAP_FD);
      post := [save, CloseStack(OFF_INNER_MAP_FD, d)];
    }
    EmitAt(cfg, g4', save);
    EmitAt(cfg, g3, CheckErr);
    var dbg := DebugRetAt(cfg, g2, MsgMapCreate(s.name, idx, s.mapType, s.valueSize, s.btfValueTypeId));
    MapAttrAt(cfg, g1, s, idx, attr);
    AddDataAt(cfg, g, MapAttr(s));
    sh := Shape(MapPre(s, idx, attr), BPF_MAP_CREATE, attr, MAP_ATTR_SZ, dbg, post);
    PrefixTrans(g1.data, g4.data, g6.data);
    PrefixTrans(g.data, g1.data, g6.data);
    Slice(g1.data, g6.data, attr, MAP_ATTR_SZ);
    assert g6.groups == g.groups + sh.pre + [SysCall(BPF_MAP_CREATE, attr, MAP_ATTR_SZ)] + [DebugRet(dbg)] + [CheckErr] + post;
  }

  lemma UpdateShape(cfg: Config, g: Gen, idx: int, value: Bytes) returns (sh: Shape, key: int)
    requires GenMapUpdate(cfg, g, idx, value).Live?
    ensures g.Live?
    ensures var g' := GenMapUpdate(cfg, g, idx, value);
      Fits(sh, g, g') && g' == g.(groups := g'.groups, data := g'.data, pieces := g'.pieces)
      && sh.cmd == BPF_MAP_UPDATE_ELEM && sh.size == ELEM_ATTR_SZ && sh.post == []
      && |g.data| + |value| <= key && key + 4 <= sh.attr
      && sh.pre == [
        InitialValue(CtxInitialValue(idx), |g.data|, |value|),
        Blob2Blob(sh.attr + ELEM_MAP_FD, W, FdSlot(idx)),
        RelStore(sh.attr + ELEM_KEY, key),
        RelStore(sh.attr + ELEM_VALUE, |g.data|)]
      && g'.data[|g.data|..|g.data| + |value|] == value
      && g'.data[key..key + 4] == Zeros(4)
      && g'.data[sh.attr..sh.attr + ELEM_ATTR_SZ] == Zeros(ELEM_ATTR_SZ)
  {
    hide Emit, AddData, EmitDebugRet, Zeros, Wf, Extends, Grown, DataGrown;
    var (g1, val) := AddData(cfg, g, value);
    var (g2, k) := AddData(cfg, g1, Zeros(4));
    var a := InitialValue(CtxInitialValue(idx), val, |value|);
    var g3 := Emit(cfg, g2, a);
    var (g4, attr) := AddData(cfg, g3, Zeros(ELEM_ATTR_SZ));
    var b := Blob2Blob(attr + ELEM_MAP_FD, W, FdSlot(idx));
    var c := RelStore(attr + ELEM_KEY, k);
    var d := RelStore(attr + ELEM_VALUE, val);
    var gb := Emit(cfg, g4, b);
    var gc := Emit(cfg, gb, c);
    var gd := Emit(cfg, gc, d);
    var g5 := GenMapUpdate(cfg, g, idx, value);
    var dbg := CommandAt(cfg, gd, BPF_MAP_UPDATE_ELEM, attr, ELEM_ATTR_SZ, MsgUpdateElem(idx, |value|));
    EmitAt(cfg, gc, d);
    EmitAt(cfg, gb, c);
    EmitAt(cfg, g4, b);
    AddDataAt(cfg, g3, Zeros(ELEM_ATTR_SZ));
    EmitAt(cfg, g2, a);
    AddDataAt(cfg, g1, Zeros(4));
    AddDataAt(cfg, g, value);
    sh, key := Shape([a, b, c, d], BPF_MAP_UPDATE_ELEM, attr, ELEM_ATTR_SZ, dbg, []), k;
    PrefixTrans(g4.data, gd.data, g5.data);
    PrefixTrans(g2.data, g4.data, g5.data);
    PrefixTrans(g1.data, g2.data, g5.data);
    PrefixTrans(g.data, g1.data, g5.data);
    Slice(g4.data, g5.data, attr, ELEM_ATTR_SZ);
    Slice(g2.data, g5.data, k, 4);
    Slice(g1.data, g5.data, val, |value|);
    assert g5.groups == g.groups + [a] + [b] + [c] + [d]
      + [SysCall(BPF_MAP_UPDATE_ELEM, attr, ELEM_ATTR_SZ), DebugRet(dbg), CheckErr];
  }

  lemma PopulateShape(cfg: Config, g: Gen, outer: int, slot: u32, inner: int) returns (sh: Shape, key: int)
    requires GenPopulateOuter(cfg, g, outer, slot, inner).Live?
    ensures g.Live?
    ensures var g' := GenPopulateOuter(cfg, g, outer, slot, inner);
      Fits(sh, g, g') && g' == g.(groups := g'.groups, data := g'.data, pieces := g'.pieces)
      && sh.cmd == BPF_MAP_UPDATE_ELEM && sh.size == ELEM_ATTR_SZ && sh.post == []
      && |g.data| <= key && key + 4 <= sh.attr
      && sh.pre == [
        Blob2Blob(sh.attr + ELEM_MAP_FD, W, FdSlot(outer)),
        RelStore(sh.attr + ELEM_KEY, key),
        RelStore(sh.attr + ELEM_VALUE, FdSlot(inner))]
      && g'.data[key..key + 4] == LE4(slot)
      && g'.data[sh.attr..sh.attr + ELEM_ATTR_SZ] == Zeros(ELEM_ATTR_SZ)
  {
    hide Emit, AddData, EmitDebugRet, Zeros, LE4;
    var (g1, k) := AddData(cfg, g, LE4(slot));
    var (g2, attr) := AddData(cfg, g1, Zeros(ELEM_ATTR_SZ));
    var a := Blob2Blob(attr + ELEM_MAP_FD, W, FdSlot(outer));
    var b := RelStore(attr + ELEM_KEY, k);
    var c := RelStore(attr + ELEM_VALUE, FdSlot(inner));
    var ga := Emit(cfg, g2, a);
    var gb := Emit(cfg, ga, b);
    var gc := Emit(cfg, gb, c);
    var g3 := GenPopulateOuter(cfg, g, outer, slot, inner);
    var dbg := CommandAt(cfg, gc, BPF_MAP_UPDATE_ELEM, attr, ELEM_ATTR_SZ, MsgPopulateOuter(outer, slot, inner));
    EmitAt(cfg, gb, c);
    EmitAt(cfg, ga, b);
    EmitAt(cfg, g2, a);
    AddDataAt(cfg, g1, Zeros(ELEM_ATTR_SZ));
    AddDataAt(cfg, g, LE4(slot));
    sh, key := Shape([a, b, c], BPF_MAP_UPDATE_ELEM, attr, ELEM_ATTR_SZ, dbg, []), k;
    PrefixTrans(g2.data, gc.data, g3.data);
    PrefixTrans(g1.data, g2.data, g3.data);
    PrefixTrans(g.data, g1.data, g3.data);
    Slice(g2.data, g3.data, attr, ELEM_ATTR_SZ);
    Slice(g1.data, g3.data, k, 4);
    assert g3.groups == g.groups + [a] + [b] + [c]
      + [SysCall(BPF_MAP_UPDATE_ELEM, attr, ELEM_ATTR_SZ), DebugRet(dbg), CheckErr];
  }

  lemma FreezeShape(cfg: Config, g: Gen, idx: int) returns (sh: Shape)
    requires GenMapFreeze(cfg, g, idx).Live?
    ensures g.Live?
    ensures var g' := GenMapFreeze(cfg, g, idx);
      Fits(sh, g, g') && g' == g.(groups := g'.groups, data := g'.data, pieces := g'.pieces)
      && sh.cmd == BPF_MAP_FREEZE && sh.size == FREEZE_ATTR_SZ && sh.post == []
      && sh.pre == [Blob2Blob(sh.attr + ELEM_MAP_FD, W, FdSlot(idx))]
      && g'.data[sh.attr..sh.attr + FREEZE_ATTR_SZ] == Zeros(FREEZE_ATTR_SZ)
  {
    hide Emit, AddData, EmitDebugRet, Zeros, Wf, Extends, Grown, DataGrown;
    var (g1, attr) := AddData(cfg, g, Zeros(FREEZE_ATTR_SZ));
    var a := Blob2Blob(attr + ELEM_MAP_FD, W, FdSlot(idx));
    var ga := Emit(cfg, g1, a);
    var g2 := GenMapFreeze(cfg, g, idx);
    var dbg := CommandAt(cfg, ga, BPF_MAP_FREEZE, attr, FREEZE_ATTR_SZ, MsgMapFreeze);
    EmitAt(cfg, g1, a);
    AddDataAt(cfg, g, Zeros(FREEZE_ATTR_SZ));
    sh := Shape([a], BPF_MAP_FREEZE, attr, FREEZE_ATTR_SZ, dbg, []);
    PrefixTrans(g1.data, ga.data, g2.data);
    PrefixTrans(g.data, g1.data, g2.data);
    Slice(g1.data, g2.data, attr, FREEZE_ATTR_SZ);
    assert g2.groups == g.groups + [a] + [SysCall(BPF_MAP_FREEZE, attr, FREEZE_ATTR_SZ), DebugRet(dbg), CheckErr];
  }

  // --- programs

  function ProgPointers(at: ProgBlob): seq<Group> {
    [RelStore(at.attr + PROG_LICENSE, at.license),
     RelStore(at.attr + PROG_INSNS, at.insns),
     RelStore(at.attr + PROG_FUNC_INFO, at.funcInfo),
     RelStore(at.attr + PROG_LINE_INFO, at.lineInfo),
     RelStore(at.attr + PROG_CORE_RELOS, at.core),
     RelStore(at.attr + PROG_FD_ARRAY, FD_ARRAY)]
  }

  function ProgFields(attr: int): seq<Group> {
    [Ctx2Blob(attr + PROG_LOG_LEVEL, W, CTX_LOG_LEVEL, false),
     Ctx2Blob(attr + PROG_LOG_SIZE, W, CTX_LOG_SIZE, false),
     Ctx2Blob(attr + PROG_LOG_BUF, DW, CTX_LOG_BUF, false),
     Stack2Blob(attr + PROG_BTF_FD, W, OFF_BTF_FD)]
  }

  lemma ProgPointersAt(cfg: Config, g: Gen, at: ProgBlob)
    requires EmitProgPointers(cfg, g, at).Live?
    ensures g.Live? && EmitProgPointers(cfg, g, at) == g.(groups := g.groups + ProgPointers(at))
  {
    hide Emit;
    var p := ProgPointers(at);
    var g1 := Emit(cfg, g, p[0]);
    var g2 := Emit(cfg, g1, p[1]);
    var g3 := Emit(cfg, g2, p[2]);
    var g4 := Emit(cfg, g3, p[3]);
    var g5 := Emit(cfg, g4, p[4]);
    EmitAt(cfg, g5, p[5]);
    EmitAt(cfg, g4, p[4]);
    EmitAt(cfg, g3, p[3]);
    EmitAt(cfg, g2, p[2]);
    EmitAt(cfg, g1, p[1]);
    EmitAt(cfg, g, p[0]);
    assert g.groups + p == g.groups + [p[0]] + [p[1]] + [p[2]] + [p[3]] + [p[4]] + [p[5]];
  }

  lemma ProgFieldsAt(cfg: Config, g: Gen, attr: int)
    requires EmitProgFields(cfg, g, attr).Live?
    ensures g.Live? && EmitProgFields(cfg, g, attr) == g.(groups := g.groups + ProgFields(attr))
  {
    hide Emit;
    var p := ProgFields(attr);
    var g1 := Emit(cfg, g, p[0]);
    var g2 := Emit(cfg, g1, p[1]);
    var g3 := Emit(cfg, g2, p[2]);
    EmitAt(cfg, g3, p[3]);
    EmitAt(cfg, g2, p[2]);
    EmitAt(cfg, g1, p[1]);
    EmitAt(cfg, g, p[0]);
    assert g.groups + p == g.groups + [p[0]] + [p[1]] + [p[2]] + [p[3]];
  }

  // What add_data put where for a program: pieces in this order, with these contents.
  predicate ProgIn(d: Bytes, lo: int, at: ProgBlob, s: ProgSpec, coreRelos: Bytes) {
    0 <= lo <= at.license && at.license + |s.license| + 1 <= at.insns && at.insns + |s.insns| <= at.funcInfo
    && at.funcInfo + |s.funcInfo| <= at.lineInfo && at.lineInfo + |s.lineInfo| <= at.core
    && at.core + |coreRelos| <= at.attr && at.attr + PROG_ATTR_SZ <= |d|
    && d[at.license..at.license + |s.license| + 1] == s.license + [0]
    && d[at.insns..at.insns + |s.insns|] == s.insns
    && d[at.funcInfo..at.funcInfo + |s.funcInfo|] == s.funcInfo
    && d[at.lineInfo..at.lineInfo + |s.lineInfo|] == s.lineInfo
    && d[at.core..at.core + |coreRelos|] == coreRelos
    && d[at.attr..at.attr + PROG_ATTR_SZ] == ProgAttr(s, coreRelos)
  }

  lemma ProgBlobAt(cfg: Config, g: Gen, s: ProgSpec, coreRelos: Bytes)
    requires AddProg(cfg, g, s, coreRelos).0.Live?
    ensures g.Live?
    ensures var (g', at) := AddProg(cfg, g, s, coreRelos);
      ProgIn(g'.data, |g.data|, at, s, coreRelos) && g' == g.(data := g'.data, pieces := g'.pieces) && g.data <= g'.data
  {
    hide AddData, ProgAttr, DataGrown;
    var lic := s.license + [0];
    var (g1, license) := AddData(cfg, g, lic);
    var (g2, insns) := AddData(cfg, g1, s.insns);
    var (g3, funcInfo) := AddData(cfg, g2, s.funcInfo);
    var (g4, lineInfo) := AddData(cfg, g3, s.lineInfo);
    var (g5, core) := AddData(cfg, g4, coreRelos);
    var (g6, attr) := AddData(cfg, g5, ProgAttr(s, coreRelos));
    AddDataAt(cfg, g5, ProgAttr(s, coreRelos));
    AddDataAt(cfg, g4, coreRelos);
    AddDataAt(cfg, g3, s.lineInfo);
    AddDataAt(cfg, g2, s.funcInfo);
    AddDataAt(cfg, g1, s.insns);
    AddDataAt(cfg, g, lic);
    PrefixTrans(g4.data, g5.data, g6.data);
    PrefixTrans(g3.data, g4.data, g6.data);
    PrefixTrans(g2.data, g3.data, g6.data);
    PrefixTrans(g1.data, g2.data, g6.data);
    PrefixTrans(g.data, g1.data, g6.data);
    Slice(g1.data, g6.data, license, |lic|);
    Slice(g2.data, g6.data, insns, |s.insns|);
    Slice(g3.data, g6.data, funcInfo, |s.funcInfo|);
    Slice(g4.data, g6.data, lineInfo, |s.lineInfo|);
    Slice(g5.data, g6.data, core, |coreRelos|);
  }
}
