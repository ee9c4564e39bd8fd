/** What each call of the loader-generator API appends to the loader program and to its data blob.
    Dead stands for a generator whose error field is set: nothing is handed out after that. */
module LoaderGen {
  import opened LoaderBytes
  import opened LoaderMachine
  import opened LoaderIR

  const MAX_USED_MAPS: nat := 64
  const MAX_USED_PROGS: nat := 32
  const MAX_KFUNC_DESCS: nat := 256
  const MAX_FD_ARRAY_SZ: nat := MAX_USED_MAPS + MAX_KFUNC_DESCS
  const INT32_MAX: int := 0x7fff_ffff
  const INT16_MAX: int := 0x7fff

  // stack_off(field): offsets of struct loader_stack below R10
  const OFF_BTF_FD: int := -STACK_SZ
  const OFF_INNER_MAP_FD: int := -STACK_SZ + 4

  function OffProgFd(i: int): int {
    -STACK_SZ + 8 + 4 * i
  }

  const FD_ARRAY: nat := 0

  function FdSlot(index: int): int {
    FD_ARRAY + 4 * index
  }

  // struct bpf_loader_ctx, then nr_maps of struct bpf_map_desc, then the program descriptors
  const CTX_SZ: int := 24
  const CTX_LOG_LEVEL: int := 8
  const CTX_LOG_SIZE: int := 12
  const CTX_LOG_BUF: int := 16

  function CtxMapFd(i: int): int { CTX_SZ + 16 * i }
  function CtxMaxEntries(i: int): int { CTX_SZ + 16 * i + 4 }
  function CtxInitialValue(i: int): int { CTX_SZ + 16 * i + 8 }
  function CtxProgFd(nrMaps: int, i: int): int { CTX_SZ + 16 * nrMaps + 4 * i }

  // enum bpf_cmd
  const BPF_MAP_CREATE: int := 0
  const BPF_MAP_UPDATE_ELEM: int := 2
  const BPF_PROG_LOAD: int := 5
  const BPF_BTF_LOAD: int := 18
  const BPF_MAP_FREEZE: int := 22

  // union bpf_attr: field offsets and the sizes passed with each command
  const MAP_ATTR_SZ: nat := 72
  const MAP_TYPE: int := 0
  const MAP_KEY_SIZE: int := 4
  const MAP_VALUE_SIZE: int := 8
  const MAP_MAX_ENTRIES: int := 12
  const MAP_FLAGS: int := 16
  const MAP_INNER_FD: int := 20
  const MAP_NUMA_NODE: int := 24
  const MAP_NAME: int := 28
  const MAP_IFINDEX: int := 44
  const MAP_BTF_FD: int := 48
  const MAP_BTF_KEY_TYPE_ID: int := 52
  const MAP_BTF_VALUE_TYPE_ID: int := 56
  const MAP_VMLINUX_VALUE_TYPE_ID: int := 60
  const MAP_EXTRA: int := 64
  const ELEM_ATTR_SZ: nat := 32
  const ELEM_MAP_FD: int := 0
  const ELEM_KEY: int := 8
  const ELEM_VALUE: int := 16
  const FREEZE_ATTR_SZ: nat := 4
  const BTF_ATTR_SZ: nat := 28
  const BTF_BTF: int := 0
  const BTF_LOG_BUF: int := 8
  const BTF_SIZE: int := 16
  const BTF_LOG_SIZE: int := 20
  const BTF_LOG_LEVEL: int := 24
  const PROG_ATTR_SZ: nat := 140
  const PROG_TYPE: int := 0
  const PROG_INSN_CNT: int := 4
  const PROG_INSNS: int := 8
  const PROG_LICENSE: int := 16
  const PROG_LOG_LEVEL: int := 24
  const PROG_LOG_SIZE: int := 28
  const PROG_LOG_BUF: int := 32
  const PROG_KERN_VERSION: int := 40
  const PROG_FLAGS: int := 44
  const PROG_NAME: int := 48
  const PROG_IFINDEX: int := 64
  const PROG_EXPECTED_ATTACH_TYPE: int := 68
  const PROG_BTF_FD: int := 72
  const PROG_FUNC_INFO_REC_SIZE: int := 76
  const PROG_FUNC_INFO: int := 80
  const PROG_FUNC_INFO_CNT: int := 88
  const PROG_LINE_INFO_REC_SIZE: int := 92
  const PROG_LINE_INFO: int := 96
  const PROG_LINE_INFO_CNT: int := 104
  const PROG_CORE_RELO_CNT: int := 116
  const PROG_FD_ARRAY: int := 120
  const PROG_CORE_RELOS: int := 128
  const PROG_CORE_RELO_REC_SIZE: int := 136

  const BPF_MAP_TYPE_ARRAY_OF_MAPS: nat := 12
  const BPF_MAP_TYPE_HASH_OF_MAPS: nat := 13
  const BTF_KIND_FUNC: int := 12
  const BTF_KIND_VAR: int := 14

  type u32 = x: nat | x < 0x1_0000_0000

  // --- arguments of the API

  // A debug message before formatting.
  datatype Msg =
    | MsgClose
    | MsgBtfLoad(size: nat)
    | MsgMapCreate(name: Bytes, idx: int, mapType: nat, valueSize: nat, btfId: nat)
    | MsgProgLoad(name: Bytes, cnt: nat)
    | MsgUpdateElem(idx: int, size: nat)
    | MsgPopulateOuter(outer: int, slot: int, inner: int)
    | MsgMapFreeze
    | MsgFind(name: Bytes, kind: int)
    | MsgLookup(name: Bytes, kind: int)
    | MsgKfunc(name: Bytes, ref: nat)
    | MsgKfuncFd(name: Bytes, ref: nat)
    | MsgKsym(name: Bytes, ref: nat, isTypeless: bool, isWeak: bool)
    | MsgKsymReg(name: Bytes, ref: nat, isTypeless: bool, isWeak: bool)

  // Arguments of bpf_gen__init, how vsnprintf formats a message, and how far the two buffers can grow.
  datatype Config = Config(logLevel: int, nrProgs: nat, nrMaps: nat, format: Msg -> Bytes, insnLimit: nat, dataLimit: nat)

  datatype MapSpec = MapSpec(
    mapType: u32, name: Bytes, keySize: u32, valueSize: u32, maxEntries: u32, flags: u32, numaNode: u32,
    ifindex: u32, btfKeyTypeId: u32, btfValueTypeId: u32, extra: nat)

  datatype ProgSpec = ProgSpec(
    progType: u32, name: Bytes, license: Bytes, insns: Bytes, expectedAttachType: u32, attachBtfId: u32,
    ifindex: u32, flags: u32, funcInfoRecSize: u32, funcInfoCnt: u32, funcInfo: Bytes,
    lineInfoRecSize: u32, lineInfoCnt: u32, lineInfo: Bytes)

  // A recorded reference of the next program to a kernel symbol.
  datatype Relo = Relo(name: Bytes, kind: int, insnIdx: nat, isWeak: bool, isTypeless: bool)

  // off is a union: the fd_array index of a kfunc, 1 for a typeless variable.
  datatype Ksym = Ksym(name: Bytes, kind: int, ref: nat, off: int, insn: int)

  datatype Op =
    | LoadBtf(raw: Bytes)
    | MapCreate(spec: MapSpec, idx: int)
    | MapUpdate(idx: int, value: Bytes)
    | MapFreeze(idx: int)
    | PopulateOuter(outer: int, slot: u32, inner: int)
    | RecordAttach(target: Bytes, kind: int)
    | RecordExtern(relo: Relo)
    | RecordCoreRelo(core: Bytes)
    | ProgLoad(prog: ProgSpec)

  // --- attribute templates

  function LE4(v: nat): (s: Bytes)
    ensures |s| == 4
  {
    LittleEndian(v, 4)
  }

  // libbpf_strlcpy into a 16-byte name field
  function NameField(name: Bytes): (s: Bytes)
    ensures |s| == 16
  {
    var n := if |name| < 15 then |name| else 15;
    name[..n] + Zeros(16 - n)
  }

  function MapAttr(s: MapSpec): (a: Bytes)
    ensures |a| == MAP_ATTR_SZ
  {
    LE4(s.mapType) + LE4(s.keySize) + LE4(s.valueSize) + LE4(s.maxEntries) + LE4(s.flags) + LE4(0)
    + LE4(s.numaNode) + NameField(s.name) + LE4(s.ifindex) + LE4(0) + LE4(s.btfKeyTypeId)
    + LE4(s.btfValueTypeId) + LE4(0) + LittleEndian(s.extra, 8)
  }

  function BtfAttr(size: nat): (a: Bytes)
    ensures |a| == BTF_ATTR_SZ
  {
    Zeros(16) + LE4(size) + Zeros(8)
  }

  const CORE_RELO_SZ: nat := 16

  function ProgAttr(s: ProgSpec, coreRelos: Bytes): (a: Bytes)
    ensures |a| == PROG_ATTR_SZ
  {
    LE4(s.progType) + LE4(|s.insns| / 8) + Zeros(32) + LE4(0) + LE4(s.flags) + NameField(s.name)
    + LE4(s.ifindex) + LE4(s.expectedAttachType) + LE4(0) + LE4(s.funcInfoRecSize) + Zeros(8)
    + LE4(s.funcInfoCnt) + LE4(s.lineInfoRecSize) + Zeros(8) + LE4(s.lineInfoCnt) + LE4(s.attachBtfId)
    + LE4(0) + LE4(|coreRelos| / CORE_RELO_SZ) + Zeros(16) + LE4(CORE_RELO_SZ)
  }

  // --- the generator

  // A stretch of the blob that one add_data was asked for.
  datatype Piece = Piece(off: nat, len: nat)

  // The pieces lie one behind the other in a blob of n bytes.
  predicate Tiled(pieces: seq<Piece>, n: nat) {
    (forall i | 0 <= i < |pieces| :: pieces[i].off + pieces[i].len <= n)
    && forall i, j | 0 <= i < j < |pieces| :: pieces[i].off + pieces[i].len <= pieces[j].off
  }

  datatype Gen =
    | Dead
    | Live(groups: seq<Group>, data: Bytes, pieces: seq<Piece>, nrProgs: nat, nrMaps: nat, nrFdArray: int,
           relos: seq<Relo>, ksyms: seq<Ksym>, coreRelos: Bytes, attachKind: int, attachTarget: Bytes)

  // g' has more data than g, and is otherwise the same.
  predicate DataGrown(cfg: Config, g: Gen, g': Gen) {
    g'.Live? ==>
      g.Live? && g' == g.(data := g'.data, pieces := g'.pieces) && g.data <= g'.data
      && (|g.data| <= cfg.dataLimit ==> |g'.data| <= cfg.dataLimit) && (|g.data| % 8 == 0 ==> |g'.data| % 8 == 0)
      && g.pieces <= g'.pieces && (Tiled(g.pieces, |g.data|) ==> Tiled(g'.pieces, |g'.data|))
  }

  function Round8(n: nat): (r: nat)
    ensures n <= r < n + 8 && r % 8 == 0
  {
    (n + 7) / 8 * 8
  }

  // add_data: the zero-padded bytes go to the end of the blob; returns their offset.
  function AddData(cfg: Config, g: Gen, bytes: Bytes): (r: (Gen, int))
    ensures DataGrown(cfg, g, r.0)
    ensures g.Dead? ==> r.0.Dead?
  {
    if g.Dead? || |g.data| + Round8(|bytes|) > cfg.dataLimit then (Dead, 0)
    else
      var data := g.data + bytes + Zeros(Round8(|bytes|) - |bytes|);
      (g.(data := data, pieces := g.pieces + [Piece(|g.data|, |bytes|)]), |g.data|)
  }

  // The bytes emit_debug leaves in its buffer, terminator included.
  function DebugText(cfg: Config, msg: Msg, single: bool): (t: Bytes)
    ensures 1 <= |t| <= 1024
  {
    var full := cfg.format(msg);
    var buf := if |full| < 1023 then full else full[..1023];
    buf + (if |full| < 1024 - 7 && single then [0x20, 0x72, 0x3d, 0x25, 0x64] else []) + [0]
  }

  function AddDebug(cfg: Config, g: Gen, msg: Msg, single: bool): (r: (Gen, Dbg))
    ensures DataGrown(cfg, g, r.0)
    ensures g.Dead? ==> r.0.Dead?
  {
    if cfg.logLevel == 0 then (g, NoDbg) else
    var text := DebugText(cfg, msg, single);
    var (g1, addr) := AddData(cfg, g, text);
    (g1, Dbg(addr, |text|))
  }

  const SETUP: seq<Insn> :=
    [MovReg(6, 1), MovReg(1, 10), AddImm(1, -STACK_SZ), MovImm(2, STACK_SZ), MovImm(3, 0), Call(ProbeReadKernel)]

  // Slots of the cleanup label: after SETUP and the jump over the cleanup code.
  const CLEANUP: nat := 7

  // amount of stack that holds descriptors: offsetof(struct loader_stack, prog_fd[nr_progs])
  function NrProgsSz(cfg: Config): nat {
    8 + 4 * cfg.nrProgs
  }

  function CleanupJump(cfg: Config): Insn {
    Ja(NrProgsSz(cfg) / 4 * 3 + 2 + cfg.nrMaps * (6 + (if cfg.logLevel != 0 then 6 else 0)))
  }

  // The closes of the first n words of the stack layout.
  function QuietCloses(n: nat): (gs: seq<Group>)
    ensures |gs| == n
  {
    if n == 0 then [] else QuietCloses(n - 1) + [CloseStackQuiet(-STACK_SZ + 4 * (n - 1))]
  }

  // The closes of the first n map slots, and the blob with their messages.
  function MapCloses(cfg: Config, g: Gen, n: nat): (r: (Gen, seq<Group>))
    ensures |r.1| == n
    ensures DataGrown(cfg, g, r.0)
    ensures g.Dead? ==> r.0.Dead?
  {
    if n == 0 then (g, []) else
    var (g1, gs) := MapCloses(cfg, g, n - 1);
    var (g2, dbg) := AddDebug(cfg, g1, MsgClose, false);
    (g2, gs + [CloseBlob(FdSlot(n - 1), dbg)])
  }

  const INITIAL: Gen := Live([], [], [], 0, 0, 0, [], [], [], 0, [])

  function ReserveFds(cfg: Config): Gen {
    AddData(cfg, INITIAL, Zeros(MAX_FD_ARRAY_SZ * 4)).0
  }

  function CleanupGroups(cfg: Config): seq<Group> {
    QuietCloses(NrProgsSz(cfg) / 4) + MapCloses(cfg, ReserveFds(cfg), cfg.nrMaps).1
  }

  const RETURN_R7: seq<Insn> := [MovReg(0, 7), Exit]
  const RETURN_0: seq<Insn> := [MovImm(0, 0), Exit]

  function Prologue(cfg: Config): seq<Insn> {
    SETUP + [CleanupJump(cfg)] + Flat(CleanupGroups(cfg), CLEANUP, CLEANUP) + RETURN_R7
  }

  // All instructions of a live generator.
  function Insns(cfg: Config, groups: seq<Group>): seq<Insn> {
    Prologue(cfg) + Flat(groups, |Prologue(cfg)|, CLEANUP)
  }

  lemma InsnsNone(cfg: Config)
    ensures Insns(cfg, []) == Prologue(cfg)
  {
  }

  function Init(cfg: Config): Gen {
    var g := MapCloses(cfg, ReserveFds(cfg), cfg.nrMaps).0;
    if |Prologue(cfg)| > cfg.insnLimit then Dead else g
  }

  predicate IsSimm16(v: int) {
    -0x8000 <= v < 0x8000
  }

  // The jump of an error check must reach the cleanup label from slot pos.
  predicate Reachable(g: Group, pos: int) {
    match g
    case CheckErr => IsSimm16(CLEANUP - pos - 1)
    case CheckErrUnlessEnoent => IsSimm16(CLEANUP - pos - 2)
    case _ => true
  }

  // Every error check stands where its jump still reaches the cleanup label.
  ghost predicate Placed(cfg: Config, groups: seq<Group>) {
    groups == [] ||
    var n := |groups| - 1;
    Placed(cfg, groups[..n]) && Reachable(groups[n], |Insns(cfg, groups[..n])|)
  }

  // What every generator without an error has kept to.
  ghost predicate Wf(cfg: Config, g: Gen) {
    g.Live? ==>
      Placed(cfg, g.groups) && |Insns(cfg, g.groups)| <= cfg.insnLimit && |g.data| <= cfg.dataLimit && |g.data| % 8 == 0
      && Tiled(g.pieces, |g.data|)
  }

  // g' has more groups and data than g, both well placed.
  ghost predicate Extends(cfg: Config, g: Gen, g': Gen) {
    (g'.Live? ==> g.Live? && g.groups <= g'.groups && g.data <= g'.data && g.pieces <= g'.pieces)
      && (Wf(cfg, g) ==> Wf(cfg, g'))
  }

  lemma ExtendsTrans(cfg: Config, g: Gen, h: Gen, k: Gen)
    requires Extends(cfg, g, h) && Extends(cfg, h, k)
    ensures Extends(cfg, g, k)
  {
    hide Wf;
  }

  lemma ExtendsDead(cfg: Config, g: Gen)
    ensures Extends(cfg, g, Dead)
  {
  }

  // g' has more groups and data than g, and is otherwise the same.
  ghost predicate Grown(cfg: Config, g: Gen, g': Gen) {
    Extends(cfg, g, g') && (g'.Live? ==> g' == g.(groups := g'.groups, data := g'.data, pieces := g'.pieces))
  }

  lemma DataExtends(cfg: Config, g: Gen, g': Gen)
    requires DataGrown(cfg, g, g')
    ensures Grown(cfg, g, g')
  {
  }

  lemma FlatSingle(group: Group, pos: int)
    ensures Flat([group], pos, CLEANUP) == Code(group, pos, CLEANUP)
  {
    hide Code;
    assert Flat([group], pos, CLEANUP) == Code(group, pos, CLEANUP) + Flat([], pos + |Code(group, pos, CLEANUP)|, CLEANUP);
  }

  lemma FlatSnoc(groups: seq<Group>, group: Group, pos: int)
    ensures Flat(groups + [group], pos, CLEANUP)
         == Flat(groups, pos, CLEANUP) + Code(group, pos + |Flat(groups, pos, CLEANUP)|, CLEANUP)
  {
    hide Code;
    FlatAppend(groups, [group], pos, CLEANUP);
    FlatSingle(group, pos + |Flat(groups, pos, CLEANUP)|);
  }

  lemma FlatOne(cfg: Config, groups: seq<Group>, group: Group)
    ensures var pos := |Insns(cfg, groups)|; Insns(cfg, groups + [group]) == Insns(cfg, groups) + Code(group, pos, CLEANUP)
  {
    hide Code, Prologue;
    var pos := |Insns(cfg, groups)|;
    FlatSnoc(groups, group, |Prologue(cfg)|);
  }

  function Emit(cfg: Config, g: Gen, group: Group): (g': Gen)
    ensures Grown(cfg, g, g')
    ensures g.Dead? ==> g'.Dead?
  {
    if g.Dead? then Dead else
    var pos := |Insns(cfg, g.groups)|;
    if pos + |Code(group, pos, CLEANUP)| > cfg.insnLimit || !Reachable(group, pos) then Dead
    else
      FlatOne(cfg, g.groups, group);
      assert (g.groups + [group])[..|g.groups|] == g.groups;
      g.(groups := g.groups + [group])
  }

  function EmitAll(cfg: Config, g: Gen, gs: seq<Group>): (g': Gen)
    ensures Grown(cfg, g, g')
    ensures g.Dead? ==> g'.Dead?
    decreases |gs|
  {
    if gs == [] then g else EmitAll(cfg, Emit(cfg, g, gs[0]), gs[1..])
  }

  lemma {:induction false} EmitSnoc(cfg: Config, g: Gen, gs: seq<Group>, group: Group)
    ensures EmitAll(cfg, g, gs + [group]) == Emit(cfg, EmitAll(cfg, g, gs), group)
    decreases |gs|
  {
    hide Emit;
    if gs == [] {
      assert EmitAll(cfg, g, [group]) == EmitAll(cfg, Emit(cfg, g, group), []);
    } else {
      assert (gs + [group])[1..] == gs[1..] + [group];
      EmitSnoc(cfg, Emit(cfg, g, gs[0]), gs[1..], group);
    }
  }

  function EmitDebugRet(cfg: Config, g: Gen, msg: Msg): (g': Gen)
    ensures Grown(cfg, g, g')
    ensures g.Dead? ==> g'.Dead?
  {
    var (g1, dbg) := AddDebug(cfg, g, msg, true);
    Emit(cfg, g1, DebugRet(dbg))
  }

  function EmitDebugPair(cfg: Config, g: Gen, msg: Msg): (g': Gen)
    ensures Grown(cfg, g, g')
    ensures g.Dead? ==> g'.Dead?
  {
    var (g1, dbg) := AddDebug(cfg, g, msg, false);
    Emit(cfg, g1, DebugPair(dbg))
  }

  function EmitDebugR9(cfg: Config, g: Gen, msg: Msg): (g': Gen)
    ensures Grown(cfg, g, g')
    ensures g.Dead? ==> g'.Dead?
  {
    var (g1, dbg) := AddDebug(cfg, g, msg, true);
    Emit(cfg, g1, DebugR9(dbg))
  }

  function EmitCloseStack(cfg: Config, g: Gen, off: int): (g': Gen)
    ensures Grown(cfg, g, g')
    ensures g.Dead? ==> g'.Dead?
  {
    var (g1, dbg) := AddDebug(cfg, g, MsgClose, false);
    Emit(cfg, g1, CloseStack(off, dbg))
  }

  function EmitCloseBlob(cfg: Config, g: Gen, off: int): (g': Gen)
    ensures Grown(cfg, g, g')
    ensures g.Dead? ==> g'.Dead?
  {
    var (g1, dbg) := AddDebug(cfg, g, MsgClose, false);
    Emit(cfg, g1, CloseBlob(off, dbg))
  }

  // --- API calls without relocations

  function GenLoadBtf(cfg: Config, g: Gen, raw: Bytes): (g': Gen)
    ensures Extends(cfg, g, g')
    ensures g.Dead? ==> g'.Dead?
  {
    var (g1, btf) := AddData(cfg, g, raw);
    var (g2, attr) := AddData(cfg, g1, BtfAttr(|raw|));
    var g3a := Emit(cfg, g2, Ctx2Blob(attr + BTF_LOG_LEVEL, W, CTX_LOG_LEVEL, false));
    var g3b := Emit(cfg, g3a, Ctx2Blob(attr + BTF_LOG_SIZE, W, CTX_LOG_SIZE, false));
    var g3c := Emit(cfg, g3b, Ctx2Blob(attr + BTF_LOG_BUF, DW, CTX_LOG_BUF, false));
    var g3d := Emit(cfg, g3c, RelStore(attr + BTF_BTF, btf));
    var g3 := Emit(cfg, g3d, SysCall(BPF_BTF_LOAD, attr, BTF_ATTR_SZ));
    var g4 := EmitDebugRet(cfg, g3, MsgBtfLoad(|raw|));
    Emit(cfg, Emit(cfg, g4, CheckErr), SaveToStack(OFF_BTF_FD))
  }

  predicate IsOuter(s: MapSpec) {
    s.mapType == BPF_MAP_TYPE_ARRAY_OF_MAPS || s.mapType == BPF_MAP_TYPE_HASH_OF_MAPS
  }

  // The run-time fields of a map's attribute and the command itself.
  function EmitMapAttr(cfg: Config, g: Gen, s: MapSpec, idx: int, attr: int): (g': Gen)
    ensures Grown(cfg, g, g')
    ensures g.Dead? ==> g'.Dead?
  {
    hide Wf, Emit;
    var g1 := if s.btfValueTypeId != 0 then Emit(cfg, g, Stack2Blob(attr + MAP_BTF_FD, W, OFF_BTF_FD)) else g;
    var g2 := if IsOuter(s) then Emit(cfg, g1, Stack2Blob(attr + MAP_INNER_FD, W, OFF_INNER_MAP_FD)) else g1;
    var g3 := if idx >= 0 then Emit(cfg, g2, Ctx2Blob(attr + MAP_MAX_ENTRIES, W, CtxMaxEntries(idx), true)) else g2;
    Emit(cfg, g3, SysCall(BPF_MAP_CREATE, attr, MAP_ATTR_SZ))
  }

  lemma CountExtends(cfg: Config, g: Gen)
    requires g.Live?
    ensures Extends(cfg, g, g.(nrMaps := g.nrMaps + 1))
  {
    hide Placed, Insns;
  }

  // An inner map goes to the stack, any other map to the next slot of the blob.
  function StoreMapFd(cfg: Config, g: Gen, idx: int): (g': Gen)
    requires g.Live?
    ensures Extends(cfg, g, g')
    ensures g.Dead? ==> g'.Dead?
  {
    hide Wf;
    ExtendsDead(cfg, g);
    if idx < 0 then Emit(cfg, g, SaveToStack(OFF_INNER_MAP_FD))
    else if idx != g.nrMaps || g.nrMaps == MAX_USED_MAPS then Dead
    else
      CountExtends(cfg, g);
      Emit(cfg, g.(nrMaps := g.nrMaps + 1), SaveToBlob(FdSlot(idx)))
  }

  function GenMapCreate(cfg: Config, g: Gen, s: MapSpec, idx: int): (g': Gen)
    ensures Extends(cfg, g, g')
    ensures g.Dead? ==> g'.Dead?
  {
    hide Extends, Emit, EmitDebugRet, EmitCloseStack, AddData, EmitMapAttr;
    ExtendsDead(cfg, g);
    var (g1, attr) := AddData(cfg, g, MapAttr(s));
    DataExtends(cfg, g, g1);
    var g2 := EmitMapAttr(cfg, g1, s, idx, attr);
    var g3 := EmitDebugRet(cfg, g2, MsgMapCreate(s.name, idx, s.mapType, s.valueSize, s.btfValueTypeId));
    var g4 := Emit(cfg, g3, CheckErr);
    ExtendsTrans(cfg, g, g1, g2);
    ExtendsTrans(cfg, g, g2, g3);
    ExtendsTrans(cfg, g, g3, g4);
    if g4.Dead? then Dead else
    var g5 := StoreMapFd(cfg, g4, idx);
    ExtendsTrans(cfg, g, g4, g5);
    if IsOuter(s) then
      ExtendsTrans(cfg, g, g5, EmitCloseStack(cfg, g5, OFF_INNER_MAP_FD));
      EmitCloseStack(cfg, g5, OFF_INNER_MAP_FD)
    else g5
  }

  function GenMapUpdate(cfg: Config, g: Gen, idx: int, value: Bytes): (g': Gen)
    ensures Extends(cfg, g, g')
    ensures g.Dead? ==> g'.Dead?
  {
    hide Wf, Emit, EmitDebugRet, AddData;
    var (g1, val) := AddData(cfg, g, value);
    var (g2, key) := AddData(cfg, g1, Zeros(4));
    DataExtends(cfg, g, g1);
    DataExtends(cfg, g1, g2);
    var g3 := Emit(cfg, g2, InitialValue(CtxInitialValue(idx), val, |value|));
    var (g4, attr) := AddData(cfg, g3, Zeros(ELEM_ATTR_SZ));
    DataExtends(cfg, g3, g4);
    var g5a := Emit(cfg, g4, Blob2Blob(attr + ELEM_MAP_FD, W, FdSlot(idx)));
    var g5b := Emit(cfg, g5a, RelStore(attr + ELEM_KEY, key));
    var g5c := Emit(cfg, g5b, RelStore(attr + ELEM_VALUE, val));
    var g5 := Emit(cfg, g5c, SysCall(BPF_MAP_UPDATE_ELEM, attr, ELEM_ATTR_SZ));
    Emit(cfg, EmitDebugRet(cfg, g5, MsgUpdateElem(idx, |value|)), CheckErr)
  }

  function GenPopulateOuter(cfg: Config, g: Gen, outer: int, slot: u32, inner: int): (g': Gen)
    ensures Extends(cfg, g, g')
    ensures g.Dead? ==> g'.Dead?
  {
    var (g1, key) := AddData(cfg, g, LE4(slot));
    var (g2, attr) := AddData(cfg, g1, Zeros(ELEM_ATTR_SZ));
    var g3a := Emit(cfg, g2, Blob2Blob(attr + ELEM_MAP_FD, W, FdSlot(outer)));
    var g3b := Emit(cfg, g3a, RelStore(attr + ELEM_KEY, key));
    var g3c := Emit(cfg, g3b, RelStore(attr + ELEM_VALUE, FdSlot(inner)));
    var g3 := Emit(cfg, g3c, SysCall(BPF_MAP_UPDATE_ELEM, attr, ELEM_ATTR_SZ));
    Emit(cfg, EmitDebugRet(cfg, g3, MsgPopulateOuter(outer, slot, inner)), CheckErr)
  }

  function GenMapFreeze(cfg: Config, g: Gen, idx: int): (g': Gen)
    ensures Extends(cfg, g, g')
    ensures g.Dead? ==> g'.Dead?
  {
    var (g1, attr) := AddData(cfg, g, Zeros(FREEZE_ATTR_SZ));
    var g2a := Emit(cfg, g1, Blob2Blob(attr + ELEM_MAP_FD, W, FdSlot(idx)));
    var g2 := Emit(cfg, g2a, SysCall(BPF_MAP_FREEZE, attr, FREEZE_ATTR_SZ));
    Emit(cfg, EmitDebugRet(cfg, g2, MsgMapFreeze), CheckErr)
  }

  // attach_target is a char[128]
  function GenRecordAttach(cfg: Config, g: Gen, target: Bytes, kind: int): (g': Gen)
    ensures Extends(cfg, g, g')
    ensures g.Dead? ==> g'.Dead?
  {
    if g.Dead? || |target| >= 128 then Dead else g.(attachKind := kind, attachTarget := target)
  }

  function GenRecordExtern(cfg: Config, g: Gen, r: Relo): (g': Gen)
    ensures Extends(cfg, g, g')
    ensures g.Dead? ==> g'.Dead?
  {
    if g.Dead? then Dead else g.(relos := g.relos + [r])
  }

  function GenRecordCoreRelo(cfg: Config, g: Gen, r: Bytes): (g': Gen)
    ensures Extends(cfg, g, g')
    ensures g.Dead? ==> g'.Dead?
  {
    if g.Dead? then Dead else g.(coreRelos := g.coreRelos + r)
  }

  // --- kernel symbols of a program

  function FindKsym(ks: seq<Ksym>, name: Bytes): (i: nat)
    ensures i <= |ks|
    ensures i < |ks| ==> ks[i].name == name
    ensures forall j | 0 <= j < i :: ks[j].name != name
  {
    if ks == [] || ks[0].name == name then 0 else 1 + FindKsym(ks[1..], name)
  }

  // get_ksym_desc: one more reference to a known name, or a new entry.
  function RefKsym(ks: seq<Ksym>, r: Relo): (res: (seq<Ksym>, nat))
    ensures res.1 < |res.0|
    ensures res.0[res.1].name == r.name
    ensures |ks| <= |res.0|
  {
    var i := FindKsym(ks, r.name);
    if i < |ks| then (ks[i := ks[i].(ref := ks[i].ref + 1)], i)
    else (ks + [Ksym(r.name, r.kind, 1, 0, 0)], |ks|)
  }

  // add_kfunc_btf_fd: a reserved slot, or one added at the end of the blob.
  function AddKfuncFd(cfg: Config, g: Gen): (r: (Gen, int))
    ensures Extends(cfg, g, r.0)
    ensures g.Dead? ==> r.0.Dead?
    ensures r.0.Live? ==> r.0 == g.(nrFdArray := r.0.nrFdArray, data := r.0.data, pieces := r.0.pieces)
  {
    if g.Dead? then (Dead, 0)
    else if g.nrFdArray == MAX_KFUNC_DESCS then
      var (g1, cur) := AddData(cfg, g, Zeros(4));
      (g1, (cur - FD_ARRAY) / 4)
    else (g.(nrFdArray := g.nrFdArray + 1), MAX_USED_MAPS + g.nrFdArray)
  }

  function EmitFindByName(cfg: Config, g: Gen, name: Bytes, kind: int): (g': Gen)
    ensures Grown(cfg, g, g')
    ensures g.Dead? ==> g'.Dead?
  {
    var (g1, off) := AddData(cfg, g, name + [0]);
    var g2 := Emit(cfg, g1, FindByName(off, |name| + 1, kind));
    EmitDebugRet(cfg, g2, MsgFind(name, kind))
  }

  function EmitLookupName(cfg: Config, g: Gen, r: Relo): (g': Gen)
    ensures Grown(cfg, g, g')
    ensures g.Dead? ==> g'.Dead?
  {
    var (g1, off) := AddData(cfg, g, r.name + [0]);
    var (g2, res) := AddData(cfg, g1, Zeros(8));
    var g3 := Emit(cfg, g2, LookupName(off, |r.name| + 1, res));
    EmitDebugRet(cfg, g3, MsgLookup(r.name, r.kind))
  }

  function WithKsyms(cfg: Config, g: Gen, ks: seq<Ksym>): (g': Gen)
    ensures Extends(cfg, g, g')
    ensures g.Dead? ==> g'.Dead?
  {
    if g.Dead? then Dead else g.(ksyms := ks)
  }

  function WithKsym(cfg: Config, g: Gen, i: nat, off: int, insn: int): (g': Gen)
    requires g.Live? ==> i < |g.ksyms|
    ensures Extends(cfg, g, g')
    ensures g.Dead? ==> g'.Dead?
    ensures g.Live? ==> g'.Live? && g' == g.(ksyms := g'.ksyms) && |g'.ksyms| == |g.ksyms|
  {
    if g.Dead? then Dead else g.(ksyms := g.ksyms[i := g.ksyms[i].(off := off, insn := insn)])
  }

  function KsymLog(cfg: Config, g: Gen, r: Relo, ref: nat): (g': Gen)
    ensures Grown(cfg, g, g')
    ensures g.Dead? ==> g'.Dead?
  {
    if cfg.logLevel == 0 then g else
    var g1 := EmitDebugPair(cfg, Emit(cfg, g, LogKsym1), MsgKsym(r.name, ref, r.isTypeless, r.isWeak));
    EmitDebugR9(cfg, Emit(cfg, g1, LogKsym2), MsgKsymReg(r.name, ref, r.isTypeless, r.isWeak))
  }

  function KfuncLog(cfg: Config, g: Gen, name: Bytes, ref: nat, off: int): (g': Gen)
    ensures Grown(cfg, g, g')
    ensures g.Dead? ==> g'.Dead?
  {
    if cfg.logLevel == 0 then g else
    var g1 := EmitDebugPair(cfg, Emit(cfg, g, LogKfunc1), MsgKfunc(name, ref));
    EmitDebugR9(cfg, Emit(cfg, g1, LogKfunc2(FdSlot(off))), MsgKfuncFd(name, ref))
  }

  function ReloTypeless(cfg: Config, g: Gen, r: Relo, insn: int): (g': Gen)
    ensures Extends(cfg, g, g')
    ensures g.Dead? ==> g'.Dead?
  {
    hide Wf, Emit, EmitLookupName, KsymLog;
    if g.Dead? then Dead else
    var (ks, i) := RefKsym(g.ksyms, r);
    var g0 := WithKsyms(cfg, g, ks);
    if ks[i].ref > 1 then
      var g1a := Emit(cfg, g0, Blob2Blob(insn + INSN_IMM, W, ks[i].insn + INSN_IMM));
      var g1 := Emit(cfg, g1a, Blob2Blob(insn + INSN_SZ + INSN_IMM, W, ks[i].insn + INSN_SZ + INSN_IMM));
      KsymLog(cfg, g1, r, ks[i].ref)
    else
      var g1 := EmitLookupName(cfg, WithKsym(cfg, g0, i, 1, insn), r);
      KsymLog(cfg, Emit(cfg, Emit(cfg, g1, CheckErrUnlessEnoent), StoreAddr), r, 1)
  }

  // A typed variable seen for the first time.
  function FirstKsymBtf(cfg: Config, g: Gen, r: Relo): (g': Gen)
    ensures Extends(cfg, g, g')
    ensures g.Dead? ==> g'.Dead?
  {
    hide Extends;
    var g1 := EmitFindByName(cfg, g, r.name, r.kind);
    var g2 := if r.isWeak then g1 else Emit(cfg, g1, CheckErr);
    var g3 := Emit(cfg, g2, StoreKsym);
    var g4 := KsymLog(cfg, g3, r, 1);
    assert Extends(cfg, g, g2) by { if g1 != g2 { ExtendsTrans(cfg, g, g1, g2); } }
    ExtendsTrans(cfg, g, g2, g3);
    ExtendsTrans(cfg, g, g3, g4);
    g4
  }

  function ReloKsymBtf(cfg: Config, g: Gen, r: Relo, insn: int): (g': Gen)
    ensures Extends(cfg, g, g')
    ensures g.Dead? ==> g'.Dead?
  {
    hide Wf, Emit, KsymLog, FirstKsymBtf;
    if g.Dead? then Dead else
    var (ks, i) := RefKsym(g.ksyms, r);
    var g0 := WithKsyms(cfg, g, ks);
    if ks[i].ref > 1 then
      var g1a := Emit(cfg, g0, Blob2Blob(insn + INSN_IMM, W, ks[i].insn + INSN_IMM));
      var g1 := Emit(cfg, g1a, CopyKsym(insn + INSN_SZ + INSN_IMM, ks[i].insn + INSN_SZ + INSN_IMM));
      KsymLog(cfg, g1, r, ks[i].ref)
    else FirstKsymBtf(cfg, WithKsym(cfg, g0, i, ks[i].off, insn), r)
  }

  // A kfunc seen for the first time, as entry i of the ksyms.
  function FirstKfunc(cfg: Config, g: Gen, r: Relo, i: nat, insn: int): (g': Gen)
    requires g.Live? ==> i < |g.ksyms|
    ensures Extends(cfg, g, g')
    ensures g.Dead? ==> g'.Dead?
  {
    hide Extends;
    ExtendsDead(cfg, g);
    var g1 := EmitFindByName(cfg, g, r.name, r.kind);
    var g2 := if r.isWeak then g1 else Emit(cfg, g1, CheckErr);
    var (g3, idx) := AddKfuncFd(cfg, g2);
    if g3.Dead? || idx > INT16_MAX then Dead else
    var g4 := WithKsym(cfg, g3, i, idx, insn);
    var g5 := Emit(cfg, g4, StoreKfunc(idx, FdSlot(idx)));
    var g6 := KfuncLog(cfg, g5, r.name, 1, idx);
    assert Extends(cfg, g, g2) by { if g1 != g2 { ExtendsTrans(cfg, g, g1, g2); } }
    ExtendsTrans(cfg, g, g2, g3);
    ExtendsTrans(cfg, g, g3, g4);
    ExtendsTrans(cfg, g, g4, g5);
    ExtendsTrans(cfg, g, g5, g6);
    g6
  }

  function ReloKfunc(cfg: Config, g: Gen, r: Relo, insn: int): (g': Gen)
    ensures Extends(cfg, g, g')
    ensures g.Dead? ==> g'.Dead?
  {
    hide Wf, Emit, KfuncLog, FirstKfunc;
    if g.Dead? then Dead else
    var (ks, i) := RefKsym(g.ksyms, r);
    var g0 := WithKsyms(cfg, g, ks);
    if ks[i].ref > 1 then
      var g1a := Emit(cfg, g0, Blob2Blob(insn + INSN_IMM, W, ks[i].insn + INSN_IMM));
      var g1 := Emit(cfg, g1a, Blob2Blob(insn + INSN_OFF, H, ks[i].insn + INSN_OFF));
      KfuncLog(cfg, g1, r.name, ks[i].ref, ks[i].off)
    else FirstKfunc(cfg, g0, r, i, insn)
  }

  function EmitRelo(cfg: Config, g: Gen, r: Relo, insns: int): (g': Gen)
    ensures Extends(cfg, g, g')
    ensures g.Dead? ==> g'.Dead?
  {
    var insn := insns + INSN_SZ * r.insnIdx;
    var g1 := Emit(cfg, g, LoadInsn(insn));
    if r.kind == BTF_KIND_VAR then
      if r.isTypeless then ReloTypeless(cfg, g1, r, insn) else ReloKsymBtf(cfg, g1, r, insn)
    else if r.kind == BTF_KIND_FUNC then ReloKfunc(cfg, g1, r, insn)
    else Dead
  }

  function EmitRelos(cfg: Config, g: Gen, rs: seq<Relo>, insns: int): (g': Gen)
    ensures Extends(cfg, g, g')
    ensures g.Dead? ==> g'.Dead?
    decreases |rs|
  {
    if rs == [] then g else EmitRelos(cfg, EmitRelo(cfg, g, rs[0], insns), rs[1..], insns)
  }

  function CleanupKsym(cfg: Config, g: Gen, k: Ksym): (g': Gen)
    ensures Extends(cfg, g, g')
    ensures g.Dead? ==> g'.Dead?
  {
    if k.kind == BTF_KIND_VAR && k.off == 0 then
      EmitCloseBlob(cfg, g, k.insn + INSN_SZ + INSN_IMM)
    else if k.kind == BTF_KIND_FUNC then
      var g1 := EmitCloseBlob(cfg, g, FdSlot(k.off));
      if g1.Live? && k.off < MAX_FD_ARRAY_SZ then g1.(nrFdArray := g1.nrFdArray - 1) else g1
    else g
  }

  function CleanupKsyms(cfg: Config, g: Gen, ks: seq<Ksym>): (g': Gen)
    ensures Extends(cfg, g, g')
    ensures g.Dead? ==> g'.Dead?
    decreases |ks|
  {
    if ks == [] then g else CleanupKsyms(cfg, CleanupKsym(cfg, g, ks[0]), ks[1..])
  }

  function CleanupRelos(cfg: Config, g: Gen): (g': Gen)
    ensures Extends(cfg, g, g')
    ensures g.Dead? ==> g'.Dead?
  {
    if g.Dead? then Dead else
    var g1 := CleanupKsyms(cfg, g, g.ksyms);
    if g1.Dead? then Dead else g1.(ksyms := [], relos := [], coreRelos := [])
  }

  function EmitAttach(cfg: Config, g: Gen, attr: int): (g': Gen)
    ensures Grown(cfg, g, g')
    ensures g.Dead? ==> g'.Dead?
  {
    if g.Dead? then Dead else
    if g.attachKind == 0 then g else
    var g1 := EmitFindByName(cfg, g, g.attachTarget, g.attachKind);
    Emit(cfg, Emit(cfg, g1, CheckErr), SaveAttach(attr))
  }

  function CloseAttach(cfg: Config, g: Gen, attr: int): (g': Gen)
    ensures Extends(cfg, g, g')
    ensures g.Dead? ==> g'.Dead?
  {
    if g.Dead? then Dead else
    if g.attachKind == 0 then g else
    var g1 := EmitCloseBlob(cfg, g, attr + ATTR_ATTACH_BTF_OBJ_FD);
    if g1.Dead? then Dead else g1.(attachKind := 0)
  }

  // Where add_data put the pieces of a program.
  datatype ProgBlob = ProgBlob(license: int, insns: int, funcInfo: int, lineInfo: int, core: int, attr: int)

  function AddProg(cfg: Config, g: Gen, s: ProgSpec, coreRelos: Bytes): (r: (Gen, ProgBlob))
    ensures DataGrown(cfg, g, r.0)
    ensures g.Dead? ==> r.0.Dead?
  {
    var (g1, license) := AddData(cfg, g, s.license + [0]);
    var (g2, insns) := AddData(cfg, g1, s.insns);
    var (g3, funcInfo) := AddData(cfg, g2, s.funcInfo);
    var (g4, lineInfo) := AddData(cfg, g3, s.lineInfo);
    var (g5, core) := AddData(cfg, g4, coreRelos);
    var (g6, attr) := AddData(cfg, g5, ProgAttr(s, coreRelos));
    (g6, ProgBlob(license, insns, funcInfo, lineInfo, core, attr))
  }

  // Pointers to the pieces of the program, then the fields known at run time.
  function EmitProgPointers(cfg: Config, g: Gen, at: ProgBlob): (g': Gen)
    ensures Grown(cfg, g, g')
    ensures g.Dead? ==> g'.Dead?
  {
    var g1a := Emit(cfg, g, RelStore(at.attr + PROG_LICENSE, at.license));
    var g1b := Emit(cfg, g1a, RelStore(at.attr + PROG_INSNS, at.insns));
    var g1c := Emit(cfg, g1b, RelStore(at.attr + PROG_FUNC_INFO, at.funcInfo));
    var g1d := Emit(cfg, g1c, RelStore(at.attr + PROG_LINE_INFO, at.lineInfo));
    var g1 := Emit(cfg, g1d, RelStore(at.attr + PROG_CORE_RELOS, at.core));
    Emit(cfg, g1, RelStore(at.attr + PROG_FD_ARRAY, FD_ARRAY))
  }

  function EmitProgFields(cfg: Config, g: Gen, attr: int): (g': Gen)
    ensures Grown(cfg, g, g')
    ensures g.Dead? ==> g'.Dead?
  {
    var g1a := Emit(cfg, g, Ctx2Blob(attr + PROG_LOG_LEVEL, W, CTX_LOG_LEVEL, false));
    var g1b := Emit(cfg, g1a, Ctx2Blob(attr + PROG_LOG_SIZE, W, CTX_LOG_SIZE, false));
    var g1 := Emit(cfg, g1b, Ctx2Blob(attr + PROG_LOG_BUF, DW, CTX_LOG_BUF, false));
    Emit(cfg, g1, Stack2Blob(attr + PROG_BTF_FD, W, OFF_BTF_FD))
  }

  function SaveProg(cfg: Config, g: Gen): (g': Gen)
    ensures Extends(cfg, g, g')
    ensures g.Dead? ==> g'.Dead?
  {
    if g.Dead? then Dead else
    var g1 := Emit(cfg, g, SaveToStack(OffProgFd(g.nrProgs)));
    if g1.Dead? then Dead else g1.(nrProgs := g1.nrProgs + 1)
  }

  function EmitProgLoad(cfg: Config, g: Gen, s: ProgSpec, attr: int): (g': Gen)
    ensures Grown(cfg, g, g')
    ensures g.Dead? ==> g'.Dead?
  {
    var g1 := Emit(cfg, g, SysCall(BPF_PROG_LOAD, attr, PROG_ATTR_SZ));
    EmitDebugRet(cfg, g1, MsgProgLoad(s.name, |s.insns| / 8))
  }

  function GenProgLoad(cfg: Config, g: Gen, s: ProgSpec): (g': Gen)
    ensures Extends(cfg, g, g')
    ensures g.Dead? ==> g'.Dead?
  {
    hide Extends;
    ExtendsDead(cfg, g);
    if g.Dead? then Dead else
    var (g1, at) := AddProg(cfg, g, s, g.coreRelos);
    DataExtends(cfg, g, g1);
    var g2 := EmitProgFields(cfg, EmitProgPointers(cfg, g1, at), at.attr);
    ExtendsTrans(cfg, g1, EmitProgPointers(cfg, g1, at), g2);
    ExtendsTrans(cfg, g, g1, g2);
    var g3 := EmitAttach(cfg, g2, at.attr);
    ExtendsTrans(cfg, g, g2, g3);
    var g4 := EmitRelos(cfg, g3, g.relos, at.insns);
    ExtendsTrans(cfg, g, g3, g4);
    var g5 := EmitProgLoad(cfg, g4, s, at.attr);
    ExtendsTrans(cfg, g, g4, g5);
    var g6 := CleanupRelos(cfg, g5);
    ExtendsTrans(cfg, g, g5, g6);
    var g7 := CloseAttach(cfg, g6, at.attr);
    ExtendsTrans(cfg, g, g6, g7);
    var g8 := Emit(cfg, g7, CheckErr);
    ExtendsTrans(cfg, g, g7, g8);
    var g9 := SaveProg(cfg, g8);
    ExtendsTrans(cfg, g, g8, g9);
    g9
  }

  function Apply(cfg: Config, g: Gen, op: Op): (g': Gen)
    ensures Extends(cfg, g, g')
    ensures g.Dead? ==> g'.Dead?
  {
    match op
    case LoadBtf(raw) => GenLoadBtf(cfg, g, raw)
    case MapCreate(s, idx) => GenMapCreate(cfg, g, s, idx)
    case MapUpdate(idx, value) => GenMapUpdate(cfg, g, idx, value)
    case MapFreeze(idx) => GenMapFreeze(cfg, g, idx)
    case PopulateOuter(outer, slot, inner) => GenPopulateOuter(cfg, g, outer, slot, inner)
    case RecordAttach(target, kind) => GenRecordAttach(cfg, g, target, kind)
    case RecordExtern(r) => GenRecordExtern(cfg, g, r)
    case RecordCoreRelo(r) => GenRecordCoreRelo(cfg, g, r)
    case ProgLoad(s) => GenProgLoad(cfg, g, s)
  }

  function ApplyAll(cfg: Config, ops: seq<Op>): Gen {
    if ops == [] then Init(cfg) else Apply(cfg, ApplyAll(cfg, ops[..|ops| - 1]), ops[|ops| - 1])
  }

  function ProgFds(nrMaps: nat, n: nat): seq<Group> {
    if n == 0 then [] else ProgFds(nrMaps, n - 1) + [Stack2Ctx(CtxProgFd(nrMaps, n - 1), W, OffProgFd(n - 1))]
  }

  function MapFds(n: nat): seq<Group> {
    if n == 0 then [] else MapFds(n - 1) + [Blob2Ctx(CtxMapFd(n - 1), W, FdSlot(n - 1))]
  }

  function Finish(cfg: Config, g: Gen, nrProgs: int, nrMaps: int): Gen {
    if g.Dead? || nrProgs < g.nrProgs || nrMaps != g.nrMaps then Dead else
    var g1 := EmitCloseStack(cfg, g, OFF_BTF_FD);
    var g2 := EmitAll(cfg, g1, ProgFds(g.nrMaps, g.nrProgs));
    var g3 := EmitAll(cfg, g2, MapFds(g.nrMaps));
    if g3.Dead? || |Insns(cfg, g3.groups)| + |RETURN_0| > cfg.insnLimit then Dead else g3
  }

  // The instructions handed to the caller by a finished generator.
  function Program(cfg: Config, g: Gen): seq<Insn>
    requires g.Live?
  {
    Insns(cfg, g.groups) + RETURN_0
  }
}
