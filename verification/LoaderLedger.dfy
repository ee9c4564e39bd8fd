/** What a loader asks the kernel for, which file descriptor ends up where, and when it is closed: a
    reference account kept in terms of the requests that produced the descriptors. */
module LoaderLedger {
  import opened LoaderBytes
  import opened LoaderMachine
  import opened LoaderIR
  import opened LoaderGen
  import opened LoaderFrame
  import opened LoaderShape

  // --- the requests behind a sequence of API calls

  // What has been recorded for the next program.
  datatype Pending = Pending(relos: seq<Relo>, core: Bytes, attachKind: int, attachTarget: Bytes)

  const NOTHING: Pending := Pending([], [], 0, [])

  // What the BTF object of a found name is for.
  datatype Goal = Target | Variable | Function

  // A bpf command, a search for a name in the kernel's BTFs, or a search for a symbol's address.
  datatype Request =
    | Do(op: Op, pend: Pending)
    | Seek(name: Bytes, kind: int, strong: bool, goal: Goal)
    | Address(name: Bytes)

  function PendingAfter(ops: seq<Op>): Pending {
    if ops == [] then NOTHING else
    var n := |ops| - 1;
    var p := PendingAfter(ops[..n]);
    match ops[n]
    case RecordAttach(target, kind) => p.(attachKind := kind, attachTarget := target)
    case RecordExtern(r) => p.(relos := p.relos + [r])
    case RecordCoreRelo(core) => p.(core := p.core + core)
    case ProgLoad(_) => NOTHING
    case _ => p
  }

  // The name of relocation n has been seen before.
  predicate Known(rs: seq<Relo>, n: nat)
    requires n < |rs|
  {
    exists i | 0 <= i < n :: rs[i].name == rs[n].name
  }

  // What the first use of a symbol asks for.
  function SearchFor(r: Relo): Request {
    if r.kind == BTF_KIND_FUNC then Seek(r.name, r.kind, !r.isWeak, Function)
    else if r.isTypeless then Address(r.name)
    else Seek(r.name, r.kind, !r.isWeak, Variable)
  }

  // What the first n relocations ask for.
  function Sought(rs: seq<Relo>, n: nat): seq<Request>
    requires n <= |rs|
  {
    if n == 0 then [] else Sought(rs, n - 1) + (if Known(rs, n - 1) then [] else [SearchFor(rs[n - 1])])
  }

  function SoughtTarget(p: Pending): seq<Request> {
    if p.attachKind == 0 then [] else [Seek(p.attachTarget, p.attachKind, true, Target)]
  }

  // What one API call asks for.
  function Asks(op: Op, p: Pending): seq<Request> {
    (if op.ProgLoad? then SoughtTarget(p) + Sought(p.relos, |p.relos|) else [])
    + (if IsCommand(op) then [Do(op, p)] else [])
  }

  function Requests(ops: seq<Op>): seq<Request> {
    if ops == [] then [] else
    var n := |ops| - 1;
    Requests(ops[..n]) + Asks(ops[n], PendingAfter(ops[..n]))
  }

  // --- the account

  // What a place holds: nothing, the descriptor of request k, or, for a slot that is only
  // written when there is a descriptor, that of the last of several requests that had one.
  datatype Source = Nowhere | Of(k: nat) | LastOf(ks: seq<nat>)

  datatype Step = Issue(k: nat) | Shut(a: Source)

  // slots: the requests for functions that used each reserved slot.  held: what the symbols of the
  // unfinished program hold, in order, functions of them kernel functions; attach: its target.
  datatype Ledger = Ledger(btf: Source, inner: Source, progs: seq<Source>, maps: seq<Source>, slots: map<nat, seq<nat>>,
                           held: seq<Source>, functions: nat, attach: Source, script: seq<Step>)

  const EMPTY: Ledger := Ledger(Nowhere, Nowhere, [], [], map[], [], 0, Nowhere, [])

  function Users(l: Ledger, i: nat): seq<nat> {
    if i in l.slots then l.slots[i] else []
  }

  function Shuts(places: seq<Source>): seq<Step> {
    if places == [] then [] else
    var n := |places| - 1;
    Shuts(places[..n]) + [Shut(places[n])]
  }

  // The script when request k has been answered, with whatever result: a program's symbols are
  // closed before the result of loading it is looked at.
  function Answered(l: Ledger, c: Request, k: nat): seq<Step> {
    l.script + [Issue(k)] + (if c.Do? && c.op.ProgLoad? then Shuts(l.held + [l.attach]) else [])
  }

  // The account after request k has succeeded.
  function Perform(l: Ledger, c: Request, k: nat): Ledger {
    var l1 := l.(script := Answered(l, c, k));
    match c
    case Seek(_, _, _, Target) => l1.(attach := Of(k))
    case Seek(_, _, _, Variable) => l1.(held := l.held + [Of(k)])
    case Seek(_, _, _, Function) =>
      if l.functions < MAX_KFUNC_DESCS then
        var ks := Users(l, l.functions) + [k];
        l1.(slots := l.slots[l.functions := ks], held := l.held + [LastOf(ks)], functions := l.functions + 1)
      else l1.(held := l.held + [Of(k)], functions := l.functions + 1)
    case Address(_) => l1.(held := l.held + [Nowhere])
    case Do(LoadBtf(_), _) => l1.(btf := Of(k))
    case Do(MapCreate(s, idx), _) =>
      var l2 := if idx < 0 then l1.(inner := Of(k)) else l1.(maps := l.maps + [Of(k)]);
      if IsOuter(s) then l2.(script := l2.script + [Shut(l2.inner)]) else l2
    case Do(ProgLoad(_), _) => l1.(progs := l.progs + [Of(k)], held := [], functions := 0, attach := Nowhere)
    case Do(_, _) => l1
  }

  function LedgerAfter(cs: seq<Request>): Ledger {
    if cs == [] then EMPTY else
    var n := |cs| - 1;
    Perform(LedgerAfter(cs[..n]), cs[n], n)
  }

  // --- reading a trace

  // The answers of the kernel, in order.
  function Calls(t: seq<Event>): seq<Event> {
    if t == [] then [] else
    var n := |t| - 1;
    Calls(t[..n]) + (if t[n].Close? then [] else [t[n]])
  }

  // The BTF object of a found name is a module's if the upper half of the result is not 0.
  function ModuleFd(ret: int): nat {
    if ret >= TWO32 then ret / TWO32 else 0
  }

  // The descriptor an answer brings.
  function Descriptor(e: Event): int {
    match e
    case Bpf(_, _, _, _, ret, _) => ret
    case Find(_, _, ret) => ModuleFd(ret)
    case _ => 0
  }

  function FdOf(es: seq<Event>, k: nat): int {
    if k < |es| then Descriptor(es[k]) else 0
  }

  function LastFd(es: seq<Event>, ks: seq<nat>): int {
    if ks == [] then 0 else
    var n := |ks| - 1;
    if FdOf(es, ks[n]) != 0 then FdOf(es, ks[n]) else LastFd(es, ks[..n])
  }

  // What a place holds, 0 when nothing.
  function Fd(es: seq<Event>, a: Source): int {
    match a
    case Nowhere => 0
    case Of(k) => FdOf(es, k)
    case LastOf(ks) => LastFd(es, ks)
  }

  function MapFd(es: seq<Event>, l: Ledger, i: nat): int {
    if i < |l.maps| then Fd(es, l.maps[i]) else 0
  }

  function ProgFd(es: seq<Event>, l: Ledger, i: nat): int {
    if i < |l.progs| then Fd(es, l.progs[i]) else 0
  }

  // The events of one step; a descriptor of 0 is not closed.
  function Events(es: seq<Event>, s: Step): seq<Event> {
    match s
    case Issue(k) => if k < |es| then [es[k]] else []
    case Shut(a) => if Fd(es, a) != 0 then [Close(Fd(es, a))] else []
  }

  // The trace a script stands for.
  function Play(es: seq<Event>, script: seq<Step>): seq<Event> {
    if script == [] then [] else
    var n := |script| - 1;
    Play(es, script[..n]) + Events(es, script[n])
  }

  // --- what a request is given

  function AttrOf(e: Event): Bytes
    requires e.Bpf?
  {
    if InRange(e.blob, e.attr, e.size) then e.blob[e.attr..e.attr + e.size] else []
  }

  predicate Outside(p: int, fields: seq<(int, nat)>) {
    forall f | f in fields :: p < f.0 || f.0 + f.1 <= p
  }

  // The attribute is the template outside the fields that are filled in at run time.
  ghost predicate Like(a: Bytes, template: Bytes, fields: seq<(int, nat)>) {
    |a| == |template| && forall p | 0 <= p < |a| && Outside(p, fields) :: a[p] == template[p]
  }

  const BTF_FIELDS: seq<(int, nat)> := [(BTF_BTF, 8), (BTF_LOG_LEVEL, 4), (BTF_LOG_SIZE, 4), (BTF_LOG_BUF, 8)]
  const ELEM_FIELDS: seq<(int, nat)> := [(ELEM_MAP_FD, 4), (ELEM_KEY, 8), (ELEM_VALUE, 8)]
  const FREEZE_FIELDS: seq<(int, nat)> := [(ELEM_MAP_FD, 4)]

  function MapFields(s: MapSpec, idx: int): seq<(int, nat)> {
    (if s.btfValueTypeId != 0 then [(MAP_BTF_FD, 4)] else []) + (if IsOuter(s) then [(MAP_INNER_FD, 4)] else [])
    + (if idx >= 0 then [(MAP_MAX_ENTRIES, 4)] else [])
  }

  function AttrFields(p: Pending): seq<(int, nat)> {
    [(PROG_LICENSE, 8), (PROG_INSNS, 8), (PROG_FUNC_INFO, 8), (PROG_LINE_INFO, 8), (PROG_CORE_RELOS, 8), (PROG_FD_ARRAY, 8),
     (PROG_LOG_LEVEL, 4), (PROG_LOG_SIZE, 4), (PROG_LOG_BUF, 8), (PROG_BTF_FD, 4)]
    + (if p.attachKind != 0 then [(ATTR_ATTACH_BTF_ID, 4), (ATTR_ATTACH_BTF_OBJ_FD, 4)] else [])
  }

  // A field of the attribute points at these bytes of the blob.
  ghost predicate PointsAt(env: Env, e: Event, off: int, bytes: Bytes)
    requires e.Bpf?
  {
    exists p: int ::
      InRange(e.blob, p, |bytes|) && e.blob[p..p + |bytes|] == bytes && Get(AttrOf(e), off, 8) == U64(env.blobBase + p)
  }

  // The log fields are the caller's.
  predicate Logs(a: Bytes, level: int, size: int, buf: int, ctx: Bytes) {
    Get(a, level, 4) == Get(ctx, CTX_LOG_LEVEL, 4) && Get(a, size, 4) == Get(ctx, CTX_LOG_SIZE, 4)
    && Get(a, buf, 8) == Get(ctx, CTX_LOG_BUF, 8)
  }

  // --- what the caller asks for, field by field

  // The first 15 characters of the name, and zeros.
  predicate NameAt(a: Bytes, off: int, name: Bytes) {
    InRange(a, off, 16) && forall i | 0 <= i < 16 :: a[off + i] == if i < 15 && i < |name| then name[i] else 0
  }

  predicate AsksBtf(a: Bytes, raw: Bytes) {
    |a| == BTF_ATTR_SZ && Get(a, BTF_SIZE, 4) == |raw| % TWO32
  }

  predicate AsksMap(a: Bytes, s: MapSpec, idx: int) {
    |a| == MAP_ATTR_SZ && Get(a, MAP_TYPE, 4) == s.mapType && Get(a, MAP_KEY_SIZE, 4) == s.keySize
    && Get(a, MAP_VALUE_SIZE, 4) == s.valueSize && Get(a, MAP_FLAGS, 4) == s.flags && Get(a, MAP_NUMA_NODE, 4) == s.numaNode
    && Get(a, MAP_IFINDEX, 4) == s.ifindex && Get(a, MAP_BTF_KEY_TYPE_ID, 4) == s.btfKeyTypeId
    && Get(a, MAP_BTF_VALUE_TYPE_ID, 4) == s.btfValueTypeId && Get(a, MAP_VMLINUX_VALUE_TYPE_ID, 4) == 0
    && Get(a, MAP_EXTRA, 8) == s.extra % TWO64 && NameAt(a, MAP_NAME, s.name)
    && (idx < 0 ==> Get(a, MAP_MAX_ENTRIES, 4) == s.maxEntries) && (s.btfValueTypeId == 0 ==> Get(a, MAP_BTF_FD, 4) == 0)
    && (s.mapType != BPF_MAP_TYPE_ARRAY_OF_MAPS && s.mapType != BPF_MAP_TYPE_HASH_OF_MAPS ==> Get(a, MAP_INNER_FD, 4) == 0)
  }

  predicate AsksProg(a: Bytes, s: ProgSpec, p: Pending) {
    |a| == PROG_ATTR_SZ && Get(a, PROG_TYPE, 4) == s.progType && Get(a, PROG_INSN_CNT, 4) == |s.insns| / INSN_SZ % TWO32
    && Get(a, PROG_KERN_VERSION, 4) == 0 && Get(a, PROG_FLAGS, 4) == s.flags && NameAt(a, PROG_NAME, s.name)
    && Get(a, PROG_IFINDEX, 4) == s.ifindex && Get(a, PROG_EXPECTED_ATTACH_TYPE, 4) == s.expectedAttachType
    && Get(a, PROG_FUNC_INFO_REC_SIZE, 4) == s.funcInfoRecSize && Get(a, PROG_FUNC_INFO_CNT, 4) == s.funcInfoCnt
    && Get(a, PROG_LINE_INFO_REC_SIZE, 4) == s.lineInfoRecSize && Get(a, PROG_LINE_INFO_CNT, 4) == s.lineInfoCnt
    && Get(a, PROG_CORE_RELO_REC_SIZE, 4) == CORE_RELO_SZ
    && Get(a, PROG_CORE_RELO_CNT, 4) == |p.core| / CORE_RELO_SZ % TWO32
    && (p.attachKind == 0 ==> Get(a, ATTR_ATTACH_BTF_ID, 4) == s.attachBtfId && Get(a, ATTR_ATTACH_BTF_OBJ_FD, 4) == 0)
  }

  ghost predicate GivenBtf(env: Env, raw: Bytes, ctx: Bytes, e: Event)
    requires e.Bpf?
  {
    e.cmd == BPF_BTF_LOAD && AsksBtf(AttrOf(e), raw) && PointsAt(env, e, BTF_BTF, raw)
    && Logs(AttrOf(e), BTF_LOG_LEVEL, BTF_LOG_SIZE, BTF_LOG_BUF, ctx)
  }

  // The caller's max_entries, unless that is 0.
  function MaxEntriesOf(s: MapSpec, idx: nat, ctx: Bytes): nat {
    var c := Get(ctx, CtxMaxEntries(idx), 4);
    if c != 0 then c else s.maxEntries
  }

  ghost predicate GivenMap(s: MapSpec, idx: int, l: Ledger, es: seq<Event>, ctx: Bytes, e: Event)
    requires e.Bpf?
  {
    e.cmd == BPF_MAP_CREATE && AsksMap(AttrOf(e), s, idx)
    && (s.btfValueTypeId != 0 ==> Get(AttrOf(e), MAP_BTF_FD, 4) == Fd(es, l.btf))
    && (s.mapType == BPF_MAP_TYPE_ARRAY_OF_MAPS || s.mapType == BPF_MAP_TYPE_HASH_OF_MAPS ==>
          Get(AttrOf(e), MAP_INNER_FD, 4) == Fd(es, l.inner))
    && (idx >= 0 ==> Get(AttrOf(e), MAP_MAX_ENTRIES, 4) == MaxEntriesOf(s, idx, ctx))
  }

  // The given value, unless the caller has supplied an address: then the bytes that the helper call
  // right before the command, of the kind the caller's flags ask for, has copied from there.
  ghost predicate GivenValue(env: Env, idx: int, value: Bytes, ctx: Bytes, e: Event)
    requires e.Bpf?
  {
    var address, helper := LoadNum(ctx, CtxInitialValue(idx), 8), CopyHelper(LoadNum(ctx, CTX_FLAGS, 4));
    if address == 0 then PointsAt(env, e, ELEM_VALUE, value)
    else e.call > 0 && PointsAt(env, e, ELEM_VALUE, CopiedFrom(env, e.call - 1, helper, address, |value|))
  }

  ghost predicate GivenUpdate(env: Env, idx: int, value: Bytes, l: Ledger, es: seq<Event>, ctx: Bytes, e: Event)
    requires e.Bpf?
  {
    e.cmd == BPF_MAP_UPDATE_ELEM && Like(AttrOf(e), Zeros(ELEM_ATTR_SZ), ELEM_FIELDS)
    && idx >= 0 && Get(AttrOf(e), ELEM_MAP_FD, 4) == MapFd(es, l, idx)
    && PointsAt(env, e, ELEM_KEY, Zeros(4))
    && GivenValue(env, idx, value, ctx, e)
  }

  ghost predicate GivenFreeze(idx: int, l: Ledger, es: seq<Event>, e: Event)
    requires e.Bpf?
  {
    e.cmd == BPF_MAP_FREEZE && Like(AttrOf(e), Zeros(FREEZE_ATTR_SZ), FREEZE_FIELDS)
    && idx >= 0 && Get(AttrOf(e), ELEM_MAP_FD, 4) == MapFd(es, l, idx)
  }

  ghost predicate GivenPopulate(env: Env, outer: int, slot: u32, inner: int, l: Ledger, es: seq<Event>, e: Event)
    requires e.Bpf?
  {
    e.cmd == BPF_MAP_UPDATE_ELEM && Like(AttrOf(e), Zeros(ELEM_ATTR_SZ), ELEM_FIELDS)
    && outer >= 0 && Get(AttrOf(e), ELEM_MAP_FD, 4) == MapFd(es, l, outer)
    && PointsAt(env, e, ELEM_KEY, LE4(slot))
    && inner >= 0 && Get(AttrOf(e), ELEM_VALUE, 8) == U64(env.blobBase + FdSlot(inner))
    && Get(e.blob, FdSlot(inner), 4) == MapFd(es, l, inner)
  }

  // --- relocated instructions

  // The bytes a relocation may write, from the start of its instruction on.
  predicate Patches(r: Relo, i: int) {
    if r.kind == BTF_KIND_FUNC then INSN_OFF <= i < INSN_SZ
    else (i == INSN_CODE_END && !r.isTypeless) || INSN_IMM <= i < INSN_SZ || INSN_SZ + INSN_IMM <= i < 2 * INSN_SZ
  }

  // Byte x of the instructions is not written by the first n relocations.
  predicate Unpatched(rs: seq<Relo>, n: nat, x: int)
    requires n <= |rs|
  {
    forall j | 0 <= j < n :: !Patches(rs[j], x - INSN_SZ * rs[j].insnIdx)
  }

  // The slots of a program's instructions that a relocation is for.
  function Span(r: Relo): int {
    if r.kind == BTF_KIND_FUNC then INSN_SZ else 2 * INSN_SZ
  }

  // Relocations lie inside the program, each in its own instruction.
  predicate RelosFit(rs: seq<Relo>, insns: Bytes) {
    (forall i | 0 <= i < |rs| :: INSN_SZ * rs[i].insnIdx + Span(rs[i]) <= |insns|)
    && forall i, j | 0 <= i < |rs| && 0 <= j < |rs| && i != j :: Apart(rs[i], rs[j])
  }

  predicate Apart(a: Relo, b: Relo) {
    INSN_SZ * a.insnIdx + Span(a) <= INSN_SZ * b.insnIdx || INSN_SZ * b.insnIdx + Span(b) <= INSN_SZ * a.insnIdx
  }

  // The first relocation with the name of relocation n.
  function FirstUse(rs: seq<Relo>, n: nat): (f: nat)
    requires n < |rs|
    ensures f <= n && rs[f].name == rs[n].name && forall i | 0 <= i < f :: rs[i].name != rs[n].name
  {
    FirstNamed(rs, rs[n].name, 0, n)
  }

  function FirstNamed(rs: seq<Relo>, name: Bytes, i: nat, n: nat): (f: nat)
    requires i <= n < |rs| && rs[n].name == name && forall j | 0 <= j < i :: rs[j].name != name
    ensures f <= n && rs[f].name == name && forall j | 0 <= j < f :: rs[j].name != name
    decreases n - i
  {
    if rs[i].name == name then i else FirstNamed(rs, name, i + 1, n)
  }

  function ImmAt(b: Bytes, insn: int): nat {
    Get(b, insn + INSN_IMM, 4)
  }

  // The second immediate of a 64-bit load: for a typed symbol, the descriptor of its BTF object.
  function FdAt(b: Bytes, insn: int): nat {
    Get(b, insn + INSN_SZ + INSN_IMM, 4)
  }

  // The byte that holds src_reg in its upper half.
  function SrcAt(b: Bytes, insn: int): nat {
    Get(b, insn + INSN_CODE_END, 1)
  }

  function OffAt(b: Bytes, insn: int): nat {
    Get(b, insn + INSN_OFF, 2)
  }

  // A typed symbol: type and descriptor, or zeros and no src_reg when it was not found.
  predicate VariableDone(b: Bytes, insn: int, src: nat, ret: int) {
    if ret >= 0 then ImmAt(b, insn) == ret % TWO32 && FdAt(b, insn) == ret / TWO32 && SrcAt(b, insn) == src
    else ImmAt(b, insn) == 0 && FdAt(b, insn) == 0 && SrcAt(b, insn) == src % 16
  }

  // A symbol without a type: both halves of the address that its lookup wrote.
  predicate AddressDone(b: Bytes, insn: int, address: nat) {
    ImmAt(b, insn) == address % TWO32 && FdAt(b, insn) == address / TWO32
  }

  // A kernel function: its type, and for one of a module the index of the slot with its descriptor.
  predicate FunctionDone(b: Bytes, insn: int, ret: int) {
    ImmAt(b, insn) == (if ret >= 0 then ret % TWO32 else 0)
    && if ModuleFd(ret) == 0 then OffAt(b, insn) == 0
       else MAX_USED_MAPS <= OffAt(b, insn) && Get(b, FdSlot(OffAt(b, insn)), 4) == ModuleFd(ret)
  }

  // A repeated use: what the first use got; src_reg is lost if the descriptor is 0.
  predicate CopyDone(b: Bytes, r: Relo, insn: int, src: nat, first: int) {
    ImmAt(b, insn) == ImmAt(b, first)
    && if r.kind == BTF_KIND_FUNC then OffAt(b, insn) == OffAt(b, first)
       else FdAt(b, insn) == FdAt(b, first) && (r.isTypeless || SrcAt(b, insn) == if FdAt(b, first) != 0 then src else src % 16)
  }

  // Relocation n of a program whose instructions lie at q and whose first search was request k0.
  predicate ReloDone(rs: seq<Relo>, n: nat, insns: Bytes, b: Bytes, q: int, es: seq<Event>, k0: nat)
    requires n < |rs|
  {
    var r, f, insn := rs[n], FirstUse(rs, n), q + INSN_SZ * rs[n].insnIdx;
    var src := Get(insns, INSN_SZ * r.insnIdx + INSN_CODE_END, 1);
    var k := k0 + |Sought(rs, n)|;
    if f < n then r.kind == rs[f].kind && r.isTypeless == rs[f].isTypeless ==>
      CopyDone(b, r, insn, src, q + INSN_SZ * rs[f].insnIdx)
    else
      k < |es|
      && if r.kind == BTF_KIND_FUNC then es[k].Find? && FunctionDone(b, insn, es[k].ret)
         else if r.isTypeless then es[k].Lookup? && AddressDone(b, insn, es[k].address)
         else es[k].Find? && VariableDone(b, insn, src, es[k].ret)
  }

  // The instructions at q of the blob are the program's with all relocations done and nothing else changed.
  ghost predicate Relocated(rs: seq<Relo>, insns: Bytes, b: Bytes, q: int, es: seq<Event>, k0: nat) {
    InRange(b, q, |insns|)
    && (forall x | 0 <= x < |insns| && Unpatched(rs, |rs|, x) :: b[q + x] == insns[x])
    && forall n | 0 <= n < |rs| :: ReloDone(rs, n, insns, b, q, es, k0)
  }

  // The attach target's type and descriptor.
  predicate AttachGiven(a: Bytes, l: Ledger, es: seq<Event>) {
    l.attach.Of? && l.attach.k < |es| && es[l.attach.k].Find?
    && Get(a, ATTR_ATTACH_BTF_ID, 4) == es[l.attach.k].ret % TWO32
    && Get(a, ATTR_ATTACH_BTF_OBJ_FD, 4) == Fd(es, l.attach)
  }

  // A program's attribute, apart from what a relocation or an attach target changes.
  ghost predicate GivenProg(env: Env, s: ProgSpec, p: Pending, l: Ledger, es: seq<Event>, ctx: Bytes, e: Event)
    requires e.Bpf?
  {
    var a := AttrOf(e);
    e.cmd == BPF_PROG_LOAD && AsksProg(a, s, p)
    && Logs(a, PROG_LOG_LEVEL, PROG_LOG_SIZE, PROG_LOG_BUF, ctx)
    && PointsAt(env, e, PROG_LICENSE, s.license + [0])
    && PointsAt(env, e, PROG_FUNC_INFO, s.funcInfo) && PointsAt(env, e, PROG_LINE_INFO, s.lineInfo)
    && PointsAt(env, e, PROG_CORE_RELOS, p.core)
    && Get(a, PROG_BTF_FD, 4) == Fd(es, l.btf) && Get(a, PROG_FD_ARRAY, 8) == U64(env.blobBase + FD_ARRAY)
    && (forall i: nat | i < MAX_USED_MAPS :: Get(e.blob, FdSlot(i), 4) == MapFd(es, l, i))
    && (p.attachKind != 0 ==> AttachGiven(a, l, es))
    && |es| >= |Sought(p.relos, |p.relos|)|
    && var k0 := |es| - |Sought(p.relos, |p.relos|)|;
       exists q: int :: Relocated(p.relos, s.insns, e.blob, q, es, k0) && Get(a, PROG_INSNS, 8) == U64(env.blobBase + q)
  }

  // The attribute of a command.
  ghost predicate GivenBpf(env: Env, op: Op, p: Pending, l: Ledger, es: seq<Event>, ctx: Bytes, e: Event)
    requires e.Bpf?
  {
    match op
    case LoadBtf(raw) => GivenBtf(env, raw, ctx, e)
    case MapCreate(s, idx) => GivenMap(s, idx, l, es, ctx, e)
    case MapUpdate(idx, value) => GivenUpdate(env, idx, value, l, es, ctx, e)
    case MapFreeze(idx) => GivenFreeze(idx, l, es, e)
    case PopulateOuter(outer, slot, inner) => GivenPopulate(env, outer, slot, inner, l, es, e)
    case ProgLoad(s) => GivenProg(env, s, p, l, es, ctx, e)
    case _ => false
  }

  // What the kernel is asked, given the answers es to the requests before.
  ghost predicate Given(env: Env, c: Request, l: Ledger, es: seq<Event>, ctx: Bytes, e: Event) {
    match c
    case Seek(name, kind, _, _) => e.Find? && e.name == name + [0] && e.kind == kind
    case Address(name) => e.Lookup? && e.name == name + [0]
    case Do(op, p) => e.Bpf? && GivenBpf(env, op, p, l, es, ctx, e)
  }

  // The run goes on after this answer.
  predicate Succeeds(c: Request, e: Event) {
    match c
    case Do(_, _) => e.Bpf? && 0 <= e.ret < 0x8000_0000
    case Seek(_, _, strong, _) => e.Find? && e.ret < 0x8000_0000_0000_0000 && (strong ==> 0 <= e.ret)
    case Address(_) => e.Lookup? && (0 <= e.ret || e.ret == -ENOENT)
  }

  // It goes to the cleanup code.
  predicate Fails(c: Request, e: Event) {
    match c
    case Do(_, _) => e.Bpf? && e.ret < 0
    case Seek(_, _, strong, _) => e.Find? && strong && e.ret < 0
    case Address(_) => e.Lookup? && e.ret < 0 && e.ret != -ENOENT
  }

  // --- the state of a run that has followed the account

  // Every descriptor is in its place.
  ghost predicate InPlace(w: World, l: Ledger, es: seq<Event>) {
    |w.stack| == STACK_SZ
    && Get(w.stack, 0, 4) == Fd(es, l.btf)
    && Get(w.stack, 4, 4) == Fd(es, l.inner)
    && (forall i: nat | i < MAX_USED_PROGS :: Get(w.stack, 8 + 4 * i, 4) == ProgFd(es, l, i))
    && (forall i: nat | i < MAX_USED_MAPS :: Get(w.blob, FdSlot(i), 4) == MapFd(es, l, i))
    && (forall i: nat | i < MAX_KFUNC_DESCS :: Get(w.blob, FdSlot(MAX_USED_MAPS + i), 4) == LastFd(es, Users(l, i)))
  }

  // The first j requests have been made as they should and have succeeded.
  ghost predicate Followed(env: Env, cs: seq<Request>, j: nat, es: seq<Event>, ctx: Bytes)
    requires j <= |cs| && j <= |es|
  {
    forall i | 0 <= i < j :: Succeeds(cs[i], es[i]) && Given(env, cs[i], LedgerAfter(cs[..i]), es[..i], ctx, es[i])
  }

  const FD_AREA: nat := MAX_FD_ARRAY_SZ * 4

  // Where a generator stands and a run of what it has emitted so far agree.
  ghost predicate Tracks(env: Env, g: Gen, w: World, d: Bytes, ctx: Bytes, cs: seq<Request>) {
    var l, es := LedgerAfter(cs), Calls(w.trace);
    g.Live? && w.ok && w.ctx == ctx && |w.blob| == |d|
    && FD_AREA <= |g.data| <= |d| && w.blob[|g.data|..] == d[|g.data|..]
    && |es| == |cs| && Followed(env, cs, |cs|, es, ctx)
    && |l.maps| == g.nrMaps && |l.progs| == g.nrProgs
    && InPlace(w, l, es)
    && w.trace == Play(es, l.script)
  }

  // Request number j failed; everything before it is accounted for.
  ghost predicate FailedAt(env: Env, m: M, ctx: Bytes, cs: seq<Request>, j: nat)
    requires j < |cs|
  {
    var l, es := LedgerAfter(cs[..j]), Calls(m.w.trace);
    m.w.ok && m.w.ctx == ctx
    && |es| == j + 1 && Followed(env, cs, j, es, ctx)
    && Given(env, cs[j], l, es[..j], ctx, es[j])
    && Fails(cs[j], es[j]) && m.r7 == Num(es[j].ret)
    && InPlace(m.w, l, es) && m.w.trace == Play(es, Answered(l, cs[j], j))
  }

  // How far a run of all groups of g has come.
  ghost predicate Outcome(env: Env, g: Gen, out: Out, d: Bytes, ctx: Bytes, cs: seq<Request>) {
    match out
    case Next(m) => Tracks(env, g, m.w, d, ctx, cs)
    case Err(m) => |m.w.blob| == |d| && exists j | 0 <= j < |cs| :: FailedAt(env, m, ctx, cs, j)
  }
}
