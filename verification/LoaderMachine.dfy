/** The subset of the eBPF instruction set that the loader generator emits, and its small-step
    semantics with arbitrary results of helper calls (RFC 9669, sections 4 and 5). */
module LoaderMachine {
  import opened LoaderBytes

  datatype Size = B | H | W | DW

  function Width(s: Size): nat {
    match s case B => 1 case H => 2 case W => 4 case DW => 8
  }

  type Reg = r: nat | r < 11

  datatype Cond = JEQ | JNE | JSET | JSLT | JSLE | JSGE

  datatype Helper =
    | TracePrintk | ProbeReadKernel | CopyFromUser | SysBpf | SysClose | FindByNameKind | KallsymsLookup

  // One 8-byte slot.  A 64-bit immediate load takes two: LoadBlob and the High slot that
  // carries the offset into map value 0, the data blob.
  datatype Insn =
    | MovReg(dst: Reg, src: Reg)
    | MovImm(dst: Reg, imm: int)
    | AddImm(dst: Reg, imm: int)
    | RshImm(dst: Reg, imm: int)
    | And32Imm(dst: Reg, imm: int)
    | Ldx(size: Size, dst: Reg, src: Reg, off: int)
    | Stx(size: Size, dst: Reg, src: Reg, off: int)
    | St(size: Size, dst: Reg, off: int, imm: int)
    | LoadBlob(dst: Reg)
    | High(imm: int)
    | Ja(off: int)
    | Jmp(cond: Cond, dst: Reg, imm: int, off: int)
    | Call(helper: Helper)
    | Exit

  // Register contents.  Pointers stay symbolic; Junk is what a call leaves in R1-R5.
  datatype Val = Num(v: int) | StackPtr(off: int) | BlobPtr(off: int) | CtxPtr(off: int) | Junk

  // R6 is never written after the prologue and R10 is read-only, so both keep their place.
  datatype Regs = Regs(r0: Val, r1: Val, r2: Val, r3: Val, r4: Val, r5: Val, r6: Val, r7: Val, r8: Val, r9: Val, r10: Val) {
    function Get(i: Reg): Val {
      match i
      case 0 => r0 case 1 => r1 case 2 => r2 case 3 => r3 case 4 => r4 case 5 => r5
      case 6 => r6 case 7 => r7 case 8 => r8 case 9 => r9 case _ => r10
    }

    function Set(i: Reg, v: Val): Regs {
      match i
      case 0 => this.(r0 := v) case 1 => this.(r1 := v) case 2 => this.(r2 := v) case 3 => this.(r3 := v)
      case 4 => this.(r4 := v) case 5 => this.(r5 := v) case 6 => this.(r6 := v) case 7 => this.(r7 := v)
      case 8 => this.(r8 := v) case 9 => this.(r9 := v) case _ => this.(r10 := v)
    }
  }

  // What an observer of the loader sees: bpf commands with the number of their helper call and the
  // memory they were given, closed file descriptors and symbol lookups.
  datatype Event =
    | Bpf(cmd: int, attr: int, size: nat, blob: Bytes, ret: int, call: nat)
    | Close(fd: int)
    | Find(name: Bytes, kind: int, ret: int)
    | Lookup(name: Bytes, ret: int, address: nat)

  // Everything outside the registers.  ok turns false, for good, at the first access
  // outside its memory or the first use of a value that is not readable.
  datatype World = World(stack: Bytes, blob: Bytes, ctx: Bytes, trace: seq<Event>, calls: nat, ok: bool)

  datatype State = Running(pc: int, regs: Regs, w: World) | Halted(code: Val, w: World)

  // The outside world: where the blob lies, what the n-th helper call returns and writes, and what it
  // finds when it is a copy by this helper from that address.
  datatype Env = Env(blobBase: nat, bpf: nat -> int32, any: nat -> int64, bytes: (nat, nat) -> Bytes,
                     memory: (nat, Helper, int, nat) -> Bytes)

  const STACK_SZ: int := 136

  function Fault(w: World): World {
    w.(ok := false)
  }

  function LoadAt(w: World, p: Val, off: int, n: nat): (r: (Val, World))
    ensures r.0.Num?
  {
    match p
    case StackPtr(o) =>
      if InRange(w.stack, STACK_SZ + o + off, n) then (Num(LoadNum(w.stack, STACK_SZ + o + off, n)), w) else (Num(0), Fault(w))
    case BlobPtr(o) =>
      if InRange(w.blob, o + off, n) then (Num(LoadNum(w.blob, o + off, n)), w) else (Num(0), Fault(w))
    case CtxPtr(o) =>
      if InRange(w.ctx, o + off, n) then (Num(LoadNum(w.ctx, o + off, n)), w) else (Num(0), Fault(w))
    case _ => (Num(0), Fault(w))
  }

  function LoadNum(b: Bytes, off: int, n: nat): int {
    if n == 8 then S64(Get(b, off, n)) else Get(b, off, n)
  }

  // The bytes a value leaves in memory.  A blob pointer is its run-time address.
  function Encode(env: Env, v: Val, n: nat): (bs: Bytes)
    ensures |bs| == n
  {
    match v
    case Num(x) => LittleEndian(U64(x), n)
    case BlobPtr(o) => LittleEndian(U64(env.blobBase + o), n)
    case _ => Zeros(n)
  }

  predicate Storable(v: Val) {
    v.Num? || v.BlobPtr?
  }

  function StoreAt(env: Env, w: World, p: Val, off: int, n: nat, v: Val): World {
    var bs := Encode(env, v, n);
    if !Storable(v) then Fault(w) else
    WriteAt(w, p, off, bs)
  }

  function WriteAt(w: World, p: Val, off: int, bs: Bytes): World {
    match p
    case StackPtr(o) =>
      if InRange(w.stack, STACK_SZ + o + off, |bs|) then w.(stack := Put(w.stack, STACK_SZ + o + off, bs)) else Fault(w)
    case BlobPtr(o) =>
      if InRange(w.blob, o + off, |bs|) then w.(blob := Put(w.blob, o + off, bs)) else Fault(w)
    case CtxPtr(o) =>
      if InRange(w.ctx, o + off, |bs|) then w.(ctx := Put(w.ctx, o + off, bs)) else Fault(w)
    case _ => Fault(w)
  }

  function And(a: nat, b: nat): nat {
    if a == 0 || b == 0 then 0
    else (if a % 2 == 1 && b % 2 == 1 then 1 else 0) + 2 * And(a / 2, b / 2)
  }

  predicate Holds(c: Cond, a: int, imm: int) {
    match c
    case JEQ => a == imm
    case JNE => a != imm
    case JSET => And(U64(a), U64(imm)) != 0
    case JSLT => a < imm
    case JSLE => a <= imm
    case JSGE => a >= imm
  }

  // --- helper calls

  // The bytes the helper wrote into a buffer of n bytes, whatever they are.
  function Fetched(env: Env, call: nat, n: nat): (bs: Bytes)
    ensures |bs| == n
  {
    var b := env.bytes(call, n);
    if |b| == n then b else Zeros(n)
  }

  // The n bytes that a copy finds at its source address.
  function CopiedFrom(env: Env, call: nat, h: Helper, address: int, n: nat): (bs: Bytes)
    ensures |bs| == n
  {
    var b := env.memory(call, h, address, n);
    if |b| == n then b else Zeros(n)
  }

  function Tick(w: World): World {
    w.(calls := w.calls + 1)
  }

  function Log(w: World, e: Event): World {
    w.(trace := w.trace + [e], calls := w.calls + 1)
  }

  function BlobSlice(w: World, off: int, n: int): Bytes {
    if n >= 0 && InRange(w.blob, off, n) then w.blob[off..off + n] else []
  }

  predicate BlobArg(w: World, p: Val, n: Val) {
    p.BlobPtr? && n.Num? && n.v >= 0 && InRange(w.blob, p.off, n.v)
  }

  // Fills R2 bytes at R1 from source address R3; a null source leaves zeros.
  function Copy(env: Env, w: World, h: Helper, r1: Val, r2: Val, r3: Val): World {
    if !(r2.Num? && r2.v >= 0 && r3.Num?) then Fault(Tick(w)) else
    WriteAt(Tick(w), r1, 0, if r3.v == 0 then Zeros(r2.v) else CopiedFrom(env, w.calls, h, r3.v, r2.v))
  }

  function DoBpf(env: Env, w: World, r1: Val, r2: Val, r3: Val): World {
    if r1.Num? && BlobArg(w, r2, r3)
    then Log(w, Bpf(r1.v, r2.off, r3.v, w.blob, env.bpf(w.calls), w.calls))
    else Fault(Tick(w))
  }

  function DoFind(env: Env, w: World, r1: Val, r2: Val, r3: Val, r4: Val): World {
    if BlobArg(w, r1, r2) && r3.Num? && r4 == Num(0)
    then Log(w, Find(w.blob[r1.off..r1.off + r2.v], r3.v, env.any(w.calls)))
    else Fault(Tick(w))
  }

  // Writes the symbol's address, 8 arbitrary bytes, at R4, whether the symbol was found or not.
  function DoLookup(env: Env, w: World, r1: Val, r2: Val, r3: Val, r4: Val): World {
    if BlobArg(w, r1, r2) && r3 == Num(0)
    then
      var bytes := Fetched(env, w.calls, 8);
      WriteAt(Log(w, Lookup(w.blob[r1.off..r1.off + r2.v], env.any(w.calls), FromLittleEndian(bytes))), r4, 0, bytes)
    else Fault(Tick(w))
  }

  function CallWorld(env: Env, h: Helper, r: Regs, w: World): World {
    match h
    case TracePrintk => if BlobArg(w, r.r1, r.r2) then Tick(w) else Fault(Tick(w))
    case ProbeReadKernel => Copy(env, w, h, r.r1, r.r2, r.r3)
    case CopyFromUser => Copy(env, w, h, r.r1, r.r2, r.r3)
    case SysBpf => DoBpf(env, w, r.r1, r.r2, r.r3)
    case SysClose => if r.r1.Num? then Log(w, Close(r.r1.v)) else Fault(Tick(w))
    case FindByNameKind => DoFind(env, w, r.r1, r.r2, r.r3, r.r4)
    case KallsymsLookup => DoLookup(env, w, r.r1, r.r2, r.r3, r.r4)
  }

  function CallResult(env: Env, h: Helper, w: World): Val {
    Num(if h.SysBpf? then env.bpf(w.calls) else env.any(w.calls))
  }

  function RegsAfterCall(env: Env, h: Helper, r: Regs, w: World): Regs {
    r.(r0 := CallResult(env, h, w), r1 := Junk, r2 := Junk, r3 := Junk, r4 := Junk, r5 := Junk)
  }

  // --- one instruction

  function Arith(v: Val, imm: int): Val {
    match v
    case Num(x) => Num(S64(U64(x + imm)))
    case StackPtr(o) => StackPtr(o + imm)
    case BlobPtr(o) => BlobPtr(o + imm)
    case CtxPtr(o) => CtxPtr(o + imm)
    case Junk => Junk
  }

  // The upper half of a 64-bit value: a logical right shift by 32, the only one emitted.
  function Upper(v: Val, n: int): Val {
    if v.Num? && n == 32 then Num(U64(v.v) / TWO32) else Num(0)
  }

  function Masked(v: Val, imm: int): Val {
    if v.Num? && imm >= 0 then Num(And(U64(v.v) % TWO32, imm)) else Num(0)
  }

  predicate Taken(v: Val, c: Cond, imm: int) {
    v.Num? && Holds(c, v.v, imm)
  }

  function Need(w: World, b: bool): World {
    if b then w else Fault(w)
  }

  function Step(p: seq<Insn>, env: Env, s: State): State {
    match s
    case Halted(_, _) => s
    case Running(pc, r, w) =>
      if !(0 <= pc < |p|) then Halted(Junk, Fault(w)) else
      match p[pc]
      case MovReg(d, x) => Running(pc + 1, r.Set(d, r.Get(x)), Need(w, !r.Get(x).Junk?))
      case MovImm(d, imm) => Running(pc + 1, r.Set(d, Num(imm)), w)
      case AddImm(d, imm) => Running(pc + 1, r.Set(d, Arith(r.Get(d), imm)), Need(w, !r.Get(d).Junk?))
      case RshImm(d, imm) => Running(pc + 1, r.Set(d, Upper(r.Get(d), imm)), Need(w, r.Get(d).Num? && imm == 32))
      case And32Imm(d, imm) => Running(pc + 1, r.Set(d, Masked(r.Get(d), imm)), Need(w, r.Get(d).Num? && imm >= 0))
      case Ldx(sz, d, x, off) =>
        var (v, w') := LoadAt(w, r.Get(x), off, Width(sz));
        Running(pc + 1, r.Set(d, v), w')
      case Stx(sz, d, x, off) => Running(pc + 1, r, StoreAt(env, w, r.Get(d), off, Width(sz), r.Get(x)))
      case St(sz, d, off, imm) => Running(pc + 1, r, StoreAt(env, w, r.Get(d), off, Width(sz), Num(imm)))
      case LoadBlob(d) =>
        if pc + 1 < |p| && p[pc + 1].High? then Running(pc + 2, r.Set(d, BlobPtr(p[pc + 1].imm)), w) else Halted(Junk, Fault(w))
      case High(_) => Halted(Junk, Fault(w))
      case Ja(off) => Running(pc + 1 + off, r, w)
      case Jmp(c, d, imm, off) =>
        Running(if Taken(r.Get(d), c, imm) then pc + 1 + off else pc + 1, r, Need(w, r.Get(d).Num?))
      case Call(h) => Running(pc + 1, RegsAfterCall(env, h, r, w), CallWorld(env, h, r, w))
      case Exit => Halted(r.r0, w)
  }

  function Iterate(p: seq<Insn>, env: Env, k: nat, s: State): State {
    if k == 0 then s else Iterate(p, env, k - 1, Step(p, env, s))
  }

  ghost predicate Reaches(p: seq<Insn>, env: Env, s: State, t: State) {
    exists k: nat :: Iterate(p, env, k, s) == t
  }

  lemma ReachesSelf(p: seq<Insn>, env: Env, s: State)
    ensures Reaches(p, env, s, s)
  {
    assert Iterate(p, env, 0, s) == s;
  }

  lemma ReachesStep(p: seq<Insn>, env: Env, s: State, t: State)
    requires Reaches(p, env, Step(p, env, s), t)
    ensures Reaches(p, env, s, t)
  {
    var k: nat :| Iterate(p, env, k, Step(p, env, s)) == t;
    assert Iterate(p, env, k + 1, s) == t;
  }

  lemma {:induction false} IterateAdd(p: seq<Insn>, env: Env, j: nat, k: nat, s: State)
    ensures Iterate(p, env, j + k, s) == Iterate(p, env, k, Iterate(p, env, j, s))
  {
    if j > 0 {
      IterateAdd(p, env, j - 1, k, Step(p, env, s));
    }
  }

  lemma ReachesTrans(p: seq<Insn>, env: Env, s: State, t: State, u: State)
    requires Reaches(p, env, s, t) && Reaches(p, env, t, u)
    ensures Reaches(p, env, s, u)
  {
    var j: nat :| Iterate(p, env, j, s) == t;
    var k: nat :| Iterate(p, env, k, t) == u;
    IterateAdd(p, env, j, k, s);
  }

  // --- the effect of each instruction on a run that began in state a, one lemma per form

  predicate Fetches(p: seq<Insn>, s: State, i: Insn) {
    s.Running? && 0 <= s.pc < |p| && p[s.pc] == i
  }

  lemma Extend(p: seq<Insn>, env: Env, a: State, s: State)
    requires Reaches(p, env, a, s)
    ensures Reaches(p, env, a, Step(p, env, s))
  {
    hide Step;
    ReachesSelf(p, env, Step(p, env, s));
    ReachesStep(p, env, s, Step(p, env, s));
    ReachesTrans(p, env, a, s, Step(p, env, s));
  }

  lemma AfterMovReg(p: seq<Insn>, env: Env, a: State, s: State, d: Reg, x: Reg) returns (t: State)
    requires Fetches(p, s, MovReg(d, x)) && Reaches(p, env, a, s)
    ensures t == Running(s.pc + 1, s.regs.Set(d, s.regs.Get(x)), Need(s.w, !s.regs.Get(x).Junk?)) && Reaches(p, env, a, t)
  {
    t := Step(p, env, s);
    Extend(p, env, a, s);
  }

  lemma AfterMovImm(p: seq<Insn>, env: Env, a: State, s: State, d: Reg, imm: int) returns (t: State)
    requires Fetches(p, s, MovImm(d, imm)) && Reaches(p, env, a, s)
    ensures t == Running(s.pc + 1, s.regs.Set(d, Num(imm)), s.w) && Reaches(p, env, a, t)
  {
    t := Step(p, env, s);
    Extend(p, env, a, s);
  }

  lemma AfterAddImm(p: seq<Insn>, env: Env, a: State, s: State, d: Reg, imm: int) returns (t: State)
    requires Fetches(p, s, AddImm(d, imm)) && Reaches(p, env, a, s)
    ensures t == Running(s.pc + 1, s.regs.Set(d, Arith(s.regs.Get(d), imm)), Need(s.w, !s.regs.Get(d).Junk?))
      && Reaches(p, env, a, t)
  {
    t := Step(p, env, s);
    Extend(p, env, a, s);
  }

  lemma AfterRshImm(p: seq<Insn>, env: Env, a: State, s: State, d: Reg, imm: int) returns (t: State)
    requires Fetches(p, s, RshImm(d, imm)) && Reaches(p, env, a, s)
    ensures t == Running(s.pc + 1, s.regs.Set(d, Upper(s.regs.Get(d), imm)),
      Need(s.w, s.regs.Get(d).Num? && imm == 32)) && Reaches(p, env, a, t)
  {
    t := Step(p, env, s);
    Extend(p, env, a, s);
  }

  lemma AfterAnd32Imm(p: seq<Insn>, env: Env, a: State, s: State, d: Reg, imm: int) returns (t: State)
    requires Fetches(p, s, And32Imm(d, imm)) && Reaches(p, env, a, s)
    ensures t == Running(s.pc + 1, s.regs.Set(d, Masked(s.regs.Get(d), imm)),
      Need(s.w, s.regs.Get(d).Num? && imm >= 0)) && Reaches(p, env, a, t)
  {
    t := Step(p, env, s);
    Extend(p, env, a, s);
  }

  lemma AfterLdx(p: seq<Insn>, env: Env, a: State, s: State, sz: Size, d: Reg, x: Reg, off: int) returns (t: State)
    requires Fetches(p, s, Ldx(sz, d, x, off)) && Reaches(p, env, a, s)
    ensures t == (var (v, w) := LoadAt(s.w, s.regs.Get(x), off, Width(sz)); Running(s.pc + 1, s.regs.Set(d, v), w))
      && Reaches(p, env, a, t)
  {
    t := Step(p, env, s);
    Extend(p, env, a, s);
  }

  lemma AfterStx(p: seq<Insn>, env: Env, a: State, s: State, sz: Size, d: Reg, x: Reg, off: int) returns (t: State)
    requires Fetches(p, s, Stx(sz, d, x, off)) && Reaches(p, env, a, s)
    ensures t == Running(s.pc + 1, s.regs, StoreAt(env, s.w, s.regs.Get(d), off, Width(sz), s.regs.Get(x)))
      && Reaches(p, env, a, t)
  {
    t := Step(p, env, s);
    Extend(p, env, a, s);
  }

  lemma AfterSt(p: seq<Insn>, env: Env, a: State, s: State, sz: Size, d: Reg, off: int, imm: int) returns (t: State)
    requires Fetches(p, s, St(sz, d, off, imm)) && Reaches(p, env, a, s)
    ensures t == Running(s.pc + 1, s.regs, StoreAt(env, s.w, s.regs.Get(d), off, Width(sz), Num(imm))) && Reaches(p, env, a, t)
  {
    t := Step(p, env, s);
    Extend(p, env, a, s);
  }

  lemma AfterLoadBlob(p: seq<Insn>, env: Env, a: State, s: State, d: Reg, imm: int) returns (t: State)
    requires Fetches(p, s, LoadBlob(d)) && Reaches(p, env, a, s)
    requires s.pc + 1 < |p| && p[s.pc + 1] == High(imm)
    ensures t == Running(s.pc + 2, s.regs.Set(d, BlobPtr(imm)), s.w) && Reaches(p, env, a, t)
  {
    t := Step(p, env, s);
    Extend(p, env, a, s);
  }

  lemma AfterJa(p: seq<Insn>, env: Env, a: State, s: State, off: int) returns (t: State)
    requires Fetches(p, s, Ja(off)) && Reaches(p, env, a, s)
    ensures t == Running(s.pc + 1 + off, s.regs, s.w) && Reaches(p, env, a, t)
  {
    t := Step(p, env, s);
    Extend(p, env, a, s);
  }

  lemma AfterJmp(p: seq<Insn>, env: Env, a: State, s: State, c: Cond, d: Reg, imm: int, off: int) returns (t: State)
    requires Fetches(p, s, Jmp(c, d, imm, off)) && Reaches(p, env, a, s)
    ensures var pc := if Taken(s.regs.Get(d), c, imm) then s.pc + 1 + off else s.pc + 1;
      t == Running(pc, s.regs, Need(s.w, s.regs.Get(d).Num?)) && Reaches(p, env, a, t)
  {
    t := Step(p, env, s);
    Extend(p, env, a, s);
  }

  lemma AfterCall(p: seq<Insn>, env: Env, a: State, s: State, h: Helper) returns (t: State)
    requires Fetches(p, s, Call(h)) && Reaches(p, env, a, s)
    ensures t == Running(s.pc + 1, RegsAfterCall(env, h, s.regs, s.w), CallWorld(env, h, s.regs, s.w)) && Reaches(p, env, a, t)
  {
    t := Step(p, env, s);
    Extend(p, env, a, s);
  }

  lemma AfterExit(p: seq<Insn>, env: Env, a: State, s: State) returns (t: State)
    requires Fetches(p, s, Exit) && Reaches(p, env, a, s)
    ensures t == Halted(s.regs.r0, s.w) && Reaches(p, env, a, t)
  {
    t := Step(p, env, s);
    Extend(p, env, a, s);
  }
}
