/** The instruction groups the loader generator emits, one per emitting helper of gen_loader.c:
    the code of each group and, independently of registers and jumps, what the group does. */
module LoaderIR {
  import opened LoaderBytes
  import opened LoaderMachine

  // A debug print: absent when log_level is 0, else the address and length of its format string.
  datatype Dbg = NoDbg | Dbg(addr: int, len: int)

  datatype Group =
    | RelStore(off: int, data: int)
    | Blob2Blob(off: int, size: Size, blobOff: int)
    | Blob2Ctx(ctxOff: int, size: Size, blobOff: int)
    | Ctx2Blob(off: int, size: Size, ctxOff: int, checkNonZero: bool)
    | Stack2Blob(off: int, size: Size, stackOff: int)
    | Stack2Ctx(ctxOff: int, size: Size, stackOff: int)
    | SysCall(cmd: int, attr: int, attrSize: int)
    | CheckErr
    | CheckErrUnlessEnoent
    | DebugRet(dbg: Dbg)
    | DebugPair(dbg: Dbg)
    | DebugR9(dbg: Dbg)
    | SaveToStack(stackOff: int)
    | SaveToBlob(blobOff: int)
    | CloseStack(stackOff: int, dbg: Dbg)
    | CloseBlob(blobOff: int, dbg: Dbg)
    | CloseStackQuiet(stackOff: int)
    | InitialValue(ctxOff: int, value: int, size_: int)
    | FindByName(name: int, len: int, kind: int)
    | SaveAttach(attr: int)
    | LoadInsn(insn: int)
    | LookupName(name: int, len: int, res: int)
    | StoreAddr
    | StoreKfunc(idx: int, slot: int)
    | StoreKsym
    | CopyKsym(off: int, blobOff: int)
    | LogKfunc1
    | LogKfunc2(slot: int)
    | LogKsym1
    | LogKsym2

  // offsetof(struct bpf_insn, ...)
  const INSN_CODE_END: int := 1
  const INSN_OFF: int := 2
  const INSN_IMM: int := 4
  const INSN_SZ: int := 8
  const ENOENT: int := 2
  const SRC_REG_MASK: int := 0x0f
  const CTX_FLAGS: int := 4
  const BPF_SKEL_KERNEL: int := 1
  const ATTR_ATTACH_BTF_ID: int := 108
  const ATTR_ATTACH_BTF_OBJ_FD: int := 112

  // --- code

  function Load64(dst: Reg, off: int): seq<Insn> {
    [LoadBlob(dst), High(off)]
  }

  function DebugCode(dbg: Dbg, reg1: int, reg2: int): seq<Insn>
    requires reg1 < 11 && reg2 < 11
  {
    if dbg.NoDbg? then [] else
    Load64(1, dbg.addr) + [MovImm(2, dbg.len)]
    + (if reg1 >= 0 then [MovReg(3, reg1)] else [])
    + (if reg2 >= 0 then [MovReg(4, reg2)] else [])
    + [Call(TracePrintk)]
  }

  // Closes the descriptor in R1 unless it is not positive.
  function CloseCode(dbg: Dbg): seq<Insn> {
    [Jmp(JSLE, 1, 0, 2 + (if dbg.Dbg? then 6 else 0)), MovReg(9, 1), Call(SysClose)] + DebugCode(dbg, 9, 0)
  }

  function CheckErrCode(pos: int, cleanup: int): seq<Insn> {
    [Jmp(JSLT, 7, 0, cleanup - pos - 1)]
  }

  const CLEAR_SRC_REG: seq<Insn> :=
    [Ldx(B, 9, 8, INSN_CODE_END), And32Imm(9, SRC_REG_MASK), Stx(B, 8, 9, INSN_CODE_END)]

  // The code of a group that starts at slot pos of a program whose cleanup label is slot cleanup.
  function Code(g: Group, pos: int, cleanup: int): seq<Insn> {
    match g
    case RelStore(off, data) =>
      [LoadBlob(0), High(data), LoadBlob(1), High(off), Stx(DW, 1, 0, 0)]
    case Blob2Blob(off, sz, src) =>
      [LoadBlob(2), High(src), Ldx(sz, 0, 2, 0), LoadBlob(1), High(off), Stx(sz, 1, 0, 0)]
    case Blob2Ctx(ctxOff, sz, src) =>
      [LoadBlob(1), High(src), Ldx(sz, 0, 1, 0), Stx(sz, 6, 0, ctxOff)]
    case Ctx2Blob(off, sz, ctxOff, check) =>
      [Ldx(sz, 0, 6, ctxOff)] + (if check then [Jmp(JEQ, 0, 0, 3)] else [])
      + [LoadBlob(1), High(off), Stx(sz, 1, 0, 0)]
    case Stack2Blob(off, sz, stackOff) =>
      [Ldx(sz, 0, 10, stackOff), LoadBlob(1), High(off), Stx(sz, 1, 0, 0)]
    case Stack2Ctx(ctxOff, sz, stackOff) =>
      [Ldx(sz, 0, 10, stackOff), Stx(sz, 6, 0, ctxOff)]
    case SysCall(cmd, attr, attrSize) =>
      [MovImm(1, cmd), LoadBlob(2), High(attr), MovImm(3, attrSize), Call(SysBpf), MovReg(7, 0)]
    case CheckErr => CheckErrCode(pos, cleanup)
    case CheckErrUnlessEnoent => [Jmp(JEQ, 7, -ENOENT, 1)] + CheckErrCode(pos + 1, cleanup)
    case DebugRet(dbg) => DebugCode(dbg, 7, -1)
    case DebugPair(dbg) => DebugCode(dbg, 7, 9)
    case DebugR9(dbg) => DebugCode(dbg, 9, -1)
    case SaveToStack(stackOff) => [Stx(W, 10, 7, stackOff)]
    case SaveToBlob(off) => [LoadBlob(1), High(off), Stx(W, 1, 7, 0)]
    case CloseStack(stackOff, dbg) => [Ldx(W, 1, 10, stackOff)] + CloseCode(dbg)
    case CloseBlob(off, dbg) => [LoadBlob(0), High(off), Ldx(W, 1, 0, 0)] + CloseCode(dbg)
    case CloseStackQuiet(stackOff) => [Ldx(W, 1, 10, stackOff), Jmp(JSLE, 1, 0, 1), Call(SysClose)]
    case InitialValue(ctxOff, value, size) =>
      [Ldx(DW, 3, 6, ctxOff), Jmp(JEQ, 3, 0, 8), LoadBlob(1), High(value), MovImm(2, size),
       Ldx(W, 0, 6, CTX_FLAGS), Jmp(JSET, 0, BPF_SKEL_KERNEL, 2), Call(CopyFromUser), Ja(1), Call(ProbeReadKernel)]
    case FindByName(name, len, kind) =>
      [LoadBlob(1), High(name), MovImm(2, len), MovImm(3, kind), MovImm(4, 0), Call(FindByNameKind), MovReg(7, 0)]
    case SaveAttach(attr) =>
      [LoadBlob(0), High(attr), Stx(W, 0, 7, ATTR_ATTACH_BTF_ID), RshImm(7, 32), Stx(W, 0, 7, ATTR_ATTACH_BTF_OBJ_FD)]
    case LoadInsn(insn) => [LoadBlob(8), High(insn)]
    case LookupName(name, len, res) =>
      [LoadBlob(1), High(name), MovImm(2, len), MovImm(3, 0), LoadBlob(4), High(res), MovReg(7, 4),
       Call(KallsymsLookup), Ldx(DW, 9, 7, 0), MovReg(7, 0)]
    case StoreAddr =>
      [Stx(W, 8, 9, INSN_IMM), RshImm(9, 32), Stx(W, 8, 9, INSN_SZ + INSN_IMM)]
    case StoreKfunc(idx, slot) =>
      [Jmp(JSGE, 7, 0, 3), St(W, 8, INSN_IMM, 0), St(H, 8, INSN_OFF, 0), Ja(10),
       Stx(W, 8, 7, INSN_IMM), MovReg(9, 7), RshImm(9, 32), Jmp(JNE, 9, 0, 2), St(H, 8, INSN_OFF, 0), Ja(4),
       LoadBlob(0), High(slot), Stx(W, 0, 9, 0), St(H, 8, INSN_OFF, idx)]
    case StoreKsym =>
      [Jmp(JSGE, 7, 0, 3), St(W, 8, INSN_IMM, 0), St(W, 8, INSN_SZ + INSN_IMM, 0), Ja(4),
       Stx(W, 8, 7, INSN_IMM), RshImm(7, 32), Stx(W, 8, 7, INSN_SZ + INSN_IMM), Jmp(JSGE, 7, 0, 3)]
      + CLEAR_SRC_REG
    case CopyKsym(off, src) =>
      [LoadBlob(2), High(src), Ldx(W, 0, 2, 0), LoadBlob(1), High(off), Stx(W, 1, 0, 0), Jmp(JNE, 0, 0, 3)]
      + CLEAR_SRC_REG
    case LogKfunc1 => [Ldx(W, 7, 8, INSN_IMM), Ldx(H, 9, 8, INSN_OFF)]
    case LogKfunc2(slot) => [LoadBlob(0), High(slot), Ldx(W, 9, 0, 0)]
    case LogKsym1 => [Ldx(W, 7, 8, INSN_IMM), Ldx(H, 9, 8, INSN_SZ + INSN_IMM)]
    case LogKsym2 => [Ldx(B, 9, 8, INSN_CODE_END)]
  }

  function Flat(gs: seq<Group>, pos: int, cleanup: int): seq<Insn> {
    if gs == [] then [] else
    var c := Code(gs[0], pos, cleanup);
    c + Flat(gs[1..], pos + |c|, cleanup)
  }

  // --- meaning

  // What a group can see: the callee-saved registers R7, R8, R9 and the world.
  datatype M = M(r7: Val, r8: Val, r9: Val, w: World)

  // A group either falls through or, on a negative R7, goes to the cleanup code.
  datatype Out = Next(m: M) | Err(m: M)

  function Move(env: Env, w: World, from: Val, fromOff: int, to: Val, toOff: int, n: nat): World {
    var (v, w1) := LoadAt(w, from, fromOff, n);
    StoreAt(env, w1, to, toOff, n, v)
  }

  function Print(w: World, dbg: Dbg): World {
    if dbg.NoDbg? then w
    else if BlobArg(w, BlobPtr(dbg.addr), Num(dbg.len)) then Tick(w)
    else Fault(Tick(w))
  }

  function PrintVal(w: World, dbg: Dbg, v: Val): World {
    if dbg.NoDbg? then w else Print(Need(w, !v.Junk?), dbg)
  }

  // Close the word at p unless it is 0.
  function CloseAt(m: M, p: Val, off: int, dbg: Dbg): M {
    var (fd, w) := LoadAt(m.w, p, off, 4);
    if Taken(fd, JSLE, 0) then m.(w := w)
    else m.(r9 := fd, w := Print(Log(w, Close(fd.v)), dbg))
  }

  function CheckR7(m: M): Out {
    var m1 := m.(w := Need(m.w, m.r7.Num?));
    if Taken(m.r7, JSLT, 0) then Err(m1) else Next(m1)
  }

  function ClearSrcReg(env: Env, m: M): M {
    var (v, w) := LoadAt(m.w, m.r8, INSN_CODE_END, 1);
    var v' := Masked(v, SRC_REG_MASK);
    m.(r9 := v', w := StoreAt(env, w, m.r8, INSN_CODE_END, 1, v'))
  }

  function FetchInitial(env: Env, w: World, ctxOff: int, value: int, size: int): World {
    var (src, w1) := LoadAt(w, CtxPtr(0), ctxOff, 8);
    if Taken(src, JEQ, 0) then w1 else
    var (flags, w2) := LoadAt(w1, CtxPtr(0), CTX_FLAGS, 4);
    Copy(env, w2, CopyHelper(flags.v), BlobPtr(value), Num(size), src)
  }

  // The copy helper that the context's flags ask for.
  function CopyHelper(flags: int): Helper {
    if Holds(JSET, flags, BPF_SKEL_KERNEL) then ProbeReadKernel else CopyFromUser
  }

  function LookupDen(env: Env, m: M, name: int, len: int, res: int): M {
    var w1 := DoLookup(env, m.w, BlobPtr(name), Num(len), Num(0), BlobPtr(res));
    var (addr, w2) := LoadAt(w1, BlobPtr(res), 0, 8);
    m.(r7 := Num(env.any(m.w.calls)), r9 := addr, w := w2)
  }

  function StoreHalves(env: Env, w: World, p: Val, off1: int, off2: int, v: Val): World {
    var w1 := StoreAt(env, w, p, off1, 4, v);
    StoreAt(env, Need(w1, v.Num?), p, off2, 4, Upper(v, 32))
  }

  function KfuncDen(env: Env, m: M, idx: int, slot: int): M {
    var m0 := m.(w := Need(m.w, m.r7.Num?));
    if !Taken(m.r7, JSGE, 0) then
      m0.(w := StoreAt(env, StoreAt(env, m0.w, m.r8, INSN_IMM, 4, Num(0)), m.r8, INSN_OFF, 2, Num(0)))
    else
      var w1 := Need(StoreAt(env, m0.w, m.r8, INSN_IMM, 4, m.r7), m.r7.Num?);
      var fd := Upper(m.r7, 32);
      if !Taken(fd, JNE, 0) then
        m0.(r9 := fd, w := StoreAt(env, w1, m.r8, INSN_OFF, 2, Num(0)))
      else
        m0.(r9 := fd, w := StoreAt(env, StoreAt(env, w1, BlobPtr(slot), 0, 4, fd), m.r8, INSN_OFF, 2, Num(idx)))
  }

  function KsymDen(env: Env, m: M): M {
    var m0 := m.(w := Need(m.w, m.r7.Num?));
    if Taken(m.r7, JSGE, 0) then
      m0.(r7 := Upper(m.r7, 32), w := StoreHalves(env, m0.w, m.r8, INSN_IMM, INSN_SZ + INSN_IMM, m.r7))
    else
      ClearSrcReg(env, m0.(w := StoreAt(env, StoreAt(env, m0.w, m.r8, INSN_IMM, 4, Num(0)), m.r8,
        INSN_SZ + INSN_IMM, 4, Num(0))))
  }

  function CopyKsymDen(env: Env, m: M, off: int, src: int): M {
    var (v, w1) := LoadAt(m.w, BlobPtr(src), 0, 4);
    var m1 := m.(w := StoreAt(env, w1, BlobPtr(off), 0, 4, v));
    if Taken(v, JNE, 0) then m1 else ClearSrcReg(env, m1)
  }

  function Load2(m: M, off7: int, n7: nat, off9: int, n9: nat): M {
    var (a, w1) := LoadAt(m.w, m.r8, off7, n7);
    var (b, w2) := LoadAt(w1, m.r8, off9, n9);
    m.(r7 := a, r9 := b, w := w2)
  }

  function LoadR9(m: M, p: Val, off: int, n: nat): M {
    var (v, w) := LoadAt(m.w, p, off, n);
    m.(r9 := v, w := w)
  }

  function Den(env: Env, g: Group, m: M): Out {
    match g
    case RelStore(off, data) => Next(m.(w := StoreAt(env, m.w, BlobPtr(off), 0, 8, BlobPtr(data))))
    case Blob2Blob(off, sz, src) => Next(m.(w := Move(env, m.w, BlobPtr(src), 0, BlobPtr(off), 0, Width(sz))))
    case Blob2Ctx(ctxOff, sz, src) => Next(m.(w := Move(env, m.w, BlobPtr(src), 0, CtxPtr(0), ctxOff, Width(sz))))
    case Ctx2Blob(off, sz, ctxOff, check) =>
      var (v, w1) := LoadAt(m.w, CtxPtr(0), ctxOff, Width(sz));
      if check && Taken(v, JEQ, 0) then Next(m.(w := w1))
      else Next(m.(w := StoreAt(env, w1, BlobPtr(off), 0, Width(sz), v)))
    case Stack2Blob(off, sz, so) => Next(m.(w := Move(env, m.w, StackPtr(0), so, BlobPtr(off), 0, Width(sz))))
    case Stack2Ctx(ctxOff, sz, so) => Next(m.(w := Move(env, m.w, StackPtr(0), so, CtxPtr(0), ctxOff, Width(sz))))
    case SysCall(cmd, attr, n) =>
      Next(m.(r7 := Num(env.bpf(m.w.calls)), w := DoBpf(env, m.w, Num(cmd), BlobPtr(attr), Num(n))))
    case CheckErr => CheckR7(m)
    case CheckErrUnlessEnoent =>
      if Taken(m.r7, JEQ, -ENOENT) then Next(m.(w := Need(m.w, m.r7.Num?))) else CheckR7(m)
    case DebugRet(dbg) => Next(m.(w := PrintVal(m.w, dbg, m.r7)))
    case DebugPair(dbg) => Next(m.(w := PrintVal(Need(m.w, dbg.NoDbg? || !m.r7.Junk?), dbg, m.r9)))
    case DebugR9(dbg) => Next(m.(w := PrintVal(m.w, dbg, m.r9)))
    case SaveToStack(so) => Next(m.(w := StoreAt(env, m.w, StackPtr(0), so, 4, m.r7)))
    case SaveToBlob(off) => Next(m.(w := StoreAt(env, m.w, BlobPtr(off), 0, 4, m.r7)))
    case CloseStack(so, dbg) => Next(CloseAt(m, StackPtr(0), so, dbg))
    case CloseBlob(off, dbg) => Next(CloseAt(m, BlobPtr(off), 0, dbg))
    case CloseStackQuiet(so) => Next(CloseAt(m, StackPtr(0), so, NoDbg).(r9 := m.r9))
    case InitialValue(ctxOff, value, size) => Next(m.(w := FetchInitial(env, m.w, ctxOff, value, size)))
    case FindByName(name, len, kind) =>
      Next(m.(r7 := Num(env.any(m.w.calls)), w := DoFind(env, m.w, BlobPtr(name), Num(len), Num(kind), Num(0))))
    case SaveAttach(attr) =>
      Next(m.(r7 := Upper(m.r7, 32),
              w := StoreHalves(env, m.w, BlobPtr(attr), ATTR_ATTACH_BTF_ID, ATTR_ATTACH_BTF_OBJ_FD, m.r7)))
    case LoadInsn(insn) => Next(m.(r8 := BlobPtr(insn)))
    case LookupName(name, len, res) => Next(LookupDen(env, m, name, len, res))
    case StoreAddr =>
      Next(m.(r9 := Upper(m.r9, 32), w := StoreHalves(env, m.w, m.r8, INSN_IMM, INSN_SZ + INSN_IMM, m.r9)))
    case StoreKfunc(idx, slot) => Next(KfuncDen(env, m, idx, slot))
    case StoreKsym => Next(KsymDen(env, m))
    case CopyKsym(off, src) => Next(CopyKsymDen(env, m, off, src))
    case LogKfunc1 => Next(Load2(m, INSN_IMM, 4, INSN_OFF, 2))
    case LogKfunc2(slot) => Next(LoadR9(m, BlobPtr(slot), 0, 4))
    case LogKsym1 => Next(Load2(m, INSN_IMM, 4, INSN_SZ + INSN_IMM, 2))
    case LogKsym2 => Next(LoadR9(m, m.r8, INSN_CODE_END, 1))
  }

  function DenAll(env: Env, gs: seq<Group>, m: M): Out {
    if gs == [] then Next(m) else
    match Den(env, gs[0], m)
    case Next(m1) => DenAll(env, gs[1..], m1)
    case Err(m1) => Err(m1)
  }

  lemma {:induction false} FlatAppend(gs: seq<Group>, hs: seq<Group>, pos: int, cleanup: int)
    ensures Flat(gs + hs, pos, cleanup)
         == Flat(gs, pos, cleanup) + Flat(hs, pos + |Flat(gs, pos, cleanup)|, cleanup)
  {
    hide Code;
    if gs == [] {
      assert gs + hs == hs;
    } else {
      var c := Code(gs[0], pos, cleanup);
      assert (gs + hs)[1..] == gs[1..] + hs;
      FlatAppend(gs[1..], hs, pos + |c|, cleanup);
    }
  }

  lemma {:induction false} DenAppend(env: Env, gs: seq<Group>, hs: seq<Group>, m: M)
    ensures var o := DenAll(env, gs, m);
      DenAll(env, gs + hs, m) == if o.Next? then DenAll(env, hs, o.m) else o
  {
    hide Den;
    if gs == [] {
      assert gs + hs == hs;
    } else {
      assert (gs + hs)[1..] == gs[1..] + hs;
      match Den(env, gs[0], m) {
        case Next(m1) => DenAppend(env, gs[1..], hs, m1);
        case Err(_) =>
      }
    }
  }
}
