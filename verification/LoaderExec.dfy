/** Every group's code does what the group means, and so does every sequence of groups. */
module LoaderExec {
  import opened LoaderBytes
  import opened LoaderMachine
  import opened LoaderIR

  ghost predicate CodeAt(p: seq<Insn>, pos: int, code: seq<Insn>) {
    0 <= pos && pos + |code| <= |p| && forall i {:trigger code[i]} | 0 <= i < |code| :: p[pos + i] == code[i]
  }

  // The registers agree with what the groups see; R6 and R10 keep their roles.
  predicate Match(r: Regs, m: M) {
    r.r6 == CtxPtr(0) && r.r10 == StackPtr(0) && r.r7 == m.r7 && r.r8 == m.r8 && r.r9 == m.r9
  }

  // From pos the machine arrives at end, or at the cleanup label, in the state out describes.
  ghost predicate Executes(p: seq<Insn>, env: Env, pos: int, r: Regs, w: World, end: int, cleanup: int, out: Out) {
    exists r': Regs ::
      Match(r', out.m)
      && Reaches(p, env, Running(pos, r, w), Running(if out.Next? then end else cleanup, r', out.m.w))
  }

  lemma Done(p: seq<Insn>, env: Env, s: State, t: State, end: int, cleanup: int, out: Out)
    requires s.Running? && t.Running? && Reaches(p, env, s, t)
    requires t.pc == (if out.Next? then end else cleanup) && t.w == out.m.w && Match(t.regs, out.m)
    ensures Executes(p, env, s.pc, s.regs, s.w, end, cleanup, out)
  {
  }

  // Some steps, then the rest.
  lemma Prefix(p: seq<Insn>, env: Env, s: State, t: State, end: int, cleanup: int, out: Out)
    requires s.Running? && t.Running? && Reaches(p, env, s, t)
    requires Executes(p, env, t.pc, t.regs, t.w, end, cleanup, out)
    ensures Executes(p, env, s.pc, s.regs, s.w, end, cleanup, out)
  {
    hide Step;
    var r': Regs :| Match(r', out.m)
      && Reaches(p, env, Running(t.pc, t.regs, t.w), Running(if out.Next? then end else cleanup, r', out.m.w));
    ReachesTrans(p, env, s, t, Running(if out.Next? then end else cleanup, r', out.m.w));
  }

  lemma SubCode(p: seq<Insn>, pos: int, code: seq<Insn>, k: nat, part: seq<Insn>)
    requires CodeAt(p, pos, code) && k + |part| <= |code| && code[k..k + |part|] == part
    ensures CodeAt(p, pos + k, part)
  {
    forall i {:trigger part[i]} | 0 <= i < |part| ensures p[pos + k + i] == part[i] {
      assert code[k + i] == code[k..k + |part|][i];
    }
  }

  // The print of the closed descriptor and of the result in R0.
  lemma ExecPrintClose(p: seq<Insn>, env: Env, pos: int, cleanup: int, dbg: Dbg, r: Regs, m: M)
    requires CodeAt(p, pos, DebugCode(dbg, 9, 0)) && Match(r, m) && r.r9.Num? && r.r0.Num?
    ensures Executes(p, env, pos, r, m.w, pos + |DebugCode(dbg, 9, 0)|, cleanup, Next(m.(w := Print(m.w, dbg))))
  {
    hide Step, Reaches, BlobArg;
    var c := DebugCode(dbg, 9, 0);
    var out := Next(m.(w := Print(m.w, dbg)));
    var s0 := Running(pos, r, m.w);
    ReachesSelf(p, env, s0);
    if dbg.NoDbg? {
      Done(p, env, s0, s0, pos, cleanup, out);
    } else {
      assert c[0] == LoadBlob(1) && c[1] == High(dbg.addr) && c[2] == MovImm(2, dbg.len)
          && c[3] == MovReg(3, 9) && c[4] == MovReg(4, 0) && c[5] == Call(TracePrintk);
      var s1 := AfterLoadBlob(p, env, s0, s0, 1, dbg.addr);
      var s2 := AfterMovImm(p, env, s0, s1, 2, dbg.len);
      var s3 := AfterMovReg(p, env, s0, s2, 3, 9);
      var s4 := AfterMovReg(p, env, s0, s3, 4, 0);
      var s5 := AfterCall(p, env, s0, s4, TracePrintk);
      Done(p, env, s0, s5, pos + 6, cleanup, out);
    }
  }

  // The common end of both closing groups, from the test of R1 on.
  lemma ExecCloseCode(p: seq<Insn>, env: Env, pos: int, cleanup: int, dbg: Dbg, r: Regs, m: M)
    requires CodeAt(p, pos, CloseCode(dbg)) && Match(r, m) && r.r1.Num?
    ensures Executes(p, env, pos, r, m.w, pos + |CloseCode(dbg)|, cleanup,
              Next(if Taken(r.r1, JSLE, 0) then m else m.(r9 := r.r1, w := Print(Log(m.w, Close(r.r1.v)), dbg))))
  {
    hide Step, Reaches, LoadAt, StoreAt, WriteAt, Encode, BlobArg, DoBpf, DoFind, DoLookup, Copy, Holds, Arith, U64;
    var c := CloseCode(dbg);
    var out := Next(if Taken(r.r1, JSLE, 0) then m else m.(r9 := r.r1, w := Print(Log(m.w, Close(r.r1.v)), dbg)));
    assert c[0] == Jmp(JSLE, 1, 0, 2 + (if dbg.Dbg? then 6 else 0)) && c[1] == MovReg(9, 1) && c[2] == Call(SysClose);
    var s0 := Running(pos, r, m.w);
    ReachesSelf(p, env, s0);
    var s1 := AfterJmp(p, env, s0, s0, JSLE, 1, 0, 2 + (if dbg.Dbg? then 6 else 0));
    if Taken(r.r1, JSLE, 0) {
      Done(p, env, s0, s1, pos + |c|, cleanup, out);
    } else {
      var s2 := AfterMovReg(p, env, s0, s1, 9, 1);
      var s3 := AfterCall(p, env, s0, s2, SysClose);
      SubCode(p, pos, c, 3, DebugCode(dbg, 9, 0));
      ExecPrintClose(p, env, pos + 3, cleanup, dbg, s3.regs, out.m.(w := s3.w));
      Prefix(p, env, s0, s3, pos + |c|, cleanup, out);
    }
  }

  // The common end of the ksym groups.
  lemma ExecClear(p: seq<Insn>, env: Env, pos: int, cleanup: int, r: Regs, m: M)
    requires CodeAt(p, pos, CLEAR_SRC_REG) && Match(r, m)
    ensures Executes(p, env, pos, r, m.w, pos + 3, cleanup, Next(ClearSrcReg(env, m)))
  {
    hide Step, Reaches, LoadAt, StoreAt, WriteAt, Encode;
    var c := CLEAR_SRC_REG;
    assert c[0] == Ldx(B, 9, 8, INSN_CODE_END) && c[1] == And32Imm(9, SRC_REG_MASK) && c[2] == Stx(B, 8, 9, INSN_CODE_END);
    var s0 := Running(pos, r, m.w);
    ReachesSelf(p, env, s0);
    var s1 := AfterLdx(p, env, s0, s0, B, 9, 8, INSN_CODE_END);
    var s2 := AfterAnd32Imm(p, env, s0, s1, 9, SRC_REG_MASK);
    var s3 := AfterStx(p, env, s0, s2, B, 8, 9, INSN_CODE_END);
    Done(p, env, s0, s3, pos + 3, cleanup, Next(ClearSrcReg(env, m)));
  }

  lemma ExecRelStore(p: seq<Insn>, env: Env, pos: int, cleanup: int, g: Group, r: Regs, m: M)
    requires g.RelStore? && CodeAt(p, pos, Code(g, pos, cleanup)) && Match(r, m)
    ensures Executes(p, env, pos, r, m.w, pos + |Code(g, pos, cleanup)|, cleanup, Den(env, g, m))
  {
    hide Step, LoadAt, StoreAt, WriteAt, Encode, BlobArg, DoBpf, DoFind, DoLookup, Copy, Holds, Arith, U64;
    var c := Code(g, pos, cleanup);
    var s0 := Running(pos, r, m.w);
    ReachesSelf(p, env, s0);
    assert c[0] == LoadBlob(0) && c[1] == High(g.data) && c[2] == LoadBlob(1) && c[3] == High(g.off)
      && c[4] == Stx(DW, 1, 0, 0);
    var s1 := AfterLoadBlob(p, env, s0, s0, 0, g.data);
    var s2 := AfterLoadBlob(p, env, s0, s1, 1, g.off);
    var s3 := AfterStx(p, env, s0, s2, DW, 1, 0, 0);
    Done(p, env, s0, s3, pos + |c|, cleanup, Den(env, g, m));
  }

  lemma ExecBlob2Blob(p: seq<Insn>, env: Env, pos: int, cleanup: int, g: Group, r: Regs, m: M)
    requires g.Blob2Blob? && CodeAt(p, pos, Code(g, pos, cleanup)) && Match(r, m)
    ensures Executes(p, env, pos, r, m.w, pos + |Code(g, pos, cleanup)|, cleanup, Den(env, g, m))
  {
    hide Step, LoadAt, StoreAt, WriteAt, Encode, BlobArg, DoBpf, DoFind, DoLookup, Copy, Holds, Arith, U64;
    var c := Code(g, pos, cleanup);
    var s0 := Running(pos, r, m.w);
    ReachesSelf(p, env, s0);
    assert c[0] == LoadBlob(2) && c[1] == High(g.blobOff) && c[2] == Ldx(g.size, 0, 2, 0) && c[3] == LoadBlob(1)
      && c[4] == High(g.off) && c[5] == Stx(g.size, 1, 0, 0);
    var s1 := AfterLoadBlob(p, env, s0, s0, 2, g.blobOff);
    var s2 := AfterLdx(p, env, s0, s1, g.size, 0, 2, 0);
    var s3 := AfterLoadBlob(p, env, s0, s2, 1, g.off);
    var s4 := AfterStx(p, env, s0, s3, g.size, 1, 0, 0);
    Done(p, env, s0, s4, pos + |c|, cleanup, Den(env, g, m));
  }

  lemma ExecBlob2Ctx(p: seq<Insn>, env: Env, pos: int, cleanup: int, g: Group, r: Regs, m: M)
    requires g.Blob2Ctx? && CodeAt(p, pos, Code(g, pos, cleanup)) && Match(r, m)
    ensures Executes(p, env, pos, r, m.w, pos + |Code(g, pos, cleanup)|, cleanup, Den(env, g, m))
  {
    hide Step, LoadAt, StoreAt, WriteAt, Encode, BlobArg, DoBpf, DoFind, DoLookup, Copy, Holds, Arith, U64;
    var c := Code(g, pos, cleanup);
    var s0 := Running(pos, r, m.w);
    ReachesSelf(p, env, s0);
    assert c[0] == LoadBlob(1) && c[1] == High(g.blobOff) && c[2] == Ldx(g.size, 0, 1, 0)
      && c[3] == Stx(g.size, 6, 0, g.ctxOff);
    var s1 := AfterLoadBlob(p, env, s0, s0, 1, g.blobOff);
    var s2 := AfterLdx(p, env, s0, s1, g.size, 0, 1, 0);
    var s3 := AfterStx(p, env, s0, s2, g.size, 6, 0, g.ctxOff);
    Done(p, env, s0, s3, pos + |c|, cleanup, Den(env, g, m));
  }

  lemma ExecCtx2Blob(p: seq<Insn>, env: Env, pos: int, cleanup: int, g: Group, r: Regs, m: M)
    requires g.Ctx2Blob? && CodeAt(p, pos, Code(g, pos, cleanup)) && Match(r, m)
    ensures Executes(p, env, pos, r, m.w, pos + |Code(g, pos, cleanup)|, cleanup, Den(env, g, m))
  {
    hide Step, LoadAt, StoreAt, WriteAt, Encode, BlobArg, DoBpf, DoFind, DoLookup, Copy, Holds, Arith, U64;
    var c := Code(g, pos, cleanup);
    var s0 := Running(pos, r, m.w);
    ReachesSelf(p, env, s0);
    assert c[0] == Ldx(g.size, 0, 6, g.ctxOff);
    var s1 := AfterLdx(p, env, s0, s0, g.size, 0, 6, g.ctxOff);
    if g.checkNonZero {
      assert c[1] == Jmp(JEQ, 0, 0, 3) && c[2] == LoadBlob(1) && c[3] == High(g.off) && c[4] == Stx(g.size, 1, 0, 0);
      var s2 := AfterJmp(p, env, s0, s1, JEQ, 0, 0, 3);
      if s2.pc == pos + 5 {
        Done(p, env, s0, s2, pos + |c|, cleanup, Den(env, g, m));
      } else {
        var s3 := AfterLoadBlob(p, env, s0, s2, 1, g.off);
        var s4 := AfterStx(p, env, s0, s3, g.size, 1, 0, 0);
        Done(p, env, s0, s4, pos + |c|, cleanup, Den(env, g, m));
      }
    } else {
      assert c[1] == LoadBlob(1) && c[2] == High(g.off) && c[3] == Stx(g.size, 1, 0, 0);
      var s2 := AfterLoadBlob(p, env, s0, s1, 1, g.off);
      var s3 := AfterStx(p, env, s0, s2, g.size, 1, 0, 0);
      Done(p, env, s0, s3, pos + |c|, cleanup, Den(env, g, m));
    }
  }

  lemma ExecStack2Blob(p: seq<Insn>, env: Env, pos: int, cleanup: int, g: Group, r: Regs, m: M)
    requires g.Stack2Blob? && CodeAt(p, pos, Code(g, pos, cleanup)) && Match(r, m)
    ensures Executes(p, env, pos, r, m.w, pos + |Code(g, pos, cleanup)|, cleanup, Den(env, g, m))
  {
    hide Step, LoadAt, StoreAt, WriteAt, Encode, BlobArg, DoBpf, DoFind, DoLookup, Copy, Holds, Arith, U64;
    var c := Code(g, pos, cleanup);
    var s0 := Running(pos, r, m.w);
    ReachesSelf(p, env, s0);
    assert c[0] == Ldx(g.size, 0, 10, g.stackOff) && c[1] == LoadBlob(1) && c[2] == High(g.off) && c[3] == Stx(g.size, 1, 0, 0);
    var s1 := AfterLdx(p, env, s0, s0, g.size, 0, 10, g.stackOff);
    var s2 := AfterLoadBlob(p, env, s0, s1, 1, g.off);
    var s3 := AfterStx(p, env, s0, s2, g.size, 1, 0, 0);
    Done(p, env, s0, s3, pos + |c|, cleanup, Den(env, g, m));
  }

  lemma ExecStack2Ctx(p: seq<Insn>, env: Env, pos: int, cleanup: int, g: Group, r: Regs, m: M)
    requires g.Stack2Ctx? && CodeAt(p, pos, Code(g, pos, cleanup)) && Match(r, m)
    ensures Executes(p, env, pos, r, m.w, pos + |Code(g, pos, cleanup)|, cleanup, Den(env, g, m))
  {
    hide Step, LoadAt, StoreAt, WriteAt, Encode, BlobArg, DoBpf, DoFind, DoLookup, Copy, Holds, Arith, U64;
    var c := Code(g, pos, cleanup);
    var s0 := Running(pos, r, m.w);
    ReachesSelf(p, env, s0);
    assert c[0] == Ldx(g.size, 0, 10, g.stackOff) && c[1] == Stx(g.size, 6, 0, g.ctxOff);
    var s1 := AfterLdx(p, env, s0, s0, g.size, 0, 10, g.stackOff);
    var s2 := AfterStx(p, env, s0, s1, g.size, 6, 0, g.ctxOff);
    Done(p, env, s0, s2, pos + |c|, cleanup, Den(env, g, m));
  }

  lemma ExecSysCall(p: seq<Insn>, env: Env, pos: int, cleanup: int, g: Group, r: Regs, m: M)
    requires g.SysCall? && CodeAt(p, pos, Code(g, pos, cleanup)) && Match(r, m)
    ensures Executes(p, env, pos, r, m.w, pos + |Code(g, pos, cleanup)|, cleanup, Den(env, g, m))
  {
    hide Step, LoadAt, StoreAt, WriteAt, Encode, BlobArg, DoBpf, DoFind, DoLookup, Copy, Holds, Arith, U64;
    var c := Code(g, pos, cleanup);
    var s0 := Running(pos, r, m.w);
    ReachesSelf(p, env, s0);
    assert c[0] == MovImm(1, g.cmd) && c[1] == LoadBlob(2) && c[2] == High(g.attr) && c[3] == MovImm(3, g.attrSize)
      && c[4] == Call(SysBpf) && c[5] == MovReg(7, 0);
    var s1 := AfterMovImm(p, env, s0, s0, 1, g.cmd);
    var s2 := AfterLoadBlob(p, env, s0, s1, 2, g.attr);
    var s3 := AfterMovImm(p, env, s0, s2, 3, g.attrSize);
    var s4 := AfterCall(p, env, s0, s3, SysBpf);
    var s5 := AfterMovReg(p, env, s0, s4, 7, 0);
    Done(p, env, s0, s5, pos + |c|, cleanup, Den(env, g, m));
  }

  lemma ExecCheckErr(p: seq<Insn>, env: Env, pos: int, cleanup: int, g: Group, r: Regs, m: M)
    requires g.CheckErr? && CodeAt(p, pos, Code(g, pos, cleanup)) && Match(r, m)
    ensures Executes(p, env, pos, r, m.w, pos + |Code(g, pos, cleanup)|, cleanup, Den(env, g, m))
  {
    hide Step, LoadAt, StoreAt, WriteAt, Encode, BlobArg, DoBpf, DoFind, DoLookup, Copy, Holds, Arith, U64;
    var c := Code(g, pos, cleanup);
    var s0 := Running(pos, r, m.w);
    ReachesSelf(p, env, s0);
    assert c[0] == Jmp(JSLT, 7, 0, cleanup - pos - 1);
    var s1 := AfterJmp(p, env, s0, s0, JSLT, 7, 0, cleanup - pos - 1);
    Done(p, env, s0, s1, pos + |c|, cleanup, Den(env, g, m));
  }

  lemma ExecCheckErrUnlessEnoent(p: seq<Insn>, env: Env, pos: int, cleanup: int, g: Group, r: Regs, m: M)
    requires g.CheckErrUnlessEnoent? && CodeAt(p, pos, Code(g, pos, cleanup)) && Match(r, m)
    ensures Executes(p, env, pos, r, m.w, pos + |Code(g, pos, cleanup)|, cleanup, Den(env, g, m))
  {
    hide Step, LoadAt, StoreAt, WriteAt, Encode, BlobArg, DoBpf, DoFind, DoLookup, Copy, Holds, Arith, U64;
    var c := Code(g, pos, cleanup);
    var s0 := Running(pos, r, m.w);
    ReachesSelf(p, env, s0);
    assert c[0] == Jmp(JEQ, 7, -ENOENT, 1) && c[1] == Jmp(JSLT, 7, 0, cleanup - (pos + 1) - 1);
    var s1 := AfterJmp(p, env, s0, s0, JEQ, 7, -ENOENT, 1);
    if Taken(m.r7, JEQ, -ENOENT) {
      Done(p, env, s0, s1, pos + |c|, cleanup, Den(env, g, m));
    } else {
      var s2 := AfterJmp(p, env, s0, s1, JSLT, 7, 0, cleanup - (pos + 1) - 1);
      Done(p, env, s0, s2, pos + |c|, cleanup, Den(env, g, m));
    }
  }

  lemma ExecDebugRet(p: seq<Insn>, env: Env, pos: int, cleanup: int, g: Group, r: Regs, m: M)
    requires g.DebugRet? && CodeAt(p, pos, Code(g, pos, cleanup)) && Match(r, m)
    ensures Executes(p, env, pos, r, m.w, pos + |Code(g, pos, cleanup)|, cleanup, Den(env, g, m))
  {
    hide Step, LoadAt, StoreAt, WriteAt, Encode, BlobArg, DoBpf, DoFind, DoLookup, Copy, Holds, Arith, U64;
    var c := Code(g, pos, cleanup);
    var s0 := Running(pos, r, m.w);
    ReachesSelf(p, env, s0);
    if g.dbg.NoDbg? {
      Done(p, env, s0, s0, pos + |c|, cleanup, Den(env, g, m));
    } else {
      assert c[0] == LoadBlob(1) && c[1] == High(g.dbg.addr) && c[2] == MovImm(2, g.dbg.len)
        && c[3] == MovReg(3, 7) && c[4] == Call(TracePrintk);
      var s1 := AfterLoadBlob(p, env, s0, s0, 1, g.dbg.addr);
      var s2 := AfterMovImm(p, env, s0, s1, 2, g.dbg.len);
      var s3 := AfterMovReg(p, env, s0, s2, 3, 7);
      var s4 := AfterCall(p, env, s0, s3, TracePrintk);
      Done(p, env, s0, s4, pos + |c|, cleanup, Den(env, g, m));
    }
  }

  lemma ExecDebugPair(p: seq<Insn>, env: Env, pos: int, cleanup: int, g: Group, r: Regs, m: M)
    requires g.DebugPair? && CodeAt(p, pos, Code(g, pos, cleanup)) && Match(r, m)
    ensures Executes(p, env, pos, r, m.w, pos + |Code(g, pos, cleanup)|, cleanup, Den(env, g, m))
  {
    hide Step, LoadAt, StoreAt, WriteAt, Encode, BlobArg, DoBpf, DoFind, DoLookup, Copy, Holds, Arith, U64;
    var c := Code(g, pos, cleanup);
    var s0 := Running(pos, r, m.w);
    ReachesSelf(p, env, s0);
    if g.dbg.NoDbg? {
      Done(p, env, s0, s0, pos + |c|, cleanup, Den(env, g, m));
    } else {
      assert c[0] == LoadBlob(1) && c[1] == High(g.dbg.addr) && c[2] == MovImm(2, g.dbg.len)
        && c[3] == MovReg(3, 7) && c[4] == MovReg(4, 9) && c[5] == Call(TracePrintk);
      var s1 := AfterLoadBlob(p, env, s0, s0, 1, g.dbg.addr);
      var s2 := AfterMovImm(p, env, s0, s1, 2, g.dbg.len);
      var s3 := AfterMovReg(p, env, s0, s2, 3, 7);
      var s4 := AfterMovReg(p, env, s0, s3, 4, 9);
      var s5 := AfterCall(p, env, s0, s4, TracePrintk);
      Done(p, env, s0, s5, pos + |c|, cleanup, Den(env, g, m));
    }
  }

  lemma ExecDebugR9(p: seq<Insn>, env: Env, pos: int, cleanup: int, g: Group, r: Regs, m: M)
    requires g.DebugR9? && CodeAt(p, pos, Code(g, pos, cleanup)) && Match(r, m)
    ensures Executes(p, env, pos, r, m.w, pos + |Code(g, pos, cleanup)|, cleanup, Den(env, g, m))
  {
    hide Step, LoadAt, StoreAt, WriteAt, Encode, BlobArg, DoBpf, DoFind, DoLookup, Copy, Holds, Arith, U64;
    var c := Code(g, pos, cleanup);
    var s0 := Running(pos, r, m.w);
    ReachesSelf(p, env, s0);
    if g.dbg.NoDbg? {
      Done(p, env, s0, s0, pos + |c|, cleanup, Den(env, g, m));
    } else {
      assert c[0] == LoadBlob(1) && c[1] == High(g.dbg.addr) && c[2] == MovImm(2, g.dbg.len)
        && c[3] == MovReg(3, 9) && c[4] == Call(TracePrintk);
      var s1 := AfterLoadBlob(p, env, s0, s0, 1, g.dbg.addr);
      var s2 := AfterMovImm(p, env, s0, s1, 2, g.dbg.len);
      var s3 := AfterMovReg(p, env, s0, s2, 3, 9);
      var s4 := AfterCall(p, env, s0, s3, TracePrintk);
      Done(p, env, s0, s4, pos + |c|, cleanup, Den(env, g, m));
    }
  }

  lemma ExecSaveToStack(p: seq<Insn>, env: Env, pos: int, cleanup: int, g: Group, r: Regs, m: M)
    requires g.SaveToStack? && CodeAt(p, pos, Code(g, pos, cleanup)) && Match(r, m)
    ensures Executes(p, env, pos, r, m.w, pos + |Code(g, pos, cleanup)|, cleanup, Den(env, g, m))
  {
    hide Step, LoadAt, StoreAt, WriteAt, Encode, BlobArg, DoBpf, DoFind, DoLookup, Copy, Holds, Arith, U64;
    var c := Code(g, pos, cleanup);
    var s0 := Running(pos, r, m.w);
    ReachesSelf(p, env, s0);
    assert c[0] == Stx(W, 10, 7, g.stackOff);
    var s1 := AfterStx(p, env, s0, s0, W, 10, 7, g.stackOff);
    Done(p, env, s0, s1, pos + |c|, cleanup, Den(env, g, m));
  }

  lemma ExecSaveToBlob(p: seq<Insn>, env: Env, pos: int, cleanup: int, g: Group, r: Regs, m: M)
    requires g.SaveToBlob? && CodeAt(p, pos, Code(g, pos, cleanup)) && Match(r, m)
    ensures Executes(p, env, pos, r, m.w, pos + |Code(g, pos, cleanup)|, cleanup, Den(env, g, m))
  {
    hide Step, LoadAt, StoreAt, WriteAt, Encode, BlobArg, DoBpf, DoFind, DoLookup, Copy, Holds, Arith, U64;
    var c := Code(g, pos, cleanup);
    var s0 := Running(pos, r, m.w);
    ReachesSelf(p, env, s0);
    assert c[0] == LoadBlob(1) && c[1] == High(g.blobOff) && c[2] == Stx(W, 1, 7, 0);
    var s1 := AfterLoadBlob(p, env, s0, s0, 1, g.blobOff);
    var s2 := AfterStx(p, env, s0, s1, W, 1, 7, 0);
    Done(p, env, s0, s2, pos + |c|, cleanup, Den(env, g, m));
  }

  lemma ExecCloseStack(p: seq<Insn>, env: Env, pos: int, cleanup: int, g: Group, r: Regs, m: M)
    requires g.CloseStack? && CodeAt(p, pos, Code(g, pos, cleanup)) && Match(r, m)
    ensures Executes(p, env, pos, r, m.w, pos + |Code(g, pos, cleanup)|, cleanup, Den(env, g, m))
  {
    hide Step, LoadAt, StoreAt, WriteAt, Encode, BlobArg, DoBpf, DoFind, DoLookup, Copy, Holds, Arith, U64;
    var c := Code(g, pos, cleanup);
    var s0 := Running(pos, r, m.w);
    ReachesSelf(p, env, s0);
    assert c[0] == Ldx(W, 1, 10, g.stackOff);
    var s1 := AfterLdx(p, env, s0, s0, W, 1, 10, g.stackOff);
    SubCode(p, pos, c, 1, CloseCode(g.dbg));
    ExecCloseCode(p, env, pos + 1, cleanup, g.dbg, s1.regs, m.(w := s1.w));
    Prefix(p, env, s0, s1, pos + |c|, cleanup, Den(env, g, m));
  }

  lemma ExecCloseBlob(p: seq<Insn>, env: Env, pos: int, cleanup: int, g: Group, r: Regs, m: M)
    requires g.CloseBlob? && CodeAt(p, pos, Code(g, pos, cleanup)) && Match(r, m)
    ensures Executes(p, env, pos, r, m.w, pos + |Code(g, pos, cleanup)|, cleanup, Den(env, g, m))
  {
    hide Step, LoadAt, StoreAt, WriteAt, Encode, BlobArg, DoBpf, DoFind, DoLookup, Copy, Holds, Arith, U64;
    var c := Code(g, pos, cleanup);
    var s0 := Running(pos, r, m.w);
    ReachesSelf(p, env, s0);
    assert c[0] == LoadBlob(0) && c[1] == High(g.blobOff) && c[2] == Ldx(W, 1, 0, 0);
    var s1 := AfterLoadBlob(p, env, s0, s0, 0, g.blobOff);
    var s2 := AfterLdx(p, env, s0, s1, W, 1, 0, 0);
    SubCode(p, pos, c, 3, CloseCode(g.dbg));
    ExecCloseCode(p, env, pos + 3, cleanup, g.dbg, s2.regs, m.(w := s2.w));
    Prefix(p, env, s0, s2, pos + |c|, cleanup, Den(env, g, m));
  }

  lemma ExecCloseStackQuiet(p: seq<Insn>, env: Env, pos: int, cleanup: int, g: Group, r: Regs, m: M)
    requires g.CloseStackQuiet? && CodeAt(p, pos, Code(g, pos, cleanup)) && Match(r, m)
    ensures Executes(p, env, pos, r, m.w, pos + |Code(g, pos, cleanup)|, cleanup, Den(env, g, m))
  {
    hide Step, LoadAt, StoreAt, WriteAt, Encode, BlobArg, DoBpf, DoFind, DoLookup, Copy, Holds, Arith, U64;
    var c := Code(g, pos, cleanup);
    var s0 := Running(pos, r, m.w);
    ReachesSelf(p, env, s0);
    assert c[0] == Ldx(W, 1, 10, g.stackOff) && c[1] == Jmp(JSLE, 1, 0, 1) && c[2] == Call(SysClose);
    var s1 := AfterLdx(p, env, s0, s0, W, 1, 10, g.stackOff);
    var s2 := AfterJmp(p, env, s0, s1, JSLE, 1, 0, 1);
    if s2.pc == pos + |c| {
      Done(p, env, s0, s2, pos + |c|, cleanup, Den(env, g, m));
    } else {
      var s3 := AfterCall(p, env, s0, s2, SysClose);
      Done(p, env, s0, s3, pos + |c|, cleanup, Den(env, g, m));
    }
  }

  function Fetch(env: Env, w: World, g: Group, src: Val): World
    requires g.InitialValue?
  {
    var (flags, w2) := LoadAt(w, CtxPtr(0), CTX_FLAGS, 4);
    Copy(env, w2, CopyHelper(flags.v), BlobPtr(g.value), Num(g.size_), src)
  }

  // The copy itself, from the first instruction after the test of the source address on.
  lemma ExecFetch(p: seq<Insn>, env: Env, pos: int, cleanup: int, g: Group, r: Regs, m: M)
    requires g.InitialValue? && CodeAt(p, pos, Code(g, pos, cleanup)[2..]) && Match(r, m) && r.r3.Num?
    ensures Executes(p, env, pos, r, m.w, pos + 8, cleanup,
              Next(m.(w := Fetch(env, m.w, g, r.r3))))
  {
    hide Step, Reaches, LoadAt, StoreAt, WriteAt, Encode, BlobArg, DoBpf, DoFind, DoLookup, Copy, Holds, Arith, U64;
    var c := Code(g, pos, cleanup)[2..];
    var out := Next(m.(w := Fetch(env, m.w, g, r.r3)));
    assert c[0] == LoadBlob(1) && c[1] == High(g.value) && c[2] == MovImm(2, g.size_)
        && c[3] == Ldx(W, 0, 6, CTX_FLAGS) && c[4] == Jmp(JSET, 0, BPF_SKEL_KERNEL, 2);
    assert c[5] == Call(CopyFromUser) && c[6] == Ja(1) && c[7] == Call(ProbeReadKernel);
    var s0 := Running(pos, r, m.w);
    ReachesSelf(p, env, s0);
    var s1 := AfterLoadBlob(p, env, s0, s0, 1, g.value);
    var s2 := AfterMovImm(p, env, s0, s1, 2, g.size_);
    var s3 := AfterLdx(p, env, s0, s2, W, 0, 6, CTX_FLAGS);
    var s4 := AfterJmp(p, env, s0, s3, JSET, 0, BPF_SKEL_KERNEL, 2);
    if Taken(s3.regs.r0, JSET, BPF_SKEL_KERNEL) {
      var s5 := AfterCall(p, env, s0, s4, ProbeReadKernel);
      Done(p, env, s0, s5, pos + 8, cleanup, out);
    } else {
      var s5 := AfterCall(p, env, s0, s4, CopyFromUser);
      var s6 := AfterJa(p, env, s0, s5, 1);
      Done(p, env, s0, s6, pos + 8, cleanup, out);
    }
  }

  lemma ExecInitialValue(p: seq<Insn>, env: Env, pos: int, cleanup: int, g: Group, r: Regs, m: M)
    requires g.InitialValue? && CodeAt(p, pos, Code(g, pos, cleanup)) && Match(r, m)
    ensures Executes(p, env, pos, r, m.w, pos + |Code(g, pos, cleanup)|, cleanup, Den(env, g, m))
  {
    hide Step, LoadAt, StoreAt, WriteAt, Encode, BlobArg, DoBpf, DoFind, DoLookup, Copy, Holds, Arith, U64;
    var c := Code(g, pos, cleanup);
    var s0 := Running(pos, r, m.w);
    ReachesSelf(p, env, s0);
    assert c[0] == Ldx(DW, 3, 6, g.ctxOff) && c[1] == Jmp(JEQ, 3, 0, 8);
    var s1 := AfterLdx(p, env, s0, s0, DW, 3, 6, g.ctxOff);
    var s2 := AfterJmp(p, env, s0, s1, JEQ, 3, 0, 8);
    if Taken(s1.regs.r3, JEQ, 0) {
      Done(p, env, s0, s2, pos + |c|, cleanup, Den(env, g, m));
    } else {
      SubCode(p, pos, c, 2, c[2..]);
      ExecFetch(p, env, pos + 2, cleanup, g, s2.regs, m.(w := s2.w));
      Prefix(p, env, s0, s2, pos + |c|, cleanup, Den(env, g, m));
    }
  }

  lemma ExecFindByName(p: seq<Insn>, env: Env, pos: int, cleanup: int, g: Group, r: Regs, m: M)
    requires g.FindByName? && CodeAt(p, pos, Code(g, pos, cleanup)) && Match(r, m)
    ensures Executes(p, env, pos, r, m.w, pos + |Code(g, pos, cleanup)|, cleanup, Den(env, g, m))
  {
    hide Step, LoadAt, StoreAt, WriteAt, Encode, BlobArg, DoBpf, DoFind, DoLookup, Copy, Holds, Arith, U64;
    var c := Code(g, pos, cleanup);
    var s0 := Running(pos, r, m.w);
    ReachesSelf(p, env, s0);
    assert c[0] == LoadBlob(1) && c[1] == High(g.name) && c[2] == MovImm(2, g.len) && c[3] == MovImm(3, g.kind)
      && c[4] == MovImm(4, 0) && c[5] == Call(FindByNameKind) && c[6] == MovReg(7, 0);
    var s1 := AfterLoadBlob(p, env, s0, s0, 1, g.name);
    var s2 := AfterMovImm(p, env, s0, s1, 2, g.len);
    var s3 := AfterMovImm(p, env, s0, s2, 3, g.kind);
    var s4 := AfterMovImm(p, env, s0, s3, 4, 0);
    var s5 := AfterCall(p, env, s0, s4, FindByNameKind);
    var s6 := AfterMovReg(p, env, s0, s5, 7, 0);
    Done(p, env, s0, s6, pos + |c|, cleanup, Den(env, g, m));
  }

  lemma ExecSaveAttach(p: seq<Insn>, env: Env, pos: int, cleanup: int, g: Group, r: Regs, m: M)
    requires g.SaveAttach? && CodeAt(p, pos, Code(g, pos, cleanup)) && Match(r, m)
    ensures Executes(p, env, pos, r, m.w, pos + |Code(g, pos, cleanup)|, cleanup, Den(env, g, m))
  {
    hide Step, LoadAt, StoreAt, WriteAt, Encode, BlobArg, DoBpf, DoFind, DoLookup, Copy, Holds, Arith, U64;
    var c := Code(g, pos, cleanup);
    var s0 := Running(pos, r, m.w);
    ReachesSelf(p, env, s0);
    assert c[0] == LoadBlob(0) && c[1] == High(g.attr) && c[2] == Stx(W, 0, 7, ATTR_ATTACH_BTF_ID)
      && c[3] == RshImm(7, 32) && c[4] == Stx(W, 0, 7, ATTR_ATTACH_BTF_OBJ_FD);
    var s1 := AfterLoadBlob(p, env, s0, s0, 0, g.attr);
    var s2 := AfterStx(p, env, s0, s1, W, 0, 7, ATTR_ATTACH_BTF_ID);
    var s3 := AfterRshImm(p, env, s0, s2, 7, 32);
    var s4 := AfterStx(p, env, s0, s3, W, 0, 7, ATTR_ATTACH_BTF_OBJ_FD);
    Done(p, env, s0, s4, pos + |c|, cleanup, Den(env, g, m));
  }

  lemma ExecLoadInsn(p: seq<Insn>, env: Env, pos: int, cleanup: int, g: Group, r: Regs, m: M)
    requires g.LoadInsn? && CodeAt(p, pos, Code(g, pos, cleanup)) && Match(r, m)
    ensures Executes(p, env, pos, r, m.w, pos + |Code(g, pos, cleanup)|, cleanup, Den(env, g, m))
  {
    hide Step, LoadAt, StoreAt, WriteAt, Encode, BlobArg, DoBpf, DoFind, DoLookup, Copy, Holds, Arith, U64;
    var c := Code(g, pos, cleanup);
    var s0 := Running(pos, r, m.w);
    ReachesSelf(p, env, s0);
    assert c[0] == LoadBlob(8) && c[1] == High(g.insn);
    var s1 := AfterLoadBlob(p, env, s0, s0, 8, g.insn);
    Done(p, env, s0, s1, pos + |c|, cleanup, Den(env, g, m));
  }

  lemma ExecLookupName(p: seq<Insn>, env: Env, pos: int, cleanup: int, g: Group, r: Regs, m: M)
    requires g.LookupName? && CodeAt(p, pos, Code(g, pos, cleanup)) && Match(r, m)
    ensures Executes(p, env, pos, r, m.w, pos + |Code(g, pos, cleanup)|, cleanup, Den(env, g, m))
  {
    hide Step, LoadAt, StoreAt, WriteAt, Encode, BlobArg, DoBpf, DoFind, DoLookup, Copy, Holds, Arith, U64;
    var c := Code(g, pos, cleanup);
    var s0 := Running(pos, r, m.w);
    ReachesSelf(p, env, s0);
    assert c[0] == LoadBlob(1) && c[1] == High(g.name) && c[2] == MovImm(2, g.len) && c[3] == MovImm(3, 0)
      && c[4] == LoadBlob(4) && c[5] == High(g.res) && c[6] == MovReg(7, 4) && c[7] == Call(KallsymsLookup)
      && c[8] == Ldx(DW, 9, 7, 0) && c[9] == MovReg(7, 0);
    var s1 := AfterLoadBlob(p, env, s0, s0, 1, g.name);
    var s2 := AfterMovImm(p, env, s0, s1, 2, g.len);
    var s3 := AfterMovImm(p, env, s0, s2, 3, 0);
    var s4 := AfterLoadBlob(p, env, s0, s3, 4, g.res);
    var s5 := AfterMovReg(p, env, s0, s4, 7, 4);
    var s6 := AfterCall(p, env, s0, s5, KallsymsLookup);
    var s7 := AfterLdx(p, env, s0, s6, DW, 9, 7, 0);
    var s8 := AfterMovReg(p, env, s0, s7, 7, 0);
    Done(p, env, s0, s8, pos + |c|, cleanup, Den(env, g, m));
  }

  lemma ExecStoreAddr(p: seq<Insn>, env: Env, pos: int, cleanup: int, g: Group, r: Regs, m: M)
    requires g.StoreAddr? && CodeAt(p, pos, Code(g, pos, cleanup)) && Match(r, m)
    ensures Executes(p, env, pos, r, m.w, pos + |Code(g, pos, cleanup)|, cleanup, Den(env, g, m))
  {
    hide Step, LoadAt, StoreAt, WriteAt, Encode, BlobArg, DoBpf, DoFind, DoLookup, Copy, Holds, Arith, U64;
    var c := Code(g, pos, cleanup);
    var s0 := Running(pos, r, m.w);
    ReachesSelf(p, env, s0);
    assert c[0] == Stx(W, 8, 9, INSN_IMM) && c[1] == RshImm(9, 32) && c[2] == Stx(W, 8, 9, INSN_SZ + INSN_IMM);
    var s1 := AfterStx(p, env, s0, s0, W, 8, 9, INSN_IMM);
    var s2 := AfterRshImm(p, env, s0, s1, 9, 32);
    var s3 := AfterStx(p, env, s0, s2, W, 8, 9, INSN_SZ + INSN_IMM);
    Done(p, env, s0, s3, pos + |c|, cleanup, Den(env, g, m));
  }

  // The BTF descriptor of a found kfunc, in R9: 0 denotes the kernel's own BTF.
  lemma ExecKfuncFd(p: seq<Insn>, env: Env, pos: int, cleanup: int, g: Group, r: Regs, m: M)
    requires g.StoreKfunc? && CodeAt(p, pos, Code(g, pos, cleanup)[7..]) && Match(r, m) && m.r9.Num?
    ensures Executes(p, env, pos, r, m.w, pos + 7, cleanup, Next(m.(w :=
              if !Taken(m.r9, JNE, 0) then StoreAt(env, m.w, m.r8, INSN_OFF, 2, Num(0))
              else StoreAt(env, StoreAt(env, m.w, BlobPtr(g.slot), 0, 4, m.r9), m.r8, INSN_OFF, 2, Num(g.idx)))))
  {
    hide Step, Reaches, LoadAt, StoreAt, WriteAt, Encode, Holds;
    var c := Code(g, pos, cleanup)[7..];
    assert c[0] == Jmp(JNE, 9, 0, 2);
    var s0 := Running(pos, r, m.w);
    ReachesSelf(p, env, s0);
    var s1 := AfterJmp(p, env, s0, s0, JNE, 9, 0, 2);
    if !Taken(m.r9, JNE, 0) {
      assert c[1] == St(H, 8, INSN_OFF, 0) && c[2] == Ja(4);
      var s2 := AfterSt(p, env, s0, s1, H, 8, INSN_OFF, 0);
      var s3 := AfterJa(p, env, s0, s2, 4);
      Done(p, env, s0, s3, pos + 7, cleanup, Next(m.(w := s3.w)));
    } else {
      assert c[3] == LoadBlob(0) && c[4] == High(g.slot) && c[5] == Stx(W, 0, 9, 0) && c[6] == St(H, 8, INSN_OFF, g.idx);
      var s2 := AfterLoadBlob(p, env, s0, s1, 0, g.slot);
      var s3 := AfterStx(p, env, s0, s2, W, 0, 9, 0);
      var s4 := AfterSt(p, env, s0, s3, H, 8, INSN_OFF, g.idx);
      Done(p, env, s0, s4, pos + 7, cleanup, Next(m.(w := s4.w)));
    }
  }

  // A found kfunc, from the store of its BTF id on.
  lemma ExecKfuncFound(p: seq<Insn>, env: Env, pos: int, cleanup: int, g: Group, r: Regs, m: M)
    requires g.StoreKfunc? && CodeAt(p, pos, Code(g, pos, cleanup)[4..]) && Match(r, m) && Taken(m.r7, JSGE, 0)
    ensures Executes(p, env, pos, r, m.w, pos + 10, cleanup, Next(KfuncDen(env, m, g.idx, g.slot)))
  {
    hide Step, Reaches, LoadAt, StoreAt, WriteAt, Encode, Holds, Arith, U64;
    var c := Code(g, pos, cleanup)[4..];
    var out := Next(KfuncDen(env, m, g.idx, g.slot));
    assert c[0] == Stx(W, 8, 7, INSN_IMM) && c[1] == MovReg(9, 7) && c[2] == RshImm(9, 32);
    var s0 := Running(pos, r, m.w);
    ReachesSelf(p, env, s0);
    var s1 := AfterStx(p, env, s0, s0, W, 8, 7, INSN_IMM);
    var s2 := AfterMovReg(p, env, s0, s1, 9, 7);
    var s3 := AfterRshImm(p, env, s0, s2, 9, 32);
    SubCode(p, pos, c, 3, c[3..]);
    ExecKfuncFd(p, env, pos + 3, cleanup, g, s3.regs, m.(r9 := s3.regs.r9, w := s3.w));
    Prefix(p, env, s0, s3, pos + 10, cleanup, out);
  }

  lemma ExecStoreKfunc(p: seq<Insn>, env: Env, pos: int, cleanup: int, g: Group, r: Regs, m: M)
    requires g.StoreKfunc? && CodeAt(p, pos, Code(g, pos, cleanup)) && Match(r, m)
    ensures Executes(p, env, pos, r, m.w, pos + |Code(g, pos, cleanup)|, cleanup, Den(env, g, m))
  {
    hide Step, LoadAt, StoreAt, WriteAt, Encode, BlobArg, DoBpf, DoFind, DoLookup, Copy, Holds, Arith, U64;
    var c := Code(g, pos, cleanup);
    var s0 := Running(pos, r, m.w);
    ReachesSelf(p, env, s0);
    assert c[0] == Jmp(JSGE, 7, 0, 3);
    var s1 := AfterJmp(p, env, s0, s0, JSGE, 7, 0, 3);
    if Taken(m.r7, JSGE, 0) {
      SubCode(p, pos, c, 4, c[4..]);
      ExecKfuncFound(p, env, pos + 4, cleanup, g, s1.regs, m);
      Prefix(p, env, s0, s1, pos + |c|, cleanup, Den(env, g, m));
    } else {
      assert c[1] == St(W, 8, INSN_IMM, 0) && c[2] == St(H, 8, INSN_OFF, 0) && c[3] == Ja(10);
      var s2 := AfterSt(p, env, s0, s1, W, 8, INSN_IMM, 0);
      var s3 := AfterSt(p, env, s0, s2, H, 8, INSN_OFF, 0);
      var s4 := AfterJa(p, env, s0, s3, 10);
      Done(p, env, s0, s4, pos + |c|, cleanup, Den(env, g, m));
    }
  }

  lemma ExecStoreKsym(p: seq<Insn>, env: Env, pos: int, cleanup: int, g: Group, r: Regs, m: M)
    requires g.StoreKsym? && CodeAt(p, pos, Code(g, pos, cleanup)) && Match(r, m)
    ensures Executes(p, env, pos, r, m.w, pos + |Code(g, pos, cleanup)|, cleanup, Den(env, g, m))
  {
    hide Step, LoadAt, StoreAt, WriteAt, Encode, Arith;
    var c := Code(g, pos, cleanup);
    var s0 := Running(pos, r, m.w);
    ReachesSelf(p, env, s0);
    assert c[0] == Jmp(JSGE, 7, 0, 3);
    var s1 := AfterJmp(p, env, s0, s0, JSGE, 7, 0, 3);
    if Taken(m.r7, JSGE, 0) {
      assert c[4] == Stx(W, 8, 7, INSN_IMM) && c[5] == RshImm(7, 32) && c[6] == Stx(W, 8, 7, INSN_SZ + INSN_IMM)
        && c[7] == Jmp(JSGE, 7, 0, 3);
      assert Taken(Upper(m.r7, 32), JSGE, 0);
      var s2 := AfterStx(p, env, s0, s1, W, 8, 7, INSN_IMM);
      var s3 := AfterRshImm(p, env, s0, s2, 7, 32);
      var s4 := AfterStx(p, env, s0, s3, W, 8, 7, INSN_SZ + INSN_IMM);
      var s5 := AfterJmp(p, env, s0, s4, JSGE, 7, 0, 3);
      Done(p, env, s0, s5, pos + |c|, cleanup, Den(env, g, m));
    } else {
      assert c[1] == St(W, 8, INSN_IMM, 0) && c[2] == St(W, 8, INSN_SZ + INSN_IMM, 0) && c[3] == Ja(4);
      var s2 := AfterSt(p, env, s0, s1, W, 8, INSN_IMM, 0);
      var s3 := AfterSt(p, env, s0, s2, W, 8, INSN_SZ + INSN_IMM, 0);
      var s4 := AfterJa(p, env, s0, s3, 4);
      SubCode(p, pos, c, 8, CLEAR_SRC_REG);
      ExecClear(p, env, pos + 8, cleanup, s4.regs, m.(w := s4.w));
      Prefix(p, env, s0, s4, pos + |c|, cleanup, Den(env, g, m));
    }
  }

  lemma ExecCopyKsym(p: seq<Insn>, env: Env, pos: int, cleanup: int, g: Group, r: Regs, m: M)
    requires g.CopyKsym? && CodeAt(p, pos, Code(g, pos, cleanup)) && Match(r, m)
    ensures Executes(p, env, pos, r, m.w, pos + |Code(g, pos, cleanup)|, cleanup, Den(env, g, m))
  {
    hide Step, LoadAt, StoreAt, WriteAt, Encode, BlobArg, DoBpf, DoFind, DoLookup, Copy, Holds, Arith, U64;
    var c := Code(g, pos, cleanup);
    var s0 := Running(pos, r, m.w);
    ReachesSelf(p, env, s0);
    assert c[0] == LoadBlob(2) && c[1] == High(g.blobOff) && c[2] == Ldx(W, 0, 2, 0) && c[3] == LoadBlob(1)
      && c[4] == High(g.off) && c[5] == Stx(W, 1, 0, 0) && c[6] == Jmp(JNE, 0, 0, 3);
    var s1 := AfterLoadBlob(p, env, s0, s0, 2, g.blobOff);
    var s2 := AfterLdx(p, env, s0, s1, W, 0, 2, 0);
    var s3 := AfterLoadBlob(p, env, s0, s2, 1, g.off);
    var s4 := AfterStx(p, env, s0, s3, W, 1, 0, 0);
    var s5 := AfterJmp(p, env, s0, s4, JNE, 0, 0, 3);
    if Taken(s2.regs.r0, JNE, 0) {
      Done(p, env, s0, s5, pos + |c|, cleanup, Den(env, g, m));
    } else {
      SubCode(p, pos, c, 7, CLEAR_SRC_REG);
      ExecClear(p, env, pos + 7, cleanup, s5.regs, m.(w := s5.w));
      Prefix(p, env, s0, s5, pos + |c|, cleanup, Den(env, g, m));
    }
  }

  lemma ExecLogKfunc1(p: seq<Insn>, env: Env, pos: int, cleanup: int, g: Group, r: Regs, m: M)
    requires g.LogKfunc1? && CodeAt(p, pos, Code(g, pos, cleanup)) && Match(r, m)
    ensures Executes(p, env, pos, r, m.w, pos + |Code(g, pos, cleanup)|, cleanup, Den(env, g, m))
  {
    hide Step, LoadAt, StoreAt, WriteAt, Encode, BlobArg, DoBpf, DoFind, DoLookup, Copy, Holds, Arith, U64;
    var c := Code(g, pos, cleanup);
    var s0 := Running(pos, r, m.w);
    ReachesSelf(p, env, s0);
    assert c[0] == Ldx(W, 7, 8, INSN_IMM) && c[1] == Ldx(H, 9, 8, INSN_OFF);
    var s1 := AfterLdx(p, env, s0, s0, W, 7, 8, INSN_IMM);
    var s2 := AfterLdx(p, env, s0, s1, H, 9, 8, INSN_OFF);
    Done(p, env, s0, s2, pos + |c|, cleanup, Den(env, g, m));
  }

  lemma ExecLogKfunc2(p: seq<Insn>, env: Env, pos: int, cleanup: int, g: Group, r: Regs, m: M)
    requires g.LogKfunc2? && CodeAt(p, pos, Code(g, pos, cleanup)) && Match(r, m)
    ensures Executes(p, env, pos, r, m.w, pos + |Code(g, pos, cleanup)|, cleanup, Den(env, g, m))
  {
    hide Step, LoadAt, StoreAt, WriteAt, Encode, BlobArg, DoBpf, DoFind, DoLookup, Copy, Holds, Arith, U64;
    var c := Code(g, pos, cleanup);
    var s0 := Running(pos, r, m.w);
    ReachesSelf(p, env, s0);
    assert c[0] == LoadBlob(0) && c[1] == High(g.slot) && c[2] == Ldx(W, 9, 0, 0);
    var s1 := AfterLoadBlob(p, env, s0, s0, 0, g.slot);
    var s2 := AfterLdx(p, env, s0, s1, W, 9, 0, 0);
    Done(p, env, s0, s2, pos + |c|, cleanup, Den(env, g, m));
  }

  lemma ExecLogKsym1(p: seq<Insn>, env: Env, pos: int, cleanup: int, g: Group, r: Regs, m: M)
    requires g.LogKsym1? && CodeAt(p, pos, Code(g, pos, cleanup)) && Match(r, m)
    ensures Executes(p, env, pos, r, m.w, pos + |Code(g, pos, cleanup)|, cleanup, Den(env, g, m))
  {
    hide Step, LoadAt, StoreAt, WriteAt, Encode, BlobArg, DoBpf, DoFind, DoLookup, Copy, Holds, Arith, U64;
    var c := Code(g, pos, cleanup);
    var s0 := Running(pos, r, m.w);
    ReachesSelf(p, env, s0);
    assert c[0] == Ldx(W, 7, 8, INSN_IMM) && c[1] == Ldx(H, 9, 8, INSN_SZ + INSN_IMM);
    var s1 := AfterLdx(p, env, s0, s0, W, 7, 8, INSN_IMM);
    var s2 := AfterLdx(p, env, s0, s1, H, 9, 8, INSN_SZ + INSN_IMM);
    Done(p, env, s0, s2, pos + |c|, cleanup, Den(env, g, m));
  }

  lemma ExecLogKsym2(p: seq<Insn>, env: Env, pos: int, cleanup: int, g: Group, r: Regs, m: M)
    requires g.LogKsym2? && CodeAt(p, pos, Code(g, pos, cleanup)) && Match(r, m)
    ensures Executes(p, env, pos, r, m.w, pos + |Code(g, pos, cleanup)|, cleanup, Den(env, g, m))
  {
    hide Step, LoadAt, StoreAt, WriteAt, Encode, BlobArg, DoBpf, DoFind, DoLookup, Copy, Holds, Arith, U64;
    var c := Code(g, pos, cleanup);
    var s0 := Running(pos, r, m.w);
    ReachesSelf(p, env, s0);
    assert c[0] == Ldx(B, 9, 8, INSN_CODE_END);
    var s1 := AfterLdx(p, env, s0, s0, B, 9, 8, INSN_CODE_END);
    Done(p, env, s0, s1, pos + |c|, cleanup, Den(env, g, m));
  }

  // A group's code does exactly what the group means.
  lemma ExecGroup(p: seq<Insn>, env: Env, pos: int, cleanup: int, g: Group, r: Regs, m: M)
    requires CodeAt(p, pos, Code(g, pos, cleanup)) && Match(r, m)
    ensures Executes(p, env, pos, r, m.w, pos + |Code(g, pos, cleanup)|, cleanup, Den(env, g, m))
  {
    hide Code, Den;
    match g {
      case RelStore(_, _) => ExecRelStore(p, env, pos, cleanup, g, r, m);
      case Blob2Blob(_, _, _) => ExecBlob2Blob(p, env, pos, cleanup, g, r, m);
      case Blob2Ctx(_, _, _) => ExecBlob2Ctx(p, env, pos, cleanup, g, r, m);
      case Ctx2Blob(_, _, _, _) => ExecCtx2Blob(p, env, pos, cleanup, g, r, m);
      case Stack2Blob(_, _, _) => ExecStack2Blob(p, env, pos, cleanup, g, r, m);
      case Stack2Ctx(_, _, _) => ExecStack2Ctx(p, env, pos, cleanup, g, r, m);
      case SysCall(_, _, _) => ExecSysCall(p, env, pos, cleanup, g, r, m);
      case CheckErr => ExecCheckErr(p, env, pos, cleanup, g, r, m);
      case CheckErrUnlessEnoent => ExecCheckErrUnlessEnoent(p, env, pos, cleanup, g, r, m);
      case DebugRet(_) => ExecDebugRet(p, env, pos, cleanup, g, r, m);
      case DebugPair(_) => ExecDebugPair(p, env, pos, cleanup, g, r, m);
      case DebugR9(_) => ExecDebugR9(p, env, pos, cleanup, g, r, m);
      case SaveToStack(_) => ExecSaveToStack(p, env, pos, cleanup, g, r, m);
      case SaveToBlob(_) => ExecSaveToBlob(p, env, pos, cleanup, g, r, m);
      case CloseStack(_, _) => ExecCloseStack(p, env, pos, cleanup, g, r, m);
      case CloseBlob(_, _) => ExecCloseBlob(p, env, pos, cleanup, g, r, m);
      case CloseStackQuiet(_) => ExecCloseStackQuiet(p, env, pos, cleanup, g, r, m);
      case InitialValue(_, _, _) => ExecInitialValue(p, env, pos, cleanup, g, r, m);
      case FindByName(_, _, _) => ExecFindByName(p, env, pos, cleanup, g, r, m);
      case SaveAttach(_) => ExecSaveAttach(p, env, pos, cleanup, g, r, m);
      case LoadInsn(_) => ExecLoadInsn(p, env, pos, cleanup, g, r, m);
      case LookupName(_, _, _) => ExecLookupName(p, env, pos, cleanup, g, r, m);
      case StoreAddr => ExecStoreAddr(p, env, pos, cleanup, g, r, m);
      case StoreKfunc(_, _) => ExecStoreKfunc(p, env, pos, cleanup, g, r, m);
      case StoreKsym => ExecStoreKsym(p, env, pos, cleanup, g, r, m);
      case CopyKsym(_, _) => ExecCopyKsym(p, env, pos, cleanup, g, r, m);
      case LogKfunc1 => ExecLogKfunc1(p, env, pos, cleanup, g, r, m);
      case LogKfunc2(_) => ExecLogKfunc2(p, env, pos, cleanup, g, r, m);
      case LogKsym1 => ExecLogKsym1(p, env, pos, cleanup, g, r, m);
      case LogKsym2 => ExecLogKsym2(p, env, pos, cleanup, g, r, m);
    }
  }

  // The code of a sequence of groups does what the sequence means.
  lemma {:induction false} ExecAll(p: seq<Insn>, env: Env, pos: int, cleanup: int, gs: seq<Group>, r: Regs, m: M)
    requires CodeAt(p, pos, Flat(gs, pos, cleanup)) && Match(r, m)
    ensures Executes(p, env, pos, r, m.w, pos + |Flat(gs, pos, cleanup)|, cleanup, DenAll(env, gs, m))
    decreases |gs|
  {
    hide Code, Den;
    var s := Running(pos, r, m.w);
    if gs == [] {
      ReachesSelf(p, env, s);
    } else {
      var c := Code(gs[0], pos, cleanup);
      var f, rest := Flat(gs, pos, cleanup), Flat(gs[1..], pos + |c|, cleanup);
      assert f == c + rest;
      assert CodeAt(p, pos, c) by {
        forall i {:trigger c[i]} | 0 <= i < |c| ensures p[pos + i] == c[i] {
          assert f[i] == c[i];
        }
      }
      ExecGroup(p, env, pos, cleanup, gs[0], r, m);
      var out := Den(env, gs[0], m);
      var end := pos + |c|;
      var r1: Regs :| Match(r1, out.m)
        && Reaches(p, env, s, Running(if out.Next? then end else cleanup, r1, out.m.w));
      if out.Next? {
        assert CodeAt(p, end, rest) by {
          forall i {:trigger rest[i]} | 0 <= i < |rest| ensures p[end + i] == rest[i] {
            assert f[|c| + i] == rest[i];
          }
        }
        ExecAll(p, env, end, cleanup, gs[1..], r1, out.m);
        var out2 := DenAll(env, gs[1..], out.m);
        var end2 := end + |rest|;
        var r2: Regs :| Match(r2, out2.m)
          && Reaches(p, env, Running(end, r1, out.m.w), Running(if out2.Next? then end2 else cleanup, r2, out2.m.w));
        ReachesTrans(p, env, s, Running(end, r1, out.m.w), Running(if out2.Next? then end2 else cleanup, r2, out2.m.w));
      }
    }
  }
}
