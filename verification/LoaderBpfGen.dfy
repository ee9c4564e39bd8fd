/** The loader generator itself: fields updated in place by every call, one instruction or one
    piece of data at a time.  State() is the abstract generator of LoaderGen. */
module LoaderBpfGen {
  import opened LoaderBytes
  import opened LoaderMachine
  import opened LoaderIR
  import opened LoaderGen

  const ERANGE: int := 34
  const ENOMEM: int := 12
  const E2BIG: int := 7
  const EFAULT: int := 14
  const EDOM: int := 33
  const ENOSPC: int := 28

  // The effect of emitting code one instruction after the other into a buffer of limit slots.
  predicate Appended(err0: int, s0: seq<Insn>, err1: int, s1: seq<Insn>, code: seq<Insn>, limit: nat) {
    (err1 == 0 <==> (err0 == 0 && |s0| + |code| <= limit)) && (err1 == 0 ==> s1 == s0 + code)
  }

  // Emitting code, then more code.
  lemma AppendedMore(err0: int, s0: seq<Insn>, err1: int, s1: seq<Insn>, err2: int, s2: seq<Insn>,
                     code: seq<Insn>, more: seq<Insn>, limit: nat)
    requires Appended(err0, s0, err1, s1, code, limit) && Appended(err1, s1, err2, s2, more, limit)
    ensures Appended(err0, s0, err2, s2, code + more, limit)
  {
    if err2 == 0 {
      assert s0 + code + more == s0 + (code + more);
    }
  }

  // The data blob and the stretches it has been put together from.
  datatype Blob = Blob(data: Bytes, pieces: seq<Piece>)

  function More(d: Blob, bytes: Bytes): Blob {
    Blob(d.data + bytes + Zeros(Round8(|bytes|) - |bytes|), d.pieces + [Piece(|d.data|, |bytes|)])
  }

  // The effect of add_data.
  predicate Added(cfg: Config, err0: int, d0: Blob, err1: int, d1: Blob, bytes: Bytes) {
    (err1 == 0 <==> (err0 == 0 && |d0.data| + Round8(|bytes|) <= cfg.dataLimit)) && (err1 == 0 ==> d1 == More(d0, bytes))
  }

  // The reference to a debug message stored at the end of blob d.
  function DbgAt(cfg: Config, d: Bytes, msg: Msg, single: bool): Dbg {
    if cfg.logLevel == 0 then NoDbg else Dbg(|d|, |DebugText(cfg, msg, single)|)
  }

  // The effect of emitting code that ends in a debug print.
  predicate Printed(cfg: Config, err0: int, s0: seq<Insn>, d0: Blob, err1: int, s1: seq<Insn>, d1: Blob,
                    msg: Msg, single: bool, code: seq<Insn>) {
    if cfg.logLevel == 0 then d1 == d0 && Appended(err0, s0, err1, s1, code, cfg.insnLimit)
    else
      var text := DebugText(cfg, msg, single);
      (err1 == 0 <==> (err0 == 0 && |d0.data| + Round8(|text|) <= cfg.dataLimit && |s0| + |code| <= cfg.insnLimit))
      && (err1 == 0 ==> d1 == More(d0, text) && s1 == s0 + code)
  }

  // The first k closes of map slots have been emitted behind the quiet ones.
  ghost predicate MapClosesDone(cfg: Config, g0: Gen, k: nat, err0: int, head: seq<Insn>, quiet: seq<Group>,
                                err: int, s: seq<Insn>, d: Blob) {
    var (g, gs) := MapCloses(cfg, g0, k);
    (g.Dead? ==> err != 0)
    && (g.Live? ==> Appended(err0, head, err, s, Flat(quiet + gs, CLEANUP, CLEANUP), cfg.insnLimit))
    && (err == 0 ==> d == Blob(g.data, g.pieces))
  }

  // A print after generator state g does to the buffers what AddDebug says.
  lemma PrintedAfter(cfg: Config, g: Gen, e0: int, s0: seq<Insn>, d0: Blob, e1: int, s1: seq<Insn>, d1: Blob,
                     msg: Msg, single: bool, code: seq<Insn>)
    requires Printed(cfg, e0, s0, d0, e1, s1, d1, msg, single, code)
    requires (g.Dead? ==> e0 != 0) && (e0 == 0 ==> d0 == Blob(g.data, g.pieces))
    ensures var (g', dbg) := AddDebug(cfg, g, msg, single);
      (g'.Dead? ==> e1 != 0) && (e1 == 0 ==> d1 == Blob(g'.data, g'.pieces))
      && (g'.Live? ==> Appended(e0, s0, e1, s1, code, cfg.insnLimit) && (e0 == 0 ==> dbg == DbgAt(cfg, d0.data, msg, single)))
  {
    hide DebugText, Zeros, Round8;
  }

  lemma MapClosesStep(cfg: Config, g0: Gen, k: nat, err0: int, head: seq<Insn>, quiet: seq<Group>,
                      e0: int, s0: seq<Insn>, d0: Blob, e1: int, s1: seq<Insn>, d1: Blob)
    requires MapClosesDone(cfg, g0, k, err0, head, quiet, e0, s0, d0)
    requires Printed(cfg, e0, s0, d0, e1, s1, d1, MsgClose, false,
                     Code(CloseBlob(FdSlot(k), DbgAt(cfg, d0.data, MsgClose, false)), 0, CLEANUP))
    ensures MapClosesDone(cfg, g0, k + 1, err0, head, quiet, e1, s1, d1)
  {
    hide Flat, Printed, AddDebug, DbgAt, Code;
    var (g, gs) := MapCloses(cfg, g0, k);
    var (g', dbg) := AddDebug(cfg, g, MsgClose, false);
    var c := CloseBlob(FdSlot(k), dbg);
    assert MapCloses(cfg, g0, k + 1) == (g', gs + [c]);
    PrintedAfter(cfg, g, e0, s0, d0, e1, s1, d1, MsgClose, false,
                 Code(CloseBlob(FdSlot(k), DbgAt(cfg, d0.data, MsgClose, false)), 0, CLEANUP));
    if g'.Live? {
      var f := Flat(quiet + gs, CLEANUP, CLEANUP);
      var code := Code(c, 0, CLEANUP);
      assert Flat(quiet + (gs + [c]), CLEANUP, CLEANUP) == f + code by {
        FlatSnoc(quiet + gs, c, CLEANUP);
        CloseAnywhere(c, CLEANUP + |f|);
        assert (quiet + gs) + [c] == quiet + (gs + [c]);
      }
      AppendedMore(err0, head, e0, s0, e1, s1, f, code, cfg.insnLimit);
    }
  }

  lemma NoQuietCloses(err: int, head: seq<Insn>, s: seq<Insn>, limit: nat)
    requires err == 0 ==> s == head && |s| <= limit
    ensures Appended(err, head, err, s, Flat(QuietCloses(0), CLEANUP, CLEANUP), limit)
  {
  }

  lemma QuietClosesStep(err0: int, head: seq<Insn>, e0: int, s0: seq<Insn>, e1: int, s1: seq<Insn>, n: nat, limit: nat)
    requires Appended(err0, head, e0, s0, Flat(QuietCloses(n), CLEANUP, CLEANUP), limit)
    requires Appended(e0, s0, e1, s1, [Ldx(W, 1, 10, -STACK_SZ + 4 * n), Jmp(JSLE, 1, 0, 1), Call(SysClose)], limit)
    ensures Appended(err0, head, e1, s1, Flat(QuietCloses(n + 1), CLEANUP, CLEANUP), limit)
    ensures e1 == 0 ==> |s1| <= limit
  {
    hide Flat;
    var c, f := CloseStackQuiet(-STACK_SZ + 4 * n), Flat(QuietCloses(n), CLEANUP, CLEANUP);
    FlatSnoc(QuietCloses(n), c, CLEANUP);
    assert Code(c, CLEANUP + |f|, CLEANUP) == [Ldx(W, 1, 10, -STACK_SZ + 4 * n), Jmp(JSLE, 1, 0, 1), Call(SysClose)];
    AppendedMore(err0, head, e0, s0, e1, s1, f, Code(c, CLEANUP + |f|, CLEANUP), limit);
  }

  lemma AppendedEnd(err0: int, s0: seq<Insn>, err1: int, s1: seq<Insn>, code: seq<Insn>, limit: nat)
    requires Appended(err0, s0, err1, s1, code, limit)
    ensures (err1 == 0 <==> err0 == 0 && |s0| + |code| <= limit) && (err1 == 0 ==> s1 == s0 + code)
  {
  }

  // The code of a close does not depend on where it stands.
  lemma CloseAnywhere(c: Group, pos: int)
    requires c.CloseBlob? || c.CloseStackQuiet?
    ensures Code(c, pos, CLEANUP) == Code(c, 0, CLEANUP)
  {
    hide CloseCode;
  }

  // The pieces of bpf_gen__init add up: e1 to e5 are the error field after each of them.
  lemma InitDone(cfg: Config, e1: int, e2: int, e3: int, e4: int, s4: seq<Insn>, d: Blob, e5: int, s5: seq<Insn>)
    requires e1 == 0 <==> ReserveFds(cfg).Live?
    requires e2 == 0 <==> e1 == 0 && |SETUP| + 1 <= cfg.insnLimit
    requires var head, quiet := SETUP + [CleanupJump(cfg)], QuietCloses(NrProgsSz(cfg) / 4);
      (e3 == 0 <==> e2 == 0 && |head| + |Flat(quiet, CLEANUP, CLEANUP)| <= cfg.insnLimit)
      && MapClosesDone(cfg, ReserveFds(cfg), cfg.nrMaps, e3, head, quiet, e4, s4, d)
    requires Appended(e4, s4, e5, s5, RETURN_R7, cfg.insnLimit)
    ensures e5 == 0 <==> Init(cfg).Live?
    ensures e5 == 0 ==> s5 == Insns(cfg, []) && Init(cfg) == INITIAL.(data := d.data, pieces := d.pieces)
  {
    hide Flat, Code, QuietCloses;
    var head, quiet := SETUP + [CleanupJump(cfg)], QuietCloses(NrProgsSz(cfg) / 4);
    var gs := MapCloses(cfg, ReserveFds(cfg), cfg.nrMaps).1;
    FlatAppend(quiet, gs, CLEANUP, CLEANUP);
    assert Prologue(cfg) == head + Flat(quiet + gs, CLEANUP, CLEANUP) + RETURN_R7;
    InsnsNone(cfg);
  }

  class BpfGen {
    const cfg: Config
    var insns: seq<Insn>
    var data: Bytes
    var cleanupLabel: int
    var nrProgs: nat
    var nrMaps: nat
    var error: int
    var relos: seq<Relo>
    var ksyms: seq<Ksym>
    var coreRelos: Bytes
    var attachKind: int
    var attachTarget: Bytes
    var fdArray: int
    var nrFdArray: int
    // the groups behind the instructions emitted since bpf_gen__init
    ghost var groups: seq<Group>
    // the stretches of the blob that AddBytes was asked for
    ghost var pieces: seq<Piece>

    ghost predicate Valid()
      reads this
    {
      error == 0 ==>
        insns == Insns(cfg, groups) && |insns| <= cfg.insnLimit && cleanupLabel == CLEANUP && fdArray == FD_ARRAY
    }

    ghost function State(): Gen
      reads this
    {
      if error != 0 then Dead
      else Live(groups, data, pieces, nrProgs, nrMaps, nrFdArray, relos, ksyms, coreRelos, attachKind, attachTarget)
    }

    ghost function Here(): Blob
      reads this`data, this`pieces
    {
      Blob(data, pieces)
    }

    // --- buffers

    // realloc_insn_buf and emit: nothing is written once an error is set.
    method EmitInsn(insn: Insn)
      modifies this`insns, this`error
      ensures Appended(old(error), old(insns), error, insns, [insn], cfg.insnLimit)
    {
      if error != 0 {
        return;
      }
      if |insns| + 1 > cfg.insnLimit {
        error := if 8 * (|insns| + 1) > INT32_MAX then -ERANGE else -ENOMEM;
        return;
      }
      insns := insns + [insn];
    }

    // A run of emit calls.
    method EmitCode(code: seq<Insn>)
      requires error == 0 ==> |insns| <= cfg.insnLimit
      modifies this`insns, this`error
      ensures Appended(old(error), old(insns), error, insns, code, cfg.insnLimit)
    {
      for i := 0 to |code|
        invariant Appended(old(error), old(insns), error, insns, code[..i], cfg.insnLimit)
      {
        ghost var e, s := error, insns;
        EmitInsn(code[i]);
        AppendedMore(old(error), old(insns), e, s, error, insns, code[..i], [code[i]], cfg.insnLimit);
        assert code[..i] + [code[i]] == code[..i + 1];
      }
      assert code[..|code|] == code;
    }

    // add_data
    method AddBytes(bytes: Bytes) returns (off: int)
      modifies this`data, this`pieces, this`error
      ensures Added(cfg, old(error), old(Here()), error, Here(), bytes)
      ensures off == if error == 0 then |old(data)| else 0
      ensures old(Valid()) ==> Valid()
      ensures old(Valid()) ==> State() == AddData(cfg, old(State()), bytes).0
      ensures old(Valid()) && error == 0 ==> off == AddData(cfg, old(State()), bytes).1
    {
      var size8 := Round8(|bytes|);
      if error != 0 {
        return 0;
      }
      if |data| + size8 > cfg.dataLimit {
        error := if |data| + size8 > INT32_MAX then -ERANGE else -ENOMEM;
        return 0;
      }
      off := |data|;
      pieces := pieces + [Piece(off, |bytes|)];
      data := data + bytes + Zeros(size8 - |bytes|);
    }

    // The emitted code of a group becomes part of the abstract generator.
    ghost method Commit(before: Gen, start: seq<Insn>, err: int, group: Group)
      requires before.Live? ==> err == 0 && start == Insns(cfg, before.groups)
      requires before.Dead? ==> error != 0
      requires before.Live? ==> groups == before.groups
      requires before.Live? && error == 0 ==> before == State()
      requires before.Live? && !Reachable(group, |start|) ==> error != 0
      requires before.Live? && Reachable(group, |start|) ==>
        Appended(err, start, error, insns, Code(group, |start|, CLEANUP), cfg.insnLimit)
      requires error == 0 ==> cleanupLabel == CLEANUP && fdArray == FD_ARRAY
      modifies this`groups
      ensures Valid() && State() == Emit(cfg, before, group)
    {
      if before.Live? {
        FlatOne(cfg, before.groups, group);
      }
      groups := groups + [group];
    }

    method EmitRelStore(off: int, addr: int)
      requires Valid()
      modifies this`insns, this`error, this`groups
      ensures Valid() && State() == Emit(cfg, old(State()), RelStore(off, addr))
    {
      hide Insns, Emit, Grown, Extends, Wf;
      EmitCode([LoadBlob(0), High(addr), LoadBlob(1), High(off), Stx(DW, 1, 0, 0)]);
      Commit(old(State()), old(insns), old(error), RelStore(off, addr));
    }

    method MoveBlob2Blob(off: int, size: Size, blobOff: int)
      requires Valid()
      modifies this`insns, this`error, this`groups
      ensures Valid() && State() == Emit(cfg, old(State()), Blob2Blob(off, size, blobOff))
    {
      hide Insns, Emit, Grown, Extends, Wf;
      EmitCode([LoadBlob(2), High(blobOff), Ldx(size, 0, 2, 0), LoadBlob(1), High(off), Stx(size, 1, 0, 0)]);
      Commit(old(State()), old(insns), old(error), Blob2Blob(off, size, blobOff));
    }

    method MoveBlob2Ctx(ctxOff: int, size: Size, blobOff: int)
      requires Valid()
      modifies this`insns, this`error, this`groups
      ensures Valid() && State() == Emit(cfg, old(State()), Blob2Ctx(ctxOff, size, blobOff))
    {
      hide Insns, Emit, Grown, Extends, Wf;
      EmitCode([LoadBlob(1), High(blobOff), Ldx(size, 0, 1, 0), Stx(size, 6, 0, ctxOff)]);
      Commit(old(State()), old(insns), old(error), Blob2Ctx(ctxOff, size, blobOff));
    }

    method MoveCtx2Blob(off: int, size: Size, ctxOff: int, checkNonZero: bool)
      requires Valid()
      modifies this`insns, this`error, this`groups
      ensures Valid() && State() == Emit(cfg, old(State()), Ctx2Blob(off, size, ctxOff, checkNonZero))
    {
      hide Insns, Emit, Grown, Extends, Wf;
      if checkNonZero {
        EmitCode([Ldx(size, 0, 6, ctxOff), Jmp(JEQ, 0, 0, 3), LoadBlob(1), High(off), Stx(size, 1, 0, 0)]);
      } else {
        EmitCode([Ldx(size, 0, 6, ctxOff), LoadBlob(1), High(off), Stx(size, 1, 0, 0)]);
      }
      Commit(old(State()), old(insns), old(error), Ctx2Blob(off, size, ctxOff, checkNonZero));
    }

    method MoveStack2Blob(off: int, size: Size, stackOff: int)
      requires Valid()
      modifies this`insns, this`error, this`groups
      ensures Valid() && State() == Emit(cfg, old(State()), Stack2Blob(off, size, stackOff))
    {
      hide Insns, Emit, Grown, Extends, Wf;
      EmitCode([Ldx(size, 0, 10, stackOff), LoadBlob(1), High(off), Stx(size, 1, 0, 0)]);
      Commit(old(State()), old(insns), old(error), Stack2Blob(off, size, stackOff));
    }

    method MoveStack2Ctx(ctxOff: int, size: Size, stackOff: int)
      requires Valid()
      modifies this`insns, this`error, this`groups
      ensures Valid() && State() == Emit(cfg, old(State()), Stack2Ctx(ctxOff, size, stackOff))
    {
      hide Insns, Emit, Grown, Extends, Wf;
      EmitCode([Ldx(size, 0, 10, stackOff), Stx(size, 6, 0, ctxOff)]);
      Commit(old(State()), old(insns), old(error), Stack2Ctx(ctxOff, size, stackOff));
    }

    method EmitSysBpf(cmd: int, attr: int, attrSize: int)
      requires Valid()
      modifies this`insns, this`error, this`groups
      ensures Valid() && State() == Emit(cfg, old(State()), SysCall(cmd, attr, attrSize))
    {
      hide Insns, Emit, Grown, Extends, Wf;
      EmitCode([MovImm(1, cmd), LoadBlob(2), High(attr), MovImm(3, attrSize), Call(SysBpf), MovReg(7, 0)]);
      Commit(old(State()), old(insns), old(error), SysCall(cmd, attr, attrSize));
    }

    // emit_check_err: the jump is relative to the next instruction and must fit 16 bits.
    method EmitJumpToCleanup()
      requires error == 0 ==> |insns| <= cfg.insnLimit && cleanupLabel == CLEANUP
      modifies this`insns, this`error
      ensures old(error) == 0 && IsSimm16(CLEANUP - |old(insns)| - 1) ==>
        Appended(old(error), old(insns), error, insns, CheckErrCode(|old(insns)|, CLEANUP), cfg.insnLimit)
      ensures old(error) != 0 || !IsSimm16(CLEANUP - |old(insns)| - 1) ==> error != 0
    {
      var off := -(|insns| - cleanupLabel) - 1;
      if IsSimm16(off) {
        EmitInsn(Jmp(JSLT, 7, 0, off));
      } else {
        error := if error == 0 then -ERANGE else error;
        EmitInsn(Ja(-1));
      }
    }

    method EmitCheckErr()
      requires Valid()
      modifies this`insns, this`error, this`groups
      ensures Valid() && State() == Emit(cfg, old(State()), CheckErr)
    {
      hide Insns, Emit, Grown, Extends, Wf;
      EmitJumpToCleanup();
      Commit(old(State()), old(insns), old(error), CheckErr);
    }

    // emit_debug: the print of a message with up to two registers; nothing without a log level.
    method EmitDebug(reg1: int, reg2: int, msg: Msg)
      requires reg1 < 11 && reg2 < 11 && (error == 0 ==> |insns| <= cfg.insnLimit)
      modifies this`insns, this`error, this`data, this`pieces
      ensures var single := reg1 >= 0 && reg2 < 0;
        Printed(cfg, old(error), old(insns), old(Here()), error, insns, Here(), msg, single,
                DebugCode(DbgAt(cfg, old(data), msg, single), reg1, reg2))
    {
      if cfg.logLevel == 0 {
        return;
      }
      var text := FormatDebug(msg, reg1 >= 0 && reg2 < 0);
      var addr := AddBytes(text);
      EmitPrint(addr, |text|, reg1, reg2);
    }

    // The formatted message, cut to the buffer, with its terminator.
    method FormatDebug(msg: Msg, single: bool) returns (text: Bytes)
      ensures text == DebugText(cfg, msg, single)
    {
      var full := cfg.format(msg);
      var buf := if |full| < 1023 then full else full[..1023];
      if |full| < 1024 - 7 && single {
        buf := buf + [0x20, 0x72, 0x3d, 0x25, 0x64];
      }
      text := buf + [0];
    }

    method EmitPrint(addr: int, len: int, reg1: int, reg2: int)
      requires reg1 < 11 && reg2 < 11 && (error == 0 ==> |insns| <= cfg.insnLimit)
      modifies this`insns, this`error
      ensures Appended(old(error), old(insns), error, insns, DebugCode(Dbg(addr, len), reg1, reg2), cfg.insnLimit)
    {
      EmitCode([LoadBlob(1), High(addr), MovImm(2, len)]);
      if reg1 >= 0 {
        EmitCode([MovReg(3, reg1)]);
      }
      if reg2 >= 0 {
        EmitCode([MovReg(4, reg2)]);
      }
      EmitCode([Call(TracePrintk)]);
    }

    method DebugRet(msg: Msg)
      requires Valid()
      modifies this`insns, this`error, this`groups, this`data, this`pieces
      ensures Valid() && State() == EmitDebugRet(cfg, old(State()), msg)
    {
      hide Insns, Emit, Wf;
      EmitDebug(7, -1, msg);
      Commit(AddDebug(cfg, old(State()), msg, true).0, old(insns), old(error),
        Group.DebugRet(DbgAt(cfg, old(data), msg, true)));
    }

    method DebugPair(msg: Msg)
      requires Valid()
      modifies this`insns, this`error, this`groups, this`data, this`pieces
      ensures Valid() && State() == EmitDebugPair(cfg, old(State()), msg)
    {
      hide Insns, Emit, Wf;
      EmitDebug(7, 9, msg);
      Commit(AddDebug(cfg, old(State()), msg, false).0, old(insns), old(error),
        Group.DebugPair(DbgAt(cfg, old(data), msg, false)));
    }

    method DebugR9(msg: Msg)
      requires Valid()
      modifies this`insns, this`error, this`groups, this`data, this`pieces
      ensures Valid() && State() == EmitDebugR9(cfg, old(State()), msg)
    {
      hide Insns, Emit, Wf;
      EmitDebug(9, -1, msg);
      Commit(AddDebug(cfg, old(State()), msg, true).0, old(insns), old(error), Group.DebugR9(DbgAt(cfg, old(data), msg, true)));
    }

    // __emit_sys_close: close R1 if it is positive.
    method EmitSysClose()
      requires error == 0 ==> |insns| <= cfg.insnLimit
      modifies this`insns, this`error, this`data, this`pieces
      ensures Printed(cfg, old(error), old(insns), old(Here()), error, insns, Here(), MsgClose, false,
                      CloseCode(DbgAt(cfg, old(data), MsgClose, false)))
    {
      EmitCode([Jmp(JSLE, 1, 0, 2 + (if cfg.logLevel != 0 then 6 else 0)), MovReg(9, 1), Call(SysClose)]);
      EmitDebug(9, 0, MsgClose);
    }

    method EmitSysCloseStack(stackOff: int)
      requires Valid()
      modifies this`insns, this`error, this`groups, this`data, this`pieces
      ensures Valid() && State() == EmitCloseStack(cfg, old(State()), stackOff)
    {
      hide Insns, Emit, Wf;
      EmitRawCloseStack(stackOff);
      Commit(AddDebug(cfg, old(State()), MsgClose, false).0, old(insns), old(error),
             CloseStack(stackOff, DbgAt(cfg, old(data), MsgClose, false)));
    }

    method EmitSysCloseBlob(blobOff: int)
      requires Valid()
      modifies this`insns, this`error, this`groups, this`data, this`pieces
      ensures Valid() && State() == EmitCloseBlob(cfg, old(State()), blobOff)
    {
      hide Insns, Emit, Wf;
      EmitRawCloseBlob(blobOff);
      Commit(AddDebug(cfg, old(State()), MsgClose, false).0, old(insns), old(error),
             CloseBlob(blobOff, DbgAt(cfg, old(data), MsgClose, false)));
    }

    method EmitRawCloseStack(stackOff: int)
      requires error == 0 ==> |insns| <= cfg.insnLimit
      modifies this`insns, this`error, this`data, this`pieces
      ensures Printed(cfg, old(error), old(insns), old(Here()), error, insns, Here(), MsgClose, false,
                      Code(CloseStack(stackOff, DbgAt(cfg, old(data), MsgClose, false)), 0, CLEANUP))
    {
      EmitCode([Ldx(W, 1, 10, stackOff)]);
      EmitSysClose();
    }

    // The instructions of emit_sys_close_blob, as also used in the cleanup code.
    method EmitRawCloseBlob(blobOff: int)
      requires error == 0 ==> |insns| <= cfg.insnLimit
      modifies this`insns, this`error, this`data, this`pieces
      ensures Printed(cfg, old(error), old(insns), old(Here()), error, insns, Here(), MsgClose, false,
                      Code(CloseBlob(blobOff, DbgAt(cfg, old(data), MsgClose, false)), 0, CLEANUP))
    {
      EmitCode([LoadBlob(0), High(blobOff), Ldx(W, 1, 0, 0)]);
      EmitSysClose();
    }

    method SaveR7ToStack(stackOff: int)
      requires Valid()
      modifies this`insns, this`error, this`groups
      ensures Valid() && State() == Emit(cfg, old(State()), SaveToStack(stackOff))
    {
      hide Insns, Emit, Grown, Extends, Wf;
      EmitCode([Stx(W, 10, 7, stackOff)]);
      Commit(old(State()), old(insns), old(error), SaveToStack(stackOff));
    }

    method SaveR7ToBlob(blobOff: int)
      requires Valid()
      modifies this`insns, this`error, this`groups
      ensures Valid() && State() == Emit(cfg, old(State()), SaveToBlob(blobOff))
    {
      hide Insns, Emit, Grown, Extends, Wf;
      EmitCode([LoadBlob(1), High(blobOff), Stx(W, 1, 7, 0)]);
      Commit(old(State()), old(insns), old(error), SaveToBlob(blobOff));
    }

    method EmitInitialValue(ctxOff: int, value: int, size: nat)
      requires Valid()
      modifies this`insns, this`error, this`groups
      ensures Valid() && State() == Emit(cfg, old(State()), InitialValue(ctxOff, value, size))
    {
      hide Insns, Emit, Grown, Extends, Wf;
      EmitCode([Ldx(DW, 3, 6, ctxOff), Jmp(JEQ, 3, 0, 8), LoadBlob(1), High(value), MovImm(2, size),
        Ldx(W, 0, 6, CTX_FLAGS), Jmp(JSET, 0, BPF_SKEL_KERNEL, 2), Call(CopyFromUser), Ja(1), Call(ProbeReadKernel)]);
      Commit(old(State()), old(insns), old(error), InitialValue(ctxOff, value, size));
    }

    method EmitFindCall(name: int, len: int, kind: int)
      requires Valid()
      modifies this`insns, this`error, this`groups
      ensures Valid() && State() == Emit(cfg, old(State()), FindByName(name, len, kind))
    {
      hide Insns, Emit, Grown, Extends, Wf;
      EmitCode([LoadBlob(1), High(name), MovImm(2, len), MovImm(3, kind), MovImm(4, 0), Call(FindByNameKind), MovReg(7, 0)]);
      Commit(old(State()), old(insns), old(error), FindByName(name, len, kind));
    }

    method EmitSaveAttach(attr: int)
      requires Valid()
      modifies this`insns, this`error, this`groups
      ensures Valid() && State() == Emit(cfg, old(State()), SaveAttach(attr))
    {
      hide Insns, Emit, Grown, Extends, Wf;
      EmitCode([LoadBlob(0), High(attr), Stx(W, 0, 7, ATTR_ATTACH_BTF_ID), RshImm(7, 32),
        Stx(W, 0, 7, ATTR_ATTACH_BTF_OBJ_FD)]);
      Commit(old(State()), old(insns), old(error), SaveAttach(attr));
    }

    method EmitLoadInsn(insn: int)
      requires Valid()
      modifies this`insns, this`error, this`groups
      ensures Valid() && State() == Emit(cfg, old(State()), LoadInsn(insn))
    {
      hide Insns, Emit, Grown, Extends, Wf;
      EmitCode([LoadBlob(8), High(insn)]);
      Commit(old(State()), old(insns), old(error), LoadInsn(insn));
    }

    method EmitLookupCall(name: int, len: int, res: int)
      requires Valid()
      modifies this`insns, this`error, this`groups
      ensures Valid() && State() == Emit(cfg, old(State()), LookupName(name, len, res))
    {
      hide Insns, Emit, Grown, Extends, Wf;
      EmitCode([LoadBlob(1), High(name), MovImm(2, len), MovImm(3, 0), LoadBlob(4), High(res), MovReg(7, 4),
        Call(KallsymsLookup), Ldx(DW, 9, 7, 0), MovReg(7, 0)]);
      Commit(old(State()), old(insns), old(error), LookupName(name, len, res));
    }

    method EmitStoreAddr()
      requires Valid()
      modifies this`insns, this`error, this`groups
      ensures Valid() && State() == Emit(cfg, old(State()), StoreAddr)
    {
      hide Insns, Emit, Grown, Extends, Wf;
      EmitCode([Stx(W, 8, 9, INSN_IMM), RshImm(9, 32), Stx(W, 8, 9, INSN_SZ + INSN_IMM)]);
      Commit(old(State()), old(insns), old(error), StoreAddr);
    }

    method EmitStoreKfunc(idx: int, slot: int)
      requires Valid()
      modifies this`insns, this`error, this`groups
      ensures Valid() && State() == Emit(cfg, old(State()), StoreKfunc(idx, slot))
    {
      hide Insns, Emit, Grown, Extends, Wf;
      EmitCode([Jmp(JSGE, 7, 0, 3), St(W, 8, INSN_IMM, 0), St(H, 8, INSN_OFF, 0), Ja(10), Stx(W, 8, 7, INSN_IMM),
        MovReg(9, 7), RshImm(9, 32), Jmp(JNE, 9, 0, 2), St(H, 8, INSN_OFF, 0), Ja(4), LoadBlob(0), High(slot),
        Stx(W, 0, 9, 0), St(H, 8, INSN_OFF, idx)]);
      Commit(old(State()), old(insns), old(error), StoreKfunc(idx, slot));
    }

    method EmitStoreKsym()
      requires Valid()
      modifies this`insns, this`error, this`groups
      ensures Valid() && State() == Emit(cfg, old(State()), StoreKsym)
    {
      hide Insns, Emit, Grown, Extends, Wf;
      EmitCode([Jmp(JSGE, 7, 0, 3), St(W, 8, INSN_IMM, 0), St(W, 8, INSN_SZ + INSN_IMM, 0), Ja(4),
        Stx(W, 8, 7, INSN_IMM), RshImm(7, 32), Stx(W, 8, 7, INSN_SZ + INSN_IMM), Jmp(JSGE, 7, 0, 3),
        Ldx(B, 9, 8, INSN_CODE_END), And32Imm(9, SRC_REG_MASK), Stx(B, 8, 9, INSN_CODE_END)]);
      Commit(old(State()), old(insns), old(error), StoreKsym);
    }

    method EmitCopyKsym(off: int, blobOff: int)
      requires Valid()
      modifies this`insns, this`error, this`groups
      ensures Valid() && State() == Emit(cfg, old(State()), CopyKsym(off, blobOff))
    {
      hide Insns, Emit, Grown, Extends, Wf;
      EmitCode([LoadBlob(2), High(blobOff), Ldx(W, 0, 2, 0), LoadBlob(1), High(off), Stx(W, 1, 0, 0),
        Jmp(JNE, 0, 0, 3), Ldx(B, 9, 8, INSN_CODE_END), And32Imm(9, SRC_REG_MASK), Stx(B, 8, 9, INSN_CODE_END)]);
      Commit(old(State()), old(insns), old(error), CopyKsym(off, blobOff));
    }

    method EmitLogKfunc1()
      requires Valid()
      modifies this`insns, this`error, this`groups
      ensures Valid() && State() == Emit(cfg, old(State()), Group.LogKfunc1)
    {
      hide Insns, Emit, Grown, Extends, Wf;
      EmitCode([Ldx(W, 7, 8, INSN_IMM), Ldx(H, 9, 8, INSN_OFF)]);
      Commit(old(State()), old(insns), old(error), Group.LogKfunc1);
    }

    method EmitLogKfunc2(slot: int)
      requires Valid()
      modifies this`insns, this`error, this`groups
      ensures Valid() && State() == Emit(cfg, old(State()), LogKfunc2(slot))
    {
      hide Insns, Emit, Grown, Extends, Wf;
      EmitCode([LoadBlob(0), High(slot), Ldx(W, 9, 0, 0)]);
      Commit(old(State()), old(insns), old(error), LogKfunc2(slot));
    }

    method EmitLogKsym1()
      requires Valid()
      modifies this`insns, this`error, this`groups
      ensures Valid() && State() == Emit(cfg, old(State()), LogKsym1)
    {
      hide Insns, Emit, Grown, Extends, Wf;
      EmitCode([Ldx(W, 7, 8, INSN_IMM), Ldx(H, 9, 8, INSN_SZ + INSN_IMM)]);
      Commit(old(State()), old(insns), old(error), LogKsym1);
    }

    method EmitLogKsym2()
      requires Valid()
      modifies this`insns, this`error, this`groups
      ensures Valid() && State() == Emit(cfg, old(State()), LogKsym2)
    {
      hide Insns, Emit, Grown, Extends, Wf;
      EmitCode([Ldx(B, 9, 8, INSN_CODE_END)]);
      Commit(old(State()), old(insns), old(error), LogKsym2);
    }

    // a failed lookup of a symbol that does not exist is no error
    method EmitCheckErrUnlessEnoent()
      requires Valid()
      modifies this`insns, this`error, this`groups
      ensures Valid() && State() == Emit(cfg, old(State()), CheckErrUnlessEnoent)
    {
      hide Insns, Emit, Grown, Extends, Wf;
      EmitCode([Jmp(JEQ, 7, -ENOENT, 1)]);
      EmitJumpToCleanup();
      Commit(old(State()), old(insns), old(error), CheckErrUnlessEnoent);
    }

    // --- the API

    // A zeroed generator, as bpf_object__gen_loader allocates it.
    constructor (cfg: Config)
      ensures this.cfg == cfg && Blank()
    {
      this.cfg := cfg;
      insns, data, groups, pieces := [], [], [], [];
      nrProgs, nrMaps, error, cleanupLabel, fdArray, nrFdArray := 0, 0, 0, 0, 0, 0;
      relos, ksyms, coreRelos, attachKind, attachTarget := [], [], [], 0, [];
    }

    ghost predicate Blank()
      reads this
    {
      insns == [] && error == 0 && State() == INITIAL
    }

    // bpf_gen__init
    method InitLoader()
      requires Blank()
      modifies this
      ensures Valid() && State() == LoaderGen.Init(cfg)
    {
      hide Code, Flat, QuietCloses, Insns, LoaderGen.Init, Prologue, MapCloses, Zeros, DataGrown;
      hide Appended, MapClosesDone, Added, ReserveFds, Tiled, Wf, Placed;
      ReserveFdArray();
      var nrProgsSz := 8 + 4 * cfg.nrProgs;
      ghost var e1 := error;
      EmitSetup(nrProgsSz);
      cleanupLabel := |insns|;
      ghost var head, quiet, e2 := SETUP + [CleanupJump(cfg)], QuietCloses(nrProgsSz / 4), error;
      EmitQuietCloses(nrProgsSz, head);
      ghost var e3 := error;
      EmitMapCloses(ReserveFds(cfg), head, quiet);
      ghost var e4, s4 := error, insns;
      EmitCode([MovReg(0, 7), Exit]);
      InitDone(cfg, e1, e2, e3, e4, s4, Here(), error, insns);
      AppendedEnd(e4, s4, error, insns, RETURN_R7, cfg.insnLimit);
    }

    method ReserveFdArray()
      requires Blank()
      modifies this`data, this`pieces, this`error, this`fdArray
      ensures error == 0 <==> ReserveFds(cfg).Live?
      ensures fdArray == FD_ARRAY && (error == 0 ==> Here() == Blob(ReserveFds(cfg).data, ReserveFds(cfg).pieces))
    {
      hide Zeros, DataGrown;
      fdArray := AddBytes(Zeros(MAX_FD_ARRAY_SZ * 4));
    }

    method EmitSetup(nrProgsSz: nat)
      requires nrProgsSz == NrProgsSz(cfg) && insns == []
      modifies this`insns, this`error
      ensures error == 0 <==> old(error) == 0 && |SETUP| + 1 <= cfg.insnLimit
      ensures error == 0 ==> insns == SETUP + [CleanupJump(cfg)]
    {
      EmitCode([MovReg(6, 1), MovReg(1, 10), AddImm(1, -STACK_SZ), MovImm(2, STACK_SZ), MovImm(3, 0), Call(ProbeReadKernel)]);
      EmitCode([Ja(nrProgsSz / 4 * 3 + 2 + cfg.nrMaps * (6 + (if cfg.logLevel != 0 then 6 else 0)))]);
    }

    // The closes of all descriptors on the stack.
    method EmitQuietCloses(nrProgsSz: nat, ghost head: seq<Insn>)
      requires nrProgsSz % 4 == 0 && (error == 0 ==> insns == head && |head| <= cfg.insnLimit)
      modifies this`insns, this`error
      ensures var quiet := Flat(QuietCloses(nrProgsSz / 4), CLEANUP, CLEANUP);
        (error == 0 <==> (old(error) == 0 && |head| + |quiet| <= cfg.insnLimit)) && (error == 0 ==> insns == head + quiet)
    {
      hide Flat, Code, Appended, QuietCloses;
      var i := 0;
      NoQuietCloses(error, head, insns, cfg.insnLimit);
      while i < nrProgsSz
        invariant 0 <= i <= nrProgsSz && i % 4 == 0
        invariant error == 0 ==> |insns| <= cfg.insnLimit
        invariant Appended(old(error), head, error, insns, Flat(QuietCloses(i / 4), CLEANUP, CLEANUP), cfg.insnLimit)
      {
        ghost var e, s := error, insns;
        EmitCode([Ldx(W, 1, 10, -STACK_SZ + i), Jmp(JSLE, 1, 0, 1), Call(SysClose)]);
        QuietClosesStep(old(error), head, e, s, error, insns, i / 4, cfg.insnLimit);
        i := i + 4;
      }
      AppendedEnd(old(error), head, error, insns, Flat(QuietCloses(nrProgsSz / 4), CLEANUP, CLEANUP), cfg.insnLimit);
    }

    // The closes of all map slots.
    method EmitMapCloses(ghost g0: Gen, ghost head: seq<Insn>, ghost quiet: seq<Group>)
      requires fdArray == FD_ARRAY
      requires g0.Dead? ==> error != 0
      requires error == 0 ==> insns == head + Flat(quiet, CLEANUP, CLEANUP) && |insns| <= cfg.insnLimit
      requires error == 0 ==> Here() == Blob(g0.data, g0.pieces)
      modifies this`insns, this`error, this`data, this`pieces
      ensures MapClosesDone(cfg, g0, cfg.nrMaps, old(error), head, quiet, error, insns, Here())
      ensures error == 0 ==> old(error) == 0 && |insns| <= cfg.insnLimit
    {
      hide Flat, Code, Printed;
      var k := 0;
      assert quiet + [] == quiet;
      while k < cfg.nrMaps
        invariant 0 <= k <= cfg.nrMaps
        invariant MapClosesDone(cfg, g0, k, old(error), head, quiet, error, insns, Here())
      {
        ghost var e, s, d := error, insns, Here();
        EmitRawCloseBlob(fdArray + 4 * k);
        MapClosesStep(cfg, g0, k, old(error), head, quiet, e, s, d, error, insns, Here());
        k := k + 1;
      }
    }

    // bpf_gen__load_btf
    method LoadBtf(raw: Bytes)
      requires Valid()
      modifies this
      ensures Valid() && State() == GenLoadBtf(cfg, old(State()), raw)
    {
      hide Emit, AddData, AddDebug, Insns, EmitDebugRet, EmitDebugPair, EmitDebugR9, EmitCloseStack, EmitCloseBlob;
      hide Grown, Extends, DataGrown, Wf, Added, Zeros, Here, Blank;
      var btf := AddBytes(raw);
      var attr := AddBytes(BtfAttr(|raw|));
      MoveCtx2Blob(attr + BTF_LOG_LEVEL, W, CTX_LOG_LEVEL, false);
      MoveCtx2Blob(attr + BTF_LOG_SIZE, W, CTX_LOG_SIZE, false);
      MoveCtx2Blob(attr + BTF_LOG_BUF, DW, CTX_LOG_BUF, false);
      EmitRelStore(attr + BTF_BTF, btf);
      EmitSysBpf(BPF_BTF_LOAD, attr, BTF_ATTR_SZ);
      DebugRet(MsgBtfLoad(|raw|));
      EmitCheckErr();
      SaveR7ToStack(OFF_BTF_FD);
    }

    // Keeps an inner map's descriptor on the stack and any other in the next slot of the blob.
    method KeepMapFd(idx: int) returns (stored: bool)
      requires Valid()
      modifies this`nrMaps, this`insns, this`error, this`groups
      ensures Valid() && (if old(State()).Dead? then State().Dead? else State() == StoreMapFd(cfg, old(State()), idx))
      ensures !stored ==> State().Dead?
    {
      hide Emit, Insns, Grown, Extends, Wf, Zeros, Here, Blank;
      if idx < 0 {
        SaveR7ToStack(OFF_INNER_MAP_FD);
      } else if idx != nrMaps {
        error := -EDOM;
        return false;
      } else {
        var slot := AddMapFd();
        SaveR7ToBlob(fdArray + 4 * slot);
      }
      return true;
    }

    // bpf_gen__map_create; idx is negative for an inner map
    method MapCreate(s: MapSpec, idx: int)
      requires Valid()
      modifies this
      ensures Valid() && State() == GenMapCreate(cfg, old(State()), s, idx)
    {
      hide Emit, AddData, AddDebug, Insns, EmitDebugRet, EmitDebugPair, EmitDebugR9, EmitCloseStack, EmitCloseBlob;
      hide Grown, Extends, DataGrown, Wf, Added, Zeros, Here, Blank;
      var attr := AddBytes(MapAttr(s));
      EmitMapAttribute(s, idx, attr);
      DebugRet(MsgMapCreate(s.name, idx, s.mapType, s.valueSize, s.btfValueTypeId));
      EmitCheckErr();
      var stored := KeepMapFd(idx);
      if !stored {
        return;
      }
      if s.mapType == BPF_MAP_TYPE_ARRAY_OF_MAPS || s.mapType == BPF_MAP_TYPE_HASH_OF_MAPS {
        EmitSysCloseStack(OFF_INNER_MAP_FD);
      }
    }

    method EmitMapAttribute(s: MapSpec, idx: int, attr: int)
      requires Valid()
      modifies this`insns, this`error, this`groups
      ensures Valid() && State() == EmitMapAttr(cfg, old(State()), s, idx, attr)
    {
      hide Emit, AddData, AddDebug, Insns, EmitDebugRet, EmitDebugPair, EmitDebugR9, EmitCloseStack, EmitCloseBlob;
      hide Grown, Extends, DataGrown, Wf, Added, Zeros, Here, Blank;
      if s.btfValueTypeId != 0 {
        MoveStack2Blob(attr + MAP_BTF_FD, W, OFF_BTF_FD);
      }
      if s.mapType == BPF_MAP_TYPE_ARRAY_OF_MAPS || s.mapType == BPF_MAP_TYPE_HASH_OF_MAPS {
        MoveStack2Blob(attr + MAP_INNER_FD, W, OFF_INNER_MAP_FD);
      }
      if idx >= 0 {
        MoveCtx2Blob(attr + MAP_MAX_ENTRIES, W, CtxMaxEntries(idx), true);
      }
      EmitSysBpf(BPF_MAP_CREATE, attr, MAP_ATTR_SZ);
    }

    // add_map_fd
    method AddMapFd() returns (slot: int)
      requires Valid()
      modifies this`nrMaps, this`error
      ensures Valid()
      ensures old(error) == 0 ==> (error == 0 <==> old(nrMaps) != MAX_USED_MAPS)
      ensures old(error) != 0 ==> error != 0
      ensures error == 0 ==> slot == old(nrMaps) && nrMaps == slot + 1
    {
      if nrMaps == MAX_USED_MAPS {
        error := -E2BIG;
        return 0;
      }
      slot := nrMaps;
      nrMaps := nrMaps + 1;
    }

    // bpf_gen__map_update_elem
    method MapUpdateElem(idx: int, value: Bytes)
      requires Valid()
      modifies this
      ensures Valid() && State() == GenMapUpdate(cfg, old(State()), idx, value)
    {
      hide Emit, AddData, AddDebug, Insns, EmitDebugRet, EmitDebugPair, EmitDebugR9, EmitCloseStack, EmitCloseBlob;
      hide Grown, Extends, DataGrown, Wf, Added, Zeros, Here, Blank;
      var val := AddBytes(value);
      var key := AddBytes(Zeros(4));
      EmitInitialValue(CtxInitialValue(idx), val, |value|);
      var attr := AddBytes(Zeros(ELEM_ATTR_SZ));
      MoveBlob2Blob(attr + ELEM_MAP_FD, W, FdSlot(idx));
      EmitRelStore(attr + ELEM_KEY, key);
      EmitRelStore(attr + ELEM_VALUE, val);
      EmitSysBpf(BPF_MAP_UPDATE_ELEM, attr, ELEM_ATTR_SZ);
      DebugRet(MsgUpdateElem(idx, |value|));
      EmitCheckErr();
    }

    // bpf_gen__populate_outer_map
    method PopulateOuterMap(outer: int, slot: u32, inner: int)
      requires Valid()
      modifies this
      ensures Valid() && State() == GenPopulateOuter(cfg, old(State()), outer, slot, inner)
    {
      hide Emit, AddData, AddDebug, Insns, EmitDebugRet, EmitDebugPair, EmitDebugR9, EmitCloseStack, EmitCloseBlob;
      hide Grown, Extends, DataGrown, Wf, Added, Zeros, Here, Blank;
      var key := AddBytes(LE4(slot));
      var attr := AddBytes(Zeros(ELEM_ATTR_SZ));
      MoveBlob2Blob(attr + ELEM_MAP_FD, W, FdSlot(outer));
      EmitRelStore(attr + ELEM_KEY, key);
      EmitRelStore(attr + ELEM_VALUE, FdSlot(inner));
      EmitSysBpf(BPF_MAP_UPDATE_ELEM, attr, ELEM_ATTR_SZ);
      DebugRet(MsgPopulateOuter(outer, slot, inner));
      EmitCheckErr();
    }

    // bpf_gen__map_freeze
    method FreezeMap(idx: int)
      requires Valid()
      modifies this
      ensures Valid() && State() == GenMapFreeze(cfg, old(State()), idx)
    {
      hide Emit, AddData, AddDebug, Insns, EmitDebugRet, EmitDebugPair, EmitDebugR9, EmitCloseStack, EmitCloseBlob;
      hide Grown, Extends, DataGrown, Wf, Added, Zeros, Here, Blank;
      var attr := AddBytes(Zeros(FREEZE_ATTR_SZ));
      MoveBlob2Blob(attr + ELEM_MAP_FD, W, FdSlot(idx));
      EmitSysBpf(BPF_MAP_FREEZE, attr, FREEZE_ATTR_SZ);
      DebugRet(MsgMapFreeze);
      EmitCheckErr();
    }

    // bpf_gen__record_attach_target, once the prefixed name is known
    method RecordAttachTarget(target: Bytes, kind: int)
      requires Valid()
      modifies this
      ensures Valid() && State() == GenRecordAttach(cfg, old(State()), target, kind)
    {
      attachKind := kind;
      if |target| >= 128 {
        error := -ENOSPC;
        return;
      }
      attachTarget := target;
    }

    // bpf_gen__record_extern
    method RecordExternRelo(r: Relo)
      requires Valid()
      modifies this
      ensures Valid() && State() == GenRecordExtern(cfg, old(State()), r)
    {
      relos := relos + [r];
    }

    // bpf_gen__record_relo_core
    method RecordReloCore(core: Bytes)
      requires Valid()
      modifies this
      ensures Valid() && State() == GenRecordCoreRelo(cfg, old(State()), core)
    {
      coreRelos := coreRelos + core;
    }

    // --- relocations

    // get_ksym_desc: the index of the name's entry, with one more reference
    method GetKsymDesc(r: Relo) returns (i: nat)
      requires Valid()
      modifies this`ksyms
      ensures Valid()
      ensures (ksyms, i) == RefKsym(old(ksyms), r)
    {
      i := 0;
      while i < |ksyms| && ksyms[i].name != r.name
        invariant 0 <= i <= |ksyms|
        invariant FindKsym(ksyms, r.name) == i + FindKsym(ksyms[i..], r.name)
      {
        assert ksyms[i..][1..] == ksyms[i + 1..];
        i := i + 1;
      }
      if i < |ksyms| {
        assert FindKsym(ksyms[i..], r.name) == 0;
        ksyms := ksyms[i := ksyms[i].(ref := ksyms[i].ref + 1)];
      } else {
        ksyms := ksyms + [Ksym(r.name, r.kind, 1, 0, 0)];
      }
    }

    // add_kfunc_btf_fd
    method AddKfuncBtfFd() returns (idx: int)
      requires Valid()
      modifies this`nrFdArray, this`data, this`pieces, this`error
      ensures Valid() && State() == AddKfuncFd(cfg, old(State())).0
      ensures error == 0 ==> idx == AddKfuncFd(cfg, old(State())).1
    {
      if nrFdArray == MAX_KFUNC_DESCS {
        var cur := AddBytes(Zeros(4));
        idx := (cur - fdArray) / 4;
      } else {
        idx := MAX_USED_MAPS + nrFdArray;
        nrFdArray := nrFdArray + 1;
      }
    }

    // emit_bpf_find_by_name_kind
    method EmitFindByNameKind(name: Bytes, kind: int)
      requires Valid()
      modifies this`insns, this`error, this`groups, this`data, this`pieces
      ensures Valid() && State() == EmitFindByName(cfg, old(State()), name, kind)
    {
      hide Emit, AddData, AddDebug, Insns, EmitDebugRet, EmitDebugPair, EmitDebugR9, EmitCloseStack, EmitCloseBlob;
      hide Grown, Extends, DataGrown, Wf, Added, Zeros, Here, Blank;
      var off := AddBytes(name + [0]);
      EmitFindCall(off, |name| + 1, kind);
      DebugRet(MsgFind(name, kind));
    }

    // emit_bpf_kallsyms_lookup_name
    method EmitKallsymsLookup(r: Relo)
      requires Valid()
      modifies this`insns, this`error, this`groups, this`data, this`pieces
      ensures Valid() && State() == EmitLookupName(cfg, old(State()), r)
    {
      hide Emit, AddData, AddDebug, Insns, EmitDebugRet, EmitDebugPair, EmitDebugR9, EmitCloseStack, EmitCloseBlob;
      hide Grown, Extends, DataGrown, Wf, Added, Zeros, Here, Blank;
      var off := AddBytes(r.name + [0]);
      var res := AddBytes(Zeros(8));
      EmitLookupCall(off, |r.name| + 1, res);
      DebugRet(MsgLookup(r.name, r.kind));
    }

    // emit_ksym_relo_log
    method EmitKsymReloLog(r: Relo, ref: nat)
      requires Valid()
      modifies this`insns, this`error, this`groups, this`data, this`pieces
      ensures Valid() && State() == KsymLog(cfg, old(State()), r, ref)
    {
      hide Emit, AddData, AddDebug, Insns, EmitDebugRet, EmitDebugPair, EmitDebugR9, EmitCloseStack, EmitCloseBlob;
      hide Grown, Extends, DataGrown, Wf, Added, Zeros, Here, Blank;
      if cfg.logLevel == 0 {
        return;
      }
      EmitLogKsym1();
      DebugPair(MsgKsym(r.name, ref, r.isTypeless, r.isWeak));
      EmitLogKsym2();
      DebugR9(MsgKsymReg(r.name, ref, r.isTypeless, r.isWeak));
    }

    // the log at the end of emit_relo_kfunc_btf
    method EmitKfuncReloLog(name: Bytes, ref: nat, off: int)
      requires Valid()
      modifies this`insns, this`error, this`groups, this`data, this`pieces
      ensures Valid() && State() == KfuncLog(cfg, old(State()), name, ref, off)
    {
      hide Emit, AddData, AddDebug, Insns, EmitDebugRet, EmitDebugPair, EmitDebugR9, EmitCloseStack, EmitCloseBlob;
      hide Grown, Extends, DataGrown, Wf, Added, Zeros, Here, Blank;
      if cfg.logLevel == 0 {
        return;
      }
      EmitLogKfunc1();
      DebugPair(MsgKfunc(name, ref));
      EmitLogKfunc2(FdSlot(off));
      DebugR9(MsgKfuncFd(name, ref));
    }

    // emit_relo_ksym_typeless
    method EmitReloKsymTypeless(r: Relo, insn: int)
      requires Valid()
      modifies this
      ensures Valid() && State() == ReloTypeless(cfg, old(State()), r, insn)
    {
      hide Emit, AddData, AddDebug, Insns, EmitDebugRet, EmitDebugPair, EmitDebugR9, EmitCloseStack, EmitCloseBlob;
      hide Grown, Extends, DataGrown, Wf, Added, Zeros, Here, Blank;
      var i := GetKsymDesc(r);
      if ksyms[i].ref > 1 {
        var ref, src := ksyms[i].ref, ksyms[i].insn;
        MoveBlob2Blob(insn + INSN_IMM, W, src + INSN_IMM);
        MoveBlob2Blob(insn + INSN_SZ + INSN_IMM, W, src + INSN_SZ + INSN_IMM);
        EmitKsymReloLog(r, ref);
        return;
      }
      ksyms := ksyms[i := ksyms[i].(off := 1, insn := insn)];
      EmitKallsymsLookup(r);
      EmitCheckErrUnlessEnoent();
      EmitStoreAddr();
      EmitKsymReloLog(r, 1);
    }

    // emit_relo_ksym_btf
    method EmitReloKsymBtf(r: Relo, insn: int)
      requires Valid()
      modifies this
      ensures Valid() && State() == ReloKsymBtf(cfg, old(State()), r, insn)
    {
      hide Emit, AddData, AddDebug, Insns, EmitDebugRet, EmitDebugPair, EmitDebugR9, EmitCloseStack, EmitCloseBlob;
      hide Grown, Extends, DataGrown, Wf, Added, Zeros, Here, Blank;
      var i := GetKsymDesc(r);
      if ksyms[i].ref > 1 {
        var ref, src := ksyms[i].ref, ksyms[i].insn;
        MoveBlob2Blob(insn + INSN_IMM, W, src + INSN_IMM);
        EmitCopyKsym(insn + INSN_SZ + INSN_IMM, src + INSN_SZ + INSN_IMM);
        EmitKsymReloLog(r, ref);
        return;
      }
      ksyms := ksyms[i := ksyms[i].(insn := insn)];
      EmitFindByNameKind(r.name, r.kind);
      if !r.isWeak {
        EmitCheckErr();
      }
      EmitStoreKsym();
      EmitKsymReloLog(r, 1);
    }

    // emit_relo_kfunc_btf
    method EmitReloKfuncBtf(r: Relo, insn: int)
      requires Valid()
      modifies this
      ensures Valid() && State() == ReloKfunc(cfg, old(State()), r, insn)
    {
      hide Emit, AddData, AddDebug, Insns, EmitDebugRet, EmitDebugPair, EmitDebugR9, EmitCloseStack, EmitCloseBlob;
      hide Grown, Extends, DataGrown, Wf, Added, Zeros, Here, Blank;
      hide RefKsym, FirstKfunc, KfuncLog;
      var i := GetKsymDesc(r);
      if ksyms[i].ref > 1 {
        var ref, src, off := ksyms[i].ref, ksyms[i].insn, ksyms[i].off;
        MoveBlob2Blob(insn + INSN_IMM, W, src + INSN_IMM);
        MoveBlob2Blob(insn + INSN_OFF, H, src + INSN_OFF);
        EmitKfuncReloLog(r.name, ref, off);
        return;
      }
      EmitFirstKfunc(r, i, insn);
    }

    method EmitFirstKfunc(r: Relo, i: nat, insn: int)
      requires Valid() && i < |ksyms|
      modifies this
      ensures Valid() && State() == FirstKfunc(cfg, old(State()), r, i, insn)
    {
      hide Emit, AddData, Insns, Grown, Extends, DataGrown, Wf, Added, Zeros, EmitFindByName, KfuncLog, AddKfuncFd;
      EmitFindByNameKind(r.name, r.kind);
      if !r.isWeak {
        EmitCheckErr();
      }
      var idx := AddKfuncBtfFd();
      if idx > INT16_MAX {
        error := -E2BIG;
        return;
      }
      ksyms := ksyms[i := ksyms[i].(off := idx, insn := insn)];
      EmitStoreKfunc(idx, FdSlot(idx));
      EmitKfuncReloLog(r.name, 1, idx);
    }

    // emit_relo
    method EmitReloc(r: Relo, insnsOff: int)
      requires Valid()
      modifies this
      ensures Valid() && State() == EmitRelo(cfg, old(State()), r, insnsOff)
    {
      hide Emit, AddData, AddDebug, Insns, EmitDebugRet, EmitDebugPair, EmitDebugR9, EmitCloseStack, EmitCloseBlob;
      hide Grown, Extends, DataGrown, Wf, Added, Zeros, Here, Blank;
      var insn := insnsOff + INSN_SZ * r.insnIdx;
      EmitLoadInsn(insn);
      if r.kind == BTF_KIND_VAR {
        if r.isTypeless {
          EmitReloKsymTypeless(r, insn);
        } else {
          EmitReloKsymBtf(r, insn);
        }
      } else if r.kind == BTF_KIND_FUNC {
        EmitReloKfuncBtf(r, insn);
      } else {
        error := -EDOM;
      }
    }

    // emit_relos
    method EmitAllRelos(insnsOff: int)
      requires Valid()
      modifies this
      ensures Valid() && State() == EmitRelos(cfg, old(State()), old(relos), insnsOff)
    {
      hide Emit, AddData, AddDebug, Insns, EmitDebugRet, EmitDebugPair, EmitDebugR9, EmitCloseStack, EmitCloseBlob;
      hide Grown, Extends, DataGrown, Wf, Added, Zeros, Here, Blank;
      var rs := relos;
      for i := 0 to |rs|
        invariant Valid()
        invariant EmitRelos(cfg, State(), rs[i..], insnsOff) == EmitRelos(cfg, old(State()), old(relos), insnsOff)
      {
        assert rs[i..][1..] == rs[i + 1..];
        EmitReloc(rs[i], insnsOff);
      }
    }

    // cleanup_relos
    method CleanupAllRelos()
      requires Valid()
      modifies this
      ensures Valid() && State() == CleanupRelos(cfg, old(State()))
    {
      hide CleanupKsym;
      hide Emit, AddData, AddDebug, Insns, EmitDebugRet, EmitDebugPair, EmitDebugR9, EmitCloseStack, EmitCloseBlob;
      hide Grown, Extends, DataGrown, Wf, Added, Zeros, Here, Blank;
      var ks := ksyms;
      for i := 0 to |ks|
        invariant Valid() && ksyms == ks
        invariant CleanupKsyms(cfg, State(), ks[i..]) == CleanupKsyms(cfg, old(State()), ks)
      {
        assert ks[i..][1..] == ks[i + 1..];
        CleanupKsymFd(ks[i]);
      }
      ksyms := [];
      relos := [];
      coreRelos := [];
    }

    // the close of one symbol's BTF descriptor
    method CleanupKsymFd(k: Ksym)
      requires Valid()
      modifies this
      ensures Valid() && State() == CleanupKsym(cfg, old(State()), k)
      ensures ksyms == old(ksyms)
    {
      hide Emit, AddData, AddDebug, Insns, EmitDebugRet, EmitDebugPair, EmitDebugR9, EmitCloseStack, EmitCloseBlob;
      hide Grown, Extends, DataGrown, Wf, Added, Zeros, Here, Blank;
      if k.kind == BTF_KIND_VAR && k.off == 0 {
        EmitSysCloseBlob(k.insn + INSN_SZ + INSN_IMM);
      } else if k.kind == BTF_KIND_FUNC {
        EmitSysCloseBlob(FdSlot(k.off));
        if k.off < MAX_FD_ARRAY_SZ {
          nrFdArray := nrFdArray - 1;
        }
      }
    }

    // emit_find_attach_target and the use of its result
    method EmitFindAttachTarget(attr: int)
      requires Valid()
      modifies this`insns, this`error, this`groups, this`data, this`pieces
      ensures Valid() && State() == EmitAttach(cfg, old(State()), attr)
    {
      hide Emit, AddData, AddDebug, Insns, EmitDebugRet, EmitDebugPair, EmitDebugR9, EmitCloseStack, EmitCloseBlob;
      hide Grown, Extends, DataGrown, Wf, Added, Zeros, Here, Blank;
      if attachKind != 0 {
        EmitFindByNameKind(attachTarget, attachKind);
        EmitCheckErr();
        EmitSaveAttach(attr);
      }
    }

    // bpf_gen__prog_load
    method LoadProg(s: ProgSpec)
      requires Valid()
      modifies this
      ensures Valid() && State() == GenProgLoad(cfg, old(State()), s)
    {
      hide EmitAttach, EmitRelos, CleanupRelos, CloseAttach, EmitProgPointers, EmitProgFields, AddProg;
      hide Emit, AddData, AddDebug, Insns, EmitDebugRet, EmitDebugPair, EmitDebugR9, EmitCloseStack, EmitCloseBlob;
      hide Grown, Extends, DataGrown, Wf, EmitProgLoad, SaveProg;
      var at := AddProgram(s);
      EmitProgPtrs(at);
      EmitProgRuntimeFields(at.attr);
      EmitFindAttachTarget(at.attr);
      EmitAllRelos(at.insns);
      EmitProgLoadCommand(s, at.attr);
      CleanupAllRelos();
      CloseAttachTarget(at.attr);
      EmitCheckErr();
      SaveProgFd();
    }

    method EmitProgLoadCommand(s: ProgSpec, attr: int)
      requires Valid()
      modifies this`insns, this`error, this`groups, this`data, this`pieces
      ensures Valid() && State() == EmitProgLoad(cfg, old(State()), s, attr)
    {
      hide Emit, AddData, AddDebug, Insns, EmitDebugRet, Grown, Extends, DataGrown, Wf;
      EmitSysBpf(BPF_PROG_LOAD, attr, PROG_ATTR_SZ);
      DebugRet(MsgProgLoad(s.name, |s.insns| / 8));
    }

    method SaveProgFd()
      requires Valid()
      modifies this`insns, this`error, this`groups, this`nrProgs
      ensures Valid() && State() == SaveProg(cfg, old(State()))
    {
      hide Emit, Insns, Grown, Extends, Wf;
      SaveR7ToStack(OffProgFd(nrProgs));
      nrProgs := nrProgs + 1;
    }

    method AddProgram(s: ProgSpec) returns (at: ProgBlob)
      requires Valid()
      modifies this`data, this`pieces, this`error
      ensures Valid() && State() == AddProg(cfg, old(State()), s, coreRelos).0
      ensures error == 0 ==> at == AddProg(cfg, old(State()), s, coreRelos).1
    {
      hide AddData, Insns;
      var license := AddBytes(s.license + [0]);
      var insnsOff := AddBytes(s.insns);
      var funcInfo := AddBytes(s.funcInfo);
      var lineInfo := AddBytes(s.lineInfo);
      var core := AddBytes(coreRelos);
      var attr := AddBytes(ProgAttr(s, coreRelos));
      at := ProgBlob(license, insnsOff, funcInfo, lineInfo, core, attr);
    }

    method CloseAttachTarget(attr: int)
      requires Valid()
      modifies this
      ensures Valid() && State() == CloseAttach(cfg, old(State()), attr)
    {
      hide Emit, AddData, AddDebug, Insns, EmitDebugRet, EmitDebugPair, EmitDebugR9, EmitCloseStack, EmitCloseBlob;
      hide Grown, Extends, DataGrown, Wf, Added, Zeros, Here, Blank;
      if attachKind != 0 {
        EmitSysCloseBlob(attr + ATTR_ATTACH_BTF_OBJ_FD);
        attachKind := 0;
      }
    }

    method EmitProgPtrs(at: ProgBlob)
      requires Valid()
      modifies this`insns, this`error, this`groups
      ensures Valid() && State() == EmitProgPointers(cfg, old(State()), at)
    {
      hide Emit, AddData, AddDebug, Insns, EmitDebugRet, EmitDebugPair, EmitDebugR9, EmitCloseStack, EmitCloseBlob;
      hide Grown, Extends, DataGrown, Wf, Added, Zeros, Here, Blank;
      EmitRelStore(at.attr + PROG_LICENSE, at.license);
      EmitRelStore(at.attr + PROG_INSNS, at.insns);
      EmitRelStore(at.attr + PROG_FUNC_INFO, at.funcInfo);
      EmitRelStore(at.attr + PROG_LINE_INFO, at.lineInfo);
      EmitRelStore(at.attr + PROG_CORE_RELOS, at.core);
      EmitRelStore(at.attr + PROG_FD_ARRAY, FD_ARRAY);
    }

    method EmitProgRuntimeFields(attr: int)
      requires Valid()
      modifies this`insns, this`error, this`groups
      ensures Valid() && State() == EmitProgFields(cfg, old(State()), attr)
    {
      hide Emit, AddData, AddDebug, Insns, EmitDebugRet, EmitDebugPair, EmitDebugR9, EmitCloseStack, EmitCloseBlob;
      hide Grown, Extends, DataGrown, Wf, Added, Zeros, Here, Blank;
      MoveCtx2Blob(attr + PROG_LOG_LEVEL, W, CTX_LOG_LEVEL, false);
      MoveCtx2Blob(attr + PROG_LOG_SIZE, W, CTX_LOG_SIZE, false);
      MoveCtx2Blob(attr + PROG_LOG_BUF, DW, CTX_LOG_BUF, false);
      MoveStack2Blob(attr + PROG_BTF_FD, W, OFF_BTF_FD);
    }

    // bpf_gen__finish: hands out the program and its blob unless an error is set
    method FinishLoader(progs: int, maps: int) returns (err: int, outInsns: seq<Insn>, outData: Bytes)
      requires Valid()
      modifies this
      ensures var g := Finish(cfg, old(State()), progs, maps);
        (err == 0 <==> g.Live?) && (err == 0 ==> outInsns == Program(cfg, g) && outData == g.data)
    {
      hide Emit, Insns, Wf, EmitCloseStack;
      outInsns, outData := [], [];
      if progs < nrProgs || maps != nrMaps {
        error := -EFAULT;
        return error, outInsns, outData;
      }
      EmitSysCloseStack(OFF_BTF_FD);
      ghost var g1 := State();
      for i := 0 to nrProgs
        invariant Valid() && nrProgs == old(nrProgs) && nrMaps == old(nrMaps)
        invariant State() == EmitAll(cfg, g1, ProgFds(nrMaps, i))
      {
        EmitSnoc(cfg, g1, ProgFds(nrMaps, i), Stack2Ctx(CtxProgFd(nrMaps, i), W, OffProgFd(i)));
        MoveStack2Ctx(CtxProgFd(nrMaps, i), W, OffProgFd(i));
      }
      ghost var g2 := State();
      for i := 0 to nrMaps
        invariant Valid() && nrMaps == old(nrMaps)
        invariant State() == EmitAll(cfg, g2, MapFds(i))
      {
        EmitSnoc(cfg, g2, MapFds(i), Blob2Ctx(CtxMapFd(i), W, FdSlot(i)));
        MoveBlob2Ctx(CtxMapFd(i), W, FdSlot(i));
      }
      EmitCode([MovImm(0, 0), Exit]);
      if error == 0 {
        outInsns, outData := insns, data;
      }
      err := error;
    }
  }
}
