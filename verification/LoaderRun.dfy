/** A finished loader program halts, for every outcome of its helper calls, with exactly the exit
    code, memory and event trace that the meaning of its instruction groups gives. */
module LoaderRun {
  import opened LoaderBytes
  import opened LoaderMachine
  import opened LoaderIR
  import opened LoaderExec
  import opened LoaderGen

  // The jump over the cleanup code fits its 16-bit field and the stack slots lie in the frame.
  predicate ValidConfig(cfg: Config) {
    cfg.nrProgs <= MAX_USED_PROGS && cfg.nrMaps <= MAX_USED_MAPS
    && cfg.insnLimit * 8 <= INT32_MAX && cfg.dataLimit <= INT32_MAX
  }

  // The state the kernel starts the loader in: any stack, the blob and the caller's context.
  function Start(stack: Bytes, blob: Bytes, ctx: Bytes): State {
    Running(0, Regs(Junk, CtxPtr(0), Junk, Junk, Junk, Junk, Junk, Junk, Junk, Junk, StackPtr(0)),
            World(stack, blob, ctx, [], 0, true))
  }

  // What the groups see once the stack is cleared.
  function Begin(blob: Bytes, ctx: Bytes): M {
    M(Junk, Junk, Junk, World(Zeros(STACK_SZ), blob, ctx, [], 1, true))
  }

  // Structured reading of the whole program: the groups in order; at a failed check the cleanup
  // closes, with the failing result as exit code.
  function Meaning(cfg: Config, groups: seq<Group>, blob: Bytes, ctx: Bytes, env: Env): (Val, World) {
    match DenAll(env, groups, Begin(blob, ctx))
    case Next(m) => (Num(0), m.w)
    case Err(m) => (m.r7, DenAll(env, CleanupGroups(cfg), m).m.w)
  }

  predicate IsClose(g: Group) {
    g.CloseStackQuiet? || g.CloseBlob?
  }

  lemma {:induction false} OnlyCloses(env: Env, gs: seq<Group>, m: M)
    requires forall g | g in gs :: IsClose(g)
    ensures DenAll(env, gs, m).Next? && DenAll(env, gs, m).m.r7 == m.r7
    decreases |gs|
  {
    if gs != [] {
      assert IsClose(gs[0]);
      OnlyCloses(env, gs[1..], Den(env, gs[0], m).m);
    }
  }

  lemma {:induction false} QuietClosesAre(n: nat)
    ensures forall g | g in QuietCloses(n) :: IsClose(g)
  {
    if n > 0 {
      QuietClosesAre(n - 1);
    }
  }

  lemma {:induction false} MapClosesAre(cfg: Config, g: Gen, n: nat)
    ensures forall c | c in MapCloses(cfg, g, n).1 :: IsClose(c)
  {
    if n > 0 {
      MapClosesAre(cfg, g, n - 1);
    }
  }

  lemma CleanupCloses(cfg: Config)
    ensures forall g | g in CleanupGroups(cfg) :: IsClose(g)
  {
    QuietClosesAre(NrProgsSz(cfg) / 4);
    MapClosesAre(cfg, ReserveFds(cfg), cfg.nrMaps);
  }

  // --- the cleanup code has the length its leading jump was computed for

  lemma {:induction false} QuietClosesLength(n: nat, pos: int)
    ensures |Flat(QuietCloses(n), pos, CLEANUP)| == 3 * n
  {
    if n > 0 {
      var c := CloseStackQuiet(-STACK_SZ + 4 * (n - 1));
      QuietClosesLength(n - 1, pos);
      FlatAppend(QuietCloses(n - 1), [c], pos, CLEANUP);
      FlatSingle(c, pos + 3 * (n - 1));
    }
  }

  lemma MapCloseLength(cfg: Config, g: Group, pos: int)
    requires g.CloseBlob? && (g.dbg.Dbg? <==> cfg.logLevel != 0)
    ensures |Code(g, pos, CLEANUP)| == 6 + (if cfg.logLevel != 0 then 6 else 0)
  {
  }

  lemma FlatNone(pos: int)
    ensures Flat([], pos, CLEANUP) == []
  {
  }

  lemma {:induction false} MapClosesLength(cfg: Config, g: Gen, n: nat, pos: int)
    ensures |Flat(MapCloses(cfg, g, n).1, pos, CLEANUP)| == n * (6 + (if cfg.logLevel != 0 then 6 else 0))
  {
    hide Flat, AddData, Code;
    if n > 0 {
      var (g1, gs) := MapCloses(cfg, g, n - 1);
      MapClosesLength(cfg, g, n - 1, pos);
      var c := MapCloses(cfg, g, n).1[|gs|];
      assert MapCloses(cfg, g, n).1 == gs + [c];
      FlatSnoc(gs, c, pos);
      MapCloseLength(cfg, c, pos + |Flat(gs, pos, CLEANUP)|);
    } else {
      FlatNone(pos);
    }
  }

  // The jump emitted before the cleanup code lands just behind it.
  lemma CleanupLength(cfg: Config)
    ensures CleanupJump(cfg) == Ja(|Flat(CleanupGroups(cfg), CLEANUP, CLEANUP)| + |RETURN_R7|)
  {
    hide Flat, QuietCloses, MapCloses, ReserveFds, Code;
    var n := NrProgsSz(cfg) / 4;
    var q := QuietCloses(n);
    var ms := MapCloses(cfg, ReserveFds(cfg), cfg.nrMaps).1;
    FlatAppend(q, ms, CLEANUP, CLEANUP);
    QuietClosesLength(n, CLEANUP);
    MapClosesLength(cfg, ReserveFds(cfg), cfg.nrMaps, CLEANUP + 3 * n);
  }

  // --- the run

  lemma CodeIn(p: seq<Insn>, before: seq<Insn>, code: seq<Insn>, after: seq<Insn>)
    requires p == before + code + after
    ensures CodeAt(p, |before|, code)
  {
    forall i {:trigger code[i]} | 0 <= i < |code| ensures p[|before| + i] == code[i] {
      assert (before + code)[|before| + i] == code[i];
    }
  }

  lemma RunSetup(cfg: Config, p: seq<Insn>, env: Env, stack: Bytes, blob: Bytes, ctx: Bytes)
    requires |stack| == STACK_SZ
    requires CodeAt(p, 0, SETUP + [CleanupJump(cfg)])
    ensures exists r: Regs ::
              Match(r, Begin(blob, ctx))
              && Reaches(p, env, Start(stack, blob, ctx), Running(|Prologue(cfg)|, r, Begin(blob, ctx).w))
  {
    hide Step, Reaches, Flat, CleanupGroups;
    var c := SETUP + [CleanupJump(cfg)];
    assert c[0] == MovReg(6, 1) && c[1] == MovReg(1, 10) && c[2] == AddImm(1, -STACK_SZ);
    assert c[3] == MovImm(2, STACK_SZ) && c[4] == MovImm(3, 0) && c[5] == Call(ProbeReadKernel) && c[6] == CleanupJump(cfg);
    var s0 := Start(stack, blob, ctx);
    ReachesSelf(p, env, s0);
    var s1 := AfterMovReg(p, env, s0, s0, 6, 1);
    var s2 := AfterMovReg(p, env, s0, s1, 1, 10);
    var s3 := AfterAddImm(p, env, s0, s2, 1, -STACK_SZ);
    var s4 := AfterMovImm(p, env, s0, s3, 2, STACK_SZ);
    var s5 := AfterMovImm(p, env, s0, s4, 3, 0);
    var s6 := AfterCall(p, env, s0, s5, ProbeReadKernel);
    assert s6.w.stack == Zeros(STACK_SZ);
    CleanupLength(cfg);
    var s7 := AfterJa(p, env, s0, s6, CleanupJump(cfg).off);
    assert Match(s7.regs, Begin(blob, ctx));
  }

  lemma RunReturn(p: seq<Insn>, env: Env, a: State, pos: int, r: Regs, w: World, first: Insn)
    requires Reaches(p, env, a, Running(pos, r, w)) && CodeAt(p, pos, [first, Exit])
    requires (first == MovReg(0, 7) && r.r7.Num?) || first == MovImm(0, 0)
    ensures Reaches(p, env, a, Halted(if first == MovImm(0, 0) then Num(0) else r.r7, w))
  {
    hide Step, Reaches;
    var c := [first, Exit];
    assert c[0] == first && c[1] == Exit;
    var s := Running(pos, r, w);
    if first == MovImm(0, 0) {
      var s1 := AfterMovImm(p, env, a, s, 0, 0);
      var s2 := AfterExit(p, env, a, s1);
    } else {
      var s1 := AfterMovReg(p, env, a, s, 0, 7);
      var s2 := AfterExit(p, env, a, s1);
    }
  }

  lemma {:induction false} ErrHasNegativeR7(env: Env, gs: seq<Group>, m: M)
    ensures var o := DenAll(env, gs, m); o.Err? ==> o.m.r7.Num? && o.m.r7.v < 0
    decreases |gs|
  {
    if gs != [] {
      var o := Den(env, gs[0], m);
      if o.Next? {
        ErrHasNegativeR7(env, gs[1..], o.m);
      } else {
        assert gs[0].CheckErr? || gs[0].CheckErrUnlessEnoent?;
      }
    }
  }

  // A run that reached the end of the groups returns 0.
  lemma RunEnd(cfg: Config, groups: seq<Group>, env: Env, a: State, r: Regs, w: World)
    requires var p := Insns(cfg, groups) + RETURN_0; Reaches(p, env, a, Running(|Insns(cfg, groups)|, r, w))
    ensures Reaches(Insns(cfg, groups) + RETURN_0, env, a, Halted(Num(0), w))
  {
    hide Step, Reaches, Insns;
    var body := Insns(cfg, groups);
    var p := body + RETURN_0;
    assert p == body + RETURN_0 + [];
    CodeIn(p, body, RETURN_0, []);
    RunReturn(p, env, a, |body|, r, w, MovImm(0, 0));
  }

  // A run that reached the cleanup label closes what it has to and returns the failing result.
  lemma RunCleanup(cfg: Config, groups: seq<Group>, env: Env, a: State, r: Regs, m: M)
    requires Match(r, m) && m.r7.Num?
    requires Reaches(Insns(cfg, groups) + RETURN_0, env, a, Running(CLEANUP, r, m.w))
    ensures Reaches(Insns(cfg, groups) + RETURN_0, env, a, Halted(m.r7, DenAll(env, CleanupGroups(cfg), m).m.w))
  {
    hide Step, Reaches, Flat, DenAll, CleanupGroups;
    var p := Insns(cfg, groups) + RETURN_0;
    var head := SETUP + [CleanupJump(cfg)];
    var clean := Flat(CleanupGroups(cfg), CLEANUP, CLEANUP);
    var rest := Flat(groups, |Prologue(cfg)|, CLEANUP) + RETURN_0;
    assert p == head + clean + (RETURN_R7 + rest);
    CodeIn(p, head, clean, RETURN_R7 + rest);
    ExecAll(p, env, CLEANUP, CLEANUP, CleanupGroups(cfg), r, m);
    CleanupCloses(cfg);
    OnlyCloses(env, CleanupGroups(cfg), m);
    var out := DenAll(env, CleanupGroups(cfg), m);
    var r2: Regs :| Match(r2, out.m)
      && Reaches(p, env, Running(CLEANUP, r, m.w), Running(CLEANUP + |clean|, r2, out.m.w));
    ReachesTrans(p, env, a, Running(CLEANUP, r, m.w), Running(CLEANUP + |clean|, r2, out.m.w));
    assert p == (head + clean) + RETURN_R7 + rest;
    CodeIn(p, head + clean, RETURN_R7, rest);
    RunReturn(p, env, a, CLEANUP + |clean|, r2, out.m.w, MovReg(0, 7));
  }

  // The run up to the end of the groups or the cleanup label.
  lemma RunGroups(cfg: Config, groups: seq<Group>, env: Env, stack: Bytes, blob: Bytes, ctx: Bytes) returns (r: Regs)
    requires |stack| == STACK_SZ
    ensures var o := DenAll(env, groups, Begin(blob, ctx));
      Match(r, o.m)
      && Reaches(Insns(cfg, groups) + RETURN_0, env, Start(stack, blob, ctx),
                 Running(if o.Next? then |Insns(cfg, groups)| else CLEANUP, r, o.m.w))
  {
    hide Step, Reaches, Flat, DenAll, CleanupGroups;
    var p := Insns(cfg, groups) + RETURN_0;
    var head := SETUP + [CleanupJump(cfg)];
    var main := Flat(groups, |Prologue(cfg)|, CLEANUP);
    var tail := Flat(CleanupGroups(cfg), CLEANUP, CLEANUP) + RETURN_R7 + main + RETURN_0;
    var s, m0 := Start(stack, blob, ctx), Begin(blob, ctx);
    assert p == [] + head + tail;
    CodeIn(p, [], head, tail);
    RunSetup(cfg, p, env, stack, blob, ctx);
    var pos := |Prologue(cfg)|;
    var r0: Regs :| Match(r0, m0) && Reaches(p, env, s, Running(pos, r0, m0.w));
    CodeIn(p, Prologue(cfg), main, RETURN_0);
    ExecAll(p, env, pos, CLEANUP, groups, r0, m0);
    var out := DenAll(env, groups, m0);
    var to := if out.Next? then pos + |main| else CLEANUP;
    r :| Match(r, out.m) && Reaches(p, env, Running(pos, r0, m0.w), Running(to, r, out.m.w));
    ReachesTrans(p, env, s, Running(pos, r0, m0.w), Running(to, r, out.m.w));
  }

  // Compiler correctness: whatever the API calls were, the program halts as its groups say.
  lemma ProgramCorrect(cfg: Config, groups: seq<Group>, env: Env, stack: Bytes, blob: Bytes, ctx: Bytes)
    requires |stack| == STACK_SZ
    ensures var (code, w) := Meaning(cfg, groups, blob, ctx, env);
      Reaches(Insns(cfg, groups) + RETURN_0, env, Start(stack, blob, ctx), Halted(code, w))
  {
    hide Reaches, DenAll, Insns, CleanupGroups;
    var s, m0 := Start(stack, blob, ctx), Begin(blob, ctx);
    var r := RunGroups(cfg, groups, env, stack, blob, ctx);
    var out := DenAll(env, groups, m0);
    ErrHasNegativeR7(env, groups, m0);
    if out.Next? {
      RunEnd(cfg, groups, env, s, r, out.m.w);
    } else {
      RunCleanup(cfg, groups, env, s, r, out.m);
    }
  }
}
