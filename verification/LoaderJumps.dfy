/** Every jump of a finished loader program lands on the first slot of an instruction of the
    program and fits its 16-bit offset field; skips stay inside the group they belong to. */
module LoaderJumps {
  import opened LoaderBytes
  import opened LoaderMachine
  import opened LoaderIR
  import opened LoaderGen
  import opened LoaderRun

  predicate IsJump(i: Insn) {
    i.Ja? || i.Jmp?
  }

  // The slot a jump at slot pos goes to.
  function Target(i: Insn, pos: int): int
    requires IsJump(i)
  {
    pos + 1 + i.off
  }

  // The two slots of a 64-bit load come together.
  predicate Paired(code: seq<Insn>, i: nat)
    requires i < |code|
  {
    code[i].LoadBlob? <==> (i + 1 < |code| && code[i + 1].High?)
  }

  // Code at pos in which every jump fits its field and goes to the cleanup label, or to the first
  // slot of an instruction of this code, or to its very end.
  ghost predicate Tidy(code: seq<Insn>, pos: int) {
    (code != [] ==> !code[0].High?)
    && (forall i | 0 <= i < |code| :: Paired(code, i))
    && forall i | 0 <= i < |code| && IsJump(code[i]) ::
         IsSimm16(code[i].off)
         && var t := Target(code[i], pos + i);
            t == CLEANUP || t == pos + |code| || (pos <= t < pos + |code| && !code[t - pos].High?)
  }

  lemma TidyConcat(a: seq<Insn>, b: seq<Insn>, pos: int)
    requires Tidy(a, pos) && Tidy(b, pos + |a|)
    ensures Tidy(a + b, pos)
  {
    var c := a + b;
    forall i | 0 <= i < |c| ensures Paired(c, i) {
      if i < |a| {
        assert c[i] == a[i];
        assert Paired(a, i);
        if i + 1 < |a| { assert c[i + 1] == a[i + 1]; } else if b != [] { assert c[i + 1] == b[0]; }
      } else {
        var j := i - |a|;
        assert c[i] == b[j];
        assert Paired(b, j);
        if i + 1 < |c| { assert c[i + 1] == b[j + 1]; }
      }
    }
    forall i | 0 <= i < |c| && IsJump(c[i])
      ensures IsSimm16(c[i].off)
        && var t := Target(c[i], pos + i); t == CLEANUP || t == pos + |c| || (pos <= t < pos + |c| && !c[t - pos].High?)
    {
      if i < |a| {
        assert c[i] == a[i];
        var t := Target(a[i], pos + i);
        if pos <= t < pos + |a| {
          assert c[t - pos] == a[t - pos];
        } else if t == pos + |a| && b != [] {
          assert c[|a|] == b[0];
        }
      } else {
        assert c[i] == b[i - |a|];
        var t := Target(b[i - |a|], pos + |a| + (i - |a|));
        if pos + |a| <= t < pos + |c| {
          assert c[t - pos] == b[t - pos - |a|];
        }
      }
    }
  }

  ghost predicate NoJumps(code: seq<Insn>) {
    (code != [] ==> !code[0].High?)
    && (forall i | 0 <= i < |code| :: Paired(code, i))
    && forall i | 0 <= i < |code| :: !IsJump(code[i])
  }

  predicate Jumps(g: Group) {
    match g
    case Ctx2Blob(_, _, _, check) => check
    case CheckErr => true
    case CheckErrUnlessEnoent => true
    case CloseStack(_, _) => true
    case CloseBlob(_, _) => true
    case CloseStackQuiet(_) => true
    case InitialValue(_, _, _) => true
    case StoreKfunc(_, _) => true
    case StoreKsym => true
    case CopyKsym(_, _) => true
    case _ => false
  }

  predicate Prints(g: Group) {
    g.DebugRet? || g.DebugPair? || g.DebugR9?
  }

  lemma PrintFree(g: Group, pos: int)
    requires Prints(g)
    ensures NoJumps(Code(g, pos, CLEANUP))
  {
  }

  predicate Moves(g: Group) {
    g.RelStore? || g.Blob2Blob? || g.Blob2Ctx? || g.Ctx2Blob? || g.Stack2Blob? || g.Stack2Ctx?
    || g.SaveToStack? || g.SaveToBlob? || g.SaveAttach? || g.StoreAddr?
  }

  lemma MoveFree(g: Group, pos: int)
    requires Moves(g) && !Jumps(g)
    ensures NoJumps(Code(g, pos, CLEANUP))
  {
  }

  lemma CallFree(g: Group, pos: int)
    requires !Jumps(g) && !Prints(g) && !Moves(g)
    ensures NoJumps(Code(g, pos, CLEANUP))
  {
  }

  lemma JumpFree(g: Group, pos: int)
    requires !Jumps(g)
    ensures NoJumps(Code(g, pos, CLEANUP))
  {
    hide Code, NoJumps;
    if Prints(g) {
      PrintFree(g, pos);
    } else if Moves(g) {
      MoveFree(g, pos);
    } else {
      CallFree(g, pos);
    }
  }

  lemma CheckTidy(g: Group, pos: int)
    requires (g.CheckErr? || g.CheckErrUnlessEnoent?) && pos >= CLEANUP && Reachable(g, pos)
    ensures Tidy(Code(g, pos, CLEANUP), pos)
  {
  }

  lemma CloseCodeTidy(dbg: Dbg, pos: int)
    requires pos >= CLEANUP
    ensures Tidy(CloseCode(dbg), pos)
  {
  }

  lemma CloseTidy(g: Group, pos: int)
    requires (g.CloseStack? || g.CloseBlob? || g.CloseStackQuiet?) && pos >= CLEANUP
    ensures Tidy(Code(g, pos, CLEANUP), pos)
  {
    hide CloseCode;
    if g.CloseStack? {
      CloseCodeTidy(g.dbg, pos + 1);
      TidyConcat([Ldx(W, 1, 10, g.stackOff)], CloseCode(g.dbg), pos);
    } else if g.CloseBlob? {
      CloseCodeTidy(g.dbg, pos + 3);
      TidyConcat([LoadBlob(0), High(g.blobOff), Ldx(W, 1, 0, 0)], CloseCode(g.dbg), pos);
    }
  }

  lemma SymbolTidy(g: Group, pos: int)
    requires (g.StoreKsym? || g.CopyKsym?) && pos >= CLEANUP
    ensures Tidy(Code(g, pos, CLEANUP), pos)
  {
  }

  lemma KfuncTidy(g: Group, pos: int)
    requires g.StoreKfunc? && pos >= CLEANUP
    ensures Tidy(Code(g, pos, CLEANUP), pos)
  {
  }

  lemma CopyTidy(g: Group, pos: int)
    requires (g.Ctx2Blob? || g.InitialValue?) && pos >= CLEANUP
    ensures Tidy(Code(g, pos, CLEANUP), pos)
  {
  }

  // Each emitting helper's hand-counted offsets are right.
  lemma GroupTidy(g: Group, pos: int)
    requires pos >= CLEANUP && Reachable(g, pos)
    ensures Tidy(Code(g, pos, CLEANUP), pos)
  {
    hide Code;
    if !Jumps(g) {
      JumpFree(g, pos);
    } else if g.CheckErr? || g.CheckErrUnlessEnoent? {
      CheckTidy(g, pos);
    } else if g.StoreKsym? || g.CopyKsym? {
      SymbolTidy(g, pos);
    } else if g.StoreKfunc? {
      KfuncTidy(g, pos);
    } else if g.Ctx2Blob? || g.InitialValue? {
      CopyTidy(g, pos);
    } else {
      CloseTidy(g, pos);
    }
  }

  // The slots of a group whose jumps skip the rest of the group.
  function Skips(g: Group): set<nat> {
    match g
    case Ctx2Blob(_, _, _, check) => if check then {1} else {}
    case CloseStack(_, _) => {1}
    case CloseBlob(_, _) => {3}
    case CloseStackQuiet(_) => {1}
    case InitialValue(_, _, _) => {1, 8}
    case StoreKfunc(_, _) => {3, 9}
    case StoreKsym => {7}
    case CopyKsym(_, _) => {6}
    case _ => {}
  }

  // Every skip lands exactly behind its group, and every error check on the cleanup label.
  lemma SkipsLand(g: Group, pos: int, i: nat)
    ensures var c := Code(g, pos, CLEANUP);
      i in Skips(g) ==> i < |c| && IsJump(c[i]) && Target(c[i], pos + i) == pos + |c|
    ensures var c := Code(g, pos, CLEANUP);
      (g.CheckErr? || g.CheckErrUnlessEnoent?) ==>
        c[|c| - 1] == Jmp(JSLT, 7, 0, c[|c| - 1].off) && Target(c[|c| - 1], pos + |c| - 1) == CLEANUP
  {
  }

  lemma OneMoreTidy(cfg: Config, rest: seq<Group>, g: Group)
    requires Tidy(Flat(rest, |Prologue(cfg)|, CLEANUP), |Prologue(cfg)|)
    requires Reachable(g, |Insns(cfg, rest)|)
    ensures Tidy(Flat(rest + [g], |Prologue(cfg)|, CLEANUP), |Prologue(cfg)|)
  {
    hide Code, Prologue, Flat, Tidy;
    var base := |Prologue(cfg)|;
    var f := Flat(rest, base, CLEANUP);
    PrologueLength(cfg);
    GroupTidy(g, base + |f|);
    FlatSnoc(rest, g, base);
    TidyConcat(f, Code(g, base + |f|, CLEANUP), base);
  }

  lemma {:induction false} GroupsTidy(cfg: Config, groups: seq<Group>)
    requires Placed(cfg, groups)
    ensures Tidy(Flat(groups, |Prologue(cfg)|, CLEANUP), |Prologue(cfg)|)
    decreases |groups|
  {
    hide Code, Prologue;
    if groups != [] {
      hide Flat, Tidy, Insns;
      var n := |groups| - 1;
      GroupsTidy(cfg, groups[..n]);
      OneMoreTidy(cfg, groups[..n], groups[n]);
      assert groups == groups[..n] + [groups[n]];
    }
  }

  lemma PrologueLength(cfg: Config)
    ensures |Prologue(cfg)| >= CLEANUP
  {
  }

  lemma {:induction false} ClosesTidy(gs: seq<Group>, pos: int)
    requires pos >= CLEANUP && forall g | g in gs :: IsClose(g)
    ensures Tidy(Flat(gs, pos, CLEANUP), pos)
    decreases |gs|
  {
    hide Code;
    if gs != [] {
      assert IsClose(gs[0]);
      var c := Code(gs[0], pos, CLEANUP);
      CloseTidy(gs[0], pos);
      ClosesTidy(gs[1..], pos + |c|);
      TidyConcat(c, Flat(gs[1..], pos + |c|, CLEANUP), pos);
    }
  }

  // Setting up and jumping over well-formed code keeps it well-formed.
  lemma HeadTidy(cfg: Config, rest: seq<Insn>)
    requires ValidConfig(cfg) && Tidy(rest, CLEANUP) && rest != []
    requires CleanupJump(cfg) == Ja(|rest|)
    ensures var c := SETUP + [CleanupJump(cfg)] + rest;
      Tidy(c, 0) && |c| > CLEANUP && !c[CLEANUP].High?
  {
    var head := SETUP + [CleanupJump(cfg)];
    var c := head + rest;
    assert head[6] == CleanupJump(cfg);
    forall i | 0 <= i < |c| ensures Paired(c, i) {
      if i < |head| {
        assert c[i] == head[i];
        if i + 1 == |head| { assert c[i + 1] == rest[0]; } else { assert c[i + 1] == head[i + 1]; }
      } else {
        assert c[i] == rest[i - |head|] && Paired(rest, i - |head|);
        if i + 1 < |c| { assert c[i + 1] == rest[i - |head| + 1]; }
      }
    }
    forall i | 0 <= i < |c| && IsJump(c[i])
      ensures IsSimm16(c[i].off)
        && var t := Target(c[i], i); t == CLEANUP || t == |c| || (0 <= t < |c| && !c[t].High?)
    {
      if i < |head| {
        assert c[i] == head[i];
      } else {
        assert c[i] == rest[i - |head|];
        var t := Target(c[i], i);
        if CLEANUP <= t < |c| { assert c[t] == rest[t - CLEANUP]; }
      }
    }
  }

  // The jump over the cleanup code stays within its field for every loader the skeleton allows.
  lemma PrologueTidy(cfg: Config)
    requires ValidConfig(cfg)
    ensures Tidy(Prologue(cfg), 0)
    ensures |Prologue(cfg)| > CLEANUP && !Prologue(cfg)[CLEANUP].High?
  {
    hide Flat, CleanupGroups;
    var clean := Flat(CleanupGroups(cfg), CLEANUP, CLEANUP);
    CleanupCloses(cfg);
    ClosesTidy(CleanupGroups(cfg), CLEANUP);
    CleanupLength(cfg);
    assert Tidy(RETURN_R7, CLEANUP + |clean|);
    TidyConcat(clean, RETURN_R7, CLEANUP);
    assert Prologue(cfg) == SETUP + [CleanupJump(cfg)] + (clean + RETURN_R7);
    HeadTidy(cfg, clean + RETURN_R7);
  }

  lemma BodyTidy(cfg: Config, groups: seq<Group>)
    requires ValidConfig(cfg) && Placed(cfg, groups)
    ensures Tidy(Insns(cfg, groups), 0)
    ensures |Insns(cfg, groups)| > CLEANUP && !Insns(cfg, groups)[CLEANUP].High?
  {
    hide Flat, Prologue, Tidy;
    PrologueTidy(cfg);
    GroupsTidy(cfg, groups);
    TidyConcat(Prologue(cfg), Flat(groups, |Prologue(cfg)|, CLEANUP), 0);
  }

  // Every jump of a finished program, whatever API calls built it: relocations, inner maps, attach
  // targets and weak symbols included, at every log level.
  lemma JumpsLand(cfg: Config, ops: seq<Op>, nrProgs: int, nrMaps: int, i: nat)
    requires ValidConfig(cfg)
    requires Finish(cfg, ApplyAll(cfg, ops), nrProgs, nrMaps).Live?
    requires var p := Program(cfg, Finish(cfg, ApplyAll(cfg, ops), nrProgs, nrMaps)); i < |p| && IsJump(p[i])
    ensures var p := Program(cfg, Finish(cfg, ApplyAll(cfg, ops), nrProgs, nrMaps));
      IsSimm16(p[i].off) && 0 <= Target(p[i], i) < |p| && !p[Target(p[i], i)].High?
  {
    hide ApplyAll, Finish, Insns, Prologue;
    var g := Finish(cfg, ApplyAll(cfg, ops), nrProgs, nrMaps);
    FinishWf(cfg, ops, nrProgs, nrMaps);
    var body, p := Insns(cfg, g.groups), Program(cfg, g);
    BodyTidy(cfg, g.groups);
    assert p == body + RETURN_0 && RETURN_0[0] == MovImm(0, 0) && RETURN_0[1] == Exit;
    assert i < |body|;
    var t := Target(body[i], i);
    if t == |body| {
      assert p[t] == RETURN_0[0];
    } else {
      assert p[t] == body[t];
    }
  }

  lemma {:induction false} ApplyAllWf(cfg: Config, ops: seq<Op>)
    ensures Wf(cfg, ApplyAll(cfg, ops))
    decreases |ops|
  {
    hide Apply;
    if ops == [] {
      InsnsNone(cfg);
    } else {
      ApplyAllWf(cfg, ops[..|ops| - 1]);
    }
  }

  lemma FinishWf(cfg: Config, ops: seq<Op>, nrProgs: int, nrMaps: int)
    ensures Wf(cfg, Finish(cfg, ApplyAll(cfg, ops), nrProgs, nrMaps))
  {
    hide ApplyAll;
    ApplyAllWf(cfg, ops);
  }
}
