/** Runs of all API calls of a loader: every run follows the account to its end or stops at a request
    that failed, with everything before it accounted for. */
module LoaderTheorem {
  import opened LoaderBytes
  import opened LoaderMachine
  import opened LoaderIR
  import opened LoaderGen
  import opened LoaderRun
  import opened LoaderFrame
  import opened LoaderShape
  import opened LoaderLedger
  import opened LoaderFollow
  import opened LoaderSave
  import opened LoaderGiven
  import opened LoaderKfunc
  import opened LoaderProg
  import opened LoaderLoad

  // --- a command that is not a program

  // The BTF's descriptor saved on the stack.
  lemma AdvanceBtf(env: Env, g: Gen, g': Gen, raw: Bytes, p: Pending, m: M, m2: M, e: Event, d: Bytes, ctx: Bytes,
    cs: seq<Request>)
    requires g'.Live? && Tracks(env, g, m.w, d, ctx, cs) && |g.data| <= |g'.data| <= |d|
    requires e.Bpf? && Issued(m.w, m2.w, e, |g.data|, |g'.data|) && 0 <= e.ret < 0x8000_0000 && m2.r7 == Num(e.ret)
    requires Given(env, Do(LoadBtf(raw), p), LedgerAfter(cs), Calls(m.w.trace), ctx, e)
    requires g'.nrMaps == g.nrMaps && g'.nrProgs == g.nrProgs
    ensures Den(env, SaveToStack(OFF_BTF_FD), m2).Next?
    ensures Tracks(env, g', Den(env, SaveToStack(OFF_BTF_FD), m2).m.w, d, ctx, cs + [Do(LoadBtf(raw), p)])
  {
    hide Given, InPlace, Calls, Play, Den, Put, Followed, LedgerAfter;
    var c, l, es := Do(LoadBtf(raw), p), LedgerAfter(cs), Calls(m.w.trace) + [e];
    IssuedInPlace(m.w, m2.w, e, |g.data|, |g'.data|, cs);
    StackSize(m2.w, l, es);
    SaveStack(env, m2, OFF_BTF_FD, e.ret);
    OwnDescriptor(Calls(m.w.trace), e);
    var w3, l1 := Den(env, SaveToStack(OFF_BTF_FD), m2).m.w, l.(btf := Of(|cs|));
    StackPlace(m2.w, w3, l, l1, es, OFF_BTF_FD, e.ret);
    assert Answered(l, c, |cs|) == l.script + [Issue(|cs|)];
    InPlaceSame(w3, l1, Perform(l, c, |cs|), es);
    Assemble(env, g, g', c, m.w, w3, e, d, ctx, cs);
  }

  // The state after a map has been saved, before an inner map is closed.
  lemma SaveMap(env: Env, g: Gen, g': Gen, idx: int, m: M, m2: M, e: Event, d: Bytes, ctx: Bytes, cs: seq<Request>)
    returns (m3: M, l3: Ledger)
    requires g'.Live? && Tracks(env, g, m.w, d, ctx, cs) && |g.data| <= |g'.data| <= |d|
    requires e.Bpf? && Issued(m.w, m2.w, e, |g.data|, |g'.data|) && 0 <= e.ret < 0x8000_0000 && m2.r7 == Num(e.ret)
    requires idx >= 0 ==> idx == g.nrMaps < MAX_USED_MAPS
    ensures var save := if idx < 0 then SaveToStack(OFF_INNER_MAP_FD) else SaveToBlob(FdSlot(idx));
      Den(env, save, m2) == Next(m3)
    ensures var l, es := LedgerAfter(cs), Calls(m.w.trace) + [e];
      l3 == (if idx < 0 then l.(inner := Of(|cs|)) else l.(maps := l.maps + [Of(|cs|)]))
      && InPlace(m3.w, l3, es) && Calls(m3.w.trace) == es && m3.w.trace == Play(es, l.script + [Issue(|cs|)])
    ensures m3.w.ok && m3.w.ctx == ctx && |m3.w.blob| == |d| && |m2.w.blob| == |d|
      && m3.w.blob[|g'.data|..] == m2.w.blob[|g'.data|..]
  {
    hide Given, InPlace, Calls, Play, Den, Put, Followed, LedgerAfter;
    var l, es := LedgerAfter(cs), Calls(m.w.trace) + [e];
    IssuedInPlace(m.w, m2.w, e, |g.data|, |g'.data|, cs);
    StackSize(m2.w, l, es);
    OwnDescriptor(Calls(m.w.trace), e);
    if idx < 0 {
      SaveStack(env, m2, OFF_INNER_MAP_FD, e.ret);
      m3 := Den(env, SaveToStack(OFF_INNER_MAP_FD), m2).m;
      l3 := l.(inner := Of(|cs|));
      StackPlace(m2.w, m3.w, l, l3, es, OFF_INNER_MAP_FD, e.ret);
    } else {
      SaveBlob(env, m2, FdSlot(idx), e.ret);
      m3 := Den(env, SaveToBlob(FdSlot(idx)), m2).m;
      l3 := l.(maps := l.maps + [Of(|cs|)]);
      MapPlace(m2.w, m3.w, l, l3, es, e.ret);
      PutTail(m2.w.blob, FdSlot(idx), LittleEndian(e.ret, 4), |g'.data|);
    }
  }

  lemma PutTail(b: Bytes, off: int, bs: Bytes, hi: int)
    requires 0 <= off && off + |bs| <= hi <= |b|
    ensures Put(b, off, bs)[hi..] == b[hi..]
  {
  }

  // A created map saved, and the inner map it used closed.
  lemma AdvanceMap(env: Env, g: Gen, g': Gen, s: MapSpec, idx: int, p: Pending, post: seq<Group>, m: M, m2: M, e: Event,
    d: Bytes, ctx: Bytes, cs: seq<Request>)
    requires g'.Live? && Tracks(env, g, m.w, d, ctx, cs) && |g.data| <= |g'.data| <= |d|
    requires e.Bpf? && Issued(m.w, m2.w, e, |g.data|, |g'.data|) && 0 <= e.ret < 0x8000_0000 && m2.r7 == Num(e.ret)
    requires Given(env, Do(MapCreate(s, idx), p), LedgerAfter(cs), Calls(m.w.trace), ctx, e)
    requires MapPost(s, idx, post, |g'.data|) && g'.nrProgs == g.nrProgs
    requires if idx < 0 then g'.nrMaps == g.nrMaps else idx == g.nrMaps < MAX_USED_MAPS && g'.nrMaps == g.nrMaps + 1
    ensures DenAll(env, post, m2).Next?
    ensures Tracks(env, g', DenAll(env, post, m2).m.w, d, ctx, cs + [Do(MapCreate(s, idx), p)])
  {
    hide Given, InPlace, Calls, Play, Den, DenAll, Followed, LedgerAfter;
    var save := if idx < 0 then SaveToStack(OFF_INNER_MAP_FD) else SaveToBlob(FdSlot(idx));
    var m3, l3 := SaveMap(env, g, g', idx, m, m2, e, d, ctx, cs);
    var c, l, es := Do(MapCreate(s, idx), p), LedgerAfter(cs), Calls(m.w.trace) + [e];
    DenNone(env, m2);
    DenSnoc(env, [], save, m2);
    assert [] + [save] == [save];
    assert Answered(l, c, |cs|) == l.script + [Issue(|cs|)];
    if IsOuter(s) {
      assert post == [save] + [post[1]];
      DenSnoc(env, [save], post[1], m2);
      var m4 := DenAll(env, post, m2).m;
      CloseInner(env, m3, m4, l3, es, l.script + [Issue(|cs|)], post[1].dbg);
      InPlaceSame(m4.w, l3, Perform(l, c, |cs|), es);
      Assemble(env, g, g', c, m.w, m4.w, e, d, ctx, cs);
    } else {
      InPlaceSame(m3.w, l3, Perform(l, c, |cs|), es);
      Assemble(env, g, g', c, m.w, m3.w, e, d, ctx, cs);
    }
  }

  lemma CloseInner(env: Env, m: M, m2: M, l: Ledger, es: seq<Event>, script: seq<Step>, dbg: Dbg)
    requires m.w.ok && InPlace(m.w, l, es) && DbgIn(dbg, |m.w.blob|)
    requires Calls(m.w.trace) == es && m.w.trace == Play(es, script)
    requires m2 == Den(env, CloseStack(OFF_INNER_MAP_FD, dbg), m).m
    ensures Den(env, CloseStack(OFF_INNER_MAP_FD, dbg), m).Next?
    ensures InPlace(m2.w, l, es) && Calls(m2.w.trace) == es && m2.w.trace == Play(es, script + [Shut(l.inner)])
    ensures m2.w.ok && m2.w.ctx == m.w.ctx && m2.w.blob == m.w.blob
  {
    hide Calls, Play, Get, Fd, LastFd, MapFd, ProgFd;
    CloseWord(m, StackPtr(0), OFF_INNER_MAP_FD, m.w.stack, 4, dbg);
    ShutOne(m.w, m2.w, es, script, l.inner);
  }

  // What is done with a result, and how the generator's counters move.
  predicate PostOf(g: Gen, g': Gen, op: Op, post: seq<Group>)
    requires g.Live? && g'.Live?
  {
    match op
    case LoadBtf(_) => post == [SaveToStack(OFF_BTF_FD)] && g'.nrMaps == g.nrMaps && g'.nrProgs == g.nrProgs
    case MapCreate(s, idx) =>
      MapPost(s, idx, post, |g'.data|) && g'.nrProgs == g.nrProgs
      && (if idx < 0 then g'.nrMaps == g.nrMaps else idx == g.nrMaps && g'.nrMaps == g.nrMaps + 1)
    case _ => post == [] && g'.nrMaps == g.nrMaps && g'.nrProgs == g.nrProgs
  }

  predicate IsSimple(op: Op) {
    IsCommand(op) && !op.ProgLoad?
  }

  lemma SimpleGiven(env: Env, cfg: Config, g: Gen, op: Op, p: Pending, m: M, d: Bytes, ctx: Bytes,
    cs: seq<Request>) returns (sh: Shape)
    requires ValidConfig(cfg) && IsSimple(op) && ValidOp(cfg, op) && CtxRoom(cfg, ctx)
    requires Apply(cfg, g, op).Live? && Tracks(env, g, m.w, d, ctx, cs)
    requires var g' := Apply(cfg, g, op); g'.data <= d && g'.nrMaps <= cfg.nrMaps
    ensures var g' := Apply(cfg, g, op);
      Ready(env, g, g', sh, m, d, ctx, cs) && Fits(sh, g, g') && PostOf(g, g', op, sh.post)
      && Given(env, Do(op, p), LedgerAfter(cs), Calls(m.w.trace), ctx, CommandEvent(env, sh, Before(env, sh, m)))
  {
    hide Tracks, Given, DenAll, LedgerAfter, Ready, Calls, Fits;
    hide GenLoadBtf, GenMapCreate, GenMapUpdate, GenMapFreeze, GenPopulateOuter, GenProgLoad;
    Holding(env, g, m.w, d, ctx, cs);
    match op {
      case LoadBtf(raw) => sh := BtfGiven(env, cfg, g, p, raw, m, d, ctx, cs);
      case MapCreate(s, idx) => sh := MapGiven(env, cfg, g, p, s, idx, m, d, ctx, cs);
      case MapUpdate(idx, value) => sh := UpdateGiven(env, cfg, g, p, idx, value, m, d, ctx, cs);
      case MapFreeze(idx) => sh := FreezeGiven(env, cfg, g, p, idx, m, d, ctx, cs);
      case PopulateOuter(outer, slot, inner) => sh := PopulateGiven(env, cfg, g, p, outer, slot, inner, m, d, ctx, cs);
    }
  }

  lemma SimplePost(env: Env, cfg: Config, g: Gen, op: Op, p: Pending, sh: Shape, m: M, m2: M, e: Event, d: Bytes, ctx: Bytes,
    cs: seq<Request>)
    requires ValidConfig(cfg) && IsSimple(op)
    requires Apply(cfg, g, op).Live? && g.Live? && Tracks(env, g, m.w, d, ctx, cs)
    requires var g' := Apply(cfg, g, op);
      g'.nrMaps <= cfg.nrMaps && |g.data| <= |g'.data| <= |d| && PostOf(g, g', op, sh.post)
      && e.Bpf? && Issued(m.w, m2.w, e, |g.data|, |g'.data|)
    requires 0 <= e.ret < 0x8000_0000 && m2.r7 == Num(e.ret)
    requires Given(env, Do(op, p), LedgerAfter(cs), Calls(m.w.trace), ctx, e)
    ensures DenAll(env, sh.post, m2).Next?
    ensures Tracks(env, Apply(cfg, g, op), DenAll(env, sh.post, m2).m.w, d, ctx, cs + [Do(op, p)])
  {
    hide Tracks, Given, DenAll, LedgerAfter, Den, Calls, Apply;
    var g' := Apply(cfg, g, op);
    DenNone(env, m2);
    match op {
      case LoadBtf(raw) =>
        AdvanceBtf(env, g, g', raw, p, m, m2, e, d, ctx, cs);
        DenSnoc(env, [], SaveToStack(OFF_BTF_FD), m2);
        assert [] + sh.post == sh.post;
      case MapCreate(s, idx) =>
        AdvanceMap(env, g, g', s, idx, p, sh.post, m, m2, e, d, ctx, cs);
      case _ =>
        Advance(env, g, g', Do(op, p), m, m2, e, d, ctx, cs);
    }
  }

  // A command of the run, from its attribute to its result's place.
  lemma SimpleRun(env: Env, cfg: Config, g: Gen, op: Op, p: Pending, m: M, d: Bytes, ctx: Bytes, cs: seq<Request>)
    returns (more: seq<Group>)
    requires ValidConfig(cfg) && IsSimple(op) && ValidOp(cfg, op) && CtxRoom(cfg, ctx)
    requires Apply(cfg, g, op).Live? && Tracks(env, g, m.w, d, ctx, cs)
    requires var g' := Apply(cfg, g, op); g'.data <= d && g'.nrMaps <= cfg.nrMaps
    ensures g.Live? && Apply(cfg, g, op).groups == g.groups + more
    ensures Outcome(env, Apply(cfg, g, op), DenAll(env, more, m), d, ctx, cs + [Do(op, p)])
  {
    hide Tracks, Given, DenAll, LedgerAfter, Den, FailedAt, Calls, Apply;
    var g' := Apply(cfg, g, op);
    var sh := SimpleGiven(env, cfg, g, op, p, m, d, ctx, cs);
    more := Groups(sh);
    var head := sh.pre + CommandGroups(sh);
    SoundWhen(env, g, g', sh, m, d, ctx, cs);
    HeadRun(env, g, g', sh, m, d, ctx, cs);
    var e, out := CommandEvent(env, sh, Before(env, sh, m)), DenAll(env, head, m);
    assert more == head + sh.post;
    DenAppend(env, head, sh.post, m);
    Sized(env, g, m.w, d, ctx, cs);
    if out.Err? {
      Fail(env, g, |g'.data|, Do(op, p), m, out.m, e, d, ctx, cs);
      assert |cs| < |cs + [Do(op, p)]|;
    } else {
      SimplePost(env, cfg, g, op, p, sh, m, out.m, e, d, ctx, cs);
    }
  }

  // --- any number of calls

  // The counters never go down.
  lemma CountersGrow(cfg: Config, g: Gen, op: Op)
    requires Apply(cfg, g, op).Live?
    ensures g.Live? && g.data <= Apply(cfg, g, op).data && g.groups <= Apply(cfg, g, op).groups
  {
    hide Wf;
  }

  // What is pending in the generator of a sequence of calls.
  lemma {:induction false} Pends(cfg: Config, ops: seq<Op>)
    requires ApplyAll(cfg, ops).Live?
    ensures Idle(ApplyAll(cfg, ops), PendingAfter(ops))
    decreases |ops|
  {
    hide Apply, Init, Slotted, SlotsOk;
    SettledAfter(cfg, ops);
    SettledWf(cfg, ApplyAll(cfg, ops));
    if ops == [] {
      InitIdle(cfg);
    } else {
      var n := |ops| - 1;
      CountersGrow(cfg, ApplyAll(cfg, ops[..n]), ops[n]);
      Pends(cfg, ops[..n]);
      PendsStep(cfg, ApplyAll(cfg, ops[..n]), ops[n]);
    }
  }

  lemma SettledWf(cfg: Config, g: Gen)
    requires Settled(cfg, g) && g.Live?
    ensures |g.data| % 8 == 0 && g.ksyms == [] && g.nrFdArray == 0
  {
    hide Placed, Insns, SlotsOk;
  }

  lemma InitIdle(cfg: Config)
    requires Init(cfg).Live?
    ensures var g := Init(cfg); g.relos == [] && g.coreRelos == [] && g.attachKind == 0 && g.attachTarget == []
  {
    hide Prologue;
  }

  // What one call records.
  lemma PendsStep(cfg: Config, g: Gen, op: Op)
    requires Apply(cfg, g, op).Live? && g.Live?
    ensures var g' := Apply(cfg, g, op);
      if op.ProgLoad? then g'.relos == [] && g'.coreRelos == [] && g'.attachKind == 0
      else
        g'.relos == (if op.RecordExtern? then g.relos + [op.relo] else g.relos)
        && g'.coreRelos == (if op.RecordCoreRelo? then g.coreRelos + op.core else g.coreRelos)
        && g'.attachKind == (if op.RecordAttach? then op.kind else g.attachKind)
        && g'.attachTarget == (if op.RecordAttach? then op.target else g.attachTarget)
  {
    hide GenLoadBtf, GenMapCreate, GenMapUpdate, GenMapFreeze, GenPopulateOuter, GenProgLoad;
    match op {
      case LoadBtf(raw) => var sh := BtfShape(cfg, g, raw);
      case MapCreate(s, idx) => var sh := MapShape(cfg, g, s, idx);
      case MapUpdate(idx, value) => var sh, key := UpdateShape(cfg, g, idx, value);
      case MapFreeze(idx) => var sh := FreezeShape(cfg, g, idx);
      case PopulateOuter(outer, slot, inner) => var sh, key := PopulateShape(cfg, g, outer, slot, inner);
      case ProgLoad(s) => LoadPends(cfg, g, s);
      case _ =>
    }
  }

  lemma LoadPends(cfg: Config, g: Gen, s: ProgSpec)
    requires GenProgLoad(cfg, g, s).Live?
    ensures g.Live? && var g' := GenProgLoad(cfg, g, s); g'.relos == [] && g'.coreRelos == [] && g'.attachKind == 0
  {
    hide GenProgLoad, Front, AddProg, EmitProgLoad, SaveProg, Emit, CloseAttach, CleanupRelos;
    LoadParts(cfg, g, s);
    var attr := AddProg(cfg, g, s, g.coreRelos).1.attr;
    var dbg := TailAt(cfg, Front(cfg, g, s), s, attr);
    ShutPends(cfg, EmitProgLoad(cfg, Front(cfg, g, s), s, attr), attr);
  }

  lemma ShutPends(cfg: Config, g: Gen, attr: int)
    requires CloseAttach(cfg, CleanupRelos(cfg, g), attr).Live?
    ensures var g7 := CloseAttach(cfg, CleanupRelos(cfg, g), attr); g7.relos == [] && g7.coreRelos == [] && g7.attachKind == 0
  {
    hide Wf, EmitCloseBlob, CleanupKsyms;
  }

  // --- the account between two calls

  // A search changes nothing but what the unfinished program holds.
  lemma SearchKeeps(cs: seq<Request>, c: Request)
    requires !c.Do?
    ensures var l, l2 := LedgerAfter(cs), LedgerAfter(cs + [c]); l2.progs == l.progs && l2.maps == l.maps
  {
    hide LedgerAfter, Answered;
    LedgerSnoc(cs, c);
  }

  lemma {:induction false} SoughtKeeps(cs: seq<Request>, rs: seq<Relo>, n: nat)
    requires n <= |rs|
    ensures var l, l2 := LedgerAfter(cs), LedgerAfter(cs + Sought(rs, n)); l2.progs == l.progs && l2.maps == l.maps
    decreases n
  {
    hide LedgerAfter, Known;
    if n == 0 {
      assert cs + [] == cs;
    } else {
      SoughtKeeps(cs, rs, n - 1);
      var cs1 := cs + Sought(rs, n - 1);
      if Known(rs, n - 1) {
        assert cs + Sought(rs, n) == cs1;
      } else {
        assert cs + Sought(rs, n) == cs1 + [SearchFor(rs[n - 1])];
        SearchKeeps(cs1, SearchFor(rs[n - 1]));
      }
    }
  }

  lemma DoKeeps(cs: seq<Request>, op: Op, p: Pending)
    requires IsCommand(op)
    ensures var l, l2 := LedgerAfter(cs), LedgerAfter(cs + [Do(op, p)]);
      |l2.progs| == |l.progs| + (if op.ProgLoad? then 1 else 0)
      && |l2.maps| == |l.maps| + (if op.MapCreate? && op.idx >= 0 then 1 else 0)
      && (if op.ProgLoad? then IdleAccount(l2) else l2.held == l.held && l2.functions == l.functions && l2.attach == l.attach)
  {
    hide LedgerAfter, Answered;
    LedgerSnoc(cs, Do(op, p));
  }

  lemma LoadKeeps(cs: seq<Request>, p: Pending)
    ensures var l, l2 := LedgerAfter(cs), LedgerAfter(cs + Searches(p)); l2.progs == l.progs && l2.maps == l.maps
  {
    hide LedgerAfter, Sought;
    var cs1 := cs + SoughtTarget(p);
    if p.attachKind != 0 {
      SearchKeeps(cs, SoughtTarget(p)[0]);
      assert cs1 == cs + [SoughtTarget(p)[0]];
    } else {
      assert cs1 == cs;
    }
    SoughtKeeps(cs1, p.relos, |p.relos|);
    assert cs1 + Sought(p.relos, |p.relos|) == cs + Searches(p);
  }

  // Between two calls nothing is held, and the account counts maps and programs as the generator does.
  lemma {:induction false} AccountOf(cfg: Config, ops: seq<Op>)
    requires ApplyAll(cfg, ops).Live?
    ensures var l, g := LedgerAfter(Requests(ops)), ApplyAll(cfg, ops);
      IdleAccount(l) && |l.progs| == g.nrProgs && |l.maps| == g.nrMaps
    decreases |ops|
  {
    hide Apply, Init, LedgerAfter, Searches;
    if ops == [] {
      InitCounters(cfg);
      assert LedgerAfter([]) == EMPTY by { LedgerNone(); }
    } else {
      var n := |ops| - 1;
      var op, cs, p := ops[n], Requests(ops[..n]), PendingAfter(ops[..n]);
      CountersGrow(cfg, ApplyAll(cfg, ops[..n]), op);
      AccountOf(cfg, ops[..n]);
      Counts(cfg, ApplyAll(cfg, ops[..n]), op);
      if op.ProgLoad? {
        AsksLoad(op.prog, p);
        LoadKeeps(cs, p);
        DoKeeps(cs + Searches(p), op, p);
        assert cs + Searches(p) + [Do(op, p)] == Requests(ops);
      } else if IsCommand(op) {
        DoKeeps(cs, op, p);
        assert Asks(op, p) == [Do(op, p)];
      } else {
        assert Requests(ops) == cs;
      }
    }
  }

  lemma LedgerNone()
    ensures LedgerAfter([]) == EMPTY
  {
  }

  lemma InitCounters(cfg: Config)
    ensures Init(cfg).Live? ==> Init(cfg).nrMaps == 0 && Init(cfg).nrProgs == 0
  {
    hide Prologue;
  }

  lemma Counts(cfg: Config, g: Gen, op: Op)
    requires Apply(cfg, g, op).Live? && g.Live?
    ensures var g' := Apply(cfg, g, op);
      g'.nrProgs == g.nrProgs + (if op.ProgLoad? then 1 else 0)
      && g'.nrMaps == g.nrMaps + (if op.MapCreate? && op.idx >= 0 then 1 else 0)
  {
    hide GenLoadBtf, GenMapCreate, GenMapUpdate, GenMapFreeze, GenPopulateOuter, GenProgLoad;
    match op {
      case LoadBtf(raw) => var sh := BtfShape(cfg, g, raw);
      case MapCreate(s, idx) => var sh := MapShape(cfg, g, s, idx);
      case MapUpdate(idx, value) => var sh, key := UpdateShape(cfg, g, idx, value);
      case MapFreeze(idx) => var sh := FreezeShape(cfg, g, idx);
      case PopulateOuter(outer, slot, inner) => var sh, key := PopulateShape(cfg, g, outer, slot, inner);
      case ProgLoad(s) => LoadCounts(cfg, g, s);
      case _ =>
    }
  }

  predicate SameCounts(g: Gen, g': Gen) {
    g'.Live? ==> g.Live? && g'.nrProgs == g.nrProgs && g'.nrMaps == g.nrMaps
  }

  lemma ReloCounts(cfg: Config, g: Gen, r: Relo, insns: int)
    ensures SameCounts(g, EmitRelo(cfg, g, r, insns))
  {
    hide Emit, EmitFindByName, EmitLookupName, KsymLog, KfuncLog, Wf, RefKsym;
  }

  lemma {:induction false} RelosCounts(cfg: Config, g: Gen, rs: seq<Relo>, insns: int)
    ensures SameCounts(g, EmitRelos(cfg, g, rs, insns))
    decreases |rs|
  {
    hide EmitRelo;
    if rs != [] {
      ReloCounts(cfg, g, rs[0], insns);
      RelosCounts(cfg, EmitRelo(cfg, g, rs[0], insns), rs[1..], insns);
    }
  }

  lemma {:induction false} KsymsCounts(cfg: Config, g: Gen, ks: seq<Ksym>)
    ensures SameCounts(g, CleanupKsyms(cfg, g, ks))
    decreases |ks|
  {
    hide EmitCloseBlob;
    if ks != [] {
      KsymsCounts(cfg, CleanupKsym(cfg, g, ks[0]), ks[1..]);
    }
  }

  lemma LoadCounts(cfg: Config, g: Gen, s: ProgSpec)
    requires GenProgLoad(cfg, g, s).Live? && g.Live?
    ensures GenProgLoad(cfg, g, s).nrProgs == g.nrProgs + 1 && GenProgLoad(cfg, g, s).nrMaps == g.nrMaps
  {
    hide GenProgLoad, AddProg, EmitProgLoad, SaveProg, Emit, EmitProgFields, EmitProgPointers, EmitAttach,
      EmitRelos, CleanupKsyms;
    hide EmitCloseBlob;
    LoadParts(cfg, g, s);
    var (g1, at) := AddProg(cfg, g, s, g.coreRelos);
    var g4 := Front(cfg, g, s);
    var dbg := TailAt(cfg, g4, s, at.attr);
    var g5 := EmitProgLoad(cfg, g4, s, at.attr);
    RelosCounts(cfg, EmitAttach(cfg, EmitProgFields(cfg, EmitProgPointers(cfg, g1, at), at.attr), at.attr), g.relos, at.insns);
    KsymsCounts(cfg, g5, g5.ksyms);
  }

  // --- all calls

  // The calls name maps of this loader, and each program's recorded relocations lie inside it, each
  // in an instruction of its own.
  ghost predicate ValidOps(cfg: Config, ops: seq<Op>) {
    forall n | 0 <= n < |ops| ::
      ValidOp(cfg, ops[n]) && (ops[n].ProgLoad? ==> RelosFit(PendingAfter(ops[..n]).relos, ops[n].prog.insns))
  }

  lemma ValidBefore(cfg: Config, ops: seq<Op>, n: nat)
    requires ValidOps(cfg, ops) && n <= |ops|
    ensures ValidOps(cfg, ops[..n])
  {
    forall i | 0 <= i < n ensures ops[..n][..i] == ops[..i] {
    }
  }

  lemma Started(env: Env, cfg: Config, d: Bytes, ctx: Bytes)
    requires Init(cfg).Live? && Init(cfg).data <= d
    ensures Init(cfg).groups == [] && Tracks(env, Init(cfg), Begin(d, ctx).w, d, ctx, [])
  {
    hide Get, Prologue;
    var g0 := ReserveFds(cfg);
    assert g0.data[..FD_AREA] == Zeros(FD_AREA) && g0.data <= Init(cfg).data;
    PrefixTrans(g0.data, Init(cfg).data, d);
    StartPlaces(d, ctx);
    InitCounters(cfg);
  }

  lemma StartPlaces(d: Bytes, ctx: Bytes)
    requires |d| >= FD_AREA && d[..FD_AREA] == Zeros(FD_AREA)
    ensures InPlace(Begin(d, ctx).w, EMPTY, [])
  {
    hide Get;
    forall i: nat | i < MAX_FD_ARRAY_SZ ensures Get(d, FdSlot(i), 4) == 0 {
      ZeroWord(d, FdSlot(i));
    }
    forall i: nat | i < MAX_KFUNC_DESCS ensures Get(d, FdSlot(MAX_USED_MAPS + i), 4) == LastFd([], Users(EMPTY, i)) {
      assert MAX_USED_MAPS + i < MAX_FD_ARRAY_SZ;
    }
    forall i: nat | i < MAX_USED_PROGS + 2 ensures Get(Zeros(STACK_SZ), 4 * i, 4) == 0 {
      ZeroWord(Zeros(STACK_SZ), 4 * i);
    }
    assert Get(Zeros(STACK_SZ), 4 * 0, 4) == 0 && Get(Zeros(STACK_SZ), 4 * 1, 4) == 0;
    forall i: nat | i < MAX_USED_PROGS ensures Get(Zeros(STACK_SZ), 8 + 4 * i, 4) == 0 {
      assert 8 + 4 * i == 4 * (i + 2);
    }
  }

  lemma ZeroWord(b: Bytes, off: nat)
    requires off + 4 <= |b| && forall i | off <= i < off + 4 :: b[i] == 0
    ensures Get(b, off, 4) == 0
  {
    assert b[off..off + 4] == LittleEndian(0, 4);
    ReadBack(0, 4);
  }

  // One more call.
  lemma OpRun(env: Env, cfg: Config, g: Gen, op: Op, p: Pending, m: M, d: Bytes, ctx: Bytes,
    cs: seq<Request>) returns (more: seq<Group>)
    requires ValidConfig(cfg) && IsCommand(op) && ValidOp(cfg, op) && CtxRoom(cfg, ctx)
    requires op.ProgLoad? ==> RelosFit(p.relos, op.prog.insns)
    requires g.Live? && Idle(g, p) && IdleAccount(LedgerAfter(cs)) && Tracks(env, g, m.w, d, ctx, cs)
    requires var g' := Apply(cfg, g, op); g'.Live? && g'.data <= d && g'.nrProgs <= MAX_USED_PROGS && g'.nrMaps <= cfg.nrMaps
    ensures Apply(cfg, g, op).groups == g.groups + more
    ensures Outcome(env, Apply(cfg, g, op), DenAll(env, more, m), d, ctx, cs + Asks(op, p))
  {
    hide Tracks, DenAll, LedgerAfter, Outcome, RelosFit, Idle, GenProgLoad;
    if op.ProgLoad? {
      more := LoadRun(env, cfg, g, op.prog, p, m, d, ctx, cs);
    } else {
      hide Apply;
      more := SimpleRun(env, cfg, g, op, p, m, d, ctx, cs);
      assert Asks(op, p) == [Do(op, p)];
    }
  }

  lemma StillFailedOp(env: Env, g: Gen, g': Gen, out: Out, d: Bytes, ctx: Bytes, cs: seq<Request>, more: seq<Request>)
    requires out.Err? && Outcome(env, g, out, d, ctx, cs)
    ensures Outcome(env, g', out, d, ctx, cs + more)
  {
    hide FailedAt;
    var j :| 0 <= j < |cs| && FailedAt(env, out.m, ctx, cs, j);
    FailedLater(env, out.m, ctx, cs, more, j);
  }

  // A call that only records something.
  lemma Recorded(env: Env, cfg: Config, g: Gen, op: Op, out: Out, d: Bytes, ctx: Bytes, cs: seq<Request>)
    requires !IsCommand(op) && Apply(cfg, g, op).Live? && g.Live? && Outcome(env, g, out, d, ctx, cs)
    ensures Apply(cfg, g, op).groups == g.groups && Outcome(env, Apply(cfg, g, op), out, d, ctx, cs)
  {
    hide FailedAt, Followed, InPlace, Calls, Play, LedgerAfter;
  }

  // Every run either follows the whole account or stops at a request that failed.
  lemma {:induction false} RunOps(env: Env, cfg: Config, ops: seq<Op>, d: Bytes, ctx: Bytes)
    requires ValidConfig(cfg) && ValidOps(cfg, ops) && CtxRoom(cfg, ctx) && ApplyAll(cfg, ops).Live?
    requires var g := ApplyAll(cfg, ops); g.data <= d && g.nrProgs <= MAX_USED_PROGS && g.nrMaps <= cfg.nrMaps
    ensures var g := ApplyAll(cfg, ops); Outcome(env, g, DenAll(env, g.groups, Begin(d, ctx)), d, ctx, Requests(ops))
    decreases |ops|
  {
    hide Tracks, DenAll, Den, FailedAt, Apply, Init, Outcome, LedgerAfter, Idle, RelosFit, Asks, IdleAccount;
    if ops == [] {
      Started(env, cfg, d, ctx);
      DenNone(env, Begin(d, ctx));
      NoneFollowed(env, Init(cfg), Begin(d, ctx), d, ctx);
    } else {
      var n := |ops| - 1;
      var g, op, p := ApplyAll(cfg, ops[..n]), ops[n], PendingAfter(ops[..n]);
      var g' := Apply(cfg, g, op);
      ValidBefore(cfg, ops, n);
      CountersGrow(cfg, g, op);
      Counts(cfg, g, op);
      Pends(cfg, ops[..n]);
      AccountOf(cfg, ops[..n]);
      PrefixTrans(g.data, g'.data, d);
      RunOps(env, cfg, ops[..n], d, ctx);
      var m0, cs := Begin(d, ctx), Requests(ops[..n]);
      var out := DenAll(env, g.groups, m0);
      if !IsCommand(op) {
        Recorded(env, cfg, g, op, out, d, ctx, cs);
        NothingAsked(op, p);
        assert Requests(ops) == cs;
      } else if out.Next? {
        TracksOf(env, g, out.m, d, ctx, cs);
        var more := OpRun(env, cfg, g, op, p, out.m, d, ctx, cs);
        DenAppend(env, g.groups, more, m0);
      } else {
        StillFailedOp(env, g, g', out, d, ctx, cs, Asks(op, p));
        assert g'.groups == g.groups + g'.groups[|g.groups|..];
        DenAppend(env, g.groups, g'.groups[|g.groups|..], m0);
      }
    }
  }

  lemma NothingAsked(op: Op, p: Pending)
    requires !IsCommand(op)
    ensures Asks(op, p) == []
  {
  }

  lemma NoneFollowed(env: Env, g: Gen, m: M, d: Bytes, ctx: Bytes)
    requires Tracks(env, g, m.w, d, ctx, [])
    ensures Outcome(env, g, Next(m), d, ctx, [])
  {
  }

  lemma TracksOf(env: Env, g: Gen, m: M, d: Bytes, ctx: Bytes, cs: seq<Request>)
    requires Outcome(env, g, Next(m), d, ctx, cs)
    ensures Tracks(env, g, m.w, d, ctx, cs)
  {
  }
}
