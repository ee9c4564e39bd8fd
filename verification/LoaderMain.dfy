/** The loader theorem: what a finished loader program does, for every sequence of API calls and every
    result of the kernel. */
module LoaderMain {
  import opened LoaderBytes
  import opened LoaderMachine
  import opened LoaderIR
  import opened LoaderGen
  import opened LoaderRun
  import opened LoaderShape
  import opened LoaderLedger
  import opened LoaderFollow
  import opened LoaderSave
  import opened LoaderGiven
  import LoaderLookups
  import opened LoaderProg
  import opened LoaderLoad
  import opened LoaderTheorem

  // What the cleanup code closes: the stack's words, then the map slots.
  function Places(l: Ledger): seq<Source> {
    [l.btf, l.inner] + l.progs + l.maps
  }

  // Byte p of the context belongs to one of the first a program or first b map descriptors.
  predicate IsResult(p: int, nrMaps: nat, a: nat, b: nat) {
    (exists i | 0 <= i < b :: CtxMapFd(i) <= p < CtxMapFd(i) + 4)
    || (exists i | 0 <= i < a :: CtxProgFd(nrMaps, i) <= p < CtxProgFd(nrMaps, i) + 4)
  }

  // The script of a run in which everything succeeded, and of one whose request j failed.
  function LoadedScript(cs: seq<Request>): seq<Step> {
    LedgerAfter(cs).script + [Shut(LedgerAfter(cs).btf)]
  }

  function UnwoundScript(cs: seq<Request>, j: nat): seq<Step>
    requires j < |cs|
  {
    var l := LedgerAfter(cs[..j]);
    Answered(l, cs[j], j) + Shuts(Places(l))
  }

  // Exit code 0: every request succeeded, the trace is the account's with the BTF closed at the end,
  // and each map and program descriptor stands in its own place of the context, where nothing else
  // changed.
  ghost predicate Loaded(env: Env, cs: seq<Request>, nrMaps: nat, ctx: Bytes, code: Val, w: World) {
    var l, es := LedgerAfter(cs), Calls(w.trace);
    code == Num(0) && |es| == |cs| && Followed(env, cs, |cs|, es, ctx)
    && w.trace == Play(es, LoadedScript(cs))
    && |l.maps| == nrMaps && |w.ctx| == |ctx|
    && (forall i: nat | i < nrMaps :: Get(w.ctx, CtxMapFd(i), 4) == MapFd(es, l, i))
    && (forall i: nat | i < |l.progs| :: Get(w.ctx, CtxProgFd(nrMaps, i), 4) == ProgFd(es, l, i))
    && forall p | 0 <= p < |ctx| && !IsResult(p, nrMaps, |l.progs|, nrMaps) :: w.ctx[p] == ctx[p]
  }

  // A negative exit code: request j failed with it, and what the account says has been closed.
  ghost predicate Unwound(env: Env, cs: seq<Request>, j: nat, ctx: Bytes, code: Val, w: World)
    requires j < |cs|
  {
    var l, es := LedgerAfter(cs[..j]), Calls(w.trace);
    |es| == j + 1 && Followed(env, cs, j, es, ctx) && Given(env, cs[j], l, es[..j], ctx, es[j])
    && Fails(cs[j], es[j]) && code == Num(es[j].ret)
    && w.trace == Play(es, UnwoundScript(cs, j)) && w.ctx == ctx
  }

  // --- cleanup

  lemma {:induction false} WordKsAre(l: Ledger, n: nat)
    requires n >= |l.progs|
    ensures WordKs(l, 2 + n) == [l.btf, l.inner] + l.progs
  {
    WordKsPrefix(l, |l.progs|);
    assert l.progs[..|l.progs|] == l.progs;
    WordKsEnd(l, |l.progs|, n);
  }

  lemma {:induction false} WordKsPrefix(l: Ledger, n: nat)
    requires n <= |l.progs|
    ensures WordKs(l, 2 + n) == [l.btf, l.inner] + l.progs[..n]
  {
    if n == 0 {
      assert WordKs(l, 1) == WordKs(l, 0) + [l.btf];
      assert l.progs[..0] == [];
    } else {
      WordKsPrefix(l, n - 1);
      assert WordKs(l, 2 + n) == WordKs(l, 2 + n - 1) + [l.progs[n - 1]];
      assert l.progs[..n] == l.progs[..n - 1] + [l.progs[n - 1]];
    }
  }

  lemma {:induction false} WordKsEnd(l: Ledger, a: nat, n: nat)
    requires |l.progs| <= a <= n
    ensures WordKs(l, 2 + n) == WordKs(l, 2 + a)
  {
    if a < n {
      WordKsEnd(l, a, n - 1);
      assert WordKs(l, 2 + n) == WordKs(l, 2 + n - 1) + [];
    }
  }

  lemma {:induction false} MapKsAre(l: Ledger, n: nat)
    ensures n <= |l.maps| ==> MapKs(l, n) == l.maps[..n]
    ensures n >= |l.maps| ==> MapKs(l, n) == l.maps
  {
    if n > 0 {
      MapKsAre(l, n - 1);
      if n <= |l.maps| {
        assert l.maps[..n] == l.maps[..n - 1] + [l.maps[n - 1]];
      }
    }
  }

  // The prints of the cleanup code are part of the initial blob.
  lemma MapClosesFit(cfg: Config)
    requires Init(cfg).Live?
    ensures MapCloses(cfg, ReserveFds(cfg), cfg.nrMaps).0.Live?
    ensures |MapCloses(cfg, ReserveFds(cfg), cfg.nrMaps).0.data| <= |Init(cfg).data|
  {
    hide MapCloses, ReserveFds, QuietCloses, Prologue;
  }

  lemma CleanupRun(env: Env, cfg: Config, m: M, l: Ledger, es: seq<Event>, script: seq<Step>)
    requires ValidConfig(cfg) && m.w.ok && InPlace(m.w, l, es)
    requires Init(cfg).Live? && FD_AREA <= |Init(cfg).data| <= |m.w.blob|
    requires Calls(m.w.trace) == es && m.w.trace == Play(es, script)
    requires |l.progs| <= cfg.nrProgs && |l.maps| <= cfg.nrMaps
    ensures DenAll(env, CleanupGroups(cfg), m).Next?
    ensures Closing(m, DenAll(env, CleanupGroups(cfg), m).m, es, script + Shuts(Places(l)))
  {
    hide DenAll, Calls, Play, Get, Prologue, Init, ReserveFds, MapCloses, QuietCloses, WordKs, MapKs, Shuts, Fd,
      LastFd, InPlace;
    MapClosesFit(cfg);
    var n := NrProgsSz(cfg) / 4;
    var q, ms := QuietCloses(n), MapCloses(cfg, ReserveFds(cfg), cfg.nrMaps).1;
    CloseWords(env, m, l, es, script, n);
    WordKsAre(l, cfg.nrProgs);
    var m1 := DenAll(env, q, m).m;
    InPlaceKept(m.w, m1.w, l, es, FD_AREA);
    CloseMaps(env, cfg, ReserveFds(cfg), m1, l, es, script, WordKs(l, n), cfg.nrMaps);
    MapKsAre(l, cfg.nrMaps);
    DenAppend(env, q, ms, m);
    assert WordKs(l, n) + MapKs(l, cfg.nrMaps) == Places(l);
  }

  // --- handing out the descriptors

  // The first a program and first b map descriptors have been copied to the context.
  ghost predicate Handed(w0: World, w: World, l: Ledger, es: seq<Event>, nrMaps: nat, a: nat, b: nat)
  {
    w == w0.(ctx := w.ctx) && |w.ctx| == |w0.ctx| && b <= nrMaps
    && (forall i: nat | i < b :: Get(w.ctx, CtxMapFd(i), 4) == MapFd(es, l, i))
    && (forall i: nat | i < a :: Get(w.ctx, CtxProgFd(nrMaps, i), 4) == ProgFd(es, l, i))
    && forall p | 0 <= p < |w0.ctx| && !IsResult(p, nrMaps, a, b) :: w.ctx[p] == w0.ctx[p]
  }

  lemma HandedOne(w0: World, w: World, w2: World, l: Ledger, es: seq<Event>, nrMaps: nat, a: nat, b: nat, v: nat, prog: bool)
    requires Handed(w0, w, l, es, nrMaps, a, b) && v < TWO32
    requires if prog then v == ProgFd(es, l, a) && CtxProgFd(nrMaps, a) + 4 <= |w0.ctx|
             else v == MapFd(es, l, b) && b < nrMaps && CtxProgFd(nrMaps, a) <= |w0.ctx|
    requires var off := if prog then CtxProgFd(nrMaps, a) else CtxMapFd(b);
      w2 == w.(ctx := Put(w.ctx, off, LittleEndian(v, 4)))
    ensures Handed(w0, w2, l, es, nrMaps, if prog then a + 1 else a, if prog then b else b + 1)
  {
    hide Get, Put;
    var off := if prog then CtxProgFd(nrMaps, a) else CtxMapFd(b);
    var a2, b2 := if prog then a + 1 else a, if prog then b else b + 1;
    forall i: nat | i < b2 ensures Get(w2.ctx, CtxMapFd(i), 4) == MapFd(es, l, i) {
      WordPut(w.ctx, off, v, CtxMapFd(i));
    }
    forall i: nat | i < a2 ensures Get(w2.ctx, CtxProgFd(nrMaps, i), 4) == ProgFd(es, l, i) {
      WordPut(w.ctx, off, v, CtxProgFd(nrMaps, i));
    }
    forall p | 0 <= p < |w0.ctx| && !IsResult(p, nrMaps, a2, b2) ensures w2.ctx[p] == w0.ctx[p] {
      NotIn(p, nrMaps, a, b, prog);
      LoaderLookups.PutByte(w.ctx, off, LittleEndian(v, 4), p);
    }
  }

  lemma NotIn(p: int, nrMaps: nat, a: nat, b: nat, prog: bool)
    requires !IsResult(p, nrMaps, if prog then a + 1 else a, if prog then b else b + 1)
    ensures !IsResult(p, nrMaps, a, b)
    ensures var off := if prog then CtxProgFd(nrMaps, a) else CtxMapFd(b); p < off || off + 4 <= p
  {
    if prog {
      assert 0 <= a < a + 1 && !(CtxProgFd(nrMaps, a) <= p < CtxProgFd(nrMaps, a) + 4);
    } else {
      assert 0 <= b < b + 1 && !(CtxMapFd(b) <= p < CtxMapFd(b) + 4);
    }
  }

  lemma ToCtx(env: Env, m: M, g: Group, v: nat)
    requires m.w.ok && v < TWO32
    requires (g.Stack2Ctx? && InRange(m.w.stack, STACK_SZ + g.stackOff, 4) && v == Get(m.w.stack, STACK_SZ + g.stackOff, 4))
      || (g.Blob2Ctx? && InRange(m.w.blob, g.blobOff, 4) && v == Get(m.w.blob, g.blobOff, 4))
    requires g.size == W && InRange(m.w.ctx, g.ctxOff, 4)
    ensures Den(env, g, m) == Next(m.(w := m.w.(ctx := Put(m.w.ctx, g.ctxOff, LittleEndian(v, 4)))))
  {
    hide Get, Put;
  }

  lemma {:induction false} HandProgs(env: Env, m: M, l: Ledger, es: seq<Event>, nrMaps: nat, n: nat)
    requires m.w.ok && InPlace(m.w, l, es)
    requires n <= |l.progs| <= MAX_USED_PROGS && CtxProgFd(nrMaps, |l.progs|) <= |m.w.ctx|
    ensures DenAll(env, ProgFds(nrMaps, n), m).Next?
    ensures var m2 := DenAll(env, ProgFds(nrMaps, n), m).m; Handed(m.w, m2.w, l, es, nrMaps, n, 0)
  {
    hide Get, Put, DenAll, Handed;
    if n == 0 {
      DenNone(env, m);
      HandedNone(m.w, l, es, nrMaps);
    } else {
      var i := n - 1;
      HandProgs(env, m, l, es, nrMaps, i);
      var m1 := DenAll(env, ProgFds(nrMaps, i), m).m;
      var g := Stack2Ctx(CtxProgFd(nrMaps, i), W, OffProgFd(i));
      DenSnoc(env, ProgFds(nrMaps, i), g, m);
      assert Get(m.w.stack, 8 + 4 * i, 4) == ProgFd(es, l, i);
      Word(m.w.stack, 8 + 4 * i);
      HandedWorld(m.w, m1.w, l, es, nrMaps, i, 0);
      ToCtx(env, m1, g, ProgFd(es, l, i));
      HandedOne(m.w, m1.w, DenAll(env, ProgFds(nrMaps, n), m).m.w, l, es, nrMaps, i, 0, ProgFd(es, l, i), true);
    }
  }

  lemma HandedNone(w: World, l: Ledger, es: seq<Event>, nrMaps: nat)
    ensures Handed(w, w, l, es, nrMaps, 0, 0)
  {
  }

  lemma HandedWorld(w0: World, w: World, l: Ledger, es: seq<Event>, nrMaps: nat, a: nat, b: nat)
    requires Handed(w0, w, l, es, nrMaps, a, b)
    ensures w == w0.(ctx := w.ctx) && |w.ctx| == |w0.ctx|
  {
  }

  lemma {:induction false} HandMaps(env: Env, m0: M, m: M, l: Ledger, es: seq<Event>, nrMaps: nat, n: nat)
    requires m0.w.ok && InPlace(m0.w, l, es) && |m0.w.blob| >= FD_AREA
    requires Handed(m0.w, m.w, l, es, nrMaps, |l.progs|, 0)
    requires n <= nrMaps <= MAX_USED_MAPS && CtxProgFd(nrMaps, |l.progs|) <= |m0.w.ctx|
    ensures DenAll(env, MapFds(n), m).Next?
    ensures var m2 := DenAll(env, MapFds(n), m).m; Handed(m0.w, m2.w, l, es, nrMaps, |l.progs|, n)
  {
    hide Get, Put, DenAll, Handed;
    if n == 0 {
      DenNone(env, m);
    } else {
      var i := n - 1;
      HandMaps(env, m0, m, l, es, nrMaps, i);
      var m1 := DenAll(env, MapFds(i), m).m;
      var g := Blob2Ctx(CtxMapFd(i), W, FdSlot(i));
      DenSnoc(env, MapFds(i), g, m);
      assert Get(m0.w.blob, FdSlot(i), 4) == MapFd(es, l, i);
      Word(m0.w.blob, FdSlot(i));
      HandedWorld(m0.w, m1.w, l, es, nrMaps, |l.progs|, i);
      ToCtx(env, m1, g, MapFd(es, l, i));
      HandedOne(m0.w, m1.w, DenAll(env, MapFds(n), m).m.w, l, es, nrMaps, |l.progs|, i, MapFd(es, l, i), false);
    }
  }

  // --- the finished program

  lemma EmitAllAt(cfg: Config, g: Gen, gs: seq<Group>)
    requires EmitAll(cfg, g, gs).Live?
    ensures g.Live? && EmitAll(cfg, g, gs) == g.(groups := g.groups + gs)
    decreases |gs|
  {
    hide Emit;
    if gs == [] {
      assert g.groups + [] == g.groups;
    } else {
      EmitAllAt(cfg, Emit(cfg, g, gs[0]), gs[1..]);
      EmitAt(cfg, g, gs[0]);
      assert g.groups + [gs[0]] + gs[1..] == g.groups + gs;
    }
  }

  lemma FinishAt(cfg: Config, g: Gen, nrProgs: int, nrMaps: int) returns (dbg: Dbg)
    requires Finish(cfg, g, nrProgs, nrMaps).Live?
    ensures g.Live? && nrProgs >= g.nrProgs && nrMaps == g.nrMaps
    ensures var g' := Finish(cfg, g, nrProgs, nrMaps);
      g'.groups == g.groups + [CloseStack(OFF_BTF_FD, dbg)] + ProgFds(g.nrMaps, g.nrProgs) + MapFds(g.nrMaps)
      && DbgIn(dbg, |g'.data|) && g.data <= g'.data
  {
    hide EmitCloseStack, EmitAll, Insns;
    var g1 := EmitCloseStack(cfg, g, OFF_BTF_FD);
    var g2 := EmitAll(cfg, g1, ProgFds(g.nrMaps, g.nrProgs));
    EmitAllAt(cfg, g2, MapFds(g.nrMaps));
    EmitAllAt(cfg, g1, ProgFds(g.nrMaps, g.nrProgs));
    dbg := LoaderShape.CloseAt(cfg, g, OFF_BTF_FD);
  }

  lemma FinishRun(env: Env, g: Gen, m: M, dbg: Dbg, d: Bytes, ctx: Bytes, cs: seq<Request>)
    requires Tracks(env, g, m.w, d, ctx, cs) && DbgIn(dbg, |d|)
    requires g.nrProgs <= MAX_USED_PROGS && g.nrMaps <= MAX_USED_MAPS && CtxProgFd(g.nrMaps, g.nrProgs) <= |ctx|
    ensures var gs := [CloseStack(OFF_BTF_FD, dbg)] + ProgFds(g.nrMaps, g.nrProgs) + MapFds(g.nrMaps);
      DenAll(env, gs, m).Next? && DenAll(env, gs, m).m.w.ok
      && Loaded(env, cs, g.nrMaps, ctx, Num(0), DenAll(env, gs, m).m.w)
  {
    hide DenAll, Den, Get, Calls, Play, Followed, Handed, LedgerAfter, InPlace, Fd, MapFd, ProgFd;
    var l, es := LedgerAfter(cs), Calls(m.w.trace);
    var close, progs, maps := [CloseStack(OFF_BTF_FD, dbg)], ProgFds(g.nrMaps, g.nrProgs), MapFds(g.nrMaps);
    DenNone(env, m);
    DenSnoc(env, [], close[0], m);
    assert [] + close == close;
    var m1 := DenAll(env, close, m).m;
    CloseBtf(env, m, l, es, l.script, dbg);
    HandProgs(env, m1, l, es, g.nrMaps, g.nrProgs);
    var m2 := DenAll(env, progs, m1).m;
    HandMaps(env, m1, m2, l, es, g.nrMaps, g.nrMaps);
    DenAppend(env, close + progs, maps, m);
    DenAppend(env, close, progs, m);
    HandedAll(m1.w, DenAll(env, maps, m2).m.w, l, es, g.nrMaps);
  }

  lemma HandedAll(w0: World, w: World, l: Ledger, es: seq<Event>, nrMaps: nat)
    requires Handed(w0, w, l, es, nrMaps, |l.progs|, nrMaps)
    ensures w == w0.(ctx := w.ctx) && |w.ctx| == |w0.ctx|
    ensures forall i: nat | i < nrMaps :: Get(w.ctx, CtxMapFd(i), 4) == MapFd(es, l, i)
    ensures forall i: nat | i < |l.progs| :: Get(w.ctx, CtxProgFd(nrMaps, i), 4) == ProgFd(es, l, i)
    ensures forall p | 0 <= p < |w0.ctx| && !IsResult(p, nrMaps, |l.progs|, nrMaps) :: w.ctx[p] == w0.ctx[p]
  {
  }

  lemma CloseBtf(env: Env, m: M, l: Ledger, es: seq<Event>, script: seq<Step>, dbg: Dbg)
    requires m.w.ok && InPlace(m.w, l, es) && DbgIn(dbg, |m.w.blob|)
    requires Calls(m.w.trace) == es && m.w.trace == Play(es, script)
    ensures Den(env, CloseStack(OFF_BTF_FD, dbg), m).Next?
    ensures var m2 := Den(env, CloseStack(OFF_BTF_FD, dbg), m).m;
      InPlace(m2.w, l, es) && Calls(m2.w.trace) == es && m2.w.trace == Play(es, script + [Shut(l.btf)])
      && m2.w.ok && m2.w.ctx == m.w.ctx && m2.w.blob == m.w.blob
  {
    hide Calls, Play, Get, Fd, LastFd, MapFd, ProgFd;
    var m2 := Den(env, CloseStack(OFF_BTF_FD, dbg), m).m;
    CloseWord(m, StackPtr(0), OFF_BTF_FD, m.w.stack, 0, dbg);
    ShutOne(m.w, m2.w, es, script, l.btf);
  }

  // --- the loader theorem

  // The program and blob bpf_gen__finish hands out, for the same counts that bpf_gen__init was given.
  function Finished(cfg: Config, ops: seq<Op>): Gen {
    Finish(cfg, ApplyAll(cfg, ops), cfg.nrProgs, cfg.nrMaps)
  }

  // What a run of the finished program comes to: never a memory fault, and either everything
  // loaded or everything unwound.
  ghost predicate Good(env: Env, cfg: Config, ops: seq<Op>, ctx: Bytes, code: Val, w: World) {
    var cs := Requests(ops);
    w.ok && (Loaded(env, cs, cfg.nrMaps, ctx, code, w) || exists j | 0 <= j < |cs| :: Unwound(env, cs, j, ctx, code, w))
  }

  lemma MeaningGood(env: Env, cfg: Config, ops: seq<Op>, ctx: Bytes)
    requires ValidConfig(cfg) && ValidOps(cfg, ops) && CtxRoom(cfg, ctx) && Finished(cfg, ops).Live?
    ensures var g := Finished(cfg, ops); var (code, w) := Meaning(cfg, g.groups, g.data, ctx, env);
      Good(env, cfg, ops, ctx, code, w)
  {
    hide DenAll, ApplyAll, Tracks, Init, FailedAt, Loaded, Unwound, Finish, CleanupGroups, LedgerAfter, Requests;
    hide ProgFds, MapFds, ValidOps;
    var g, f := ApplyAll(cfg, ops), Finished(cfg, ops);
    var d := f.data;
    var dbg := FinishAt(cfg, g, cfg.nrProgs, cfg.nrMaps);
    AccountOf(cfg, ops);
    RunOps(env, cfg, ops, d, ctx);
    var cs, m0 := Requests(ops), Begin(d, ctx);
    var rest := [CloseStack(OFF_BTF_FD, dbg)] + ProgFds(g.nrMaps, g.nrProgs) + MapFds(g.nrMaps);
    assert f.groups == g.groups + rest;
    DenAppend(env, g.groups, rest, m0);
    var out := DenAll(env, g.groups, m0);
    if out.Next? {
      Sized(env, g, out.m.w, d, ctx, cs);
      FinishRun(env, g, out.m, dbg, d, ctx, cs);
    } else {
      var j :| 0 <= j < |cs| && FailedAt(env, out.m, ctx, cs, j);
      CountersBelow(cs, j);
      InitialData(cfg, ops);
      UnwindRun(env, cfg, out.m, ctx, cs, j);
    }
  }

  lemma UnwindRun(env: Env, cfg: Config, m: M, ctx: Bytes, cs: seq<Request>, j: nat)
    requires ValidConfig(cfg) && j < |cs| && FailedAt(env, m, ctx, cs, j)
    requires Init(cfg).Live? && FD_AREA <= |Init(cfg).data| <= |m.w.blob|
    requires var l := LedgerAfter(cs[..j]); |l.progs| <= cfg.nrProgs && |l.maps| <= cfg.nrMaps
    ensures DenAll(env, CleanupGroups(cfg), m).m.w.ok
    ensures Unwound(env, cs, j, ctx, m.r7, DenAll(env, CleanupGroups(cfg), m).m.w)
  {
    hide DenAll, Calls, Play, Followed, Given, LedgerAfter, InPlace, Init, CleanupGroups, Answered, Places, Shuts;
    var l, es := LedgerAfter(cs[..j]), Calls(m.w.trace);
    CleanupRun(env, cfg, m, l, es, Answered(l, cs[j], j));
  }

  lemma PerformGrows(l: Ledger, c: Request, k: nat)
    ensures |l.progs| <= |Perform(l, c, k).progs| && |l.maps| <= |Perform(l, c, k).maps|
  {
    hide Answered;
  }

  // An earlier account has no more programs or maps.
  lemma {:induction false} CountersBelow(cs: seq<Request>, j: nat)
    requires j <= |cs|
    ensures |LedgerAfter(cs[..j]).progs| <= |LedgerAfter(cs).progs|
    ensures |LedgerAfter(cs[..j]).maps| <= |LedgerAfter(cs).maps|
    decreases |cs|
  {
    hide Perform;
    var n := |cs| - 1;
    if j == |cs| {
      assert cs[..j] == cs;
    } else {
      CountersBelow(cs[..n], j);
      PerformGrows(LedgerAfter(cs[..n]), cs[n], n);
      assert cs[..n][..j] == cs[..j];
    }
  }

  lemma {:induction false} InitialData(cfg: Config, ops: seq<Op>)
    requires ApplyAll(cfg, ops).Live?
    ensures Init(cfg).Live? && FD_AREA <= |Init(cfg).data| <= |ApplyAll(cfg, ops).data|
    decreases |ops|
  {
    hide Apply;
    if ops == [] {
      hide Prologue;
      assert ReserveFds(cfg).Live? && |ReserveFds(cfg).data| == FD_AREA;
    } else {
      InitialData(cfg, ops[..|ops| - 1]);
    }
  }

  // For every sequence of API calls that finishes without an error, every result of the kernel's
  // helpers, every context and every stack: the program the generator emitted halts, and has then
  // either loaded or unwound everything the account says.
  lemma LoaderRuns(env: Env, cfg: Config, ops: seq<Op>, stack: Bytes, ctx: Bytes)
    requires ValidConfig(cfg) && ValidOps(cfg, ops) && CtxRoom(cfg, ctx) && Finished(cfg, ops).Live?
    requires |stack| == STACK_SZ
    ensures exists code, w ::
              Reaches(Program(cfg, Finished(cfg, ops)), env, Start(stack, Finished(cfg, ops).data, ctx), Halted(code, w))
              && Good(env, cfg, ops, ctx, code, w)
  {
    hide Finished, Good, Meaning, Insns, Reaches;
    var g := Finished(cfg, ops);
    MeaningGood(env, cfg, ops, ctx);
    ProgramCorrect(cfg, g.groups, env, stack, g.data, ctx);
    var (code, w) := Meaning(cfg, g.groups, g.data, ctx, env);
    assert Good(env, cfg, ops, ctx, code, w);
  }
}
