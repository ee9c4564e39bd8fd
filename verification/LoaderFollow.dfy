/** One request of a run that follows the account: how the account and what is known of a run grow by
    an answer, and what the code of a bpf command does. */
module LoaderFollow {
  import opened LoaderBytes
  import opened LoaderMachine
  import opened LoaderIR
  import opened LoaderGen
  import opened LoaderFrame
  import opened LoaderShape
  import opened LoaderLedger

  // --- the account grows

  predicate SourceBelow(a: Source, n: nat) {
    match a
    case Nowhere => true
    case Of(k) => k < n
    case LastOf(ks) => forall k | k in ks :: k < n
  }

  predicate StepBelow(s: Step, n: nat) {
    match s
    case Issue(k) => k < n
    case Shut(a) => SourceBelow(a, n)
  }

  ghost predicate Below(l: Ledger, n: nat) {
    SourceBelow(l.btf, n) && SourceBelow(l.inner, n) && SourceBelow(l.attach, n)
    && (forall a | a in l.progs :: SourceBelow(a, n)) && (forall a | a in l.maps :: SourceBelow(a, n))
    && (forall a | a in l.held :: SourceBelow(a, n)) && (forall s | s in l.script :: StepBelow(s, n))
    && forall i, k | i in l.slots && k in l.slots[i] :: k < n
  }

  lemma {:induction false} ShutsBelow(places: seq<Source>, n: nat)
    requires forall a | a in places :: SourceBelow(a, n)
    ensures forall s | s in Shuts(places) :: StepBelow(s, n)
    decreases |places|
  {
    if places != [] {
      assert places[|places| - 1] in places;
      assert forall a | a in places[..|places| - 1] :: a in places;
      ShutsBelow(places[..|places| - 1], n);
    }
  }

  lemma AnsweredBelow(l: Ledger, c: Request, k: nat)
    requires Below(l, k)
    ensures forall s | s in Answered(l, c, k) :: StepBelow(s, k + 1)
  {
    hide Shuts;
    ShutsBelow(l.held + [l.attach], k);
  }

  lemma AnsweredKeeps(l: Ledger, c: Request, k: nat)
    requires Below(l, k)
    ensures Below(l.(script := Answered(l, c, k)), k + 1)
  {
    hide Answered;
    AnsweredBelow(l, c, k);
  }

  lemma PerformBelow(l: Ledger, c: Request, k: nat)
    requires Below(l, k)
    ensures Below(Perform(l, c, k), k + 1)
  {
    hide Answered, StepBelow;
    AnsweredKeeps(l, c, k);
    if c.Seek? && c.goal.Function? {
      UserBelow(l.(script := Answered(l, c, k)), k);
    } else if c.Do? && c.op.MapCreate? {
      MapBelow(l.(script := Answered(l, c, k)), c.op.spec, c.op.idx, k);
    }
  }

  // The parts of an account that a kernel function and a map change.
  lemma UserBelow(l: Ledger, k: nat)
    requires Below(l, k + 1)
    ensures var ks := Users(l, l.functions) + [k];
      Below(l.(slots := l.slots[l.functions := ks], held := l.held + [LastOf(ks)], functions := l.functions + 1), k + 1)
  {
    hide StepBelow;
    var ks := Users(l, l.functions) + [k];
    assert SourceBelow(LastOf(ks), k + 1);
  }

  lemma MapBelow(l: Ledger, s: MapSpec, idx: int, k: nat)
    requires Below(l, k + 1)
    ensures var l2 := if idx < 0 then l.(inner := Of(k)) else l.(maps := l.maps + [Of(k)]);
      Below(if IsOuter(s) then l2.(script := l2.script + [Shut(l2.inner)]) else l2, k + 1)
  {
    hide IsOuter;
  }

  lemma EmptyBelow()
    ensures Below(EMPTY, 0)
  {
  }

  lemma {:induction false} LedgerBelow(cs: seq<Request>)
    ensures Below(LedgerAfter(cs), |cs|)
    decreases |cs|
  {
    hide Below, Perform;
    if cs == [] {
      EmptyBelow();
    } else {
      var n := |cs| - 1;
      LedgerBelow(cs[..n]);
      PerformBelow(LedgerAfter(cs[..n]), cs[n], n);
    }
  }

  lemma LedgerSnoc(cs: seq<Request>, c: Request)
    ensures LedgerAfter(cs + [c]) == Perform(LedgerAfter(cs), c, |cs|)
  {
    assert (cs + [c])[..|cs|] == cs;
  }

  lemma {:induction false} LastGrows(es: seq<Event>, e: Event, ks: seq<nat>)
    requires forall k | k in ks :: k < |es|
    ensures LastFd(es + [e], ks) == LastFd(es, ks)
    decreases |ks|
  {
    if ks != [] {
      var n := |ks| - 1;
      assert ks[n] in ks;
      assert forall k | k in ks[..n] :: k in ks;
      LastGrows(es, e, ks[..n]);
    }
  }

  lemma FdGrows(es: seq<Event>, e: Event, a: Source)
    requires SourceBelow(a, |es|)
    ensures Fd(es + [e], a) == Fd(es, a)
  {
    if a.LastOf? {
      LastGrows(es, e, a.ks);
    }
  }

  lemma {:induction false} PlayGrows(es: seq<Event>, e: Event, script: seq<Step>)
    requires forall s | s in script :: StepBelow(s, |es|)
    ensures Play(es + [e], script) == Play(es, script)
    decreases |script|
  {
    hide Fd;
    if script != [] {
      var n := |script| - 1;
      assert script[n] in script && forall s | s in script[..n] :: s in script;
      PlayGrows(es, e, script[..n]);
      if script[n].Shut? {
        FdGrows(es, e, script[n].a);
      }
    }
  }

  lemma PlaySnoc(es: seq<Event>, script: seq<Step>, s: Step)
    ensures Play(es, script + [s]) == Play(es, script) + Events(es, s)
  {
    assert (script + [s])[..|script|] == script;
  }

  // The places keep what they hold when one more answer is in.
  lemma InPlaceGrows(w: World, l: Ledger, es: seq<Event>, e: Event)
    requires Below(l, |es|) && InPlace(w, l, es)
    ensures InPlace(w, l, es + [e])
  {
    hide Get, Fd, LastFd;
    FdGrows(es, e, l.btf);
    FdGrows(es, e, l.inner);
    forall i: nat | i < MAX_USED_MAPS ensures MapFd(es + [e], l, i) == MapFd(es, l, i) {
      if i < |l.maps| {
        assert l.maps[i] in l.maps;
        FdGrows(es, e, l.maps[i]);
      }
    }
    forall i: nat | i < MAX_USED_PROGS ensures ProgFd(es + [e], l, i) == ProgFd(es, l, i) {
      if i < |l.progs| {
        assert l.progs[i] in l.progs;
        FdGrows(es, e, l.progs[i]);
      }
    }
    forall i: nat | i < MAX_KFUNC_DESCS ensures LastFd(es + [e], Users(l, i)) == LastFd(es, Users(l, i)) {
      LastGrows(es, e, Users(l, i));
    }
  }

  lemma FollowedGrows(env: Env, cs: seq<Request>, c: Request, es: seq<Event>, e: Event, ctx: Bytes)
    requires |es| == |cs| && Followed(env, cs, |cs|, es, ctx)
    ensures Followed(env, cs + [c], |cs|, es + [e], ctx)
    ensures Given(env, c, LedgerAfter(cs), es, ctx, e) && Succeeds(c, e) ==> Followed(env, cs + [c], |cs| + 1, es + [e], ctx)
  {
    hide Given, LedgerAfter, Succeeds;
    var cs2, es2 := cs + [c], es + [e];
    forall i | 0 <= i < |cs| ensures Succeeds(cs2[i], es2[i])
      && Given(env, cs2[i], LedgerAfter(cs2[..i]), es2[..i], ctx, es2[i]) {
      assert cs2[..i] == cs[..i] && es2[..i] == es[..i];
      assert Given(env, cs[i], LedgerAfter(cs[..i]), es[..i], ctx, es[i]);
    }
    assert cs2[..|cs|] == cs && es2[..|cs|] == es;
  }

  lemma CallsGrow(t: seq<Event>, e: Event)
    ensures Calls(t + [e]) == Calls(t) + (if e.Close? then [] else [e])
  {
    assert (t + [e])[..|t|] == t;
  }

  // --- an answer of the kernel

  // w2 is w after a request answered by e, with writes to the blob between lo and hi.
  predicate Issued(w: World, w2: World, e: Event, lo: int, hi: int) {
    w2 == w.(blob := w2.blob, trace := w.trace + [e], calls := w2.calls)
    && |w2.blob| == |w.blob| && 0 <= lo <= hi <= |w.blob| && w2.blob[..lo] == w.blob[..lo] && w2.blob[hi..] == w.blob[hi..]
  }

  lemma SlotKept(a: Bytes, b: Bytes, lo: int, i: nat)
    requires FD_AREA <= lo <= |a| && lo <= |b| && b[..lo] == a[..lo] && i < MAX_FD_ARRAY_SZ
    ensures Get(b, FdSlot(i), 4) == Get(a, FdSlot(i), 4)
  {
    assert b[FdSlot(i)..FdSlot(i) + 4] == b[..lo][FdSlot(i)..FdSlot(i) + 4];
    assert a[FdSlot(i)..FdSlot(i) + 4] == a[..lo][FdSlot(i)..FdSlot(i) + 4];
  }

  // Writes behind the descriptor area leave every place alone.
  lemma InPlaceKept(w: World, w2: World, l: Ledger, es: seq<Event>, lo: int)
    requires InPlace(w, l, es) && w2.stack == w.stack
    requires FD_AREA <= lo <= |w.blob| && lo <= |w2.blob| && w2.blob[..lo] == w.blob[..lo]
    ensures InPlace(w2, l, es)
  {
    hide Get, Fd, LastFd, MapFd, ProgFd;
    forall i: nat | i < MAX_FD_ARRAY_SZ ensures Get(w2.blob, FdSlot(i), 4) == Get(w.blob, FdSlot(i), 4) {
      SlotKept(w.blob, w2.blob, lo, i);
    }
    forall i: nat | i < MAX_KFUNC_DESCS ensures Get(w2.blob, FdSlot(MAX_USED_MAPS + i), 4) == LastFd(es, Users(l, i)) {
      assert MAX_USED_MAPS + i < MAX_FD_ARRAY_SZ;
      assert Get(w.blob, FdSlot(MAX_USED_MAPS + i), 4) == LastFd(es, Users(l, i));
    }
  }

  // Everything stays in its place while a request is made.
  lemma IssuedInPlace(w: World, w2: World, e: Event, lo: int, hi: int, cs: seq<Request>)
    requires !e.Close? && Issued(w, w2, e, lo, hi) && lo >= FD_AREA
    requires var l, es := LedgerAfter(cs), Calls(w.trace); |es| == |cs| && InPlace(w, l, es) && w.trace == Play(es, l.script)
    ensures var l, es := LedgerAfter(cs), Calls(w.trace) + [e];
      Calls(w2.trace) == es && InPlace(w2, l, es) && w2.trace == Play(es, l.script + [Issue(|cs|)])
  {
    hide Get, InPlace, LedgerAfter, Calls, Play;
    var l, es := LedgerAfter(cs), Calls(w.trace);
    LedgerBelow(cs);
    CallsGrow(w.trace, e);
    InPlaceKept(w, w2, l, es, lo);
    InPlaceGrows(w2, l, es, e);
    PlayGrows(es, e, l.script);
    PlaySnoc(es + [e], l.script, Issue(|cs|));
  }

  lemma TailKept(a: Bytes, b: Bytes, d: Bytes, lo: int, hi: int)
    requires 0 <= lo <= hi <= |d| && |a| == |b| == |d|
    requires b[hi..] == a[hi..] && a[lo..] == d[lo..]
    ensures b[hi..] == d[hi..]
  {
    assert a[hi..] == a[lo..][hi - lo..];
    assert d[hi..] == d[lo..][hi - lo..];
  }

  // An answer that sends the run to the cleanup code.
  lemma Fail(env: Env, g: Gen, hi: int, c: Request, m: M, m2: M, e: Event, d: Bytes, ctx: Bytes, cs: seq<Request>)
    requires Tracks(env, g, m.w, d, ctx, cs) && !(c.Do? && c.op.ProgLoad?)
    requires Issued(m.w, m2.w, e, |g.data|, hi) && Fails(c, e) && m2.r7 == Num(e.ret)
    requires Given(env, c, LedgerAfter(cs), Calls(m.w.trace), ctx, e)
    ensures FailedAt(env, m2, ctx, cs + [c], |cs|)
  {
    hide Given, LedgerAfter, InPlace, Calls, Play;
    var l, es := LedgerAfter(cs), Calls(m.w.trace);
    IssuedInPlace(m.w, m2.w, e, |g.data|, hi, cs);
    FollowedGrows(env, cs, c, es, e, ctx);
    assert (cs + [c])[..|cs|] == cs;
    assert (es + [e])[..|cs|] == es;
    assert Answered(l, c, |cs|) == l.script + [Issue(|cs|)];
  }

  // The facts of an answered request add up to the next state of the account.
  lemma Assemble(env: Env, g: Gen, g': Gen, c: Request, w: World, w2: World, e: Event, d: Bytes, ctx: Bytes, cs: seq<Request>)
    requires Tracks(env, g, w, d, ctx, cs) && g'.Live? && |g.data| <= |g'.data| <= |d|
    requires Given(env, c, LedgerAfter(cs), Calls(w.trace), ctx, e) && Succeeds(c, e)
    requires var l, es := Perform(LedgerAfter(cs), c, |cs|), Calls(w.trace) + [e];
      InPlace(w2, l, es) && Calls(w2.trace) == es && w2.trace == Play(es, l.script)
      && |l.maps| == g'.nrMaps && |l.progs| == g'.nrProgs
    requires w2.ok && w2.ctx == ctx && |w2.blob| == |w.blob| && w2.blob[|g'.data|..] == w.blob[|g'.data|..]
    ensures Tracks(env, g', w2, d, ctx, cs + [c])
  {
    hide Given, InPlace, Calls, Play, Perform;
    FollowedGrows(env, cs, c, Calls(w.trace), e, ctx);
    LedgerSnoc(cs, c);
    TailKept(w.blob, w2.blob, d, |g.data|, |g'.data|);
  }

  // A request whose result needs no place.
  lemma Advance(env: Env, g: Gen, g': Gen, c: Request, m: M, m2: M, e: Event, d: Bytes, ctx: Bytes, cs: seq<Request>)
    requires g'.Live? && Tracks(env, g, m.w, d, ctx, cs) && |g.data| <= |g'.data| <= |d|
    requires g'.nrProgs == g.nrProgs && g'.nrMaps == g.nrMaps
    requires Issued(m.w, m2.w, e, |g.data|, |g'.data|) && Succeeds(c, e)
    requires Given(env, c, LedgerAfter(cs), Calls(m.w.trace), ctx, e)
    requires c.Do? && (c.op.MapUpdate? || c.op.MapFreeze? || c.op.PopulateOuter?)
    ensures Tracks(env, g', m2.w, d, ctx, cs + [c])
  {
    hide Given, InPlace, Calls, Play, LedgerAfter;
    var l := LedgerAfter(cs);
    IssuedInPlace(m.w, m2.w, e, |g.data|, |g'.data|, cs);
    assert Answered(l, c, |cs|) == l.script + [Issue(|cs|)];
    InPlaceSame(m2.w, l, Perform(l, c, |cs|), Calls(m.w.trace) + [e]);
    Assemble(env, g, g', c, m.w, m2.w, e, d, ctx, cs);
  }

  // An account with the same places.
  lemma InPlaceSame(w: World, l: Ledger, l2: Ledger, es: seq<Event>)
    requires InPlace(w, l, es)
    requires l2 == l.(held := l2.held, functions := l2.functions, attach := l2.attach, script := l2.script)
    ensures InPlace(w, l2, es)
  {
    hide Get, Fd, LastFd;
    forall i: nat | i < MAX_USED_MAPS ensures MapFd(es, l2, i) == MapFd(es, l, i) {
    }
    forall i: nat | i < MAX_USED_PROGS ensures ProgFd(es, l2, i) == ProgFd(es, l, i) {
    }
    forall i: nat | i < MAX_KFUNC_DESCS ensures Users(l2, i) == Users(l, i) {
    }
  }

  // --- the code of a command

  function CommandGroups(sh: Shape): seq<Group> {
    [SysCall(sh.cmd, sh.attr, sh.size), DebugRet(sh.dbg), CheckErr]
  }

  // What the kernel sees once the attribute has been filled in.
  function CommandEvent(env: Env, sh: Shape, w: World): (e: Event)
    ensures e.Bpf?
  {
    Bpf(sh.cmd, sh.attr, sh.size, w.blob, env.bpf(w.calls), w.calls)
  }

  lemma SysRun(env: Env, sh: Shape, m: M, hi: int)
    requires m.w.ok && 0 <= sh.attr && sh.attr + sh.size <= hi <= |m.w.blob| && DbgIn(sh.dbg, hi)
    ensures var e, out := CommandEvent(env, sh, m.w), DenAll(env, [SysCall(sh.cmd, sh.attr, sh.size), DebugRet(sh.dbg)], m);
      out.Next? && out.m.w == m.w.(trace := m.w.trace + [e], calls := out.m.w.calls) && out.m.r7 == Num(e.ret)
  {
    hide InRange;
    var gs := [SysCall(sh.cmd, sh.attr, sh.size), DebugRet(sh.dbg)];
    assert InRange(m.w.blob, sh.attr, sh.size) by { InRangeHolds(m.w.blob, sh.attr, sh.size); }
    if sh.dbg.Dbg? {
      InRangeHolds(m.w.blob, sh.dbg.addr, sh.dbg.len);
    }
    var m1 := Den(env, gs[0], m).m;
    var m2 := Den(env, gs[1], m1).m;
    assert gs[1..] == [DebugRet(sh.dbg)] && gs[1..][1..] == [];
    assert DenAll(env, gs[1..], m1) == DenAll(env, [], m2) == Next(m2);
  }

  lemma CheckRun(env: Env, m: M)
    requires m.r7.Num?
    ensures DenAll(env, [CheckErr], m) == if m.r7.v < 0 then Err(m) else Next(m)
  {
    assert [CheckErr][1..] == [];
    if m.r7.v >= 0 {
      assert DenAll(env, [], m) == Next(m);
    }
  }

  lemma CommandRun(env: Env, sh: Shape, m: M, hi: int)
    requires m.w.ok && 0 <= sh.attr && sh.attr + sh.size <= hi <= |m.w.blob| && DbgIn(sh.dbg, hi)
    ensures var e, out := CommandEvent(env, sh, m.w), DenAll(env, CommandGroups(sh), m);
      out.m.w == m.w.(trace := m.w.trace + [e], calls := out.m.w.calls)
      && out.m.r7 == Num(e.ret) && (out.Err? <==> e.ret < 0)
  {
    hide Den, DenAll;
    var gs := [SysCall(sh.cmd, sh.attr, sh.size), DebugRet(sh.dbg)];
    assert CommandGroups(sh) == gs + [CheckErr];
    SysRun(env, sh, m, hi);
    DenAppend(env, gs, [CheckErr], m);
    CheckRun(env, DenAll(env, gs, m).m);
  }

  lemma InRangeHolds(b: Bytes, off: int, n: nat)
    requires 0 <= off && off + n <= |b|
    ensures InRange(b, off, n)
  {
  }

  function Before(env: Env, sh: Shape, m: M): World {
    DenAll(env, sh.pre, m).m.w
  }

  // Attribute, command, check.
  lemma HeadRun(env: Env, g: Gen, g': Gen, sh: Shape, m: M, d: Bytes, ctx: Bytes, cs: seq<Request>)
    requires g'.Live? && Tracks(env, g, m.w, d, ctx, cs) && Fits(sh, g, g') && g'.data <= d
    requires AllQuiet(sh.pre, |g.data|, |g'.data|, |ctx|)
    ensures var e, out := CommandEvent(env, sh, Before(env, sh, m)), DenAll(env, sh.pre + CommandGroups(sh), m);
      Framed(m.w, Before(env, sh, m), |g.data|, |g'.data|)
      && Issued(m.w, out.m.w, e, |g.data|, |g'.data|) && out.m.r7 == Num(e.ret) && (out.Err? <==> e.ret < 0)
  {
    hide DenAll, Given, LedgerAfter, Calls, Play;
    var lo, hi := |g.data|, |g'.data|;
    QuietRun(env, sh.pre, m, lo, hi, |ctx|);
    DenAppend(env, sh.pre, CommandGroups(sh), m);
    CommandRun(env, sh, DenAll(env, sh.pre, m).m, hi);
  }

  // --- saving a descriptor

  lemma WordPut(b: Bytes, off: int, v: nat, at: int)
    requires v < TWO32 && InRange(b, off, 4) && InRange(b, at, 4)
    requires at == off || at + 4 <= off || off + 4 <= at
    ensures Get(Put(b, off, LittleEndian(v, 4)), at, 4) == if at == off then v else Get(b, at, 4)
  {
    var bs := LittleEndian(v, 4);
    if at == off {
      GetPutSame(b, off, bs);
      ReadBack(v, 4);
      assert Pow256(4) == TWO32;
    } else {
      GetPutOther(b, off, bs, at, 4);
    }
  }

  lemma SaveStack(env: Env, m: M, so: int, v: nat)
    requires m.r7 == Num(v) && v < 0x8000_0000 && |m.w.stack| == STACK_SZ && -STACK_SZ <= so <= -4
    ensures Den(env, SaveToStack(so), m)
         == Next(m.(w := m.w.(stack := Put(m.w.stack, STACK_SZ + so, LittleEndian(v, 4)))))
  {
    hide Put;
  }

  lemma SaveBlob(env: Env, m: M, off: int, v: nat)
    requires m.r7 == Num(v) && v < 0x8000_0000 && InRange(m.w.blob, off, 4)
    ensures Den(env, SaveToBlob(off), m) == Next(m.(w := m.w.(blob := Put(m.w.blob, off, LittleEndian(v, 4)))))
  {
    hide Put;
  }
}
