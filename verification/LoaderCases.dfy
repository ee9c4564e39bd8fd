/** Concrete loaders, from the API calls to the close events of a run, in which a descriptor is closed
    twice or left open. */
module LoaderCases {
  import opened LoaderBytes
  import opened LoaderMachine
  import opened LoaderIR
  import opened LoaderGen
  import opened LoaderRun
  import opened LoaderShape
  import opened LoaderLedger
  import opened LoaderFollow
  import opened LoaderGiven
  import opened LoaderTheorem
  import opened LoaderMain
  import opened LoaderExact
  import opened LoaderSilent
  import opened LoaderRoom

  // A loader without prints, with plenty of room.
  function Plain(nrProgs: nat, nrMaps: nat): Config {
    Config(0, nrProgs, nrMaps, (msg: Msg) => [], 0x7000, 10000)
  }

  const CTX: Bytes := Zeros(100)

  // The descriptors that answers brought, in order.
  function Brought(es: seq<Event>): seq<int> {
    if es == [] then [] else
    var n := |es| - 1;
    Brought(es[..n]) + (if Descriptor(es[n]) > 0 then [Descriptor(es[n])] else [])
  }

  // The finished program halts with this exit code, having been brought and having closed these
  // descriptors.
  ghost predicate Runs(env: Env, cfg: Config, ops: seq<Op>, code: int, brought: seq<int>, closed: seq<int>) {
    ValidConfig(cfg) && ValidOps(cfg, ops) && Finished(cfg, ops).Live?
    && exists w ::
         Reaches(Program(cfg, Finished(cfg, ops)), env, Start(Zeros(STACK_SZ), Finished(cfg, ops).data, CTX),
           Halted(Num(code), w))
         && Brought(Calls(w.trace)) == brought && ClosedFds(w.trace) == closed
  }

  // A run without prints, with the position of each answer.
  lemma Traces(env: Env, cfg: Config, ops: seq<Op>) returns (code: Val, w: World)
    requires ValidConfig(cfg) && ValidOps(cfg, ops) && CtxRoom(cfg, CTX) && cfg.logLevel == 0
    requires Finished(cfg, ops).Live? && AllSilent(Finished(cfg, ops).groups)
    ensures Good(env, cfg, ops, CTX, code, w) && Answers(env, w.trace)
    ensures Reaches(Program(cfg, Finished(cfg, ops)), env, Start(Zeros(STACK_SZ), Finished(cfg, ops).data, CTX),
      Halted(code, w))
  {
    hide Finished, ValidOps, Loaded, Unwound, Reaches, DenAll, CleanupGroups, AllSilent, Insns, Answers, Requests;
    var g := Finished(cfg, ops);
    MeaningGood(env, cfg, ops, CTX);
    ProgramCorrect(cfg, g.groups, env, Zeros(STACK_SZ), g.data, CTX);
    var m0 := Begin(g.data, CTX);
    Nothing(env);
    AllTraced(env, g.groups, m0);
    CleanupSilent(cfg);
    AllTraced(env, CleanupGroups(cfg), DenAll(env, g.groups, m0).m);
    var r := Meaning(cfg, g.groups, g.data, CTX, env);
    code, w := r.0, r.1;
  }

  lemma Nothing(env: Env)
    ensures Answers(env, [])
  {
  }

  // --- where the answers stand

  lemma {:induction false} PlayPrefix(es: seq<Event>, a: seq<Step>, b: seq<Step>)
    requires a <= b
    ensures Play(es, a) <= Play(es, b)
    decreases |b|
  {
    hide Events;
    if a == b {
    } else {
      var n := |b| - 1;
      assert b[..|a|] == a && b[..n][..|a|] == a;
      PlayPrefix(es, a, b[..n]);
    }
  }

  lemma PlaySnoc(es: seq<Event>, a: seq<Step>, s: Step)
    ensures Play(es, a + [s]) == Play(es, a) + Events(es, s)
  {
    assert (a + [s])[..|a|] == a;
  }

  // One more step of a script: how many events it has come to, and what they close.
  lemma PlayStep(es: seq<Event>, a: seq<Step>, s: Step)
    requires s.Issue? ==> s.k < |es| && !es[s.k].Close?
    ensures var p, q := Play(es, a), Play(es, a + [s]);
      if s.Issue? then |q| == |p| + 1 && ClosedFds(q) == ClosedFds(p)
      else if Fd(es, s.a) == 0 then q == p
      else |q| == |p| + 1 && ClosedFds(q) == ClosedFds(p) + [Fd(es, s.a)]
  {
    hide Fd, Play;
    PlaySnoc(es, a, s);
    var p := Play(es, a);
    if s.Issue? {
      assert (p + [es[s.k]])[..|p|] == p;
    } else if Fd(es, s.a) != 0 {
      assert (p + [Close(Fd(es, s.a))])[..|p|] == p;
    } else {
      assert p + [] == p;
    }
  }

  lemma PlayNone(es: seq<Event>)
    ensures Play(es, []) == [] && ClosedFds([]) == []
  {
  }

  lemma Asked(l: Ledger, c: Request, k: nat)
    ensures l.script + [Issue(k)] <= Answered(l, c, k) <= Perform(l, c, k).script
  {
    hide Shuts;
  }

  // The script of a run starts with that of each request it comes to.
  lemma {:induction false} ScriptStarts(cs: seq<Request>, i: nat, j: nat)
    requires i < j <= |cs|
    ensures LedgerAfter(cs[..i]).script + [Issue(i)] <= LedgerAfter(cs[..j]).script
  {
    hide Perform, Answered;
    var n := j - 1;
    assert cs[..j][..n] == cs[..n];
    Asked(LedgerAfter(cs[..n]), cs[n], n);
    if i < n {
      ScriptStarts(cs, i, n);
    }
  }

  // The run of requests cs has ended: j of them succeeded, and the next one, if any, failed.
  ghost predicate EndedAt(env: Env, cs: seq<Request>, j: nat, nrMaps: nat, code: Val, w: World)
    requires j <= |cs|
  {
    Answers(env, w.trace)
    && if j == |cs| then Loaded(env, cs, nrMaps, CTX, code, w) else Unwound(env, cs, j, CTX, code, w)
  }

  function EndScript(cs: seq<Request>, j: nat): seq<Step>
    requires j <= |cs|
  {
    if j == |cs| then LoadedScript(cs) else UnwoundScript(cs, j)
  }

  lemma EndsWith(env: Env, cs: seq<Request>, j: nat, nrMaps: nat, code: Val, w: World, i: nat)
    requires j <= |cs| && i <= j && i < |cs| && EndedAt(env, cs, j, nrMaps, code, w)
    ensures w.trace == Play(Calls(w.trace), EndScript(cs, j)) && i < |Calls(w.trace)|
    ensures LedgerAfter(cs[..i]).script + [Issue(i)] <= EndScript(cs, j)
  {
    hide LedgerAfter, Shuts, Play, Calls, Answers, Given, Followed, Get, Answered;
    var l := LedgerAfter(cs[..i]);
    if i < j {
      ScriptStarts(cs, i, j);
    }
    if j < |cs| {
      Asked(LedgerAfter(cs[..j]), cs[j], j);
      var l2 := LedgerAfter(cs[..j]);
      assert l2.script + [Issue(j)] <= UnwoundScript(cs, j);
      assert i < j ==> l.script + [Issue(i)] <= l2.script <= UnwoundScript(cs, j);
    } else {
      assert cs[..j] == cs;
    }
  }

  // Request i was answered by the helper call after the events that its account comes to.
  lemma Reply(env: Env, cs: seq<Request>, j: nat, nrMaps: nat, code: Val, w: World, i: nat)
    requires j <= |cs| && i <= j && i < |cs| && EndedAt(env, cs, j, nrMaps, code, w)
    ensures i < |Calls(w.trace)| && !Calls(w.trace)[i].Close?
    ensures var es := Calls(w.trace); var n := |Play(es, LedgerAfter(cs[..i]).script)| + 1;
      es[i].ret == (if cs[i].Do? then env.bpf(n) else env.any(n))
      && es[i].Bpf? == cs[i].Do? && (if i < j then Succeeds(cs[i], es[i]) else Fails(cs[i], es[i]))
  {
    hide LedgerAfter, Play, Calls, Given, EndScript, Events;
    var es, script := Calls(w.trace), LedgerAfter(cs[..i]).script;
    EndsWith(env, cs, j, nrMaps, code, w, i);
    PlayPrefix(es, script + [Issue(i)], EndScript(cs, j));
    PlaySnoc(es, script, Issue(i));
    IssueIs(es, i);
    Verdict(env, cs, j, nrMaps, code, w, i);
    assert w.trace[|Play(es, script)|] == es[i];
  }

  lemma IssueIs(es: seq<Event>, i: nat)
    requires i < |es|
    ensures Events(es, Issue(i)) == [es[i]]
  {
  }

  lemma Verdict(env: Env, cs: seq<Request>, j: nat, nrMaps: nat, code: Val, w: World, i: nat)
    requires j <= |cs| && i <= j && i < |cs| && EndedAt(env, cs, j, nrMaps, code, w) && i < |Calls(w.trace)|
    ensures var es := Calls(w.trace); if i < j then Succeeds(cs[i], es[i]) else Fails(cs[i], es[i])
  {
    hide LedgerAfter, Play, Calls, Given, Answers, Get, Shuts, Succeeds, Fails;
  }

  // --- an inner map

  const INNER: MapSpec := MapSpec(2, [], 4, 4, 1, 0, 0, 0, 0, 0, 0)
  const OUTER: MapSpec := MapSpec(BPF_MAP_TYPE_ARRAY_OF_MAPS, [], 4, 4, 1, 0, 0, 0, 0, 0, 0)

  // An inner map, the outer map that uses it, and another map.
  const MAPS: seq<Op> := [MapCreate(INNER, -1), MapCreate(OUTER, 0), MapCreate(INNER, 1)]

  // The kernel creates the first two with descriptors 3 and 4 and refuses the third.
  function ThirdFails(): Env {
    Env(0, n => if n == 1 then 3 else if n == 2 then 4 else -1, n => 0, (n, k) => [], (n, h, a, k) => [])
  }

  lemma ApplyOne(cfg: Config, ops: seq<Op>, op: Op)
    ensures ApplyAll(cfg, ops + [op]) == Apply(cfg, ApplyAll(cfg, ops), op)
  {
    hide Apply, Init;
    assert (ops + [op])[..|ops|] == ops;
  }

  lemma AskOne(ops: seq<Op>, op: Op)
    ensures Requests(ops + [op]) == Requests(ops) + Asks(op, PendingAfter(ops))
  {
    assert (ops + [op])[..|ops|] == ops;
  }

  lemma MapsFinish()
    ensures var cfg := Plain(0, 2); ValidConfig(cfg) && ValidOps(cfg, MAPS) && CtxRoom(cfg, CTX)
    ensures var f := Finished(Plain(0, 2), MAPS); f.Live? && AllSilent(f.groups)
  {
    hide Init, GenMapCreate, Finish, Roomy, AllSilent;
    var cfg := Plain(0, 2);
    assert MAPS == [] + [MAPS[0]] + [MAPS[1]] + [MAPS[2]];
    InitRoom(cfg, 28, 216);
    var g0 := Init(cfg);
    ApplyOne(cfg, [], MAPS[0]);
    MapRoom(cfg, g0, INNER, -1, 20, 144);
    var g1 := GenMapCreate(cfg, g0, INNER, -1);
    ApplyOne(cfg, [] + [MAPS[0]], MAPS[1]);
    MapRoom(cfg, g1, OUTER, 0, 12, 72);
    var g2 := GenMapCreate(cfg, g1, OUTER, 0);
    ApplyOne(cfg, [] + [MAPS[0]] + [MAPS[1]], MAPS[2]);
    MapRoom(cfg, g2, INNER, 1, 4, 0);
    var g3 := GenMapCreate(cfg, g2, INNER, 1);
    RoomyLive(cfg, g3, 4, 0);
    FinishRoom(cfg, g3);
  }

  lemma Ending(env: Env, cfg: Config, ops: seq<Op>, code: Val, w: World) returns (j: nat)
    requires Good(env, cfg, ops, CTX, code, w) && Answers(env, w.trace)
    ensures j <= |Requests(ops)| && EndedAt(env, Requests(ops), j, cfg.nrMaps, code, w)
  {
    hide Loaded, Unwound, Answers, Requests;
    var cs := Requests(ops);
    if Loaded(env, cs, cfg.nrMaps, CTX, code, w) {
      j := |cs|;
    } else {
      j :| 0 <= j < |cs| && Unwound(env, cs, j, CTX, code, w);
    }
  }

  function MapRequests(): seq<Request> {
    [Do(MAPS[0], NOTHING), Do(MAPS[1], NOTHING), Do(MAPS[2], NOTHING)]
  }

  lemma MapsAsk()
    ensures Requests(MAPS) == MapRequests()
  {
    hide Requests, PendingAfter;
    assert MAPS == [] + [MAPS[0]] + [MAPS[1]] + [MAPS[2]];
    PendingMore([], MAPS[0]);
    PendingMore([] + [MAPS[0]], MAPS[1]);
    PendingMore([] + [MAPS[0]] + [MAPS[1]], MAPS[2]);
    AskOne([], MAPS[0]);
    AskOne([] + [MAPS[0]], MAPS[1]);
    AskOne([] + [MAPS[0]] + [MAPS[1]], MAPS[2]);
    NothingYet();
  }

  lemma NothingYet()
    ensures Requests([]) == [] && PendingAfter([]) == NOTHING && LedgerAfter([]) == EMPTY && Calls([]) == []
  {
  }

  lemma PendingMore(ops: seq<Op>, op: Op)
    ensures (op.MapCreate? ==> PendingAfter(ops + [op]) == PendingAfter(ops))
    ensures (op.ProgLoad? ==> PendingAfter(ops + [op]) == NOTHING)
    ensures (op.RecordExtern? ==> var p := PendingAfter(ops); PendingAfter(ops + [op]) == p.(relos := p.relos + [op.relo]))
  {
    assert (ops + [op])[..|ops|] == ops;
  }

  // The accounts of the first two requests.
  lemma MapLedgers()
    ensures var cs := MapRequests();
      LedgerAfter(cs[..0]) == EMPTY
      && LedgerAfter(cs[..1]) == EMPTY.(inner := Of(0), script := [Issue(0)])
      && LedgerAfter(cs[..2]) == EMPTY.(inner := Of(0), maps := [Of(1)], script := [Issue(0), Issue(1), Shut(Of(0))])
  {
    hide LedgerAfter, Shuts;
    var cs := MapRequests();
    NothingYet();
    assert cs[..0] == [] && cs[..1] == cs[..0] + [cs[0]] && cs[..2] == cs[..1] + [cs[1]];
    LedgerSnoc(cs[..0], cs[0]);
    LedgerSnoc(cs[..1], cs[1]);
  }

  // The inner map's descriptor, closed when the outer map has been created, is closed again.
  lemma InnerClosedTwice()
    ensures Runs(ThirdFails(), Plain(0, 2), MAPS, -1, [3, 4], [3, 3, 4])
  {
    hide Finished, Good, Requests, Reaches, Answers, ValidOps, AllSilent, EndedAt, LedgerAfter, Calls, ClosedFds;
    var env, cfg := ThirdFails(), Plain(0, 2);
    MapsFinish();
    var code, w := Traces(env, cfg, MAPS);
    var j := Ending(env, cfg, MAPS, code, w);
    MapsAsk();
    MapsEnd(env, cfg, code, w, j);
  }

  // Where the helper calls of the three requests are made.
  lemma MapsPlay(es: seq<Event>)
    requires forall e | e in es :: !e.Close?
    ensures |es| > 0 ==> |Play(es, [Issue(0)])| == 1
    ensures |es| > 1 && FdOf(es, 0) != 0 ==> |Play(es, [Issue(0), Issue(1), Shut(Of(0))])| == 3
    ensures |es| > 2 && FdOf(es, 0) == 3 && FdOf(es, 1) == 4 ==>
      ClosedFds(Play(es, [Issue(0), Issue(1), Shut(Of(0)), Issue(2), Shut(Nowhere), Shut(Of(0)), Shut(Of(1))])) == [3, 3, 4]
  {
    hide Play, ClosedFds, FdOf;
    PlayNone(es);
    var s1, s2, s3 := [Issue(0)], [Issue(0), Issue(1)], [Issue(0), Issue(1), Shut(Of(0))];
    if |es| > 0 {
      assert [] + [Issue(0)] == s1;
      PlayStep(es, [], Issue(0));
    }
    if |es| > 1 {
      assert s1 + [Issue(1)] == s2 && s2 + [Shut(Of(0))] == s3;
      PlayStep(es, s1, Issue(1));
      PlayStep(es, s2, Shut(Of(0)));
    }
    if |es| > 2 {
      var s4 := s3 + [Issue(2)];
      PlayStep(es, s3, Issue(2));
      PlayStep(es, s4, Shut(Nowhere));
      PlayStep(es, s4 + [Shut(Nowhere)], Shut(Of(0)));
      PlayStep(es, s4 + [Shut(Nowhere)] + [Shut(Of(0))], Shut(Of(1)));
      assert s4 + [Shut(Nowhere)] + [Shut(Of(0))] + [Shut(Of(1))]
          == [Issue(0), Issue(1), Shut(Of(0)), Issue(2), Shut(Nowhere), Shut(Of(0)), Shut(Of(1))];
    }
  }

  lemma ShutsMore(places: seq<Source>, a: Source)
    ensures Shuts(places + [a]) == Shuts(places) + [Shut(a)] && Shuts([]) == []
  {
    assert (places + [a])[..|places|] == places;
  }

  lemma MapsScript()
    ensures UnwoundScript(MapRequests(), 2) == [Issue(0), Issue(1), Shut(Of(0)), Issue(2), Shut(Nowhere),
      Shut(Of(0)), Shut(Of(1))]
  {
    hide LedgerAfter;
    MapLedgers();
    var p := Places(EMPTY.(inner := Of(0), maps := [Of(1)], script := [Issue(0), Issue(1), Shut(Of(0))]));
    assert p == [] + [Nowhere] + [Of(0)] + [Of(1)];
    ShutsMore([], Nowhere);
    ShutsMore([] + [Nowhere], Of(0));
    ShutsMore([] + [Nowhere] + [Of(0)], Of(1));
  }

  lemma MapsEnd(env: Env, cfg: Config, code: Val, w: World, j: nat)
    requires env == ThirdFails() && j <= 3 && EndedAt(env, MapRequests(), j, 2, code, w)
    ensures code == Num(-1) && Brought(Calls(w.trace)) == [3, 4] && ClosedFds(w.trace) == [3, 3, 4]
  {
    hide EndedAt, LedgerAfter, Calls, ClosedFds, Play, UnwoundScript, Brought;
    var cs, es := MapRequests(), Calls(w.trace);
    CallsPlain(w.trace);
    MapLedgers();
    MapsPlay(es);
    PlayNone(es);
    Reply(env, cs, j, 2, code, w, 0);
    if j > 0 {
      Reply(env, cs, j, 2, code, w, 1);
    }
    if j > 1 {
      Reply(env, cs, j, 2, code, w, 2);
    }
    assert j == 2;
    MapsScript();
    Failure(env, cs, j, 2, code, w);
    BroughtThree(es);
  }

  lemma Failure(env: Env, cs: seq<Request>, j: nat, nrMaps: nat, code: Val, w: World)
    requires j < |cs| && EndedAt(env, cs, j, nrMaps, code, w)
    ensures var es := Calls(w.trace); |es| == j + 1 && code == Num(es[j].ret) && w.trace == Play(es, UnwoundScript(cs, j))
  {
    hide LedgerAfter, Play, Calls, Given, Answers, Get, Followed, UnwoundScript;
  }

  lemma BroughtMore(es: seq<Event>, e: Event)
    ensures Brought(es + [e]) == Brought(es) + (if Descriptor(e) > 0 then [Descriptor(e)] else []) && Brought([]) == []
  {
    hide Descriptor;
    assert (es + [e])[..|es|] == es;
  }

  lemma BroughtThree(es: seq<Event>)
    requires |es| == 3
    ensures Brought(es) == (if Descriptor(es[0]) > 0 then [Descriptor(es[0])] else [])
      + (if Descriptor(es[1]) > 0 then [Descriptor(es[1])] else [])
        + (if Descriptor(es[2]) > 0 then [Descriptor(es[2])] else [])
  {
    hide Brought, Descriptor;
    assert es == [] + [es[0]] + [es[1]] + [es[2]];
    BroughtMore([], es[0]);
    BroughtMore([] + [es[0]], es[1]);
    BroughtMore([] + [es[0]] + [es[1]], es[2]);
  }

  // --- a search that fails

  // A program that calls two kernel functions.
  const F: Relo := Relo([0x66], BTF_KIND_FUNC, 0, false, false)
  const G: Relo := Relo([0x67], BTF_KIND_FUNC, 1, false, false)
  const CALLS: Bytes := [0x85, 0x20, 0, 0, 0, 0, 0, 0, 0x85, 0x20, 0, 0, 0, 0, 0, 0]
  const CALLER: ProgSpec := ProgSpec(1, [], [], CALLS, 0, 0, 0, 0, 0, 0, [], 0, 0, [])
  const ONE: seq<Op> := [RecordExtern(F), RecordExtern(G), ProgLoad(CALLER)]

  // The first is found in a module, whose BTF gets descriptor 5; the second is not found.
  function SecondMissing(): Env {
    Env(0, n => -1, n => if n == 1 then 5 * TWO32 + 7 else -ENOENT, (n, k) => [], (n, h, a, k) => [])
  }

  lemma Records(cfg: Config, g: Gen, rs: seq<Relo>, r: Relo, n: nat, b: nat)
    requires Roomy(cfg, g, n, b) && Waiting(g, rs)
    ensures var g2 := GenRecordExtern(cfg, g, r);
      Roomy(cfg, g2, n, b) && Waiting(g2, rs + [r]) && g2.nrProgs == g.nrProgs && g2.nrMaps == g.nrMaps
  {
    hide Roomy;
    Counted(cfg, g, GenRecordExtern(cfg, g, r), n, b);
  }

  lemma OneValid()
    ensures ValidOps(Plain(1, 0), ONE)
  {
    hide PendingAfter;
    assert ONE == [] + [ONE[0]] + [ONE[1]] + [ONE[2]];
    NothingYet();
    PendingMore([], ONE[0]);
    PendingMore([] + [ONE[0]], ONE[1]);
    assert ONE[..2] == [] + [ONE[0]] + [ONE[1]];
    assert PendingAfter(ONE[..2]).relos == [F, G];
    FitTwo();
  }

  lemma FitTwo()
    ensures RelosFit([F, G], CALLS)
  {
  }

  lemma OneFinish()
    ensures var cfg := Plain(1, 0); ValidConfig(cfg) && CtxRoom(cfg, CTX)
    ensures var f := Finished(Plain(1, 0), ONE); f.Live? && AllSilent(f.groups)
  {
    hide Init, GenProgLoad, Finish, Roomy, AllSilent;
    var cfg := Plain(1, 0);
    assert ONE == [] + [ONE[0]] + [ONE[1]] + [ONE[2]];
    InitRoom(cfg, 29, 208);
    var g0 := Init(cfg);
    RoomyLive(cfg, g0, 29, 208);
    ApplyOne(cfg, [], ONE[0]);
    Records(cfg, g0, [], F, 29, 208);
    var g1 := GenRecordExtern(cfg, g0, F);
    ApplyOne(cfg, [] + [ONE[0]], ONE[1]);
    Records(cfg, g1, [F], G, 29, 208);
    var g2 := GenRecordExtern(cfg, g1, G);
    ApplyOne(cfg, [] + [ONE[0]] + [ONE[1]], ONE[2]);
    LoadRoom(cfg, g2, CALLER, [F, G], 3, 0);
    FinishRoom(cfg, GenProgLoad(cfg, g2, CALLER));
  }

  const SEEK_F: Request := Seek([0x66], BTF_KIND_FUNC, true, Function)
  const SEEK_G: Request := Seek([0x67], BTF_KIND_FUNC, true, Function)

  const FOUND: Pending := NOTHING.(relos := [F, G])

  lemma OneSought()
    ensures Asks(ONE[2], FOUND) == [SEEK_F, SEEK_G, Do(ONE[2], FOUND)]
  {
    hide Sought;
    SoughtOne([F, G], 0);
    SoughtOne([F, G], 1);
    assert Sought([F, G], 2) == [SEEK_F, SEEK_G];
  }

  lemma OneAsk()
    ensures Requests(ONE) == [SEEK_F, SEEK_G, Do(ONE[2], FOUND)]
  {
    hide Requests, PendingAfter, Asks, Sought;
    assert ONE == [] + [ONE[0]] + [ONE[1]] + [ONE[2]];
    NothingYet();
    PendingMore([], ONE[0]);
    PendingMore([] + [ONE[0]], ONE[1]);
    assert [] + [F] + [G] == [F, G];
    AskOne([], ONE[0]);
    AskOne([] + [ONE[0]], ONE[1]);
    AskOne([] + [ONE[0]] + [ONE[1]], ONE[2]);
    AsksNothing(F);
    AsksNothing(G);
    OneSought();
  }

  lemma AsksNothing(r: Relo)
    ensures forall p :: Asks(RecordExtern(r), p) == []
  {
  }

  lemma SoughtOne(rs: seq<Relo>, n: nat)
    requires n < |rs| && forall i, j | 0 <= i < j < |rs| :: rs[i].name != rs[j].name
    ensures Sought(rs, 0) == [] && Sought(rs, n + 1) == Sought(rs, n) + [SearchFor(rs[n])]
  {
  }

  // When the second search fails, the module's descriptor stays open.
  lemma ModuleLeftOpen()
    ensures Runs(SecondMissing(), Plain(1, 0), ONE, -ENOENT, [5], [])
  {
    hide Finished, Good, Requests, Reaches, Answers, ValidOps, AllSilent, EndedAt, LedgerAfter, Calls, ClosedFds, Brought;
    var env, cfg := SecondMissing(), Plain(1, 0);
    OneValid();
    OneFinish();
    var code, w := Traces(env, cfg, ONE);
    var j := Ending(env, cfg, ONE, code, w);
    OneAsk();
    OneEnd(env, code, w, j, Requests(ONE)[2]);
  }

  // The account when the first kernel function has been found.
  lemma FirstFunction(cs: seq<Request>)
    requires |cs| > 0 && cs[0] == SEEK_F
    ensures LedgerAfter(cs[..0]) == EMPTY
    ensures LedgerAfter(cs[..1]) == EMPTY.(slots := map[0 := [0]], held := [LastOf([0])], functions := 1, script := [Issue(0)])
  {
    hide LedgerAfter;
    NothingYet();
    assert cs[..0] == [] && cs[..1] == cs[..0] + [cs[0]];
    LedgerSnoc(cs[..0], cs[0]);
    OneSlot(EMPTY);
  }

  lemma OneSlot(l: Ledger)
    requires l.slots == map[]
    ensures Users(l, 0) + [0] == [0] && l.slots[0 := [0]] == map[0 := [0]] && [] + [LastOf([0])] == [LastOf([0])]
  {
    assert l.slots[0 := [0]].Keys == {0};
  }

  lemma OneEnd(env: Env, code: Val, w: World, j: nat, load: Request)
    requires env == SecondMissing() && j <= 3 && EndedAt(env, [SEEK_F, SEEK_G, load], j, 0, code, w)
    ensures code == Num(-ENOENT) && Brought(Calls(w.trace)) == [5] && ClosedFds(w.trace) == []
  {
    hide EndedAt, LedgerAfter, Calls, ClosedFds, Play, UnwoundScript, Brought;
    var cs, es := [SEEK_F, SEEK_G, load], Calls(w.trace);
    CallsPlain(w.trace);
    FirstFunction(cs);
    PlayNone(es);
    Reply(env, cs, j, 0, code, w, 0);
    assert [] + [Issue(0)] == [Issue(0)];
    PlayStep(es, [], Issue(0));
    if j > 0 {
      Reply(env, cs, j, 0, code, w, 1);
    }
    assert j == 1;
    Failure(env, cs, 1, 0, code, w);
    PlayStep(es, [Issue(0)], Issue(1));
    var s := [Issue(0)] + [Issue(1)];
    PlayStep(es, s, Shut(Nowhere));
    PlayStep(es, s + [Shut(Nowhere)], Shut(Nowhere));
    OneScript(cs);
    assert es == [] + [es[0]] + [es[1]];
    BroughtMore([], es[0]);
    BroughtMore([] + [es[0]], es[1]);
  }

  lemma OneScript(cs: seq<Request>)
    requires |cs| > 1 && cs[0] == SEEK_F && cs[1] == SEEK_G
    ensures UnwoundScript(cs, 1) == [Issue(0)] + [Issue(1)] + [Shut(Nowhere)] + [Shut(Nowhere)]
  {
    hide LedgerAfter, Shuts;
    FirstFunction(cs);
    ShutsMore([], Nowhere);
    ShutsMore([] + [Nowhere], Nowhere);
    assert Places(LedgerAfter(cs[..1])) == [] + [Nowhere] + [Nowhere];
  }

  // --- a stale slot

  // Two programs, each with a kernel function of its own.
  const OTHER: Relo := Relo([0x67], BTF_KIND_FUNC, 0, false, false)
  const TWO: seq<Op> := [RecordExtern(F), ProgLoad(CALLER), RecordExtern(OTHER), ProgLoad(CALLER)]

  // The first function is found in a module, whose BTF gets descriptor 5, the second in the kernel.
  function SecondBuiltIn(): Env {
    Env(0, n => if n == 2 then 10 else 11, n => if n == 1 then 5 * TWO32 + 7 else 9, (n, k) => [], (n, h, a, k) => [])
  }

  lemma TwoPending()
    ensures PendingAfter(TWO[..1]) == NOTHING.(relos := [F])
    ensures PendingAfter(TWO[..3]) == NOTHING.(relos := [OTHER])
    ensures PendingAfter([]) == NOTHING && PendingAfter(TWO[..2]) == NOTHING
  {
    hide PendingAfter;
    NothingYet();
    assert TWO[..0] == [] && TWO[..1] == TWO[..0] + [TWO[0]] && TWO[..2] == TWO[..1] + [TWO[1]]
      && TWO[..3] == TWO[..2] + [TWO[2]];
    PendingMore(TWO[..0], TWO[0]);
    PendingMore(TWO[..1], TWO[1]);
    PendingMore(TWO[..2], TWO[2]);
  }

  lemma TwoValid()
    ensures ValidOps(Plain(2, 0), TWO)
  {
    hide PendingAfter;
    TwoPending();
    FitOne(F);
    FitOne(OTHER);
  }

  lemma FitOne(r: Relo)
    requires r == F || r == OTHER
    ensures RelosFit([r], CALLS)
  {
  }

  lemma OnePlain(r: Relo)
    requires r == F || r == OTHER
    ensures PlainFunctions([r])
  {
  }

  lemma TwoFinish()
    ensures var cfg := Plain(2, 0); ValidConfig(cfg) && CtxRoom(cfg, CTX)
    ensures var f := Finished(Plain(2, 0), TWO); f.Live? && AllSilent(f.groups)
  {
    hide Init, GenProgLoad, Finish, Roomy, AllSilent, PlainFunctions;
    var cfg := Plain(2, 0);
    assert TWO == [] + [TWO[0]] + [TWO[1]] + [TWO[2]] + [TWO[3]];
    InitRoom(cfg, 44, 384);
    var g0 := Init(cfg);
    RoomyLive(cfg, g0, 44, 384);
    ApplyOne(cfg, [], TWO[0]);
    Records(cfg, g0, [], F, 44, 384);
    var g1 := GenRecordExtern(cfg, g0, F);
    ApplyOne(cfg, [] + [TWO[0]], TWO[1]);
    OnePlain(F);
    LoadRoom(cfg, g1, CALLER, [F], 24, 192);
    var g2 := GenProgLoad(cfg, g1, CALLER);
    ApplyOne(cfg, [] + [TWO[0]] + [TWO[1]], TWO[2]);
    Records(cfg, g2, [], OTHER, 24, 192);
    var g3 := GenRecordExtern(cfg, g2, OTHER);
    ApplyOne(cfg, [] + [TWO[0]] + [TWO[1]] + [TWO[2]], TWO[3]);
    OnePlain(OTHER);
    LoadRoom(cfg, g3, CALLER, [OTHER], 4, 0);
    FinishRoom(cfg, GenProgLoad(cfg, g3, CALLER));
  }

  function TwoRequests(): seq<Request> {
    [SEEK_F, Do(TWO[1], NOTHING.(relos := [F])), SEEK_G, Do(TWO[3], NOTHING.(relos := [OTHER]))]
  }

  lemma TwoAsk()
    ensures Requests(TWO) == TwoRequests()
  {
    hide Requests, PendingAfter;
    TwoPending();
    NothingYet();
    assert TWO[..0] == [] && TWO[..1] == TWO[..0] + [TWO[0]] && TWO[..2] == TWO[..1] + [TWO[1]]
      && TWO[..3] == TWO[..2] + [TWO[2]];
    assert TWO == TWO[..3] + [TWO[3]];
    AskOne(TWO[..0], TWO[0]);
    AskOne(TWO[..1], TWO[1]);
    AskOne(TWO[..2], TWO[2]);
    AskOne(TWO[..3], TWO[3]);
    SoughtOne([F], 0);
    SoughtOne([OTHER], 0);
  }

  const SCRIPT_2: seq<Step> := [Issue(0)] + [Issue(1)] + [Shut(LastOf([0]))] + [Shut(Nowhere)]
  const SCRIPT_4: seq<Step> := SCRIPT_2 + [Issue(2)] + [Issue(3)] + [Shut(LastOf([0, 2]))] + [Shut(Nowhere)]

  lemma TwoLedgers()
    ensures var cs := TwoRequests();
      LedgerAfter(cs[..0]).script == [] && LedgerAfter(cs[..1]).script == [Issue(0)]
      && LedgerAfter(cs[..2]).script == SCRIPT_2 && LedgerAfter(cs[..3]).script == SCRIPT_2 + [Issue(2)]
      && LoadedScript(cs) == SCRIPT_4 + [Shut(Nowhere)]
  {
    hide LedgerAfter, Shuts;
    var cs := TwoRequests();
    FirstFunction(cs);
    assert cs[..2] == cs[..1] + [cs[1]] && cs[..3] == cs[..2] + [cs[2]] && cs == cs[..3] + [cs[3]];
    ShutsMore([], LastOf([0]));
    ShutsMore([] + [LastOf([0])], Nowhere);
    ShutsMore([], LastOf([0, 2]));
    ShutsMore([] + [LastOf([0, 2])], Nowhere);
    LedgerSnoc(cs[..1], cs[1]);
    assert [] + [LastOf([0])] + [Nowhere] == [LastOf([0])] + [Nowhere];
    assert SCRIPT_2 == [Issue(0)] + [Issue(1)] + Shuts([LastOf([0])] + [Nowhere]);
    assert LedgerAfter(cs[..2]) == EMPTY.(slots := map[0 := [0]], progs := [Of(1)], script := SCRIPT_2);
    LedgerSnoc(cs[..2], cs[2]);
    assert [0] + [2] == [0, 2] && map[0 := [0, 2]] == map[0 := [0]][0 := [0] + [2]];
    assert [LastOf([0, 2])] == [] + [LastOf([0] + [2])];
    assert LedgerAfter(cs[..3]) == EMPTY.(slots := map[0 := [0, 2]], progs := [Of(1)], held := [LastOf([0, 2])], functions := 1,
      script := SCRIPT_2 + [Issue(2)]);
    LedgerSnoc(cs[..3], cs[3]);
  }

  // The second program's slot still holds the first one's module, which is closed again.
  lemma StaleSlotClosed()
    ensures Runs(SecondBuiltIn(), Plain(2, 0), TWO, 0, [5, 10, 11], [5, 5])
  {
    hide Finished, Good, Requests, Reaches, Answers, ValidOps, AllSilent, EndedAt, LedgerAfter, Calls, ClosedFds, Brought;
    var env, cfg := SecondBuiltIn(), Plain(2, 0);
    TwoValid();
    TwoFinish();
    var code, w := Traces(env, cfg, TWO);
    var j := Ending(env, cfg, TWO, code, w);
    TwoAsk();
    TwoEnd(env, code, w, j);
  }

  // Where the helper calls of the four requests are made.
  lemma TwoPlay(es: seq<Event>)
    requires forall e | e in es :: !e.Close?
    requires |es| > 0 && FdOf(es, 0) == 5
    ensures |Play(es, [Issue(0)])| == 1
    ensures |es| > 2 ==> |Play(es, SCRIPT_2)| == 3 && |Play(es, SCRIPT_2 + [Issue(2)])| == 4
    ensures |es| > 3 && FdOf(es, 2) == 0 ==> ClosedFds(Play(es, SCRIPT_4 + [Shut(Nowhere)])) == [5, 5]
  {
    hide Play, ClosedFds, FdOf;
    PlayNone(es);
    assert [] + [Issue(0)] == [Issue(0)];
    PlayStep(es, [], Issue(0));
    SlotFds(es);
    if |es| > 2 {
      PlayStep(es, [Issue(0)], Issue(1));
      PlayStep(es, [Issue(0)] + [Issue(1)], Shut(LastOf([0])));
      PlayStep(es, [Issue(0)] + [Issue(1)] + [Shut(LastOf([0]))], Shut(Nowhere));
      PlayStep(es, SCRIPT_2, Issue(2));
    }
    if |es| > 3 && FdOf(es, 2) == 0 {
      var s := SCRIPT_2 + [Issue(2)] + [Issue(3)];
      PlayStep(es, SCRIPT_2 + [Issue(2)], Issue(3));
      PlayStep(es, s, Shut(LastOf([0, 2])));
      PlayStep(es, s + [Shut(LastOf([0, 2]))], Shut(Nowhere));
      PlayStep(es, SCRIPT_4, Shut(Nowhere));
    }
  }

  lemma SlotFds(es: seq<Event>)
    ensures LastFd(es, [0]) == FdOf(es, 0) && (FdOf(es, 2) == 0 ==> LastFd(es, [0, 2]) == FdOf(es, 0))
  {
    hide FdOf;
    assert [0][..0] == [] && [0, 2][..1] == [0];
  }

  lemma TwoEnd(env: Env, code: Val, w: World, j: nat)
    requires env == SecondBuiltIn() && j <= 4 && EndedAt(env, TwoRequests(), j, 0, code, w)
    ensures code == Num(0) && Brought(Calls(w.trace)) == [5, 10, 11] && ClosedFds(w.trace) == [5, 5]
  {
    hide EndedAt, LedgerAfter, Calls, ClosedFds, Play, LoadedScript, Brought;
    var cs, es := TwoRequests(), Calls(w.trace);
    CallsPlain(w.trace);
    TwoLedgers();
    PlayNone(es);
    Reply(env, cs, j, 0, code, w, 0);
    TwoPlay(es);
    if j > 0 {
      Reply(env, cs, j, 0, code, w, 1);
    }
    if j > 1 {
      Reply(env, cs, j, 0, code, w, 2);
    }
    if j > 2 {
      Reply(env, cs, j, 0, code, w, 3);
    }
    assert j == 4;
    Success(env, cs, 0, code, w);
    assert es == [] + [es[0]] + [es[1]] + [es[2]] + [es[3]];
    BroughtMore([], es[0]);
    BroughtMore([] + [es[0]], es[1]);
    BroughtMore([] + [es[0]] + [es[1]], es[2]);
    BroughtMore([] + [es[0]] + [es[1]] + [es[2]], es[3]);
  }

  lemma Success(env: Env, cs: seq<Request>, nrMaps: nat, code: Val, w: World)
    requires EndedAt(env, cs, |cs|, nrMaps, code, w)
    ensures var es := Calls(w.trace); |es| == |cs| && code == Num(0) && w.trace == Play(es, LoadedScript(cs))
  {
    hide LedgerAfter, Play, Calls, Given, Answers, Get, Followed, LoadedScript;
  }
}
