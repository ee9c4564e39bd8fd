/** The descriptors of module BTFs: which lookups leave theirs open, and which descriptors are closed
    again because a slot of the descriptor array still holds them. */
module LoaderSlots {
  import opened LoaderBytes
  import opened LoaderMachine
  import opened LoaderGen
  import opened LoaderShape
  import opened LoaderLedger
  import opened LoaderFollow
  import opened LoaderProg
  import opened LoaderLoad
  import opened LoaderTheorem
  import opened LoaderMain
  import opened LoaderOnce
  import opened LoaderExact

  predicate IsFunction(c: Request) {
    c.Seek? && c.goal.Function?
  }

  // The kernel functions looked up for the unfinished program: the next one takes the slot of that number.
  function Functions(cs: seq<Request>): nat {
    if cs == [] then 0 else
    var n := |cs| - 1;
    if IsLoad(cs[n]) then 0 else Functions(cs[..n]) + (if IsFunction(cs[n]) then 1 else 0)
  }

  // The lookup uses one of the reserved slots.
  predicate Reserves(cs: seq<Request>, n: nat) {
    n < |cs| && IsFunction(cs[n]) && Functions(cs[..n]) < MAX_KFUNC_DESCS
  }

  // The lookups among cs that used slot i.
  function UsersOf(cs: seq<Request>, i: nat): seq<nat> {
    if cs == [] then [] else
    var n := |cs| - 1;
    UsersOf(cs[..n], i) + (if IsFunction(cs[n]) && Functions(cs[..n]) == i then [n] else [])
  }

  // Two lookups of different programs that use the same slot.
  predicate SameSlot(cs: seq<Request>, k: nat, n: nat) {
    Reserves(cs, k) && Reserves(cs, n) && Functions(cs[..k]) == Functions(cs[..n])
  }

  // Lookup n found no module, and its slot still holds the descriptor of lookup k.
  ghost predicate Leftover(es: seq<Event>, cs: seq<Request>, k: nat, n: nat) {
    k < n && SameSlot(cs, k, n) && FdOf(es, k) != 0 && FdOf(es, n) == 0
    && forall m | k < m < n && SameSlot(cs, k, m) :: FdOf(es, m) == 0
  }

  // --- lookups are closed once by the account

  lemma {:induction false} SeekCount(cs: seq<Request>, k: nat)
    requires OneTarget(cs) && k < |cs| && cs[k].Seek?
    ensures var l := LedgerAfter(cs); Count(l.script, k) == (if Unfinished(cs, k) then 0 else 1) && InPlaces(l, k) == 0
    decreases |cs|
  {
    var n := |cs| - 1;
    var cs1 := cs[..n];
    assert cs == cs1 + [cs[n]];
    TargetBefore(cs, n);
    hide LedgerAfter, Occ, Count, IsOuter, OneTarget, Unfinished;
    HeldIs(cs1, k);
    TimesAfter(cs1, cs[n], k);
    UnfinishedNow(cs1, cs[n], k);
    PlacedByDo(cs);
    if k < n {
      SeekCount(cs1, k);
    } else {
      Fresh(cs1, k);
    }
  }

  // --- the slots of the account

  function SlotSource(cs: seq<Request>, n: nat): Source {
    if n < |cs| then LastOf(UsersOf(cs[..n + 1], Functions(cs[..n]))) else Nowhere
  }

  // A lookup with a slot, of the unfinished program or of an earlier one.
  ghost predicate Slotted(cs: seq<Request>, n: nat, open: bool) {
    Reserves(cs, n) && (Unfinished(cs, n) <==> open)
  }

  ghost predicate SlotOfOne(cs: seq<Request>, a: Source, open: bool) {
    exists n: nat :: Slotted(cs, n, open) && a == SlotSource(cs, n)
  }

  // Which closes of slots are still to come, and which are in the script.
  ghost predicate SlotsTold(l: Ledger, cs: seq<Request>) {
    l.functions == Functions(cs)
    && (forall i: nat | i < MAX_KFUNC_DESCS :: Users(l, i) == UsersOf(cs, i))
    && (forall a: Source | a.LastOf? :: a in l.held <==> SlotOfOne(cs, a, true))
    && (forall a: Source | a.LastOf? :: Shut(a) in l.script <==> SlotOfOne(cs, a, false))
    && !l.attach.LastOf? && !l.inner.LastOf?
  }

  // What has been said about earlier requests stays true when one more is made.
  lemma OneMoreRequest(cs: seq<Request>, c: Request, n: nat, open: bool)
    requires n < |cs|
    ensures Slotted(cs + [c], n, open) <==> if IsLoad(c) then !open && Reserves(cs, n) else Slotted(cs, n, open)
    ensures SlotSource(cs + [c], n) == SlotSource(cs, n)
  {
    hide Unfinished;
    var cs2 := cs + [c];
    assert cs2[..n] == cs[..n] && cs2[..n + 1] == cs[..n + 1];
    UnfinishedNow(cs, c, n);
  }

  lemma TheNewRequest(cs: seq<Request>, c: Request, open: bool)
    ensures Slotted(cs + [c], |cs|, open) <==> IsFunction(c) && Functions(cs) < MAX_KFUNC_DESCS && open
    ensures SlotSource(cs + [c], |cs|) == LastOf(UsersOf(cs + [c], Functions(cs)))
  {
    hide Unfinished;
    var cs2 := cs + [c];
    assert cs2[..|cs|] == cs && cs2[..|cs| + 1] == cs2;
    UnfinishedNow(cs, c, |cs|);
  }

  lemma CountsNow(cs: seq<Request>, c: Request)
    ensures Functions(cs + [c]) == if IsLoad(c) then 0 else Functions(cs) + (if IsFunction(c) then 1 else 0)
    ensures forall i :: UsersOf(cs + [c], i) == UsersOf(cs, i) + (if IsFunction(c) && Functions(cs) == i then [|cs|] else [])
  {
    assert (cs + [c])[..|cs|] == cs;
  }

  lemma Below(cs: seq<Request>, n: nat, open: bool)
    requires Slotted(cs, n, open)
    ensures n < |cs|
  {
  }

  // The slots to be closed, or closed, after one more request.
  lemma SlotsNow(cs: seq<Request>, c: Request, a: Source, open: bool)
    ensures var was := SlotOfOne(cs, a, open) || (IsLoad(c) && SlotOfOne(cs, a, true));
      var now := IsFunction(c) && Functions(cs) < MAX_KFUNC_DESCS && a == LastOf(UsersOf(cs + [c], Functions(cs)));
      SlotOfOne(cs + [c], a, open) <==> if open then (was && !IsLoad(c)) || now else was
  {
    hide Slotted, SlotSource, Functions, UsersOf;
    var cs2 := cs + [c];
    TheNewRequest(cs, c, open);
    if SlotOfOne(cs2, a, open) {
      var n: nat :| Slotted(cs2, n, open) && a == SlotSource(cs2, n);
      Below(cs2, n, open);
      if n < |cs| {
        OneMoreRequest(cs, c, n, open);
        WasSlotted(cs, n);
      }
    }
    forall o: bool | SlotOfOne(cs, a, o) && (IsLoad(c) ==> !open)
      && (!IsLoad(c) ==> o == open) ensures SlotOfOne(cs2, a, open) {
      var n: nat :| Slotted(cs, n, o) && a == SlotSource(cs, n);
      Below(cs, n, o);
      WasSlotted(cs, n);
      OneMoreRequest(cs, c, n, open);
      assert Slotted(cs2, n, open) && a == SlotSource(cs2, n);
    }
  }

  lemma WasSlotted(cs: seq<Request>, n: nat)
    ensures Reserves(cs, n) <==> Slotted(cs, n, true) || Slotted(cs, n, false)
  {
    hide Unfinished;
  }

  lemma {:induction false} ShutsHave(places: seq<Source>, a: Source)
    ensures Shut(a) in Shuts(places) <==> a in places
    decreases |places|
  {
    if places != [] {
      var n := |places| - 1;
      ShutsHave(places[..n], a);
      assert places == places[..n] + [places[n]];
    }
  }

  // What the account does with a close of slot a.
  lemma SlotChange(l: Ledger, c: Request, k: nat, a: Source)
    requires a.LastOf? && !l.attach.LastOf? && !l.inner.LastOf?
    ensures var l2 := Perform(l, c, k);
      var f := IsFunction(c) && l.functions < MAX_KFUNC_DESCS && a == LastOf(Users(l, l.functions) + [k]);
      (a in l2.held <==> (a in l.held && !IsLoad(c)) || f)
        && (Shut(a) in l2.script <==> Shut(a) in l.script || (IsLoad(c) && a in l.held))
  {
    hide Shuts, IsOuter;
    ShutsHave(l.held + [l.attach], a);
  }

  lemma UsersChange(l: Ledger, c: Request, k: nat)
    ensures var l2 := Perform(l, c, k);
      l2.functions == (if IsLoad(c) then 0 else l.functions + (if IsFunction(c) then 1 else 0))
      && (!l.attach.LastOf? ==> !l2.attach.LastOf?) && (!l.inner.LastOf? ==> !l2.inner.LastOf?)
    ensures var l2, f := Perform(l, c, k), IsFunction(c) && l.functions < MAX_KFUNC_DESCS;
      forall i: nat :: Users(l2, i) == Users(l, i) + (if f && i == l.functions then [k] else [])
  {
    hide Shuts, IsOuter;
  }

  lemma NextTold(l: Ledger, cs: seq<Request>, c: Request)
    requires SlotsTold(l, cs)
    ensures SlotsTold(Perform(l, c, |cs|), cs + [c])
  {
    hide Functions, UsersOf, SlotOfOne, Perform, Users;
    var cs2, l2 := cs + [c], Perform(l, c, |cs|);
    CountsNow(cs, c);
    UsersChange(l, c, |cs|);
    forall a: Source | a.LastOf?
      ensures a in l2.held <==> SlotOfOne(cs2, a, true)
      ensures Shut(a) in l2.script <==> SlotOfOne(cs2, a, false)
    {
      SlotChange(l, c, |cs|, a);
      SlotsNow(cs, c, a, true);
      SlotsNow(cs, c, a, false);
    }
  }

  lemma {:induction false} SlotsAre(cs: seq<Request>)
    ensures SlotsTold(LedgerAfter(cs), cs)
    decreases |cs|
  {
    hide SlotsTold, Perform;
    if cs == [] {
      NoSlots();
    } else {
      var n := |cs| - 1;
      SlotsAre(cs[..n]);
      assert cs == cs[..n] + [cs[n]];
      NextTold(LedgerAfter(cs[..n]), cs[..n], cs[n]);
    }
  }

  lemma NoSlots()
    ensures SlotsTold(EMPTY, [])
  {
    assert forall a: Source, open: bool :: !SlotOfOne([], a, open);
  }

  // --- stale closes

  lemma {:induction false} StaleSome(es: seq<Event>, script: seq<Step>, k: nat)
    ensures StaleTimes(es, script, k) >= 1 <==> exists a: Source :: Shut(a) in script && Stale(es, Shut(a)) && Owner(es, a) == k
    decreases |script|
  {
    hide Stale, Owner;
    if script != [] {
      var n := |script| - 1;
      StaleSome(es, script[..n], k);
      assert script == script[..n] + [script[n]];
      if Stale(es, script[n]) {
        StaleShut(es, script[n]);
        assert script[n] == Shut(script[n].a);
      }
    }
  }

  predicate UserAt(cs: seq<Request>, i: nat, m: nat) {
    m < |cs| && IsFunction(cs[m]) && Functions(cs[..m]) == i
  }

  lemma UserNow(cs: seq<Request>, c: Request, i: nat, m: nat)
    ensures UserAt(cs + [c], i, m) <==> UserAt(cs, i, m) || (m == |cs| && IsFunction(c) && Functions(cs) == i)
  {
    assert (cs + [c])[..|cs|] == cs;
    if m < |cs| {
      assert (cs + [c])[..m] == cs[..m];
    }
  }

  // What a slot holds is the descriptor of its last user that had one.
  lemma {:induction false} SlotOwner(es: seq<Event>, cs: seq<Request>, i: nat, k: nat)
    ensures LastOwner(es, UsersOf(cs, i)) == k
       <==> UserAt(cs, i, k) && FdOf(es, k) != 0 && forall m: nat | k < m && UserAt(cs, i, m) :: FdOf(es, m) == 0
    decreases |cs|
  {
    hide FdOf, Functions, UserAt;
    if cs == [] {
      assert !UserAt([], i, k) by { NoUser(i, k); }
    } else {
      var n := |cs| - 1;
      var c, cs1 := cs[n], cs[..n];
      assert cs == cs1 + [c];
      SlotOwner(es, cs1, i, k);
      CountsNow(cs1, c);
      forall m: nat
        ensures UserAt(cs, i, m) <==> UserAt(cs1, i, m) || (m == n && IsFunction(c) && Functions(cs1) == i)
        ensures UserAt(cs1, i, m) ==> m < n
      {
        UserNow(cs1, c, i, m);
        UserBelow(cs1, i, m);
      }
      UserBelow(cs1, i, k);
      LastOwnerMore(es, UsersOf(cs1, i), n);
      assert UsersOf(cs1, i) + [] == UsersOf(cs1, i);
    }
  }

  lemma NoUser(i: nat, k: nat)
    ensures !UserAt([], i, k)
  {
  }

  lemma UserBelow(cs: seq<Request>, i: nat, m: nat)
    ensures UserAt(cs, i, m) ==> m < |cs|
  {
  }

  lemma LastOwnerMore(es: seq<Event>, ks: seq<nat>, n: nat)
    ensures LastOwner(es, ks + [n]) == if FdOf(es, n) != 0 then n else LastOwner(es, ks)
  {
    hide FdOf;
    assert (ks + [n])[..|ks|] == ks;
  }

  // Closing the slot of lookup n is stale for lookup k if the slot still holds what k found.
  lemma StaleIsLeftover(es: seq<Event>, cs: seq<Request>, k: nat, n: nat)
    requires Reserves(cs, n)
    ensures var a := SlotSource(cs, n); Stale(es, Shut(a)) && Owner(es, a) == k <==> Leftover(es, cs, k, n)
  {
    hide FdOf, Functions, LastOwner, LastFd;
    var i, cs1 := Functions(cs[..n]), cs[..n];
    assert cs[..n + 1] == cs1 + [cs[n]] && cs[..n + 1][..n] == cs1;
    var ks := UsersOf(cs1, i);
    assert SlotSource(cs, n) == LastOf(ks + [n]);
    LastOwnerMore(es, ks, n);
    LastOwnerIs(es, ks + [n]);
    SlotOwner(es, cs1, i, k);
    forall m: nat | m < n ensures UserAt(cs1, i, m) <==> SameSlot(cs, m, n) {
      assert cs1[..m] == cs[..m];
    }
    if k < n && SameSlot(cs, k, n) {
      assert forall m: nat | k < m < n :: SameSlot(cs, k, m) <==> SameSlot(cs, m, n);
    }
  }

  // The slots closed by a run whose request j fails.
  lemma UnwoundSlots(cs: seq<Request>, j: nat, a: Source)
    requires j < |cs| && a.LastOf?
    ensures Shut(a) in UnwoundScript(cs, j) <==> SlotOfOne(cs[..j], a, false) || (IsLoad(cs[j]) && SlotOfOne(cs[..j], a, true))
  {
    hide LedgerAfter, SlotOfOne, Shuts, Functions, UsersOf;
    var l := LedgerAfter(cs[..j]);
    SlotsAre(cs[..j]);
    AllUsersShut(cs[..j]);
    PlacesPlain(l);
    ShutsHave(Places(l), a);
    ShutsHave(l.held + [l.attach], a);
  }

  // The program of lookup m is over when request j fails.
  ghost predicate Over(cs: seq<Request>, j: nat, m: nat)
    requires j < |cs|
  {
    IsLoad(cs[j]) || !Unfinished(cs[..j], m)
  }

  ghost predicate ClosedAgain(es: seq<Event>, cs: seq<Request>, j: nat, k: nat)
    requires j < |cs|
  {
    exists m: nat :: Leftover(es, cs[..j], k, m) && Over(cs, j, m)
  }

  lemma StaleInUnwound(es: seq<Event>, cs: seq<Request>, j: nat, k: nat)
    requires j < |cs|
    ensures StaleTimes(es, UnwoundScript(cs, j), k) >= 1 <==> ClosedAgain(es, cs, j, k)
  {
    hide Stale, Owner, Functions, SlotSource, UnwoundScript, Unfinished, Leftover, Slotted, Reserves;
    var script, cs1 := UnwoundScript(cs, j), cs[..j];
    StaleSome(es, script, k);
    if StaleTimes(es, script, k) >= 1 {
      var a: Source :| Shut(a) in script && Stale(es, Shut(a)) && Owner(es, a) == k;
      StaleShut(es, Shut(a));
      UnwoundSlots(cs, j, a);
      var o: bool :| SlotOfOne(cs1, a, o) && (o ==> IsLoad(cs[j]));
      var n := OfOne(cs1, a, o);
      SlottedIs(cs1, n, o);
      StaleIsLeftover(es, cs1, k, n);
      assert Leftover(es, cs1, k, n) && Over(cs, j, n);
    }
    if ClosedAgain(es, cs, j, k) {
      var m: nat :| Leftover(es, cs1, k, m) && Over(cs, j, m);
      LeftoverReserves(es, cs1, k, m);
      var a := SlotSource(cs1, m);
      StaleIsLeftover(es, cs1, k, m);
      StaleShut(es, Shut(a));
      SlottedIs(cs1, m, Unfinished(cs1, m));
      UnwoundSlots(cs, j, a);
      assert Shut(a) in script && Stale(es, Shut(a)) && Owner(es, a) == k;
    }
  }

  lemma OfOne(cs: seq<Request>, a: Source, open: bool) returns (n: nat)
    requires SlotOfOne(cs, a, open)
    ensures Slotted(cs, n, open) && a == SlotSource(cs, n)
  {
    n :| Slotted(cs, n, open) && a == SlotSource(cs, n);
  }

  lemma SlottedIs(cs: seq<Request>, n: nat, open: bool)
    ensures Slotted(cs, n, open) <==> Reserves(cs, n) && (Unfinished(cs, n) <==> open)
  {
  }

  lemma LeftoverReserves(es: seq<Event>, cs: seq<Request>, k: nat, m: nat)
    requires Leftover(es, cs, k, m)
    ensures Reserves(cs, m)
  {
  }

  // --- what happens to the descriptors that lookups bring

  // A failing run leaves a module's descriptor open exactly if it was looked up for the program that
  // is unfinished, and closes it more than once exactly if a later lookup left it in its slot.
  lemma UnwoundModules(env: Env, cfg: Config, ops: seq<Op>, j: nat, ctx: Bytes, code: Val, w: World, k: nat)
    requires ApplyAll(cfg, ops).Live? && j < |Requests(ops)| && Unwound(env, Requests(ops), j, ctx, code, w)
    requires k < j && Requests(ops)[k].Seek? && FdOf(Calls(w.trace), k) != 0
    ensures var es, cs := Calls(w.trace), Requests(ops);
      var times := Closed(es, UnwoundScript(cs, j), k);
      (times == 0 <==> !Over(cs, j, k)) && (times >= 2 <==> ClosedAgain(es, cs, j, k))
  {
    hide ApplyAll, LedgerAfter, Calls, Given, Followed, OneTarget, UnwoundScript, Closed, Requests, StaleTimes,
      FdOf, Count, Unfinished, Unwound;
    hide HeldFor, InPlaces;
    var es, cs := Calls(w.trace), Requests(ops);
    var script := UnwoundScript(cs, j);
    TargetsOf(cfg, ops);
    TargetBefore(cs, j);
    SeekCount(cs[..j], k);
    HeldIs(cs[..j], k);
    UnwoundCount(cs, j, k);
    ClosedSplit(es, script, k);
    StaleInUnwound(es, cs, j, k);
    UnwoundEarlier(cs, j);
    if StaleTimes(es, script, k) >= 1 {
      StaleCounted(es, script, script, k);
    }
  }

  // So a failing run closes every module's descriptor exactly if it fails at a load, or no lookup of
  // the unfinished program, its attach target included, had found a module.
  lemma AllModulesClosed(env: Env, cfg: Config, ops: seq<Op>, j: nat, ctx: Bytes, code: Val, w: World)
    requires ApplyAll(cfg, ops).Live? && j < |Requests(ops)| && Unwound(env, Requests(ops), j, ctx, code, w)
    ensures var es, cs := Calls(w.trace), Requests(ops);
      (forall k: nat | k < j && cs[k].Seek? && FdOf(es, k) != 0 :: Closed(es, UnwoundScript(cs, j), k) >= 1)
      <==> IsLoad(cs[j]) || forall k: nat | Unfinished(cs[..j], k) :: FdOf(es, k) == 0
  {
    hide ApplyAll, LedgerAfter, Calls, UnwoundScript, Closed, Requests, FdOf, ClosedAgain, Unwound;
    var es, cs := Calls(w.trace), Requests(ops);
    forall k: nat | k < j && cs[k].Seek? && FdOf(es, k) != 0
      ensures Closed(es, UnwoundScript(cs, j), k) == 0 <==> !Over(cs, j, k)
    {
      UnwoundModules(env, cfg, ops, j, ctx, code, w, k);
    }
  }

  // A failing run is clean, by the requests made and their answers: a stale close is one of a slot in
  // which a later lookup has left what an earlier one found.
  lemma CleanByRequests(es: seq<Event>, cs: seq<Request>, j: nat)
    requires j < |cs|
    ensures Clean(es, cs, j) <==>
      Tame(cs[..j]) && (IsLoad(cs[j]) || forall k: nat | Unfinished(cs[..j], k) :: FdOf(es, k) == 0)
      && forall k: nat :: !ClosedAgain(es, cs, j, k)
  {
    hide Tame, Unfinished, FdOf, UnwoundScript, Stale, ClosedAgain, Owner;
    var script := UnwoundScript(cs, j);
    if k: nat :| ClosedAgain(es, cs, j, k) {
      StaleInUnwound(es, cs, j, k);
      StaleSome(es, script, k);
    }
    forall s | s in script && Stale(es, s) ensures exists k: nat :: ClosedAgain(es, cs, j, k) {
      StaleShut(es, s);
      IsStale(es, script, s);
      StaleInUnwound(es, cs, j, Owner(es, s.a));
    }
  }

  // When no program is unfinished, every lookup is over.
  lemma AllOver(cs: seq<Request>, k: nat)
    requires OneTarget(cs) && IdleAccount(LedgerAfter(cs))
    ensures !Unfinished(cs, k)
  {
    hide LedgerAfter, Unfinished, OneTarget;
    HeldIs(cs, k);
    OccNone(k);
  }

  lemma LoadedSlots(cs: seq<Request>, a: Source)
    requires a.LastOf? && IdleAccount(LedgerAfter(cs))
    ensures Shut(a) in LoadedScript(cs) <==> SlotOfOne(cs, a, false)
  {
    hide LedgerAfter, SlotOfOne, Functions, UsersOf, EarlierShut, Count;
    SlotsAre(cs);
    AllUsersShut(cs);
  }

  lemma StaleInLoaded(es: seq<Event>, cs: seq<Request>, k: nat)
    requires OneTarget(cs) && IdleAccount(LedgerAfter(cs))
    ensures StaleTimes(es, LoadedScript(cs), k) >= 1 <==> exists m: nat :: Leftover(es, cs, k, m)
  {
    hide Stale, Owner, Functions, SlotSource, LoadedScript, Unfinished, Leftover, Slotted, Reserves, LedgerAfter,
      OneTarget, SlotOfOne;
    var script := LoadedScript(cs);
    StaleSome(es, script, k);
    if StaleTimes(es, script, k) >= 1 {
      var a: Source :| Shut(a) in script && Stale(es, Shut(a)) && Owner(es, a) == k;
      StaleShut(es, Shut(a));
      LoadedSlots(cs, a);
      var n := OfOne(cs, a, false);
      SlottedIs(cs, n, false);
      StaleIsLeftover(es, cs, k, n);
    }
    if m: nat :| Leftover(es, cs, k, m) {
      LeftoverReserves(es, cs, k, m);
      var a := SlotSource(cs, m);
      StaleIsLeftover(es, cs, k, m);
      StaleShut(es, Shut(a));
      AllOver(cs, m);
      SlottedIs(cs, m, false);
      IsOfOne(cs, m, false);
      LoadedSlots(cs, a);
      assert Shut(a) in script && Stale(es, Shut(a)) && Owner(es, a) == k;
    }
  }

  lemma IsOfOne(cs: seq<Request>, n: nat, open: bool)
    requires Slotted(cs, n, open)
    ensures SlotOfOne(cs, SlotSource(cs, n), open)
  {
  }

  // A run in which everything succeeds closes each module's descriptor at least once, and more than
  // once exactly if a later lookup left it in its slot.
  lemma LoadedModules(env: Env, cfg: Config, ops: seq<Op>, ctx: Bytes, code: Val, w: World, k: nat)
    requires ApplyAll(cfg, ops).Live? && Loaded(env, Requests(ops), cfg.nrMaps, ctx, code, w)
    requires k < |Requests(ops)| && Requests(ops)[k].Seek? && FdOf(Calls(w.trace), k) != 0
    ensures var es, cs := Calls(w.trace), Requests(ops);
      var times := Closed(es, LoadedScript(cs), k);
      times >= 1 && (times >= 2 <==> exists m: nat :: Leftover(es, cs, k, m))
  {
    hide ApplyAll, LedgerAfter, Calls, Given, Followed, OneTarget, Closed, Requests, StaleTimes, FdOf, Count,
      Unfinished, Loaded;
    hide IdleAccount, Is, Leftover;
    var es, cs := Calls(w.trace), Requests(ops);
    TargetsOf(cfg, ops);
    AccountOf(cfg, ops);
    SeekCount(cs, k);
    AllOver(cs, k);
    CountSnoc(LedgerAfter(cs).script, Shut(LedgerAfter(cs).btf), k);
    ClosedSplit(es, LoadedScript(cs), k);
    StaleInLoaded(es, cs, k);
  }
}
