/** The close events of a run, by the request each closed descriptor came from: exactly when every
    descriptor obtained is closed once. */
module LoaderExact {
  import opened LoaderBytes
  import opened LoaderMachine
  import opened LoaderGen
  import opened LoaderShape
  import opened LoaderLedger
  import opened LoaderFollow
  import opened LoaderSave
  import opened LoaderRun
  import opened LoaderProg
  import opened LoaderLoad
  import opened LoaderTheorem
  import opened LoaderMain
  import opened LoaderOnce

  // --- whatever the answers

  lemma UnwoundCount(cs: seq<Request>, j: nat, k: nat)
    requires j < |cs|
    ensures var l := LedgerAfter(cs[..j]);
      Count(UnwoundScript(cs, j), k)
      == Count(l.script, k) + InPlaces(l, k) + (if cs[j].Do? && cs[j].op.ProgLoad? then HeldFor(l, k) else 0)
  {
    hide LedgerAfter, Is, Occ, Count, Answered, Shuts;
    var l := LedgerAfter(cs[..j]);
    AnsweredCount(l, cs[j], j, k);
    CountShuts(Answered(l, cs[j], j), Places(l), k);
    OccConcat([l.btf, l.inner] + l.progs, l.maps, k);
    OccConcat([l.btf, l.inner], l.progs, k);
    OccTwo(l.btf, l.inner, k);
  }

  lemma OccTwo(a: Source, b: Source, k: nat)
    ensures Occ([a, b], k) == Is(a, k) + Is(b, k)
  {
    assert [a, b] == [a] + [b] && [a] == [] + [a];
    OccSnoc([], a, k);
    OccSnoc([a], b, k);
  }

  // The earlier users of a slot have had a close of their own.
  ghost predicate EarlierShut(script: seq<Step>, ks: seq<nat>) {
    forall p | 0 <= p < |ks| - 1 :: Count(script, ks[p]) >= 1
  }

  ghost predicate UsersShut(l: Ledger) {
    (forall s | s in l.script && s.Shut? && s.a.LastOf? :: EarlierShut(l.script, s.a.ks))
    && (forall a | a in l.held && a.LastOf? :: EarlierShut(l.script, a.ks))
    && (forall i: nat :: EarlierShut(l.script, Users(l, i)))
    && (forall i: nat, p | 0 <= p < |Users(l, i)| && i >= l.functions :: Count(l.script, Users(l, i)[p]) >= 1)
    && (forall i: nat | i < l.functions && i < MAX_KFUNC_DESCS :: Users(l, i) != [] && LastOf(Users(l, i)) in l.held)
    && (forall i: nat | i >= MAX_KFUNC_DESCS :: Users(l, i) == [])
    && !l.btf.LastOf? && !l.inner.LastOf? && !l.attach.LastOf?
    && (forall a | a in l.progs :: !a.LastOf?) && (forall a | a in l.maps :: !a.LastOf?)
  }

  lemma EarlierMore(script: seq<Step>, more: seq<Step>, ks: seq<nat>)
    requires EarlierShut(script, ks) && forall k: nat :: Count(more, k) >= Count(script, k)
    ensures EarlierShut(more, ks)
  {
    hide Count;
  }

  // The script has grown by closes of the inner map only.
  lemma ScriptMore(l: Ledger, script: seq<Step>)
    requires UsersShut(l) && l.script <= script && (forall k: nat :: Count(script, k) >= Count(l.script, k))
    requires forall s | s in script[|l.script|..] :: !(s.Shut? && s.a.LastOf?)
    ensures UsersShut(l.(script := script))
  {
    hide Count, EarlierShut;
    forall s | s in script && s.Shut? && s.a.LastOf? ensures EarlierShut(script, s.a.ks) {
      assert script == l.script + script[|l.script|..];
      assert s in l.script;
      EarlierMore(l.script, script, s.a.ks);
    }
    forall a | a in l.held && a.LastOf? ensures EarlierShut(script, a.ks) {
      EarlierMore(l.script, script, a.ks);
    }
    forall i: nat ensures EarlierShut(script, Users(l, i)) {
      EarlierMore(l.script, script, Users(l, i));
    }
    var l2 := l.(script := script);
    forall i: nat ensures Users(l2, i) == Users(l, i) {
    }
  }

  lemma OneMore(script: seq<Step>, s: Step)
    ensures forall k: nat :: Count(script + [s], k) >= Count(script, k)
  {
    hide Count;
    forall k: nat ensures Count(script + [s], k) >= Count(script, k) {
      CountSnoc(script, s, k);
    }
  }

  lemma ShutsMore(script: seq<Step>, places: seq<Source>)
    ensures forall k: nat :: Count(script + Shuts(places), k) >= Count(script, k)
  {
    hide Count, Shuts;
    forall k: nat ensures Count(script + Shuts(places), k) >= Count(script, k) {
      CountShuts(script, places, k);
    }
  }

  lemma {:induction false} ShutsAre(places: seq<Source>)
    ensures forall s | s in Shuts(places) :: s.Shut? && s.a in places
    decreases |places|
  {
    if places != [] {
      ShutsAre(places[..|places| - 1]);
      assert forall a | a in places[..|places| - 1] :: a in places;
    }
  }

  lemma {:induction false} OccOf(places: seq<Source>, a: Source, k: nat)
    requires a in places
    ensures Occ(places, k) >= Is(a, k)
    decreases |places|
  {
    hide Is;
    var n := |places| - 1;
    if places[n] != a {
      assert a in places[..n];
      OccOf(places[..n], a, k);
    }
  }

  // A kernel function with a reserved slot is one more user of it.
  lemma UserShut(l: Ledger, k: nat)
    requires UsersShut(l) && l.functions < MAX_KFUNC_DESCS
    ensures var ks := Users(l, l.functions) + [k];
      UsersShut(l.(slots := l.slots[l.functions := ks], held := l.held + [LastOf(ks)], functions := l.functions + 1))
  {
    hide Count;
    var ks := Users(l, l.functions) + [k];
    var l2 := l.(slots := l.slots[l.functions := ks], held := l.held + [LastOf(ks)], functions := l.functions + 1);
    assert EarlierShut(l.script, ks);
    forall i: nat ensures EarlierShut(l2.script, Users(l2, i)) && (i != l.functions ==> Users(l2, i) == Users(l, i)) {
      assert EarlierShut(l.script, Users(l, i));
    }
    forall i: nat | i < l2.functions && i < MAX_KFUNC_DESCS ensures Users(l2, i) != [] && LastOf(Users(l2, i)) in l2.held {
      if i != l.functions {
        assert LastOf(Users(l, i)) in l.held;
      }
    }
  }

  // Loading a program closes all users of the slots it used.
  lemma LoadShut(l: Ledger, k: nat)
    requires UsersShut(l)
    ensures var script := l.script + [Issue(k)] + Shuts(l.held + [l.attach]);
      UsersShut(l.(script := script, progs := l.progs + [Of(k)], held := [], functions := 0, attach := Nowhere))
      && (forall s | s in script && s.Shut? && s.a.LastOf? :: EarlierShut(script, s.a.ks))
  {
    hide Count, EarlierShut, Shuts;
    var places, s1 := l.held + [l.attach], l.script + [Issue(k)];
    var script := s1 + Shuts(places);
    OneMore(l.script, Issue(k));
    ShutsMore(s1, places);
    assert forall x: nat :: Count(script, x) >= Count(s1, x) >= Count(l.script, x);
    ShutsAre(places);
    forall s | s in script && s.Shut? && s.a.LastOf? ensures EarlierShut(script, s.a.ks) {
      if s in l.script {
        EarlierMore(l.script, script, s.a.ks);
      } else {
        assert s.a in l.held;
        EarlierMore(l.script, script, s.a.ks);
      }
    }
    var l2 := l.(script := script, progs := l.progs + [Of(k)], held := [], functions := 0, attach := Nowhere);
    forall i: nat ensures EarlierShut(script, Users(l2, i)) && Users(l2, i) == Users(l, i) {
      EarlierMore(l.script, script, Users(l, i));
    }
    forall i: nat, p | 0 <= p < |Users(l2, i)| ensures Count(script, Users(l2, i)[p]) >= 1 {
      AllShut(l, i, p, script, s1, places);
    }
  }

  lemma AllShut(l: Ledger, i: nat, p: nat, script: seq<Step>, s1: seq<Step>, places: seq<Source>)
    requires UsersShut(l) && p < |Users(l, i)| && places == l.held + [l.attach] && script == s1 + Shuts(places)
    requires (forall x: nat :: Count(script, x) >= Count(l.script, x))
    ensures Count(script, Users(l, i)[p]) >= 1
  {
    hide Count, Shuts, Occ;
    var ks := Users(l, i);
    assert EarlierShut(l.script, ks);
    if i < l.functions && p == |ks| - 1 {
      assert LastOf(ks) in l.held;
      assert LastOf(ks) in places;
      CountShuts(s1, places, ks[p]);
      OccOf(places, LastOf(ks), ks[p]);
    }
  }

  // One more request.
  lemma PerformShut(l: Ledger, c: Request, k: nat)
    requires UsersShut(l)
    ensures UsersShut(Perform(l, c, k))
  {
    hide Count, EarlierShut, Shuts, UsersShut, IsOuter;
    var s1 := l.script + [Issue(k)];
    OneMore(l.script, Issue(k));
    if c.Do? && c.op.ProgLoad? {
      LoadShut(l, k);
    } else {
      assert Answered(l, c, k) == s1;
      ScriptMore(l, s1);
      var l1 := l.(script := s1);
      if c.Seek? && c.goal.Function? && l.functions < MAX_KFUNC_DESCS {
        UserShut(l1, k);
      } else {
        PlainShut(l1, c, k);
        if c.Do? && c.op.MapCreate? {
          var l2 := if c.op.idx < 0 then l1.(inner := Of(k)) else l1.(maps := l1.maps + [Of(k)]);
          OneMore(s1, Shut(l2.inner));
          InnerPlain(l2);
          ScriptMore(l2, s1 + [Shut(l2.inner)]);
        }
      }
    }
  }

  lemma InnerPlain(l: Ledger)
    requires UsersShut(l)
    ensures !l.inner.LastOf?
  {
    hide EarlierShut, Count;
  }

  // Requests that use no slot, before an inner map is closed.
  lemma PlainShut(l: Ledger, c: Request, k: nat)
    requires UsersShut(l) && !(c.Do? && c.op.ProgLoad?) && (c.Seek? && c.goal.Function? ==> l.functions >= MAX_KFUNC_DESCS)
    ensures UsersShut(if c.Do? && c.op.MapCreate? then if c.op.idx < 0 then l.(inner := Of(k)) else l.(maps := l.maps + [Of(k)])
      else Perform(l, c, k).(script := l.script))
  {
    hide Count, EarlierShut, Shuts, Answered, IsOuter;
    var l2 := if c.Do? && c.op.MapCreate? then if c.op.idx < 0 then l.(inner := Of(k)) else l.(maps := l.maps + [Of(k)])
      else Perform(l, c, k).(script := l.script);
    forall i: nat ensures Users(l2, i) == Users(l, i) {
    }
  }

  lemma NoneShut()
    ensures UsersShut(EMPTY)
  {
  }

  lemma {:induction false} AllUsersShut(cs: seq<Request>)
    ensures UsersShut(LedgerAfter(cs))
    decreases |cs|
  {
    hide UsersShut, Perform;
    if cs == [] {
      NoneShut();
    } else {
      AllUsersShut(cs[..|cs| - 1]);
      PerformShut(LedgerAfter(cs[..|cs| - 1]), cs[|cs| - 1], |cs| - 1);
    }
  }

  // In the script of a failing run, the users of a slot before the one it is closed for have had a
  // close of their own.
  lemma UnwoundEarlier(cs: seq<Request>, j: nat)
    requires j < |cs|
    ensures forall s | s in UnwoundScript(cs, j) && s.Shut? && s.a.LastOf? :: EarlierShut(UnwoundScript(cs, j), s.a.ks)
  {
    hide Count, EarlierShut, Shuts, LedgerAfter;
    var l := LedgerAfter(cs[..j]);
    AllUsersShut(cs[..j]);
    var s1, script := Answered(l, cs[j], j), UnwoundScript(cs, j);
    ShutsMore(s1, Places(l));
    ShutsAre(Places(l));
    PlacesPlain(l);
    AnsweredEarlier(l, cs[j], j);
    forall s | s in script && s.Shut? && s.a.LastOf? ensures EarlierShut(script, s.a.ks) {
      assert s in s1;
      EarlierMore(s1, script, s.a.ks);
    }
  }

  lemma PlacesPlain(l: Ledger)
    requires UsersShut(l)
    ensures forall a | a in Places(l) :: !a.LastOf?
  {
    hide EarlierShut, Count;
  }

  lemma AnsweredEarlier(l: Ledger, c: Request, k: nat)
    requires UsersShut(l)
    ensures forall s | s in Answered(l, c, k) && s.Shut? && s.a.LastOf? :: EarlierShut(Answered(l, c, k), s.a.ks)
  {
    hide Count, EarlierShut, Shuts;
    if c.Do? && c.op.ProgLoad? {
      LoadShut(l, k);
    } else {
      assert Answered(l, c, k) == l.script + [Issue(k)];
      OneMore(l.script, Issue(k));
      forall s | s in Answered(l, c, k) && s.Shut? && s.a.LastOf? ensures EarlierShut(Answered(l, c, k), s.a.ks) {
        EarlierMore(l.script, Answered(l, c, k), s.a.ks);
      }
    }
  }

  // --- given the answers

  // The request whose descriptor a place holds, -1 when it holds none.
  function LastOwner(es: seq<Event>, ks: seq<nat>): (k: int)
    ensures k >= -1
  {
    if ks == [] then -1 else
    var n := |ks| - 1;
    if FdOf(es, ks[n]) != 0 then ks[n] else LastOwner(es, ks[..n])
  }

  function Owner(es: seq<Event>, a: Source): (k: int)
    ensures k >= -1
  {
    match a
    case Nowhere => -1
    case Of(k) => if FdOf(es, k) != 0 then k else -1
    case LastOf(ks) => LastOwner(es, ks)
  }

  lemma {:induction false} LastOwnerIs(es: seq<Event>, ks: seq<nat>)
    ensures var k := LastOwner(es, ks);
      k >= -1 && (k >= 0 <==> LastFd(es, ks) != 0) && (k >= 0 ==> k in ks && FdOf(es, k) != 0 && FdOf(es, k) == LastFd(es, ks))
    decreases |ks|
  {
    hide FdOf;
    if ks != [] {
      LastOwnerIs(es, ks[..|ks| - 1]);
      assert forall k | k in ks[..|ks| - 1] :: k in ks;
    }
  }

  // What a place holds is the descriptor of its owner.
  lemma OwnerIs(es: seq<Event>, a: Source)
    ensures var k := Owner(es, a); (k >= 0 <==> Fd(es, a) != 0) && (k >= 0 ==> FdOf(es, k) != 0 && FdOf(es, k) == Fd(es, a))
  {
    if a.LastOf? {
      LastOwnerIs(es, a.ks);
    }
  }

  // The requests whose descriptors a script closes, in order.
  function Owners(es: seq<Event>, script: seq<Step>): seq<nat> {
    if script == [] then [] else
    var n := |script| - 1;
    Owners(es, script[..n]) + OwnersOf(es, script[n])
  }

  function OwnersOf(es: seq<Event>, s: Step): seq<nat> {
    if s.Shut? && Owner(es, s.a) >= 0 then [Owner(es, s.a)] else []
  }

  function ClosedFds(t: seq<Event>): seq<int> {
    if t == [] then [] else
    var n := |t| - 1;
    ClosedFds(t[..n]) + (if t[n].Close? then [t[n].fd] else [])
  }

  function FdsOf(es: seq<Event>, ks: seq<nat>): seq<int> {
    if ks == [] then [] else
    var n := |ks| - 1;
    FdsOf(es, ks[..n]) + [FdOf(es, ks[n])]
  }

  lemma {:induction false} ClosedConcat(t: seq<Event>, u: seq<Event>)
    ensures ClosedFds(t + u) == ClosedFds(t) + ClosedFds(u)
    decreases |u|
  {
    if u == [] {
      assert t + u == t;
    } else {
      var n := |u| - 1;
      ClosedConcat(t, u[..n]);
      assert (t + u)[..|t| + n] == t + u[..n];
    }
  }

  lemma {:induction false} FdsConcat(es: seq<Event>, ks: seq<nat>, more: seq<nat>)
    ensures FdsOf(es, ks + more) == FdsOf(es, ks) + FdsOf(es, more)
    decreases |more|
  {
    hide FdOf;
    if more == [] {
      assert ks + more == ks;
    } else {
      var n := |more| - 1;
      FdsConcat(es, ks, more[..n]);
      assert (ks + more)[..|ks| + n] == ks + more[..n];
    }
  }

  lemma StepCloses(es: seq<Event>, s: Step)
    requires forall e | e in es :: !e.Close?
    ensures ClosedFds(Events(es, s)) == FdsOf(es, OwnersOf(es, s))
  {
    hide Fd, Owner, FdOf;
    if s.Shut? {
      OwnerIs(es, s.a);
      if Fd(es, s.a) != 0 {
        OneClosed(Close(Fd(es, s.a)));
        OneFd(es, Owner(es, s.a));
      }
    } else if s.k < |es| {
      assert es[s.k] in es;
      OneClosed(es[s.k]);
    }
  }

  lemma OneClosed(e: Event)
    ensures ClosedFds([e]) == if e.Close? then [e.fd] else []
  {
    assert [e][..0] == [];
  }

  lemma OneFd(es: seq<Event>, k: nat)
    ensures FdsOf(es, [k]) == [FdOf(es, k)]
  {
    assert [k][..0] == [];
  }

  // The close events of a trace are those of the script's owners.
  lemma {:induction false} ClosesAre(es: seq<Event>, script: seq<Step>)
    requires forall e | e in es :: !e.Close?
    ensures ClosedFds(Play(es, script)) == FdsOf(es, Owners(es, script))
    decreases |script|
  {
    hide Events, OwnersOf;
    if script != [] {
      var n := |script| - 1;
      ClosesAre(es, script[..n]);
      StepCloses(es, script[n]);
      ClosedConcat(Play(es, script[..n]), Events(es, script[n]));
      FdsConcat(es, Owners(es, script[..n]), OwnersOf(es, script[n]));
    }
  }

  // How often the descriptor of request k is closed.
  function Closed(es: seq<Event>, script: seq<Step>, k: nat): nat {
    if script == [] then 0 else
    var n := |script| - 1;
    Closed(es, script[..n], k) + (if script[n].Shut? && Owner(es, script[n].a) == k then 1 else 0)
  }

  lemma {:induction false} ClosedIs(es: seq<Event>, script: seq<Step>, k: nat)
    ensures multiset(Owners(es, script))[k] == Closed(es, script, k)
    decreases |script|
  {
    hide Owner;
    if script != [] {
      ClosedIs(es, script[..|script| - 1], k);
    }
  }

  // A place closed for a request without a descriptor, while it still holds that of an earlier one.
  predicate Stale(es: seq<Event>, s: Step) {
    s.Shut? && s.a.LastOf? && s.a.ks != [] && FdOf(es, s.a.ks[|s.a.ks| - 1]) == 0 && LastFd(es, s.a.ks) != 0
  }

  function StaleTimes(es: seq<Event>, script: seq<Step>, k: nat): nat {
    if script == [] then 0 else
    var n := |script| - 1;
    StaleTimes(es, script[..n], k) + (if Stale(es, script[n]) && Owner(es, script[n].a) == k then 1 else 0)
  }

  lemma {:induction false} ClosedSplit(es: seq<Event>, script: seq<Step>, k: nat)
    ensures Closed(es, script, k) == if FdOf(es, k) != 0 then Count(script, k) + StaleTimes(es, script, k) else 0
    ensures FdOf(es, k) == 0 ==> StaleTimes(es, script, k) == 0
    decreases |script|
  {
    hide FdOf, Owner, Is, Stale;
    if script != [] {
      var n := |script| - 1;
      ClosedSplit(es, script[..n], k);
      if script[n].Shut? {
        StepSplit(es, script[n], k);
      } else {
        IssueFresh(es, script[n]);
      }
    }
  }

  lemma IssueFresh(es: seq<Event>, s: Step)
    requires s.Issue?
    ensures !Stale(es, s)
  {
  }

  lemma StepSplit(es: seq<Event>, s: Step, k: nat)
    requires s.Shut?
    ensures (if Owner(es, s.a) == k then 1 else 0)
         == if FdOf(es, k) != 0 then Is(s.a, k) + (if Stale(es, s) && Owner(es, s.a) == k then 1 else 0) else 0
  {
    if s.a.LastOf? {
      LastOwnerIs(es, s.a.ks);
    }
  }

  // --- exactly once

  predicate IsLoad(c: Request) {
    c.Do? && c.op.ProgLoad?
  }

  // Request k is a lookup of the program that is unfinished after cs.
  ghost predicate Unfinished(cs: seq<Request>, k: nat) {
    k < |cs| && cs[k].Seek? && forall i | k < i < |cs| :: !IsLoad(cs[i])
  }

  lemma {:induction false} HeldIs(cs: seq<Request>, k: nat)
    requires OneTarget(cs)
    ensures HeldFor(LedgerAfter(cs), k) == if Unfinished(cs, k) then 1 else 0
    decreases |cs|
  {
    if cs == [] {
      HeldNone(k);
    } else {
      var n := |cs| - 1;
      var cs1 := cs[..n];
      assert cs == cs1 + [cs[n]];
      TargetBefore(cs, n);
      HeldIs(cs1, k);
      hide LedgerAfter, Occ, Count, IsOuter, OneTarget, Unfinished, HeldFor;
      TimesAfter(cs1, cs[n], k);
      UnfinishedNow(cs1, cs[n], k);
      if k >= n {
        Fresh(cs1, k);
        NotYet(cs1, k);
      }
    }
  }

  lemma NotYet(cs: seq<Request>, k: nat)
    requires k >= |cs|
    ensures HeldFor(LedgerAfter(cs), k) == 0 && !Unfinished(cs, k)
  {
    hide LedgerAfter, Occ, Count;
    Fresh(cs, k);
  }

  lemma UnfinishedNow(cs: seq<Request>, c: Request, k: nat)
    ensures Unfinished(cs + [c], k) <==> (k == |cs| && c.Seek?) || (k < |cs| && !IsLoad(c) && Unfinished(cs, k))
  {
    var cs2 := cs + [c];
    assert cs2[|cs|] == c;
    if k < |cs| && !IsLoad(c) {
      UnfinishedMore(cs, c, k);
    }
  }

  lemma HeldNone(k: nat)
    ensures HeldFor(LedgerAfter([]), k) == 0
  {
  }

  lemma UnfinishedMore(cs: seq<Request>, c: Request, k: nat)
    requires k < |cs| && !IsLoad(c)
    ensures Unfinished(cs + [c], k) <==> Unfinished(cs, k)
  {
    var cs2 := cs + [c];
    assert cs2[|cs|] == c;
    if Unfinished(cs2, k) {
      forall i | k < i < |cs| ensures !IsLoad(cs[i]) {
        assert cs2[i] == cs[i];
      }
    }
  }

  // Request k brought a descriptor.
  predicate Obtained(es: seq<Event>, cs: seq<Request>, k: nat) {
    k < |cs| && Produces(cs[k]) && FdOf(es, k) != 0
  }

  // What a run whose request j fails has to be like: BTFs and inner maps handled as Tame says, no
  // module found for a program that has not been loaded, and no stale slot.
  ghost predicate Clean(es: seq<Event>, cs: seq<Request>, j: nat)
    requires j < |cs|
  {
    Tame(cs[..j])
    && (IsLoad(cs[j]) || forall k: nat | Unfinished(cs[..j], k) :: FdOf(es, k) == 0)
    && forall s | s in UnwoundScript(cs, j) :: !Stale(es, s)
  }

  // Every descriptor obtained is closed once, and nothing else is closed.
  ghost predicate Once(es: seq<Event>, cs: seq<Request>, j: nat)
    requires j < |cs|
  {
    forall k: nat :: Closed(es, UnwoundScript(cs, j), k) == if Obtained(es, cs[..j], k) then 1 else 0
  }

  lemma {:induction false} NotStale(es: seq<Event>, script: seq<Step>, k: nat)
    requires forall s | s in script :: !Stale(es, s)
    ensures StaleTimes(es, script, k) == 0
    decreases |script|
  {
    hide Stale, Owner;
    if script != [] {
      assert script[|script| - 1] in script && forall s | s in script[..|script| - 1] :: s in script;
      NotStale(es, script[..|script| - 1], k);
    }
  }

  lemma {:induction false} IsStale(es: seq<Event>, script: seq<Step>, s: Step)
    requires s in script && Stale(es, s)
    ensures Owner(es, s.a) >= 0 && StaleTimes(es, script, Owner(es, s.a)) >= 1
    decreases |script|
  {
    var n := |script| - 1;
    OwnerIs(es, s.a);
    if script[n] != s {
      assert s in script[..n];
      IsStale(es, script[..n], s);
    }
  }

  lemma StaleShut(es: seq<Event>, s: Step)
    requires Stale(es, s)
    ensures s.Shut? && s.a.LastOf?
  {
  }

  // Who is closed by a stale step has had a close of its own.
  lemma StaleOwner(es: seq<Event>, script: seq<Step>, s: Step)
    requires Stale(es, s) && EarlierShut(script, s.a.ks)
    ensures Owner(es, s.a) >= 0 && FdOf(es, Owner(es, s.a)) != 0 && Count(script, Owner(es, s.a)) >= 1
  {
    hide Count;
    var ks := s.a.ks;
    LastOwnerIs(es, ks);
    LastOwnerIs(es, ks[..|ks| - 1]);
    var k := LastOwner(es, ks[..|ks| - 1]);
    var p :| 0 <= p < |ks| - 1 && ks[p] == k;
  }

  lemma {:induction false} StaleCounted(es: seq<Event>, script: seq<Step>, all: seq<Step>, k: nat)
    requires (forall s | s in script && s.Shut? && s.a.LastOf? :: EarlierShut(all, s.a.ks)) && StaleTimes(es, script, k) >= 1
    ensures Count(all, k) >= 1
    decreases |script|
  {
    hide Owner, EarlierShut, Count;
    var n := |script| - 1;
    assert script[n] in script && forall s | s in script[..n] :: s in script;
    if Stale(es, script[n]) && Owner(es, script[n].a) == k {
      StaleOwner(es, all, script[n]);
    } else {
      StaleCounted(es, script[..n], all, k);
    }
  }

  // Clean runs close every descriptor once.
  lemma CleanOnce(es: seq<Event>, cs: seq<Request>, j: nat)
    requires j < |cs| && OneTarget(cs[..j]) && Clean(es, cs, j)
    ensures Once(es, cs, j)
  {
    hide LedgerAfter, Occ, Count, InnerAfter, BtfLoads, OneTarget, Stale, UnwoundScript, Closed, StaleTimes,
      HeldFor, InPlaces, FdOf;
    var script, l := UnwoundScript(cs, j), LedgerAfter(cs[..j]);
    var x := RightOrWrong(cs[..j]);
    forall k: nat ensures Closed(es, script, k) == if Obtained(es, cs[..j], k) then 1 else 0 {
      ClosedSplit(es, script, k);
      NotStale(es, script, k);
      UnwoundCount(cs, j, k);
      HeldIs(cs[..j], k);
      assert Times(l, k) == Produced(cs[..j], k) + (if InnerAfter(cs[..j]) == Used then Is(l.inner, k) else 0);
    }
  }

  // A run that is not clean closes a descriptor twice or leaves one open, if no command brought
  // descriptor 0, which is never closed.
  lemma NotClean(es: seq<Event>, cs: seq<Request>, j: nat) returns (k: nat)
    requires j < |cs| && OneTarget(cs[..j]) && !Clean(es, cs, j)
    requires forall i | 0 <= i < j && cs[i].Do? && Produces(cs[i]) :: FdOf(es, i) != 0
    ensures k < j && Obtained(es, cs[..j], k) && Closed(es, UnwoundScript(cs, j), k) != 1
  {
    hide LedgerAfter, Occ, Count, InnerAfter, BtfLoads, OneTarget, Stale, UnwoundScript, Closed, StaleTimes,
      HeldFor, InPlaces, FdOf;
    var script, l := UnwoundScript(cs, j), LedgerAfter(cs[..j]);
    UnwoundEarlier(cs, j);
    var x := RightOrWrong(cs[..j]);
    if !Tame(cs[..j]) {
      k := if BtfLoads(cs[..j]) <= 1 && InnerAfter(cs[..j]) != Lost then l.inner.k else x;
      PlacedByDo(cs[..j]);
    } else if !(IsLoad(cs[j]) || forall i: nat | Unfinished(cs[..j], i) :: FdOf(es, i) == 0) {
      k :| Unfinished(cs[..j], k) && FdOf(es, k) != 0;
    } else {
      var s :| s in script && Stale(es, s);
      StaleShut(es, s);
      StaleOwner(es, script, s);
      IsStale(es, script, s);
      k := Owner(es, s.a);
    }
    ClosedSplit(es, script, k);
    UnwoundCount(cs, j, k);
    HeldIs(cs[..j], k);
    if StaleTimes(es, script, k) >= 1 {
      StaleCounted(es, script, script, k);
    }
    if Tame(cs[..j]) {
      assert Times(l, k) == Produced(cs[..j], k) + (if InnerAfter(cs[..j]) == Used then Is(l.inner, k) else 0);
    }
  }

  // --- on runs

  lemma {:induction false} SoughtGoals(rs: seq<Relo>, n: nat)
    requires n <= |rs|
    ensures forall c | c in Sought(rs, n) :: c.Seek? ==> !c.goal.Target?
  {
    hide Known;
    if n > 0 {
      SoughtGoals(rs, n - 1);
    }
  }

  lemma TargetMore(cs: seq<Request>, more: seq<Request>)
    requires OneTarget(cs) && LedgerAfter(cs).attach == Nowhere
    requires forall i | 0 < i < |more| :: more[i].Seek? ==> !more[i].goal.Target?
    ensures OneTarget(cs + more)
  {
    hide LedgerAfter;
    var cs2 := cs + more;
    forall i | 0 <= i < |cs2| && cs2[i].Seek? && cs2[i].goal.Target? ensures LedgerAfter(cs2[..i]).attach == Nowhere {
      if i < |cs| {
        assert cs2[..i] == cs[..i] && cs2[i] == cs[i];
      } else {
        assert cs2[i] == more[i - |cs|];
        assert cs2[..i] == cs;
      }
    }
  }

  // The requests of an API sequence search for one attach target per program.
  lemma {:induction false} TargetsOf(cfg: Config, ops: seq<Op>)
    requires ApplyAll(cfg, ops).Live?
    ensures OneTarget(Requests(ops))
    decreases |ops|
  {
    hide Apply, Init, LedgerAfter, OneTarget;
    if ops == [] {
      NoTargets();
    } else {
      var n := |ops| - 1;
      var op, p, cs := ops[n], PendingAfter(ops[..n]), Requests(ops[..n]);
      CountersGrow(cfg, ApplyAll(cfg, ops[..n]), op);
      TargetsOf(cfg, ops[..n]);
      AccountOf(cfg, ops[..n]);
      AskGoals(op, p);
      TargetMore(cs, Asks(op, p));
    }
  }

  lemma NoTargets()
    ensures OneTarget([])
  {
  }

  lemma AskGoals(op: Op, p: Pending)
    ensures var a := Asks(op, p); forall i | 0 < i < |a| :: a[i].Seek? ==> !a[i].goal.Target?
  {
    hide Sought;
    var a, t, s := Asks(op, p), SoughtTarget(p), Sought(p.relos, |p.relos|);
    SoughtGoals(p.relos, |p.relos|);
    if op.ProgLoad? {
      assert a == t + s + [Do(op, p)];
      forall i | 0 < i < |a| ensures a[i].Seek? ==> !a[i].goal.Target? {
        if i < |a| - 1 {
          assert a[i] == s[i - |t|];
        }
      }
    }
  }

  // The requests that brought a descriptor.
  function Bringing(es: seq<Event>, cs: seq<Request>): seq<nat> {
    if cs == [] then [] else
    var n := |cs| - 1;
    Bringing(es, cs[..n]) + (if Produces(cs[n]) && FdOf(es, n) != 0 then [n] else [])
  }

  lemma {:induction false} BringingIs(es: seq<Event>, cs: seq<Request>, k: nat)
    ensures multiset(Bringing(es, cs))[k] == if Obtained(es, cs, k) then 1 else 0
    decreases |cs|
  {
    hide Produces, FdOf;
    if cs != [] {
      BringingIs(es, cs[..|cs| - 1], k);
    }
  }

  lemma Without<T>(b: seq<T>, p: nat)
    requires p < |b|
    ensures multiset(b) == multiset(b[..p] + b[p + 1..]) + multiset{b[p]}
  {
    assert b == b[..p] + [b[p]] + b[p + 1..];
  }

  lemma Cancel<T>(a: multiset<T>, b: multiset<T>, x: T)
    requires a + multiset{x} == b + multiset{x}
    ensures a == b
  {
    assert a == a + multiset{x} - multiset{x} && b == b + multiset{x} - multiset{x};
  }

  // The same requests in another order have the same descriptors.
  lemma {:induction false} SameFds(es: seq<Event>, a: seq<nat>, b: seq<nat>)
    requires multiset(a) == multiset(b)
    ensures multiset(FdsOf(es, a)) == multiset(FdsOf(es, b))
    decreases |a|
  {
    hide FdOf, FdsOf;
    if a == [] {
      assert |b| == |multiset(b)| == |multiset(a)| == 0;
      assert a == b;
    } else {
      var n := |a| - 1;
      var x := a[n];
      assert x in multiset(b) by { assert multiset(a)[x] > 0; }
      var p :| 0 <= p < |b| && b[p] == x;
      var rest := b[..p] + b[p + 1..];
      Without(a, n);
      assert a[..n] + a[n + 1..] == a[..n];
      Without(b, p);
      Cancel(multiset(a[..n]), multiset(rest), x);
      SameFds(es, a[..n], rest);
      OneOut(es, a, n);
      OneOut(es, b, p);
    }
  }

  lemma OneOut(es: seq<Event>, b: seq<nat>, p: nat)
    requires p < |b|
    ensures multiset(FdsOf(es, b)) == multiset(FdsOf(es, b[..p] + b[p + 1..])) + multiset{FdOf(es, b[p])}
  {
    hide FdOf, FdsOf;
    var u, v := b[..p], b[p + 1..];
    assert b == u + [b[p]] + v;
    FdsConcat(es, u + [b[p]], v);
    FdsConcat(es, u, [b[p]]);
    FdsConcat(es, u, v);
    OneFd(es, b[p]);
  }

  lemma CallsPlain(t: seq<Event>)
    ensures forall e | e in Calls(t) :: !e.Close?
    decreases |t|
  {
    if t != [] {
      CallsPlain(t[..|t| - 1]);
    }
  }

  // The close events of a failing run are the descriptors of the account's owners.  They are those
  // of all requests that brought one, each once, if and only if the run is clean.
  lemma UnwoundOnce(env: Env, cfg: Config, ops: seq<Op>, j: nat, ctx: Bytes, code: Val, w: World)
    requires ApplyAll(cfg, ops).Live? && j < |Requests(ops)| && Unwound(env, Requests(ops), j, ctx, code, w)
    ensures var es, cs := Calls(w.trace), Requests(ops);
      ClosedFds(w.trace) == FdsOf(es, Owners(es, UnwoundScript(cs, j)))
      && (Clean(es, cs, j) ==> Once(es, cs, j) && multiset(ClosedFds(w.trace)) == multiset(FdsOf(es, Bringing(es, cs[..j]))))
      && ((forall i | 0 <= i < j && cs[i].Do? && Produces(cs[i]) :: FdOf(es, i) != 0)
        ==> (Once(es, cs, j) <==> Clean(es, cs, j)))
  {
    hide ApplyAll, LedgerAfter, Calls, Given, Followed, Clean, OneTarget, UnwoundScript, Owners, Closed, Obtained,
      Bringing, Requests;
    var es, cs := Calls(w.trace), Requests(ops);
    var script := UnwoundScript(cs, j);
    TargetsOf(cfg, ops);
    TargetBefore(cs, j);
    CallsPlain(w.trace);
    ClosesAre(es, script);
    if Clean(es, cs, j) {
      CleanOnce(es, cs, j);
      forall k: nat ensures multiset(Owners(es, script))[k] == multiset(Bringing(es, cs[..j]))[k] {
        ClosedIs(es, script, k);
        BringingIs(es, cs[..j], k);
      }
      SameFds(es, Owners(es, script), Bringing(es, cs[..j]));
    } else if forall i | 0 <= i < j && cs[i].Do? && Produces(cs[i]) :: FdOf(es, i) != 0 {
      var k := NotClean(es, cs, j);
      assert Closed(es, script, k) != 1 && Obtained(es, cs[..j], k);
    }
  }

  // --- runs without failures

  // What is closed, or handed to the caller.
  function ReleasedScript(cs: seq<Request>): seq<Step> {
    LoadedScript(cs) + Shuts(LedgerAfter(cs).progs + LedgerAfter(cs).maps)
  }

  ghost predicate CleanLoad(es: seq<Event>, cs: seq<Request>) {
    BtfLoads(cs) <= 1 && (InnerAfter(cs) == Unset || InnerAfter(cs) == Used)
      && forall s | s in ReleasedScript(cs) :: !Stale(es, s)
  }

  ghost predicate ReleasedOnce(es: seq<Event>, cs: seq<Request>) {
    forall k: nat :: Closed(es, ReleasedScript(cs), k) == if Obtained(es, cs, k) then 1 else 0
  }

  lemma ReleasedCount(cs: seq<Request>, k: nat)
    ensures var l := LedgerAfter(cs);
      Count(ReleasedScript(cs), k) == Count(l.script, k) + Is(l.btf, k) + Occ(l.progs, k) + Occ(l.maps, k)
  {
    hide LedgerAfter, Is, Occ, Count, Shuts;
    var l := LedgerAfter(cs);
    CountSnoc(l.script, Shut(l.btf), k);
    CountShuts(LoadedScript(cs), l.progs + l.maps, k);
    OccConcat(l.progs, l.maps, k);
  }

  lemma ReleasedEarlier(cs: seq<Request>)
    ensures forall s | s in ReleasedScript(cs) && s.Shut? && s.a.LastOf? :: EarlierShut(ReleasedScript(cs), s.a.ks)
  {
    hide Count, EarlierShut, Shuts, LedgerAfter;
    var l := LedgerAfter(cs);
    AllUsersShut(cs);
    var places, script := l.progs + l.maps, ReleasedScript(cs);
    OneMore(l.script, Shut(l.btf));
    ShutsMore(LoadedScript(cs), places);
    ShutsAre(places);
    PlacesPlain(l);
    assert l.btf in Places(l) && forall a | a in places :: a in Places(l);
    assert forall k: nat :: Count(script, k) >= Count(LoadedScript(cs), k) >= Count(l.script, k);
    forall s | s in script && s.Shut? && s.a.LastOf? ensures EarlierShut(script, s.a.ks) {
      assert s in l.script;
      EarlierMore(l.script, script, s.a.ks);
    }
  }

  // When everything succeeds, every descriptor obtained is closed once or handed over once if and
  // only if at most one BTF was loaded, each inner map was used once, and no slot was stale.
  lemma LoadedOnce(env: Env, cfg: Config, ops: seq<Op>, ctx: Bytes, code: Val, w: World)
    requires ApplyAll(cfg, ops).Live? && Loaded(env, Requests(ops), cfg.nrMaps, ctx, code, w)
    ensures var es, cs := Calls(w.trace), Requests(ops);
      (CleanLoad(es, cs) ==> ReleasedOnce(es, cs))
      && ((forall i | 0 <= i < |cs| && cs[i].Do? && Produces(cs[i]) :: FdOf(es, i) != 0)
        ==> (ReleasedOnce(es, cs) <==> CleanLoad(es, cs)))
  {
    hide ApplyAll, LedgerAfter, Calls, Given, Followed, OneTarget, ReleasedScript, Requests, Stale, Closed, Count,
      Occ, Is, Loaded;
    hide InnerAfter, BtfLoads, StaleTimes, FdOf, Right, Wrong;
    var es, cs := Calls(w.trace), Requests(ops);
    TargetsOf(cfg, ops);
    AccountOf(cfg, ops);
    if CleanLoad(es, cs) {
      forall k: nat ensures Closed(es, ReleasedScript(cs), k) == if Obtained(es, cs, k) then 1 else 0 {
        CleanReleased(es, cs, k);
      }
    } else if forall i | 0 <= i < |cs| && cs[i].Do? && Produces(cs[i]) :: FdOf(es, i) != 0 {
      var k := NotReleased(es, cs);
    }
  }

  lemma CleanReleased(es: seq<Event>, cs: seq<Request>, k: nat)
    requires OneTarget(cs) && CleanLoad(es, cs) && IdleAccount(LedgerAfter(cs))
    ensures Closed(es, ReleasedScript(cs), k) == if Obtained(es, cs, k) then 1 else 0
  {
    hide LedgerAfter, Occ, Count, InnerAfter, BtfLoads, OneTarget, Stale, ReleasedScript, Closed, StaleTimes, FdOf;
    var script, l := ReleasedScript(cs), LedgerAfter(cs);
    var x := RightOrWrong(cs);
    ClosedSplit(es, script, k);
    NotStale(es, script, k);
    ReleasedCount(cs, k);
    OccNone(k);
    assert Times(l, k) == Produced(cs, k) + (if InnerAfter(cs) == Used then Is(l.inner, k) else 0);
  }

  lemma NotReleased(es: seq<Event>, cs: seq<Request>) returns (k: nat)
    requires OneTarget(cs) && !CleanLoad(es, cs) && IdleAccount(LedgerAfter(cs))
    requires forall i | 0 <= i < |cs| && cs[i].Do? && Produces(cs[i]) :: FdOf(es, i) != 0
    ensures Obtained(es, cs, k) && Closed(es, ReleasedScript(cs), k) != 1
  {
    hide LedgerAfter, Occ, Count, InnerAfter, BtfLoads, OneTarget, Stale, ReleasedScript, Closed, StaleTimes, FdOf;
    var script, l := ReleasedScript(cs), LedgerAfter(cs);
    ReleasedEarlier(cs);
    var x := RightOrWrong(cs);
    PlacedByDo(cs);
    if !(BtfLoads(cs) <= 1 && InnerAfter(cs) != Lost) {
      k := x;
    } else if InnerAfter(cs) == Open {
      k := l.inner.k;
    } else {
      var s :| s in script && Stale(es, s);
      StaleShut(es, s);
      StaleOwner(es, script, s);
      IsStale(es, script, s);
      k := Owner(es, s.a);
    }
    ClosedSplit(es, script, k);
    ReleasedCount(cs, k);
    OccNone(k);
    if StaleTimes(es, script, k) >= 1 {
      StaleCounted(es, script, script, k);
    }
    if BtfLoads(cs) <= 1 && InnerAfter(cs) != Lost {
      assert Times(l, k) == Produced(cs, k) + (if InnerAfter(cs) == Used then Is(l.inner, k) else 0);
    }
  }
}
