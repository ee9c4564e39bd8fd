/** When a run closes every descriptor it obtained exactly once.  A failing run does unless a second
    BTF was loaded, an inner map's descriptor was overwritten unused or was used and not overwritten,
    a lookup of the unfinished program had found a module, or a kernel function that was not found in
    a module reused the slot of one that was. */
module LoaderOnce {
  import opened LoaderBytes
  import opened LoaderMachine
  import opened LoaderGen
  import opened LoaderShape
  import opened LoaderLedger
  import opened LoaderFollow
  import opened LoaderSave
  import opened LoaderMain

  // The request's answer may bring a descriptor.
  predicate Produces(c: Request) {
    c.Seek? || (c.Do? && (c.op.LoadBtf? || c.op.MapCreate? || c.op.ProgLoad?))
  }

  function Produced(cs: seq<Request>, k: nat): nat {
    if k < |cs| && Produces(cs[k]) then 1 else 0
  }

  // --- closes by request, whatever the answers

  // The place was last meant for the descriptor of request k.
  function Is(a: Source, k: nat): nat {
    if a == Of(k) || (a.LastOf? && a.ks != [] && a.ks[|a.ks| - 1] == k) then 1 else 0
  }

  function Occ(places: seq<Source>, k: nat): nat {
    if places == [] then 0 else
    var n := |places| - 1;
    Occ(places[..n], k) + Is(places[n], k)
  }

  function ShutOf(s: Step, k: nat): nat {
    if s.Shut? then Is(s.a, k) else 0
  }

  // How often a script closes a place meant for request k.
  function Count(script: seq<Step>, k: nat): nat {
    if script == [] then 0 else
    var n := |script| - 1;
    Count(script[..n], k) + ShutOf(script[n], k)
  }

  lemma OccSnoc(places: seq<Source>, a: Source, k: nat)
    ensures Occ(places + [a], k) == Occ(places, k) + Is(a, k)
  {
    assert (places + [a])[..|places|] == places;
  }

  lemma CountSnoc(script: seq<Step>, s: Step, k: nat)
    ensures Count(script + [s], k) == Count(script, k) + ShutOf(s, k)
  {
    assert (script + [s])[..|script|] == script;
  }

  lemma {:induction false} OccConcat(a: seq<Source>, b: seq<Source>, k: nat)
    ensures Occ(a + b, k) == Occ(a, k) + Occ(b, k)
    decreases |b|
  {
    hide Is;
    if b == [] {
      assert a + b == a;
    } else {
      var n := |b| - 1;
      OccConcat(a, b[..n], k);
      assert a + b == (a + b[..n]) + [b[n]];
      OccSnoc(a + b[..n], b[n], k);
    }
  }

  lemma {:induction false} CountShuts(script: seq<Step>, places: seq<Source>, k: nat)
    ensures Count(script + Shuts(places), k) == Count(script, k) + Occ(places, k)
    decreases |places|
  {
    hide Is;
    if places == [] {
      assert script + Shuts(places) == script;
    } else {
      var n := |places| - 1;
      CountShuts(script, places[..n], k);
      assert script + Shuts(places) == script + Shuts(places[..n]) + [Shut(places[n])];
      CountSnoc(script + Shuts(places[..n]), Shut(places[n]), k);
    }
  }

  // What cleaning up closes for request k on top of the script, and what the unfinished program holds.
  function InPlaces(l: Ledger, k: nat): nat {
    Is(l.btf, k) + Is(l.inner, k) + Occ(l.progs, k) + Occ(l.maps, k)
  }

  function HeldFor(l: Ledger, k: nat): nat {
    Occ(l.held, k) + Is(l.attach, k)
  }

  function Times(l: Ledger, k: nat): nat {
    Count(l.script, k) + InPlaces(l, k) + HeldFor(l, k)
  }

  // --- what a caller can check

  // The life of the inner map's place over a sequence of requests, and the number of BTFs loaded.
  datatype Inner = Unset | Open | Used | Lost

  function Stored(i: Inner): Inner {
    if i == Unset || i == Used then Open else Lost
  }

  function UsedBy(i: Inner): Inner {
    match i case Unset => Unset case Open => Used case _ => Lost
  }

  function InnerNext(i: Inner, c: Request): Inner {
    if !(c.Do? && c.op.MapCreate?) then i else
    var j := if c.op.idx < 0 then Stored(i) else i;
    if IsOuter(c.op.spec) then UsedBy(j) else j
  }

  function InnerAfter(cs: seq<Request>): Inner {
    if cs == [] then Unset else InnerNext(InnerAfter(cs[..|cs| - 1]), cs[|cs| - 1])
  }

  function BtfLoads(cs: seq<Request>): nat {
    if cs == [] then 0 else
    var c := cs[|cs| - 1];
    BtfLoads(cs[..|cs| - 1]) + (if c.Do? && c.op.LoadBtf? then 1 else 0)
  }

  // At most one BTF, and no inner map used or overwritten since the last one was created.
  predicate Tame(cs: seq<Request>) {
    BtfLoads(cs) <= 1 && (InnerAfter(cs) == Unset || InnerAfter(cs) == Open)
  }

  // Each program searches for at most one attach target.
  ghost predicate OneTarget(cs: seq<Request>) {
    forall i | 0 <= i < |cs| && cs[i].Seek? && cs[i].goal.Target? :: LedgerAfter(cs[..i]).attach == Nowhere
  }

  lemma Snoc(cs: seq<Request>, c: Request)
    ensures BtfLoads(cs + [c]) == BtfLoads(cs) + (if c.Do? && c.op.LoadBtf? then 1 else 0)
    ensures InnerAfter(cs + [c]) == InnerNext(InnerAfter(cs), c)
  {
    assert (cs + [c])[..|cs|] == cs;
  }

  // --- the account counts every descriptor once

  ghost predicate Right(cs: seq<Request>) {
    var l, i := LedgerAfter(cs), InnerAfter(cs);
    (l.btf.Of? <==> BtfLoads(cs) == 1) && (l.inner.Of? <==> i != Unset) && !l.btf.LastOf? && !l.inner.LastOf?
    && (i == Used ==> Count(l.script, l.inner.k) == 1)
    && (i == Open ==> Count(l.script, l.inner.k) == 0)
    && forall k: nat :: Times(l, k) == Produced(cs, k) + (if i == Used then Is(l.inner, k) else 0)
  }

  // Request k's descriptor is closed twice, or never will be.
  predicate Wrong(cs: seq<Request>, k: nat) {
    var l := LedgerAfter(cs);
    k < |cs| && cs[k].Do? && Produces(cs[k]) && (Count(l.script, k) >= 2 || Times(l, k) == 0)
  }

  lemma AnsweredCount(l: Ledger, c: Request, n: nat, k: nat)
    ensures Count(Answered(l, c, n), k) == Count(l.script, k) + (if c.Do? && c.op.ProgLoad? then HeldFor(l, k) else 0)
  {
    hide Is, Occ, Count, Shuts;
    CountSnoc(l.script, Issue(n), k);
    if c.Do? && c.op.ProgLoad? {
      CountShuts(l.script + [Issue(n)], l.held + [l.attach], k);
      OccSnoc(l.held, l.attach, k);
    } else {
      assert Answered(l, c, n) == l.script + [Issue(n)];
    }
  }

  lemma LastIs(ks: seq<nat>, n: nat, k: nat)
    ensures Is(LastOf(ks + [n]), k) == if k == n then 1 else 0
  {
  }

  // How one more successful request changes the counts.
  lemma TimesAfter(cs: seq<Request>, c: Request, k: nat)
    requires c.Seek? && c.goal.Target? ==> LedgerAfter(cs).attach == Nowhere
    ensures var l, l2, n := LedgerAfter(cs), LedgerAfter(cs + [c]), |cs|;
      var load := c.Do? && c.op.ProgLoad?;
      Count(l2.script, k) == Count(l.script, k) + (if load then HeldFor(l, k) else 0)
        + (if c.Do? && c.op.MapCreate? && IsOuter(c.op.spec) then Is(l2.inner, k) else 0)
      && HeldFor(l2, k) == (if load then 0 else HeldFor(l, k)) + (if c.Seek? && k == n then 1 else 0)
      && Occ(l2.progs, k) == Occ(l.progs, k) + (if load && k == n then 1 else 0)
      && Occ(l2.maps, k) == Occ(l.maps, k) + (if c.Do? && c.op.MapCreate? && c.op.idx >= 0 && k == n then 1 else 0)
      && l2.btf == (if c.Do? && c.op.LoadBtf? then Of(n) else l.btf)
      && l2.inner == (if c.Do? && c.op.MapCreate? && c.op.idx < 0 then Of(n) else l.inner)
  {
    hide LedgerAfter, Occ, Count, Answered, IsOuter;
    var l, n := LedgerAfter(cs), |cs|;
    LedgerSnoc(cs, c);
    AnsweredCount(l, c, n, k);
    OccSnoc(l.progs, Of(n), k);
    OccSnoc(l.maps, Of(n), k);
    OccSnoc(l.held, Of(n), k);
    OccSnoc(l.held, Nowhere, k);
    OccSnoc(l.held, LastOf(Users(l, l.functions) + [n]), k);
    LastIs(Users(l, l.functions), n, k);
    OccNone(k);
    var l2 := LedgerAfter(cs + [c]);
    CountSnoc(Answered(l, c, n), Shut(l2.inner), k);
  }

  lemma OccNone(k: nat)
    ensures Occ([], k) == 0
  {
  }

  lemma IsBelow(a: Source, n: nat, k: nat)
    requires SourceBelow(a, n) && k >= n
    ensures Is(a, k) == 0
  {
    if a.LastOf? && a.ks != [] {
      assert a.ks[|a.ks| - 1] in a.ks;
    }
  }

  lemma {:induction false} OccBelow(places: seq<Source>, n: nat, k: nat)
    requires (forall a | a in places :: SourceBelow(a, n)) && k >= n
    ensures Occ(places, k) == 0
    decreases |places|
  {
    hide Is, SourceBelow;
    if places != [] {
      var m := |places| - 1;
      assert places[m] in places && forall a | a in places[..m] :: a in places;
      OccBelow(places[..m], n, k);
      IsBelow(places[m], n, k);
    }
  }

  lemma {:induction false} CountBelow(script: seq<Step>, n: nat, k: nat)
    requires (forall s | s in script :: StepBelow(s, n)) && k >= n
    ensures Count(script, k) == 0
    decreases |script|
  {
    hide Is;
    if script != [] {
      var m := |script| - 1;
      assert script[m] in script && forall s | s in script[..m] :: s in script;
      CountBelow(script[..m], n, k);
      if script[m].Shut? {
        IsBelow(script[m].a, n, k);
      }
    }
  }

  lemma Fresh(cs: seq<Request>, k: nat)
    requires k >= |cs|
    ensures Times(LedgerAfter(cs), k) == 0
  {
    hide Is, Occ, Count, LedgerAfter;
    var l := LedgerAfter(cs);
    LedgerBelow(cs);
    CountBelow(l.script, |cs|, k);
    OccBelow(l.progs, |cs|, k);
    OccBelow(l.maps, |cs|, k);
    OccBelow(l.held, |cs|, k);
    IsBelow(l.attach, |cs|, k);
    IsBelow(l.btf, |cs|, k);
    IsBelow(l.inner, |cs|, k);
  }

  lemma WrongStays(cs: seq<Request>, c: Request, k: nat)
    requires Wrong(cs, k) && (c.Seek? && c.goal.Target? ==> LedgerAfter(cs).attach == Nowhere)
    ensures Wrong(cs + [c], k)
  {
    hide LedgerAfter, Occ, Count, IsOuter;
    TimesAfter(cs, c, k);
  }

  // A request that keeps everything right.
  lemma RightStays(cs: seq<Request>, c: Request)
    requires Right(cs) && (c.Seek? && c.goal.Target? ==> LedgerAfter(cs).attach == Nowhere)
    requires BtfLoads(cs + [c]) <= 1 && InnerAfter(cs) != Lost && InnerAfter(cs + [c]) != Lost
    ensures Right(cs + [c])
  {
    hide LedgerAfter, Occ, Count, InnerAfter, BtfLoads, IsOuter, Times;
    Snoc(cs, c);
    TimesAfter(cs, c, 0);
    forall k: nat
      ensures Times(LedgerAfter(cs + [c]), k)
           == Produced(cs + [c], k) + (if InnerAfter(cs + [c]) == Used then Is(LedgerAfter(cs + [c]).inner, k) else 0)
    {
      RightTimes(cs, c, k);
    }
    if LedgerAfter(cs + [c]).inner.Of? {
      RightInner(cs, c);
    }
  }

  lemma RightTimes(cs: seq<Request>, c: Request, k: nat)
    requires Right(cs) && (c.Seek? && c.goal.Target? ==> LedgerAfter(cs).attach == Nowhere)
    requires BtfLoads(cs + [c]) <= 1 && InnerAfter(cs) != Lost && InnerAfter(cs + [c]) != Lost
    ensures Times(LedgerAfter(cs + [c]), k)
         == Produced(cs + [c], k) + (if InnerAfter(cs + [c]) == Used then Is(LedgerAfter(cs + [c]).inner, k) else 0)
  {
    hide LedgerAfter, Occ, Count, InnerAfter, BtfLoads, IsOuter;
    var l := LedgerAfter(cs);
    Snoc(cs, c);
    Fresh(cs, |cs|);
    TimesAfter(cs, c, k);
    assert Times(l, k) == Produced(cs, k) + (if InnerAfter(cs) == Used then Is(l.inner, k) else 0);
  }

  lemma RightInner(cs: seq<Request>, c: Request)
    requires Right(cs) && (c.Seek? && c.goal.Target? ==> LedgerAfter(cs).attach == Nowhere)
    requires InnerAfter(cs) != Lost && InnerAfter(cs + [c]) != Lost && LedgerAfter(cs + [c]).inner.Of?
    ensures var l2, i := LedgerAfter(cs + [c]), InnerAfter(cs + [c]);
      (i == Used ==> Count(l2.script, l2.inner.k) == 1) && (i == Open ==> Count(l2.script, l2.inner.k) == 0)
  {
    hide LedgerAfter, Occ, Count, InnerAfter, BtfLoads, IsOuter;
    var l, k := LedgerAfter(cs), LedgerAfter(cs + [c]).inner.k;
    Snoc(cs, c);
    Fresh(cs, |cs|);
    TimesAfter(cs, c, k);
    assert Times(l, k) == Produced(cs, k) + (if InnerAfter(cs) == Used then Is(l.inner, k) else 0);
  }

  // The first request that goes wrong.
  lemma GoesWrong(cs: seq<Request>, c: Request) returns (k: nat)
    requires Right(cs) && BtfLoads(cs) <= 1 && InnerAfter(cs) != Lost
    requires c.Seek? && c.goal.Target? ==> LedgerAfter(cs).attach == Nowhere
    requires BtfLoads(cs + [c]) > 1 || InnerAfter(cs + [c]) == Lost
    ensures Wrong(cs + [c], k)
  {
    hide LedgerAfter, Occ, Count, InnerAfter, BtfLoads, IsOuter;
    Snoc(cs, c);
    var l := LedgerAfter(cs);
    k := if c.op.LoadBtf? then l.btf.k else l.inner.k;
    assert Times(l, k) == Produced(cs, k) + (if InnerAfter(cs) == Used then Is(l.inner, k) else 0);
    Fresh(cs, |cs|);
    if k >= |cs| {
      Fresh(cs, k);
    }
    TimesAfter(cs, c, k);
    PlacedByDo(cs);
  }

  // Only commands leave descriptors in the stack words for BTF and inner map.
  lemma {:induction false} PlacedByDo(cs: seq<Request>)
    ensures var l := LedgerAfter(cs);
      (l.btf.Of? ==> l.btf.k < |cs| && cs[l.btf.k].Do? && Produces(cs[l.btf.k]))
      && (l.inner.Of? ==> l.inner.k < |cs| && cs[l.inner.k].Do? && Produces(cs[l.inner.k]))
    decreases |cs|
  {
    hide Answered;
    if cs != [] {
      PlacedByDo(cs[..|cs| - 1]);
    }
  }

  lemma {:induction false} RightOrWrong(cs: seq<Request>) returns (k: nat)
    requires OneTarget(cs)
    ensures if BtfLoads(cs) <= 1 && InnerAfter(cs) != Lost then Right(cs) else Wrong(cs, k)
    decreases |cs|
  {
    k := 0;
    if cs == [] {
      RightAtFirst();
    } else {
      var n := |cs| - 1;
      var cs1 := cs[..n];
      assert cs == cs1 + [cs[n]];
      TargetBefore(cs, n);
      k := RightOrWrong(cs1);
      hide LedgerAfter, Occ, Count, InnerAfter, BtfLoads, Right, Wrong, OneTarget;
      Snoc(cs1, cs[n]);
      if !(BtfLoads(cs1) <= 1 && InnerAfter(cs1) != Lost) {
        WrongStays(cs1, cs[n], k);
      } else if BtfLoads(cs) <= 1 && InnerAfter(cs) != Lost {
        RightStays(cs1, cs[n]);
      } else {
        k := GoesWrong(cs1, cs[n]);
      }
    }
  }

  lemma RightAtFirst()
    ensures Right([])
  {
  }

  lemma TargetBefore(cs: seq<Request>, n: nat)
    requires OneTarget(cs) && n <= |cs|
    ensures OneTarget(cs[..n])
    ensures n < |cs| && cs[n].Seek? && cs[n].goal.Target? ==> LedgerAfter(cs[..n]).attach == Nowhere
  {
    hide LedgerAfter;
    forall i | 0 <= i < n ensures cs[..n][..i] == cs[..i] {
    }
  }
}
