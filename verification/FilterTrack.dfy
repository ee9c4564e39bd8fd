/** Interference between CPUs: a counter of a session is stored by one CPU between another one's load
    and store of it.  Kept up step by step as a set of CPUs whose loaded value is out of date, and shown
    to be what the steps of the run say. */
module FilterTrack {
  import opened FilterPolicy
  import opened FilterScan
  import opened FilterRun

  // --- in terms of the steps of a run

  // The state before step r.
  function Before(p: Policies, n: nat, ts: seq<Step>, r: nat): State
    requires r <= |ts|
  {
    Exec(Boot(p, n), ts[..r])
  }

  predicate ByCpu(t: Step, i: nat) {
    !t.Evict? && !t.SetPolicies? && t.cpu == i
  }

  // The CPU is about to load, or has loaded, counter x of the session that packet c created.
  predicate AboutTo(q: Phase, x: Counter, c: nat) {
    q.Hit? && q.creator == c && (q.stage.Found? || q.stage.Between?) && Turn(q.stage) == x
  }

  predicate Holds(q: Phase, x: Counter, c: nat) {
    q.Hit? && q.creator == c && q.stage.Loaded? && q.stage.x == x
  }

  predicate LoadsIn(s: State, t: Step, i: nat, x: Counter, c: nat) {
    t == Load(i) && i < |s.cpus| && AboutTo(s.cpus[i].phase, x, c)
  }

  predicate StoresIn(s: State, t: Step, i: nat, x: Counter, c: nat) {
    t == Store(i) && i < |s.cpus| && Holds(s.cpus[i].phase, x, c)
  }

  // Step r: CPU i loads counter x of that session, or stores it, or does anything at all.
  predicate LoadsAt(p: Policies, n: nat, ts: seq<Step>, r: nat, i: nat, x: Counter, c: nat) {
    r < |ts| && LoadsIn(Before(p, n, ts, r), ts[r], i, x, c)
  }

  predicate StoresAt(p: Policies, n: nat, ts: seq<Step>, r: nat, i: nat, x: Counter, c: nat) {
    r < |ts| && StoresIn(Before(p, n, ts, r), ts[r], i, x, c)
  }

  predicate Acts(p: Policies, n: nat, ts: seq<Step>, r: nat, i: nat) {
    r < |ts| && ByCpu(ts[r], i) && Enabled(Before(p, n, ts, r), ts[r])
  }

  // CPU i loads the counter at step l and does nothing else before it stores it at step o; another CPU
  // j stores it in between, at step m.
  predicate Interferes(p: Policies, n: nat, ts: seq<Step>, i: nat, j: nat, x: Counter, c: nat, l: nat, m: nat, o: nat) {
    l < m < o && j != i && LoadsAt(p, n, ts, l, i, x, c) && StoresAt(p, n, ts, m, j, x, c) && StoresAt(p, n, ts, o, i, x, c)
    && forall r | l < r < o :: !Acts(p, n, ts, r, i)
  }

  ghost predicate Interfered(p: Policies, n: nat, ts: seq<Step>, x: Counter, c: nat) {
    exists i, j, l, m, o :: Interferes(p, n, ts, i, j, x, c, l, m, o)
  }

  // --- step by step

  // stale: the CPUs whose loaded value of counter x has been overwritten; lost: the sessions of which
  // such a value has been stored.
  datatype Tracker = Tracker(stale: set<nat>, lost: set<nat>)

  function Holders(s: State, x: Counter, c: nat): set<nat> {
    set j | 0 <= j < |s.cpus| && Holds(s.cpus[j].phase, x, c)
  }

  function NextTrack(s: State, k: Tracker, t: Step, x: Counter): Tracker {
    if !Enabled(s, t) then k
    else if t.Load? then k.(stale := k.stale - {t.cpu})
    else if t.Store? && s.cpus[t.cpu].phase.stage.x == x then
      var c := s.cpus[t.cpu].phase.creator;
      Tracker((k.stale + Holders(s, x, c)) - {t.cpu}, if t.cpu in k.stale then k.lost + {c} else k.lost)
    else k
  }

  function Track(p: Policies, n: nat, ts: seq<Step>, x: Counter): Tracker {
    if ts == [] then Tracker({}, {}) else
    var m := |ts| - 1;
    NextTrack(Exec(Boot(p, n), ts[..m]), Track(p, n, ts[..m], x), ts[m], x)
  }

  // --- both are the same

  // CPU i still holds what it has loaded at step l.
  predicate Waits(p: Policies, n: nat, ts: seq<Step>, l: nat, i: nat, x: Counter, c: nat) {
    LoadsAt(p, n, ts, l, i, x, c) && forall r | l < r < |ts| :: !Acts(p, n, ts, r, i)
  }

  lemma SamePast(p: Policies, n: nat, ts: seq<Step>, m: nat, r: nat)
    requires r < m <= |ts|
    ensures ts[..m][r] == ts[r] && Before(p, n, ts[..m], r) == Before(p, n, ts, r)
  {
    assert ts[..m][..r] == ts[..r];
  }

  // What one step does to the phase of a CPU that counts.
  lemma PhaseAfter(s: State, t: Step, i: nat, x: Counter, c: nat)
    requires Enabled(s, t) && i < |s.cpus|
    ensures |Next(s, t).cpus| == |s.cpus|
    ensures !ByCpu(t, i) ==> Next(s, t).cpus[i].phase == s.cpus[i].phase
    ensures ByCpu(t, i) ==> (Holds(Next(s, t).cpus[i].phase, x, c) <==> LoadsIn(s, t, i, x, c))
  {
    hide Consider, Outcome, Remove, Enforce, Field, Amount, Tallied;
  }

  lemma SameCpus(s: State, t: Step)
    requires Enabled(s, t)
    ensures |Next(s, t).cpus| == |s.cpus|
  {
    hide Consider, Outcome, Remove, Enforce, Field, Amount, Tallied;
  }

  lemma {:induction false} CpusStay(p: Policies, n: nat, ts: seq<Step>)
    ensures |Exec(Boot(p, n), ts).cpus| == n
    decreases |ts|
  {
    hide Next, Enabled;
    if ts != [] {
      CpusStay(p, n, ts[..|ts| - 1]);
      var s := Exec(Boot(p, n), ts[..|ts| - 1]);
      if Enabled(s, ts[|ts| - 1]) {
        SameCpus(s, ts[|ts| - 1]);
      }
    }
  }

  // A longer run: the CPU still waits if it did before and has not acted now, or if it loads now.
  lemma WaitsMore(p: Policies, n: nat, ts: seq<Step>, l: nat, i: nat, x: Counter, c: nat)
    requires l < |ts|
    ensures var m := |ts| - 1;
      Waits(p, n, ts, l, i, x, c) <==>
        if l == m then LoadsAt(p, n, ts, m, i, x, c) else Waits(p, n, ts[..m], l, i, x, c) && !Acts(p, n, ts, m, i)
  {
    hide LoadsIn, Enabled, ByCpu;
    var m := |ts| - 1;
    if l < m {
      SamePast(p, n, ts, m, l);
      forall r | l < r < m ensures Acts(p, n, ts[..m], r, i) == Acts(p, n, ts, r, i) {
        SamePast(p, n, ts, m, r);
      }
    }
  }

  ghost predicate Waiting(p: Policies, n: nat, ts: seq<Step>, i: nat, x: Counter, c: nat) {
    exists l: nat :: Waits(p, n, ts, l, i, x, c)
  }

  lemma WaitingMore(p: Policies, n: nat, ts: seq<Step>, i: nat, x: Counter, c: nat)
    requires ts != []
    ensures var m := |ts| - 1;
      Waiting(p, n, ts, i, x, c) <==>
        LoadsAt(p, n, ts, m, i, x, c) || (Waiting(p, n, ts[..m], i, x, c) && !Acts(p, n, ts, m, i))
  {
    hide LoadsAt, Acts;
    var m := |ts| - 1;
    if l: nat :| Waits(p, n, ts, l, i, x, c) {
      InRun(p, n, ts, l, i, x, c);
      WaitsMore(p, n, ts, l, i, x, c);
    }
    if l: nat :| Waits(p, n, ts[..m], l, i, x, c) {
      InRun(p, n, ts[..m], l, i, x, c);
      WaitsMore(p, n, ts, l, i, x, c);
    }
    WaitsMore(p, n, ts, m, i, x, c);
  }

  lemma InRun(p: Policies, n: nat, ts: seq<Step>, l: nat, i: nat, x: Counter, c: nat)
    requires Waits(p, n, ts, l, i, x, c)
    ensures l < |ts|
  {
  }

  // A CPU holds a loaded value exactly if it waits behind the load.
  lemma {:induction false} HoldsIs(p: Policies, n: nat, ts: seq<Step>, i: nat, x: Counter, c: nat)
    requires i < n
    ensures |Exec(Boot(p, n), ts).cpus| == n
    ensures Holds(Exec(Boot(p, n), ts).cpus[i].phase, x, c) <==> Waiting(p, n, ts, i, x, c)
    decreases |ts|
  {
    hide Next, Enabled, LoadsIn, Holds, Waiting, ByCpu;
    CpusStay(p, n, ts);
    if ts == [] {
      IdleHolds(p, n, i, x, c);
    } else {
      var m := |ts| - 1;
      var s, t := Exec(Boot(p, n), ts[..m]), ts[m];
      HoldsIs(p, n, ts[..m], i, x, c);
      WaitingMore(p, n, ts, i, x, c);
      LoadEnabled(s, t, i, x, c);
      if Enabled(s, t) {
        PhaseAfter(s, t, i, x, c);
      }
    }
  }

  lemma LoadEnabled(s: State, t: Step, i: nat, x: Counter, c: nat)
    ensures LoadsIn(s, t, i, x, c) || StoresIn(s, t, i, x, c) ==> Enabled(s, t) && ByCpu(t, i)
  {
  }

  lemma IdleHolds(p: Policies, n: nat, i: nat, x: Counter, c: nat)
    requires i < n
    ensures !Holds(Boot(p, n).cpus[i].phase, x, c) && !Waiting(p, n, [], i, x, c)
  {
  }

  // CPU i waits with a value that another CPU has overwritten.
  predicate Overtaken(p: Policies, n: nat, ts: seq<Step>, i: nat, j: nat, x: Counter, c: nat, l: nat, m: nat) {
    l < m && j != i && Waits(p, n, ts, l, i, x, c) && StoresAt(p, n, ts, m, j, x, c)
  }

  ghost predicate OutOfDate(p: Policies, n: nat, ts: seq<Step>, i: nat, x: Counter) {
    exists j, c, l, m :: Overtaken(p, n, ts, i, j, x, c, l, m)
  }

  // A longer run: what was out of date stays so until the CPU acts; a store makes it so.
  lemma OutOfDateMore(p: Policies, n: nat, ts: seq<Step>, i: nat, x: Counter)
    requires ts != []
    ensures var k := |ts| - 1;
      OutOfDate(p, n, ts, i, x) <==>
        !Acts(p, n, ts, k, i)
        && (OutOfDate(p, n, ts[..k], i, x)
            || exists j, c :: j != i && StoresAt(p, n, ts, k, j, x, c) && Waiting(p, n, ts[..k], i, x, c))
  {
    hide LoadsAt, StoresIn, Acts;
    var k := |ts| - 1;
    if j: nat, c: nat, l: nat, m: nat :| Overtaken(p, n, ts, i, j, x, c, l, m) {
      WaitsMore(p, n, ts, l, i, x, c);
      if m < k {
        SamePast(p, n, ts, k, m);
        assert Overtaken(p, n, ts[..k], i, j, x, c, l, m);
      } else {
        assert StoresAt(p, n, ts, k, j, x, c) && Waiting(p, n, ts[..k], i, x, c);
      }
    }
    if !Acts(p, n, ts, k, i) {
      if j: nat, c: nat, l: nat, m: nat :| Overtaken(p, n, ts[..k], i, j, x, c, l, m) {
        WaitsMore(p, n, ts, l, i, x, c);
        SamePast(p, n, ts, k, m);
        assert Overtaken(p, n, ts, i, j, x, c, l, m);
      }
      if j: nat, c: nat :| j != i && StoresAt(p, n, ts, k, j, x, c) && Waiting(p, n, ts[..k], i, x, c) {
        var l: nat :| Waits(p, n, ts[..k], l, i, x, c);
        InRun(p, n, ts[..k], l, i, x, c);
        WaitsMore(p, n, ts, l, i, x, c);
        assert Overtaken(p, n, ts, i, j, x, c, l, k);
      }
    }
  }

  // The CPUs out of date are those of the tracker.
  lemma {:induction false} StaleIs(p: Policies, n: nat, ts: seq<Step>, i: nat, x: Counter)
    ensures i in Track(p, n, ts, x).stale <==> OutOfDate(p, n, ts, i, x)
    ensures i in Track(p, n, ts, x).stale ==> i < n
    decreases |ts|
  {
    hide Next, Enabled, Exec, OutOfDate, Waiting, Holds;
    if ts == [] {
      NoneOutOfDate(p, n, i, x);
    } else {
      var k := |ts| - 1;
      var s, t := Exec(Boot(p, n), ts[..k]), ts[k];
      StaleIs(p, n, ts[..k], i, x);
      OutOfDateMore(p, n, ts, i, x);
      CpusStay(p, n, ts[..k]);
      forall c: nat | i < n ensures Holds(s.cpus[i].phase, x, c) <==> Waiting(p, n, ts[..k], i, x, c) {
        HoldsIs(p, n, ts[..k], i, x, c);
      }
      forall c: nat | Waiting(p, n, ts[..k], i, x, c) ensures i < n {
        WaitingBelow(p, n, ts[..k], i, x, c);
      }
      if OutOfDate(p, n, ts[..k], i, x) {
        var c := OutOfDateWaits(p, n, ts[..k], i, x);
      }
      StaleStep(s, Track(p, n, ts[..k], x), t, i, x);
      assert Acts(p, n, ts, k, i) == (ByCpu(t, i) && Enabled(s, t));
      forall j: nat, c: nat ensures StoresAt(p, n, ts, k, j, x, c) == StoresIn(s, t, j, x, c) {
      }
      if j: nat, c: nat :| j != i && StoresAt(p, n, ts, k, j, x, c) && Waiting(p, n, ts[..k], i, x, c) {
        assert StoresIn(s, t, j, x, c) && Holds(s.cpus[i].phase, x, c);
      }
      if j: nat, c: nat :| j != i && StoresIn(s, t, j, x, c) && i < n && Holds(s.cpus[i].phase, x, c) {
        assert StoresAt(p, n, ts, k, j, x, c) && Waiting(p, n, ts[..k], i, x, c);
      }
    }
  }

  lemma OutOfDateWaits(p: Policies, n: nat, ts: seq<Step>, i: nat, x: Counter) returns (c: nat)
    requires OutOfDate(p, n, ts, i, x)
    ensures Waiting(p, n, ts, i, x, c)
  {
    var j: nat, d: nat, l: nat, m: nat :| Overtaken(p, n, ts, i, j, x, d, l, m);
    c := d;
  }

  lemma WaitingBelow(p: Policies, n: nat, ts: seq<Step>, i: nat, x: Counter, c: nat)
    requires Waiting(p, n, ts, i, x, c)
    ensures i < n
  {
    hide Exec;
    var l: nat :| Waits(p, n, ts, l, i, x, c);
    CpusStay(p, n, ts[..l]);
  }

  lemma NoneOutOfDate(p: Policies, n: nat, i: nat, x: Counter)
    ensures !OutOfDate(p, n, [], i, x)
  {
  }

  // A CPU that holds a value can only store it.
  lemma HolderStores(s: State, t: Step, i: nat, x: Counter, c: nat)
    requires i < |s.cpus| && Holds(s.cpus[i].phase, x, c) && Enabled(s, t) && ByCpu(t, i)
    ensures t == Store(i)
  {
  }

  // What a step does to the set of CPUs out of date, given that these hold a value.
  lemma StaleStep(s: State, k: Tracker, t: Step, i: nat, x: Counter)
    requires i in k.stale ==> i < |s.cpus| && exists c :: Holds(s.cpus[i].phase, x, c)
    ensures i in NextTrack(s, k, t, x).stale <==>
      !(Enabled(s, t) && ByCpu(t, i))
      && (i in k.stale || (i < |s.cpus| && exists j, c :: j != i && StoresIn(s, t, j, x, c) && Holds(s.cpus[i].phase, x, c)))
  {
    if i in k.stale && Enabled(s, t) && ByCpu(t, i) {
      var c: nat :| Holds(s.cpus[i].phase, x, c);
      HolderStores(s, t, i, x, c);
    }
    if Enabled(s, t) && t.Store? && s.cpus[t.cpu].phase.stage.x == x {
      assert StoresIn(s, t, t.cpu, x, s.cpus[t.cpu].phase.creator);
    }
    if j: nat, c: nat :| j != i && StoresIn(s, t, j, x, c) && i < |s.cpus| && Holds(s.cpus[i].phase, x, c) {
      assert i in Holders(s, x, c);
    }
  }

  // --- the sessions of which a value was lost

  lemma StaleHolds(p: Policies, n: nat, ts: seq<Step>, i: nat, x: Counter)
    requires i in Track(p, n, ts, x).stale
    ensures i < n && |Exec(Boot(p, n), ts).cpus| == n && exists c :: Holds(Exec(Boot(p, n), ts).cpus[i].phase, x, c)
  {
    hide Exec, Track, Holds, LoadsAt, Acts, StoresAt;
    StaleIs(p, n, ts, i, x);
    CpusStay(p, n, ts);
    var j: nat, c: nat, l: nat, m: nat :| Overtaken(p, n, ts, i, j, x, c, l, m);
    assert Waiting(p, n, ts, i, x, c);
    HoldsIs(p, n, ts, i, x, c);
  }

  lemma InterferesMore(p: Policies, n: nat, ts: seq<Step>, x: Counter, c: nat)
    requires ts != []
    ensures var k := |ts| - 1;
      Interfered(p, n, ts, x, c) <==>
        Interfered(p, n, ts[..k], x, c) || exists i :: OutOfDate(p, n, ts[..k], i, x) && StoresAt(p, n, ts, k, i, x, c)
  {
    hide LoadsAt, StoresIn, Acts;
    var k := |ts| - 1;
    if i: nat, j: nat, l: nat, m: nat, o: nat :| Interferes(p, n, ts, i, j, x, c, l, m, o) {
      Earlier(p, n, ts, i, j, x, c, l, m, o);
    }
    if i: nat, j: nat, l: nat, m: nat, o: nat :| Interferes(p, n, ts[..k], i, j, x, c, l, m, o) {
      Later(p, n, ts, i, j, x, c, l, m, o);
    }
    if i: nat :| OutOfDate(p, n, ts[..k], i, x) && StoresAt(p, n, ts, k, i, x, c) {
      var j: nat, d: nat, l: nat, m: nat :| Overtaken(p, n, ts[..k], i, j, x, d, l, m);
      Stored(p, n, ts, i, j, x, c, d, l, m);
    }
  }

  lemma Earlier(p: Policies, n: nat, ts: seq<Step>, i: nat, j: nat, x: Counter, c: nat, l: nat, m: nat, o: nat)
    requires ts != [] && Interferes(p, n, ts, i, j, x, c, l, m, o)
    ensures var k := |ts| - 1;
      Interfered(p, n, ts[..k], x, c) || (OutOfDate(p, n, ts[..k], i, x) && StoresAt(p, n, ts, k, i, x, c))
  {
    hide LoadsIn, StoresIn, Enabled, ByCpu;
    var k := |ts| - 1;
    SamePast(p, n, ts, k, l);
    SamePast(p, n, ts, k, m);
    forall r | l < r < k ensures Acts(p, n, ts[..k], r, i) == Acts(p, n, ts, r, i) {
      SamePast(p, n, ts, k, r);
    }
    if o < k {
      SamePast(p, n, ts, k, o);
      assert Interferes(p, n, ts[..k], i, j, x, c, l, m, o);
    } else {
      assert Overtaken(p, n, ts[..k], i, j, x, c, l, m);
    }
  }

  lemma Later(p: Policies, n: nat, ts: seq<Step>, i: nat, j: nat, x: Counter, c: nat, l: nat, m: nat, o: nat)
    requires ts != [] && Interferes(p, n, ts[..|ts| - 1], i, j, x, c, l, m, o)
    ensures Interfered(p, n, ts, x, c)
  {
    hide LoadsIn, StoresIn, Enabled, ByCpu;
    var k := |ts| - 1;
    SamePast(p, n, ts, k, l);
    SamePast(p, n, ts, k, m);
    SamePast(p, n, ts, k, o);
    forall r | l < r < o ensures Acts(p, n, ts[..k], r, i) == Acts(p, n, ts, r, i) {
      SamePast(p, n, ts, k, r);
    }
    assert Interferes(p, n, ts, i, j, x, c, l, m, o);
  }

  // A CPU out of date stores.
  lemma Stored(p: Policies, n: nat, ts: seq<Step>, i: nat, j: nat, x: Counter, c: nat, d: nat, l: nat, m: nat)
    requires ts != [] && Overtaken(p, n, ts[..|ts| - 1], i, j, x, d, l, m) && StoresAt(p, n, ts, |ts| - 1, i, x, c)
    ensures Interfered(p, n, ts, x, c)
  {
    hide LoadsIn, Enabled, ByCpu, Exec;
    var k := |ts| - 1;
    assert Waiting(p, n, ts[..k], i, x, d);
    CpusStay(p, n, ts[..k]);
    HoldsIs(p, n, ts[..k], i, x, d);
    assert d == c;
    SamePast(p, n, ts, k, l);
    SamePast(p, n, ts, k, m);
    forall r | l < r < k ensures Acts(p, n, ts[..k], r, i) == Acts(p, n, ts, r, i) {
      SamePast(p, n, ts, k, r);
    }
    assert Interferes(p, n, ts, i, j, x, c, l, m, k);
  }

  // The sessions of which a value was lost are those with an interference.
  lemma {:induction false} LostIs(p: Policies, n: nat, ts: seq<Step>, x: Counter, c: nat)
    ensures c in Track(p, n, ts, x).lost <==> Interfered(p, n, ts, x, c)
    decreases |ts|
  {
    hide Next, Enabled, Exec, OutOfDate, Interfered;
    if ts == [] {
      NoInterference(p, n, x, c);
    } else {
      var k := |ts| - 1;
      LostIs(p, n, ts[..k], x, c);
      InterferesMore(p, n, ts, x, c);
      forall i: nat ensures i in Track(p, n, ts[..k], x).stale <==> OutOfDate(p, n, ts[..k], i, x) {
        StaleIs(p, n, ts[..k], i, x);
      }
      LostStep(Exec(Boot(p, n), ts[..k]), Track(p, n, ts[..k], x), ts[k], x, c);
    }
  }

  lemma NoInterference(p: Policies, n: nat, x: Counter, c: nat)
    ensures !Interfered(p, n, [], x, c)
  {
  }

  lemma LostStep(s: State, k: Tracker, t: Step, x: Counter, c: nat)
    ensures c in NextTrack(s, k, t, x).lost <==> c in k.lost || exists i :: i in k.stale && StoresIn(s, t, i, x, c)
  {
  }
}
