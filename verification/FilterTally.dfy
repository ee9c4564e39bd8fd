/** The statistics of each CPU against the events it logged, kind by kind. */
module FilterTally {
  import opened FilterPolicy
  import opened FilterScan
  import opened FilterRun

  datatype Kind = Denied | Allowed | PolicyHit | PolicyMiss

  // An event of this kind on CPU i.
  predicate Is(e: Event, kind: Kind, i: nat) {
    e.cpu == i
    && match kind
       case Denied => e.Verdict? && e.denied
       case Allowed => e.Verdict? && !e.denied
       case PolicyHit => e.Made? && e.hit
       case PolicyMiss => e.Made? && !e.hit
  }

  function Number(log: seq<Event>, kind: Kind, i: nat): nat {
    if log == [] then 0 else Number(log[..|log| - 1], kind, i) + (if Is(log[|log| - 1], kind, i) then 1 else 0)
  }

  function Count(c: Counters, kind: Kind): nat {
    match kind
    case Denied => c.denied
    case Allowed => c.allowed
    case PolicyHit => c.hits
    case PolicyMiss => c.misses
  }

  ghost predicate Tallies(s: State) {
    forall i, kind | 0 <= i < |s.cpus| :: Tally(s, i, kind)
  }

  ghost predicate Tally(s: State, i: nat, kind: Kind)
    requires i < |s.cpus|
  {
    Count(s.cpus[i].counters, kind) == Number(s.log, kind, i) % TWO64
  }

  // Every packet that a CPU has counted has its verdict, but for the one it is working on.
  ghost predicate TotalTally(s: State, i: nat)
    requires i < |s.cpus|
  {
    s.cpus[i].counters.total
    == (Number(s.log, Denied, i) + Number(s.log, Allowed, i) + (if s.cpus[i].phase.Idle? then 0 else 1)) % TWO64
  }

  ghost predicate TotalTallies(s: State) {
    forall i | 0 <= i < |s.cpus| :: TotalTally(s, i)
  }

  lemma NumberSnoc(log: seq<Event>, e: Event, kind: Kind, i: nat)
    ensures Number(log + [e], kind, i) == Number(log, kind, i) + (if Is(e, kind, i) then 1 else 0)
  {
    assert (log + [e])[..|log|] == log;
  }

  // CPU i changes its phase and its total at most.
  lemma NoEvent(s: State, r: State, i: nat)
    requires Tallies(s) && i < |s.cpus| && |r.cpus| == |s.cpus| && r.cpus == s.cpus[i := r.cpus[i]] && r.log == s.log
    requires r.cpus[i].counters == s.cpus[i].counters.(total := r.cpus[i].counters.total)
    ensures Tallies(r)
  {
    hide Number;
    forall j, kind | 0 <= j < |r.cpus| ensures Tally(r, j, kind) {
      assert Tally(s, j, kind);
    }
  }

  // The counters with the event.
  ghost predicate Counted(c: Counters, d: Counters, e: Event, i: nat) {
    forall kind :: Count(d, kind) == if Is(e, kind, i) then Inc(Count(c, kind)) else Count(c, kind)
  }

  // CPU i logs an event, and its counters follow.
  lemma OneEvent(s: State, r: State, i: nat, e: Event)
    requires Tallies(s) && i < |s.cpus| && |r.cpus| == |s.cpus| && r.cpus == s.cpus[i := r.cpus[i]] && r.log == s.log + [e]
    requires e.cpu == i && Counted(s.cpus[i].counters, r.cpus[i].counters, e, i)
    ensures Tallies(r)
  {
    hide Number, Count, Is;
    forall j, kind | 0 <= j < |r.cpus| ensures Tally(r, j, kind) {
      assert Tally(s, j, kind);
      NumberSnoc(s.log, e, kind, j);
      if j == i {
        IncMod(Number(s.log, kind, j));
      } else {
        OtherCpu(e, kind, j);
      }
    }
  }

  lemma IncMod(n: nat)
    ensures Inc(n % TWO64) == (n + 1) % TWO64
  {
  }

  lemma OtherCpu(e: Event, kind: Kind, j: nat)
    requires e.cpu != j
    ensures !Is(e, kind, j)
  {
  }

  // The verdict of a packet, whatever else its CPU counts.
  lemma EnforceCounts(c: Counters, pkt: nat, key: FlowKey, len: nat, action: nat, cause: nat, i: nat)
    ensures Counted(c, Enforce(c, action), VerdictOn(pkt, key, len, action, cause, i), i)
  {
    hide Inc;
  }

  lemma DecideTallies(s: State, i: nat, d: Decision, times: seq<nat>)
    requires Tallies(s) && i < |s.cpus| && (s.cpus[i].phase.Missed? || s.cpus[i].phase.Scanning?)
    ensures Tallies(DoDecide(s, i, d, times))
  {
    hide Tallies, Inc, Number;
    var r, q := DoDecide(s, i, d, times), s.cpus[i].phase;
    OneEvent(s, r, i, Made(q.pkt, q.key, times, d.action, d.hit, i));
  }

  lemma TalliesStep(s: State, t: Step)
    requires Tallies(s) && Enabled(s, t)
    ensures Tallies(Next(s, t))
  {
    hide Tallies, Inc, Number, Enforce, Count, Is, DoDecide, Remove, Consider, Outcome;
    match t
    case Arrive(i, key, len) => NoEvent(s, Next(s, t), i);
    case Load(i) => NoEvent(s, Next(s, t), i);
    case Store(i) => NoEvent(s, Next(s, t), i);
    case Finish(i) =>
      var h := s.cpus[i].phase;
      EnforceCounts(s.cpus[i].counters, h.pkt, h.key, h.len, h.action, h.creator, i);
      OneEvent(s, Next(s, t), i, VerdictOn(h.pkt, h.key, h.len, h.action, h.creator, i));
    case Choose(i) =>
      var q := s.cpus[i].phase;
      if q.key in s.policies.exact {
        DecideTallies(s, i, Exactly(s.policies.exact[q.key]), [|s.past|]);
      } else {
        NoEvent(s, Next(s, t), i);
      }
    case Scan(i) => NoEvent(s, Next(s, t), i);
    case Conclude(i) =>
      var q := s.cpus[i].phase;
      DecideTallies(s, i, Outcome(s.policies, q.best), q.times + [|s.past|]);
    case Create(i, ok, evict) => CreateTallies(s, i, ok, evict);
    case Evict(_) => SameTallies(s, Next(s, t));
    case SetPolicies(_) => SameTallies(s, Next(s, t));
  }

  lemma SameTallies(s: State, r: State)
    requires Tallies(s) && r.cpus == s.cpus && r.log == s.log
    ensures Tallies(r)
  {
    forall j, kind | 0 <= j < |r.cpus| ensures Tally(r, j, kind) {
      assert Tally(s, j, kind);
    }
  }

  lemma CreateTallies(s: State, i: nat, ok: bool, evict: set<FlowKey>)
    requires Tallies(s) && Enabled(s, Create(i, ok, evict))
    ensures Tallies(DoCreate(s, i, ok, evict))
  {
    hide Tallies, Number, Enforce, Remove, Is, Inc;
    var r, q, c := DoCreate(s, i, ok, evict), s.cpus[i].phase, s.cpus[i].counters;
    var c1 := if ok && q.key !in Remove(s.sessions, evict) then c.(newSessions := Inc(c.newSessions)) else c;
    EnforceCounts(c1, q.pkt, q.key, q.len, q.action, q.pkt, i);
    assert forall kind :: Count(c1, kind) == Count(c, kind);
    OneEvent(s, r, i, VerdictOn(q.pkt, q.key, q.len, q.action, q.pkt, i));
  }

  // --- totals

  lemma TotalKept(s: State, r: State, i: nat)
    requires TotalTallies(s) && i < |s.cpus| && |r.cpus| == |s.cpus| && r.cpus == s.cpus[i := r.cpus[i]]
    requires forall kind, j | j != i :: Number(r.log, kind, j) == Number(s.log, kind, j)
    requires TotalTally(r, i)
    ensures TotalTallies(r)
  {
    hide Number;
    forall j | 0 <= j < |r.cpus| ensures TotalTally(r, j) {
      assert TotalTally(s, j);
    }
  }

  lemma LoggedOn(log: seq<Event>, e: Event, i: nat)
    requires e.cpu == i
    ensures forall kind, j | j != i :: Number(log + [e], kind, j) == Number(log, kind, j)
    ensures Number(log + [e], Denied, i) + Number(log + [e], Allowed, i)
      == Number(log, Denied, i) + Number(log, Allowed, i) + (if e.Verdict? then 1 else 0)
  {
    hide Number;
    forall kind, j | j != i ensures Number(log + [e], kind, j) == Number(log, kind, j) {
      NumberSnoc(log, e, kind, j);
    }
    NumberSnoc(log, e, Denied, i);
    NumberSnoc(log, e, Allowed, i);
  }

  lemma EnforceTotal(c: Counters, action: nat)
    ensures Enforce(c, action).total == c.total
  {
  }

  // A CPU's packet gets its verdict, or the CPU goes on with it.
  lemma TotalStep(s: State, t: Step)
    requires TotalTallies(s) && Enabled(s, t)
    ensures TotalTallies(Next(s, t))
  {
    hide Number, Enforce, TotalTallies, Remove, Consider, Outcome, DoDecide;
    var r := Next(s, t);
    if t.Evict? || t.SetPolicies? {
      SameTotals(s, r);
    } else {
      var i := CpuOf(t);
      TotalOf(s, i);
      match t
      case Arrive(_, _, _) =>
        IncMod(Number(s.log, Denied, i) + Number(s.log, Allowed, i));
        TotalKept(s, r, i);
      case Load(_) => TotalKept(s, r, i);
      case Store(_) => TotalKept(s, r, i);
      case Scan(_) => TotalKept(s, r, i);
      case Finish(_) =>
        var h := s.cpus[i].phase;
        EnforceTotal(s.cpus[i].counters, h.action);
        LoggedOn(s.log, VerdictOn(h.pkt, h.key, h.len, h.action, h.creator, i), i);
        TotalKept(s, r, i);
      case Create(_, _, _) =>
        var q, c := s.cpus[i].phase, s.cpus[i].counters;
        EnforceTotal(c, q.action);
        EnforceTotal(c.(newSessions := Inc(c.newSessions)), q.action);
        LoggedOn(s.log, VerdictOn(q.pkt, q.key, q.len, q.action, q.pkt, i), i);
        TotalKept(s, r, i);
      case Choose(_) =>
        var q := s.cpus[i].phase;
        if q.key in s.policies.exact {
          DecideTotal(s, i, Exactly(s.policies.exact[q.key]), [|s.past|]);
        } else {
          TotalKept(s, r, i);
        }
      case Conclude(_) =>
        var q := s.cpus[i].phase;
        DecideTotal(s, i, Outcome(s.policies, q.best), q.times + [|s.past|]);
    }
  }

  function CpuOf(t: Step): nat
    requires !t.Evict? && !t.SetPolicies?
  {
    t.cpu
  }

  lemma TotalOf(s: State, i: nat)
    requires TotalTallies(s) && i < |s.cpus|
    ensures TotalTally(s, i)
  {
  }

  lemma SameTotals(s: State, r: State)
    requires TotalTallies(s) && r.cpus == s.cpus && r.log == s.log
    ensures TotalTallies(r)
  {
    forall j | 0 <= j < |r.cpus| ensures TotalTally(r, j) {
      assert TotalTally(s, j);
    }
  }

  lemma DecideTotal(s: State, i: nat, d: Decision, times: seq<nat>)
    requires TotalTallies(s) && i < |s.cpus| && (s.cpus[i].phase.Missed? || s.cpus[i].phase.Scanning?)
    ensures TotalTallies(DoDecide(s, i, d, times))
  {
    hide Number, TotalTallies;
    var r, q := DoDecide(s, i, d, times), s.cpus[i].phase;
    TotalOf(s, i);
    LoggedOn(s.log, Made(q.pkt, q.key, times, d.action, d.hit, i), i);
    TotalKept(s, r, i);
  }

  // In every run, each CPU's counters of denied and allowed packets, of hits and of misses are the
  // numbers of the events it logged, to their width, and its total is that of its verdicts and the
  // packet it is working on.
  lemma {:induction false} CountersAreEvents(p: Policies, n: nat, ts: seq<Step>)
    ensures Tallies(Exec(Boot(p, n), ts)) && TotalTallies(Exec(Boot(p, n), ts))
    decreases |ts|
  {
    hide Tallies, TotalTallies, Next, Enabled;
    if ts == [] {
      NothingTallied(p, n);
    } else {
      var k := |ts| - 1;
      CountersAreEvents(p, n, ts[..k]);
      var s := Exec(Boot(p, n), ts[..k]);
      if Enabled(s, ts[k]) {
        TalliesStep(s, ts[k]);
        TotalStep(s, ts[k]);
      }
    }
  }

  lemma NothingTallied(p: Policies, n: nat)
    ensures Tallies(Boot(p, n)) && TotalTallies(Boot(p, n))
  {
  }
}
