/** Conservation: over every run the per-CPU statistics add up to what happened. */
module FilterCount {
  import opened FilterPolicy
  import opened FilterScan
  import opened FilterRun

  function Busy(q: Phase): nat {
    if q.Idle? then 0 else 1
  }

  function Made(log: seq<Event>): nat {
    if log == [] then 0 else Made(log[..|log| - 1]) + (if log[|log| - 1].Made? then 1 else 0)
  }

  // Sums over the CPUs.
  function Totals(cs: seq<Cpu>): nat {
    if cs == [] then 0 else Totals(cs[..|cs| - 1]) + cs[|cs| - 1].counters.total
  }

  function Enforced(cs: seq<Cpu>): nat {
    if cs == [] then 0 else Enforced(cs[..|cs| - 1]) + cs[|cs| - 1].counters.allowed + cs[|cs| - 1].counters.denied
  }

  function LookedUp(cs: seq<Cpu>): nat {
    if cs == [] then 0 else LookedUp(cs[..|cs| - 1]) + cs[|cs| - 1].counters.hits + cs[|cs| - 1].counters.misses
  }

  function NewSessions(cs: seq<Cpu>): nat {
    if cs == [] then 0 else NewSessions(cs[..|cs| - 1]) + cs[|cs| - 1].counters.newSessions
  }

  function InFlight(cs: seq<Cpu>): nat {
    if cs == [] then 0 else InFlight(cs[..|cs| - 1]) + Busy(cs[|cs| - 1].phase)
  }

  // One CPU's change shows in the sums.
  lemma {:induction false} SumsChange(cs: seq<Cpu>, i: nat, c: Cpu)
    requires i < |cs|
    ensures var d, x, y := cs[i := c], cs[i].counters, c.counters;
      Totals(d) + x.total == Totals(cs) + y.total
      && Enforced(d) + x.allowed + x.denied == Enforced(cs) + y.allowed + y.denied
      && LookedUp(d) + x.hits + x.misses == LookedUp(cs) + y.hits + y.misses
      && NewSessions(d) + x.newSessions == NewSessions(cs) + y.newSessions
      && InFlight(d) + Busy(cs[i].phase) == InFlight(cs) + Busy(c.phase)
    decreases |cs|
  {
    var n := |cs| - 1;
    if i == n {
      assert cs[i := c][..n] == cs[..n];
    } else {
      assert cs[i := c][..n] == cs[..n][i := c];
      SumsChange(cs[..n], i, c);
    }
  }

  // Equal but for the width of the counters.
  predicate Same(a: int, b: int) {
    (a - b) % TWO64 == 0
  }

  // Counting on keeps sums the same: a2 exceeds a by x + 1 - x modulo the width.
  lemma SameInc(a: int, a2: int, b: int, x: nat)
    requires Same(a, b) && a2 + x == a + Inc(x)
    ensures Same(a2, b + 1)
  {
    assert (x + 1 - Inc(x)) % TWO64 == 0;
  }

  // total = allowed + denied + packets in flight, lookups = slow packets, new = live + evicted.
  ghost predicate Balanced(s: State) {
    Same(Totals(s.cpus), Enforced(s.cpus) + InFlight(s.cpus))
    && Same(Totals(s.cpus), s.next)
    && Same(LookedUp(s.cpus), Made(s.log))
    && Same(NewSessions(s.cpus), s.created) && s.created == |s.sessions| + s.evicted
  }

  lemma MadeSnoc(log: seq<Event>, e: Event)
    ensures Made(log + [e]) == Made(log) + (if e.Made? then 1 else 0)
  {
    assert (log + [e])[..|log|] == log;
  }

  lemma EnforceSum(c: Counters, action: nat, s: int, b: int, s2: int)
    requires Same(s, b)
    requires var d := Enforce(c, action); s2 + c.allowed + c.denied == s + d.allowed + d.denied
    ensures Same(s2, b + 1)
  {
    if action == POLICY_ACTION_DENY {
      SameInc(s, s2, b, c.denied);
    } else {
      SameInc(s, s2, b, c.allowed);
    }
  }

  lemma ArriveBalanced(s: State, i: nat, key: FlowKey, len: nat)
    requires Balanced(s) && Enabled(s, Arrive(i, key, len))
    ensures Balanced(DoArrive(s, i, key, len))
  {
    hide Totals, Enforced, LookedUp, NewSessions, InFlight, Made, Same, Inc;
    var r := DoArrive(s, i, key, len);
    SumsChange(s.cpus, i, r.cpus[i]);
    SameInc(Totals(s.cpus), Totals(r.cpus), s.next, s.cpus[i].counters.total);
    SameInc(Totals(s.cpus), Totals(r.cpus), Enforced(s.cpus) + InFlight(s.cpus), s.cpus[i].counters.total);
    if key in s.sessions {
      assert r.sessions.Keys == s.sessions.Keys;
    }
  }

  lemma FinishBalanced(s: State, i: nat)
    requires Balanced(s) && Enabled(s, Finish(i))
    ensures Balanced(DoFinish(s, i))
  {
    hide Totals, Enforced, LookedUp, NewSessions, InFlight, Made, Same, Enforce;
    var r, c := DoFinish(s, i), s.cpus[i].counters;
    EnforceKeeps(c, s.cpus[i].phase.action);
    SumsChange(s.cpus, i, r.cpus[i]);
    Swapped(Totals(s.cpus), Enforced(s.cpus), InFlight(s.cpus), c, s.cpus[i].phase.action, Enforced(r.cpus));
    MadeSnoc(s.log, r.log[|s.log|]);
  }

  lemma StoreBalanced(s: State, i: nat)
    requires Balanced(s) && Enabled(s, Store(i))
    ensures Balanced(DoStore(s, i))
  {
    hide Totals, Enforced, LookedUp, NewSessions, InFlight, Made, Same, Field, WithField, Amount;
    var r := DoStore(s, i);
    SumsChange(s.cpus, i, r.cpus[i]);
    assert r.sessions.Keys == s.sessions.Keys;
  }

  lemma EnforceKeeps(c: Counters, action: nat)
    ensures Enforce(c, action) == c.(allowed := Enforce(c, action).allowed, denied := Enforce(c, action).denied)
  {
  }

  // A packet less in flight, one more enforced.
  lemma Swapped(total: int, enforced: int, flight: int, c: Counters, action: nat, enforced2: int)
    requires Same(total, enforced + flight)
    requires var d := Enforce(c, action); enforced2 + c.allowed + c.denied == enforced + d.allowed + d.denied
    ensures Same(total, enforced2 + (flight - 1))
  {
    EnforceSum(c, action, enforced + flight, total, enforced2 + flight);
    assert Same(enforced2 + flight, total + 1);
  }

  lemma DecideBalanced(s: State, i: nat, d: Decision, times: seq<nat>)
    requires Balanced(s) && i < |s.cpus| && (s.cpus[i].phase.Missed? || s.cpus[i].phase.Scanning?)
    ensures Balanced(DoDecide(s, i, d, times))
  {
    hide Totals, Enforced, LookedUp, NewSessions, InFlight, Made, Same, Inc;
    var r, c := DoDecide(s, i, d, times), s.cpus[i].counters;
    SumsChange(s.cpus, i, r.cpus[i]);
    MadeSnoc(s.log, r.log[|s.log|]);
    SameInc(LookedUp(s.cpus), LookedUp(r.cpus), Made(s.log), if d.hit then c.hits else c.misses);
  }

  // A step of a scan or a load counts nothing.
  lemma ScanBalanced(s: State, i: nat, q: Phase)
    requires Balanced(s) && i < |s.cpus| && !s.cpus[i].phase.Idle? && !q.Idle?
    ensures Balanced(SetCpu(s, i, Cpu(q, s.cpus[i].counters)))
  {
    hide Totals, Enforced, LookedUp, NewSessions, InFlight, Made, Same, Inc;
    SumsChange(s.cpus, i, Cpu(q, s.cpus[i].counters));
  }

  lemma ChooseBalanced(s: State, i: nat)
    requires Balanced(s) && Enabled(s, Choose(i))
    ensures Balanced(DoChoose(s, i))
  {
    hide Balanced, DoDecide, SetCpu;
    var q := s.cpus[i].phase;
    if q.key in s.policies.exact {
      DecideBalanced(s, i, Exactly(s.policies.exact[q.key]), [|s.past|]);
    } else {
      ScanBalanced(s, i, Scanning(q.pkt, q.key, q.len, [|s.past|], NoBest));
    }
  }

  lemma CreateCounted(s: State, i: nat, ok: bool, evict: set<FlowKey>)
    requires s.created == |s.sessions| + s.evicted && Enabled(s, Create(i, ok, evict))
    ensures var r := DoCreate(s, i, ok, evict); r.created == |r.sessions| + r.evicted
  {
    hide Enforce, Remove, Inc;
    var r, q, left := DoCreate(s, i, ok, evict), s.cpus[i].phase, Remove(s.sessions, evict);
    LeftSize(s.sessions, evict);
    if ok && q.key !in left {
      assert r.sessions.Keys == left.Keys + {q.key};
    }
  }

  lemma CreateBalanced(s: State, i: nat, ok: bool, evict: set<FlowKey>)
    requires Balanced(s) && Enabled(s, Create(i, ok, evict))
    ensures Balanced(DoCreate(s, i, ok, evict))
  {
    hide Totals, Enforced, LookedUp, NewSessions, InFlight, Made, Same, Inc, Enforce, Remove;
    var r, c, q := DoCreate(s, i, ok, evict), s.cpus[i].counters, s.cpus[i].phase;
    var left := Remove(s.sessions, evict);
    var fits := ok && q.key !in left;
    var c1 := if fits then c.(newSessions := Inc(c.newSessions)) else c;
    EnforceKeeps(c1, q.action);
    SumsChange(s.cpus, i, r.cpus[i]);
    Swapped(Totals(s.cpus), Enforced(s.cpus), InFlight(s.cpus), c1, q.action, Enforced(r.cpus));
    MadeSnoc(s.log, r.log[|s.log|]);
    CreateCounted(s, i, ok, evict);
    if fits {
      SameInc(NewSessions(s.cpus), NewSessions(r.cpus), s.created, c.newSessions);
    }
  }

  lemma BalancedStep(s: State, t: Step)
    requires Balanced(s) && Enabled(s, t)
    ensures Balanced(Next(s, t))
  {
    hide DoArrive, DoStore, DoFinish, DoChoose, DoCreate, DoDecide, Consider, Outcome, Same;
    match t
    case Arrive(i, key, len) => ArriveBalanced(s, i, key, len);
    case Load(i) =>
      ScanBalanced(s, i, DoLoad(s, i).cpus[i].phase);
    case Store(i) => StoreBalanced(s, i);
    case Finish(i) => FinishBalanced(s, i);
    case Choose(i) => ChooseBalanced(s, i);
    case Scan(i) =>
      ScanBalanced(s, i, DoScan(s, i).cpus[i].phase);
    case Conclude(i) =>
      var q := s.cpus[i].phase;
      DecideBalanced(s, i, Outcome(s.policies, q.best), q.times + [|s.past|]);
    case Create(i, ok, evict) => CreateBalanced(s, i, ok, evict);
    case Evict(keys) => LeftSize(s.sessions, keys);
    case SetPolicies(p) =>
  }

  lemma {:induction false} Nothing(n: nat)
    ensures var cs := seq(n, _ => Cpu(Idle, ZERO));
      Totals(cs) == Enforced(cs) == LookedUp(cs) == NewSessions(cs) == InFlight(cs) == 0
  {
    if n > 0 {
      Nothing(n - 1);
      assert seq(n, _ => Cpu(Idle, ZERO))[..n - 1] == seq(n - 1, _ => Cpu(Idle, ZERO));
    }
  }

  // Over every run of n CPUs, whatever fails, is evicted or changes.
  lemma {:induction false} BalancedRun(p: Policies, n: nat, ts: seq<Step>)
    ensures Balanced(Exec(Boot(p, n), ts))
    decreases |ts|
  {
    hide Next, Enabled, Same;
    if ts == [] {
      Nothing(n);
      assert Same(0, 0) by { SameZero(); }
    } else {
      var k := |ts| - 1;
      BalancedRun(p, n, ts[..k]);
      if Enabled(Exec(Boot(p, n), ts[..k]), ts[k]) {
        BalancedStep(Exec(Boot(p, n), ts[..k]), ts[k]);
      }
    }
  }

  lemma SameZero()
    ensures Same(0, 0)
  {
  }

  // Between packets the statistics add up, to the width of the counters: every packet was allowed
  // or denied, every slow packet hit a policy or missed, and sessions are live or were evicted.
  lemma StatisticsAddUp(p: Policies, n: nat, ts: seq<Step>)
    requires forall c | c in Exec(Boot(p, n), ts).cpus :: c.phase.Idle?
    ensures var s := Exec(Boot(p, n), ts);
      Same(Totals(s.cpus), Enforced(s.cpus)) && Same(Totals(s.cpus), s.next)
      && Same(LookedUp(s.cpus), Made(s.log)) && Same(NewSessions(s.cpus), |s.sessions| + s.evicted)
  {
    hide Exec, Same;
    BalancedRun(p, n, ts);
    NoneInFlight(Exec(Boot(p, n), ts).cpus);
  }

  lemma {:induction false} NoneInFlight(cs: seq<Cpu>)
    requires forall c | c in cs :: c.phase.Idle?
    ensures InFlight(cs) == 0
    decreases |cs|
  {
    if cs != [] {
      var n := |cs| - 1;
      assert cs[n] in cs && forall c | c in cs[..n] :: c in cs;
      NoneInFlight(cs[..n]);
    }
  }
}
