/** What every interleaving of the filter's CPUs keeps: each verdict enforces the decision that some
    packet of the same flow made, by the policies of the moments at which it read them. */
module FilterSafe {
  import opened FilterPolicy
  import opened FilterScan
  import opened FilterRun

  // Packet pkt decided this action for flow key, by what it read of the history h.
  ghost predicate WasMade(h: seq<Policies>, log: seq<Event>, pkt: nat, key: FlowKey, action: nat) {
    exists i | 0 <= i < |log| :: IsMade(h, log[i], pkt, key, action)
  }

  ghost predicate IsMade(h: seq<Policies>, e: Event, pkt: nat, key: FlowKey, action: nat) {
    e.Made? && e.pkt == pkt && e.key == key && e.action == action
    && Complete(h, e.times, key) && action == DecisionOf(h, e.times, key).action
    && e.hit == DecisionOf(h, e.times, key).hit
  }

  // A verdict enforces a decision made before for its flow.
  ghost predicate Grounded(h: seq<Policies>, log: seq<Event>, e: Event)
    requires e.Verdict?
  {
    exists a: nat :: e.denied == (a == POLICY_ACTION_DENY) && WasMade(h, log, e.cause, e.key, a)
  }

  ghost predicate Sound(h: seq<Policies>, log: seq<Event>) {
    forall i | 0 <= i < |log| && log[i].Verdict? :: Grounded(h, log[..i], log[i])
  }

  // Every decision in the log is what its reads say.
  ghost predicate AllMade(h: seq<Policies>, log: seq<Event>) {
    forall i | 0 <= i < |log| && log[i].Made? :: IsMade(h, log[i], log[i].pkt, log[i].key, log[i].action)
  }

  // A scan on its way has seen the slots of its moments, and no exact rule.
  ghost predicate ScanSound(h: seq<Policies>, key: FlowKey, times: seq<nat>, best: Best) {
    0 < |times| <= SCAN_LIMIT + 1 && InOrder(times, |h|) && key !in h[times[0]].exact
    && best == ScanOf(At(h, times)[1..], key)
  }

  ghost predicate PhaseSound(h: seq<Policies>, log: seq<Event>, q: Phase) {
    match q
    case Idle => true
    case Missed(_, _, _) => true
    case Scanning(_, key, _, times, best) => ScanSound(h, key, times, best)
    case Hit(_, key, _, action, creator, _) => WasMade(h, log, creator, key, action)
    case Decided(pkt, key, _, action) => WasMade(h, log, pkt, key, action)
  }

  ghost predicate Cached(s: State) {
    Sound(History(s), s.log) && AllMade(History(s), s.log)
    && (forall k | k in s.sessions :: WasMade(History(s), s.log, s.sessions[k].creator, k, s.sessions[k].action))
    && forall i | 0 <= i < |s.cpus| :: PhaseSound(History(s), s.log, s.cpus[i].phase)
  }

  // --- a longer log, a longer history

  lemma MadeStays(h: seq<Policies>, log: seq<Event>, e: Event, pkt: nat, key: FlowKey, action: nat)
    requires WasMade(h, log, pkt, key, action)
    ensures WasMade(h, log + [e], pkt, key, action)
  {
    var i :| 0 <= i < |log| && IsMade(h, log[i], pkt, key, action);
    assert IsMade(h, (log + [e])[i], pkt, key, action);
  }

  lemma JustMade(h: seq<Policies>, log: seq<Event>, e: Event, pkt: nat, key: FlowKey, action: nat)
    requires IsMade(h, e, pkt, key, action)
    ensures WasMade(h, log + [e], pkt, key, action)
  {
    assert IsMade(h, (log + [e])[|log|], pkt, key, action);
  }

  lemma IsMadeLater(h: seq<Policies>, p: Policies, e: Event, pkt: nat, key: FlowKey, action: nat)
    requires IsMade(h, e, pkt, key, action)
    ensures IsMade(h + [p], e, pkt, key, action)
  {
    hide DecisionOf;
    LongerHistory(h, p, e.times, key);
  }

  lemma MadeLater(h: seq<Policies>, p: Policies, log: seq<Event>, pkt: nat, key: FlowKey, action: nat)
    requires WasMade(h, log, pkt, key, action)
    ensures WasMade(h + [p], log, pkt, key, action)
  {
    var i :| 0 <= i < |log| && IsMade(h, log[i], pkt, key, action);
    IsMadeLater(h, p, log[i], pkt, key, action);
  }

  lemma ScanLater(h: seq<Policies>, p: Policies, key: FlowKey, times: seq<nat>, best: Best)
    requires ScanSound(h, key, times, best)
    ensures ScanSound(h + [p], key, times, best)
  {
    assert At(h + [p], times) == At(h, times);
  }

  lemma PhaseLater(h: seq<Policies>, p: Policies, log: seq<Event>, q: Phase)
    requires PhaseSound(h, log, q)
    ensures PhaseSound(h + [p], log, q)
  {
    hide WasMade, ScanSound;
    match q
    case Scanning(_, key, _, times, best) => ScanLater(h, p, key, times, best);
    case Hit(_, key, _, action, creator, _) => MadeLater(h, p, log, creator, key, action);
    case Decided(pkt, key, _, action) => MadeLater(h, p, log, pkt, key, action);
    case _ =>
  }

  lemma PhaseStays(h: seq<Policies>, log: seq<Event>, e: Event, q: Phase)
    requires PhaseSound(h, log, q)
    ensures PhaseSound(h, log + [e], q)
  {
    hide WasMade, ScanSound;
    match q
    case Hit(_, key, _, action, creator, _) => MadeStays(h, log, e, creator, key, action);
    case Decided(pkt, key, _, action) => MadeStays(h, log, e, pkt, key, action);
    case _ =>
  }

  // One more event keeps what was known, if it is grounded itself.
  lemma LogGrows(s: State, e: Event)
    requires Cached(s)
    requires if e.Verdict? then Grounded(History(s), s.log, e) else IsMade(History(s), e, e.pkt, e.key, e.action)
    ensures Sound(History(s), s.log + [e]) && AllMade(History(s), s.log + [e])
    ensures forall k | k in s.sessions ::
              WasMade(History(s), s.log + [e], s.sessions[k].creator, k, s.sessions[k].action)
    ensures forall i | 0 <= i < |s.cpus| :: PhaseSound(History(s), s.log + [e], s.cpus[i].phase)
  {
    hide WasMade, IsMade, Grounded, PhaseSound, History;
    var h, log2 := History(s), s.log + [e];
    forall i | 0 <= i < |log2| && log2[i].Verdict? ensures Grounded(h, log2[..i], log2[i]) {
      assert log2[..i] == s.log[..i];
      assert i < |s.log| ==> log2[i] == s.log[i];
      assert s.log[..|s.log|] == s.log;
    }
    forall k | k in s.sessions ensures WasMade(h, log2, s.sessions[k].creator, k, s.sessions[k].action) {
      MadeStays(h, s.log, e, s.sessions[k].creator, k, s.sessions[k].action);
    }
    forall i | 0 <= i < |s.cpus| ensures PhaseSound(h, log2, s.cpus[i].phase) {
      PhaseStays(h, s.log, e, s.cpus[i].phase);
    }
  }

  lemma ChangeSound(s: State, p: Policies)
    requires Cached(s)
    ensures Cached(s.(past := History(s), policies := p))
  {
    hide WasMade, IsMade, PhaseSound;
    var h := History(s);
    forall i | 0 <= i < |s.log| && s.log[i].Verdict? ensures Grounded(h + [p], s.log[..i], s.log[i]) {
      var a: nat :| s.log[i].denied == (a == POLICY_ACTION_DENY) && WasMade(h, s.log[..i], s.log[i].cause, s.log[i].key, a);
      MadeLater(h, p, s.log[..i], s.log[i].cause, s.log[i].key, a);
    }
    forall i | 0 <= i < |s.log| && s.log[i].Made?
      ensures IsMade(h + [p], s.log[i], s.log[i].pkt, s.log[i].key, s.log[i].action)
    {
      IsMadeLater(h, p, s.log[i], s.log[i].pkt, s.log[i].key, s.log[i].action);
    }
    forall k | k in s.sessions ensures WasMade(h + [p], s.log, s.sessions[k].creator, k, s.sessions[k].action) {
      MadeLater(h, p, s.log, s.sessions[k].creator, k, s.sessions[k].action);
    }
    forall i | 0 <= i < |s.cpus| ensures PhaseSound(h + [p], s.log, s.cpus[i].phase) {
      PhaseLater(h, p, s.log, s.cpus[i].phase);
    }
  }

  // --- one step

  lemma FinishSound(s: State, i: nat)
    requires Cached(s) && Enabled(s, Finish(i))
    ensures Cached(DoFinish(s, i))
  {
    hide WasMade, IsMade, Sound, AllMade;
    var h := s.cpus[i].phase;
    assert PhaseSound(History(s), s.log, h);
    LogGrows(s, VerdictOn(h.pkt, h.key, h.len, h.action, h.creator, i));
  }

  // Loads and stores of counters leave the log and every cached action alone.
  lemma CountSound(s: State, t: Step)
    requires Cached(s) && (t.Load? || t.Store?) && Enabled(s, t)
    ensures Cached(Next(s, t))
  {
    hide WasMade, Sound, AllMade, Field, Amount;
    assert PhaseSound(History(s), s.log, s.cpus[t.cpu].phase);
  }

  // A decision that is what its reads say.
  lemma DecideSound(s: State, i: nat, d: Decision, times: seq<nat>)
    requires Cached(s) && i < |s.cpus| && (s.cpus[i].phase.Missed? || s.cpus[i].phase.Scanning?)
    requires Complete(History(s), times, s.cpus[i].phase.key) && d == DecisionOf(History(s), times, s.cpus[i].phase.key)
    ensures Cached(DoDecide(s, i, d, times))
  {
    hide WasMade, Sound, AllMade, DecisionOf, Complete;
    var q := s.cpus[i].phase;
    var e := Made(q.pkt, q.key, times, d.action, d.hit, i);
    LogGrows(s, e);
    JustMade(History(s), s.log, e, q.pkt, q.key, d.action);
  }

  lemma ChooseSound(s: State, i: nat)
    requires Cached(s) && Enabled(s, Choose(i))
    ensures Cached(DoChoose(s, i))
  {
    var q, h, times := s.cpus[i].phase, History(s), [|s.past|];
    assert At(h, times)[1..] == [] && h[|s.past|] == s.policies;
    if q.key in s.policies.exact {
      hide Cached, DoDecide;
      DecideSound(s, i, Exactly(s.policies.exact[q.key]), times);
    } else {
      hide Sound, AllMade, WasMade;
    }
  }

  // One more read.
  lemma ReadMore(h: seq<Policies>, times: seq<nat>)
    requires h != [] && InOrder(times, |h|)
    ensures InOrder(times + [|h| - 1], |h|) && At(h, times + [|h| - 1]) == At(h, times) + [h[|h| - 1]]
  {
  }

  lemma ScanStepSound(s: State, i: nat)
    requires Cached(s) && Enabled(s, Scan(i))
    ensures Cached(DoScan(s, i))
  {
    hide Sound, AllMade, WasMade, Consider, Complete, Eligible;
    var q, h := s.cpus[i].phase, History(s);
    assert PhaseSound(h, s.log, q);
    ReadMore(h, q.times);
    OneMoreSlot(h, q.key, q.times, q.best, s.policies);
  }

  lemma OneMoreSlot(h: seq<Policies>, key: FlowKey, times: seq<nat>, best: Best, p: Policies)
    requires ScanSound(h, key, times, best) && |times| <= SCAN_LIMIT && h != [] && h[|h| - 1] == p
    requires InOrder(times + [|h| - 1], |h|) && At(h, times + [|h| - 1]) == At(h, times) + [p]
    ensures ScanSound(h, key, times + [|h| - 1], Consider(p, key, |times| - 1, best))
  {
    hide Consider, At;
    var ps := At(h, times + [|h| - 1])[1..];
    assert ps == At(h, times)[1..] + [p] && ps[..|ps| - 1] == At(h, times)[1..];
  }

  lemma ConcludeSound(s: State, i: nat)
    requires Cached(s) && Enabled(s, Conclude(i))
    ensures Cached(DoConclude(s, i))
  {
    hide Sound, AllMade, WasMade, DoDecide, ScanOf, Consider;
    var q, h := s.cpus[i].phase, History(s);
    assert PhaseSound(h, s.log, q);
    ReadMore(h, q.times);
    var times := q.times + [|s.past|];
    assert At(h, times)[1..FULL - 1] == At(h, q.times)[1..];
    DecideSound(s, i, Outcome(s.policies, q.best), times);
  }

  lemma CreateSound(s: State, i: nat, ok: bool, evict: set<FlowKey>)
    requires Cached(s) && Enabled(s, Create(i, ok, evict))
    ensures Cached(DoCreate(s, i, ok, evict))
  {
    hide WasMade, IsMade, Sound, AllMade;
    var q := s.cpus[i].phase;
    var e := VerdictOn(q.pkt, q.key, q.len, q.action, q.pkt, i);
    assert PhaseSound(History(s), s.log, q);
    LogGrows(s, e);
    MadeStays(History(s), s.log, e, q.pkt, q.key, q.action);
  }

  lemma CachedStep(s: State, t: Step)
    requires Cached(s) && Enabled(s, t)
    ensures Cached(Next(s, t))
  {
    hide WasMade, DoLoad, DoStore, DoFinish, DoChoose, DoScan, DoConclude, DoCreate, Sound, AllMade;
    match t
    case Arrive(i, key, len) =>
    case Load(i) => CountSound(s, t);
    case Store(i) => CountSound(s, t);
    case Finish(i) => FinishSound(s, i);
    case Choose(i) => ChooseSound(s, i);
    case Scan(i) => ScanStepSound(s, i);
    case Conclude(i) => ConcludeSound(s, i);
    case Create(i, ok, evict) => CreateSound(s, i, ok, evict);
    case Evict(keys) =>
    case SetPolicies(p) => ChangeSound(s, p);
  }

  lemma {:induction false} CachedRun(s: State, ts: seq<Step>)
    requires Cached(s)
    ensures Cached(Exec(s, ts))
    decreases |ts|
  {
    hide Cached, Next, Enabled;
    if ts != [] {
      var n := |ts| - 1;
      CachedRun(s, ts[..n]);
      if Enabled(Exec(s, ts[..n]), ts[n]) {
        CachedStep(Exec(s, ts[..n]), ts[n]);
      }
    }
  }

  lemma BootCached(p: Policies, n: nat)
    ensures Cached(Boot(p, n))
  {
  }

  // --- every run

  // Event j is the decision that verdict e enforces, and it is what its reads of h say.
  ghost predicate DecidedBy(h: seq<Policies>, e: Event, d: Event)
    requires e.Verdict?
  {
    d.Made? && d.pkt == e.cause && d.key == e.key && Complete(h, d.times, d.key)
    && e.denied == (DecisionOf(h, d.times, d.key).action == POLICY_ACTION_DENY)
  }

  // However the CPUs interleave, whatever is evicted or fails to be created, and whenever policies
  // change, in the middle of a scan too: a verdict enforces the decision that the packet it is cached
  // from made for the same flow, with every slot as that packet's scan read it.
  lemma VerdictsFollowDecisions(p: Policies, n: nat, ts: seq<Step>, i: nat)
    requires var s := Exec(Boot(p, n), ts); i < |s.log| && s.log[i].Verdict?
    ensures var s := Exec(Boot(p, n), ts);
      exists j: nat :: j < i && DecidedBy(History(s), s.log[i], s.log[j])
  {
    hide DecisionOf, Complete, Next, Boot, Enabled;
    BootCached(p, n);
    CachedRun(Boot(p, n), ts);
    var s := Exec(Boot(p, n), ts);
    var h, log := History(s), s.log;
    assert Grounded(h, log[..i], log[i]);
    var a: nat :| log[i].denied == (a == POLICY_ACTION_DENY) && WasMade(h, log[..i], log[i].cause, log[i].key, a);
    var j :| 0 <= j < |log[..i]| && IsMade(h, log[..i][j], log[i].cause, log[i].key, a);
    assert log[j] == log[..i][j];
  }

  // Only SetPolicies changes the policies, and it always can.
  lemma PoliciesAfter(s: State, t: Step)
    ensures t.SetPolicies? ==> Enabled(s, t) && Next(s, t).past == History(s)
    ensures !t.SetPolicies? && Enabled(s, t) ==> Next(s, t).past == s.past && Next(s, t).policies == s.policies
  {
    hide Consider, Outcome, Remove, Enforce, Field, Amount;
  }

  // The moments of reads count the policy changes before them.
  function Changes(ts: seq<Step>): nat {
    if ts == [] then 0 else Changes(ts[..|ts| - 1]) + (if ts[|ts| - 1].SetPolicies? then 1 else 0)
  }

  lemma {:induction false} MomentsCountChanges(p: Policies, n: nat, ts: seq<Step>)
    ensures |Exec(Boot(p, n), ts).past| == Changes(ts)
    decreases |ts|
  {
    hide Next, Enabled;
    if ts != [] {
      MomentsCountChanges(p, n, ts[..|ts| - 1]);
      PoliciesAfter(Exec(Boot(p, n), ts[..|ts| - 1]), ts[|ts| - 1]);
    }
  }

  // A verdict whose decision saw no change between its first and its last read is the one that the
  // policies of that moment mean; FilterScan.SnapshotExact says why nothing less will do.
  lemma UndisturbedVerdict(h: seq<Policies>, e: Event, d: Event)
    requires e.Verdict? && DecidedBy(h, e, d) && d.times[0] == d.times[|d.times| - 1]
    ensures e.denied == (Decide(h[d.times[0]], e.key).action == POLICY_ACTION_DENY)
  {
    hide DecisionOf;
    Undisturbed(h, d.times, d.key);
  }

  // With the policies fixed the cache is transparent: every verdict is the one the policies mean.
  lemma CacheTransparent(p: Policies, n: nat, ts: seq<Step>, i: nat)
    requires forall t | t in ts :: !t.SetPolicies?
    requires var s := Exec(Boot(p, n), ts); i < |s.log| && s.log[i].Verdict?
    ensures var e := Exec(Boot(p, n), ts).log[i]; e.denied == (Decide(p, e.key).action == POLICY_ACTION_DENY)
  {
    hide DecisionOf, Next, Decide, Enabled;
    VerdictsFollowDecisions(p, n, ts, i);
    var s := Exec(Boot(p, n), ts);
    NeverChanged(p, n, ts);
    var j: nat :| j < i && DecidedBy(History(s), s.log[i], s.log[j]);
    UndisturbedVerdict(History(s), s.log[i], s.log[j]);
  }

  lemma {:induction false} NeverChanged(p: Policies, n: nat, ts: seq<Step>)
    requires forall t | t in ts :: !t.SetPolicies?
    ensures History(Exec(Boot(p, n), ts)) == [p]
    decreases |ts|
  {
    hide Next, Enabled;
    if ts != [] {
      var k := |ts| - 1;
      assert ts[k] in ts && forall t | t in ts[..k] :: t in ts;
      NeverChanged(p, n, ts[..k]);
      PoliciesAfter(Exec(Boot(p, n), ts[..k]), ts[k]);
    }
  }
}
