/** The filter program on one CPU, from packet to verdict, as a run of the steps of FilterRun in which
    nobody else does anything. */
module FilterProgram {
  import opened FilterPolicy
  import opened FilterScan
  import opened FilterRun
  import opened FilterSteps

  const TC_ACT_OK: nat := 0
  const TC_ACT_SHOT: nat := 2

  const STATS_TOTAL_PACKETS: nat := 0
  const STATS_ALLOWED_PACKETS: nat := 1
  const STATS_DENIED_PACKETS: nat := 2
  const STATS_NEW_SESSIONS: nat := 3
  const STATS_POLICY_HITS: nat := 6
  const STATS_POLICY_MISSES: nat := 7
  const STATS_MAX: nat := 8

  datatype Option<T> = None | Some(value: T)

  // The decision of one undisturbed packet.
  function DecideSteps(exact: bool): seq<Step> {
    if exact then [Choose(0)] else [Choose(0)] + Scans(0, SCAN_LIMIT) + [Conclude(0)]
  }

  // One counter after the other.
  const COUNTING: seq<Step> := [Load(0)] + [Store(0)] + [Load(0)] + [Store(0)]

  // The steps of one undisturbed packet on CPU 0.
  function StepsOf(s: State, key: FlowKey, len: nat, ok: bool, evict: set<FlowKey>): seq<Step> {
    if key in s.sessions then [Arrive(0, key, len)] + COUNTING + [Finish(0)]
    else [Arrive(0, key, len)] + DecideSteps(key in s.policies.exact) + [Create(0, ok, evict)]
  }

  // The moments of its policy reads.
  function TimesOf(p: Policies, now: nat, key: FlowKey): seq<nat> {
    if key in p.exact then [now] else seq(FULL, _ => now)
  }

  // The verdict on a packet of this flow, as the program returned it.
  predicate Ends(e: Event, key: FlowKey, verdict: nat) {
    e.Verdict? && e.key == key && verdict == if e.denied then TC_ACT_SHOT else TC_ACT_OK
  }

  // The decisions made for a flow.
  function MadeFor(log: seq<Event>, k: FlowKey): nat {
    if log == [] then 0 else
    var e := log[|log| - 1];
    MadeFor(log[..|log| - 1], k) + (if e.Made? && e.key == k then 1 else 0)
  }

  lemma MadeSnoc(log: seq<Event>, e: Event, k: FlowKey)
    ensures MadeFor(log + [e], k) == MadeFor(log, k) + (if e.Made? && e.key == k then 1 else 0)
  {
    assert (log + [e])[..|log|] == log;
  }

  // Every exact rule has counted the decisions it made.
  ghost predicate HitsRight(p: Policies, hits: map<FlowKey, nat>, log: seq<Event>) {
    hits.Keys == p.exact.Keys && forall k | k in hits :: hits[k] == MadeFor(log, k) % TWO64
  }

  lemma VerdictNoHit(p: Policies, hits: map<FlowKey, nat>, log: seq<Event>, e: Event)
    requires HitsRight(p, hits, log) && e.Verdict?
    ensures HitsRight(p, hits, log + [e])
  {
    hide MadeFor;
    forall k | k in hits ensures hits[k] == MadeFor(log + [e], k) % TWO64 {
      MadeSnoc(log, e, k);
    }
  }

  lemma MadeHit(p: Policies, hits: map<FlowKey, nat>, log: seq<Event>, e: Event)
    requires HitsRight(p, hits, log) && e.Made?
    ensures HitsRight(p, if e.key in p.exact then hits[e.key := Inc(hits[e.key])] else hits, log + [e])
  {
    hide MadeFor;
    forall k | k in hits ensures MadeFor(log + [e], k) == MadeFor(log, k) + (if e.key == k then 1 else 0) {
      MadeSnoc(log, e, k);
    }
  }

  class Filter {
    // the policies in force, those before them, and the hit counts of the exact rules
    var policies: Policies
    var hits: map<FlowKey, nat>
    var past: seq<Policies>
    var sessions: map<FlowKey, Session>
    const stats: array<nat>
    // packets so far; what happened to them; sessions created and evicted
    var next: nat
    var log: seq<Event>
    var created: nat
    var evicted: nat

    ghost predicate Valid()
      reads this
    {
      stats.Length == STATS_MAX && HitsRight(policies, hits, log)
    }

    ghost function CountersNow(): Counters
      requires stats.Length == STATS_MAX
      reads this, stats
    {
      Counters(stats[STATS_TOTAL_PACKETS], stats[STATS_ALLOWED_PACKETS], stats[STATS_DENIED_PACKETS],
               stats[STATS_NEW_SESSIONS], stats[STATS_POLICY_HITS], stats[STATS_POLICY_MISSES])
    }

    // Between two packets.
    ghost function Now(): State
      requires Valid()
      reads this, stats
    {
      State(past, policies, sessions, [Cpu(Idle, CountersNow())], next, log, created, evicted)
    }

    constructor (p: Policies)
      ensures Valid() && Now() == Boot(p, 1) && fresh(stats)
    {
      past, policies, sessions := [], p, map[];
      stats := new nat[STATS_MAX](_ => 0);
      hits := map k | k in p.exact :: 0;
      next, log, created, evicted := 0, [], 0, 0;
      new;
      assert Boot(p, 1).cpus == [Cpu(Idle, ZERO)];
    }

    // update_stats
    method UpdateStats(i: nat)
      requires i < STATS_MAX == stats.Length
      modifies stats
      ensures stats[i] == Inc(old(stats[i])) && forall j | 0 <= j < STATS_MAX && j != i :: stats[j] == old(stats[j])
    {
      stats[i] := (stats[i] + 1) % TWO64;
    }

    // create_session: ok tells whether the map takes the entry, evict what it throws out for it
    method CreateSession(key: FlowKey, action: nat, len: nat, pkt: nat, ok: bool, evict: set<FlowKey>) returns (made: bool)
      requires Valid()
      modifies this, stats
      ensures Valid() && made == (ok && key !in Remove(old(sessions), evict))
      ensures sessions == var left := Remove(old(sessions), evict);
        if made then left[key := Session(action, 1, len % TWO64, pkt)] else left
      ensures CountersNow() == if made then old(CountersNow()).(newSessions := Inc(old(CountersNow()).newSessions))
        else old(CountersNow())
      ensures past == old(past) && policies == old(policies) && next == old(next) && log == old(log) && hits == old(hits)
      ensures created == old(created) + (if made then 1 else 0)
      ensures evicted == old(evicted) + |old(sessions)| - |Remove(old(sessions), evict)|
    {
      LeftSize(sessions, evict);
      var left := Remove(sessions, evict);
      evicted := evicted + |sessions| - |left|;
      sessions := left;
      made := false;
      if ok && key !in sessions {
        sessions := sessions[key := Session(action, 1, len % TWO64, pkt)];
        created := created + 1;
        UpdateStats(STATS_NEW_SESSIONS);
        made := true;
      }
    }

    // The verdict and its counter.
    method EnforceAction(action: nat) returns (verdict: nat)
      requires Valid()
      modifies stats
      ensures Valid() && CountersNow() == Enforce(old(CountersNow()), action)
      ensures verdict == if action == POLICY_ACTION_DENY then TC_ACT_SHOT else TC_ACT_OK
    {
      if action == POLICY_ACTION_DENY {
        UpdateStats(STATS_DENIED_PACKETS);
        return TC_ACT_SHOT;
      }
      UpdateStats(STATS_ALLOWED_PACKETS);
      return TC_ACT_OK;
    }

    // A packet of a flow with a session.
    method OnHit(key: FlowKey, len: nat) returns (verdict: nat)
      requires Valid() && key in sessions
      modifies this, stats
      ensures Valid() && Now() == AfterHit(old(Now()), key, len) && log != [] && Ends(log[|log| - 1], key, verdict)
    {
      hide HitsRight;
      UpdateStats(STATS_TOTAL_PACKETS);
      var e := sessions[key];
      sessions := sessions[key := e.(packets := Inc(e.packets))];
      sessions := sessions[key := sessions[key].(bytes := (sessions[key].bytes + len) % TWO64)];
      verdict := EnforceAction(e.action);
      VerdictNoHit(policies, hits, log, VerdictOn(next, key, len, e.action, e.creator, 0));
      log := log + [VerdictOn(next, key, len, e.action, e.creator, 0)];
      next := next + 1;
    }

    // The first packet of a flow.
    method OnMiss(key: FlowKey, len: nat, ok: bool, evict: set<FlowKey>) returns (verdict: nat)
      requires Valid() && key !in sessions
      modifies this, stats
      ensures Valid() && Now() == AfterMiss(old(Now()), key, len, ok, evict) && log != [] && Ends(log[|log| - 1], key, verdict)
    {
      hide Decide, Inc, Remove, HitsRight;
      UpdateStats(STATS_TOTAL_PACKETS);
      var action, hit := Classify(key);
      MadeHit(policies, old(hits), log, Made(next, key, TimesOf(policies, |past|, key), action, hit, 0));
      log := log + [Made(next, key, TimesOf(policies, |past|, key), action, hit, 0)];
      var made := CreateSession(key, action, len, next, ok, evict);
      verdict := EnforceAction(action);
      VerdictNoHit(policies, hits, log, VerdictOn(next, key, len, action, next, 0));
      log := log + [VerdictOn(next, key, len, action, next, 0)];
      next := next + 1;
    }

    // lookup_policy_action with its counters
    method Classify(key: FlowKey) returns (action: nat, hit: bool)
      requires Valid()
      modifies stats, this`hits
      ensures stats.Length == STATS_MAX && action == Decide(policies, key).action && hit == Decide(policies, key).hit
      ensures hits == if key in policies.exact then old(hits)[key := Inc(old(hits)[key])] else old(hits)
      ensures CountersNow() == Tallied(old(CountersNow()), Decide(policies, key))
    {
      hide Decide;
      var ruleId;
      action, ruleId, hit, hits := LookupPolicyAction(policies, key, hits);
      if hit {
        UpdateStats(STATS_POLICY_HITS);
      } else {
        UpdateStats(STATS_POLICY_MISSES);
      }
    }

    // tc_microsegment_filter; a packet without a flow key passes uncounted
    method FilterPacket(flow: Option<FlowKey>, len: nat, ok: bool, evict: set<FlowKey>) returns (verdict: nat)
      requires Valid()
      modifies this, stats
      ensures Valid()
      ensures flow.None? ==> verdict == TC_ACT_OK && Now() == old(Now())
      ensures flow.Some? ==> Now() == Exec(old(Now()), StepsOf(old(Now()), flow.value, len, ok, evict))
      ensures flow.Some? ==> log != [] && Ends(log[|log| - 1], flow.value, verdict)
    {
      hide AfterHit, AfterMiss, Exec;
      if flow.None? {
        return TC_ACT_OK;
      }
      var key := flow.value;
      if key in sessions {
        HitSteps(Now(), key, len);
        verdict := OnHit(key, len);
      } else {
        MissSteps(Now(), key, len, ok, evict);
        verdict := OnMiss(key, len, ok, evict);
      }
    }
  }

  function AfterHit(s: State, key: FlowKey, len: nat): State
    requires |s.cpus| == 1 && key in s.sessions
  {
    var e, c := s.sessions[key], s.cpus[0].counters;
    s.(sessions := s.sessions[key := e.(packets := Inc(e.packets), bytes := (e.bytes + len) % TWO64)],
       cpus := [Cpu(Idle, Enforce(c.(total := Inc(c.total)), e.action))], next := s.next + 1,
       log := s.log + [VerdictOn(s.next, key, len, e.action, e.creator, 0)])
  }

  // A packet without a session, when its decision has been made.
  function AfterDecision(s: State, key: FlowKey, len: nat): State
    requires |s.cpus| == 1
  {
    var d, c := Decide(s.policies, key), s.cpus[0].counters;
    s.(cpus := [Cpu(Decided(s.next, key, len, d.action), Tallied(c.(total := Inc(c.total)), d))], next := s.next + 1,
       log := s.log + [Made(s.next, key, TimesOf(s.policies, |s.past|, key), d.action, d.hit, 0)])
  }

  function AfterMiss(s: State, key: FlowKey, len: nat, ok: bool, evict: set<FlowKey>): State
    requires |s.cpus| == 1
  {
    DoCreate(AfterDecision(s, key, len), 0, ok, evict)
  }

  lemma OneStep(s: State, t: Step)
    requires Enabled(s, t)
    ensures Exec(s, [t]) == Next(s, t)
  {
    ExecSnoc(s, [], t, s, Next(s, t));
  }

  // A packet of an otherwise idle machine, on the way with this stage and this session.
  function OnTheWay(s: State, key: FlowKey, len: nat, g: Stage, packets: nat, bytes: nat): State
    requires |s.cpus| == 1 && key in s.sessions
  {
    var e, c := s.sessions[key], s.cpus[0].counters;
    s.(sessions := s.sessions[key := e.(packets := packets, bytes := bytes)], next := s.next + 1,
       cpus := [Cpu(Hit(s.next, key, len, e.action, e.creator, g), c.(total := Inc(c.total)))])
  }

  lemma FoundStep(s: State, key: FlowKey, len: nat)
    requires |s.cpus| == 1 && s.cpus[0].phase.Idle? && key in s.sessions
    ensures var e := s.sessions[key]; Next(s, Arrive(0, key, len)) == OnTheWay(s, key, len, Found, e.packets, e.bytes)
  {
    var e := s.sessions[key];
    assert s.sessions[key := e] == s.sessions;
    assert Next(s, Arrive(0, key, len)).cpus == OnTheWay(s, key, len, Found, e.packets, e.bytes).cpus;
  }

  lemma LoadStep(s: State, key: FlowKey, len: nat, g: Stage, packets: nat, bytes: nat)
    requires |s.cpus| == 1 && key in s.sessions && (g == Found || g == Between)
    ensures var a, v := OnTheWay(s, key, len, g, packets, bytes), if g == Found then packets else bytes;
      Enabled(a, Load(0)) && Next(a, Load(0)) == OnTheWay(s, key, len, Loaded(Turn(g), v), packets, bytes)
  {
    var a, v := OnTheWay(s, key, len, g, packets, bytes), if g == Found then packets else bytes;
    assert Next(a, Load(0)).cpus == OnTheWay(s, key, len, Loaded(Turn(g), v), packets, bytes).cpus;
  }

  lemma StoreStep(s: State, key: FlowKey, len: nat, x: Counter, packets: nat, bytes: nat)
    requires |s.cpus| == 1 && key in s.sessions
    ensures var v := if x == Packets then packets else bytes;
      var a := OnTheWay(s, key, len, Loaded(x, v), packets, bytes);
      Enabled(a, Store(0)) && Next(a, Store(0)) ==
        if x == Packets then OnTheWay(s, key, len, Between, Inc(packets), bytes)
        else OnTheWay(s, key, len, Counted, packets, (bytes + len) % TWO64)
  {
    var v := if x == Packets then packets else bytes;
    var r := Next(OnTheWay(s, key, len, Loaded(x, v), packets, bytes), Store(0));
    if x == Packets {
      assert r.cpus == OnTheWay(s, key, len, Between, Inc(packets), bytes).cpus;
    } else {
      assert r.cpus == OnTheWay(s, key, len, Counted, packets, (bytes + len) % TWO64).cpus;
    }
  }

  lemma FinishStep(s: State, key: FlowKey, len: nat)
    requires |s.cpus| == 1 && key in s.sessions
    ensures var e := s.sessions[key]; var a := OnTheWay(s, key, len, Counted, Inc(e.packets), (e.bytes + len) % TWO64);
      Enabled(a, Finish(0)) && Next(a, Finish(0)) == AfterHit(s, key, len)
  {
    hide Enforce, Inc;
    var e := s.sessions[key];
    var a := OnTheWay(s, key, len, Counted, Inc(e.packets), (e.bytes + len) % TWO64);
    assert Next(a, Finish(0)).cpus == AfterHit(s, key, len).cpus;
  }

  // A hit on an otherwise idle machine.
  lemma HitSteps(s: State, key: FlowKey, len: nat)
    requires |s.cpus| == 1 && s.cpus[0].phase.Idle? && key in s.sessions
    ensures Exec(s, [Arrive(0, key, len)] + COUNTING + [Finish(0)]) == AfterHit(s, key, len)
  {
    hide Next, OnTheWay, Exec, AfterHit, Inc;
    var e, t := s.sessions[key], [Arrive(0, key, len)];
    var p, b := Inc(e.packets), (e.bytes + len) % TWO64;
    FoundStep(s, key, len);
    OneStep(s, Arrive(0, key, len));
    LoadStep(s, key, len, Found, e.packets, e.bytes);
    StoreStep(s, key, len, Packets, e.packets, e.bytes);
    LoadStep(s, key, len, Between, p, e.bytes);
    StoreStep(s, key, len, Bytes, p, e.bytes);
    FinishStep(s, key, len);
    var s1, s2 := OnTheWay(s, key, len, Found, e.packets, e.bytes),
      OnTheWay(s, key, len, Loaded(Packets, e.packets), e.packets, e.bytes);
    var s3, s4 := OnTheWay(s, key, len, Between, p, e.bytes), OnTheWay(s, key, len, Loaded(Bytes, e.bytes), p, e.bytes);
    var s5 := OnTheWay(s, key, len, Counted, p, b);
    ExecSnoc(s, t, Load(0), s1, s2);
    ExecSnoc(s, t + [Load(0)], Store(0), s2, s3);
    ExecSnoc(s, t + [Load(0)] + [Store(0)], Load(0), s3, s4);
    ExecSnoc(s, t + [Load(0)] + [Store(0)] + [Load(0)], Store(0), s4, s5);
    assert t + [Load(0)] + [Store(0)] + [Load(0)] + [Store(0)] == t + COUNTING;
    ExecSnoc(s, t + COUNTING, Finish(0), s5, AfterHit(s, key, len));
  }

  // A decision on an otherwise idle machine.
  lemma ChoiceSteps(s: State, key: FlowKey, len: nat)
    requires |s.cpus| == 1 && s.cpus[0].phase.Idle? && key !in s.sessions
    ensures Exec(DoArrive(s, 0, key, len), DecideSteps(key in s.policies.exact)) == AfterDecision(s, key, len)
  {
    hide Exec, BestBelow, ScanFrom, Inc, Tallied;
    var a := DoArrive(s, 0, key, len);
    var b := DoChoose(a, 0);
    OneStep(a, Choose(0));
    if key in s.policies.exact {
      assert b.cpus == AfterDecision(s, key, len).cpus;
    } else {
      var c := ScannedOn(b, 0, SCAN_LIMIT);
      ScanRun(b, 0, SCAN_LIMIT);
      ExecConcat(a, [Choose(0)], Scans(0, SCAN_LIMIT));
      ConcludeStep(s, key, len);
      ExecSnoc(a, [Choose(0)] + Scans(0, SCAN_LIMIT), Conclude(0), c, AfterDecision(s, key, len));
    }
  }

  // The end of a scan on an otherwise idle machine.
  lemma ConcludeStep(s: State, key: FlowKey, len: nat)
    requires |s.cpus| == 1 && s.cpus[0].phase.Idle? && key !in s.sessions && key !in s.policies.exact
    ensures var c := ScannedOn(DoChoose(DoArrive(s, 0, key, len), 0), 0, SCAN_LIMIT);
      Enabled(c, Conclude(0)) && Next(c, Conclude(0)) == AfterDecision(s, key, len)
  {
    hide BestBelow, ScanFrom, Inc, Tallied;
    var c := ScannedOn(DoChoose(DoArrive(s, 0, key, len), 0), 0, SCAN_LIMIT);
    ScanFromStart(s.policies, key, SCAN_LIMIT);
    assert [|s.past|] + seq(SCAN_LIMIT, _ => |s.past|) + [|s.past|] == TimesOf(s.policies, |s.past|, key);
    assert DoConclude(c, 0).cpus == AfterDecision(s, key, len).cpus;
  }

  lemma MissSteps(s: State, key: FlowKey, len: nat, ok: bool, evict: set<FlowKey>)
    requires |s.cpus| == 1 && s.cpus[0].phase.Idle? && key !in s.sessions
    ensures Exec(s, StepsOf(s, key, len, ok, evict)) == AfterMiss(s, key, len, ok, evict)
  {
    hide Exec, DecideSteps, DoArrive, DoCreate, Decide;
    var ds := DecideSteps(key in s.policies.exact);
    OneStep(s, Arrive(0, key, len));
    ExecConcat(s, [Arrive(0, key, len)], ds);
    ChoiceSteps(s, key, len);
    ExecSnoc(s, [Arrive(0, key, len)] + ds, Create(0, ok, evict), AfterDecision(s, key, len),
      AfterMiss(s, key, len, ok, evict));
  }
}
