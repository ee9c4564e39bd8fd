/** Three runs of two CPUs that find the same session at the same time: one loses both counters, one
    loses the packets only, and one loses nothing. */
module FilterLost {
  import opened FilterPolicy
  import opened FilterScan
  import opened FilterRun
  import opened FilterSteps
  import opened FilterExact

  const RULES: Policies := Policies(map[FLOW := Rule(POLICY_ACTION_ALLOW, 1)], [])

  // A packet of one byte creates the session, and two more find it.
  const BOTH_FIND: seq<Step> := [Arrive(0, FLOW, 1), Choose(0), Create(0, true, {}), Arrive(0, FLOW, 1), Arrive(1, FLOW, 1)]
  const LAST: seq<Step> := [Finish(0), Finish(1)]

  // How far the two CPUs are, and what the session has counted.
  datatype Pair = Pair(a: Stage, b: Stage, packets: nat, bytes: nat)

  const LOG: seq<Event> := [Made(0, FLOW, [0], POLICY_ACTION_ALLOW, true, 0), VerdictOn(0, FLOW, 1, POLICY_ACTION_ALLOW, 0, 0)]

  function StateOf(q: Pair): State {
    State([], RULES, map[FLOW := Session(POLICY_ACTION_ALLOW, q.packets, q.bytes, 0)],
          [Cpu(Hit(1, FLOW, 1, POLICY_ACTION_ALLOW, 0, q.a), Counters(2, 1, 0, 1, 1, 0)),
           Cpu(Hit(2, FLOW, 1, POLICY_ACTION_ALLOW, 0, q.b), Counters(1, 0, 0, 0, 0, 0))],
          3, LOG, 1, 0)
  }

  function StageOf(q: Pair, i: nat): Stage {
    if i == 0 then q.a else q.b
  }

  function WithStage(q: Pair, i: nat, g: Stage): Pair {
    if i == 0 then q.(a := g) else q.(b := g)
  }

  // What a load or a store makes of the pair.
  function Count(q: Pair, t: Step): Pair {
    match t
    case Load(i) =>
      var x := Turn(StageOf(q, i));
      WithStage(q, i, Loaded(x, if x == Packets then q.packets else q.bytes))
    case Store(i) =>
      if StageOf(q, i).Loaded? then
        var x, v := StageOf(q, i).x, Inc(StageOf(q, i).value);
        if x == Packets then WithStage(q, i, Between).(packets := v) else WithStage(q, i, Counted).(bytes := v)
      else q
    case _ => q
  }

  predicate Counts(q: Pair, t: Step) {
    (t.Load? && t.cpu < 2 && (StageOf(q, t.cpu).Found? || StageOf(q, t.cpu).Between?))
    || (t.Store? && t.cpu < 2 && StageOf(q, t.cpu).Loaded?)
  }

  lemma CountStep(q: Pair, t: Step)
    requires Counts(q, t)
    ensures Enabled(StateOf(q), t) && Next(StateOf(q), t) == StateOf(Count(q, t))
  {
    var s, r := StateOf(q), StateOf(Count(q, t));
    assert Next(s, t).cpus == r.cpus;
    assert Next(s, t).sessions == r.sessions;
  }

  // The two CPUs have come this far by these steps.
  ghost predicate Reach(ts: seq<Step>, q: Pair) {
    Exec(StateOf(Pair(Found, Found, 1, 1)), ts) == StateOf(q)
  }

  lemma Go(ts: seq<Step>, q: Pair, t: Step, r: Pair)
    requires Reach(ts, q) && Counts(q, t) && r == Count(q, t)
    ensures Reach(ts + [t], r)
  {
    hide Next, Enabled, StateOf, Count, Counts;
    CountStep(q, t);
    ExecSnoc(StateOf(Pair(Found, Found, 1, 1)), ts, t, StateOf(q), StateOf(r));
  }

  lemma Start()
    ensures Reach([], Pair(Found, Found, 1, 1))
  {
  }

  lemma BothFind()
    ensures Exec(Boot(RULES, 2), BOTH_FIND) == StateOf(Pair(Found, Found, 1, 1))
  {
    var s0 := Boot(RULES, 2);
    var s1 := Next(s0, Arrive(0, FLOW, 1));
    var s2 := Next(s1, Choose(0));
    assert Remove(s2.sessions, {}) == map[];
    var s3 := Next(s2, Create(0, true, {}));
    var s4 := Next(s3, Arrive(0, FLOW, 1));
    var s5 := Next(s4, Arrive(1, FLOW, 1));
    var r := StateOf(Pair(Found, Found, 1, 1));
    assert s5.cpus == r.cpus && s5.sessions == r.sessions && s5.log == r.log;
    hide Next, Enabled, StateOf;
    var t0: seq<Step> := [];
    var t1 := t0 + [Arrive(0, FLOW, 1)];
    var t2 := t1 + [Choose(0)];
    var t3 := t2 + [Create(0, true, {})];
    var t4 := t3 + [Arrive(0, FLOW, 1)];
    ExecSnoc(s0, t0, Arrive(0, FLOW, 1), s0, s1);
    ExecSnoc(s0, t1, Choose(0), s1, s2);
    ExecSnoc(s0, t2, Create(0, true, {}), s2, s3);
    ExecSnoc(s0, t3, Arrive(0, FLOW, 1), s3, s4);
    ExecSnoc(s0, t4, Arrive(1, FLOW, 1), s4, s5);
    assert t4 + [Arrive(1, FLOW, 1)] == BOTH_FIND;
  }

  function Passed(pkt: nat): Event {
    VerdictOn(pkt, FLOW, 1, POLICY_ACTION_ALLOW, 0, if pkt == 1 then 0 else 1)
  }

  lemma LastSteps(packets: nat, bytes: nat)
    ensures var s := Exec(StateOf(Pair(Counted, Counted, packets, bytes)), LAST);
      s.sessions == map[FLOW := Session(POLICY_ACTION_ALLOW, packets, bytes, 0)] && AllIdle(s)
      && Logged(s.log, Packets, 0) == 3 && Logged(s.log, Bytes, 0) == 3
  {
    hide Logged;
    var s := StateOf(Pair(Counted, Counted, packets, bytes));
    var s1 := Next(s, Finish(0));
    var s2 := Next(s1, Finish(1));
    ExecSnoc(s, [], Finish(0), s, s1);
    ExecSnoc(s, [Finish(0)], Finish(1), s1, s2);
    assert [Finish(0)] + [Finish(1)] == LAST;
    ThreeLogged(Packets);
    ThreeLogged(Bytes);
  }

  lemma ThreeLogged(x: Counter)
    ensures Logged(LOG + [Passed(1)] + [Passed(2)], x, 0) == 3
  {
    assert LOG == [] + [LOG[0]] + [LOG[1]];
    LogSnoc([], LOG[0], x, 0);
    LogSnoc([] + [LOG[0]], LOG[1], x, 0);
    LogSnoc(LOG, Passed(1), x, 0);
    LogSnoc(LOG + [Passed(1)], Passed(2), x, 0);
  }

  // The session of flow FLOW after these steps of the two CPUs, three packets of one byte having passed.
  ghost predicate Ends(ts: seq<Step>, packets: nat, bytes: nat) {
    var s := Exec(Boot(RULES, 2), BOTH_FIND + ts + LAST);
    FLOW in s.sessions && AllIdle(s) && s.sessions[FLOW].packets == packets && s.sessions[FLOW].bytes == bytes
    && Logged(s.log, Packets, s.sessions[FLOW].creator) == 3 && Logged(s.log, Bytes, s.sessions[FLOW].creator) == 3
  }

  lemma Whole(ts: seq<Step>, packets: nat, bytes: nat)
    requires Reach(ts, Pair(Counted, Counted, packets, bytes))
    ensures Ends(ts, packets, bytes)
  {
    hide StateOf, Logged, AllIdle, Exec;
    BothFind();
    ExecConcat(Boot(RULES, 2), BOTH_FIND, ts);
    ExecConcat(Boot(RULES, 2), BOTH_FIND + ts, LAST);
    LastSteps(packets, bytes);
  }

  // Both load before either stores, for each counter: an update of both is lost.
  lemma UpdateLost()
    ensures Ends([Load(0), Load(1), Store(0), Store(1), Load(0), Load(1), Store(0), Store(1)], 2, 2)
  {
    hide Ends, Reach;
    Start();
    var t0: seq<Step> := [];
    Go(t0, Pair(Found, Found, 1, 1), Load(0), Pair(Loaded(Packets, 1), Found, 1, 1));
    var t1 := t0 + [Load(0)];
    Go(t1, Pair(Loaded(Packets, 1), Found, 1, 1), Load(1), Pair(Loaded(Packets, 1), Loaded(Packets, 1), 1, 1));
    var t2 := t1 + [Load(1)];
    Go(t2, Pair(Loaded(Packets, 1), Loaded(Packets, 1), 1, 1), Store(0), Pair(Between, Loaded(Packets, 1), 2, 1));
    var t3 := t2 + [Store(0)];
    Go(t3, Pair(Between, Loaded(Packets, 1), 2, 1), Store(1), Pair(Between, Between, 2, 1));
    var t4 := t3 + [Store(1)];
    Go(t4, Pair(Between, Between, 2, 1), Load(0), Pair(Loaded(Bytes, 1), Between, 2, 1));
    var t5 := t4 + [Load(0)];
    Go(t5, Pair(Loaded(Bytes, 1), Between, 2, 1), Load(1), Pair(Loaded(Bytes, 1), Loaded(Bytes, 1), 2, 1));
    var t6 := t5 + [Load(1)];
    Go(t6, Pair(Loaded(Bytes, 1), Loaded(Bytes, 1), 2, 1), Store(0), Pair(Counted, Loaded(Bytes, 1), 2, 2));
    var t7 := t6 + [Store(0)];
    Go(t7, Pair(Counted, Loaded(Bytes, 1), 2, 2), Store(1), Pair(Counted, Counted, 2, 2));
    assert t7 + [Store(1)] == [Load(0), Load(1), Store(0), Store(1), Load(0), Load(1), Store(0), Store(1)];
    Whole([Load(0), Load(1), Store(0), Store(1), Load(0), Load(1), Store(0), Store(1)], 2, 2);
  }

  // The packets are lost that way, the bytes are added one after the other.
  lemma PacketsOnlyLost()
    ensures Ends([Load(0), Load(1), Store(0), Store(1), Load(0), Store(0), Load(1), Store(1)], 2, 3)
  {
    hide Ends, Reach;
    Start();
    var t0: seq<Step> := [];
    Go(t0, Pair(Found, Found, 1, 1), Load(0), Pair(Loaded(Packets, 1), Found, 1, 1));
    var t1 := t0 + [Load(0)];
    Go(t1, Pair(Loaded(Packets, 1), Found, 1, 1), Load(1), Pair(Loaded(Packets, 1), Loaded(Packets, 1), 1, 1));
    var t2 := t1 + [Load(1)];
    Go(t2, Pair(Loaded(Packets, 1), Loaded(Packets, 1), 1, 1), Store(0), Pair(Between, Loaded(Packets, 1), 2, 1));
    var t3 := t2 + [Store(0)];
    Go(t3, Pair(Between, Loaded(Packets, 1), 2, 1), Store(1), Pair(Between, Between, 2, 1));
    var t4 := t3 + [Store(1)];
    Go(t4, Pair(Between, Between, 2, 1), Load(0), Pair(Loaded(Bytes, 1), Between, 2, 1));
    var t5 := t4 + [Load(0)];
    Go(t5, Pair(Loaded(Bytes, 1), Between, 2, 1), Store(0), Pair(Counted, Between, 2, 2));
    var t6 := t5 + [Store(0)];
    Go(t6, Pair(Counted, Between, 2, 2), Load(1), Pair(Counted, Loaded(Bytes, 2), 2, 2));
    var t7 := t6 + [Load(1)];
    Go(t7, Pair(Counted, Loaded(Bytes, 2), 2, 2), Store(1), Pair(Counted, Counted, 2, 3));
    assert t7 + [Store(1)] == [Load(0), Load(1), Store(0), Store(1), Load(0), Store(0), Load(1), Store(1)];
    Whole([Load(0), Load(1), Store(0), Store(1), Load(0), Store(0), Load(1), Store(1)], 2, 3);
  }

  // Both have found the session before either counts, and nothing is lost.
  lemma FoundBusyAndExact()
    ensures Ends([Load(0), Store(0), Load(0), Store(0), Load(1), Store(1), Load(1), Store(1)], 3, 3)
    ensures var s := Exec(Boot(RULES, 2), BOTH_FIND[..4]); FindsBusy(s, BOTH_FIND[4], 0)
  {
    hide Ends, Reach;
    Start();
    var t0: seq<Step> := [];
    Go(t0, Pair(Found, Found, 1, 1), Load(0), Pair(Loaded(Packets, 1), Found, 1, 1));
    var t1 := t0 + [Load(0)];
    Go(t1, Pair(Loaded(Packets, 1), Found, 1, 1), Store(0), Pair(Between, Found, 2, 1));
    var t2 := t1 + [Store(0)];
    Go(t2, Pair(Between, Found, 2, 1), Load(0), Pair(Loaded(Bytes, 1), Found, 2, 1));
    var t3 := t2 + [Load(0)];
    Go(t3, Pair(Loaded(Bytes, 1), Found, 2, 1), Store(0), Pair(Counted, Found, 2, 2));
    var t4 := t3 + [Store(0)];
    Go(t4, Pair(Counted, Found, 2, 2), Load(1), Pair(Counted, Loaded(Packets, 2), 2, 2));
    var t5 := t4 + [Load(1)];
    Go(t5, Pair(Counted, Loaded(Packets, 2), 2, 2), Store(1), Pair(Counted, Between, 3, 2));
    var t6 := t5 + [Store(1)];
    Go(t6, Pair(Counted, Between, 3, 2), Load(1), Pair(Counted, Loaded(Bytes, 2), 3, 2));
    var t7 := t6 + [Load(1)];
    Go(t7, Pair(Counted, Loaded(Bytes, 2), 3, 2), Store(1), Pair(Counted, Counted, 3, 3));
    assert t7 + [Store(1)] == [Load(0), Store(0), Load(0), Store(0), Load(1), Store(1), Load(1), Store(1)];
    Whole([Load(0), Store(0), Load(0), Store(0), Load(1), Store(1), Load(1), Store(1)], 3, 3);
    SecondFinds();
  }

  lemma SecondFinds()
    ensures var s := Exec(Boot(RULES, 2), BOTH_FIND[..4]); FindsBusy(s, BOTH_FIND[4], 0)
  {
    var s0 := Boot(RULES, 2);
    var s1 := Next(s0, Arrive(0, FLOW, 1));
    var s2 := Next(s1, Choose(0));
    assert Remove(s2.sessions, {}) == map[];
    var s3 := Next(s2, Create(0, true, {}));
    var s4 := Next(s3, Arrive(0, FLOW, 1));
    assert On(s4.cpus[0].phase, 0) && FindsBusy(s4, Arrive(1, FLOW, 1), 0);
    hide Next, Enabled, FindsBusy;
    var t0: seq<Step> := [];
    var t1 := t0 + [Arrive(0, FLOW, 1)];
    var t2 := t1 + [Choose(0)];
    var t3 := t2 + [Create(0, true, {})];
    ExecSnoc(s0, t0, Arrive(0, FLOW, 1), s0, s1);
    ExecSnoc(s0, t1, Choose(0), s1, s2);
    ExecSnoc(s0, t2, Create(0, true, {}), s2, s3);
    ExecSnoc(s0, t3, Arrive(0, FLOW, 1), s3, s4);
    assert t3 + [Arrive(0, FLOW, 1)] == BOTH_FIND[..4];
  }
}
