/** Putting runs of the filter together: one run after the other, undisturbed scans, and a run in which
    policies change in the middle of one. */
module FilterSteps {
  import opened FilterPolicy
  import opened FilterScan
  import opened FilterRun

  lemma ExecSnoc(s: State, ts: seq<Step>, t: Step, a: State, b: State)
    requires Exec(s, ts) == a && Enabled(a, t) && Next(a, t) == b
    ensures Exec(s, ts + [t]) == b
  {
    assert (ts + [t])[..|ts|] == ts;
  }

  lemma {:induction false} ExecConcat(s: State, ts: seq<Step>, us: seq<Step>)
    ensures Exec(s, ts + us) == Exec(Exec(s, ts), us)
    decreases |us|
  {
    hide Next, Enabled;
    if us == [] {
      assert ts + us == ts;
    } else {
      var n := |us| - 1;
      ExecConcat(s, ts, us[..n]);
      assert (ts + us)[..|ts| + n] == ts + us[..n];
    }
  }

  // m slots, one after the other.
  function Scans(i: nat, m: nat): seq<Step> {
    seq(m, _ => Scan(i))
  }

  // A scan that has gone on for m slots while nothing else happened.
  function ScannedOn(s: State, i: nat, m: nat): State
    requires i < |s.cpus| && s.cpus[i].phase.Scanning? && s.cpus[i].phase.times != []
  {
    var q := s.cpus[i].phase;
    var from := |q.times| - 1;
    SetCpu(s, i, Cpu(q.(times := q.times + seq(m, _ => |s.past|), best := ScanFrom(s.policies, q.key, from, q.best, from + m)),
                     s.cpus[i].counters))
  }

  lemma {:induction false} ScanRun(s: State, i: nat, m: nat)
    requires i < |s.cpus| && s.cpus[i].phase.Scanning? && 0 < |s.cpus[i].phase.times|
    requires |s.cpus[i].phase.times| + m <= SCAN_LIMIT + 1
    ensures Exec(s, Scans(i, m)) == ScannedOn(s, i, m)
  {
    hide Consider;
    var q := s.cpus[i].phase;
    if m == 0 {
      assert q.times + seq(0, _ => |s.past|) == q.times;
    } else {
      ScanRun(s, i, m - 1);
      assert Scans(i, m) == Scans(i, m - 1) + [Scan(i)];
      assert seq(m, _ => |s.past|) == seq(m - 1, _ => |s.past|) + [|s.past|];
      var a := ScannedOn(s, i, m - 1);
      assert q.times + seq(m, _ => |s.past|) == a.cpus[i].phase.times + [|s.past|];
      ExecSnoc(s, Scans(i, m - 1), Scan(i), a, ScannedOn(s, i, m));
    }
  }

  // --- a torn scan

  const P0: Policies := Policies(map[], [EMPTY_SLOT, DENY_ALL])
  const P1: Policies := Policies(map[], [DENY_ALL, DENY_ALL])
  const P2: Policies := Policies(map[], [DENY_ALL, EMPTY_SLOT])

  // Slot 0 has been read when the rule of slot 1 is copied there and slot 1 is emptied.
  const UP_TO_CHANGE: seq<Step> := [Arrive(0, FLOW, 1), Choose(0), Scan(0), SetPolicies(P1), SetPolicies(P2)]
  const AFTER_SCAN: seq<Step> := [Conclude(0), Create(0, true, {})]

  // A rule moves from slot 1 to slot 0 in two writes.  The policies deny the flow at every moment; a
  // scan that has read slot 0 before the first write and reads slot 1 after the second allows it,
  // and the session caches that.
  lemma TornScan()
    ensures Decide(P0, FLOW).action == Decide(P1, FLOW).action == Decide(P2, FLOW).action == POLICY_ACTION_DENY
    ensures var s := Exec(Boot(P0, 1), UP_TO_CHANGE + Scans(0, SCAN_LIMIT - 1) + AFTER_SCAN);
      s.log != [] && s.log[|s.log| - 1] == VerdictOn(0, FLOW, 1, POLICY_ACTION_ALLOW, 0, 0)
      && FLOW in s.sessions && s.sessions[FLOW].action == POLICY_ACTION_ALLOW && s.policies == P2
  {
    hide BestBelow, ScanFrom, Exec;
    forall p | p == P0 || p == P1 || p == P2 ensures Decide(p, FLOW).action == POLICY_ACTION_DENY {
      BestBelowIs(p, FLOW, SCAN_LIMIT);
      assert Eligible(p, FLOW, if p == P0 then 1 else 0);
    }
    BeforeChange();
    var s, s5 := Boot(P0, 1), CHANGED;
    var more := Scans(0, SCAN_LIMIT - 1);
    ScanRun(s5, 0, SCAN_LIMIT - 1);
    OthersEmpty(P2, 1, NoBest, SCAN_LIMIT);
    var s6 := ScannedOn(s5, 0, SCAN_LIMIT - 1);
    ExecConcat(s, UP_TO_CHANGE, more);
    AfterScan(s6);
    ExecConcat(s, UP_TO_CHANGE + more, AFTER_SCAN);
  }

  const CHANGED: State :=
    State([P0, P1], P2, map[], [Cpu(Scanning(0, FLOW, 1, [0, 0], NoBest), ZERO.(total := 1))], 1, [], 0, 0)

  lemma BeforeChange()
    ensures Exec(Boot(P0, 1), UP_TO_CHANGE) == CHANGED
  {
    var s0 := Boot(P0, 1);
    var s1 := Next(s0, Arrive(0, FLOW, 1));
    var s2 := Next(s1, Choose(0));
    var s3 := Next(s2, Scan(0));
    var s4 := Next(s3, SetPolicies(P1));
    var s5 := Next(s4, SetPolicies(P2));
    assert s3.cpus[0].phase == Scanning(0, FLOW, 1, [0, 0], NoBest);
    assert s5.cpus == CHANGED.cpus && s5.past == CHANGED.past;
    hide Next, Enabled;
    var t0: seq<Step> := [];
    var t1 := t0 + [Arrive(0, FLOW, 1)];
    var t2 := t1 + [Choose(0)];
    var t3 := t2 + [Scan(0)];
    var t4 := t3 + [SetPolicies(P1)];
    ExecSnoc(s0, t0, Arrive(0, FLOW, 1), s0, s1);
    ExecSnoc(s0, t1, Choose(0), s1, s2);
    ExecSnoc(s0, t2, Scan(0), s2, s3);
    ExecSnoc(s0, t3, SetPolicies(P1), s3, s4);
    ExecSnoc(s0, t4, SetPolicies(P2), s4, s5);
    assert t4 + [SetPolicies(P2)] == UP_TO_CHANGE;
  }

  lemma AfterScan(s: State)
    requires |s.cpus| == 1 && s.cpus[0].phase.Scanning?
    requires var q := s.cpus[0].phase;
      |q.times| == SCAN_LIMIT + 1 && q.best == NoBest && q.pkt == 0 && q.key == FLOW && q.len == 1
    requires s.sessions == map[]
    ensures var r := Exec(s, AFTER_SCAN);
      r.log != [] && r.log[|r.log| - 1] == VerdictOn(0, FLOW, 1, POLICY_ACTION_ALLOW, 0, 0)
      && FLOW in r.sessions && r.sessions[FLOW].action == POLICY_ACTION_ALLOW && r.policies == s.policies
  {
    var a := Next(s, Conclude(0));
    assert Remove(a.sessions, {}) == map[];
    var b := Next(a, Create(0, true, {}));
    ExecSnoc(s, [], Conclude(0), s, a);
    ExecSnoc(s, [Conclude(0)], Create(0, true, {}), a, b);
  }
}
