/** Deciding while the policies may change: the exact lookup, each slot of the scan and the final read
    of the action see the policies of their own moments. */
module FilterScan {
  import opened FilterPolicy

  // The exact lookup, SCAN_LIMIT slots, and the read through best_match.
  const FULL: nat := SCAN_LIMIT + 2

  // The scan when slot i is read from ps[i].
  function ScanOf(ps: seq<Policies>, k: FlowKey): Best {
    if ps == [] then NoBest else
    var n := |ps| - 1;
    Consider(ps[n], k, n, ScanOf(ps[..n], k))
  }

  // The scan that goes on from slot from, with the best so far, to slot n.
  function ScanFrom(p: Policies, k: FlowKey, from: nat, b: Best, n: nat): Best
    requires from <= n
    decreases n
  {
    if n == from then b else Consider(p, k, n - 1, ScanFrom(p, k, from, b, n - 1))
  }

  lemma {:induction false} ScanFromStart(p: Policies, k: FlowKey, n: nat)
    ensures ScanFrom(p, k, 0, NoBest, n) == BestBelow(p, k, n)
  {
    if n > 0 {
      ScanFromStart(p, k, n - 1);
    }
  }

  // times[0] is the moment of the exact lookup, times[1 + i] that of slot i, and the last one that of
  // the read through best_match, as positions in the history h of policies.
  predicate InOrder(times: seq<nat>, n: nat) {
    (forall i | 0 <= i < |times| :: times[i] < n) && forall i, j | 0 <= i <= j < |times| :: times[i] <= times[j]
  }

  function At(h: seq<Policies>, times: seq<nat>): (ps: seq<Policies>)
    requires InOrder(times, |h|)
    ensures |ps| == |times| && forall i | 0 <= i < |ps| :: ps[i] == h[times[i]]
  {
    seq(|times|, i requires 0 <= i < |times| => h[times[i]])
  }

  // An exact rule was found at once, or the scan went all the way.
  predicate Complete(h: seq<Policies>, times: seq<nat>, k: FlowKey) {
    InOrder(times, |h|) && times != [] && |times| == if k in h[times[0]].exact then 1 else FULL
  }

  // The decision of a packet with these reads.
  function DecisionOf(h: seq<Policies>, times: seq<nat>, k: FlowKey): Decision
    requires Complete(h, times, k)
  {
    var ps := At(h, times);
    if k in ps[0].exact then Exactly(ps[0].exact[k]) else Outcome(ps[FULL - 1], ScanOf(ps[1..FULL - 1], k))
  }

  // --- a longer history

  lemma LongerHistory(h: seq<Policies>, p: Policies, times: seq<nat>, k: FlowKey)
    requires Complete(h, times, k)
    ensures Complete(h + [p], times, k) && DecisionOf(h + [p], times, k) == DecisionOf(h, times, k)
  {
    assert At(h + [p], times) == At(h, times);
  }

  // --- one snapshot

  lemma {:induction false} ScanOfOne(p: Policies, n: nat, k: FlowKey)
    ensures ScanOf(seq(n, _ => p), k) == BestBelow(p, k, n)
  {
    if n > 0 {
      assert seq(n, _ => p)[..n - 1] == seq(n - 1, _ => p);
      ScanOfOne(p, n - 1, k);
    }
  }

  // Policies that do not change between the first and the last read decide.
  lemma Undisturbed(h: seq<Policies>, times: seq<nat>, k: FlowKey)
    requires Complete(h, times, k) && times[0] == times[|times| - 1]
    ensures DecisionOf(h, times, k) == Decide(h[times[0]], k)
  {
    var p := h[times[0]];
    if k !in p.exact {
      assert At(h, times)[1..FULL - 1] == seq(SCAN_LIMIT, _ => p);
      ScanOfOne(p, SCAN_LIMIT, k);
    }
  }

  // The decision is that of some policies in force between the first and the last read.
  ghost predicate OneSnapshot(h: seq<Policies>, times: seq<nat>, k: FlowKey)
    requires Complete(h, times, k)
  {
    exists v | times[0] <= v <= times[|times| - 1] :: DecisionOf(h, times, k) == Decide(h[v], k)
  }

  // Whatever the policies are, and for every flow whose decision takes these reads.
  ghost predicate Faithful(times: seq<nat>) {
    forall h: seq<Policies>, k: FlowKey | Complete(h, times, k) :: OneSnapshot(h, times, k)
  }

  // A scan can be trusted to decide by policies that were in force if and only if no change falls
  // between its first and its last read.
  lemma SnapshotExact(times: seq<nat>)
    requires |times| == FULL && InOrder(times, times[FULL - 1] + 1)
    ensures Faithful(times) <==> times[0] == times[FULL - 1]
  {
    hide DecisionOf, Decide;
    if times[0] == times[FULL - 1] {
      forall h: seq<Policies>, k: FlowKey | Complete(h, times, k) ensures OneSnapshot(h, times, k) {
        Undisturbed(h, times, k);
      }
    } else {
      var c := FirstChange(times);
      var (p, q) := Torn(c);
      var h := Changed(p, q, times[c], times[FULL - 1] + 1);
      assert At(h, times) == seq(c, _ => p) + seq(FULL - c, _ => q);
      NotOneSnapshot(h, times, c);
    }
  }

  // Reads that are torn between the two policies are those of neither.
  lemma NotOneSnapshot(h: seq<Policies>, times: seq<nat>, c: nat)
    requires |times| == FULL && InOrder(times, |h|) && 1 <= c < FULL
    requires forall x | x in h :: x == Torn(c).0 || x == Torn(c).1
    requires At(h, times) == seq(c, _ => Torn(c).0) + seq(FULL - c, _ => Torn(c).1)
    ensures Complete(h, times, FLOW) && !OneSnapshot(h, times, FLOW)
  {
    hide DecisionOf, Decide;
    var (p, q) := Torn(c);
    assert h[times[0]] == At(h, times)[0] == p;
    TornDecision(c);
    MixedIs(h, times, p, q, c);
    forall v | times[0] <= v <= times[|times| - 1] ensures DecisionOf(h, times, FLOW) != Decide(h[v], FLOW) {
      assert h[v] in h;
    }
  }

  // --- policies that a change between two reads mixes up

  const FLOW: FlowKey := FlowKey(0, 0, 0, 0, 0)

  // A rule for every flow.
  function AnyFlow(action: nat, priority: nat): Wildcard {
    Wildcard(0, 0, 0, 0, 0, 0, 0, action, priority, 1)
  }

  const DENY_ALL: Wildcard := AnyFlow(POLICY_ACTION_DENY, 0)

  function EmptySlots(n: nat): seq<Wildcard> {
    seq(n, _ => EMPTY_SLOT)
  }

  // Policies before and after a change that falls right before read c.
  function Torn(c: nat): (Policies, Policies)
    requires 1 <= c < FULL
  {
    if c == 1 then (Policies(map[], [DENY_ALL]), Policies(map[FLOW := Rule(POLICY_ACTION_DENY, 1)], [EMPTY_SLOT]))
    else if c < FULL - 1 then
      (Policies(map[], EmptySlots(c - 1) + [DENY_ALL]), Policies(map[], [DENY_ALL] + EmptySlots(c - 1)))
    else
      (Policies(map[], [AnyFlow(POLICY_ACTION_DENY, 1), AnyFlow(POLICY_ACTION_ALLOW, 0)]),
       Policies(map[], [AnyFlow(POLICY_ACTION_ALLOW, 0), AnyFlow(POLICY_ACTION_DENY, 1)]))
  }

  // The history that changes from p to q at position at.
  function Changed(p: Policies, q: Policies, at: nat, n: nat): seq<Policies> {
    seq(n, v => if v < at then p else q)
  }

  function FirstChange(times: seq<nat>): (c: nat)
    requires |times| == FULL && times[0] != times[FULL - 1]
    ensures 1 <= c < FULL && times[c - 1] == times[0] && times[c] != times[0]
  {
    ChangeFrom(times, 1)
  }

  function ChangeFrom(times: seq<nat>, i: nat): (c: nat)
    requires |times| == FULL && times[0] != times[FULL - 1] && 1 <= i < FULL && times[i - 1] == times[0]
    ensures 1 <= c < FULL && times[c - 1] == times[0] && times[c] != times[0]
    decreases FULL - i
  {
    if times[i] != times[0] then i else ChangeFrom(times, i + 1)
  }

  // Both policies deny the flow, what is read of them allows it.
  lemma TornDecision(c: nat)
    requires 1 <= c < FULL
    ensures var (p, q) := Torn(c);
      Decide(p, FLOW).action == Decide(q, FLOW).action == POLICY_ACTION_DENY
      && FLOW !in p.exact && Mixed(p, q, c).action == POLICY_ACTION_ALLOW
  {
    hide BestBelow, ScanFrom;
    var (p, q) := Torn(c);
    BestBelowIs(p, FLOW, SCAN_LIMIT);
    BestBelowIs(q, FLOW, SCAN_LIMIT);
    BestBelowIs(p, FLOW, c - 1);
    assert Eligible(p, FLOW, if c == FULL - 1 then 0 else c - 1);
    if c == FULL - 1 {
      assert Eligible(q, FLOW, 1);
      OthersEmpty(q, c - 1, BestBelow(p, FLOW, c - 1), SCAN_LIMIT);
    } else {
      assert c > 1 ==> Eligible(q, FLOW, 0);
      OthersEmpty(q, c - 1, BestBelow(p, FLOW, c - 1), SCAN_LIMIT);
    }
  }

  lemma {:induction false} OthersEmpty(q: Policies, from: nat, b: Best, n: nat)
    requires from <= n && forall i | from <= i < n :: Slot(q, i).ruleId == 0
    ensures ScanFrom(q, FLOW, from, b, n) == b
    decreases n
  {
    if n > from {
      OthersEmpty(q, from, b, n - 1);
    }
  }

  // The scan that reads the first slots from p and the others from q.
  function Mixed(p: Policies, q: Policies, c: nat): Decision
    requires 1 <= c < FULL
  {
    Outcome(q, ScanFrom(q, FLOW, c - 1, BestBelow(p, FLOW, c - 1), SCAN_LIMIT))
  }

  lemma MixedIs(h: seq<Policies>, times: seq<nat>, p: Policies, q: Policies, c: nat)
    requires 1 <= c < FULL && Complete(h, times, FLOW) && FLOW !in p.exact
    requires At(h, times) == seq(c, _ => p) + seq(FULL - c, _ => q)
    ensures DecisionOf(h, times, FLOW) == Mixed(p, q, c)
  {
    hide ScanOf, BestBelow;
    ScanMixed(At(h, times)[1..FULL - 1], p, q, c - 1);
  }

  lemma {:induction false} ScanMixed(ps: seq<Policies>, p: Policies, q: Policies, m: nat)
    requires forall i | 0 <= i < |ps| :: ps[i] == if i < m then p else q
    ensures ScanOf(ps, FLOW) ==
      if |ps| <= m then BestBelow(p, FLOW, |ps|) else ScanFrom(q, FLOW, m, BestBelow(p, FLOW, m), |ps|)
    decreases |ps|
  {
    if ps != [] {
      ScanMixed(ps[..|ps| - 1], p, q, m);
    }
  }
}
