/** Policies of the microsegmentation filter: exact rules first, then the best of the wildcard rules. */
module FilterPolicy {
  import opened Masks

  datatype FlowKey = FlowKey(srcIp: bv32, dstIp: bv32, srcPort: nat, dstPort: nat, protocol: nat)

  datatype Rule = Rule(action: nat, ruleId: nat)

  datatype Wildcard = Wildcard(
    srcIp: bv32, srcIpMask: bv32, dstIp: bv32, dstIpMask: bv32,
    srcPort: nat, dstPort: nat, protocol: nat, action: nat, priority: nat, ruleId: nat)

  datatype Policies = Policies(exact: map<FlowKey, Rule>, wild: seq<Wildcard>)

  const POLICY_ACTION_ALLOW: nat := 0
  const POLICY_ACTION_DENY: nat := 1
  const SCAN_LIMIT: nat := 100

  const TWO64: nat := 0x1_0000_0000_0000_0000

  // A 64-bit counter goes up.
  function Inc(x: nat): nat { (x + 1) % TWO64 }

  // matches_wildcard
  predicate Matches(k: FlowKey, w: Wildcard) {
    Agree(k.srcIp, w.srcIp, w.srcIpMask) && Agree(k.dstIp, w.dstIp, w.dstIpMask)
    && (w.srcPort == 0 || k.srcPort == w.srcPort)
    && (w.dstPort == 0 || k.dstPort == w.dstPort)
    && (w.protocol == 0 || k.protocol == w.protocol)
  }

  // A slot of the array map; an empty one is all zeros, as is what a lookup beyond the map finds.
  const EMPTY_SLOT: Wildcard := Wildcard(0, 0, 0, 0, 0, 0, 0, POLICY_ACTION_ALLOW, 0, 0)

  function Slot(p: Policies, i: nat): Wildcard {
    if i < |p.wild| then p.wild[i] else EMPTY_SLOT
  }

  // Slot i is scanned, in use, and matches.
  predicate Eligible(p: Policies, k: FlowKey, i: nat) {
    i < SCAN_LIMIT && Slot(p, i).ruleId != 0 && Matches(k, Slot(p, i))
  }

  // Slot i beats slot j: higher priority, or the same and an earlier slot.
  predicate Beats(p: Policies, i: nat, j: nat) {
    Slot(p, i).priority > Slot(p, j).priority || (Slot(p, i).priority == Slot(p, j).priority && i <= j)
  }

  ghost predicate IsBest(p: Policies, k: FlowKey, i: nat) {
    Eligible(p, k, i) && forall j: nat | Eligible(p, k, j) :: Beats(p, i, j)
  }

  // What the filter decides for a flow, and whether a rule said so.
  datatype Decision = Decision(action: nat, ruleId: nat, hit: bool)

  const DEFAULT: Decision := Decision(POLICY_ACTION_ALLOW, 0, false)

  // The decision as the policies mean it.
  ghost predicate Decides(p: Policies, k: FlowKey, d: Decision) {
    if k in p.exact then d == Decision(p.exact[k].action, p.exact[k].ruleId, true)
    else if exists i: nat :: IsBest(p, k, i) then
      exists i: nat :: IsBest(p, k, i) && d == Decision(Slot(p, i).action, Slot(p, i).ruleId, true)
    else d == DEFAULT
  }

  // The scan so far: the slot best_match points at, and its priority when it was read.
  datatype Best = NoBest | Best(slot: nat, priority: nat)

  function Consider(p: Policies, k: FlowKey, i: nat, b: Best): Best {
    var w := Slot(p, i);
    if w.ruleId != 0 && Matches(k, w) && (b.NoBest? || w.priority > b.priority) then Best(i, w.priority) else b
  }

  // best_match is a pointer into the map: action and rule are read through it when the scan is over.
  function Outcome(p: Policies, b: Best): Decision {
    if b.NoBest? then DEFAULT else Decision(Slot(p, b.slot).action, Slot(p, b.slot).ruleId, true)
  }

  // The best of the first n slots.
  function BestBelow(p: Policies, k: FlowKey, n: nat): Best {
    if n == 0 then NoBest else Consider(p, k, n - 1, BestBelow(p, k, n - 1))
  }

  lemma {:induction false} BestBelowIs(p: Policies, k: FlowKey, n: nat)
    requires n <= SCAN_LIMIT
    ensures var b := BestBelow(p, k, n);
      if b.Best? then
        b.slot < n && b.priority == Slot(p, b.slot).priority && Eligible(p, k, b.slot)
        && forall j: nat | j < n && Eligible(p, k, j) :: Beats(p, b.slot, j)
      else forall j: nat | j < n :: !Eligible(p, k, j)
  {
    if n > 0 {
      BestBelowIs(p, k, n - 1);
    }
  }

  function Exactly(r: Rule): Decision {
    Decision(r.action, r.ruleId, true)
  }

  function Decide(p: Policies, k: FlowKey): Decision {
    if k in p.exact then Exactly(p.exact[k]) else Outcome(p, BestBelow(p, k, SCAN_LIMIT))
  }

  // The scan finds the one decision that the policies mean.
  lemma DecideIsMeant(p: Policies, k: FlowKey, d: Decision)
    ensures Decides(p, k, d) <==> d == Decide(p, k)
  {
    var b := BestBelow(p, k, SCAN_LIMIT);
    BestBelowIs(p, k, SCAN_LIMIT);
    if b.Best? {
      assert IsBest(p, k, b.slot);
      forall i: nat | IsBest(p, k, i) ensures i == b.slot {
        assert Beats(p, i, b.slot) && Beats(p, b.slot, i);
      }
    } else {
      assert forall i: nat :: Eligible(p, k, i) ==> i < SCAN_LIMIT;
      assert forall i: nat :: !IsBest(p, k, i);
    }
  }

  // Slots beyond the map change nothing.
  lemma {:induction false} BestBeyond(p: Policies, k: FlowKey, n: nat)
    requires n >= |p.wild|
    ensures BestBelow(p, k, n) == BestBelow(p, k, |p.wild|)
    decreases n
  {
    if n > |p.wild| {
      BestBeyond(p, k, n - 1);
    }
  }

  // lookup_policy_action while nobody changes the policies: exact rule, else a scan of the slots; hits
  // are the hit counts of the exact rules.
  method LookupPolicyAction(p: Policies, k: FlowKey, hits: map<FlowKey, nat>)
    returns (action: nat, ruleId: nat, hit: bool, hits2: map<FlowKey, nat>)
    requires p.exact.Keys == hits.Keys
    ensures Decision(action, ruleId, hit) == Decide(p, k)
    ensures hits2 == if k in p.exact then hits[k := Inc(hits[k])] else hits
  {
    hits2 := hits;
    if k in p.exact {
      hits2 := hits2[k := Inc(hits2[k])];
      return p.exact[k].action, p.exact[k].ruleId, true, hits2;
    }
    var bestMatch := -1;
    var bestPriority := 0;
    var i := 0;
    while i < SCAN_LIMIT
      invariant 0 <= i <= SCAN_LIMIT
      invariant var b := BestBelow(p, k, i);
        if b.Best? then 0 <= bestMatch < |p.wild| && b == Best(bestMatch, bestPriority) else bestMatch == -1
    {
      if i >= |p.wild| {
        BestBeyond(p, k, i);
        BestBeyond(p, k, SCAN_LIMIT);
        break;
      }
      if p.wild[i].ruleId != 0 && Matches(k, p.wild[i]) {
        if bestMatch == -1 || p.wild[i].priority > bestPriority {
          bestMatch := i;
          bestPriority := p.wild[i].priority;
        }
      }
      i := i + 1;
    }
    if bestMatch != -1 {
      return p.wild[bestMatch].action, p.wild[bestMatch].ruleId, true, hits2;
    }
    return POLICY_ACTION_ALLOW, 0, false, hits2;
  }
}
