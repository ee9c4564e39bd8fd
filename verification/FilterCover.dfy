/** Which flows a wildcard rule covers, and what that makes of the filter's verdicts.  Addresses are
    compared bit by bit, so it does not matter in which byte order they are read as numbers. */
module FilterCover {
  import opened Masks
  import opened FilterPolicy
  import opened FilterRun
  import opened FilterSafe

  // --- coverage

  function Choose(fixed: nat, free: nat): nat {
    if fixed == 0 then free else fixed
  }

  // The flow of a rule with these choices for what the rule leaves open.
  function Fill(w: Wildcard, free: FlowKey): FlowKey {
    FlowKey(Mixed(w.srcIp, w.srcIpMask, free.srcIp), Mixed(w.dstIp, w.dstIpMask, free.dstIp),
            Choose(w.srcPort, free.srcPort), Choose(w.dstPort, free.dstPort), Choose(w.protocol, free.protocol))
  }

  ghost predicate Arises(k: FlowKey, w: Wildcard) {
    exists free :: k == Fill(w, free)
  }

  // A rule covers exactly the flows that arise from it by choosing the address bits outside the masks
  // and the ports and the protocol that are 0.
  lemma Covers(k: FlowKey, w: Wildcard)
    ensures Matches(k, w) <==> Arises(k, w)
  {
    hide Mixed, Agree;
    MixedSame(k.srcIp, w.srcIp, w.srcIpMask);
    MixedSame(k.dstIp, w.dstIp, w.dstIpMask);
    if Matches(k, w) {
      assert k == Fill(w, k);
    }
    if free :| k == Fill(w, free) {
      MixedFits(free.srcIp, w.srcIp, w.srcIpMask);
      MixedFits(free.dstIp, w.dstIp, w.dstIpMask);
    }
  }

  predicate LeavesNothingOpen(w: Wildcard) {
    w.srcIpMask == w.dstIpMask == ALL_ONES && w.srcPort != 0 && w.dstPort != 0 && w.protocol != 0
  }

  // With full masks and nonzero fields that is its own flow only.
  lemma CoversOne(k: FlowKey, w: Wildcard)
    requires LeavesNothingOpen(w)
    ensures Matches(k, w) <==> k == FlowKey(w.srcIp, w.dstIp, w.srcPort, w.dstPort, w.protocol)
  {
    hide Agree;
    AgreeWholly(k.srcIp, w.srcIp);
    AgreeWholly(k.dstIp, w.dstIp);
  }

  // With prefix masks and the rest left open, it is an interval of sources and one of destinations.
  lemma CoversIntervals(k: FlowKey, w: Wildcard)
    requires IsPrefix(w.srcIpMask) && IsPrefix(w.dstIpMask) && w.srcPort == w.dstPort == w.protocol == 0
    ensures Matches(k, w) <==> InBlock(k.srcIp, w.srcIp, w.srcIpMask) && InBlock(k.dstIp, w.dstIp, w.dstIpMask)
  {
    hide IsPrefix, Agree, InBlock;
    PrefixIsInterval(k.srcIp, w.srcIp, w.srcIpMask);
    PrefixIsInterval(k.dstIp, w.dstIp, w.dstIpMask);
  }

  // --- verdicts

  // One wildcard rule, in this slot of a map whose other slots are empty.
  function OnlyRule(w: Wildcard, slot: nat): Policies {
    Policies(map[], seq(slot, _ => EMPTY_SLOT) + [w])
  }

  lemma OnlyRuleDecides(w: Wildcard, slot: nat, k: FlowKey)
    requires slot < SCAN_LIMIT && w.ruleId != 0
    ensures Decide(OnlyRule(w, slot), k) == if Arises(k, w) then Decision(w.action, w.ruleId, true) else DEFAULT
  {
    hide Matches, Arises, Decide;
    var p := OnlyRule(w, slot);
    Covers(k, w);
    assert Slot(p, slot) == w;
    assert forall i: nat | i != slot :: Slot(p, i) == EMPTY_SLOT;
    if Arises(k, w) {
      assert IsBest(p, k, slot);
      forall i: nat | IsBest(p, k, i) ensures i == slot {
        assert Eligible(p, k, i);
      }
    } else {
      assert forall i: nat :: !IsBest(p, k, i);
    }
    var d := if Arises(k, w) then Decision(w.action, w.ruleId, true) else DEFAULT;
    assert Decides(p, k, d);
    DecideIsMeant(p, k, d);
  }

  // With one denying rule, whatever the interleaving and the evictions, the packets denied are exactly
  // those of the flows that arise from the rule.
  lemma DeniesWhatArises(w: Wildcard, slot: nat, n: nat, ts: seq<Step>, i: nat)
    requires slot < SCAN_LIMIT && w.ruleId != 0 && w.action == POLICY_ACTION_DENY
    requires forall t | t in ts :: !t.SetPolicies?
    requires var s := Exec(Boot(OnlyRule(w, slot), n), ts); i < |s.log| && s.log[i].Verdict?
    ensures var e := Exec(Boot(OnlyRule(w, slot), n), ts).log[i]; e.denied <==> Arises(e.key, w)
  {
    hide Arises, Decide, OnlyRule, Exec;
    var p := OnlyRule(w, slot);
    CacheTransparent(p, n, ts, i);
    OnlyRuleDecides(w, slot, Exec(Boot(p, n), ts).log[i].key);
  }
}
