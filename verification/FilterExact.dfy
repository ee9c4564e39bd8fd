/** When the counters of a session are exact.  Each of the two is loaded and stored in steps of its own,
    and on any number of CPUs it is exact if and only if no CPU stored it between another one's load and
    store. */
module FilterExact {
  import opened FilterPolicy
  import opened FilterScan
  import opened FilterRun
  import opened FilterTrack

  // --- what the log says about the session that packet c created

  // The packets, or their bytes, of the verdicts with that cause.
  function Logged(log: seq<Event>, x: Counter, c: nat): nat {
    if log == [] then 0 else
    var n := |log| - 1;
    Logged(log[..n], x, c) + (if log[n].Verdict? && log[n].cause == c then (if x == Packets then 1 else log[n].len) else 0)
  }

  predicate On(q: Phase, c: nat) {
    q.Hit? && q.creator == c
  }

  // The CPU has counted its packet and has no verdict yet.
  predicate Ahead(q: Phase, x: Counter, c: nat) {
    On(q, c) && (q.stage.Counted? || (x == Packets && (q.stage.Between? || (q.stage.Loaded? && q.stage.x == Bytes))))
  }

  function Gain(q: Phase, x: Counter, c: nat): nat {
    if Ahead(q, x, c) then Amount(x, q.len) else 0
  }

  function InHand(cs: seq<Cpu>, x: Counter, c: nat): nat {
    if cs == [] then 0 else
    var n := |cs| - 1;
    InHand(cs[..n], x, c) + Gain(cs[n].phase, x, c)
  }

  // What has been added to the counter since the session was created.
  function Total(s: State, x: Counter, c: nat): nat {
    Logged(s.log, x, c) + InHand(s.cpus, x, c)
  }

  lemma LogSnoc(log: seq<Event>, e: Event, x: Counter, c: nat)
    ensures Logged(log + [e], x, c) == Logged(log, x, c) + (if e.Verdict? && e.cause == c then Amount(x, e.len) else 0)
  {
    assert (log + [e])[..|log|] == log;
  }

  lemma {:induction false} HandChange(cs: seq<Cpu>, i: nat, y: Cpu, x: Counter, c: nat)
    requires i < |cs|
    ensures InHand(cs[i := y], x, c) + Gain(cs[i].phase, x, c) == InHand(cs, x, c) + Gain(y.phase, x, c)
    decreases |cs|
  {
    hide Gain;
    var n := |cs| - 1;
    if i == n {
      assert cs[i := y][..n] == cs[..n];
    } else {
      assert cs[i := y][..n] == cs[..n][i := y];
      HandChange(cs[..n], i, y, x, c);
    }
  }

  lemma {:induction false} NothingInHand(cs: seq<Cpu>, x: Counter, c: nat)
    requires forall y | y in cs :: !On(y.phase, c)
    ensures InHand(cs, x, c) == 0
    decreases |cs|
  {
    if cs != [] {
      var n := |cs| - 1;
      assert cs[n] in cs && forall y | y in cs[..n] :: y in cs;
      NothingInHand(cs[..n], x, c);
    }
  }

  // --- packet numbers

  predicate Slow(q: Phase) {
    q.Missed? || q.Scanning? || q.Decided?
  }

  // Packet pkt has no session, and no verdict yet.
  ghost predicate Fresh(s: State, lost: set<nat>, x: Counter, pkt: nat) {
    pkt !in lost && Logged(s.log, x, pkt) == 0 && (forall i | 0 <= i < |s.cpus| :: !On(s.cpus[i].phase, pkt))
    && forall k | k in s.sessions :: s.sessions[k].creator != pkt
  }

  // Each session and each slow packet has a number of its own, and a session is found under its own key.
  ghost predicate Numbered(s: State, lost: set<nat>, x: Counter) {
    (forall c | c >= s.next :: Fresh(s, lost, x, c))
    && (forall k | k in s.sessions :: s.sessions[k].creator < s.next)
    && (forall k, l | k in s.sessions && l in s.sessions && k != l :: s.sessions[k].creator != s.sessions[l].creator)
    && (forall i | 0 <= i < |s.cpus| && s.cpus[i].phase.Hit? :: HitKey(s, s.cpus[i].phase))
    && (forall i | 0 <= i < |s.cpus| && Slow(s.cpus[i].phase) ::
          s.cpus[i].phase.pkt < s.next && Fresh(s, lost, x, s.cpus[i].phase.pkt))
    && forall i, j | 0 <= i < j < |s.cpus| && Slow(s.cpus[i].phase) && Slow(s.cpus[j].phase) ::
         s.cpus[i].phase.pkt != s.cpus[j].phase.pkt
  }

  ghost predicate HitKey(s: State, q: Phase)
    requires q.Hit?
  {
    q.creator < s.next && forall k | k in s.sessions && s.sessions[k].creator == q.creator :: k == q.key
  }

  // --- one counter of one session

  // Nothing was lost: the counter is the total, to its width.
  predicate Full(s: State, x: Counter, k: FlowKey)
    requires k in s.sessions
  {
    Field(s.sessions[k], x) == Total(s, x, s.sessions[k].creator) % TWO64
  }

  // A CPU that is not out of date holds the counter's value.
  ghost predicate UpToDate(s: State, stale: set<nat>, x: Counter, k: FlowKey)
    requires k in s.sessions
  {
    forall i | 0 <= i < |s.cpus| && Holds(s.cpus[i].phase, x, s.sessions[k].creator) && i !in stale ::
      s.cpus[i].phase.stage.value == Field(s.sessions[k], x)
  }

  // Below wrap-around nothing exceeds the total; a value out of date, and a counter that lost one, falls short.
  ghost predicate Short(s: State, t: Tracker, x: Counter, k: FlowKey)
    requires k in s.sessions
  {
    var e, total := s.sessions[k], Total(s, x, s.sessions[k].creator);
    total < TWO64 ==>
      Field(e, x) <= total && (e.creator in t.lost ==> Field(e, x) < total)
      && forall i | 0 <= i < |s.cpus| && Holds(s.cpus[i].phase, x, e.creator) ::
           s.cpus[i].phase.stage.value <= total && (i in t.stale ==> s.cpus[i].phase.stage.value < total)
  }

  // long says that no packet adds nothing.
  ghost predicate Kept(s: State, t: Tracker, x: Counter, long: bool, k: FlowKey)
    requires k in s.sessions
  {
    (s.sessions[k].creator !in t.lost ==> Full(s, x, k)) && UpToDate(s, t.stale, x, k) && (long ==> Short(s, t, x, k))
  }

  predicate LongHits(s: State, x: Counter) {
    forall i | 0 <= i < |s.cpus| && s.cpus[i].phase.Hit? :: Amount(x, s.cpus[i].phase.len) > 0
  }

  ghost predicate Inv(s: State, t: Tracker, x: Counter, long: bool) {
    Numbered(s, t.lost, x) && (long ==> LongHits(s, x)) && forall k | k in s.sessions :: Kept(s, t, x, long, k)
  }

  // A step that leaves session k, its total and the CPUs that hold its counter alone.
  lemma Untouched(s: State, r: State, t: Tracker, u: Tracker, x: Counter, long: bool, k: FlowKey)
    requires k in s.sessions && k in r.sessions && s.sessions[k] == r.sessions[k] && |s.cpus| == |r.cpus|
    requires Kept(s, t, x, long, k)
    requires var c := s.sessions[k].creator;
      (c in t.lost <==> c in u.lost) && Total(r, x, c) == Total(s, x, c)
      && forall i | 0 <= i < |s.cpus| && Holds(r.cpus[i].phase, x, c) ::
           r.cpus[i].phase == s.cpus[i].phase && (i in u.stale <==> i in t.stale)
    ensures Kept(r, u, x, long, k)
  {
    hide Total, Field;
  }

  // --- one step

  lemma SameHitKey(s: State, r: State, q: Phase)
    requires q.Hit? && HitKey(s, q) && r.next >= s.next
    requires forall k | k in r.sessions :: k in s.sessions && r.sessions[k].creator == s.sessions[k].creator
    ensures HitKey(r, q)
  {
  }

  // A CPU goes on with its packet, or starts with one; sessions and their totals stay.
  lemma NumbersStay(s: State, i: nat, r: State, t: Tracker, lost: set<nat>, x: Counter)
    requires Numbered(s, t.lost, x) && i < |s.cpus| && |r.cpus| == |s.cpus| && r.cpus == s.cpus[i := r.cpus[i]]
    requires s.next <= r.next <= s.next + 1 && r.sessions.Keys == s.sessions.Keys
    requires forall k | k in s.sessions :: r.sessions[k].creator == s.sessions[k].creator
    requires forall c: nat | Fresh(s, t.lost, x, c) :: c !in lost && Logged(r.log, x, c) == 0
    requires r.cpus[i].phase.Hit? ==> HitKey(r, r.cpus[i].phase)
    requires r.cpus[i].phase.Hit? ==> r.cpus[i].phase.creator < s.next && !Fresh(s, t.lost, x, r.cpus[i].phase.creator)
    requires Slow(r.cpus[i].phase) ==>
      if Slow(s.cpus[i].phase) then r.cpus[i].phase.pkt == s.cpus[i].phase.pkt
      else r.cpus[i].phase.pkt == s.next && r.next == s.next + 1
    ensures Numbered(r, lost, x)
  {
    hide HitKey, Logged;
    forall j | 0 <= j < |r.cpus| && r.cpus[j].phase.Hit? ensures HitKey(r, r.cpus[j].phase) {
      if j != i {
        SameHitKey(s, r, s.cpus[j].phase);
      }
    }
    forall c: nat | Fresh(s, t.lost, x, c) ensures Fresh(r, lost, x, c) {
    }
    assert Fresh(s, t.lost, x, s.next);
  }

  // A session that is there is not fresh.
  lemma TakenNumber(s: State, lost: set<nat>, x: Counter, i: nat)
    requires i < |s.cpus| && s.cpus[i].phase.Hit?
    ensures !Fresh(s, lost, x, s.cpus[i].phase.creator)
  {
    assert On(s.cpus[i].phase, s.cpus[i].phase.creator);
  }

  // A packet goes on deciding.
  lemma SlowInv(s: State, i: nat, y: Cpu, more: seq<Event>, t: Tracker, x: Counter, long: bool)
    requires Inv(s, t, x, long) && i < |s.cpus| && Slow(s.cpus[i].phase) && Slow(y.phase)
    requires y.phase.pkt == s.cpus[i].phase.pkt && (more == [] || (|more| == 1 && more[0].Made?))
    ensures Inv(SetCpu(s, i, y).(log := s.log + more), t, x, long)
  {
    hide Logged, InHand, Kept, Numbered, Amount;
    var r := SetCpu(s, i, y).(log := s.log + more);
    forall c: nat ensures Total(r, x, c) == Total(s, x, c) && Logged(r.log, x, c) == Logged(s.log, x, c) {
      HandChange(s.cpus, i, y, x, c);
      if more == [] {
        assert s.log + more == s.log;
      } else {
        assert more == [more[0]];
        LogSnoc(s.log, more[0], x, c);
      }
    }
    forall k | k in r.sessions ensures Kept(r, t, x, long, k) {
      Untouched(s, r, t, t, x, long, k);
    }
    NumbersStay(s, i, r, t, t.lost, x);
  }

  // A packet arrives.
  lemma ArriveInv(s: State, i: nat, key: FlowKey, len: nat, t: Tracker, x: Counter, long: bool)
    requires Inv(s, t, x, long) && Enabled(s, Arrive(i, key, len)) && (long ==> Amount(x, len) > 0)
    ensures Inv(DoArrive(s, i, key, len), t, x, long)
  {
    hide Logged, InHand, Kept, Numbered, Amount;
    var r := DoArrive(s, i, key, len);
    forall c: nat ensures Total(r, x, c) == Total(s, x, c) {
      HandChange(s.cpus, i, r.cpus[i], x, c);
    }
    forall k | k in r.sessions ensures Kept(r, t, x, long, k) {
      Untouched(s, r, t, t, x, long, k);
    }
    if key in s.sessions {
      FoundKey(s, t.lost, x, key, r.cpus[i].phase, r);
    }
    NumbersStay(s, i, r, t, t.lost, x);
  }

  lemma FoundKey(s: State, lost: set<nat>, x: Counter, key: FlowKey, q: Phase, r: State)
    requires Numbered(s, lost, x) && key in s.sessions && q.Hit? && q.key == key && q.creator == s.sessions[key].creator
    requires r.sessions == s.sessions && r.next >= s.next
    ensures HitKey(r, q) && q.creator < s.next && !Fresh(s, lost, x, q.creator)
  {
  }

  // A CPU loads a counter: what it holds now is up to date.
  lemma LoadInv(s: State, i: nat, t: Tracker, x: Counter, long: bool)
    requires Inv(s, t, x, long) && Enabled(s, Load(i))
    ensures Inv(DoLoad(s, i), t.(stale := t.stale - {i}), x, long)
  {
    hide Logged, InHand, Kept, Numbered, Amount;
    var r, h, u := DoLoad(s, i), s.cpus[i].phase, t.(stale := t.stale - {i});
    forall c: nat ensures Total(r, x, c) == Total(s, x, c) {
      HandChange(s.cpus, i, r.cpus[i], x, c);
    }
    forall k | k in r.sessions ensures Kept(r, u, x, long, k) {
      if s.sessions[k].creator == h.creator {
        OwnKey(s, t.lost, x, i, k);
        LoadedKept(s, i, t, x, long, k);
      } else {
        Untouched(s, r, t, u, x, long, k);
      }
    }
    TakenNumber(s, t.lost, x, i);
    HitNumber(s, t.lost, x, i);
    SameHitKey(s, r, h);
    assert HitKey(r, r.cpus[i].phase);
    NumbersStay(s, i, r, t, t.lost, x);
  }

  lemma HitNumber(s: State, lost: set<nat>, x: Counter, i: nat)
    requires Numbered(s, lost, x) && i < |s.cpus| && s.cpus[i].phase.Hit?
    ensures HitKey(s, s.cpus[i].phase) && s.cpus[i].phase.creator < s.next
  {
  }

  lemma OwnKey(s: State, lost: set<nat>, x: Counter, i: nat, k: FlowKey)
    requires Numbered(s, lost, x) && i < |s.cpus| && s.cpus[i].phase.Hit?
    requires k in s.sessions && s.sessions[k].creator == s.cpus[i].phase.creator
    ensures k == s.cpus[i].phase.key && Live(s, k, s.cpus[i].phase.creator)
  {
    assert HitKey(s, s.cpus[i].phase);
  }

  lemma LoadedKept(s: State, i: nat, t: Tracker, x: Counter, long: bool, k: FlowKey)
    requires Enabled(s, Load(i)) && k in s.sessions && Kept(s, t, x, long, k)
    requires k == s.cpus[i].phase.key && Live(s, k, s.cpus[i].phase.creator)
    requires Total(DoLoad(s, i), x, s.cpus[i].phase.creator) == Total(s, x, s.cpus[i].phase.creator)
    ensures Kept(DoLoad(s, i), t.(stale := t.stale - {i}), x, long, k)
  {
    hide Total, Field;
  }

  // A CPU stores the counter: everybody else who holds it is out of date.
  lemma StoreInv(s: State, i: nat, t: Tracker, x: Counter, long: bool)
    requires Inv(s, t, x, long) && Enabled(s, Store(i))
    ensures Inv(DoStore(s, i), NextTrack(s, t, Store(i), x), x, long)
  {
    hide Logged, InHand, Kept, Numbered, Amount;
    var r, h, u := DoStore(s, i), s.cpus[i].phase, NextTrack(s, t, Store(i), x);
    forall c: nat ensures Total(r, x, c) == Total(s, x, c)
      + (if c == h.creator && h.stage.x == x then Amount(x, h.len) else 0) {
      HandChange(s.cpus, i, r.cpus[i], x, c);
    }
    forall k | k in r.sessions ensures Kept(r, u, x, long, k) {
      if s.sessions[k].creator == h.creator {
        OwnKey(s, t.lost, x, i, k);
        if h.stage.x == x {
          StoredKept(s, i, t, x, long, k);
        } else {
          OtherKept(s, i, t, x, long, k);
        }
      } else {
        Untouched(s, r, t, u, x, long, k);
      }
    }
    TakenNumber(s, t.lost, x, i);
    HitNumber(s, t.lost, x, i);
    SameHitKey(s, r, h);
    assert HitKey(r, r.cpus[i].phase);
    NumbersStay(s, i, r, t, u.lost, x);
  }

  // Adding to a counter of that width.
  lemma AddWide(a: nat, b: nat)
    ensures (a % TWO64 + b) % TWO64 == (a + b) % TWO64
  {
  }

  lemma StoredKept(s: State, i: nat, t: Tracker, x: Counter, long: bool, k: FlowKey)
    requires Enabled(s, Store(i)) && k in s.sessions && Kept(s, t, x, long, k) && s.cpus[i].phase.stage.x == x
    requires k == s.cpus[i].phase.key && Live(s, k, s.cpus[i].phase.creator)
    requires long ==> Amount(x, s.cpus[i].phase.len) > 0
    requires Total(DoStore(s, i), x, s.cpus[i].phase.creator)
          == Total(s, x, s.cpus[i].phase.creator) + Amount(x, s.cpus[i].phase.len)
    ensures Kept(DoStore(s, i), NextTrack(s, t, Store(i), x), x, long, k)
  {
    hide Total, Amount;
    var h := s.cpus[i].phase;
    var r, total, a := DoStore(s, i), Total(s, x, h.creator), Amount(x, h.len);
    AddWide(total, a);
    assert Holds(h, x, h.creator);
    assert Field(r.sessions[k], x) == (h.stage.value + a) % TWO64;
  }

  // Storing the one counter leaves the other.
  lemma OtherKept(s: State, i: nat, t: Tracker, x: Counter, long: bool, k: FlowKey)
    requires Enabled(s, Store(i)) && k in s.sessions && Kept(s, t, x, long, k) && s.cpus[i].phase.stage.x != x
    requires k == s.cpus[i].phase.key && Live(s, k, s.cpus[i].phase.creator)
    requires Total(DoStore(s, i), x, s.cpus[i].phase.creator) == Total(s, x, s.cpus[i].phase.creator)
    ensures Kept(DoStore(s, i), t, x, long, k)
  {
    hide Total, Amount;
    assert Field(DoStore(s, i).sessions[k], x) == Field(s.sessions[k], x);
  }

  // The verdict of a packet that has been counted.
  lemma FinishInv(s: State, i: nat, t: Tracker, x: Counter, long: bool)
    requires Inv(s, t, x, long) && Enabled(s, Finish(i))
    ensures Inv(DoFinish(s, i), t, x, long)
  {
    hide Logged, InHand, Kept, Numbered, Amount, Enforce;
    var r, h := DoFinish(s, i), s.cpus[i].phase;
    forall c: nat
      ensures Total(r, x, c) == Total(s, x, c)
      ensures c != h.creator ==> Logged(r.log, x, c) == Logged(s.log, x, c)
    {
      HandChange(s.cpus, i, r.cpus[i], x, c);
      LogSnoc(s.log, r.log[|s.log|], x, c);
    }
    forall k | k in r.sessions ensures Kept(r, t, x, long, k) {
      Untouched(s, r, t, t, x, long, k);
    }
    TakenNumber(s, t.lost, x, i);
    NumbersStay(s, i, r, t, t.lost, x);
  }

  // A decision has been enforced, with or without a new session.
  lemma CreateInv(s: State, i: nat, ok: bool, evict: set<FlowKey>, t: Tracker, x: Counter, long: bool)
    requires Inv(s, t, x, long) && Enabled(s, Create(i, ok, evict))
    ensures Inv(DoCreate(s, i, ok, evict), t, x, long)
  {
    hide Logged, InHand, Kept, Enforce, DoCreate, Amount, HitKey;
    var r, q := DoCreate(s, i, ok, evict), s.cpus[i].phase;
    CreateShape(s, i, ok, evict);
    assert Fresh(s, t.lost, x, q.pkt);
    forall c: nat
      ensures Logged(r.log, x, c) == Logged(s.log, x, c) + (if c == q.pkt then Amount(x, q.len) else 0)
      ensures InHand(r.cpus, x, c) == InHand(s.cpus, x, c)
    {
      HandChange(s.cpus, i, r.cpus[i], x, c);
      LogSnoc(s.log, r.log[|s.log|], x, c);
    }
    forall k | k in r.sessions ensures Kept(r, t, x, long, k) {
      if r.sessions[k].creator == q.pkt {
        NewKept(s, i, r, t, x, long, k);
      } else {
        Untouched(s, r, t, t, x, long, k);
      }
    }
    forall j | 0 <= j < |r.cpus| && r.cpus[j].phase.Hit? ensures HitKey(r, r.cpus[j].phase) {
      OtherHitKey(s, r, q.pkt, s.cpus[j].phase);
    }
    forall c: nat | Fresh(s, t.lost, x, c) && c != q.pkt ensures Fresh(r, t.lost, x, c) {
    }
  }

  // Other sessions stay or are evicted; a new one carries the number of its packet.
  lemma CreateShape(s: State, i: nat, ok: bool, evict: set<FlowKey>)
    requires Enabled(s, Create(i, ok, evict))
    ensures var r, q := DoCreate(s, i, ok, evict), s.cpus[i].phase;
      r.next == s.next && r.log == s.log + [VerdictOn(q.pkt, q.key, q.len, q.action, q.pkt, i)]
      && |r.cpus| == |s.cpus| && r.cpus == s.cpus[i := r.cpus[i]] && r.cpus[i].phase.Idle?
      && forall k | k in r.sessions ::
           if k in s.sessions && r.sessions[k] == s.sessions[k] then true
           else k == q.key && r.sessions[k] == Session(q.action, 1, q.len % TWO64, q.pkt)
  {
    hide Enforce;
  }

  lemma OtherHitKey(s: State, r: State, pkt: nat, q: Phase)
    requires q.Hit? && HitKey(s, q) && r.next >= s.next && q.creator != pkt
    requires forall k | k in r.sessions ::
               r.sessions[k].creator == pkt || (k in s.sessions && r.sessions[k].creator == s.sessions[k].creator)
    ensures HitKey(r, q)
  {
  }

  // A new session has counted its first packet.
  lemma NewKept(s: State, i: nat, r: State, t: Tracker, x: Counter, long: bool, k: FlowKey)
    requires i < |s.cpus| && s.cpus[i].phase.Decided? && Fresh(s, t.lost, x, s.cpus[i].phase.pkt)
    requires |r.cpus| == |s.cpus| && r.cpus == s.cpus[i := r.cpus[i]] && r.cpus[i].phase.Idle?
    requires var q := s.cpus[i].phase;
      k in r.sessions && r.sessions[k] == Session(q.action, 1, q.len % TWO64, q.pkt)
      && Logged(r.log, x, q.pkt) == Amount(x, q.len)
    ensures Kept(r, t, x, long, k)
  {
    hide Logged, InHand;
    NothingInHand(r.cpus, x, s.cpus[i].phase.pkt);
  }

  lemma EvictInv(s: State, r: State, t: Tracker, x: Counter, long: bool)
    requires Inv(s, t, x, long) && r.cpus == s.cpus && r.log == s.log && r.next == s.next
    requires forall k | k in r.sessions :: k in s.sessions && r.sessions[k] == s.sessions[k]
    ensures Inv(r, t, x, long)
  {
    hide Logged, InHand, Kept, HitKey;
    forall k | k in r.sessions ensures Kept(r, t, x, long, k) {
      Untouched(s, r, t, t, x, long, k);
    }
    forall j | 0 <= j < |r.cpus| && r.cpus[j].phase.Hit? ensures HitKey(r, r.cpus[j].phase) {
      SameHitKey(s, r, s.cpus[j].phase);
    }
    forall c: nat | Fresh(s, t.lost, x, c) ensures Fresh(r, t.lost, x, c) {
    }
  }

  // --- runs

  // The packet of this step adds something to the counter.
  predicate Adds(t: Step, x: Counter) {
    t.Arrive? ==> Amount(x, t.len) > 0
  }

  lemma ExactStep(s: State, t: Step, k: Tracker, x: Counter, long: bool)
    requires Inv(s, k, x, long) && Enabled(s, t) && (long ==> Adds(t, x))
    ensures Inv(Next(s, t), NextTrack(s, k, t, x), x, long)
  {
    hide Inv, DoArrive, DoLoad, DoStore, DoFinish, DoCreate, Consider, Outcome, Amount;
    match t
    case Arrive(i, key, len) => ArriveInv(s, i, key, len, k, x, long);
    case Load(i) => LoadInv(s, i, k, x, long);
    case Store(i) => StoreInv(s, i, k, x, long);
    case Finish(i) => FinishInv(s, i, k, x, long);
    case Choose(i) =>
      var r := DoChoose(s, i);
      assert s.log + [] == s.log;
      SlowInv(s, i, r.cpus[i], r.log[|s.log|..], k, x, long);
    case Scan(i) =>
      assert s.log + [] == s.log;
      SlowInv(s, i, DoScan(s, i).cpus[i], [], k, x, long);
    case Conclude(i) =>
      var r := DoConclude(s, i);
      SlowInv(s, i, r.cpus[i], r.log[|s.log|..], k, x, long);
    case Create(i, ok, evict) => CreateInv(s, i, ok, evict, k, x, long);
    case Evict(keys) => EvictInv(s, Next(s, t), k, x, long);
    case SetPolicies(p) => EvictInv(s, Next(s, t), k, x, long);
  }

  lemma {:induction false} ExactRun(p: Policies, n: nat, ts: seq<Step>, x: Counter, long: bool)
    requires long ==> forall t | t in ts :: Adds(t, x)
    ensures Inv(Exec(Boot(p, n), ts), Track(p, n, ts, x), x, long)
    decreases |ts|
  {
    hide Next, Enabled, Inv, NextTrack;
    if ts == [] {
      BootInv(p, n, x, long);
    } else {
      var m := |ts| - 1;
      assert ts[m] in ts && forall t | t in ts[..m] :: t in ts;
      ExactRun(p, n, ts[..m], x, long);
      var s, k := Exec(Boot(p, n), ts[..m]), Track(p, n, ts[..m], x);
      if Enabled(s, ts[m]) {
        ExactStep(s, ts[m], k, x, long);
      } else {
        NotEnabled(s, k, ts[m], x);
      }
    }
  }

  lemma NotEnabled(s: State, k: Tracker, t: Step, x: Counter)
    requires !Enabled(s, t)
    ensures NextTrack(s, k, t, x) == k
  {
  }

  lemma BootInv(p: Policies, n: nat, x: Counter, long: bool)
    ensures Inv(Boot(p, n), Tracker({}, {}), x, long)
  {
  }

  predicate AllIdle(s: State) {
    forall c | c in s.cpus :: c.phase.Idle?
  }

  // However many CPUs there are, and whatever happens to the other counter: a counter that nobody has
  // interfered with is, between packets, that of the verdicts, to its width.
  lemma UndisturbedExact(p: Policies, n: nat, ts: seq<Step>, k: FlowKey, x: Counter)
    requires var s := Exec(Boot(p, n), ts); k in s.sessions && AllIdle(s)
    requires !Interfered(p, n, ts, x, Exec(Boot(p, n), ts).sessions[k].creator)
    ensures var s := Exec(Boot(p, n), ts); Field(s.sessions[k], x) == Logged(s.log, x, s.sessions[k].creator) % TWO64
  {
    hide Exec, Numbered, Field, Logged, InHand, UpToDate, Interfered, Track;
    var s := Exec(Boot(p, n), ts);
    ExactRun(p, n, ts, x, false);
    LostIs(p, n, ts, x, s.sessions[k].creator);
    assert Kept(s, Track(p, n, ts, x), x, false, k);
    NothingInHand(s.cpus, x, s.sessions[k].creator);
  }

  // Below wrap-around, and when every packet adds something: each counter on its own is exact if and
  // only if no CPU has stored it between another one's load and store of it.
  lemma CountersExact(p: Policies, n: nat, ts: seq<Step>, k: FlowKey, x: Counter)
    requires forall t | t in ts :: Adds(t, x)
    requires var s := Exec(Boot(p, n), ts); k in s.sessions && AllIdle(s)
    requires var s := Exec(Boot(p, n), ts); Logged(s.log, x, s.sessions[k].creator) < TWO64
    ensures var s := Exec(Boot(p, n), ts); var e := s.sessions[k];
      Field(e, x) == Logged(s.log, x, e.creator) <==> !Interfered(p, n, ts, x, e.creator)
  {
    hide Exec, Numbered, Field, Logged, InHand, UpToDate, Interfered, Track;
    var s := Exec(Boot(p, n), ts);
    ExactRun(p, n, ts, x, true);
    LostIs(p, n, ts, x, s.sessions[k].creator);
    assert Kept(s, Track(p, n, ts, x), x, true, k);
    NothingInHand(s.cpus, x, s.sessions[k].creator);
  }

  // On one CPU there is nobody to interfere.
  lemma SessionCountersExact(p: Policies, ts: seq<Step>, k: FlowKey)
    requires var s := Exec(Boot(p, 1), ts); k in s.sessions && AllIdle(s)
    ensures var s := Exec(Boot(p, 1), ts); var e := s.sessions[k];
      e.packets == Logged(s.log, Packets, e.creator) % TWO64 && e.bytes == Logged(s.log, Bytes, e.creator) % TWO64
  {
    hide Exec, Interfered;
    var c := Exec(Boot(p, 1), ts).sessions[k].creator;
    forall x: Counter ensures !Interfered(p, 1, ts, x, c) {
      OneAlone(p, ts, x, c);
    }
    UndisturbedExact(p, 1, ts, k, Packets);
    UndisturbedExact(p, 1, ts, k, Bytes);
  }

  lemma OneAlone(p: Policies, ts: seq<Step>, x: Counter, c: nat)
    ensures !Interfered(p, 1, ts, x, c)
  {
    hide Exec, Acts;
    if i: nat, j: nat, l: nat, m: nat, o: nat :| Interferes(p, 1, ts, i, j, x, c, l, m, o) {
      CpusStay(p, 1, ts[..l]);
      CpusStay(p, 1, ts[..m]);
    }
  }

  // --- a sufficient condition

  // A packet finds the session while another CPU is still at one.
  predicate FindsBusy(s: State, t: Step, c: nat) {
    t.Arrive? && Enabled(s, t) && t.key in s.sessions && s.sessions[t.key].creator == c
    && exists i | 0 <= i < |s.cpus| :: On(s.cpus[i].phase, c)
  }

  predicate AtMostOne(s: State, c: nat) {
    forall i, j | 0 <= i < j < |s.cpus| :: !On(s.cpus[i].phase, c) || !On(s.cpus[j].phase, c)
  }

  lemma AloneStays(s: State, t: Step, c: nat)
    requires AtMostOne(s, c) && Enabled(s, t) && !FindsBusy(s, t, c)
    ensures AtMostOne(Next(s, t), c)
  {
    hide Consider, Outcome, Remove, Enforce, Field, Amount, Tallied;
  }

  lemma {:induction false} NeverTwo(p: Policies, n: nat, ts: seq<Step>, c: nat)
    requires forall m | 0 <= m < |ts| :: !FindsBusy(Before(p, n, ts, m), ts[m], c)
    ensures AtMostOne(Exec(Boot(p, n), ts), c)
    decreases |ts|
  {
    hide Next, Enabled, FindsBusy, AtMostOne;
    if ts == [] {
      BootAlone(p, n, c);
    } else {
      var k := |ts| - 1;
      forall m | 0 <= m < k ensures !FindsBusy(Before(p, n, ts[..k], m), ts[..k][m], c) {
        SamePast(p, n, ts, k, m);
      }
      NeverTwo(p, n, ts[..k], c);
      var s := Exec(Boot(p, n), ts[..k]);
      assert !FindsBusy(Before(p, n, ts, k), ts[k], c);
      if Enabled(s, ts[k]) {
        AloneStays(s, ts[k], c);
      }
    }
  }

  lemma BootAlone(p: Policies, n: nat, c: nat)
    ensures AtMostOne(Boot(p, n), c)
  {
  }

  // Nobody interferes with a session that no packet finds busy; the converse fails (FoundBusyAndExact).
  lemma NotBusyNotInterfered(p: Policies, n: nat, ts: seq<Step>, x: Counter, c: nat)
    requires forall m | 0 <= m < |ts| :: !FindsBusy(Before(p, n, ts, m), ts[m], c)
    ensures !Interfered(p, n, ts, x, c)
  {
    hide Exec, LoadsIn, FindsBusy;
    if i: nat, j: nat, l: nat, m: nat, o: nat :| Interferes(p, n, ts, i, j, x, c, l, m, o) {
      forall r | 0 <= r < m ensures !FindsBusy(Before(p, n, ts[..m], r), ts[..m][r], c) {
        SamePast(p, n, ts, m, r);
      }
      NeverTwo(p, n, ts[..m], c);
      StillWaits(p, n, ts, i, j, x, c, l, m, o);
    }
  }

  lemma StillWaits(p: Policies, n: nat, ts: seq<Step>, i: nat, j: nat, x: Counter, c: nat, l: nat, m: nat, o: nat)
    requires Interferes(p, n, ts, i, j, x, c, l, m, o)
    ensures var s := Exec(Boot(p, n), ts[..m]);
      i < |s.cpus| && j < |s.cpus| && Holds(s.cpus[i].phase, x, c) && Holds(s.cpus[j].phase, x, c)
  {
    hide Exec, LoadsIn, Enabled, ByCpu;
    SamePast(p, n, ts, m, l);
    forall r | l < r < m ensures Acts(p, n, ts[..m], r, i) == Acts(p, n, ts, r, i) {
      SamePast(p, n, ts, m, r);
    }
    assert Waits(p, n, ts[..m], l, i, x, c);
    WaitingBelow(p, n, ts[..m], i, x, c);
    HoldsIs(p, n, ts[..m], i, x, c);
  }
}
