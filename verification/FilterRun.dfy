/** The filter run by several CPUs: each packet looks its flow up; then it loads and stores one counter of
    its session after the other, or reads one policy after the other, decides and creates a session, all
    in separate steps, while sessions are evicted and policies change in between. */
module FilterRun {
  import opened FilterPolicy
  import opened FilterScan

  // creator: the number of the packet that created the session.
  datatype Session = Session(action: nat, packets: nat, bytes: nat, creator: nat)

  // packets_to_server and bytes_to_server
  datatype Counter = Packets | Bytes

  // How far a packet has come with the counters of its session, and what it has loaded.
  datatype Stage = Found | Loaded(x: Counter, value: nat) | Between | Counted

  // Where a CPU is with packet number pkt.  times are the moments of its policy reads so far.
  datatype Phase =
    | Idle
    | Hit(pkt: nat, key: FlowKey, len: nat, action: nat, creator: nat, stage: Stage)
    | Missed(pkt: nat, key: FlowKey, len: nat)
    | Scanning(pkt: nat, key: FlowKey, len: nat, times: seq<nat>, best: Best)
    | Decided(pkt: nat, key: FlowKey, len: nat, action: nat)

  // One CPU's slots of the stats map.
  datatype Counters = Counters(total: nat, allowed: nat, denied: nat, newSessions: nat, hits: nat, misses: nat)

  datatype Cpu = Cpu(phase: Phase, counters: Counters)

  // A decision with the moments of its policy reads, and whether a rule said so; a verdict with the
  // packet whose decision it enforces.
  datatype Event =
    | Made(pkt: nat, key: FlowKey, times: seq<nat>, action: nat, hit: bool, cpu: nat)
    | Verdict(pkt: nat, key: FlowKey, len: nat, denied: bool, cause: nat, cpu: nat)

  // past: the policies that were in force before.
  datatype State = State(
    past: seq<Policies>, policies: Policies, sessions: map<FlowKey, Session>, cpus: seq<Cpu>, next: nat, log: seq<Event>,
    created: nat, evicted: nat)

  function History(s: State): seq<Policies> {
    s.past + [s.policies]
  }

  datatype Step =
    | Arrive(cpu: nat, key: FlowKey, len: nat)
    | Load(cpu: nat)
    | Store(cpu: nat)
    | Finish(cpu: nat)
    | Choose(cpu: nat)
    | Scan(cpu: nat)
    | Conclude(cpu: nat)
    | Create(cpu: nat, ok: bool, evict: set<FlowKey>)
    | Evict(keys: set<FlowKey>)
    | SetPolicies(policies: Policies)

  const ZERO: Counters := Counters(0, 0, 0, 0, 0, 0)

  // n idle CPUs and no session.
  function Boot(p: Policies, n: nat): State {
    State([], p, map[], seq(n, _ => Cpu(Idle, ZERO)), 0, [], 0, 0)
  }

  function Remove(m: map<FlowKey, Session>, keys: set<FlowKey>): map<FlowKey, Session> {
    m - keys
  }

  function SetCpu(s: State, i: nat, c: Cpu): State
    requires i < |s.cpus|
  {
    s.(cpus := s.cpus[i := c])
  }

  predicate Enabled(s: State, t: Step) {
    match t
    case Arrive(i, _, _) => i < |s.cpus| && s.cpus[i].phase.Idle?
    case Load(i) => i < |s.cpus| && s.cpus[i].phase.Hit? && (s.cpus[i].phase.stage.Found? || s.cpus[i].phase.stage.Between?)
    case Store(i) => i < |s.cpus| && s.cpus[i].phase.Hit? && s.cpus[i].phase.stage.Loaded?
    case Finish(i) => i < |s.cpus| && s.cpus[i].phase.Hit? && s.cpus[i].phase.stage.Counted?
    case Choose(i) => i < |s.cpus| && s.cpus[i].phase.Missed?
    case Scan(i) => i < |s.cpus| && s.cpus[i].phase.Scanning? && 0 < |s.cpus[i].phase.times| <= SCAN_LIMIT
    case Conclude(i) => i < |s.cpus| && s.cpus[i].phase.Scanning? && |s.cpus[i].phase.times| == SCAN_LIMIT + 1
    case Create(i, _, _) => i < |s.cpus| && s.cpus[i].phase.Decided?
    case _ => true
  }

  // The end of a packet: drop it or let it pass.
  function Enforce(c: Counters, action: nat): Counters {
    if action == POLICY_ACTION_DENY then c.(denied := Inc(c.denied)) else c.(allowed := Inc(c.allowed))
  }

  function VerdictOn(pkt: nat, key: FlowKey, len: nat, action: nat, cause: nat, cpu: nat): Event {
    Verdict(pkt, key, len, action == POLICY_ACTION_DENY, cause, cpu)
  }

  // A packet with a flow key: counted, and its flow looked up.
  function DoArrive(s: State, i: nat, key: FlowKey, len: nat): State
    requires Enabled(s, Arrive(i, key, len))
  {
    var c := s.cpus[i].counters;
    var c1 := c.(total := Inc(c.total));
    var pkt := s.next;
    if key in s.sessions then
      var e := s.sessions[key];
      SetCpu(s, i, Cpu(Hit(pkt, key, len, e.action, e.creator, Found), c1)).(next := pkt + 1)
    else SetCpu(s, i, Cpu(Missed(pkt, key, len), c1)).(next := pkt + 1)
  }

  function Field(e: Session, x: Counter): nat {
    if x == Packets then e.packets else e.bytes
  }

  function WithField(e: Session, x: Counter, v: nat): Session {
    if x == Packets then e.(packets := v) else e.(bytes := v)
  }

  // What one packet adds to a counter.
  function Amount(x: Counter, len: nat): nat {
    if x == Packets then 1 else len
  }

  // The counter that a packet is about to load or to store.
  function Turn(g: Stage): Counter {
    match g
    case Found => Packets
    case Loaded(x, _) => x
    case _ => Bytes
  }

  // The session that a packet found is still there.
  predicate Live(s: State, key: FlowKey, creator: nat) {
    key in s.sessions && s.sessions[key].creator == creator
  }

  // The next counter of the session is loaded; what is loaded from a session that is gone is never used.
  function DoLoad(s: State, i: nat): State
    requires Enabled(s, Load(i))
  {
    var h := s.cpus[i].phase;
    var x := Turn(h.stage);
    var v := if Live(s, h.key, h.creator) then Field(s.sessions[h.key], x) else 0;
    SetCpu(s, i, Cpu(h.(stage := Loaded(x, v)), s.cpus[i].counters))
  }

  // The counter is stored with this packet added, unless the session is gone.
  function DoStore(s: State, i: nat): State
    requires Enabled(s, Store(i))
  {
    var h := s.cpus[i].phase;
    var x, v := h.stage.x, (h.stage.value + Amount(h.stage.x, h.len)) % TWO64;
    var sessions :=
      if Live(s, h.key, h.creator) then s.sessions[h.key := WithField(s.sessions[h.key], x, v)] else s.sessions;
    SetCpu(s, i, Cpu(h.(stage := if x == Packets then Between else Counted), s.cpus[i].counters)).(sessions := sessions)
  }

  // The cached action is enforced.
  function DoFinish(s: State, i: nat): State
    requires Enabled(s, Finish(i))
  {
    var h := s.cpus[i].phase;
    SetCpu(s, i, Cpu(Idle, Enforce(s.cpus[i].counters, h.action)))
      .(log := s.log + [VerdictOn(h.pkt, h.key, h.len, h.action, h.creator, i)])
  }

  function Tallied(c: Counters, d: Decision): Counters {
    if d.hit then c.(hits := Inc(c.hits)) else c.(misses := Inc(c.misses))
  }

  // A decision: counted, and remembered for its packet.
  function DoDecide(s: State, i: nat, d: Decision, times: seq<nat>): State
    requires i < |s.cpus| && (s.cpus[i].phase.Missed? || s.cpus[i].phase.Scanning?)
  {
    var q := s.cpus[i].phase;
    SetCpu(s, i, Cpu(Decided(q.pkt, q.key, q.len, d.action), Tallied(s.cpus[i].counters, d)))
      .(log := s.log + [Made(q.pkt, q.key, times, d.action, d.hit, i)])
  }

  // The lookup of an exact rule.
  function DoChoose(s: State, i: nat): State
    requires Enabled(s, Choose(i))
  {
    var q, now := s.cpus[i].phase, |s.past|;
    if q.key in s.policies.exact then DoDecide(s, i, Exactly(s.policies.exact[q.key]), [now])
    else SetCpu(s, i, Cpu(Scanning(q.pkt, q.key, q.len, [now], NoBest), s.cpus[i].counters))
  }

  // One slot of the scan.
  function DoScan(s: State, i: nat): State
    requires Enabled(s, Scan(i))
  {
    var q := s.cpus[i].phase;
    var b := Consider(s.policies, q.key, |q.times| - 1, q.best);
    SetCpu(s, i, Cpu(q.(times := q.times + [|s.past|], best := b), s.cpus[i].counters))
  }

  // The read through best_match.
  function DoConclude(s: State, i: nat): State
    requires Enabled(s, Conclude(i))
  {
    var q := s.cpus[i].phase;
    DoDecide(s, i, Outcome(s.policies, q.best), q.times + [|s.past|])
  }

  // bpf_map_update_elem with BPF_NOEXIST, which may evict; then the decision is enforced.
  function DoCreate(s: State, i: nat, ok: bool, evict: set<FlowKey>): State
    requires Enabled(s, Create(i, ok, evict))
  {
    var q, c := s.cpus[i].phase, s.cpus[i].counters;
    var left := Remove(s.sessions, evict);
    LeftSize(s.sessions, evict);
    var fits := ok && q.key !in left;
    var c1 := if fits then c.(newSessions := Inc(c.newSessions)) else c;
    var sessions := if fits then left[q.key := Session(q.action, 1, q.len % TWO64, q.pkt)] else left;
    SetCpu(s, i, Cpu(Idle, Enforce(c1, q.action)))
      .(sessions := sessions, log := s.log + [VerdictOn(q.pkt, q.key, q.len, q.action, q.pkt, i)],
        created := s.created + (if fits then 1 else 0), evicted := s.evicted + |s.sessions| - |left|)
  }

  function Next(s: State, t: Step): State
    requires Enabled(s, t)
  {
    match t
    case Arrive(i, key, len) => DoArrive(s, i, key, len)
    case Load(i) => DoLoad(s, i)
    case Store(i) => DoStore(s, i)
    case Finish(i) => DoFinish(s, i)
    case Choose(i) => DoChoose(s, i)
    case Scan(i) => DoScan(s, i)
    case Conclude(i) => DoConclude(s, i)
    case Create(i, ok, evict) => DoCreate(s, i, ok, evict)
    case Evict(keys) =>
      LeftSize(s.sessions, keys);
      s.(sessions := Remove(s.sessions, keys), evicted := s.evicted + |s.sessions| - |Remove(s.sessions, keys)|)
    case SetPolicies(p) => s.(past := History(s), policies := p)
  }

  lemma LeftSize(m: map<FlowKey, Session>, keys: set<FlowKey>)
    ensures |Remove(m, keys)| <= |m|
  {
    var r := Remove(m, keys);
    assert r.Keys <= m.Keys;
    Smaller(r.Keys, m.Keys);
  }

  lemma Smaller(a: set<FlowKey>, b: set<FlowKey>)
    requires a <= b
    ensures |a| <= |b|
  {
    assert b == a + (b - a);
  }

  // The state after the enabled ones of some steps.
  function Exec(s: State, ts: seq<Step>): State
    decreases |ts|
  {
    if ts == [] then s else
    var r := Exec(s, ts[..|ts| - 1]);
    if Enabled(r, ts[|ts| - 1]) then Next(r, ts[|ts| - 1]) else r
  }
}
