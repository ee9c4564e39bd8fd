/** Saving and closing descriptors, one group at a time, against the account. */
module LoaderSave {
  import opened LoaderBytes
  import opened LoaderMachine
  import opened LoaderIR
  import opened LoaderGen
  import opened LoaderShape
  import opened LoaderLedger
  import opened LoaderFollow

  // The newest descriptor goes to a word of the stack.
  lemma StackPlace(w: World, w2: World, l: Ledger, l2: Ledger, es: seq<Event>, so: int, v: nat)
    requires es != [] && Descriptor(es[|es| - 1]) == v < TWO32
    requires InPlace(w, l, es) && w2 == w.(stack := Put(w.stack, STACK_SZ + so, LittleEndian(v, 4)))
    requires var k := Of(|es| - 1);
      (so == OFF_BTF_FD && l2 == l.(btf := k)) || (so == OFF_INNER_MAP_FD && l2 == l.(inner := k))
      || (so == OffProgFd(|l.progs|) && |l.progs| < MAX_USED_PROGS && l2 == l.(progs := l.progs + [k]))
    ensures InPlace(w2, l2, es)
  {
    hide Get, Put, LastFd, Descriptor;
    var off := STACK_SZ + so;
    WordPut(w.stack, off, v, 0);
    WordPut(w.stack, off, v, 4);
    forall i: nat | i < MAX_USED_PROGS ensures Get(w2.stack, 8 + 4 * i, 4) == ProgFd(es, l2, i) {
      WordPut(w.stack, off, v, 8 + 4 * i);
      assert Get(w.stack, 8 + 4 * i, 4) == ProgFd(es, l, i);
    }
    forall i: nat | i < MAX_USED_MAPS ensures MapFd(es, l2, i) == MapFd(es, l, i) {
    }
    forall i: nat | i < MAX_KFUNC_DESCS ensures Users(l2, i) == Users(l, i) {
    }
  }

  // The newest descriptor goes to the next map slot.
  lemma MapPlace(w: World, w2: World, l: Ledger, l2: Ledger, es: seq<Event>, v: nat)
    requires es != [] && Descriptor(es[|es| - 1]) == v < TWO32
    requires InPlace(w, l, es) && |w.blob| >= FD_AREA && |l.maps| < MAX_USED_MAPS
    requires w2 == w.(blob := Put(w.blob, FdSlot(|l.maps|), LittleEndian(v, 4)))
    requires l2 == l.(maps := l.maps + [Of(|es| - 1)])
    ensures InPlace(w2, l2, es)
  {
    hide Get, Put, Descriptor, LastFd;
    var i := |l.maps|;
    forall j: nat | j < MAX_FD_ARRAY_SZ ensures Get(w2.blob, FdSlot(j), 4) == if j == i then v else Get(w.blob, FdSlot(j), 4) {
      WordPut(w.blob, FdSlot(i), v, FdSlot(j));
    }
    forall j: nat | j < MAX_USED_MAPS ensures Get(w2.blob, FdSlot(j), 4) == MapFd(es, l2, j) {
      assert Get(w.blob, FdSlot(j), 4) == MapFd(es, l, j);
    }
    forall j: nat | j < MAX_KFUNC_DESCS ensures Get(w2.blob, FdSlot(MAX_USED_MAPS + j), 4) == LastFd(es, Users(l2, j)) {
      assert MAX_USED_MAPS + j < MAX_FD_ARRAY_SZ;
      assert Get(w.blob, FdSlot(MAX_USED_MAPS + j), 4) == LastFd(es, Users(l, j));
    }
    forall j: nat | j < MAX_USED_PROGS ensures ProgFd(es, l2, j) == ProgFd(es, l, j) {
    }
  }

  // One more user of a slot: its descriptor if it has one, else what was there.
  lemma NewUser(es: seq<Event>, ks: seq<nat>)
    requires es != []
    ensures var k := |es| - 1; LastFd(es, ks + [k]) == if FdOf(es, k) != 0 then FdOf(es, k) else LastFd(es, ks)
  {
    assert (ks + [|es| - 1])[..|ks|] == ks;
  }

  // The newest descriptor goes to the slot of a kernel function, if there is one.
  lemma UserPlace(w: World, w2: World, l: Ledger, l2: Ledger, es: seq<Event>, i: nat)
    requires es != [] && i < MAX_KFUNC_DESCS && InPlace(w, l, es) && w2.stack == w.stack
    requires var fd := FdOf(es, |es| - 1);
      forall j: nat | j < MAX_FD_ARRAY_SZ ::
        Get(w2.blob, FdSlot(j), 4) == if j == MAX_USED_MAPS + i && fd != 0 then fd else Get(w.blob, FdSlot(j), 4)
    requires l2 == l.(slots := l.slots[i := Users(l, i) + [|es| - 1]])
    ensures InPlace(w2, l2, es)
  {
    hide Get, FdOf, LastFd;
    NewUser(es, Users(l, i));
    forall j: nat | j < MAX_KFUNC_DESCS ensures Get(w2.blob, FdSlot(MAX_USED_MAPS + j), 4) == LastFd(es, Users(l2, j)) {
      assert MAX_USED_MAPS + j < MAX_FD_ARRAY_SZ;
      assert Get(w.blob, FdSlot(MAX_USED_MAPS + j), 4) == LastFd(es, Users(l, j));
    }
    forall j: nat | j < MAX_USED_MAPS ensures Get(w2.blob, FdSlot(j), 4) == MapFd(es, l2, j) {
      assert Get(w.blob, FdSlot(j), 4) == MapFd(es, l, j);
    }
    forall j: nat | j < MAX_USED_PROGS ensures ProgFd(es, l2, j) == ProgFd(es, l, j) {
    }
  }

  // Closing a word: one more closed descriptor unless it is 0.
  predicate Closed(w: World, w2: World, fd: int) {
    w2 == w.(trace := if fd == 0 then w.trace else w.trace + [Close(fd)], calls := w2.calls)
  }

  lemma CloseWord(m: M, p: Val, off: int, b: Bytes, at: int, dbg: Dbg)
    requires m.w.ok && DbgIn(dbg, |m.w.blob|) && InRange(b, at, 4)
    requires (p == StackPtr(0) && b == m.w.stack && at == STACK_SZ + off) || (p == BlobPtr(at - off) && b == m.w.blob)
    ensures var m2 := LoaderIR.CloseAt(m, p, off, dbg); m2.r7 == m.r7 && Closed(m.w, m2.w, Get(b, at, 4))
  {
    hide Get;
    if dbg.Dbg? {
      InRangeHolds(m.w.blob, dbg.addr, dbg.len);
    }
  }

  // Closing what a place holds is one more step of the script.
  lemma ShutOne(w: World, w2: World, es: seq<Event>, script: seq<Step>, a: Source)
    requires Calls(w.trace) == es && w.trace == Play(es, script) && Closed(w, w2, Fd(es, a))
    ensures Calls(w2.trace) == es && w2.trace == Play(es, script + [Shut(a)])
  {
    hide Fd, Calls, Play;
    PlaySnoc(es, script, Shut(a));
    if Fd(es, a) != 0 {
      CallsGrow(w.trace, Close(Fd(es, a)));
    }
  }

  lemma DenNone(env: Env, m: M)
    ensures DenAll(env, [], m) == Next(m)
  {
  }

  lemma DenSnoc(env: Env, gs: seq<Group>, g: Group, m: M)
    requires DenAll(env, gs, m).Next?
    ensures DenAll(env, gs + [g], m) == Den(env, g, DenAll(env, gs, m).m)
  {
    hide Den;
    DenAppend(env, gs, [g], m);
    var m1 := DenAll(env, gs, m).m;
    assert [g][1..] == [];
    match Den(env, g, m1) {
      case Next(m2) => assert DenAll(env, [g][1..], m2) == Next(m2);
      case Err(_) =>
    }
  }

  lemma DenFirst(env: Env, g: Group, gs: seq<Group>, m: M)
    ensures var o := Den(env, g, m); DenAll(env, [g] + gs, m) == if o.Next? then DenAll(env, gs, o.m) else o
  {
    hide Den;
    assert ([g] + gs)[1..] == gs;
  }

  // --- the cleanup code

  function WordSource(l: Ledger, i: nat): Source {
    if i == 0 then l.btf else if i == 1 then l.inner else if i - 2 < |l.progs| then l.progs[i - 2] else Nowhere
  }

  function MapSource(l: Ledger, i: nat): Source {
    if i < |l.maps| then l.maps[i] else Nowhere
  }

  // What the first n stack words and the first n map slots hold.
  function WordKs(l: Ledger, n: nat): seq<Source> {
    if n == 0 then [] else WordKs(l, n - 1) + One(WordSource(l, n - 1), n - 1 < 2 + |l.progs|)
  }

  function MapKs(l: Ledger, n: nat): seq<Source> {
    if n == 0 then [] else MapKs(l, n - 1) + One(MapSource(l, n - 1), n - 1 < |l.maps|)
  }

  function One(a: Source, used: bool): seq<Source> {
    if used then [a] else []
  }

  lemma ShutsSnoc(places: seq<Source>, a: Source)
    ensures Shuts(places + [a]) == Shuts(places) + [Shut(a)]
  {
    assert (places + [a])[..|places|] == places;
  }

  // The state while closing: only the trace and the call count move.
  ghost predicate Closing(m0: M, m: M, es: seq<Event>, script: seq<Step>) {
    m.w == m0.w.(trace := m.w.trace, calls := m.w.calls) && m.r7 == m0.r7
    && Calls(m.w.trace) == es && m.w.trace == Play(es, script)
  }

  // One more close on the way.
  lemma ClosingMore(m0: M, m: M, m2: M, es: seq<Event>, script: seq<Step>, places: seq<Source>, a: Source, used: bool)
    requires Closing(m0, m, es, script + Shuts(places)) && m2.r7 == m.r7 && Closed(m.w, m2.w, Fd(es, a))
      && (used || a == Nowhere)
    ensures Closing(m0, m2, es, script + Shuts(places + One(a, used)))
  {
    hide Play, Calls, Shuts;
    if !used {
      assert places + [] == places;
    } else {
      ShutOne(m.w, m2.w, es, script + Shuts(places), a);
      ShutsSnoc(places, a);
      assert script + Shuts(places) + [Shut(a)] == script + Shuts(places + [a]);
    }
  }

  lemma ClosingNone(m: M, es: seq<Event>, script: seq<Step>)
    requires Calls(m.w.trace) == es && m.w.trace == Play(es, script)
    ensures Closing(m, m, es, script + Shuts([]))
  {
    assert script + Shuts([]) == script;
  }

  lemma {:induction false} CloseWords(env: Env, m: M, l: Ledger, es: seq<Event>, script: seq<Step>, n: nat)
    requires m.w.ok && InPlace(m.w, l, es) && n <= 2 + MAX_USED_PROGS
    requires Calls(m.w.trace) == es && m.w.trace == Play(es, script)
    ensures DenAll(env, QuietCloses(n), m).Next?
    ensures Closing(m, DenAll(env, QuietCloses(n), m).m, es, script + Shuts(WordKs(l, n)))
  {
    hide Get, DenAll, Calls, Play, Fd, Shuts, LastFd;
    if n == 0 {
      ClosingNone(m, es, script);
      DenNone(env, m);
    } else {
      var i := n - 1;
      CloseWords(env, m, l, es, script, i);
      var m1 := DenAll(env, QuietCloses(i), m).m;
      var off := -STACK_SZ + 4 * i;
      DenSnoc(env, QuietCloses(i), CloseStackQuiet(off), m);
      CloseWord(m1, StackPtr(0), off, m1.w.stack, 4 * i, NoDbg);
      WordHolds(m.w, l, es, i);
      ClosingMore(m, m1, DenAll(env, QuietCloses(n), m).m, es, script, WordKs(l, i), WordSource(l, i), i < 2 + |l.progs|);
    }
  }

  lemma WordHolds(w: World, l: Ledger, es: seq<Event>, i: nat)
    requires InPlace(w, l, es) && i < 2 + MAX_USED_PROGS
    ensures Get(w.stack, 4 * i, 4) == Fd(es, WordSource(l, i)) && |w.stack| == STACK_SZ
  {
    hide Get, LastFd;
    if i >= 2 {
      assert Get(w.stack, 8 + 4 * (i - 2), 4) == ProgFd(es, l, i - 2);
    }
  }

  lemma {:induction false} CloseMaps(env: Env, cfg: Config, g: Gen, m: M, l: Ledger, es: seq<Event>, script: seq<Step>,
    places: seq<Source>, n: nat)
    requires m.w.ok && InPlace(m.w, l, es) && n <= MAX_USED_MAPS && |m.w.blob| >= FD_AREA
    requires MapCloses(cfg, g, n).0.Live? && |MapCloses(cfg, g, n).0.data| <= |m.w.blob|
    requires Calls(m.w.trace) == es && m.w.trace == Play(es, script + Shuts(places))
    ensures DenAll(env, MapCloses(cfg, g, n).1, m).Next?
    ensures Closing(m, DenAll(env, MapCloses(cfg, g, n).1, m).m, es, script + Shuts(places + MapKs(l, n)))
  {
    hide Get, DenAll, Calls, Play, AddDebug, Fd, Shuts, LastFd, DataGrown, InPlace, MapFd;
    if n == 0 {
      assert places + [] == places;
      DenNone(env, m);
    } else {
      var i := n - 1;
      var (g1, gs) := MapCloses(cfg, g, i);
      var (g2, dbg) := AddDebug(cfg, g1, MsgClose, false);
      AddDebugAt(cfg, g1, MsgClose, false);
      CloseMaps(env, cfg, g, m, l, es, script, places, i);
      var m1 := DenAll(env, gs, m).m;
      DenSnoc(env, gs, CloseBlob(FdSlot(i), dbg), m);
      CloseWord(m1, BlobPtr(FdSlot(i)), 0, m1.w.blob, FdSlot(i), dbg);
      assert Get(m.w.blob, FdSlot(i), 4) == MapFd(es, l, i) == Fd(es, MapSource(l, i)) by { MapHolds(m.w, l, es, i); }
      ClosingMore(m, m1, DenAll(env, MapCloses(cfg, g, n).1, m).m, es, script, places + MapKs(l, i),
        MapSource(l, i), i < |l.maps|);
      assert places + MapKs(l, i) + One(MapSource(l, i), i < |l.maps|) == places + MapKs(l, n);
    }
  }

  lemma MapHolds(w: World, l: Ledger, es: seq<Event>, i: nat)
    requires InPlace(w, l, es) && i < MAX_USED_MAPS
    ensures Get(w.blob, FdSlot(i), 4) == MapFd(es, l, i) == Fd(es, MapSource(l, i))
  {
    hide Get, LastFd;
  }
}
