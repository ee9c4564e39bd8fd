/** Each command of a run is given the attribute its API call stands for. */
module LoaderGiven {
  import opened LoaderBytes
  import opened LoaderMachine
  import opened LoaderIR
  import opened LoaderGen
  import opened LoaderFrame
  import opened LoaderShape
  import opened LoaderLedger
  import opened LoaderAttr
  import opened LoaderFollow
  import opened LoaderSave

  // The room the skeleton reserves in the context.
  predicate CtxRoom(cfg: Config, ctx: Bytes) {
    |ctx| >= CtxProgFd(cfg.nrMaps, cfg.nrProgs)
  }

  // An attribute about to be filled in: g is the generator before its data was added, g' one after
  // that, m the run so far.
  ghost predicate Ready(env: Env, g: Gen, g': Gen, sh: Shape, m: M, d: Bytes, ctx: Bytes, cs: seq<Request>) {
    g'.Live? && Tracks(env, g, m.w, d, ctx, cs) && g.data <= g'.data <= d
    && |g.data| <= sh.attr && sh.attr + sh.size <= |g'.data|
    && AllQuiet(sh.pre, |g.data|, |g'.data|, |ctx|)
  }

  lemma SoundWhen(env: Env, g: Gen, g': Gen, sh: Shape, m: M, d: Bytes, ctx: Bytes, cs: seq<Request>)
    requires Ready(env, g, g', sh, m, d, ctx, cs)
    ensures g.Live? && g'.Live? && 0 <= |g.data| <= |g'.data| && Sound(m.w, |g'.data|, |ctx|) && m.w.ctx == ctx
  {
  }

  lemma AllQuietParts(before: seq<Group>, x: Group, after: seq<Group>, lo: int, hi: int, ctxSz: int)
    requires AllQuiet(before + [x] + after, lo, hi, ctxSz)
    ensures AllQuiet(before, lo, hi, ctxSz) && Quiet(x, lo, hi, ctxSz) && AllQuiet(after, lo, hi, ctxSz)
  {
    hide Quiet;
    var all := before + [x] + after;
    assert x in all;
    assert forall g | g in before :: g in all;
    assert forall g | g in after :: g in all;
  }

  // --- one field

  // A field written by a group that later groups avoid.
  lemma Written(env: Env, g: Gen, g': Gen, sh: Shape, m: M, d: Bytes, ctx: Bytes, cs: seq<Request>,
                before: seq<Group>, x: Group, after: seq<Group>, v: nat)
    requires Ready(env, g, g', sh, m, d, ctx, cs) && sh.pre == before + [x] + after
    requires (Writes(x).1 == 4 && v < TWO32) || (Writes(x).1 == 8 && v < TWO64)
    requires forall h | h in after :: Avoids(h, Writes(x).0, Writes(x).1)
    requires Payload(env, x, DenAll(env, before, m).m.w) == LittleEndian(v, Writes(x).1)
    ensures Get(Before(env, sh, m).blob, Writes(x).0, Writes(x).1) == v
  {
    hide Tracks, DenAll, Avoids, LittleEndian, FromLittleEndian, Payload, Writes, Quiet, Pow256;
    SoundWhen(env, g, g', sh, m, d, ctx, cs);
    AllQuietParts(before, x, after, |g.data|, |g'.data|, |ctx|);
    QuietField(env, before, x, after, m, |g.data|, |g'.data|, |ctx|);
    QuietRun(env, sh.pre, m, |g.data|, |g'.data|, |ctx|);
    BytesGet(Before(env, sh, m), Writes(x).0, Writes(x).1, v);
  }

  lemma BytesGet(w: World, off: int, n: nat, v: nat)
    requires BlobSlice(w, off, n) == LittleEndian(v, n) && ((n == 4 && v < TWO32) || (n == 8 && v < TWO64))
    ensures Get(w.blob, off, n) == v
  {
    hide LittleEndian, FromLittleEndian;
    ReadBack(v, n);
    assert Pow256(4) == TWO32 && Pow256(8) == TWO64;
  }

  lemma Address64(env: Env, g: Gen, g': Gen, sh: Shape, m: M, d: Bytes, ctx: Bytes, cs: seq<Request>,
                  before: seq<Group>, off: int, p: int, after: seq<Group>)
    requires Ready(env, g, g', sh, m, d, ctx, cs) && sh.pre == before + [RelStore(off, p)] + after
    requires forall h | h in after :: Avoids(h, off, 8)
    ensures Get(Before(env, sh, m).blob, off, 8) == U64(env.blobBase + p)
  {
    hide Ready, DenAll, Avoids, LittleEndian, FromLittleEndian, Get;
    Written(env, g, g', sh, m, d, ctx, cs, before, RelStore(off, p), after, U64(env.blobBase + p));
  }

  // The world in the middle of filling in an attribute.
  lemma Middle(env: Env, g: Gen, g': Gen, sh: Shape, m: M, d: Bytes, ctx: Bytes, cs: seq<Request>,
               before: seq<Group>, x: Group, after: seq<Group>)
    requires Ready(env, g, g', sh, m, d, ctx, cs) && sh.pre == before + [x] + after
    ensures g.Live? && g'.Live? && Framed(m.w, DenAll(env, before, m).m.w, |g.data|, |g'.data|)
    ensures Quiet(x, |g.data|, |g'.data|, |ctx|)
  {
    hide Tracks, DenAll, Quiet;
    SoundWhen(env, g, g', sh, m, d, ctx, cs);
    AllQuietParts(before, x, after, |g.data|, |g'.data|, |ctx|);
    QuietRun(env, before, m, |g.data|, |g'.data|, |ctx|);
  }

  // A field copied from a stack word.
  lemma FromStack(env: Env, g: Gen, g': Gen, sh: Shape, m: M, d: Bytes, ctx: Bytes, cs: seq<Request>,
                  before: seq<Group>, off: int, so: int, after: seq<Group>)
    requires Ready(env, g, g', sh, m, d, ctx, cs) && sh.pre == before + [Stack2Blob(off, W, so)] + after
    requires forall h | h in after :: Avoids(h, off, 4)
    ensures Get(Before(env, sh, m).blob, off, 4) == Get(m.w.stack, STACK_SZ + so, 4)
  {
    hide Tracks, DenAll, Avoids, Get;
    var x := Stack2Blob(off, W, so);
    Middle(env, g, g', sh, m, d, ctx, cs, before, x, after);
    Word(m.w.stack, STACK_SZ + so);
    Written(env, g, g', sh, m, d, ctx, cs, before, x, after, Get(m.w.stack, STACK_SZ + so, 4));
  }

  // A field copied from a map slot.
  lemma FromSlot(env: Env, g: Gen, g': Gen, sh: Shape, m: M, d: Bytes, ctx: Bytes, cs: seq<Request>,
                 before: seq<Group>, off: int, i: nat, after: seq<Group>)
    requires Ready(env, g, g', sh, m, d, ctx, cs) && sh.pre == before + [Blob2Blob(off, W, FdSlot(i))] + after
    requires i < MAX_USED_MAPS && forall h | h in after :: Avoids(h, off, 4)
    ensures Get(Before(env, sh, m).blob, off, 4) == Get(m.w.blob, FdSlot(i), 4)
  {
    hide DenAll, Den, Avoids, Get, Given, LedgerAfter, Calls, Play, InPlace, Followed;
    var x := Blob2Blob(off, W, FdSlot(i));
    Middle(env, g, g', sh, m, d, ctx, cs, before, x, after);
    var w := DenAll(env, before, m).m.w;
    SlotKept(m.w.blob, w.blob, |g.data|, i);
    Word(m.w.blob, FdSlot(i));
    Written(env, g, g', sh, m, d, ctx, cs, before, x, after, Get(m.w.blob, FdSlot(i), 4));
  }

  lemma Bound8(b: Bytes, off: int)
    ensures Get(b, off, 8) < TWO64 && U64(S64(Get(b, off, 8))) == Get(b, off, 8)
  {
    if InRange(b, off, 8) {
      FromBound(b[off..off + 8]);
      assert Pow256(8) == TWO64;
    }
  }

  // A field copied from the context.
  lemma FromCtx(env: Env, g: Gen, g': Gen, sh: Shape, m: M, d: Bytes, ctx: Bytes, cs: seq<Request>,
                before: seq<Group>, off: int, sz: Size, at: int, after: seq<Group>)
    requires Ready(env, g, g', sh, m, d, ctx, cs) && sh.pre == before + [Ctx2Blob(off, sz, at, false)] + after
    requires (sz == W || sz == DW) && forall h | h in after :: Avoids(h, off, Width(sz))
    ensures Get(Before(env, sh, m).blob, off, Width(sz)) == Get(ctx, at, Width(sz))
  {
    hide Tracks, DenAll, Avoids, Get, LittleEndian;
    var x := Ctx2Blob(off, sz, at, false);
    SoundWhen(env, g, g', sh, m, d, ctx, cs);
    Middle(env, g, g', sh, m, d, ctx, cs, before, x, after);
    Word(ctx, at);
    Bound8(ctx, at);
    Written(env, g, g', sh, m, d, ctx, cs, before, x, after, Get(ctx, at, Width(sz)));
  }

  // --- unchanged bytes

  // New data that no group writes is what was added to the blob.
  lemma NewData(env: Env, g: Gen, g': Gen, sh: Shape, m: M, d: Bytes, ctx: Bytes, cs: seq<Request>, p: int, n: nat)
    requires Ready(env, g, g', sh, m, d, ctx, cs)
    requires |g.data| <= p && p + n <= |g'.data| && forall h | h in sh.pre :: Avoids(h, p, n)
    ensures InRange(Before(env, sh, m).blob, p, n) && Before(env, sh, m).blob[p..p + n] == g'.data[p..p + n]
  {
    hide DenAll, Avoids, Given, LedgerAfter, Calls, Play, InPlace;
    SoundWhen(env, g, g', sh, m, d, ctx, cs);
    QuietKeeps(env, sh.pre, m, |g.data|, |g'.data|, |ctx|, p, n);
    NewBlob(m.w.blob, d, |g.data|, p, n);
    Slice(g'.data, d, p, n);
  }

  lemma NewBlob(b: Bytes, d: Bytes, lo: int, p: int, n: nat)
    requires 0 <= lo <= p && p + n <= |d| == |b| && b[lo..] == d[lo..]
    ensures b[p..p + n] == d[p..p + n]
  {
    assert b[p..p + n] == b[lo..][p - lo..p - lo + n];
    assert d[p..p + n] == d[lo..][p - lo..p - lo + n];
  }

  // The group writes one of the fields of the n bytes at attr, or none of them.
  predicate Fills(h: Group, attr: int, n: nat, fields: seq<(int, nat)>) {
    Avoids(h, attr, n) || (Writes(h).0 - attr, Writes(h).1) in fields
  }

  lemma FillsOutside(h: Group, attr: int, n: nat, fields: seq<(int, nat)>, p: int)
    requires Fills(h, attr, n, fields) && 0 <= p < n && Outside(p, fields)
    ensures Avoids(h, attr + p, 1)
  {
    hide Writes;
  }

  // What was added for the attribute is still there outside the fields.
  lemma Template(env: Env, g: Gen, g': Gen, sh: Shape, m: M, d: Bytes, ctx: Bytes, cs: seq<Request>, t: Bytes,
                 fields: seq<(int, nat)>)
    requires Ready(env, g, g', sh, m, d, ctx, cs) && |t| == sh.size && g'.data[sh.attr..sh.attr + sh.size] == t
    requires forall h | h in sh.pre :: Fills(h, sh.attr, sh.size, fields)
    ensures Like(AttrOf(CommandEvent(env, sh, Before(env, sh, m))), t, fields)
  {
    hide Tracks, DenAll, Avoids, Fills, Outside, Quiet;
    SoundWhen(env, g, g', sh, m, d, ctx, cs);
    QuietRun(env, sh.pre, m, |g.data|, |g'.data|, |ctx|);
    var b := Before(env, sh, m).blob;
    forall p | 0 <= p < |t| && Outside(p, fields) ensures b[sh.attr + p] == t[p] {
      forall h | h in sh.pre ensures Avoids(h, sh.attr + p, 1) {
        FillsOutside(h, sh.attr, sh.size, fields, p);
      }
      NewData(env, g, g', sh, m, d, ctx, cs, sh.attr + p, 1);
      assert b[sh.attr + p] == b[sh.attr + p..sh.attr + p + 1][0];
      assert g'.data[sh.attr + p] == g'.data[sh.attr..sh.attr + sh.size][p];
    }
  }

  lemma AttrRange(env: Env, g: Gen, g': Gen, sh: Shape, m: M, d: Bytes, ctx: Bytes, cs: seq<Request>)
    requires Ready(env, g, g', sh, m, d, ctx, cs)
    ensures InRange(Before(env, sh, m).blob, sh.attr, sh.size)
  {
    hide Tracks, DenAll, Quiet;
    SoundWhen(env, g, g', sh, m, d, ctx, cs);
    QuietRun(env, sh.pre, m, |g.data|, |g'.data|, |ctx|);
  }

  // A field of the attribute the kernel sees.
  lemma AttrGet(env: Env, g: Gen, g': Gen, sh: Shape, m: M, d: Bytes, ctx: Bytes, cs: seq<Request>, off: int, n: nat)
    requires Ready(env, g, g', sh, m, d, ctx, cs) && 0 <= off && off + n <= sh.size
    ensures Get(AttrOf(CommandEvent(env, sh, Before(env, sh, m))), off, n) == Get(Before(env, sh, m).blob, sh.attr + off, n)
  {
    hide Ready, Before, Get;
    AttrRange(env, g, g', sh, m, d, ctx, cs);
    AttrField(Before(env, sh, m).blob, sh.attr, sh.size, off, n);
  }

  lemma AttrField(b: Bytes, attr: int, size: nat, off: int, n: nat)
    requires InRange(b, attr, size) && 0 <= off && off + n <= size
    ensures Get(b[attr..attr + size], off, n) == Get(b, attr + off, n)
  {
    SubSlice(b, attr, size, off, n);
  }

  lemma Points(env: Env, g: Gen, g': Gen, sh: Shape, m: M, d: Bytes, ctx: Bytes, cs: seq<Request>,
               before: seq<Group>, off: int, p: int, after: seq<Group>, bytes: Bytes)
    requires Ready(env, g, g', sh, m, d, ctx, cs) && sh.pre == before + [RelStore(sh.attr + off, p)] + after
    requires 0 <= off && off + 8 <= sh.size && forall h | h in after :: Avoids(h, sh.attr + off, 8)
    requires |g.data| <= p && p + |bytes| <= |g'.data| && g'.data[p..p + |bytes|] == bytes
    requires forall h | h in sh.pre :: Avoids(h, p, |bytes|)
    ensures PointsAt(env, CommandEvent(env, sh, Before(env, sh, m)), off, bytes)
  {
    hide Tracks, DenAll, Avoids, Get;
    SoundWhen(env, g, g', sh, m, d, ctx, cs);
    QuietRun(env, sh.pre, m, |g.data|, |g'.data|, |ctx|);
    Address64(env, g, g', sh, m, d, ctx, cs, before, sh.attr + off, p, after);
    NewData(env, g, g', sh, m, d, ctx, cs, p, |bytes|);
    AttrGet(env, g, g', sh, m, d, ctx, cs, off, 8);
  }

  // What a run that tracks the account holds in the map slots and the stack.
  lemma Holding(env: Env, g: Gen, w: World, d: Bytes, ctx: Bytes, cs: seq<Request>)
    requires Tracks(env, g, w, d, ctx, cs)
    ensures g.Live? && w.ctx == ctx
    ensures forall i: nat | i < MAX_USED_MAPS :: Get(w.blob, FdSlot(i), 4) == MapFd(Calls(w.trace), LedgerAfter(cs), i)
    ensures Get(w.stack, 0, 4) == Fd(Calls(w.trace), LedgerAfter(cs).btf)
    ensures Get(w.stack, 4, 4) == Fd(Calls(w.trace), LedgerAfter(cs).inner)
    ensures |g.data| >= FD_AREA
  {
    hide Get, LedgerAfter, Calls, Play, Followed, Fd, LastFd;
  }

  // --- one lemma per command

  lemma BtfGiven(env: Env, cfg: Config, g: Gen, p: Pending, raw: Bytes, m: M, d: Bytes, ctx: Bytes, cs: seq<Request>)
    returns (sh: Shape)
    requires GenLoadBtf(cfg, g, raw).Live? && Tracks(env, g, m.w, d, ctx, cs) && CtxRoom(cfg, ctx)
    requires GenLoadBtf(cfg, g, raw).data <= d
    ensures var g' := GenLoadBtf(cfg, g, raw);
      Ready(env, g, g', sh, m, d, ctx, cs) && Fits(sh, g, g') && sh.post == [SaveToStack(OFF_BTF_FD)]
      && g' == g.(groups := g'.groups, data := g'.data, pieces := g'.pieces)
      && Given(env, Do(LoadBtf(raw), p), LedgerAfter(cs), Calls(m.w.trace), ctx, CommandEvent(env, sh, Before(env, sh, m)))
  {
    hide Tracks, DenAll, GenLoadBtf, Get, BtfAttr, LedgerAfter, Calls, Before, AttrOf, Like, PointsAt, Fills, Avoids, Quiet;
    hide AsksBtf;
    var g' := GenLoadBtf(cfg, g, raw);
    sh := BtfShape(cfg, g, raw);
    var at, pre := sh.attr, sh.pre;
    BtfApart(pre, |g.data|, |raw|, at, |g'.data|, |ctx|);
    Template(env, g, g', sh, m, d, ctx, cs, BtfAttr(|raw|), BTF_FIELDS);
    BtfAsked(AttrOf(CommandEvent(env, sh, Before(env, sh, m))), raw);
    Points(env, g, g', sh, m, d, ctx, cs, pre[..3], BTF_BTF, |g.data|, [], raw);
    FromCtx(env, g, g', sh, m, d, ctx, cs, [], at + BTF_LOG_LEVEL, W, CTX_LOG_LEVEL, pre[1..]);
    FromCtx(env, g, g', sh, m, d, ctx, cs, pre[..1], at + BTF_LOG_SIZE, W, CTX_LOG_SIZE, pre[2..]);
    FromCtx(env, g, g', sh, m, d, ctx, cs, pre[..2], at + BTF_LOG_BUF, DW, CTX_LOG_BUF, pre[3..]);
    AttrGet(env, g, g', sh, m, d, ctx, cs, BTF_LOG_LEVEL, 4);
    AttrGet(env, g, g', sh, m, d, ctx, cs, BTF_LOG_SIZE, 4);
    AttrGet(env, g, g', sh, m, d, ctx, cs, BTF_LOG_BUF, 8);
  }

  // The fields of a BTF's attribute do not overlap.
  lemma BtfApart(p: seq<Group>, lo: int, n: nat, attr: int, hi: int, ctxSz: int)
    requires 0 <= lo && lo + n <= attr && attr + BTF_ATTR_SZ <= hi && ctxSz >= CTX_SZ
    requires p == [
      Ctx2Blob(attr + BTF_LOG_LEVEL, W, CTX_LOG_LEVEL, false),
      Ctx2Blob(attr + BTF_LOG_SIZE, W, CTX_LOG_SIZE, false),
      Ctx2Blob(attr + BTF_LOG_BUF, DW, CTX_LOG_BUF, false),
      RelStore(attr + BTF_BTF, lo)]
    ensures AllQuiet(p, lo, hi, ctxSz)
    ensures p == [] + [p[0]] + p[1..] == p[..1] + [p[1]] + p[2..] == p[..2] + [p[2]] + p[3..] == p[..3] + [p[3]] + []
    ensures forall h | h in p :: Avoids(h, lo, n)
    ensures forall h | h in p[1..] :: Avoids(h, attr + BTF_LOG_LEVEL, 4)
    ensures forall h | h in p[2..] :: Avoids(h, attr + BTF_LOG_SIZE, 4)
    ensures forall h | h in p[3..] :: Avoids(h, attr + BTF_LOG_BUF, 8)
    ensures forall h | h in p :: Fills(h, attr, BTF_ATTR_SZ, BTF_FIELDS)
  {
  }

  lemma MapAttrMax(s: MapSpec)
    ensures MapAttr(s)[MAP_MAX_ENTRIES..MAP_MAX_ENTRIES + 4] == LE4(s.maxEntries)
  {
  }

  lemma MaxEntries(env: Env, g: Gen, g': Gen, sh: Shape, m: M, d: Bytes, ctx: Bytes, cs: seq<Request>,
                   before: seq<Group>, s: MapSpec, idx: nat)
    requires Ready(env, g, g', sh, m, d, ctx, cs) && sh.size == MAP_ATTR_SZ
    requires g'.data[sh.attr..sh.attr + MAP_ATTR_SZ] == MapAttr(s) && CtxMaxEntries(idx) + 4 <= |ctx|
    requires sh.pre == before + [Ctx2Blob(sh.attr + MAP_MAX_ENTRIES, W, CtxMaxEntries(idx), true)]
    requires forall h | h in before :: Avoids(h, sh.attr + MAP_MAX_ENTRIES, 4)
    ensures Get(Before(env, sh, m).blob, sh.attr + MAP_MAX_ENTRIES, 4) == MaxEntriesOf(s, idx, ctx)
  {
    hide DenAll, Avoids, Get, MapAttr, Given, LedgerAfter, Calls, Play, InPlace, Followed;
    var off := sh.attr + MAP_MAX_ENTRIES;
    var x := Ctx2Blob(off, W, CtxMaxEntries(idx), true);
    assert sh.pre == before + [x] + [];
    Middle(env, g, g', sh, m, d, ctx, cs, before, x, []);
    AllQuietParts(before, x, [], |g.data|, |g'.data|, |ctx|);
    var w := DenAll(env, before, m).m.w;
    var c := Get(ctx, CtxMaxEntries(idx), 4);
    Word(ctx, CtxMaxEntries(idx));
    MapAttrMax(s);
    if c == 0 {
      SoundWhen(env, g, g', sh, m, d, ctx, cs);
      QuietKeeps(env, before, m, |g.data|, |g'.data|, |ctx|, off, 4);
      NewBlob(m.w.blob, d, |g.data|, off, 4);
      Slice(g'.data, d, off, 4);
      SubSlice(g'.data, sh.attr, MAP_ATTR_SZ, MAP_MAX_ENTRIES, 4);
      Written(env, g, g', sh, m, d, ctx, cs, before, x, [], s.maxEntries);
    } else {
      Written(env, g, g', sh, m, d, ctx, cs, before, x, [], c);
    }
  }

  lemma SubSlice(a: Bytes, p: int, n: nat, i: nat, k: nat)
    requires InRange(a, p, n) && i + k <= n
    ensures a[p + i..p + i + k] == a[p..p + n][i..i + k]
  {
    var x, y := a[p + i..p + i + k], a[p..p + n][i..i + k];
    assert forall j | 0 <= j < k :: x[j] == y[j];
  }

  lemma MapFills(s: MapSpec, idx: int, attr: int)
    ensures forall h | h in MapPre(s, idx, attr) :: Fills(h, attr, MAP_ATTR_SZ, MapFields(s, idx))
  {
    hide IsOuter;
  }

  lemma MapQuiet(s: MapSpec, idx: int, attr: int, lo: int, hi: int, ctxSz: int)
    requires 0 <= lo <= attr && attr + MAP_ATTR_SZ <= hi && (idx >= 0 ==> CtxMaxEntries(idx) + 4 <= ctxSz)
    ensures AllQuiet(MapPre(s, idx, attr), lo, hi, ctxSz)
  {
    hide IsOuter;
  }

  lemma FieldsApart(attr: int, idx: nat)
    ensures var b, i, x := Stack2Blob(attr + MAP_BTF_FD, W, OFF_BTF_FD), Stack2Blob(attr + MAP_INNER_FD, W, OFF_INNER_MAP_FD),
      Ctx2Blob(attr + MAP_MAX_ENTRIES, W, CtxMaxEntries(idx), true);
      Avoids(i, attr + MAP_BTF_FD, 4) && Avoids(x, attr + MAP_BTF_FD, 4) && Avoids(x, attr + MAP_INNER_FD, 4)
      && Avoids(b, attr + MAP_MAX_ENTRIES, 4) && Avoids(i, attr + MAP_MAX_ENTRIES, 4)
  {
  }

  // The fields of a map's attribute do not overlap.
  lemma MapApart(s: MapSpec, idx: int, attr: int, lo: int, hi: int, ctxSz: int)
    returns (a: seq<Group>, b: seq<Group>, c: seq<Group>)
    requires 0 <= lo <= attr && attr + MAP_ATTR_SZ <= hi && (idx >= 0 ==> CtxMaxEntries(idx) + 4 <= ctxSz)
    ensures a == if s.btfValueTypeId != 0 then [Stack2Blob(attr + MAP_BTF_FD, W, OFF_BTF_FD)] else []
    ensures b == if IsOuter(s) then [Stack2Blob(attr + MAP_INNER_FD, W, OFF_INNER_MAP_FD)] else []
    ensures c == if idx >= 0 then [Ctx2Blob(attr + MAP_MAX_ENTRIES, W, CtxMaxEntries(idx), true)] else []
    ensures var p := MapPre(s, idx, attr);
      p == a + b + c == (a + b) + c == [] + a + (b + c) && AllQuiet(p, lo, hi, ctxSz)
      && (forall h | h in b + c :: Avoids(h, attr + MAP_BTF_FD, 4)) && (forall h | h in c :: Avoids(h, attr + MAP_INNER_FD, 4))
      && (forall h | h in a + b :: Avoids(h, attr + MAP_MAX_ENTRIES, 4))
      && forall h | h in p :: Fills(h, attr, MAP_ATTR_SZ, MapFields(s, idx))
  {
    hide IsOuter, Fills, Quiet, Avoids;
    MapFills(s, idx, attr);
    MapQuiet(s, idx, attr, lo, hi, ctxSz);
    FieldsApart(attr, if idx >= 0 then idx else 0);
    a := if s.btfValueTypeId != 0 then [Stack2Blob(attr + MAP_BTF_FD, W, OFF_BTF_FD)] else [];
    b := if IsOuter(s) then [Stack2Blob(attr + MAP_INNER_FD, W, OFF_INNER_MAP_FD)] else [];
    c := if idx >= 0 then [Ctx2Blob(attr + MAP_MAX_ENTRIES, W, CtxMaxEntries(idx), true)] else [];
  }

  lemma MapGiven(env: Env, cfg: Config, g: Gen, p: Pending, s: MapSpec, idx: int, m: M, d: Bytes, ctx: Bytes, cs: seq<Request>)
    returns (sh: Shape)
    requires GenMapCreate(cfg, g, s, idx).Live? && Tracks(env, g, m.w, d, ctx, cs) && CtxRoom(cfg, ctx)
    requires var g' := GenMapCreate(cfg, g, s, idx); g'.data <= d && g'.nrMaps <= cfg.nrMaps
    ensures var g' := GenMapCreate(cfg, g, s, idx);
      Ready(env, g, g', sh, m, d, ctx, cs) && Fits(sh, g, g') && MapPost(s, idx, sh.post, |g'.data|)
      && g' == g.(groups := g'.groups, data := g'.data, pieces := g'.pieces, nrMaps := g'.nrMaps)
      && (if idx < 0 then g'.nrMaps == g.nrMaps else idx == g.nrMaps && g'.nrMaps == g.nrMaps + 1)
      && Given(env, Do(MapCreate(s, idx), p), LedgerAfter(cs), Calls(m.w.trace), ctx,
        CommandEvent(env, sh, Before(env, sh, m)))
  {
    hide Tracks, DenAll, GenMapCreate, LedgerAfter, Calls, Play, Followed, Get, MapAttr, Fd, Before, AttrOf, Like,
      Fills, Avoids;
    hide Quiet, MapPost, MapPre, MaxEntriesOf, AsksMap;
    Holding(env, g, m.w, d, ctx, cs);
    var g' := GenMapCreate(cfg, g, s, idx);
    sh := MapShape(cfg, g, s, idx);
    var at := sh.attr;
    var a, b, c := MapApart(s, idx, at, |g.data|, |g'.data|, |ctx|);
    Template(env, g, g', sh, m, d, ctx, cs, MapAttr(s), MapFields(s, idx));
    MapAsked(AttrOf(CommandEvent(env, sh, Before(env, sh, m))), s, idx);
    if s.btfValueTypeId != 0 {
      FromStack(env, g, g', sh, m, d, ctx, cs, [], at + MAP_BTF_FD, OFF_BTF_FD, b + c);
      AttrGet(env, g, g', sh, m, d, ctx, cs, MAP_BTF_FD, 4);
    }
    if IsOuter(s) {
      FromStack(env, g, g', sh, m, d, ctx, cs, a, at + MAP_INNER_FD, OFF_INNER_MAP_FD, c);
      AttrGet(env, g, g', sh, m, d, ctx, cs, MAP_INNER_FD, 4);
    }
    if idx >= 0 {
      MaxEntries(env, g, g', sh, m, d, ctx, cs, a + b, s, idx);
      AttrGet(env, g, g', sh, m, d, ctx, cs, MAP_MAX_ENTRIES, 4);
    }
  }

  lemma FreezeGiven(env: Env, cfg: Config, g: Gen, p: Pending, idx: int, m: M, d: Bytes, ctx: Bytes, cs: seq<Request>)
    returns (sh: Shape)
    requires GenMapFreeze(cfg, g, idx).Live? && Tracks(env, g, m.w, d, ctx, cs) && 0 <= idx < cfg.nrMaps <= MAX_USED_MAPS
    requires GenMapFreeze(cfg, g, idx).data <= d
    ensures var g' := GenMapFreeze(cfg, g, idx);
      Ready(env, g, g', sh, m, d, ctx, cs) && Fits(sh, g, g') && sh.post == []
      && g' == g.(groups := g'.groups, data := g'.data, pieces := g'.pieces)
      && Given(env, Do(MapFreeze(idx), p), LedgerAfter(cs), Calls(m.w.trace), ctx, CommandEvent(env, sh, Before(env, sh, m)))
  {
    hide Tracks, DenAll, GenMapFreeze, LedgerAfter, Calls, Play, Followed, Get, Zeros, Fd, Before, AttrOf, Like;
    Holding(env, g, m.w, d, ctx, cs);
    var g' := GenMapFreeze(cfg, g, idx);
    sh := FreezeShape(cfg, g, idx);
    assert AllQuiet(sh.pre, |g.data|, |g'.data|, |ctx|);
    assert sh.pre == [] + [sh.pre[0]] + [];
    Template(env, g, g', sh, m, d, ctx, cs, Zeros(FREEZE_ATTR_SZ), FREEZE_FIELDS);
    FromSlot(env, g, g', sh, m, d, ctx, cs, [], sh.attr + ELEM_MAP_FD, idx, []);
    AttrGet(env, g, g', sh, m, d, ctx, cs, ELEM_MAP_FD, 4);
  }

  // The fields of an element's attribute do not overlap.
  lemma PopulateApart(p: seq<Group>, outer: nat, inner: nat, lo: int, key: int, attr: int, hi: int, ctxSz: int)
    requires FD_AREA <= lo <= key && key + 4 <= attr && attr + ELEM_ATTR_SZ <= hi && outer < MAX_USED_MAPS
    requires p == [
      Blob2Blob(attr + ELEM_MAP_FD, W, FdSlot(outer)),
      RelStore(attr + ELEM_KEY, key),
      RelStore(attr + ELEM_VALUE, FdSlot(inner))]
    ensures AllQuiet(p, lo, hi, ctxSz)
    ensures p == [] + [p[0]] + p[1..] == p[..1] + [p[1]] + p[2..] == p[..2] + [p[2]] + []
    ensures forall h | h in p :: Avoids(h, key, 4)
    ensures forall h | h in p[1..] :: Avoids(h, attr + ELEM_MAP_FD, 4)
    ensures forall h | h in p[2..] :: Avoids(h, attr + ELEM_KEY, 8)
    ensures forall h | h in p :: Fills(h, attr, ELEM_ATTR_SZ, ELEM_FIELDS)
  {
  }

  lemma PopulateGiven(env: Env, cfg: Config, g: Gen, p: Pending, outer: int, slot: u32, inner: int, m: M, d: Bytes, ctx: Bytes,
    cs: seq<Request>)
    returns (sh: Shape)
    requires GenPopulateOuter(cfg, g, outer, slot, inner).Live? && Tracks(env, g, m.w, d, ctx, cs)
    requires 0 <= outer < cfg.nrMaps && 0 <= inner < cfg.nrMaps <= MAX_USED_MAPS
    requires GenPopulateOuter(cfg, g, outer, slot, inner).data <= d
    ensures var g' := GenPopulateOuter(cfg, g, outer, slot, inner);
      Ready(env, g, g', sh, m, d, ctx, cs) && Fits(sh, g, g') && sh.post == []
      && g' == g.(groups := g'.groups, data := g'.data, pieces := g'.pieces)
      && Given(env, Do(PopulateOuter(outer, slot, inner), p), LedgerAfter(cs), Calls(m.w.trace), ctx,
        CommandEvent(env, sh, Before(env, sh, m)))
  {
    hide Tracks, DenAll, GenPopulateOuter, LedgerAfter, Calls, Play, Followed, Get, LE4, Zeros, Fd, AttrOf, Like, PointsAt;
    hide Fills, Avoids, Quiet;
    Holding(env, g, m.w, d, ctx, cs);
    var g' := GenPopulateOuter(cfg, g, outer, slot, inner);
    var key;
    sh, key := PopulateShape(cfg, g, outer, slot, inner);
    var at, pre := sh.attr, sh.pre;
    PopulateApart(pre, outer, inner, |g.data|, key, at, |g'.data|, |ctx|);
    Template(env, g, g', sh, m, d, ctx, cs, Zeros(ELEM_ATTR_SZ), ELEM_FIELDS);
    FromSlot(env, g, g', sh, m, d, ctx, cs, [], at + ELEM_MAP_FD, outer, pre[1..]);
    Points(env, g, g', sh, m, d, ctx, cs, pre[..1], ELEM_KEY, key, pre[2..], LE4(slot));
    Address64(env, g, g', sh, m, d, ctx, cs, pre[..2], at + ELEM_VALUE, FdSlot(inner), []);
    AttrGet(env, g, g', sh, m, d, ctx, cs, ELEM_MAP_FD, 4);
    AttrGet(env, g, g', sh, m, d, ctx, cs, ELEM_VALUE, 8);
    SlotBefore(env, g, g', sh, m, d, ctx, cs, inner);
  }

  // A slot of the descriptor array while the attribute is filled in.
  lemma SlotBefore(env: Env, g: Gen, g': Gen, sh: Shape, m: M, d: Bytes, ctx: Bytes, cs: seq<Request>, i: nat)
    requires Ready(env, g, g', sh, m, d, ctx, cs) && i < MAX_FD_ARRAY_SZ
    ensures Get(Before(env, sh, m).blob, FdSlot(i), 4) == Get(m.w.blob, FdSlot(i), 4)
  {
    hide DenAll, Quiet, Get, LedgerAfter, Calls, Play, Given, InPlace;
    SoundWhen(env, g, g', sh, m, d, ctx, cs);
    QuietRun(env, sh.pre, m, |g.data|, |g'.data|, |ctx|);
    SlotKept(m.w.blob, Before(env, sh, m).blob, |g.data|, i);
  }

  lemma UpdateGiven(env: Env, cfg: Config, g: Gen, p: Pending, idx: int, value: Bytes, m: M, d: Bytes, ctx: Bytes,
    cs: seq<Request>)
    returns (sh: Shape)
    requires GenMapUpdate(cfg, g, idx, value).Live? && Tracks(env, g, m.w, d, ctx, cs) && CtxRoom(cfg, ctx)
    requires 0 <= idx < cfg.nrMaps <= MAX_USED_MAPS
    requires GenMapUpdate(cfg, g, idx, value).data <= d
    ensures var g' := GenMapUpdate(cfg, g, idx, value);
      Ready(env, g, g', sh, m, d, ctx, cs) && Fits(sh, g, g') && sh.post == []
      && g' == g.(groups := g'.groups, data := g'.data, pieces := g'.pieces)
      && Given(env, Do(MapUpdate(idx, value), p), LedgerAfter(cs), Calls(m.w.trace), ctx,
        CommandEvent(env, sh, Before(env, sh, m)))
  {
    hide Avoids, Quiet, Tracks, DenAll, GenMapUpdate, LedgerAfter, Calls, Play, Followed, Get, Zeros, Fd, Fills, AttrOf, Like;
    hide GivenValue, Before;
    Holding(env, g, m.w, d, ctx, cs);
    var g' := GenMapUpdate(cfg, g, idx, value);
    var key;
    sh, key := UpdateShape(cfg, g, idx, value);
    var at, pre := sh.attr, sh.pre;
    UpdateApart(pre, idx, |g.data|, |value|, key, at, |g'.data|, |ctx|);
    Template(env, g, g', sh, m, d, ctx, cs, Zeros(ELEM_ATTR_SZ), ELEM_FIELDS);
    FromSlot(env, g, g', sh, m, d, ctx, cs, pre[..1], at + ELEM_MAP_FD, idx, pre[2..]);
    Points(env, g, g', sh, m, d, ctx, cs, pre[..2], ELEM_KEY, key, pre[3..], Zeros(4));
    Address64(env, g, g', sh, m, d, ctx, cs, pre[..3], at + ELEM_VALUE, |g.data|, []);
    AttrGet(env, g, g', sh, m, d, ctx, cs, ELEM_MAP_FD, 4);
    AttrGet(env, g, g', sh, m, d, ctx, cs, ELEM_VALUE, 8);
    ValueGiven(env, g, g', sh, m, d, ctx, cs, idx, value);
  }

  // Without an initial value in the context the value recorded at generation time is used.
  lemma InitialKept(env: Env, g: Gen, g': Gen, sh: Shape, m: M, d: Bytes, ctx: Bytes, cs: seq<Request>, idx: int, value: Bytes)
    requires Ready(env, g, g', sh, m, d, ctx, cs) && sh.pre != []
    requires sh.pre[0] == InitialValue(CtxInitialValue(idx), |g.data|, |value|)
    requires |g.data| + |value| <= |g'.data| && g'.data[|g.data|..|g.data| + |value|] == value
    requires forall h | h in sh.pre[1..] :: Avoids(h, |g.data|, |value|) && !h.InitialValue?
    ensures var b, lo := Before(env, sh, m).blob, |g.data|;
      var address, helper := LoadNum(ctx, CtxInitialValue(idx), 8), CopyHelper(LoadNum(ctx, CTX_FLAGS, 4));
      InRange(b, lo, |value|)
      && b[lo..lo + |value|] == (if address == 0 then value else CopiedFrom(env, m.w.calls, helper, address, |value|))
  {
    hide DenAll, Avoids, Given, LedgerAfter, Calls, Play, InPlace, LoadNum, CopiedFrom, CopyHelper;
    var x := sh.pre[0];
    assert sh.pre == [] + [x] + sh.pre[1..];
    Middle(env, g, g', sh, m, d, ctx, cs, [], x, sh.pre[1..]);
    AllQuietParts([], x, sh.pre[1..], |g.data|, |g'.data|, |ctx|);
    SoundWhen(env, g, g', sh, m, d, ctx, cs);
    QuietField(env, [], x, sh.pre[1..], m, |g.data|, |g'.data|, |ctx|);
    QuietRun(env, sh.pre, m, |g.data|, |g'.data|, |ctx|);
    DenNone(env, m);
    NewBlob(m.w.blob, d, |g.data|, |g.data|, |value|);
    Slice(g'.data, d, |g.data|, |value|);
  }

  // The copy is the helper call right before the command.
  lemma CopyIsLast(env: Env, g: Gen, g': Gen, sh: Shape, m: M, d: Bytes, ctx: Bytes, cs: seq<Request>, idx: int)
    requires Ready(env, g, g', sh, m, d, ctx, cs) && sh.pre != [] && sh.pre[0].InitialValue?
    requires sh.pre[0].ctxOff == CtxInitialValue(idx) && forall h | h in sh.pre[1..] :: !h.InitialValue?
    ensures LoadNum(ctx, CtxInitialValue(idx), 8) != 0 ==> Before(env, sh, m).calls == m.w.calls + 1
  {
    hide DenAll, Den, Tracks, LoadNum, Quiet;
    SoundWhen(env, g, g', sh, m, d, ctx, cs);
    var x, lo, hi := sh.pre[0], |g.data|, |g'.data|;
    assert sh.pre == [] + [x] + sh.pre[1..] == [x] + sh.pre[1..];
    AllQuietParts([], x, sh.pre[1..], lo, hi, |ctx|);
    FetchEffect(env, x, m, lo, hi, |ctx|);
    QuietStep(env, x, m, lo, hi, |ctx|);
    QuietCalls(env, sh.pre[1..], Den(env, x, m).m, lo, hi, |ctx|);
    FirstThen(env, x, sh.pre[1..], m);
  }

  // The value that the kernel is pointed at.
  lemma ValueGiven(env: Env, g: Gen, g': Gen, sh: Shape, m: M, d: Bytes, ctx: Bytes, cs: seq<Request>, idx: int, value: Bytes)
    requires Ready(env, g, g', sh, m, d, ctx, cs) && sh.pre != []
    requires sh.pre[0] == InitialValue(CtxInitialValue(idx), |g.data|, |value|)
    requires |g.data| + |value| <= |g'.data| && g'.data[|g.data|..|g.data| + |value|] == value
    requires forall h | h in sh.pre[1..] :: Avoids(h, |g.data|, |value|) && !h.InitialValue?
    requires Get(AttrOf(CommandEvent(env, sh, Before(env, sh, m))), ELEM_VALUE, 8) == U64(env.blobBase + |g.data|)
    ensures GivenValue(env, idx, value, ctx, CommandEvent(env, sh, Before(env, sh, m)))
  {
    hide Ready, Before, AttrOf, Get, LoadNum, CopiedFrom, CopyHelper, Avoids, U64;
    InitialKept(env, g, g', sh, m, d, ctx, cs, idx, value);
    CopyIsLast(env, g, g', sh, m, d, ctx, cs, idx);
  }

  lemma FirstThen(env: Env, x: Group, gs: seq<Group>, m: M)
    requires Den(env, x, m).Next?
    ensures DenAll(env, [x] + gs, m) == DenAll(env, gs, Den(env, x, m).m)
  {
    hide Den;
    assert ([x] + gs)[1..] == gs;
  }

  // The elements of an update's attribute do not overlap.
  lemma UpdateApart(p: seq<Group>, idx: nat, lo: int, n: nat, key: int, attr: int, hi: int, ctxSz: int)
    requires lo >= FD_AREA && idx < MAX_USED_MAPS && lo + n <= key && key + 4 <= attr && attr + ELEM_ATTR_SZ <= hi
    requires CtxInitialValue(idx) + 8 <= ctxSz
    requires p == [
      InitialValue(CtxInitialValue(idx), lo, n),
      Blob2Blob(attr + ELEM_MAP_FD, W, FdSlot(idx)),
      RelStore(attr + ELEM_KEY, key),
      RelStore(attr + ELEM_VALUE, lo)]
    ensures AllQuiet(p, lo, hi, ctxSz)
    ensures p == p[..1] + [p[1]] + p[2..] == p[..2] + [p[2]] + p[3..] == p[..3] + [p[3]] + []
    ensures forall h | h in p :: Avoids(h, key, 4)
    ensures forall h | h in p[1..] :: Avoids(h, lo, n) && !h.InitialValue?
    ensures forall h | h in p[2..] :: Avoids(h, attr + ELEM_MAP_FD, 4)
    ensures forall h | h in p[3..] :: Avoids(h, attr + ELEM_KEY, 8)
    ensures forall h | h in p :: Fills(h, attr, ELEM_ATTR_SZ, ELEM_FIELDS)
  {
  }
}
