/** Loading a program, from its attribute to its descriptor's place: the attribute names what it
    should, the instructions are relocated, and what its symbols obtained is closed. */
module LoaderLoad {
  import opened LoaderBytes
  import opened LoaderMachine
  import opened LoaderIR
  import opened LoaderGen
  import opened LoaderFrame
  import opened LoaderShape
  import opened LoaderLedger
  import opened LoaderAttr
  import opened LoaderFollow
  import opened LoaderSave
  import opened LoaderGiven
  import opened LoaderRelos
  import opened LoaderLookups
  import opened LoaderProg
  import opened LoaderClose

  // --- the attribute

  // A program's pieces and its attribute in the blob, instructions and descriptors apart.
  ghost predicate AttrIs(env: Env, b: Bytes, at: ProgBlob, s: ProgSpec, core: Bytes, fields: seq<(int, nat)>, ctx: Bytes) {
    InRange(b, at.attr, PROG_ATTR_SZ)
    && Like(b[at.attr..at.attr + PROG_ATTR_SZ], ProgAttr(s, core), fields)
    && Get(b, at.attr + PROG_LICENSE, 8) == U64(env.blobBase + at.license)
    && Get(b, at.attr + PROG_INSNS, 8) == U64(env.blobBase + at.insns)
    && Get(b, at.attr + PROG_FUNC_INFO, 8) == U64(env.blobBase + at.funcInfo)
    && Get(b, at.attr + PROG_LINE_INFO, 8) == U64(env.blobBase + at.lineInfo)
    && Get(b, at.attr + PROG_CORE_RELOS, 8) == U64(env.blobBase + at.core)
    && Get(b, at.attr + PROG_FD_ARRAY, 8) == U64(env.blobBase + FD_ARRAY)
    && Get(b, at.attr + PROG_LOG_LEVEL, 4) == Get(ctx, CTX_LOG_LEVEL, 4)
    && Get(b, at.attr + PROG_LOG_SIZE, 4) == Get(ctx, CTX_LOG_SIZE, 4)
    && Get(b, at.attr + PROG_LOG_BUF, 8) == Get(ctx, CTX_LOG_BUF, 8)
  }

  predicate PieceAt(b: Bytes, off: int, bytes: Bytes) {
    InRange(b, off, |bytes|) && b[off..off + |bytes|] == bytes
  }

  predicate PiecesIn(b: Bytes, at: ProgBlob, s: ProgSpec, core: Bytes) {
    PieceAt(b, at.license, s.license + [0]) && PieceAt(b, at.funcInfo, s.funcInfo) && PieceAt(b, at.lineInfo, s.lineInfo)
    && PieceAt(b, at.core, core)
  }

  const PLAIN_FIELDS: seq<(int, nat)> := AttrFields(NOTHING)

  // The groups that fill in a program's attribute do not get into each other's way.
  lemma ProgApart(at: ProgBlob, p: seq<Group>, lo: int, d: Bytes, ctxSz: int, s: ProgSpec, core: Bytes)
    requires p == ProgPointers(at) + ProgFields(at.attr) && ProgIn(d, lo, at, s, core) && ctxSz >= CTX_SZ
    ensures |p| == 10 && AllQuiet(p, lo, |d|, ctxSz)
    ensures forall h | h in p :: Fills(h, at.attr, PROG_ATTR_SZ, PLAIN_FIELDS)
    ensures forall h | h in p :: h.RelStore? || h.Ctx2Blob? || h.Stack2Blob?
    ensures forall h | h in p :: at.attr <= Writes(h).0 && Writes(h).0 + Writes(h).1 <= at.attr + PROG_ATTR_SZ
  {
    hide ProgAttr;
  }

  // The fields in their order.
  lemma ProgSplit(at: ProgBlob, p: seq<Group>)
    requires p == ProgPointers(at) + ProgFields(at.attr)
    ensures p == [
      RelStore(at.attr + PROG_LICENSE, at.license), RelStore(at.attr + PROG_INSNS, at.insns),
      RelStore(at.attr + PROG_FUNC_INFO, at.funcInfo), RelStore(at.attr + PROG_LINE_INFO, at.lineInfo),
      RelStore(at.attr + PROG_CORE_RELOS, at.core), RelStore(at.attr + PROG_FD_ARRAY, FD_ARRAY),
      Ctx2Blob(at.attr + PROG_LOG_LEVEL, W, CTX_LOG_LEVEL, false), Ctx2Blob(at.attr + PROG_LOG_SIZE, W, CTX_LOG_SIZE, false),
      Ctx2Blob(at.attr + PROG_LOG_BUF, DW, CTX_LOG_BUF, false), Stack2Blob(at.attr + PROG_BTF_FD, W, OFF_BTF_FD)]
  {
  }

  // Writing field i is not undone by a later field.
  lemma FieldLast(at: ProgBlob, p: seq<Group>, i: nat, off: int, n: int)
    requires p == ProgPointers(at) + ProgFields(at.attr) && i < |p| && Writes(p[i]) == (off, n)
    ensures p == p[..i] + [p[i]] + p[i + 1..] && forall h | h in p[i + 1..] :: Avoids(h, off, n)
  {
    ProgSplit(at, p);
    hide ProgPointers, ProgFields;
    forall j | i < j < |p| ensures Avoids(p[j], off, n) {
    }
  }

  // A run that has filled in the attribute.
  ghost predicate Filling(env: Env, g: Gen, g1: Gen, at: ProgBlob, sh: Shape, s: ProgSpec, core: Bytes, m: M,
    d: Bytes, ctx: Bytes,
                          cs: seq<Request>) {
    Ready(env, g, g1, sh, m, d, ctx, cs) && sh.attr == at.attr && sh.size == PROG_ATTR_SZ && |ctx| >= CTX_SZ
    && sh.pre == ProgPointers(at) + ProgFields(at.attr)
    && g.Live? && g1.Live? && ProgIn(g1.data, |g.data|, at, s, core)
  }

  // Field i of a program's attribute that is filled in at run time.
  function FieldOf(at: ProgBlob, i: nat): Group
    requires i < 10
  {
    if i < 6 then ProgPointers(at)[i] else ProgFields(at.attr)[i - 6]
  }

  lemma FieldIs(env: Env, g: Gen, g1: Gen, at: ProgBlob, sh: Shape, s: ProgSpec, core: Bytes, m: M, d: Bytes, ctx: Bytes,
                cs: seq<Request>, i: nat)
    requires Filling(env, g, g1, at, sh, s, core, m, d, ctx, cs) && i < 10
    ensures |sh.pre| == 10 && sh.pre[i] == FieldOf(at, i)
  {
    hide Ready, ProgIn;
  }

  lemma PointerFilled(env: Env, g: Gen, g1: Gen, at: ProgBlob, sh: Shape, s: ProgSpec, core: Bytes, m: M, d: Bytes, ctx: Bytes,
                      cs: seq<Request>, i: nat, off: int, p: int)
    requires Filling(env, g, g1, at, sh, s, core, m, d, ctx, cs) && i < 10 && FieldOf(at, i) == RelStore(off, p)
    ensures Get(Before(env, sh, m).blob, off, 8) == U64(env.blobBase + p)
  {
    hide Ready, Before, ProgIn, Get, Avoids;
    FieldIs(env, g, g1, at, sh, s, core, m, d, ctx, cs, i);
    FieldLast(at, sh.pre, i, off, 8);
    hide ProgPointers, ProgFields;
    Address64(env, g, g1, sh, m, d, ctx, cs, sh.pre[..i], off, p, sh.pre[i + 1..]);
  }

  lemma CtxFilled(env: Env, g: Gen, g1: Gen, at: ProgBlob, sh: Shape, s: ProgSpec, core: Bytes, m: M, d: Bytes, ctx: Bytes,
                  cs: seq<Request>, i: nat, off: int, sz: Size, from: int)
    requires Filling(env, g, g1, at, sh, s, core, m, d, ctx, cs) && i < 10 && FieldOf(at, i) == Ctx2Blob(off, sz, from, false)
    requires sz == W || sz == DW
    ensures Get(Before(env, sh, m).blob, off, Width(sz)) == Get(ctx, from, Width(sz))
  {
    hide Ready, Before, ProgIn, Get, Avoids;
    FieldIs(env, g, g1, at, sh, s, core, m, d, ctx, cs, i);
    FieldLast(at, sh.pre, i, off, Width(sz));
    hide ProgPointers, ProgFields;
    FromCtx(env, g, g1, sh, m, d, ctx, cs, sh.pre[..i], off, sz, from, sh.pre[i + 1..]);
  }

  // The fields of the attribute that are addresses.
  predicate Addresses(base: int, b: Bytes, a: int, at: ProgBlob) {
    Get(b, a + PROG_LICENSE, 8) == U64(base + at.license) && Get(b, a + PROG_INSNS, 8) == U64(base + at.insns)
    && Get(b, a + PROG_FUNC_INFO, 8) == U64(base + at.funcInfo) && Get(b, a + PROG_LINE_INFO, 8) == U64(base + at.lineInfo)
    && Get(b, a + PROG_CORE_RELOS, 8) == U64(base + at.core) && Get(b, a + PROG_FD_ARRAY, 8) == U64(base + FD_ARRAY)
  }

  lemma PointersFilled(env: Env, g: Gen, g1: Gen, at: ProgBlob, sh: Shape, s: ProgSpec, core: Bytes, m: M, d: Bytes, ctx: Bytes,
                       cs: seq<Request>)
    requires Filling(env, g, g1, at, sh, s, core, m, d, ctx, cs)
    ensures Addresses(env.blobBase, Before(env, sh, m).blob, at.attr, at)
  {
    hide Filling, Before, Get, U64, Addresses;
    var a := at.attr;
    PointerFilled(env, g, g1, at, sh, s, core, m, d, ctx, cs, 0, a + PROG_LICENSE, at.license);
    PointerFilled(env, g, g1, at, sh, s, core, m, d, ctx, cs, 1, a + PROG_INSNS, at.insns);
    PointerFilled(env, g, g1, at, sh, s, core, m, d, ctx, cs, 2, a + PROG_FUNC_INFO, at.funcInfo);
    PointerFilled(env, g, g1, at, sh, s, core, m, d, ctx, cs, 3, a + PROG_LINE_INFO, at.lineInfo);
    PointerFilled(env, g, g1, at, sh, s, core, m, d, ctx, cs, 4, a + PROG_CORE_RELOS, at.core);
    PointerFilled(env, g, g1, at, sh, s, core, m, d, ctx, cs, 5, a + PROG_FD_ARRAY, FD_ARRAY);
    AreAddresses(env.blobBase, Before(env, sh, m).blob, a, at);
  }

  lemma AreAddresses(base: int, b: Bytes, a: int, at: ProgBlob)
    requires Get(b, a + PROG_LICENSE, 8) == U64(base + at.license) && Get(b, a + PROG_INSNS, 8) == U64(base + at.insns)
    requires Get(b, a + PROG_FUNC_INFO, 8) == U64(base + at.funcInfo)
      && Get(b, a + PROG_LINE_INFO, 8) == U64(base + at.lineInfo)
    requires Get(b, a + PROG_CORE_RELOS, 8) == U64(base + at.core) && Get(b, a + PROG_FD_ARRAY, 8) == U64(base + FD_ARRAY)
    ensures Addresses(base, b, a, at)
  {
    hide Get, U64;
  }

  // The fields of the attribute that come from context and stack.
  predicate Copied(b: Bytes, a: int, ctx: Bytes, btf: int) {
    Get(b, a + PROG_LOG_LEVEL, 4) == Get(ctx, CTX_LOG_LEVEL, 4) && Get(b, a + PROG_LOG_SIZE, 4) == Get(ctx, CTX_LOG_SIZE, 4)
    && Get(b, a + PROG_LOG_BUF, 8) == Get(ctx, CTX_LOG_BUF, 8) && Get(b, a + PROG_BTF_FD, 4) == btf
  }

  lemma LogsFilled(env: Env, g: Gen, g1: Gen, at: ProgBlob, sh: Shape, s: ProgSpec, core: Bytes, m: M, d: Bytes, ctx: Bytes,
                   cs: seq<Request>)
    requires Filling(env, g, g1, at, sh, s, core, m, d, ctx, cs)
    ensures Copied(Before(env, sh, m).blob, at.attr, ctx, Fd(Calls(m.w.trace), LedgerAfter(cs).btf))
  {
    hide Filling, Before, Get, LedgerAfter, Calls, Fd;
    var a := at.attr;
    CtxFilled(env, g, g1, at, sh, s, core, m, d, ctx, cs, 6, a + PROG_LOG_LEVEL, W, CTX_LOG_LEVEL);
    CtxFilled(env, g, g1, at, sh, s, core, m, d, ctx, cs, 7, a + PROG_LOG_SIZE, W, CTX_LOG_SIZE);
    CtxFilled(env, g, g1, at, sh, s, core, m, d, ctx, cs, 8, a + PROG_LOG_BUF, DW, CTX_LOG_BUF);
    StackFilled(env, g, g1, at, sh, s, core, m, d, ctx, cs, 9, a + PROG_BTF_FD, OFF_BTF_FD);
    BtfWord(env, g, g1, at, sh, s, core, m, d, ctx, cs);
  }

  lemma BtfWord(env: Env, g: Gen, g1: Gen, at: ProgBlob, sh: Shape, s: ProgSpec, core: Bytes, m: M, d: Bytes, ctx: Bytes,
                cs: seq<Request>)
    requires Filling(env, g, g1, at, sh, s, core, m, d, ctx, cs)
    ensures Get(m.w.stack, STACK_SZ + OFF_BTF_FD, 4) == Fd(Calls(m.w.trace), LedgerAfter(cs).btf)
  {
    FillingTracks(env, g, g1, at, sh, s, core, m, d, ctx, cs);
    hide Filling, Get, LedgerAfter, Calls, Fd, Tracks;
    Holding(env, g, m.w, d, ctx, cs);
  }

  lemma FillingTracks(env: Env, g: Gen, g1: Gen, at: ProgBlob, sh: Shape, s: ProgSpec, core: Bytes, m: M, d: Bytes, ctx: Bytes,
                      cs: seq<Request>)
    requires Filling(env, g, g1, at, sh, s, core, m, d, ctx, cs)
    ensures Tracks(env, g, m.w, d, ctx, cs)
  {
    hide Tracks, ProgIn, Quiet;
  }

  lemma StackFilled(env: Env, g: Gen, g1: Gen, at: ProgBlob, sh: Shape, s: ProgSpec, core: Bytes, m: M, d: Bytes, ctx: Bytes,
                    cs: seq<Request>, i: nat, off: int, so: int)
    requires Filling(env, g, g1, at, sh, s, core, m, d, ctx, cs) && i < 10 && FieldOf(at, i) == Stack2Blob(off, W, so)
    ensures Get(Before(env, sh, m).blob, off, 4) == Get(m.w.stack, STACK_SZ + so, 4)
  {
    hide Ready, Before, ProgIn, Get, Avoids;
    FieldIs(env, g, g1, at, sh, s, core, m, d, ctx, cs, i);
    FieldLast(at, sh.pre, i, off, 4);
    hide ProgPointers, ProgFields;
    FromStack(env, g, g1, sh, m, d, ctx, cs, sh.pre[..i], off, so, sh.pre[i + 1..]);
  }

  lemma AttrFilled(env: Env, g: Gen, g1: Gen, at: ProgBlob, sh: Shape, s: ProgSpec, core: Bytes, m: M, d: Bytes, ctx: Bytes,
                   cs: seq<Request>)
    requires Filling(env, g, g1, at, sh, s, core, m, d, ctx, cs)
    ensures AttrIs(env, Before(env, sh, m).blob, at, s, core, PLAIN_FIELDS, ctx)
    ensures Get(Before(env, sh, m).blob, at.attr + PROG_BTF_FD, 4) == Fd(Calls(m.w.trace), LedgerAfter(cs).btf)
  {
    hide Filling, Before, Get, Like, ProgAttr, LedgerAfter, Calls, Fd, U64;
    TemplateFilled(env, g, g1, at, sh, s, core, m, d, ctx, cs);
    PointersFilled(env, g, g1, at, sh, s, core, m, d, ctx, cs);
    LogsFilled(env, g, g1, at, sh, s, core, m, d, ctx, cs);
  }

  lemma TemplateFilled(env: Env, g: Gen, g1: Gen, at: ProgBlob, sh: Shape, s: ProgSpec, core: Bytes, m: M, d: Bytes, ctx: Bytes,
                       cs: seq<Request>)
    requires Filling(env, g, g1, at, sh, s, core, m, d, ctx, cs)
    ensures var b := Before(env, sh, m).blob;
      InRange(b, at.attr, PROG_ATTR_SZ) && Like(b[at.attr..at.attr + PROG_ATTR_SZ], ProgAttr(s, core), PLAIN_FIELDS)
  {
    hide ProgPointers, ProgFields, Before, Ready, Like, ProgAttr, Fills, Quiet, Writes;
    ProgApart(at, sh.pre, |g.data|, g1.data, |ctx|, s, core);
    AttrRange(env, g, g1, sh, m, d, ctx, cs);
    Template(env, g, g1, sh, m, d, ctx, cs, ProgAttr(s, core), PLAIN_FIELDS);
  }

  // The pieces of the program as the code finds them.
  lemma PieceFilled(env: Env, g: Gen, g1: Gen, at: ProgBlob, sh: Shape, s: ProgSpec, core: Bytes, m: M, d: Bytes, ctx: Bytes,
                    cs: seq<Request>, off: int, bytes: Bytes)
    requires Filling(env, g, g1, at, sh, s, core, m, d, ctx, cs) && PieceAt(g1.data, off, bytes)
    requires |g.data| <= off && off + |bytes| <= at.attr
    ensures PieceAt(Before(env, sh, m).blob, off, bytes)
  {
    hide ProgPointers, ProgFields, Before, Ready, ProgAttr, Quiet;
    ProgApart(at, sh.pre, |g.data|, g1.data, |ctx|, s, core);
    forall h | h in sh.pre ensures Avoids(h, off, |bytes|) {
    }
    NewData(env, g, g1, sh, m, d, ctx, cs, off, |bytes|);
  }

  lemma PiecesFilled(env: Env, g: Gen, g1: Gen, at: ProgBlob, sh: Shape, s: ProgSpec, core: Bytes, m: M, d: Bytes, ctx: Bytes,
                     cs: seq<Request>)
    requires Filling(env, g, g1, at, sh, s, core, m, d, ctx, cs)
    ensures PiecesIn(Before(env, sh, m).blob, at, s, core) && PieceAt(Before(env, sh, m).blob, at.insns, s.insns)
  {
    hide ProgPointers, ProgFields, Before, Ready, ProgAttr;
    PieceFilled(env, g, g1, at, sh, s, core, m, d, ctx, cs, at.license, s.license + [0]);
    PieceFilled(env, g, g1, at, sh, s, core, m, d, ctx, cs, at.insns, s.insns);
    PieceFilled(env, g, g1, at, sh, s, core, m, d, ctx, cs, at.funcInfo, s.funcInfo);
    PieceFilled(env, g, g1, at, sh, s, core, m, d, ctx, cs, at.lineInfo, s.lineInfo);
    PieceFilled(env, g, g1, at, sh, s, core, m, d, ctx, cs, at.core, core);
  }

  // --- the same bytes later on

  // Bytes of the attribute and the pieces, the instructions and, when hole is set, the words of
  // the attach target apart.
  predicate Fixed(at: ProgBlob, s: ProgSpec, end: int, hole: bool, x: int) {
    FD_AREA <= x < end && !(at.insns <= x < at.insns + |s.insns|)
    && (hole ==> !(at.attr + ATTR_ATTACH_BTF_ID <= x < at.attr + ATTR_ATTACH_BTF_OBJ_FD + 4))
  }

  ghost predicate SameFixed(at: ProgBlob, s: ProgSpec, end: int, hole: bool, b: Bytes, b2: Bytes) {
    |b2| == |b| && forall x | 0 <= x < |b| && Fixed(at, s, end, hole, x) :: b2[x] == b[x]
  }

  // The pieces do not overlap.
  predicate LaidOut(at: ProgBlob, s: ProgSpec, core: Bytes, end: int) {
    FD_AREA <= at.license && at.license + |s.license| + 1 <= at.insns && at.insns + |s.insns| <= at.funcInfo
    && at.funcInfo + |s.funcInfo| <= at.lineInfo && at.lineInfo + |s.lineInfo| <= at.core
    && at.core + |core| <= at.attr && at.attr + PROG_ATTR_SZ <= end
  }

  lemma PieceSame(at: ProgBlob, s: ProgSpec, end: int, hole: bool, b: Bytes, b2: Bytes, off: int, bytes: Bytes)
    requires SameFixed(at, s, end, hole, b, b2) && PieceAt(b, off, bytes)
    requires forall x | off <= x < off + |bytes| :: Fixed(at, s, end, hole, x)
    ensures PieceAt(b2, off, bytes)
  {
    hide Fixed;
    assert b2[off..off + |bytes|] == b[off..off + |bytes|];
  }

  lemma PiecesSame(at: ProgBlob, s: ProgSpec, core: Bytes, end: int, hole: bool, b: Bytes, b2: Bytes)
    requires SameFixed(at, s, end, hole, b, b2) && PiecesIn(b, at, s, core) && LaidOut(at, s, core, end)
    ensures PiecesIn(b2, at, s, core)
  {
    hide SameFixed, PieceAt;
    PieceSame(at, s, end, hole, b, b2, at.license, s.license + [0]);
    PieceSame(at, s, end, hole, b, b2, at.funcInfo, s.funcInfo);
    PieceSame(at, s, end, hole, b, b2, at.lineInfo, s.lineInfo);
    PieceSame(at, s, end, hole, b, b2, at.core, core);
  }

  lemma FieldSame(at: ProgBlob, s: ProgSpec, core: Bytes, end: int, hole: bool, b: Bytes, b2: Bytes, off: int, n: nat)
    requires SameFixed(at, s, end, hole, b, b2) && LaidOut(at, s, core, end) && 0 <= off && off + n <= PROG_ATTR_SZ
    requires hole ==> off + n <= ATTR_ATTACH_BTF_ID || ATTR_ATTACH_BTF_OBJ_FD + 4 <= off
    ensures Get(b2, at.attr + off, n) == Get(b, at.attr + off, n)
  {
    hide Get;
    SameGet(b2, b, at.attr + off, n);
  }

  lemma AttrSame(env: Env, at: ProgBlob, s: ProgSpec, core: Bytes, end: int, hole: bool, b: Bytes, b2: Bytes,
                 fields: seq<(int, nat)>, fields2: seq<(int, nat)>, ctx: Bytes)
    requires SameFixed(at, s, end, hole, b, b2) && LaidOut(at, s, core, end) && AttrIs(env, b, at, s, core, fields, ctx)
    requires fields2 == fields + (if hole then [(ATTR_ATTACH_BTF_ID, 4), (ATTR_ATTACH_BTF_OBJ_FD, 4)] else [])
    ensures AttrIs(env, b2, at, s, core, fields2, ctx)
  {
    hide Get, ProgAttr;
    LikeSame(at, s, core, end, hole, b, b2, fields, fields2);
    hide Like, SameFixed, LaidOut;
    FieldSame(at, s, core, end, hole, b, b2, PROG_LICENSE, 8);
    FieldSame(at, s, core, end, hole, b, b2, PROG_INSNS, 8);
    FieldSame(at, s, core, end, hole, b, b2, PROG_FUNC_INFO, 8);
    FieldSame(at, s, core, end, hole, b, b2, PROG_LINE_INFO, 8);
    FieldSame(at, s, core, end, hole, b, b2, PROG_CORE_RELOS, 8);
    FieldSame(at, s, core, end, hole, b, b2, PROG_FD_ARRAY, 8);
    FieldSame(at, s, core, end, hole, b, b2, PROG_LOG_LEVEL, 4);
    FieldSame(at, s, core, end, hole, b, b2, PROG_LOG_SIZE, 4);
    FieldSame(at, s, core, end, hole, b, b2, PROG_LOG_BUF, 8);
  }

  lemma LikeSame(at: ProgBlob, s: ProgSpec, core: Bytes, end: int, hole: bool, b: Bytes, b2: Bytes,
                 fields: seq<(int, nat)>, fields2: seq<(int, nat)>)
    requires SameFixed(at, s, end, hole, b, b2) && LaidOut(at, s, core, end) && InRange(b, at.attr, PROG_ATTR_SZ)
    requires Like(b[at.attr..at.attr + PROG_ATTR_SZ], ProgAttr(s, core), fields)
    requires fields2 == fields + (if hole then [(ATTR_ATTACH_BTF_ID, 4), (ATTR_ATTACH_BTF_OBJ_FD, 4)] else [])
    ensures InRange(b2, at.attr, PROG_ATTR_SZ) && Like(b2[at.attr..at.attr + PROG_ATTR_SZ], ProgAttr(s, core), fields2)
  {
    hide ProgAttr;
    var t := ProgAttr(s, core);
    forall p | 0 <= p < PROG_ATTR_SZ && Outside(p, fields2) ensures b2[at.attr + p] == t[p] {
      assert forall f | f in fields :: f in fields2;
      assert Outside(p, fields);
      assert b[at.attr + p] == b[at.attr..at.attr + PROG_ATTR_SZ][p];
      if hole {
        assert fields2[|fields|] in fields2 && fields2[|fields| + 1] in fields2;
      }
      assert Fixed(at, s, end, hole, at.attr + p);
    }
  }

  // --- from the attribute to the first relocation

  // What the code knows of the program when its attribute is filled in.
  ghost predicate Prepared(env: Env, b: Bytes, at: ProgBlob, s: ProgSpec, core: Bytes, fields: seq<(int, nat)>,
    end: int, ctx: Bytes) {
    AttrIs(env, b, at, s, core, fields, ctx) && PiecesIn(b, at, s, core) && PieceAt(b, at.insns, s.insns)
    && LaidOut(at, s, core, end) && end <= |b|
  }

  lemma FieldsAt(cfg: Config, g: Gen, at: ProgBlob)
    requires EmitProgFields(cfg, EmitProgPointers(cfg, g, at), at.attr).Live?
    ensures g.Live? && EmitProgFields(cfg, EmitProgPointers(cfg, g, at), at.attr)
                    == g.(groups := g.groups + (ProgPointers(at) + ProgFields(at.attr)))
  {
    hide EmitProgPointers, EmitProgFields;
    ProgFieldsAt(cfg, EmitProgPointers(cfg, g, at), at.attr);
    ProgPointersAt(cfg, g, at);
    assert g.groups + ProgPointers(at) + ProgFields(at.attr) == g.groups + (ProgPointers(at) + ProgFields(at.attr));
  }

  lemma Prelude(env: Env, cfg: Config, g: Gen, s: ProgSpec, m: M, d: Bytes, ctx: Bytes, cs: seq<Request>)
    returns (g2: Gen, at: ProgBlob, pre: seq<Group>)
    requires g.Live? && Tracks(env, g, m.w, d, ctx, cs) && |ctx| >= CTX_SZ && |g.data| % 8 == 0
    requires var (g1, a) := AddProg(cfg, g, s, g.coreRelos); var h := EmitProgFields(cfg, EmitProgPointers(cfg, g1, a), a.attr);
      h.Live? && h.data <= d
    ensures var (g1, a) := AddProg(cfg, g, s, g.coreRelos);
      at == a && g2 == EmitProgFields(cfg, EmitProgPointers(cfg, g1, a), a.attr)
    ensures g2 == g.(groups := g.groups + pre, data := g2.data, pieces := g2.pieces) && |g2.data| % 8 == 0 && g.data <= g2.data
    ensures var out := DenAll(env, pre, m);
      out.Next? && Tracks(env, g2, out.m.w, d, ctx, cs)
        && Prepared(env, out.m.w.blob, at, s, g.coreRelos, PLAIN_FIELDS, |g2.data|, ctx)
      && Get(out.m.w.blob, at.attr + PROG_BTF_FD, 4) == Fd(Calls(out.m.w.trace), LedgerAfter(cs).btf)
  {
    hide Tracks, AddProg, EmitProgPointers, EmitProgFields, DenAll, ProgAttr, Get, LedgerAfter, Calls, Fd, AttrIs,
      PiecesIn, ProgPointers;
    hide ProgFields, PieceAt, Quiet, LaidOut;
    var core := g.coreRelos;
    var (g1, a) := AddProg(cfg, g, s, core);
    at, pre := a, ProgPointers(a) + ProgFields(a.attr);
    g2 := EmitProgFields(cfg, EmitProgPointers(cfg, g1, a), a.attr);
    FieldsAt(cfg, g1, a);
    ProgBlobAt(cfg, g, s, core);
    AddProgMultiple(cfg, g, s, core);
    var sh := Shape(pre, BPF_PROG_LOAD, at.attr, PROG_ATTR_SZ, NoDbg, []);
    Sized(env, g, m.w, d, ctx, cs);
    ProgApart(at, pre, |g.data|, g1.data, |ctx|, s, core);
    InPieces(g1.data, |g.data|, at, s, core);
    assert Filling(env, g, g1, at, sh, s, core, m, d, ctx, cs);
    AttrFilled(env, g, g1, at, sh, s, core, m, d, ctx, cs);
    PiecesFilled(env, g, g1, at, sh, s, core, m, d, ctx, cs);
    SoundWhen(env, g, g1, sh, m, d, ctx, cs);
    QuietRun(env, pre, m, |g.data|, |g1.data|, |ctx|);
    var w := DenAll(env, pre, m).m.w;
    Shorter(m.w.blob, w.blob, |g.data|);
    TracksMoved(env, g, g2, m.w, w, d, ctx, cs);
  }

  lemma Shorter(a: Bytes, b: Bytes, lo: int)
    requires FD_AREA <= lo <= |a| && lo <= |b| && b[..lo] == a[..lo]
    ensures b[..FD_AREA] == a[..FD_AREA]
  {
    assert b[..FD_AREA] == b[..lo][..FD_AREA];
  }

  lemma InPieces(d: Bytes, lo: int, at: ProgBlob, s: ProgSpec, core: Bytes)
    requires ProgIn(d, lo, at, s, core) && lo >= FD_AREA
    ensures LaidOut(at, s, core, |d|) && lo <= at.attr && at.attr + PROG_ATTR_SZ <= |d|
  {
    hide ProgAttr;
  }

  lemma AddProgMultiple(cfg: Config, g: Gen, s: ProgSpec, core: Bytes)
    requires g.Live? && |g.data| % 8 == 0
    ensures var g1 := AddProg(cfg, g, s, core).0; g1.Live? ==> |g1.data| % 8 == 0
  {
    hide AddData, ProgAttr;
  }

  // Nothing is pending in the generator but what p says, and nothing is held in the account.
  predicate Idle(g: Gen, p: Pending) {
    g.Live? ==>
      g.ksyms == [] && g.nrFdArray == 0 && |g.data| % 8 == 0 && g.relos == p.relos && g.coreRelos == p.core
      && g.attachKind == p.attachKind && (p.attachKind != 0 ==> g.attachTarget == p.attachTarget)
  }

  predicate IdleAccount(l: Ledger) {
    l.held == [] && l.functions == 0 && l.attach == Nowhere
  }

  lemma MidStart(env: Env, q: Load, g: Gen, w: World, d: Bytes, ctx: Bytes, cs: seq<Request>)
    requires Tracks(env, g, w, d, ctx, cs) && g.Live? && g.ksyms == [] && g.nrFdArray == 0 && |g.data| % 8 == 0
    requires q.base == w.blob && q.k0 == |cs| && q.end <= |g.data|
    requires g.attachKind == q.pend.attachKind
    requires var l := LedgerAfter(cs); l.held == [] && l.functions == 0 && Attached(q, w.blob, l, Calls(w.trace))
    ensures Mid(env, q, 0, g, w, d, ctx, cs)
  {
    hide Tracks, Attached, LedgerAfter, Calls;
    Sized(env, g, w, d, ctx, cs);
  }

  // The attach target's words stored.
  function AttachBlob(b: Bytes, attr: int, ret: int): (b2: Bytes)
    ensures |b2| == |b|
  {
    Put(Put(b, attr + ATTR_ATTACH_BTF_ID, LittleEndian(U64(ret), 4)), attr + ATTR_ATTACH_BTF_OBJ_FD,
        LittleEndian(U64(U64(ret) / TWO32), 4))
  }

  lemma AttachBlobIs(at: ProgBlob, s: ProgSpec, end: int, b: Bytes, ret: int64)
    requires ret >= 0 && InRange(b, at.attr, PROG_ATTR_SZ)
    ensures var b2 := AttachBlob(b, at.attr, ret);
      SameFixed(at, s, end, true, b, b2) && Get(b2, at.attr + ATTR_ATTACH_BTF_ID, 4) == ret % TWO32
      && Get(b2, at.attr + ATTR_ATTACH_BTF_OBJ_FD, 4) == ModuleFd(ret)
      && forall x | 0 <= x < |b| && (x < at.attr || at.attr + PROG_ATTR_SZ <= x) :: b2[x] == b[x]
  {
    hide Get, Put, LittleEndian, Fixed;
    var i, f := at.attr + ATTR_ATTACH_BTF_ID, at.attr + ATTR_ATTACH_BTF_OBJ_FD;
    var x1, x2 := LittleEndian(U64(ret), 4), LittleEndian(U64(U64(ret) / TWO32), 4);
    var b1 := Put(b, i, x1);
    WordThere(b, i, U64(ret));
    WordThere(b1, f, U64(U64(ret) / TWO32));
    Elsewhere(b1, f, x2, i, 4);
    forall x | 0 <= x < |b| && !(i <= x < f + 4) ensures AttachBlob(b, at.attr, ret)[x] == b[x] {
      LoaderLookups.PutByte(b, i, x1, x);
      LoaderLookups.PutByte(b1, f, x2, x);
    }
    forall x | 0 <= x < |b| && Fixed(at, s, end, true, x) ensures !(i <= x < f + 4) {
      FixedHole(at, s, end, x);
    }
  }

  lemma FixedHole(at: ProgBlob, s: ProgSpec, end: int, x: int)
    requires Fixed(at, s, end, true, x)
    ensures !(at.attr + ATTR_ATTACH_BTF_ID <= x < at.attr + ATTR_ATTACH_BTF_OBJ_FD + 4)
  {
  }

  lemma SaveAttachRun(env: Env, m: M, attr: int, ret: int)
    requires m.w.ok && m.r7 == Num(ret) && InRange(m.w.blob, attr, PROG_ATTR_SZ)
    ensures var o := Den(env, SaveAttach(attr), m); o.Next? && Moved(m, o.m, [], AttachBlob(m.w.blob, attr, ret))
  {
    hide Put, LittleEndian;
    assert m.w.trace + [] == m.w.trace;
  }

  // The search for the attach target.
  lemma AttachRun(env: Env, m: M, name: int, len: nat, kind: int, attr: int, dbg: Dbg)
    requires m.w.ok && InRange(m.w.blob, name, len) && DbgIn(dbg, |m.w.blob|) && InRange(m.w.blob, attr, PROG_ATTR_SZ)
    ensures var o, e := DenAll(env, AttachGroups(name, len, kind, attr, dbg), m),
      Find(m.w.blob[name..name + len], kind, env.any(m.w.calls));
      (o.Err? <==> e.ret < 0) && (o.Err? ==> o.m.r7 == Num(e.ret))
      && Moved(m, o.m, [e], if o.Err? then m.w.blob else AttachBlob(m.w.blob, attr, e.ret))
  {
    hide Den, DenAll, AttachBlob, FindOf;
    var find := FindOf(name, len, kind, false, dbg);
    FindRun(env, m, name, len, kind, false, dbg);
    DenAppend(env, find, [SaveAttach(attr)], m);
    var o := DenAll(env, find, m);
    if o.Next? {
      var e := Find(m.w.blob[name..name + len], kind, env.any(m.w.calls));
      DenFirst(env, SaveAttach(attr), [], o.m);
      assert [SaveAttach(attr)] + [] == [SaveAttach(attr)];
      SaveAttachRun(env, o.m, attr, e.ret);
      var m2 := Den(env, SaveAttach(attr), o.m).m;
      DenNone(env, m2);
      MovedOn(m, o.m, m2, e, m.w.blob, AttachBlob(m.w.blob, attr, e.ret));
    }
  }

  lemma PerformTarget(l: Ledger, name: Bytes, kind: int, k: nat)
    ensures Perform(l, Seek(name, kind, true, Target), k) == l.(attach := Of(k), script := l.script + [Issue(k)])
  {
    assert Answered(l, Seek(name, kind, true, Target), k) == l.script + [Issue(k)];
  }

  // The account when the attach target has been found.
  lemma AttachTracks(env: Env, g: Gen, g3: Gen, w: World, w2: World, e: Event, name: Bytes, kind: int, b2: Bytes,
                     d: Bytes, ctx: Bytes, cs: seq<Request>)
    requires Tracks(env, g, w, d, ctx, cs) && g3.Live? && g.data <= g3.data <= d && g3.nrMaps == g.nrMaps
      && g3.nrProgs == g.nrProgs
    requires e.Find? && e.name == name + [0] && e.kind == kind && 0 <= e.ret < 0x8000_0000_0000_0000
    requires w2 == w.(blob := b2, trace := w.trace + [e], calls := w2.calls) && |b2| == |w.blob|
    requires b2[..FD_AREA] == w.blob[..FD_AREA] && b2[|g3.data|..] == w.blob[|g3.data|..]
    ensures Tracks(env, g3, w2, d, ctx, cs + [Seek(name, kind, true, Target)])
    ensures LedgerAfter(cs + [Seek(name, kind, true, Target)])
         == LedgerAfter(cs).(attach := Of(|cs|), script := LedgerAfter(cs).script + [Issue(|cs|)])
    ensures Calls(w2.trace) == Calls(w.trace) + [e] && |Calls(w.trace)| == |cs| && Below(LedgerAfter(cs), |cs|)
  {
    var c, l, es := Seek(name, kind, true, Target), LedgerAfter(cs), Calls(w.trace);
    hide InPlace, LedgerAfter, Calls, Perform, Play, Followed, Below;
    Sized(env, g, w, d, ctx, cs);
    PerformTarget(l, name, kind, |cs|);
    LedgerSnoc(cs, c);
    CallsGrow(w.trace, e);
    LedgerBelow(cs);
    Placing(env, g, w, d, ctx, cs);
    OtherPlaced(w, w2, l, Perform(l, c, |cs|), es, e);
    ScriptBelow(l, |cs|);
    PlayGrows(es, e, l.script);
    PlaySnoc(es + [e], l.script, Issue(|cs|));
    Assemble(env, g, g3, c, w, w2, e, d, ctx, cs);
  }

  lemma ScriptBelow(l: Ledger, n: nat)
    requires Below(l, n)
    ensures forall s | s in l.script :: StepBelow(s, n)
  {
  }

  lemma PreparedLaid(env: Env, q: Load, fields: seq<(int, nat)>, ctx: Bytes)
    requires Prepared(env, q.base, q.at, q.prog, q.pend.core, fields, q.end, ctx) && RelosFit(q.pend.relos, q.prog.insns)
    ensures Laid(q)
  {
    hide RelosFit, AttrIs, PiecesIn;
  }

  // Without an attach target.
  lemma NoTargetRun(env: Env, cfg: Config, g: Gen, at: ProgBlob, s: ProgSpec, p: Pending, m: M, d: Bytes,
    ctx: Bytes, cs: seq<Request>)
    requires p.attachKind == 0 && g.Live? && Idle(g, p) && Tracks(env, g, m.w, d, ctx, cs) && IdleAccount(LedgerAfter(cs))
    requires Prepared(env, m.w.blob, at, s, p.core, PLAIN_FIELDS, |g.data|, ctx) && RelosFit(p.relos, s.insns)
    requires Get(m.w.blob, at.attr + PROG_BTF_FD, 4) == Fd(Calls(m.w.trace), LedgerAfter(cs).btf)
    ensures EmitAttach(cfg, g, at.attr) == g && SoughtTarget(p) == [] && AttrFields(p) == PLAIN_FIELDS
    ensures var q := Load(s, p, at, |g.data|, |cs|, m.w.blob); Mid(env, q, 0, g, m.w, d, ctx, cs) && Laid(q)
  {
    hide Tracks, LedgerAfter, Calls, Prepared, Get, Fd, RelosFit, Mid, Laid;
    var q := Load(s, p, at, |g.data|, |cs|, m.w.blob);
    PreparedLaid(env, q, PLAIN_FIELDS, ctx);
    MidStart(env, q, g, m.w, d, ctx, cs);
  }

  // The state once the attach target has been found.
  lemma TargetFound(env: Env, g: Gen, g3: Gen, at: ProgBlob, s: ProgSpec, p: Pending, w: World, w2: World, e: Event, ret: int64,
                    d: Bytes, ctx: Bytes, cs: seq<Request>)
    requires p.attachKind != 0 && g.Live? && Idle(g, p) && Tracks(env, g, w, d, ctx, cs) && IdleAccount(LedgerAfter(cs))
    requires Prepared(env, w.blob, at, s, p.core, PLAIN_FIELDS, |g.data|, ctx) && RelosFit(p.relos, s.insns)
    requires Get(w.blob, at.attr + PROG_BTF_FD, 4) == Fd(Calls(w.trace), LedgerAfter(cs).btf)
    requires g3.Live? && g3 == g.(groups := g3.groups, data := g3.data, pieces := g3.pieces)
      && g.data <= g3.data <= d && |g3.data| % 8 == 0
    requires e.Find? && e.name == p.attachTarget + [0] && e.kind == p.attachKind && e.ret == ret >= 0
    requires w2 == w.(blob := AttachBlob(w.blob, at.attr, ret), trace := w.trace + [e], calls := w2.calls)
    ensures var cs2 := cs + SoughtTarget(p); var q := Load(s, p, at, |g.data|, |cs2|, w2.blob);
      Mid(env, q, 0, g3, w2, d, ctx, cs2) && Laid(q) && Prepared(env, w2.blob, at, s, p.core, AttrFields(p), |g.data|, ctx)
  {
    hide Tracks, LedgerAfter, Calls, Get, Fd, RelosFit, Mid, Laid, AttachBlob, AttrIs, PiecesIn, PieceAt,
      SameFixed, Below, LaidOut;
    var b, b2, cs2, l, es := w.blob, w2.blob, cs + SoughtTarget(p), LedgerAfter(cs), Calls(w.trace);
    var q := Load(s, p, at, |g.data|, |cs2|, b2);
    assert SoughtTarget(p) == [Seek(p.attachTarget, p.attachKind, true, Target)];
    AttrRoom(env, b, at, s, p.core, PLAIN_FIELDS, |g.data|, ctx);
    AttachBlobIs(at, s, |g.data|, b, ret);
    Sized(env, g, w, d, ctx, cs);
    Outer(b, b2, at.attr, |g.data|, |g3.data|);
    AttachTracks(env, g, g3, w, w2, e, p.attachTarget, p.attachKind, b2, d, ctx, cs);
    AttrSame(env, at, s, p.core, |g.data|, true, b, b2, PLAIN_FIELDS, AttrFields(p), ctx);
    PiecesSame(at, s, p.core, |g.data|, true, b, b2);
    InsnsSame(at, s, p.core, |g.data|, b, b2);
    PreparedLaid(env, q, AttrFields(p), ctx);
    FieldSame(at, s, p.core, |g.data|, true, b, b2, PROG_BTF_FD, 4);
    BtfBelow(l, |cs|);
    FdGrows(es, e, l.btf);
    OwnDescriptor(es, e);
    MidStart(env, q, g3, w2, d, ctx, cs2);
  }

  lemma BtfBelow(l: Ledger, n: nat)
    requires Below(l, n)
    ensures SourceBelow(l.btf, n)
  {
  }

  lemma AttrRoom(env: Env, b: Bytes, at: ProgBlob, s: ProgSpec, core: Bytes, fields: seq<(int, nat)>, end: int, ctx: Bytes)
    requires Prepared(env, b, at, s, core, fields, end, ctx)
    ensures InRange(b, at.attr, PROG_ATTR_SZ) && FD_AREA <= at.attr && at.attr + PROG_ATTR_SZ <= end <= |b|
  {
    hide AttrIs, PiecesIn, PieceAt;
  }

  // Only the attribute has changed.
  lemma Outer(b: Bytes, b2: Bytes, attr: int, end: int, hi: int)
    requires |b2| == |b| && FD_AREA <= attr && attr + PROG_ATTR_SZ <= end <= hi <= |b|
    requires forall x | 0 <= x < |b| && (x < attr || attr + PROG_ATTR_SZ <= x) :: b2[x] == b[x]
    ensures b2[..FD_AREA] == b[..FD_AREA] && b2[hi..] == b[hi..]
  {
  }

  lemma InsnsSame(at: ProgBlob, s: ProgSpec, core: Bytes, end: int, b: Bytes, b2: Bytes)
    requires |b2| == |b| && PieceAt(b, at.insns, s.insns) && LaidOut(at, s, core, end)
    requires forall x | 0 <= x < |b| && (x < at.attr || at.attr + PROG_ATTR_SZ <= x) :: b2[x] == b[x]
    ensures PieceAt(b2, at.insns, s.insns)
  {
    assert b2[at.insns..at.insns + |s.insns|] == b[at.insns..at.insns + |s.insns|];
  }

  // The attach target, if there is one.
  lemma TargetRun(env: Env, cfg: Config, g: Gen, at: ProgBlob, s: ProgSpec, p: Pending, m: M, d: Bytes, ctx: Bytes,
    cs: seq<Request>)
    returns (more: seq<Group>)
    requires g.Live? && Idle(g, p) && Tracks(env, g, m.w, d, ctx, cs) && IdleAccount(LedgerAfter(cs))
    requires Prepared(env, m.w.blob, at, s, p.core, PLAIN_FIELDS, |g.data|, ctx) && RelosFit(p.relos, s.insns)
    requires Get(m.w.blob, at.attr + PROG_BTF_FD, 4) == Fd(Calls(m.w.trace), LedgerAfter(cs).btf)
    requires EmitAttach(cfg, g, at.attr).Live? && EmitAttach(cfg, g, at.attr).data <= d
    ensures var g3, out, cs2 := EmitAttach(cfg, g, at.attr), DenAll(env, more, m), cs + SoughtTarget(p);
      g3 == g.(groups := g.groups + more, data := g3.data, pieces := g3.pieces) && g.data <= g3.data
      && if out.Err? then |out.m.w.blob| == |d| && |cs| < |cs2| && FailedAt(env, out.m, ctx, cs2, |cs|)
         else var q := Load(s, p, at, |g.data|, |cs2|, out.m.w.blob);
              Mid(env, q, 0, g3, out.m.w, d, ctx, cs2) && Laid(q)
              && Prepared(env, out.m.w.blob, at, s, p.core, AttrFields(p), |g.data|, ctx)
  {
    hide Tracks, LedgerAfter, Calls, Get, Fd, RelosFit, Mid, Laid, AttachBlob, Prepared, FailedAt, DenAll, EmitAttach, NameIn;
    if p.attachKind == 0 {
      more := [];
      DenNone(env, m);
      NoTargetRun(env, cfg, g, at, s, p, m, d, ctx, cs);
      assert g.groups + [] == g.groups && cs + [] == cs;
    } else {
      var g3 := EmitAttach(cfg, g, at.attr);
      var name, dbg := AttachAt(cfg, g, at.attr);
      more := AttachGroups(name, |p.attachTarget| + 1, p.attachKind, at.attr, dbg);
      Sized(env, g, m.w, d, ctx, cs);
      MidReady(env, g, m.w, d, ctx, cs);
      AttrRoom(env, m.w.blob, at, s, p.core, PLAIN_FIELDS, |g.data|, ctx);
      NameRead(m.w, d, g3.data, |g.data|, name, p.attachTarget);
      AttachRun(env, m, name, |p.attachTarget| + 1, p.attachKind, at.attr, dbg);
      var out, e := DenAll(env, more, m), Find(BlobSlice(m.w, name, |p.attachTarget| + 1), p.attachKind, env.any(m.w.calls));
      if out.Err? {
        Fail(env, g, |g3.data|, Seek(p.attachTarget, p.attachKind, true, Target), m, out.m, e, d, ctx, cs);
      } else {
        TargetFound(env, g, g3, at, s, p, m.w, out.m.w, e, e.ret, d, ctx, cs);
      }
    }
  }

  lemma MidReady(env: Env, g: Gen, w: World, d: Bytes, ctx: Bytes, cs: seq<Request>)
    requires Tracks(env, g, w, d, ctx, cs)
    ensures g.Live? && w.ok && |w.blob| == |d| && w.blob[|g.data|..] == d[|g.data|..] && w.ctx == ctx
  {
  }

  // --- the command

  // The program's own data at the command: as before the relocations, patched bytes apart.
  lemma DataSame(q: Load, b: Bytes, core: Bytes)
    requires KeptData(q, |q.pend.relos|, b) && Laid(q) && LaidOut(q.at, q.prog, core, q.end)
    ensures SameFixed(q.at, q.prog, q.end, false, q.base, b)
  {
    forall x | 0 <= x < |b| && Fixed(q.at, q.prog, q.end, false, x) ensures b[x] == q.base[x] {
      OutsideUnpatched(q, x - q.at.insns);
    }
  }

  // Relocations patch nothing outside the instructions.
  lemma OutsideUnpatched(q: Load, y: int)
    requires RelosFit(q.pend.relos, q.prog.insns) && !(0 <= y < |q.prog.insns|)
    ensures Unpatched(q.pend.relos, |q.pend.relos|, y)
  {
    var rs := q.pend.relos;
    forall j | 0 <= j < |rs| ensures !Patches(rs[j], y - INSN_SZ * rs[j].insnIdx) {
    }
  }

  lemma RelocatedAll(q: Load, ks: seq<Ksym>, b: Bytes, es: seq<Event>)
    requires Laid(q) && KeptData(q, |q.pend.relos|, b) && forall j | 0 <= j < |q.pend.relos| :: DoneAt(q, j, ks, b, es)
    ensures Relocated(q.pend.relos, q.prog.insns, b, q.at.insns, es, q.k0)
  {
    hide ReloDone, RelosFit, Unpatched;
    var rs, insns, p := q.pend.relos, q.prog.insns, q.at.insns;
    forall x | 0 <= x < |insns| && Unpatched(rs, |rs|, x) ensures b[p + x] == insns[x] {
      assert p + x - p == x;
      assert q.base[p + x] == q.base[p..p + |insns|][x];
    }
    forall j | 0 <= j < |rs| ensures ReloDone(rs, j, insns, b, p, es, q.k0) {
      assert DoneAt(q, j, ks, b, es);
    }
  }

  // The attribute's fields as the kernel reads them.
  lemma FieldRead(b: Bytes, attr: int, e: Event, off: int, n: nat)
    requires e.Bpf? && e.blob == b && e.attr == attr && e.size == PROG_ATTR_SZ && InRange(b, attr, PROG_ATTR_SZ)
    requires 0 <= off && off + n <= PROG_ATTR_SZ
    ensures Get(AttrOf(e), off, n) == Get(b, attr + off, n)
  {
    hide Get;
    AttrField(b, attr, PROG_ATTR_SZ, off, n);
  }

  lemma PointerGiven(env: Env, b: Bytes, attr: int, e: Event, off: int, p: int, bytes: Bytes)
    requires e.Bpf? && e.blob == b && e.attr == attr && e.size == PROG_ATTR_SZ && InRange(b, attr, PROG_ATTR_SZ)
    requires 0 <= off && off + 8 <= PROG_ATTR_SZ && Get(b, attr + off, 8) == U64(env.blobBase + p) && PieceAt(b, p, bytes)
    ensures PointsAt(env, e, off, bytes)
  {
    hide Get;
    FieldRead(b, attr, e, off, 8);
  }

  // A program is given its pieces, its log, its descriptors and its relocated instructions.
  lemma ProgGiven(env: Env, q: Load, e: Event, l: Ledger, es: seq<Event>, ctx: Bytes, ks: seq<Ksym>, b: Bytes)
    requires e.Bpf? && e.cmd == BPF_PROG_LOAD && e.blob == b && e.attr == q.at.attr && e.size == PROG_ATTR_SZ
    requires AttrIs(env, b, q.at, q.prog, q.pend.core, AttrFields(q.pend), ctx) && PiecesIn(b, q.at, q.prog, q.pend.core)
    requires Attached(q, b, l, es) && Laid(q) && KeptData(q, |q.pend.relos|, b)
    requires forall j | 0 <= j < |q.pend.relos| :: DoneAt(q, j, ks, b, es)
    requires |es| == q.k0 + |Sought(q.pend.relos, |q.pend.relos|)|
    requires forall i: nat | i < MAX_USED_MAPS :: Get(b, FdSlot(i), 4) == MapFd(es, l, i)
    ensures Given(env, Do(ProgLoad(q.prog), q.pend), l, es, ctx, e)
  {
    hide Get, PointsAt, AttrOf, Like, Laid, KeptData, DoneAt, Sought, Relocated, MapFd, Fd, ProgAttr, PieceAt, U64;
    hide AsksProg;
    RelocatedAll(q, ks, b, es);
    var a := q.at.attr;
    AttrBytes(b, a, e);
    ProgAsked(AttrOf(e), q.prog, q.pend);
    PointerGiven(env, b, a, e, PROG_LICENSE, q.at.license, q.prog.license + [0]);
    PointerGiven(env, b, a, e, PROG_FUNC_INFO, q.at.funcInfo, q.prog.funcInfo);
    PointerGiven(env, b, a, e, PROG_LINE_INFO, q.at.lineInfo, q.prog.lineInfo);
    PointerGiven(env, b, a, e, PROG_CORE_RELOS, q.at.core, q.pend.core);
    FieldRead(b, a, e, PROG_INSNS, 8);
    FieldRead(b, a, e, PROG_FD_ARRAY, 8);
    FieldRead(b, a, e, PROG_LOG_LEVEL, 4);
    FieldRead(b, a, e, PROG_LOG_SIZE, 4);
    FieldRead(b, a, e, PROG_LOG_BUF, 8);
    FieldRead(b, a, e, PROG_BTF_FD, 4);
    FieldRead(b, a, e, ATTR_ATTACH_BTF_ID, 4);
    FieldRead(b, a, e, ATTR_ATTACH_BTF_OBJ_FD, 4);
  }

  lemma AttrBytes(b: Bytes, attr: int, e: Event)
    requires e.Bpf? && e.blob == b && e.attr == attr && e.size == PROG_ATTR_SZ && InRange(b, attr, PROG_ATTR_SZ)
    ensures AttrOf(e) == b[attr..attr + PROG_ATTR_SZ]
  {
  }

  lemma LocsFit(q: Load, g: Gen, size: nat)
    requires g.Live? && Counted(g) && SymbolsOf(q, |q.pend.relos|, g.ksyms) && Laid(q) && q.end <= |g.data| <= size
    ensures LocsIn(g.ksyms, size)
  {
    hide RelosFit;
    forall i | 0 <= i < |g.ksyms| && Closes(g.ksyms[i]) ensures 0 <= LocOf(g.ksyms[i]) && LocOf(g.ksyms[i]) + 4 <= size {
      var k, f := g.ksyms[i], Firsts(q.pend.relos, |q.pend.relos|)[i];
      assert k in g.ksyms && EntryFor(k, q.pend.relos[f], q.at.insns);
      LaidInsn(q, f);
    }
  }

  // What is known when the command is issued.
  lemma MidEnd(env: Env, q: Load, g: Gen, w: World, d: Bytes, ctx: Bytes, cs: seq<Request>)
    requires Mid(env, q, |q.pend.relos|, g, w, d, ctx, cs) && Laid(q)
    ensures var l, es := LedgerAfter(cs), Calls(w.trace);
      g.Live? && w.ok && Tracks(env, g, w, d, ctx, cs) && Held(g.ksyms, w.blob, l, es) && Attached(q, w.blob, l, es)
      && KeptData(q, |q.pend.relos|, w.blob) && |es| == q.k0 + |Sought(q.pend.relos, |q.pend.relos|)| && |es| == |cs|
      && LocsIn(g.ksyms, |w.blob|) && q.end <= |g.data| <= |d| && |w.blob| == |d| && |g.data| >= FD_AREA
      && forall j | 0 <= j < |q.pend.relos| :: DoneAt(q, j, g.ksyms, w.blob, es)
  {
    hide Tracks, Held, Attached, KeptData, DoneAt, Calls, LedgerAfter, Laid, SymbolsOf, Counted, LocsIn, Sought;
    Parts(env, q, |q.pend.relos|, g, w, d, ctx, cs);
    Sized(env, g, w, d, ctx, cs);
    LocsFit(q, g, |d|);
  }

  lemma Slots64(w: World, l: Ledger, es: seq<Event>)
    requires InPlace(w, l, es)
    ensures forall i: nat | i < MAX_USED_MAPS :: Get(w.blob, FdSlot(i), 4) == MapFd(es, l, i)
  {
    hide Get, MapFd, LastFd, Fd, ProgFd;
  }

  // The command's answer is in, and what the symbols held is closed.
  lemma LoadedAndShut(env: Env, cfg: Config, q: Load, g: Gen, g5: Gen, m: M, dbg: Dbg, d: Bytes, ctx: Bytes, cs: seq<Request>)
    returns (e: Event, shut: seq<Group>)
    requires Mid(env, q, |q.pend.relos|, g, m.w, d, ctx, cs) && Laid(q) && g.Live? && g5.Live?
    requires g5 == g.(groups := g5.groups, data := g5.data, pieces := g5.pieces) && |g.data| <= |g5.data|
      && DbgIn(dbg, |g5.data|)
    requires AttrIs(env, m.w.blob, q.at, q.prog, q.pend.core, AttrFields(q.pend), ctx)
      && PiecesIn(m.w.blob, q.at, q.prog, q.pend.core)
    requires g.attachKind == q.pend.attachKind
    requires var g7 := CloseAttach(cfg, CleanupRelos(cfg, g5), q.at.attr); g7.Live? && g7.data <= d
    ensures var g7 := CloseAttach(cfg, CleanupRelos(cfg, g5), q.at.attr);
      g7.groups == g5.groups + shut && g5.data <= g7.data
      && g7 == g5.(groups := g7.groups, data := g7.data, pieces := g7.pieces, nrFdArray := g7.nrFdArray,
        ksyms := [], relos := [], coreRelos := [],
        attachKind := 0)
    ensures var c, l, es := Do(ProgLoad(q.prog), q.pend), LedgerAfter(cs), Calls(m.w.trace);
      var gs := [SysCall(BPF_PROG_LOAD, q.at.attr, PROG_ATTR_SZ), DebugRet(dbg)] + shut;
      e.Bpf? && e.ret == env.bpf(m.w.calls) && Given(env, c, l, es, ctx, e) && DenAll(env, gs, m).Next?
      && var m2 := DenAll(env, gs, m).m;
         m2.w == m.w.(trace := m2.w.trace, calls := m2.w.calls) && m2.r7 == Num(e.ret)
         && Calls(m2.w.trace) == es + [e] && m2.w.trace == Play(es + [e], Answered(l, c, |cs|)) && InPlace(m2.w, l, es + [e])
  {
    hide Mid, Tracks, Held, Attached, KeptData, DoneAt, Calls, LedgerAfter, Laid, SymbolsOf, Counted, LocsIn, Sought, DenAll;
    hide CleanupRelos, CloseAttach, Given, Play, InPlace, Shuts, AttrIs, PiecesIn, Get, Fd, MapFd;
    MidEnd(env, q, g, m.w, d, ctx, cs);
    Placing(env, g, m.w, d, ctx, cs);
    var l, es, n, b := LedgerAfter(cs), Calls(m.w.trace), |q.pend.relos|, m.w.blob;
    LaidAttr(q);
    var sh := Shape([], BPF_PROG_LOAD, q.at.attr, PROG_ATTR_SZ, dbg, []);
    e := CommandEvent(env, sh, m.w);
    var c := Do(ProgLoad(q.prog), q.pend);
    var g7 := CloseAttach(cfg, CleanupRelos(cfg, g5), q.at.attr);
    assert |g5.data| <= |g7.data| by { ShutGrows(cfg, g5, q.at.attr); }
    SysRun(env, sh, m, |d|);
    var head := [SysCall(BPF_PROG_LOAD, q.at.attr, PROG_ATTR_SZ), DebugRet(dbg)];
    var m1 := DenAll(env, head, m).m;
    Slots64(m.w, l, es);
    ProgGiven(env, q, e, l, es, ctx, g.ksyms, b);
    Playing(env, g, m.w, d, ctx, cs);
    IssuedInPlace(m.w, m1.w, e, FD_AREA, FD_AREA, cs);
    LedgerBelow(cs);
    HeldGrows(g.ksyms, b, l, es, e);
    AttachedGrows(q, b, l, es, e);
    shut := AllShut(env, cfg, q, g5, m1, l, es + [e], l.script + [Issue(|cs|)]);
    DenAppend(env, head, shut, m);
    var m2 := DenAll(env, shut, m1).m;
    InPlaceKept(m1.w, m2.w, l, es + [e], FD_AREA);
  }

  lemma LaidAttr(q: Load)
    requires Laid(q)
    ensures 0 <= q.at.attr && q.at.attr + PROG_ATTR_SZ <= q.end
  {
  }

  lemma ShutGrows(cfg: Config, g: Gen, attr: int)
    requires CloseAttach(cfg, CleanupRelos(cfg, g), attr).Live?
    ensures g.Live? && |g.data| <= |CloseAttach(cfg, CleanupRelos(cfg, g), attr).data|
  {
    hide Wf;
  }

  lemma Playing(env: Env, g: Gen, w: World, d: Bytes, ctx: Bytes, cs: seq<Request>)
    requires Tracks(env, g, w, d, ctx, cs)
    ensures w.trace == Play(Calls(w.trace), LedgerAfter(cs).script)
  {
    hide Play, Calls, LedgerAfter;
  }

  // --- the end of the call

  // The failing command: what its symbols held has been closed all the same.
  lemma LoadFails(env: Env, g: Gen, c: Request, w: World, m2: M, e: Event, d: Bytes, ctx: Bytes, cs: seq<Request>)
    requires Tracks(env, g, w, d, ctx, cs) && e.Bpf? && e.ret < 0 && c.Do? && m2.r7 == Num(e.ret)
    requires Given(env, c, LedgerAfter(cs), Calls(w.trace), ctx, e)
    requires m2.w == w.(trace := m2.w.trace, calls := m2.w.calls)
    requires var l, es := LedgerAfter(cs), Calls(w.trace) + [e];
      Calls(m2.w.trace) == es && m2.w.trace == Play(es, Answered(l, c, |cs|)) && InPlace(m2.w, l, es)
    ensures |m2.w.blob| == |d| && FailedAt(env, m2, ctx, cs + [c], |cs|)
  {
    hide Given, LedgerAfter, InPlace, Calls, Play, Answered;
    var es := Calls(w.trace);
    FollowedGrows(env, cs, c, es, e, ctx);
    assert (cs + [c])[..|cs|] == cs;
    assert (es + [e])[..|cs|] == es;
  }

  // The descriptor of a loaded program goes to its word of the stack.
  lemma LoadSaved(env: Env, g: Gen, g9: Gen, s: ProgSpec, p: Pending, w: World, m2: M, m3: M, e: Event, d: Bytes,
    ctx: Bytes, cs: seq<Request>)
    requires Tracks(env, g, w, d, ctx, cs) && e.Bpf? && 0 <= e.ret < 0x8000_0000 && g9.Live? && |g.data| <= |g9.data| <= |d|
    requires g9.nrMaps == g.nrMaps && g9.nrProgs == g.nrProgs + 1 <= MAX_USED_PROGS
    requires Given(env, Do(ProgLoad(s), p), LedgerAfter(cs), Calls(w.trace), ctx, e)
    requires m2.w == w.(trace := m2.w.trace, calls := m2.w.calls)
    requires var l, es := LedgerAfter(cs), Calls(w.trace) + [e];
      Calls(m2.w.trace) == es && m2.w.trace == Play(es, Answered(l, Do(ProgLoad(s), p), |cs|)) && InPlace(m2.w, l, es)
    requires m3.w == m2.w.(stack := Put(m2.w.stack, STACK_SZ + OffProgFd(g.nrProgs), LittleEndian(e.ret, 4)))
    ensures Tracks(env, g9, m3.w, d, ctx, cs + [Do(ProgLoad(s), p)])
  {
    hide Given, LedgerAfter, InPlace, Calls, Play, Answered, Put, LittleEndian, Followed;
    var c, l, es := Do(ProgLoad(s), p), LedgerAfter(cs), Calls(w.trace) + [e];
    OwnDescriptor(Calls(w.trace), e);
    var l1 := l.(progs := l.progs + [Of(|cs|)]);
    StackPlace(m2.w, m3.w, l, l1, es, OffProgFd(g.nrProgs), e.ret);
    InPlaceSame(m3.w, l1, Perform(l, c, |cs|), es);
    LedgerSnoc(cs, c);
    Assemble(env, g, g9, c, w, m3.w, e, d, ctx, cs);
  }

  lemma StackSize(w: World, l: Ledger, es: seq<Event>)
    requires InPlace(w, l, es)
    ensures |w.stack| == STACK_SZ
  {
  }

  // Check and save behind the command and its closes.
  lemma LoadEnds(env: Env, g: Gen, g9: Gen, s: ProgSpec, p: Pending, w: World, m2: M, e: Event, d: Bytes,
    ctx: Bytes, cs: seq<Request>)
    requires Tracks(env, g, w, d, ctx, cs) && e.Bpf? && -0x8000_0000 <= e.ret < 0x8000_0000 && m2.r7 == Num(e.ret) && g.Live?
    requires g9.Live? && |g.data| <= |g9.data| <= |d| && g9.nrMaps == g.nrMaps && g9.nrProgs == g.nrProgs + 1 <= MAX_USED_PROGS
    requires Given(env, Do(ProgLoad(s), p), LedgerAfter(cs), Calls(w.trace), ctx, e)
    requires m2.w == w.(trace := m2.w.trace, calls := m2.w.calls)
    requires var l, es := LedgerAfter(cs), Calls(w.trace) + [e];
      Calls(m2.w.trace) == es && m2.w.trace == Play(es, Answered(l, Do(ProgLoad(s), p), |cs|)) && InPlace(m2.w, l, es)
    ensures var out, cs2 := DenAll(env, [CheckErr, SaveToStack(OffProgFd(g.nrProgs))], m2), cs + [Do(ProgLoad(s), p)];
      Outcome(env, g9, out, d, ctx, cs2)
  {
    hide Given, LedgerAfter, InPlace, Calls, Play, Answered, Put, LittleEndian, Tracks, FailedAt, IdleAccount, DenAll, Den;
    var save := SaveToStack(OffProgFd(g.nrProgs));
    var gs, c := [CheckErr, save], Do(ProgLoad(s), p);
    assert gs == [CheckErr] + [save] && [save] == [save] + [];
    DenAppend(env, [CheckErr], [save], m2);
    CheckRun(env, m2);
    if e.ret < 0 {
      LoadFails(env, g, c, w, m2, e, d, ctx, cs);
      assert |cs| < |cs + [c]|;
    } else {
      StackSize(m2.w, LedgerAfter(cs), Calls(w.trace) + [e]);
      SaveStack(env, m2, OffProgFd(g.nrProgs), e.ret);
      DenFirst(env, save, [], m2);
      var m3 := Den(env, save, m2).m;
      DenNone(env, m3);
      LoadSaved(env, g, g9, s, p, w, m2, m3, e, d, ctx, cs);
    }
  }

  // --- the whole call

  // The last stages of bpf_gen__prog_load.
  lemma TailAt(cfg: Config, g4: Gen, s: ProgSpec, attr: int) returns (dbg: Dbg)
    requires var g7 := CloseAttach(cfg, CleanupRelos(cfg, EmitProgLoad(cfg, g4, s, attr)), attr);
      SaveProg(cfg, Emit(cfg, g7, CheckErr)).Live?
    ensures g4.Live?
    ensures var g5 := EmitProgLoad(cfg, g4, s, attr);
      g5.Live? && DbgIn(dbg, |g5.data|) && g4.data <= g5.data
      && g5 == g4.(groups := g4.groups + [SysCall(BPF_PROG_LOAD, attr, PROG_ATTR_SZ), DebugRet(dbg)],
        data := g5.data, pieces := g5.pieces)
    ensures var g7 := CloseAttach(cfg, CleanupRelos(cfg, EmitProgLoad(cfg, g4, s, attr)), attr);
      g7.Live? && SaveProg(cfg, Emit(cfg, g7, CheckErr))
        == g7.(groups := g7.groups + [CheckErr, SaveToStack(OffProgFd(g7.nrProgs))], nrProgs := g7.nrProgs + 1)
  {
    hide Emit, CleanupRelos, CloseAttach, EmitDebugRet;
    var g5 := EmitProgLoad(cfg, g4, s, attr);
    var g7 := CloseAttach(cfg, CleanupRelos(cfg, g5), attr);
    var g8 := Emit(cfg, g7, CheckErr);
    EmitAt(cfg, g8, SaveToStack(OffProgFd(g8.nrProgs)));
    EmitAt(cfg, g7, CheckErr);
    var sys := SysCall(BPF_PROG_LOAD, attr, PROG_ATTR_SZ);
    dbg := DebugRetAt(cfg, Emit(cfg, g4, sys), MsgProgLoad(s.name, |s.insns| / 8));
    EmitAt(cfg, g4, sys);
    assert g4.groups + [sys] + [DebugRet(dbg)] == g4.groups + [sys, DebugRet(dbg)];
    assert g7.groups + [CheckErr] + [SaveToStack(OffProgFd(g7.nrProgs))] == g7.groups
      + [CheckErr, SaveToStack(OffProgFd(g7.nrProgs))];
  }

  // The generator with attribute, attach target and relocations emitted.
  function Front(cfg: Config, g: Gen, s: ProgSpec): Gen {
    if g.Dead? then Dead else
    var (g1, at) := AddProg(cfg, g, s, g.coreRelos);
    var g2 := EmitProgFields(cfg, EmitProgPointers(cfg, g1, at), at.attr);
    EmitRelos(cfg, EmitAttach(cfg, g2, at.attr), g.relos, at.insns)
  }

  function Searches(p: Pending): seq<Request> {
    SoughtTarget(p) + Sought(p.relos, |p.relos|)
  }

  // The run up to the command: a failed search, or everything relocated.
  ghost predicate FrontOutcome(env: Env, q: Load, g: Gen, out: Out, d: Bytes, ctx: Bytes, cs: seq<Request>) {
    match out
    case Err(m) => |m.w.blob| == |d| && exists j | 0 <= j < |cs| :: FailedAt(env, m, ctx, cs, j)
    case Next(m) =>
      Mid(env, q, |q.pend.relos|, g, m.w, d, ctx, cs) && Laid(q)
      && Prepared(env, q.base, q.at, q.prog, q.pend.core, AttrFields(q.pend), q.end, ctx)
  }

  lemma RelosOutcome(env: Env, q: Load, g: Gen, out: Out, d: Bytes, ctx: Bytes, cs: seq<Request>)
    requires MidOutcome(env, q, |q.pend.relos|, g, out, d, ctx, cs) && Laid(q)
    requires Prepared(env, q.base, q.at, q.prog, q.pend.core, AttrFields(q.pend), q.end, ctx)
    ensures FrontOutcome(env, q, g, out, d, ctx, cs)
  {
    hide Mid, Laid, Prepared, FailedAt;
  }

  lemma TargetFails(env: Env, q: Load, g: Gen, m: M, d: Bytes, ctx: Bytes, cs: seq<Request>, more: seq<Request>, j: nat)
    requires |m.w.blob| == |d| && j < |cs| && FailedAt(env, m, ctx, cs, j)
    ensures FrontOutcome(env, q, g, Err(m), d, ctx, cs + more)
  {
    hide FailedAt;
    FailedLater(env, m, ctx, cs, more, j);
  }

  lemma FrontRun(env: Env, cfg: Config, g: Gen, s: ProgSpec, p: Pending, m: M, d: Bytes, ctx: Bytes, cs: seq<Request>)
    returns (q: Load, front: seq<Group>)
    requires g.Live? && Tracks(env, g, m.w, d, ctx, cs) && |ctx| >= CTX_SZ && Idle(g, p) && IdleAccount(LedgerAfter(cs))
    requires Front(cfg, g, s).Live? && Front(cfg, g, s).data <= d && RelosFit(p.relos, s.insns)
    ensures q.prog == s && q.pend == p && q.at == AddProg(cfg, g, s, g.coreRelos).1
    ensures Front(cfg, g, s).groups == g.groups + front
    ensures FrontOutcome(env, q, Front(cfg, g, s), DenAll(env, front, m), d, ctx, cs + Searches(p))
  {
    hide AddProg, EmitProgFields, EmitProgPointers, EmitAttach, EmitRelos, Tracks, LedgerAfter, Calls, Fd, Get,
      Mid, Laid, Prepared;
    hide FailedAt, DenAll, RelosFit, MidOutcome, FrontOutcome, IdleAccount, SoughtTarget, Sought;
    var (h1, a) := AddProg(cfg, g, s, g.coreRelos);
    var h2 := EmitProgFields(cfg, EmitProgPointers(cfg, h1, a), a.attr);
    var g3, g4 := EmitAttach(cfg, h2, a.attr), Front(cfg, g, s);
    PrefixTrans(g3.data, g4.data, d);
    PrefixTrans(h2.data, g3.data, d);
    var g2, at, pre := Prelude(env, cfg, g, s, m, d, ctx, cs);
    var m1 := DenAll(env, pre, m).m;
    var target := TargetRun(env, cfg, g2, at, s, p, m1, d, ctx, cs);
    var out1, cs1 := DenAll(env, target, m1), cs + SoughtTarget(p);
    assert cs1 + Sought(p.relos, |p.relos|) == cs + Searches(p);
    q := Load(s, p, at, |g2.data|, |cs1|, out1.m.w.blob);
    assert p.relos[..|p.relos|] == p.relos;
    var relos: seq<Group>;
    if out1.Next? {
      relos := RelosRun(env, cfg, q, |p.relos|, g3, out1.m, d, ctx, cs1);
      RelosOutcome(env, q, g4, DenAll(env, relos, out1.m), d, ctx, cs1 + Sought(p.relos, |p.relos|));
    } else {
      relos := g4.groups[|g3.groups|..];
      assert g4.groups == g3.groups + relos;
      TargetFails(env, q, g4, out1.m, d, ctx, cs1, Sought(p.relos, |p.relos|), |cs|);
    }
    front := pre + (target + relos);
    assert g.groups + pre + target + relos == g.groups + front;
    DenAppend(env, pre, target + relos, m);
    DenAppend(env, target, relos, m1);
  }

  // GenProgLoad in two parts.
  lemma LoadParts(cfg: Config, g: Gen, s: ProgSpec)
    requires GenProgLoad(cfg, g, s).Live?
    ensures g.Live?
    ensures var g4, at := Front(cfg, g, s), AddProg(cfg, g, s, g.coreRelos).1;
      var g7 := CloseAttach(cfg, CleanupRelos(cfg, EmitProgLoad(cfg, g4, s, at.attr)), at.attr);
      GenProgLoad(cfg, g, s) == SaveProg(cfg, Emit(cfg, g7, CheckErr))
  {
    hide AddProg, EmitProgFields, EmitProgPointers, EmitAttach, EmitRelos, EmitProgLoad, CleanupRelos, CloseAttach,
      Emit, SaveProg;
  }

  // The attribute and the pieces at the command.
  lemma AttrAtEnd(env: Env, q: Load, b: Bytes, ctx: Bytes)
    requires Prepared(env, q.base, q.at, q.prog, q.pend.core, AttrFields(q.pend), q.end, ctx) && Laid(q)
    requires KeptData(q, |q.pend.relos|, b)
    ensures AttrIs(env, b, q.at, q.prog, q.pend.core, AttrFields(q.pend), ctx) && PiecesIn(b, q.at, q.prog, q.pend.core)
  {
    hide AttrIs, PiecesIn, KeptData, Laid, SameFixed;
    DataSame(q, b, q.pend.core);
    assert AttrFields(q.pend) == AttrFields(q.pend) + [];
    AttrSame(env, q.at, q.prog, q.pend.core, q.end, false, q.base, b, AttrFields(q.pend), AttrFields(q.pend), ctx);
    PiecesSame(q.at, q.prog, q.pend.core, q.end, false, q.base, b);
  }

  // From the end of the relocations to the program's descriptor.
  lemma BackRun(env: Env, cfg: Config, q: Load, g4: Gen, m: M, d: Bytes, ctx: Bytes,
    cs: seq<Request>) returns (back: seq<Group>)
    requires Mid(env, q, |q.pend.relos|, g4, m.w, d, ctx, cs) && Laid(q)
    requires Prepared(env, q.base, q.at, q.prog, q.pend.core, AttrFields(q.pend), q.end, ctx)
    requires var g7 := CloseAttach(cfg, CleanupRelos(cfg, EmitProgLoad(cfg, g4, q.prog, q.at.attr)), q.at.attr);
      var g9 := SaveProg(cfg, Emit(cfg, g7, CheckErr)); g9.Live? && g9.data <= d && g9.nrProgs <= MAX_USED_PROGS
    ensures g4.Live?
    ensures var g7 := CloseAttach(cfg, CleanupRelos(cfg, EmitProgLoad(cfg, g4, q.prog, q.at.attr)), q.at.attr);
      var g9 := SaveProg(cfg, Emit(cfg, g7, CheckErr));
      var out, cs2 := DenAll(env, back, m), cs + [Do(ProgLoad(q.prog), q.pend)];
      g9.groups == g4.groups + back && Outcome(env, g9, out, d, ctx, cs2)
  {
    hide Mid, Laid, Tracks, Prepared, CloseAttach, CleanupRelos, EmitProgLoad, SaveProg, Emit, DenAll, Outcome,
      IdleAccount, Given;
    hide LedgerAfter, Calls, Play, InPlace, Held, Attached, KeptData, DoneAt, LocsIn, AttrIs, PiecesIn, Answered;
    var s, attr := q.prog, q.at.attr;
    var dbg := TailAt(cfg, g4, s, attr);
    MidEnd(env, q, g4, m.w, d, ctx, cs);
    AttrAtEnd(env, q, m.w.blob, ctx);
    MidPends(env, q, g4, m.w, d, ctx, cs);
    var g5 := EmitProgLoad(cfg, g4, s, attr);
    var g7 := CloseAttach(cfg, CleanupRelos(cfg, g5), attr);
    var g9 := SaveProg(cfg, Emit(cfg, g7, CheckErr));
    var e, shut := LoadedAndShut(env, cfg, q, g4, g5, m, dbg, d, ctx, cs);
    var head := [SysCall(BPF_PROG_LOAD, attr, PROG_ATTR_SZ), DebugRet(dbg)];
    var end := [CheckErr, SaveToStack(OffProgFd(g7.nrProgs))];
    back := head + shut + end;
    assert g4.groups + head + shut + end == g4.groups + back;
    DenAppend(env, head + shut, end, m);
    var m2 := DenAll(env, head + shut, m).m;
    LoadEnds(env, g4, g9, s, q.pend, m.w, m2, e, d, ctx, cs);
  }

  lemma MidPends(env: Env, q: Load, g: Gen, w: World, d: Bytes, ctx: Bytes, cs: seq<Request>)
    requires Mid(env, q, |q.pend.relos|, g, w, d, ctx, cs)
    ensures g.Live? && g.attachKind == q.pend.attachKind
  {
    hide Counted, SymbolsOf, SlotsIn, Held, Attached, KeptData, DoneAt, Followed, InPlace, Play, Calls, LedgerAfter;
  }

  lemma FrontFails(env: Env, q: Load, g4: Gen, g9: Gen, out: Out, d: Bytes, ctx: Bytes, cs: seq<Request>, c: Request)
    requires out.Err? && FrontOutcome(env, q, g4, out, d, ctx, cs)
    ensures Outcome(env, g9, out, d, ctx, cs + [c])
  {
    hide FailedAt;
    var j :| 0 <= j < |cs| && FailedAt(env, out.m, ctx, cs, j);
    FailedLater(env, out.m, ctx, cs, [c], j);
  }

  // One program, with its symbols and attach target, from its attribute to its descriptor's place.
  lemma LoadRun(env: Env, cfg: Config, g: Gen, s: ProgSpec, p: Pending, m: M, d: Bytes, ctx: Bytes, cs: seq<Request>)
    returns (more: seq<Group>)
    requires g.Live? && Tracks(env, g, m.w, d, ctx, cs) && |ctx| >= CTX_SZ && Idle(g, p) && IdleAccount(LedgerAfter(cs))
    requires RelosFit(p.relos, s.insns)
    requires var g9 := GenProgLoad(cfg, g, s); g9.Live? && g9.data <= d && g9.nrProgs <= MAX_USED_PROGS
    ensures var g9, out, cs2 := GenProgLoad(cfg, g, s), DenAll(env, more, m), cs + Asks(ProgLoad(s), p);
      g9.groups == g.groups + more && Outcome(env, g9, out, d, ctx, cs2)
  {
    hide Tracks, DenAll, GenProgLoad, Front, Mid, Laid, Prepared, FrontOutcome, Outcome, IdleAccount, LedgerAfter, RelosFit;
    hide CloseAttach, CleanupRelos, EmitProgLoad, SaveProg, Emit, AddProg, Searches;
    LoadParts(cfg, g, s);
    var g4, g9 := Front(cfg, g, s), GenProgLoad(cfg, g, s);
    var at := AddProg(cfg, g, s, g.coreRelos).1;
    var dbg := TailAt(cfg, g4, s, at.attr);
    var cs1, c := cs + Searches(p), Do(ProgLoad(s), p);
    assert cs1 + [c] == cs + Asks(ProgLoad(s), p) by { AsksLoad(s, p); }
    ShutGrows(cfg, EmitProgLoad(cfg, g4, s, at.attr), at.attr);
    LoadGrows(cfg, g4, s, at.attr, d);
    var q, front := FrontRun(env, cfg, g, s, p, m, d, ctx, cs);
    var out := DenAll(env, front, m);
    var back: seq<Group>;
    if out.Next? {
      FrontMid(env, q, g4, out.m, d, ctx, cs1);
      back := BackRun(env, cfg, q, g4, out.m, d, ctx, cs1);
    } else {
      back := g9.groups[|g4.groups|..];
      assert g9.groups == g4.groups + back;
      FrontFails(env, q, g4, g9, out, d, ctx, cs1, c);
    }
    more := front + back;
    assert g.groups + front + back == g.groups + more;
    DenAppend(env, front, back, m);
  }

  lemma AsksLoad(s: ProgSpec, p: Pending)
    ensures Asks(ProgLoad(s), p) == Searches(p) + [Do(ProgLoad(s), p)]
  {
  }

  lemma FrontMid(env: Env, q: Load, g: Gen, m: M, d: Bytes, ctx: Bytes, cs: seq<Request>)
    requires FrontOutcome(env, q, g, Next(m), d, ctx, cs)
    ensures Mid(env, q, |q.pend.relos|, g, m.w, d, ctx, cs) && Laid(q)
    ensures Prepared(env, q.base, q.at, q.prog, q.pend.core, AttrFields(q.pend), q.end, ctx)
  {
    hide Mid, Laid, Prepared;
  }

  lemma LoadGrows(cfg: Config, g4: Gen, s: ProgSpec, attr: int, d: Bytes)
    requires var g9 := SaveProg(cfg, Emit(cfg, CloseAttach(cfg, CleanupRelos(cfg, EmitProgLoad(cfg, g4, s, attr)),
      attr), CheckErr));
      g9.Live? && g9.data <= d
    ensures var g9 := SaveProg(cfg, Emit(cfg, CloseAttach(cfg, CleanupRelos(cfg, EmitProgLoad(cfg, g4, s, attr)),
      attr), CheckErr));
      g4.Live? && g4.data <= d && g4.groups <= g9.groups
  {
    hide SaveProg, Emit, CloseAttach, CleanupRelos, EmitProgLoad, Wf, Extends;
    var g5 := EmitProgLoad(cfg, g4, s, attr);
    var g6 := CleanupRelos(cfg, g5);
    var g7 := CloseAttach(cfg, g6, attr);
    var g8 := Emit(cfg, g7, CheckErr);
    var g9 := SaveProg(cfg, g8);
    GrownExtends(cfg, g4, g5);
    GrownExtends(cfg, g7, g8);
    ExtendsTrans(cfg, g4, g5, g6);
    ExtendsTrans(cfg, g4, g6, g7);
    ExtendsTrans(cfg, g4, g7, g8);
    ExtendsTrans(cfg, g4, g8, g9);
    ExtendsData(cfg, g4, g9);
    PrefixTrans(g4.data, g9.data, d);
  }

  lemma GrownExtends(cfg: Config, g: Gen, g': Gen)
    requires Grown(cfg, g, g')
    ensures Extends(cfg, g, g')
  {
  }

  lemma ExtendsData(cfg: Config, g: Gen, g': Gen)
    requires Extends(cfg, g, g') && g'.Live?
    ensures g.Live? && g.data <= g'.data && g.groups <= g'.groups
  {
  }
}
