/** Groups that only fill in attribute fields: they stay inside one piece of the blob, leave no
    trace and never fault. */
module LoaderFrame {
  import opened LoaderBytes
  import opened LoaderMachine
  import opened LoaderIR

  predicate Within(off: int, n: int, lo: int, hi: int) {
    lo <= off && off + n <= hi
  }

  // A group of an attribute: writes lie in [lo, hi) of a blob of size hi or more, reads are in bounds.
  predicate Quiet(g: Group, lo: int, hi: int, ctxSz: int) {
    match g
    case RelStore(off, _) => Within(off, 8, lo, hi)
    case Blob2Blob(off, sz, src) => Within(off, Width(sz), lo, hi) && Within(src, Width(sz), 0, hi)
    case Ctx2Blob(off, sz, ctxOff, _) => Within(off, Width(sz), lo, hi) && Within(ctxOff, Width(sz), 0, ctxSz)
    case Stack2Blob(off, sz, so) => Within(off, Width(sz), lo, hi) && Within(so, Width(sz), -STACK_SZ, 0)
    case InitialValue(ctxOff, value, n) =>
      n >= 0 && Within(value, n, lo, hi) && Within(ctxOff, 8, 0, ctxSz) && CTX_FLAGS + 4 <= ctxSz
    case _ => false
  }

  // The bytes of the blob a quiet group may write.
  function Writes(g: Group): (int, int) {
    match g
    case RelStore(off, _) => (off, 8)
    case Blob2Blob(off, sz, _) => (off, Width(sz))
    case Ctx2Blob(off, sz, _, _) => (off, Width(sz))
    case Stack2Blob(off, sz, _) => (off, Width(sz))
    case InitialValue(_, value, n) => (value, n)
    case _ => (0, 0)
  }

  predicate Avoids(g: Group, at: int, n: int) {
    var (off, k) := Writes(g);
    off + k <= at || at + n <= off
  }

  // w' differs from w at most in the helper-call count and in bytes [lo, hi) of the blob.
  predicate Framed(w: World, w': World, lo: int, hi: int) {
    w' == w.(blob := w'.blob, calls := w'.calls)
    && |w'.blob| == |w.blob| && 0 <= lo <= hi <= |w.blob|
    && w'.blob[..lo] == w.blob[..lo] && w'.blob[hi..] == w.blob[hi..]
  }

  // A world in which all pieces have the expected sizes.
  predicate Sound(w: World, hi: int, ctxSz: int) {
    w.ok && |w.stack| == STACK_SZ && hi <= |w.blob| && ctxSz <= |w.ctx|
  }

  lemma PutFramed(w: World, off: int, bs: Bytes, lo: int, hi: int)
    requires Within(off, |bs|, lo, hi) && 0 <= lo && hi <= |w.blob|
    ensures Framed(w, w.(blob := Put(w.blob, off, bs)), lo, hi)
  {
    var b := Put(w.blob, off, bs);
    assert b[..lo] == w.blob[..lo];
    assert b[hi..] == w.blob[hi..];
  }

  lemma StoreBlob(env: Env, w: World, off: int, n: nat, v: Val)
    requires Storable(v) && InRange(w.blob, off, n)
    ensures StoreAt(env, w, BlobPtr(off), 0, n, v) == w.(blob := Put(w.blob, off, Encode(env, v, n)))
  {
  }

  // The bytes a quiet group leaves in its range.
  function Payload(env: Env, g: Group, w: World): Bytes {
    match g
    case RelStore(_, data) => Encode(env, BlobPtr(data), 8)
    case Blob2Blob(_, sz, src) => Encode(env, Num(LoadNum(w.blob, src, Width(sz))), Width(sz))
    case Ctx2Blob(off, sz, ctxOff, check) =>
      var v := LoadNum(w.ctx, ctxOff, Width(sz));
      if check && v == 0 then BlobSlice(w, off, Width(sz)) else Encode(env, Num(v), Width(sz))
    case Stack2Blob(_, sz, so) => Encode(env, Num(LoadNum(w.stack, STACK_SZ + so, Width(sz))), Width(sz))
    case InitialValue(ctxOff, value, n) =>
      var src := LoadNum(w.ctx, ctxOff, 8);
      if src == 0 || n < 0 then BlobSlice(w, value, n)
      else CopiedFrom(env, w.calls, CopyHelper(LoadNum(w.ctx, CTX_FLAGS, 4)), src, n)
    case _ => []
  }

  lemma PutSelf(b: Bytes, off: int, n: nat)
    requires InRange(b, off, n)
    ensures Put(b, off, b[off..off + n]) == b
  {
    assert b == b[..off] + b[off..off + n] + b[off + n..];
  }

  lemma MoveEffect(env: Env, g: Group, m: M, lo: int, hi: int, ctxSz: int)
    requires (g.RelStore? || g.Blob2Blob? || g.Stack2Blob?)
    requires Quiet(g, lo, hi, ctxSz) && 0 <= lo <= hi && Sound(m.w, hi, ctxSz)
    ensures Den(env, g, m) == Next(m.(w := m.w.(blob := Put(m.w.blob, Writes(g).0, Payload(env, g, m.w)))))
  {
    hide StoreAt, Encode, Put;
    match g {
      case RelStore(off, data) => StoreBlob(env, m.w, off, 8, BlobPtr(data));
      case Blob2Blob(off, sz, src) => StoreBlob(env, m.w, off, Width(sz), Num(LoadNum(m.w.blob, src, Width(sz))));
      case Stack2Blob(off, sz, so) => StoreBlob(env, m.w, off, Width(sz), Num(LoadNum(m.w.stack, STACK_SZ + so, Width(sz))));
    }
  }

  lemma CtxEffect(env: Env, g: Group, m: M, lo: int, hi: int, ctxSz: int)
    requires g.Ctx2Blob? && Quiet(g, lo, hi, ctxSz) && 0 <= lo <= hi && Sound(m.w, hi, ctxSz)
    ensures Den(env, g, m) == Next(m.(w := m.w.(blob := Put(m.w.blob, Writes(g).0, Payload(env, g, m.w)))))
  {
    hide StoreAt, Encode, Put;
    var n := Width(g.size);
    var v := LoadNum(m.w.ctx, g.ctxOff, n);
    if g.checkNonZero && v == 0 {
      PutSelf(m.w.blob, g.off, n);
    } else {
      StoreBlob(env, m.w, g.off, n, Num(v));
    }
  }

  lemma FetchEffect(env: Env, g: Group, m: M, lo: int, hi: int, ctxSz: int)
    requires g.InitialValue? && Quiet(g, lo, hi, ctxSz) && 0 <= lo <= hi && Sound(m.w, hi, ctxSz)
    ensures Den(env, g, m).Next?
    ensures var m' := Den(env, g, m).m;
      m' == m.(w := m.w.(blob := Put(m.w.blob, Writes(g).0, Payload(env, g, m.w)), calls := m'.w.calls))
      && m'.w.calls == m.w.calls + (if LoadNum(m.w.ctx, g.ctxOff, 8) == 0 then 0 else 1)
  {
    hide Put;
    var src := LoadNum(m.w.ctx, g.ctxOff, 8);
    if src == 0 {
      PutSelf(m.w.blob, g.value, g.size_);
    }
  }

  // A quiet group only puts its payload into the blob.
  lemma QuietStep(env: Env, g: Group, m: M, lo: int, hi: int, ctxSz: int)
    requires Quiet(g, lo, hi, ctxSz) && 0 <= lo <= hi && Sound(m.w, hi, ctxSz)
    ensures Den(env, g, m).Next?
    ensures var m' := Den(env, g, m).m;
      m' == m.(w := m'.w) && Framed(m.w, m'.w, lo, hi)
      && m'.w.blob == Put(m.w.blob, Writes(g).0, Payload(env, g, m.w)) && |Payload(env, g, m.w)| == Writes(g).1
  {
    hide Den, Put;
    if g.Ctx2Blob? {
      CtxEffect(env, g, m, lo, hi, ctxSz);
    } else if g.InitialValue? {
      FetchEffect(env, g, m, lo, hi, ctxSz);
    } else {
      MoveEffect(env, g, m, lo, hi, ctxSz);
    }
    PutFramed(m.w, Writes(g).0, Payload(env, g, m.w), lo, hi);
  }

  ghost predicate AllQuiet(gs: seq<Group>, lo: int, hi: int, ctxSz: int) {
    forall g | g in gs :: Quiet(g, lo, hi, ctxSz)
  }

  lemma FramedTrans(w0: World, w1: World, w2: World, lo: int, hi: int)
    requires Framed(w0, w1, lo, hi) && Framed(w1, w2, lo, hi)
    ensures Framed(w0, w2, lo, hi)
  {
  }

  lemma {:induction false} QuietRun(env: Env, gs: seq<Group>, m: M, lo: int, hi: int, ctxSz: int)
    requires AllQuiet(gs, lo, hi, ctxSz) && 0 <= lo <= hi && Sound(m.w, hi, ctxSz)
    ensures DenAll(env, gs, m).Next?
    ensures var m' := DenAll(env, gs, m).m; m' == m.(w := m'.w) && Framed(m.w, m'.w, lo, hi)
    decreases |gs|
  {
    hide Den, Quiet;
    if gs != [] {
      assert gs[0] in gs;
      QuietStep(env, gs[0], m, lo, hi, ctxSz);
      var m1 := Den(env, gs[0], m).m;
      QuietRun(env, gs[1..], m1, lo, hi, ctxSz);
      FramedTrans(m.w, m1.w, DenAll(env, gs[1..], m1).m.w, lo, hi);
    }
  }

  // Only an initial value takes a helper call.
  lemma {:induction false} QuietCalls(env: Env, gs: seq<Group>, m: M, lo: int, hi: int, ctxSz: int)
    requires AllQuiet(gs, lo, hi, ctxSz) && 0 <= lo <= hi && Sound(m.w, hi, ctxSz) && forall g | g in gs :: !g.InitialValue?
    ensures DenAll(env, gs, m).m.w.calls == m.w.calls
    decreases |gs|
  {
    hide Den, Quiet, Put;
    if gs != [] {
      assert gs[0] in gs;
      QuietStep(env, gs[0], m, lo, hi, ctxSz);
      if gs[0].Ctx2Blob? {
        CtxEffect(env, gs[0], m, lo, hi, ctxSz);
      } else {
        QuietKinds(gs[0], lo, hi, ctxSz);
        MoveEffect(env, gs[0], m, lo, hi, ctxSz);
      }
      QuietCalls(env, gs[1..], Den(env, gs[0], m).m, lo, hi, ctxSz);
    }
  }

  lemma QuietKinds(g: Group, lo: int, hi: int, ctxSz: int)
    requires Quiet(g, lo, hi, ctxSz)
    ensures g.RelStore? || g.Blob2Blob? || g.Ctx2Blob? || g.Stack2Blob? || g.InitialValue?
  {
  }

  // Bytes no group writes keep their value.
  lemma {:induction false} QuietKeeps(env: Env, gs: seq<Group>, m: M, lo: int, hi: int, ctxSz: int, at: int, n: nat)
    requires AllQuiet(gs, lo, hi, ctxSz) && 0 <= lo <= hi && Sound(m.w, hi, ctxSz)
    requires InRange(m.w.blob, at, n) && forall g | g in gs :: Avoids(g, at, n)
    ensures DenAll(env, gs, m).Next?
    ensures var b := DenAll(env, gs, m).m.w.blob; |b| == |m.w.blob| && b[at..at + n] == m.w.blob[at..at + n]
    decreases |gs|
  {
    hide Den, Quiet;
    if gs != [] {
      assert gs[0] in gs;
      QuietStep(env, gs[0], m, lo, hi, ctxSz);
      var m1 := Den(env, gs[0], m).m;
      GetPutOther(m.w.blob, Writes(gs[0]).0, Payload(env, gs[0], m.w), at, n);
      QuietKeeps(env, gs[1..], m1, lo, hi, ctxSz, at, n);
    }
  }

  // What a quiet group wrote is still there after later groups that avoid it.
  lemma QuietField(env: Env, before: seq<Group>, g: Group, after: seq<Group>, m: M, lo: int, hi: int, ctxSz: int)
    requires Quiet(g, lo, hi, ctxSz) && AllQuiet(before, lo, hi, ctxSz) && AllQuiet(after, lo, hi, ctxSz)
    requires 0 <= lo <= hi && Sound(m.w, hi, ctxSz)
    requires forall h | h in after :: Avoids(h, Writes(g).0, Writes(g).1)
    ensures DenAll(env, before, m).Next? && DenAll(env, before + [g] + after, m).Next?
    ensures var w1 := DenAll(env, before, m).m.w;
      Framed(m.w, w1, lo, hi)
      && BlobSlice(DenAll(env, before + [g] + after, m).m.w, Writes(g).0, Writes(g).1) == Payload(env, g, w1)
  {
    hide Den, Put;
    QuietRun(env, before, m, lo, hi, ctxSz);
    var m1 := DenAll(env, before, m).m;
    QuietStep(env, g, m1, lo, hi, ctxSz);
    var m2 := Den(env, g, m1).m;
    var (off, n) := Writes(g);
    GetPutSame(m1.w.blob, off, Payload(env, g, m1.w));
    QuietKeeps(env, after, m2, lo, hi, ctxSz, off, n);
    assert before + [g] + after == before + ([g] + after);
    DenAppend(env, before, [g] + after, m);
    assert ([g] + after)[1..] == after;
  }
}
