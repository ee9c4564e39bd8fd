/** The line-info index: line addresses of a jited program split into one segment per function, and the
    searches over it. */
module LinfoIndex {
  const TWO64: nat := 0x1_0000_0000_0000_0000
  const EINVAL: int := 22

  datatype Option<T> = None | Some(value: T)

  // --- the split

  // Segment f of the line table, for segments that start at idx.
  function SegEnd(idx: seq<nat>, f: nat, n: nat): nat
    requires f < |idx|
  {
    if f + 1 < |idx| then idx[f + 1] else n
  }

  // The last line of a function lies within its length, in 64-bit arithmetic.
  predicate Inside(first: nat, last: nat, len: nat) {
    (last as int - first as int + 1) % TWO64 <= len
  }

  // Segment f starts at its function's address and is not empty; if another function follows, it
  // is the first to mention that one's address, increases strictly, and stays inside the function.
  ghost predicate SegmentOk(jited: seq<nat>, ksym: seq<nat>, len: seq<nat>, idx: seq<nat>, f: nat)
    requires f < |idx| == |ksym| == |len|
  {
    var a, b := idx[f], SegEnd(idx, f, |jited|);
    a < b <= |jited| && jited[a] == ksym[f]
    && (f + 1 < |idx| ==>
          (forall i | a < i < b :: jited[i - 1] < jited[i] && jited[i] != ksym[f + 1])
          && Inside(jited[a], jited[b - 1], len[f]))
  }

  ghost predicate Dissected(jited: seq<nat>, ksym: seq<nat>, len: seq<nat>, idx: seq<nat>) {
    |idx| == |ksym| == |len| && |idx| > 0 && idx[0] == 0
    && forall f | 0 <= f < |idx| :: SegmentOk(jited, ksym, len, idx, f)
  }

  // The first n starts of a dissection, and the checks made up to record i.
  ghost predicate Partly(jited: seq<nat>, ksym: seq<nat>, len: seq<nat>, idx: seq<nat>, i: nat) {
    |ksym| == |len| && 0 < |idx| <= |ksym| && idx[0] == 0 && jited != [] && i <= |jited|
    && (forall f | 0 <= f < |idx| :: idx[f] < i && jited[idx[f]] == ksym[f])
    && (forall f | 0 <= f < |idx| - 1 :: Closed(jited, ksym, len, idx, f))
    && (|idx| < |ksym| ==> forall k | idx[|idx| - 1] < k < i :: jited[k - 1] < jited[k] && jited[k] != ksym[|idx|])
  }

  ghost predicate Closed(jited: seq<nat>, ksym: seq<nat>, len: seq<nat>, idx: seq<nat>, f: nat)
    requires f + 1 < |idx| <= |ksym| == |len|
  {
    var a, b := idx[f], idx[f + 1];
    a < b <= |jited| && (forall i | a < i < b :: jited[i - 1] < jited[i] && jited[i] != ksym[f + 1])
    && Inside(jited[a], jited[b - 1], len[f])
  }

  // Any dissection begins with what has been found so far.
  ghost predicate Forced(jited: seq<nat>, ksym: seq<nat>, len: seq<nat>, idx: seq<nat>) {
    forall d | Dissected(jited, ksym, len, d) :: |idx| <= |d| && d[..|idx|] == idx
  }

  lemma FinishForced(jited: seq<nat>, ksym: seq<nat>, len: seq<nat>, idx: seq<nat>, i: nat)
    requires Partly(jited, ksym, len, idx, i) && Forced(jited, ksym, len, idx) && |idx| == |ksym|
    ensures Dissected(jited, ksym, len, idx)
    ensures forall d | Dissected(jited, ksym, len, d) :: d == idx
  {
    forall f | 0 <= f < |idx| ensures SegmentOk(jited, ksym, len, idx, f) {
      if f + 1 < |idx| { assert Closed(jited, ksym, len, idx, f); }
    }
  }

  // The next function has been found at record i.
  lemma NextFound(jited: seq<nat>, ksym: seq<nat>, len: seq<nat>, idx: seq<nat>, i: nat)
    requires Partly(jited, ksym, len, idx, i) && Forced(jited, ksym, len, idx) && |idx| < |ksym| && 0 < i < |jited|
    requires jited[i] == ksym[|idx|]
    ensures var fits := Inside(ksym[|idx| - 1], jited[i - 1], len[|idx| - 1]);
      if fits then Partly(jited, ksym, len, idx + [i], i + 1) && Forced(jited, ksym, len, idx + [i])
      else forall d :: !Dissected(jited, ksym, len, d)
  {
    hide Dissected;
    var n := |idx|;
    var fits := Inside(ksym[n - 1], jited[i - 1], len[n - 1]);
    forall d | Dissected(jited, ksym, len, d) ensures fits && |idx + [i]| <= |d| && d[..n + 1] == idx + [i] {
      NextForced(jited, ksym, len, idx, i, d);
    }
    if fits {
      var x := idx + [i];
      forall f | 0 <= f < |x| - 1 ensures Closed(jited, ksym, len, x, f) {
        if f < n - 1 { assert Closed(jited, ksym, len, idx, f); }
      }
    }
  }

  lemma NextForced(jited: seq<nat>, ksym: seq<nat>, len: seq<nat>, idx: seq<nat>, i: nat, d: seq<nat>)
    requires Partly(jited, ksym, len, idx, i) && Forced(jited, ksym, len, idx) && |idx| < |ksym| && 0 < i < |jited|
    requires jited[i] == ksym[|idx|] && Dissected(jited, ksym, len, d)
    ensures |idx| < |d| && d[|idx|] == i && Inside(ksym[|idx| - 1], jited[i - 1], len[|idx| - 1]) && d[..|idx| + 1] == idx + [i]
  {
    var n := |idx|;
    NextSegment(jited, ksym, len, idx, d);
    assert d[n] == i;
    assert d[..n + 1] == d[..n] + [i];
  }

  // Where the segment after the ones found starts in any dissection.
  lemma NextSegment(jited: seq<nat>, ksym: seq<nat>, len: seq<nat>, idx: seq<nat>, d: seq<nat>)
    requires Forced(jited, ksym, len, idx) && Dissected(jited, ksym, len, d) && 0 < |idx| < |ksym|
    ensures var n := |idx|;
      n < |d| && d[..n] == idx && idx[n - 1] < d[n] < |jited| && jited[d[n]] == ksym[n]
      && (forall k | idx[n - 1] < k < d[n] :: jited[k - 1] < jited[k] && jited[k] != ksym[n])
      && Inside(ksym[n - 1], jited[d[n] - 1], len[n - 1])
  {
    var n := |idx|;
    assert d[..n][n - 1] == d[n - 1];
    assert SegmentOk(jited, ksym, len, d, n - 1) && SegmentOk(jited, ksym, len, d, n);
  }

  // Record i breaks the order of a function that another one follows.
  lemma OrderBroken(jited: seq<nat>, ksym: seq<nat>, len: seq<nat>, idx: seq<nat>, i: nat)
    requires Partly(jited, ksym, len, idx, i) && Forced(jited, ksym, len, idx) && |idx| < |ksym| && 0 < i < |jited|
    requires jited[i] != ksym[|idx|] && jited[i] <= jited[i - 1]
    ensures forall d :: !Dissected(jited, ksym, len, d)
  {
    hide Dissected, Forced;
    forall d ensures !Dissected(jited, ksym, len, d) {
      if Dissected(jited, ksym, len, d) {
        NextSegment(jited, ksym, len, idx, d);
      }
    }
  }

  // Not all functions were found.
  lemma FuncMissing(jited: seq<nat>, ksym: seq<nat>, len: seq<nat>, idx: seq<nat>)
    requires Partly(jited, ksym, len, idx, |jited|) && Forced(jited, ksym, len, idx) && |idx| < |ksym|
    ensures forall d :: !Dissected(jited, ksym, len, d)
  {
    hide Dissected, Forced;
    forall d ensures !Dissected(jited, ksym, len, d) {
      if Dissected(jited, ksym, len, d) {
        NextSegment(jited, ksym, len, idx, d);
      }
    }
  }

  lemma Started(jited: seq<nat>, ksym: seq<nat>, len: seq<nat>)
    requires jited != [] && |ksym| == |len| > 0
    ensures if jited[0] == ksym[0] then Partly(jited, ksym, len, [0], 1) && Forced(jited, ksym, len, [0])
            else forall d :: !Dissected(jited, ksym, len, d)
  {
    forall d | Dissected(jited, ksym, len, d) ensures jited[0] == ksym[0] && d[..1] == [0] {
      assert SegmentOk(jited, ksym, len, d, 0);
    }
  }

  lemma OneMore(jited: seq<nat>, ksym: seq<nat>, len: seq<nat>, idx: seq<nat>, i: nat)
    requires Partly(jited, ksym, len, idx, i) && |idx| < |ksym| && 0 < i < |jited|
    requires jited[i] != ksym[|idx|] && jited[i] > jited[i - 1]
    ensures Partly(jited, ksym, len, idx, i + 1)
  {
    forall f | 0 <= f < |idx| - 1 ensures Closed(jited, ksym, len, idx, f) {
    }
  }

  class ProgLinfo {
    // the addresses of raw_jited_linfo and the instruction offsets of raw_linfo
    const jited: seq<nat>
    const offs: seq<nat>
    const nrPerFunc: array<nat>
    const funcIdx: array<nat>

    ghost predicate Valid()
      reads this
    {
      nrPerFunc.Length == funcIdx.Length && |jited| == |offs| && jited != [] && nrPerFunc != funcIdx
    }

    constructor (jited: seq<nat>, offs: seq<nat>, nrFunc: nat)
      requires |jited| == |offs| && jited != []
      ensures Valid() && this.jited == jited && this.offs == offs && funcIdx.Length == nrFunc && fresh(funcIdx)
        && fresh(nrPerFunc)
    {
      this.jited, this.offs := jited, offs;
      nrPerFunc := new nat[nrFunc];
      funcIdx := new nat[nrFunc];
    }

    // The index is that of a dissection.
    ghost predicate Indexed(ksym: seq<nat>, len: seq<nat>)
      requires Valid()
      reads this, nrPerFunc, funcIdx
    {
      Dissected(jited, ksym, len, funcIdx[..])
      && forall f | 0 <= f < funcIdx.Length :: funcIdx[f] + nrPerFunc[f] == SegEnd(funcIdx[..], f, |jited|)
    }

    // dissect_jited_func: succeeds exactly if there is a dissection, and then finds the only one
    method Dissect(ksym: seq<nat>, len: seq<nat>) returns (err: int)
      requires Valid() && |ksym| == |len| == funcIdx.Length && funcIdx.Length > 0
      modifies nrPerFunc, funcIdx
      ensures err == 0 || err == -EINVAL
      ensures err == 0 <==> exists d :: Dissected(jited, ksym, len, d)
      ensures err == 0 ==> Indexed(ksym, len) && forall d | Dissected(jited, ksym, len, d) :: d == funcIdx[..]
    {
      hide Partly, Forced, Dissected, Inside, SegEnd;
      Started(jited, ksym, len);
      if ksym[0] != jited[0] {
        return -EINVAL;
      }
      funcIdx[0] := 0;
      var prevI, i, f := 0, 1, 1;
      assert funcIdx[..1] == [0];
      while i < |jited| && f < funcIdx.Length
        invariant 1 <= i <= |jited| && 1 <= f <= funcIdx.Length && prevI == funcIdx[f - 1] < i
        invariant Partly(jited, ksym, len, funcIdx[..f], i) && Forced(jited, ksym, len, funcIdx[..f])
        invariant forall g | 0 <= g < f - 1 :: funcIdx[g] + nrPerFunc[g] == funcIdx[g + 1]
      {
        var last := jited[i - 1];
        ghost var found := funcIdx[..f];
        if ksym[f] == jited[i] {
          NextFound(jited, ksym, len, found, i);
          funcIdx[f] := i;
          if !Inside(ksym[f - 1], last, len[f - 1]) {
            return -EINVAL;
          }
          nrPerFunc[f - 1] := i - prevI;
          prevI := i;
          assert funcIdx[..f + 1] == found + [i];
          f := f + 1;
        } else if jited[i] <= last {
          OrderBroken(jited, ksym, len, found, i);
          return -EINVAL;
        } else {
          OneMore(jited, ksym, len, found, i);
        }
        i := i + 1;
      }
      assert f == funcIdx.Length ==> funcIdx[..f] == funcIdx[..];
      if f != funcIdx.Length {
        FuncMissing(jited, ksym, len, funcIdx[..f]);
        return -EINVAL;
      }
      FinishForced(jited, ksym, len, funcIdx[..], i);
      CountLast(prevI);
      return 0;
    }

    // The lines after the last function's start are its own.
    method CountLast(prevI: nat)
      requires Valid() && funcIdx.Length > 0 && prevI == funcIdx[funcIdx.Length - 1] <= |jited|
      requires forall g | 0 <= g < funcIdx.Length - 1 :: funcIdx[g] + nrPerFunc[g] == funcIdx[g + 1]
      modifies nrPerFunc
      ensures forall f | 0 <= f < funcIdx.Length :: funcIdx[f] + nrPerFunc[f] == SegEnd(funcIdx[..], f, |jited|)
    {
      nrPerFunc[nrPerFunc.Length - 1] := |jited| - prevI;
    }

    // bpf_prog_linfo__lfind_addr_func
    method FindAddr(addr: nat, f: nat, skip: nat, ghost ksym: seq<nat>, ghost len: seq<nat>) returns (r: Option<nat>)
      requires Valid() && (funcIdx.Length > 0 ==> Indexed(ksym, len))
      ensures r == if f >= funcIdx.Length then None else Before(jited, funcIdx[f] + skip, funcIdx[f] + nrPerFunc[f], addr)
    {
      hide Dissected;
      if f >= funcIdx.Length {
        return None;
      }
      SegmentIn(jited, ksym, len, funcIdx[..], f);
      var n := nrPerFunc[f];
      if skip >= n {
        return None;
      }
      var start := funcIdx[f] + skip;
      if addr < jited[start] {
        return None;
      }
      var i := 0;
      while i < n - skip
        invariant i <= n - skip
        invariant FirstAbove(jited, start, start + (n - skip), addr)
          == FirstAbove(jited, start + i, start + (n - skip), addr)
      {
        if addr < jited[start + i] {
          break;
        }
        i := i + 1;
      }
      return Some(start + i - 1);
    }

    // bpf_prog_linfo__lfind
    method FindInsn(off: nat, skip: nat) returns (r: Option<nat>)
      requires Valid()
      ensures r == Before(offs, skip, |offs|, off)
    {
      if skip >= |offs| {
        return None;
      }
      if off < offs[skip] {
        return None;
      }
      var i := 0;
      while i < |offs| - skip
        invariant i <= |offs| - skip && FirstAbove(offs, skip, |offs|, off) == FirstAbove(offs, skip + i, |offs|, off)
      {
        if off < offs[skip + i] {
          break;
        }
        i := i + 1;
      }
      return Some(skip + i - 1);
    }
  }

  // --- the searches

  // The first position from a on whose value is above x, or b.
  function FirstAbove(s: seq<nat>, a: nat, b: nat, x: nat): (j: nat)
    requires a <= b <= |s|
    ensures a <= j <= b && (forall k | a <= k < j :: s[k] <= x) && (j < b ==> s[j] > x)
    decreases b - a
  {
    if a == b || s[a] > x then a else FirstAbove(s, a + 1, b, x)
  }

  // The record before that one; none if there is nothing from a on, or the first is above x.
  function Before(s: seq<nat>, a: nat, b: nat, x: nat): Option<nat> {
    if a >= b || b > |s| || s[a] > x then None else Some(FirstAbove(s, a, b, x) - 1)
  }

  // What a search is for: the last record not above x.
  ghost predicate Right(s: seq<nat>, a: nat, b: nat, x: nat)
    requires a < b <= |s|
  {
    var r := Before(s, a, b, x);
    if r.Some? then a <= r.value < b && s[r.value] <= x && forall k | r.value < k < b :: s[k] > x
    else forall k | a <= k < b :: s[k] > x
  }

  ghost predicate NotFalling(s: seq<nat>, a: nat, b: nat)
    requires b <= |s|
  {
    forall k | a < k < b :: s[k - 1] <= s[k]
  }

  lemma {:induction false} Climbs(s: seq<nat>, a: nat, b: nat, i: nat, j: nat)
    requires a <= i <= j < b <= |s| && NotFalling(s, a, b)
    ensures s[i] <= s[j]
    decreases j
  {
    if i < j {
      Climbs(s, a, b, i, j - 1);
    }
  }

  // The search finds that record for every x if and only if the segment does not decrease anywhere.
  lemma BeforeIsGreatest(s: seq<nat>, a: nat, b: nat)
    requires a < b <= |s|
    ensures (forall x: nat :: Right(s, a, b, x)) <==> NotFalling(s, a, b)
  {
    if NotFalling(s, a, b) {
      forall x: nat ensures Right(s, a, b, x) {
        RightWhereRising(s, a, b, x);
      }
    } else {
      var k :| a < k < b && s[k - 1] > s[k];
      assert FirstAbove(s, a, b, s[k]) < k;
      assert !Right(s, a, b, s[k]);
    }
  }

  lemma RightWhereRising(s: seq<nat>, a: nat, b: nat, x: nat)
    requires a < b <= |s| && NotFalling(s, a, b)
    ensures Right(s, a, b, x)
  {
    forall i, j | a <= i <= j < b ensures s[i] <= s[j] {
      Climbs(s, a, b, i, j);
    }
  }

  lemma SegmentIn(jited: seq<nat>, ksym: seq<nat>, len: seq<nat>, idx: seq<nat>, f: nat)
    requires Dissected(jited, ksym, len, idx) && f < |idx|
    ensures idx[f] < SegEnd(idx, f, |jited|) <= |jited| && jited[idx[f]] == ksym[f]
  {
    assert SegmentOk(jited, ksym, len, idx, f);
  }

  // In every function but the last, the search by address finds the last line not above it.
  lemma FoundInFunction(jited: seq<nat>, ksym: seq<nat>, len: seq<nat>, idx: seq<nat>, f: nat, skip: nat, addr: nat)
    requires Dissected(jited, ksym, len, idx) && f + 1 < |idx| && idx[f] + skip < idx[f + 1]
    ensures idx[f + 1] <= |jited| && Right(jited, idx[f] + skip, idx[f + 1], addr)
  {
    assert SegmentOk(jited, ksym, len, idx, f);
    RightWhereRising(jited, idx[f] + skip, idx[f + 1], addr);
  }

  // The lines of the last function are not checked.  There the search is right, for every address
  // and from every line on, if and only if they do not decrease.
  lemma FoundInLast(jited: seq<nat>, ksym: seq<nat>, len: seq<nat>, idx: seq<nat>)
    requires Dissected(jited, ksym, len, idx)
    ensures var a := idx[|idx| - 1];
      (forall from: nat, addr: nat | a <= from < |jited| :: Right(jited, from, |jited|, addr))
      <==> NotFalling(jited, a, |jited|)
  {
    var a := idx[|idx| - 1];
    SegmentIn(jited, ksym, len, idx, |idx| - 1);
    if NotFalling(jited, a, |jited|) {
      forall from: nat, addr: nat | a <= from < |jited| ensures Right(jited, from, |jited|, addr) {
        RightWhereRising(jited, from, |jited|, addr);
      }
    } else {
      BeforeIsGreatest(jited, a, |jited|);
      var addr: nat :| !Right(jited, a, |jited|, addr);
    }
  }

  // Two functions; the last one's lines are at 200, 230 and 210.
  const LINES: seq<nat> := [100, 120, 200, 230, 210]
  const FUNCS: seq<nat> := [100, 200]
  const SIZES: seq<nat> := [50, 50]

  // They are dissected, and the search for address 215 gives the line at 200 and not that at 210.
  lemma LastOutOfOrder()
    ensures Dissected(LINES, FUNCS, SIZES, [0, 2]) && Before(LINES, 2, 5, 215) == Some(2) && LINES[4] == 210
    ensures !Right(LINES, 2, 5, 215)
  {
    assert SegmentOk(LINES, FUNCS, SIZES, [0, 2], 0);
    assert SegmentOk(LINES, FUNCS, SIZES, [0, 2], 1);
    assert FirstAbove(LINES, 2, 5, 215) == 3;
  }

  // The segments follow each other without gaps: their lengths add up to the whole table.
  lemma {:induction false} LengthsAddUp(jited: seq<nat>, ksym: seq<nat>, len: seq<nat>, idx: seq<nat>, f: nat)
    requires Dissected(jited, ksym, len, idx) && f <= |idx|
    ensures SumLengths(idx, |jited|, f) == if f == |idx| then |jited| else idx[f]
  {
    if f > 0 {
      LengthsAddUp(jited, ksym, len, idx, f - 1);
      SegmentIn(jited, ksym, len, idx, f - 1);
    }
  }

  function SumLengths(idx: seq<nat>, n: nat, f: nat): int
    requires f <= |idx|
  {
    if f == 0 then 0 else SumLengths(idx, n, f - 1) + SegEnd(idx, f - 1, n) - idx[f - 1]
  }
}
