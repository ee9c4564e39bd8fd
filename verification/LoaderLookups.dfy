/** What the code of an attach target and of a relocation does: its answer from the kernel, and
    exactly which bytes of the blob it changes. */
module LoaderLookups {
  import opened LoaderBytes
  import opened LoaderMachine
  import opened LoaderIR
  import opened LoaderGen
  import opened LoaderShape
  import opened LoaderLedger
  import opened LoaderFollow
  import opened LoaderSave
  import opened LoaderRelos

  // --- bytes

  lemma WordThere(b: Bytes, off: int, v: nat)
    requires InRange(b, off, 4)
    ensures Get(Put(b, off, LittleEndian(v, 4)), off, 4) == v % TWO32
  {
    GetPutSame(b, off, LittleEndian(v, 4));
    ReadBack(v, 4);
    assert Pow256(4) == TWO32;
  }

  lemma HalfThere(b: Bytes, off: int, v: nat)
    requires InRange(b, off, 2) && v < 0x1_0000
    ensures Get(Put(b, off, LittleEndian(v, 2)), off, 2) == v
  {
    GetPutSame(b, off, LittleEndian(v, 2));
    ReadBack(v, 2);
    assert Pow256(2) == 0x1_0000;
  }

  lemma ByteThere(b: Bytes, off: int, v: nat)
    requires InRange(b, off, 1) && v < 256
    ensures Get(Put(b, off, LittleEndian(v, 1)), off, 1) == v
  {
    GetPutSame(b, off, LittleEndian(v, 1));
    ReadBack(v, 1);
    assert Pow256(1) == 256;
  }

  lemma ByteBelow(b: Bytes, off: int)
    ensures Get(b, off, 1) < 256
  {
    if InRange(b, off, 1) {
      var s := b[off..off + 1];
      assert s[1..] == [];
      assert FromLittleEndian(s) == s[0] + 256 * FromLittleEndian(s[1..]);
    }
  }

  lemma Elsewhere(b: Bytes, off: int, bs: Bytes, at: int, n: nat)
    requires at + n <= off || off + |bs| <= at
    ensures Get(Put(b, off, bs), at, n) == Get(b, at, n)
  {
    if InRange(b, at, n) {
      GetPutOther(b, off, bs, at, n);
    }
  }

  lemma PutByte(b: Bytes, off: int, bs: Bytes, x: int)
    requires 0 <= x < |b| && (x < off || off + |bs| <= x)
    ensures Put(b, off, bs)[x] == b[x]
  {
  }

  // Bytes that are the same give the same number.
  lemma SameGet(a: Bytes, b: Bytes, at: int, n: nat)
    requires |a| == |b| && forall x | at <= x < at + n && 0 <= x < |a| :: a[x] == b[x]
    ensures Get(a, at, n) == Get(b, at, n)
  {
    if InRange(a, at, n) {
      assert a[at..at + n] == b[at..at + n];
    }
  }

  lemma OddMask(v: nat, k: nat)
    ensures And(v, 2 * k + 1) == v % 2 + 2 * And(v / 2, k)
  {
    assert (2 * k + 1) / 2 == k && (2 * k + 1) % 2 == 1;
  }

  // The lower half of a byte.
  lemma LowerHalf(v: nat)
    ensures And(v, SRC_REG_MASK) == v % 16
  {
    assert And(v / 16, 0) == 0;
    hide And;
    OddMask(v, 7);
    OddMask(v / 2, 3);
    OddMask(v / 4, 1);
    OddMask(v / 8, 0);
    assert v / 2 / 2 == v / 4 && v / 4 / 2 == v / 8 && v / 8 / 2 == v / 16;
  }

  // --- what the stores make of the blob

  // The answer for a kernel function stored: type, slot and index of the slot.
  function FunctionBlob(b: Bytes, insn: int, idx: int, ret: int): (b2: Bytes)
    ensures |b2| == |b|
  {
    var fd := ModuleFd(ret);
    var b1 := Put(b, insn + INSN_IMM, LittleEndian(U64(if ret >= 0 then ret else 0), 4));
    var b2 := if fd != 0 then Put(b1, FdSlot(idx), LittleEndian(fd, 4)) else b1;
    Put(b2, insn + INSN_OFF, LittleEndian(U64(if fd != 0 then idx else 0), 2))
  }

  // Both immediates of a load.
  function LoadBlob64(b: Bytes, insn: int, low: nat, high: nat): (b2: Bytes)
    ensures |b2| == |b|
  {
    Put(Put(b, insn + INSN_IMM, LittleEndian(low, 4)), insn + INSN_SZ + INSN_IMM, LittleEndian(high, 4))
  }

  function WithoutSrc(b: Bytes, insn: int): (b2: Bytes)
    ensures |b2| == |b|
  {
    Put(b, insn + INSN_CODE_END, LittleEndian(SrcAt(b, insn) % 16, 1))
  }

  function VariableBlob(b: Bytes, insn: int, ret: int): (b2: Bytes)
    ensures |b2| == |b|
  {
    if ret >= 0 then LoadBlob64(b, insn, U64(ret), U64(U64(ret) / TWO32)) else WithoutSrc(LoadBlob64(b, insn, 0, 0), insn)
  }

  function Copied(b: Bytes, to: int, from: int, n: nat): (b2: Bytes)
    ensures |b2| == |b|
  {
    Put(b, to, LittleEndian(Get(b, from, n), n))
  }

  function CopyBlob(b: Bytes, r: Relo, insn: int, first: int): (b2: Bytes)
    ensures |b2| == |b|
  {
    var b1 := Copied(b, insn + INSN_IMM, first + INSN_IMM, 4);
    if r.kind == BTF_KIND_FUNC then Copied(b1, insn + INSN_OFF, first + INSN_OFF, 2)
    else
      var b2 := Copied(b1, insn + INSN_SZ + INSN_IMM, first + INSN_SZ + INSN_IMM, 4);
      if r.isTypeless || FdAt(b1, first) != 0 then b2 else WithoutSrc(b2, insn)
  }

  // b2 differs from b at most in the bytes the relocation patches, in the word at slot, and from lo to hi.
  ghost predicate Touches(b: Bytes, b2: Bytes, r: Relo, insn: int, slot: int, lo: int, hi: int) {
    |b2| == |b|
    && forall x | 0 <= x < |b| && !Patches(r, x - insn) && !(slot <= x < slot + 4) && !(lo <= x < hi) :: b2[x] == b[x]
  }

  const NO_SLOT: int := -4

  lemma FunctionBlobIs(b: Bytes, r: Relo, insn: int, idx: int, ret: int64)
    requires r.kind == BTF_KIND_FUNC && InRange(b, insn, INSN_SZ) && InRange(b, FdSlot(idx), 4) && 0 <= idx <= INT16_MAX
    requires FdSlot(idx) + 4 <= insn || insn + INSN_SZ <= FdSlot(idx)
    ensures var b2, fd := FunctionBlob(b, insn, idx, ret), ModuleFd(ret);
      Touches(b, b2, r, insn, FdSlot(idx), 0, 0)
      && ImmAt(b2, insn) == (if ret >= 0 then ret % TWO32 else 0) && OffAt(b2, insn) == (if fd != 0 then idx else 0)
      && Get(b2, FdSlot(idx), 4) == if fd != 0 then fd else Get(b, FdSlot(idx), 4)
  {
    hide Get, Put, LittleEndian;
    var slot, fd := FdSlot(idx), ModuleFd(ret);
    var imm, off := LittleEndian(U64(if ret >= 0 then ret else 0), 4), LittleEndian(U64(if fd != 0 then idx else 0), 2);
    var b1 := Put(b, insn + INSN_IMM, imm);
    var b2 := if fd != 0 then Put(b1, slot, LittleEndian(fd, 4)) else b1;
    var b3 := Put(b2, insn + INSN_OFF, off);
    WordThere(b, insn + INSN_IMM, U64(if ret >= 0 then ret else 0));
    HalfThere(b2, insn + INSN_OFF, U64(if fd != 0 then idx else 0));
    WordThere(b1, slot, fd);
    Elsewhere(b, insn + INSN_IMM, imm, slot, 4);
    Elsewhere(b1, slot, LittleEndian(fd, 4), insn + INSN_IMM, 4);
    Elsewhere(b2, insn + INSN_OFF, off, insn + INSN_IMM, 4);
    Elsewhere(b2, insn + INSN_OFF, off, slot, 4);
    forall x | 0 <= x < |b| && !Patches(r, x - insn) && !(slot <= x < slot + 4) ensures b3[x] == b[x] {
      PutByte(b, insn + INSN_IMM, imm, x);
      PutByte(b1, slot, LittleEndian(fd, 4), x);
      PutByte(b2, insn + INSN_OFF, off, x);
    }
  }

  lemma LoadBlobIs(b: Bytes, r: Relo, insn: int, low: nat, high: nat)
    requires r.kind != BTF_KIND_FUNC && InRange(b, insn, 2 * INSN_SZ)
    ensures var b2 := LoadBlob64(b, insn, low, high);
      Touches(b, b2, r, insn, NO_SLOT, 0, 0) && ImmAt(b2, insn) == low % TWO32 && FdAt(b2, insn) == high % TWO32
      && SrcAt(b2, insn) == SrcAt(b, insn)
  {
    hide Get, Put, LittleEndian;
    var i, f := insn + INSN_IMM, insn + INSN_SZ + INSN_IMM;
    var b1 := Put(b, i, LittleEndian(low, 4));
    var b2 := Put(b1, f, LittleEndian(high, 4));
    WordThere(b, i, low);
    WordThere(b1, f, high);
    Elsewhere(b1, f, LittleEndian(high, 4), i, 4);
    Elsewhere(b1, f, LittleEndian(high, 4), insn + INSN_CODE_END, 1);
    Elsewhere(b, i, LittleEndian(low, 4), insn + INSN_CODE_END, 1);
    forall x | 0 <= x < |b| && !Patches(r, x - insn) ensures b2[x] == b[x] {
      PutByte(b, i, LittleEndian(low, 4), x);
      PutByte(b1, f, LittleEndian(high, 4), x);
    }
  }

  lemma WithoutSrcIs(b: Bytes, r: Relo, insn: int)
    requires r.kind != BTF_KIND_FUNC && !r.isTypeless && InRange(b, insn, 2 * INSN_SZ)
    ensures var b2 := WithoutSrc(b, insn);
      Touches(b, b2, r, insn, NO_SLOT, 0, 0) && SrcAt(b2, insn) == SrcAt(b, insn) % 16
      && forall at, n: nat | at + n <= insn + INSN_CODE_END || insn + INSN_CODE_END < at :: Get(b2, at, n) == Get(b, at, n)
  {
    hide Get, Put, LittleEndian;
    var off, bs := insn + INSN_CODE_END, LittleEndian(SrcAt(b, insn) % 16, 1);
    ByteThere(b, off, SrcAt(b, insn) % 16);
    forall x | 0 <= x < |b| && x != off ensures Put(b, off, bs)[x] == b[x] {
      PutByte(b, off, bs, x);
    }
    forall at, n: nat | at + n <= off || off < at ensures Get(Put(b, off, bs), at, n) == Get(b, at, n) {
      Elsewhere(b, off, bs, at, n);
    }
  }

  lemma TouchesTrans(a: Bytes, b: Bytes, c: Bytes, r: Relo, insn: int, slot: int, lo: int, hi: int)
    requires Touches(a, b, r, insn, slot, lo, hi) && Touches(b, c, r, insn, slot, lo, hi)
    ensures Touches(a, c, r, insn, slot, lo, hi)
  {
    hide Patches;
  }

  lemma VariableBlobIs(b: Bytes, r: Relo, insn: int, ret: int64)
    requires r.kind != BTF_KIND_FUNC && !r.isTypeless && InRange(b, insn, 2 * INSN_SZ)
    ensures var b2 := VariableBlob(b, insn, ret);
      Touches(b, b2, r, insn, NO_SLOT, 0, 0) && VariableDone(b2, insn, SrcAt(b, insn), ret)
  {
    hide Get, WithoutSrc, LoadBlob64, Patches;
    var (low, high) := if ret >= 0 then (U64(ret), U64(U64(ret) / TWO32)) else (0, 0);
    LoadBlobIs(b, r, insn, low, high);
    if ret < 0 {
      var b1 := LoadBlob64(b, insn, low, high);
      WithoutSrcIs(b1, r, insn);
      TouchesTrans(b, b1, WithoutSrc(b1, insn), r, insn, NO_SLOT, 0, 0);
    }
  }

  lemma CopiedIs(b: Bytes, to: int, from: int, n: nat)
    requires (n == 2 || n == 4) && InRange(b, to, n) && InRange(b, from, n)
    ensures var b2 := Copied(b, to, from, n);
      Get(b2, to, n) == Get(b, from, n) && (forall x | 0 <= x < |b| && !(to <= x < to + n) :: b2[x] == b[x])
      && forall at, k: nat | at + k <= to || to + n <= at :: Get(b2, at, k) == Get(b, at, k)
  {
    hide Put, LittleEndian;
    var v, b2 := Get(b, from, n), Copied(b, to, from, n);
    FromBound(b[from..from + n]);
    assert Pow256(2) == 0x1_0000 && Pow256(4) == TWO32;
    GetPutSame(b, to, LittleEndian(v, n));
    ReadBack(v, n);
    forall x | 0 <= x < |b| && !(to <= x < to + n) ensures b2[x] == b[x] {
      PutByte(b, to, LittleEndian(v, n), x);
    }
    forall at, k: nat | at + k <= to || to + n <= at ensures Get(b2, at, k) == Get(b, at, k) {
      Elsewhere(b, to, LittleEndian(v, n), at, k);
    }
  }

  lemma CopyFunctionIs(b: Bytes, r: Relo, insn: int, first: int)
    requires r.kind == BTF_KIND_FUNC && InRange(b, insn, INSN_SZ) && InRange(b, first, INSN_SZ)
    requires insn + INSN_SZ <= first || first + INSN_SZ <= insn
    ensures var b2 := CopyBlob(b, r, insn, first);
      Touches(b, b2, r, insn, NO_SLOT, 0, 0) && CopyDone(b2, r, insn, SrcAt(b, insn), first)
  {
    hide Get, Copied;
    var b1 := Copied(b, insn + INSN_IMM, first + INSN_IMM, 4);
    CopiedIs(b, insn + INSN_IMM, first + INSN_IMM, 4);
    CopiedIs(b1, insn + INSN_OFF, first + INSN_OFF, 2);
  }

  lemma CopyVariableIs(b: Bytes, r: Relo, insn: int, first: int)
    requires r.kind != BTF_KIND_FUNC && InRange(b, insn, 2 * INSN_SZ) && InRange(b, first, 2 * INSN_SZ)
    ensures var b2 := CopyBlob(b, r, insn, first); Touches(b, b2, r, insn, NO_SLOT, 0, 0)
    ensures insn + 2 * INSN_SZ <= first || first + 2 * INSN_SZ <= insn ==>
      CopyDone(CopyBlob(b, r, insn, first), r, insn, SrcAt(b, insn), first)
  {
    hide Get, Copied, WithoutSrc;
    var b1 := Copied(b, insn + INSN_IMM, first + INSN_IMM, 4);
    var b2 := Copied(b1, insn + INSN_SZ + INSN_IMM, first + INSN_SZ + INSN_IMM, 4);
    CopiedIs(b, insn + INSN_IMM, first + INSN_IMM, 4);
    CopiedIs(b1, insn + INSN_SZ + INSN_IMM, first + INSN_SZ + INSN_IMM, 4);
    if !r.isTypeless {
      WithoutSrcIs(b2, r, insn);
    }
  }

  // --- runs

  // The state has moved by an answer e of the kernel, or by none, and to this blob.
  predicate Moved(m: M, m2: M, events: seq<Event>, b: Bytes) {
    m2.w == m.w.(blob := b, trace := m.w.trace + events, calls := m2.w.calls)
  }

  lemma LoadRun(env: Env, m: M, insn: int)
    ensures Den(env, LoadInsn(insn), m) == Next(m.(r8 := BlobPtr(insn)))
  {
  }

  lemma ShowRun(env: Env, m: M, dbg: Dbg)
    requires m.w.ok && m.r7.Num? && DbgIn(dbg, |m.w.blob|)
    ensures var o := Den(env, DebugRet(dbg), m); o.Next? && o.m == m.(w := m.w.(calls := o.m.w.calls))
  {
    if dbg.Dbg? {
      InRangeHolds(m.w.blob, dbg.addr, dbg.len);
    }
  }

  lemma SearchRun(env: Env, m: M, name: int, len: nat, kind: int)
    requires m.w.ok && InRange(m.w.blob, name, len)
    ensures var o, e := Den(env, FindByName(name, len, kind), m), Find(m.w.blob[name..name + len], kind, env.any(m.w.calls));
      o.Next? && o.m == m.(r7 := Num(e.ret), w := o.m.w) && Moved(m, o.m, [e], m.w.blob)
  {
  }

  // The lookup of a name: its answer in R7, or the way to the cleanup code.
  lemma FindRun(env: Env, m: M, name: int, len: nat, kind: int, weak: bool, dbg: Dbg)
    requires m.w.ok && InRange(m.w.blob, name, len) && DbgIn(dbg, |m.w.blob|)
    ensures var o, e := DenAll(env, FindOf(name, len, kind, weak, dbg), m),
      Find(m.w.blob[name..name + len], kind, env.any(m.w.calls));
      (o.Err? <==> e.ret < 0 && !weak) && o.m == m.(r7 := Num(e.ret), w := o.m.w) && Moved(m, o.m, [e], m.w.blob)
  {
    hide Den, DenAll;
    var find, check := FindByName(name, len, kind), if weak then [] else [CheckErr];
    assert FindOf(name, len, kind, weak, dbg) == [find] + ([DebugRet(dbg)] + check);
    DenFirst(env, find, [DebugRet(dbg)] + check, m);
    SearchRun(env, m, name, len, kind);
    var m1 := Den(env, find, m).m;
    DenFirst(env, DebugRet(dbg), check, m1);
    ShowRun(env, m1, dbg);
    var m2 := Den(env, DebugRet(dbg), m1).m;
    if weak {
      DenNone(env, m2);
    } else {
      CheckRun(env, m2);
    }
  }

  lemma StoreFunctionRun(env: Env, m: M, insn: int, idx: int, ret: int64)
    requires m.w.ok && m.r8 == BlobPtr(insn) && m.r7 == Num(ret)
    requires InRange(m.w.blob, insn, INSN_SZ) && InRange(m.w.blob, FdSlot(idx), 4)
    ensures var o := Den(env, StoreKfunc(idx, FdSlot(idx)), m);
      o.Next? && o.m.r8 == m.r8 && Moved(m, o.m, [], FunctionBlob(m.w.blob, insn, idx, ret))
  {
    hide Put, LittleEndian;
    assert m.w.trace + [] == m.w.trace;
  }

  lemma StoreVariableRun(env: Env, m: M, insn: int, ret: int64)
    requires m.w.ok && m.r8 == BlobPtr(insn) && m.r7 == Num(ret) && InRange(m.w.blob, insn, 2 * INSN_SZ)
    ensures var o := Den(env, StoreKsym, m);
      o.Next? && o.m.r8 == m.r8 && Moved(m, o.m, [], VariableBlob(m.w.blob, insn, ret))
  {
    hide Put, LittleEndian, And, Get, ClearSrcReg;
    assert m.w.trace + [] == m.w.trace;
    if ret < 0 {
      var b := LoadBlob64(m.w.blob, insn, 0, 0);
      ClearRun(env, m.(w := m.w.(blob := b)), insn);
    }
  }

  lemma ClearRun(env: Env, m: M, insn: int)
    requires m.w.ok && m.r8 == BlobPtr(insn) && InRange(m.w.blob, insn, 2 * INSN_SZ)
    ensures var m2 := ClearSrcReg(env, m); m2 == m.(r9 := m2.r9, w := m.w.(blob := WithoutSrc(m.w.blob, insn)))
  {
    hide Put, LittleEndian, And, Get;
    var v := SrcAt(m.w.blob, insn);
    ByteBelow(m.w.blob, insn + INSN_CODE_END);
    LowerHalf(v);
  }

  // The address of a symbol without a type: from the room for it to the instruction.
  function AddressBlob(b: Bytes, insn: int, room: int, bytes: Bytes): (b2: Bytes)
    ensures |b2| == |b|
  {
    var b1 := Put(b, room, bytes);
    var v := LoadNum(b1, room, 8);
    LoadBlob64(b1, insn, U64(v), U64(U64(v) / TWO32))
  }

  // The instruction gets what the lookup wrote.
  lemma AddressBlobIs(b: Bytes, r: Relo, insn: int, room: int, bytes: Bytes)
    requires r.kind != BTF_KIND_FUNC && InRange(b, insn, 2 * INSN_SZ) && |bytes| == 8 && InRange(b, room, 8)
    ensures AddressDone(AddressBlob(b, insn, room, bytes), insn, FromLittleEndian(bytes))
  {
    hide LoadBlob64, FromLittleEndian, LoadNum;
    var b1, address := Put(b, room, bytes), FromLittleEndian(bytes);
    var v := LoadNum(b1, room, 8);
    GetPutSame(b, room, bytes);
    AddressRead(b1, room, bytes);
    LoadBlobIs(b1, r, insn, U64(v), U64(U64(v) / TWO32));
  }

  lemma AddressRead(b: Bytes, room: int, bytes: Bytes)
    requires |bytes| == 8 && InRange(b, room, 8) && b[room..room + 8] == bytes
    ensures U64(LoadNum(b, room, 8)) == FromLittleEndian(bytes) < TWO64
  {
    hide FromLittleEndian;
    FromBound(bytes);
    assert Pow256(8) == TWO64;
  }

  lemma LookupRun(env: Env, m: M, name: int, len: nat, room: int)
    requires m.w.ok && InRange(m.w.blob, name, len) && InRange(m.w.blob, room, 8)
    ensures var bytes := Fetched(env, m.w.calls, 8);
      var o, e := Den(env, LookupName(name, len, room), m),
        Lookup(m.w.blob[name..name + len], env.any(m.w.calls), FromLittleEndian(bytes));
      var b := Put(m.w.blob, room, bytes);
      o.Next? && o.m == m.(r7 := Num(e.ret), r9 := Num(LoadNum(b, room, 8)), w := o.m.w) && Moved(m, o.m, [e], b)
  {
    hide Put, LoadNum, Fetched, FromLittleEndian;
  }

  lemma StoreAddressRun(env: Env, m: M, insn: int, v: int)
    requires m.w.ok && m.r8 == BlobPtr(insn) && m.r9 == Num(v) && InRange(m.w.blob, insn, 2 * INSN_SZ)
    ensures var o := Den(env, StoreAddr, m);
      o.Next? && o.m.r8 == m.r8 && Moved(m, o.m, [], LoadBlob64(m.w.blob, insn, U64(v), U64(U64(v) / TWO32)))
  {
    hide Put, LittleEndian;
    assert m.w.trace + [] == m.w.trace;
  }

  lemma EnoentRun(env: Env, m: M, ret: int)
    requires m.r7 == Num(ret)
    ensures Den(env, CheckErrUnlessEnoent, m) == if ret < 0 && ret != -ENOENT then Err(m) else Next(m)
  {
  }

  lemma MovedOn(m: M, m1: M, m2: M, e: Event, b1: Bytes, b2: Bytes)
    requires Moved(m, m1, [e], b1) && Moved(m1, m2, [], b2)
    ensures Moved(m, m2, [e], b2)
  {
    assert m.w.trace + [e] + [] == m.w.trace + [e];
  }

  // The answer a first use gets, and what it does to the blob when it goes on.
  function AnswerOf(env: Env, m: M, r: Relo, x: Spots): Event {
    var text := BlobSlice(m.w, x.name, |r.name| + 1);
    if r.kind != BTF_KIND_FUNC && r.isTypeless then
      Lookup(text, env.any(m.w.calls), FromLittleEndian(Fetched(env, m.w.calls, 8)))
    else Find(text, r.kind, env.any(m.w.calls))
  }

  function FirstBlob(env: Env, m: M, r: Relo, insn: int, x: Spots): Bytes {
    var ret := env.any(m.w.calls);
    if r.kind == BTF_KIND_FUNC then FunctionBlob(m.w.blob, insn, x.idx, ret)
    else if r.isTypeless then AddressBlob(m.w.blob, insn, x.room, Fetched(env, m.w.calls, 8))
    else VariableBlob(m.w.blob, insn, ret)
  }

  // What a first use needs to lie inside the blob.
  predicate RoomFor(b: Bytes, r: Relo, insn: int, x: Spots) {
    InRange(b, x.name, |r.name| + 1) && DbgIn(x.dbg, |b|) && InRange(b, insn, Span(r))
    && (r.kind == BTF_KIND_FUNC ==> InRange(b, FdSlot(x.idx), 4))
    && (r.kind != BTF_KIND_FUNC && r.isTypeless ==> InRange(b, x.room, 8))
  }

  lemma TypedRun(env: Env, m: M, r: Relo, insn: int, x: Spots)
    requires m.w.ok && RoomFor(m.w.blob, r, insn, x) && (r.kind == BTF_KIND_FUNC || !r.isTypeless)
    ensures var o, e := DenAll(env, FirstGroups(r, insn, x), m), AnswerOf(env, m, r, x);
      (o.Err? <==> e.ret < 0 && !r.isWeak)
      && if o.Err? then o.m.r7 == Num(e.ret) && Moved(m, o.m, [e], m.w.blob)
         else o.m.r8 == BlobPtr(insn) && Moved(m, o.m, [e], FirstBlob(env, m, r, insn, x))
  {
    hide Den, DenAll, FindOf, FunctionBlob, VariableBlob, AddressBlob;
    var find := FindOf(x.name, |r.name| + 1, r.kind, r.isWeak, x.dbg);
    var store := if r.kind == BTF_KIND_FUNC then StoreKfunc(x.idx, FdSlot(x.idx)) else StoreKsym;
    assert FirstGroups(r, insn, x) == [LoadInsn(insn)] + (find + [store]);
    DenFirst(env, LoadInsn(insn), find + [store], m);
    LoadRun(env, m, insn);
    var m1 := m.(r8 := BlobPtr(insn));
    FindRun(env, m1, x.name, |r.name| + 1, r.kind, r.isWeak, x.dbg);
    DenAppend(env, find, [store], m1);
    var o := DenAll(env, find, m1);
    if o.Next? {
      DenFirst(env, store, [], o.m);
      assert [store] + [] == [store];
      var ret := env.any(m.w.calls);
      if r.kind == BTF_KIND_FUNC {
        StoreFunctionRun(env, o.m, insn, x.idx, ret);
      } else {
        StoreVariableRun(env, o.m, insn, ret);
      }
      var m3 := Den(env, store, o.m).m;
      DenNone(env, m3);
      MovedOn(m, o.m, m3, AnswerOf(env, m, r, x), m.w.blob, FirstBlob(env, m, r, insn, x));
    }
  }

  lemma TypelessRun(env: Env, m: M, r: Relo, insn: int, x: Spots)
    requires m.w.ok && RoomFor(m.w.blob, r, insn, x) && r.kind != BTF_KIND_FUNC && r.isTypeless
    ensures var o, e := DenAll(env, FirstGroups(r, insn, x), m), AnswerOf(env, m, r, x);
      (o.Err? <==> e.ret < 0 && e.ret != -ENOENT)
      && if o.Err? then o.m.r7 == Num(e.ret) && Moved(m, o.m, [e], Put(m.w.blob, x.room, Fetched(env, m.w.calls, 8)))
         else o.m.r8 == BlobPtr(insn) && Moved(m, o.m, [e], FirstBlob(env, m, r, insn, x))
  {
    hide Den, DenAll, LoadBlob64, Put, LoadNum, Fetched, FromLittleEndian;
    var gs := FirstGroups(r, insn, x);
    var look, show := LookupName(x.name, |r.name| + 1, x.room), DebugRet(x.dbg);
    assert gs == [LoadInsn(insn)] + ([look] + ([show] + ([CheckErrUnlessEnoent] + ([StoreAddr] + []))));
    DenFirst(env, LoadInsn(insn), [look] + ([show] + ([CheckErrUnlessEnoent] + ([StoreAddr] + []))), m);
    LoadRun(env, m, insn);
    var m1 := m.(r8 := BlobPtr(insn));
    DenFirst(env, look, [show] + ([CheckErrUnlessEnoent] + ([StoreAddr] + [])), m1);
    LookupRun(env, m1, x.name, |r.name| + 1, x.room);
    var m2 := Den(env, look, m1).m;
    DenFirst(env, show, [CheckErrUnlessEnoent] + ([StoreAddr] + []), m2);
    ShowRun(env, m2, x.dbg);
    var m3 := Den(env, show, m2).m;
    DenFirst(env, CheckErrUnlessEnoent, [StoreAddr] + [], m3);
    EnoentRun(env, m3, env.any(m.w.calls));
    var b := Put(m.w.blob, x.room, Fetched(env, m.w.calls, 8));
    var v := LoadNum(b, x.room, 8);
    DenFirst(env, StoreAddr, [], m3);
    StoreAddressRun(env, m3, insn, v);
    var m4 := Den(env, StoreAddr, m3).m;
    DenNone(env, m4);
    MovedOn(m, m3, m4, AnswerOf(env, m, r, x), b, LoadBlob64(b, insn, U64(v), U64(U64(v) / TWO32)));
  }

  lemma CopyRun(env: Env, m: M, r: Relo, insn: int, first: int)
    requires m.w.ok && InRange(m.w.blob, insn, Span(r)) && InRange(m.w.blob, first, 2 * INSN_SZ)
    ensures var o := DenAll(env, CopyGroups(r, insn, first), m);
      o.Next? && o.m.r8 == BlobPtr(insn) && Moved(m, o.m, [], CopyBlob(m.w.blob, r, insn, first))
  {
    hide Den, DenAll, Copied, WithoutSrc;
    var c := CopyGroups(r, insn, first);
    assert c == [LoadInsn(insn)] + ([c[1]] + ([c[2]] + []));
    DenFirst(env, LoadInsn(insn), [c[1]] + ([c[2]] + []), m);
    LoadRun(env, m, insn);
    var m1 := m.(r8 := BlobPtr(insn));
    DenFirst(env, c[1], [c[2]] + [], m1);
    MoveRun(env, m1, insn + INSN_IMM, first + INSN_IMM, W);
    var m2 := Den(env, c[1], m1).m;
    DenFirst(env, c[2], [], m2);
    if r.kind == BTF_KIND_FUNC {
      MoveRun(env, m2, insn + INSN_OFF, first + INSN_OFF, H);
    } else if r.isTypeless {
      MoveRun(env, m2, insn + INSN_SZ + INSN_IMM, first + INSN_SZ + INSN_IMM, W);
    } else {
      CopyKsymRun(env, m2, insn, first);
    }
    DenNone(env, Den(env, c[2], m2).m);
  }

  lemma MoveRun(env: Env, m: M, to: int, from: int, sz: Size)
    requires m.w.ok && (sz == W || sz == H) && InRange(m.w.blob, to, Width(sz)) && InRange(m.w.blob, from, Width(sz))
    ensures var o := Den(env, Blob2Blob(to, sz, from), m);
      o.Next? && o.m == m.(w := o.m.w) && Moved(m, o.m, [], Copied(m.w.blob, to, from, Width(sz)))
  {
    hide Put, LittleEndian, Get;
    FromBound(m.w.blob[from..from + Width(sz)]);
    GetBound(m.w.blob, from, Width(sz));
    assert m.w.trace + [] == m.w.trace;
  }

  lemma GetBound(b: Bytes, off: int, n: nat)
    requires n == 2 || n == 4
    ensures Get(b, off, n) < TWO32
  {
    assert Pow256(2) == 0x1_0000 && Pow256(4) == TWO32;
    if InRange(b, off, n) {
      FromBound(b[off..off + n]);
    }
  }

  lemma CopyKsymRun(env: Env, m: M, insn: int, first: int)
    requires m.w.ok && m.r8 == BlobPtr(insn) && InRange(m.w.blob, insn, 2 * INSN_SZ) && InRange(m.w.blob, first, 2 * INSN_SZ)
    ensures var from, to := first + INSN_SZ + INSN_IMM, insn + INSN_SZ + INSN_IMM;
      var b, o := Copied(m.w.blob, to, from, 4), Den(env, CopyKsym(to, from), m);
      o.Next? && o.m.r8 == m.r8 && Moved(m, o.m, [], if FdAt(m.w.blob, first) != 0 then b else WithoutSrc(b, insn))
  {
    hide Put, LittleEndian, Get, ClearSrcReg;
    var from, to := first + INSN_SZ + INSN_IMM, insn + INSN_SZ + INSN_IMM;
    GetBound(m.w.blob, from, 4);
    var b := Copied(m.w.blob, to, from, 4);
    assert m.w.trace + [] == m.w.trace;
    ClearRun(env, m.(w := m.w.(blob := b)), insn);
  }

  lemma PrintRun(env: Env, m: M, g: Group, insn: int)
    requires m.w.ok && m.r8 == BlobPtr(insn) && InRange(m.w.blob, insn, INSN_SZ)
    requires g.LogKsym1? ==> InRange(m.w.blob, insn, 2 * INSN_SZ)
    requires g.LogKsym1? || g.LogKfunc1? || g.LogKsym2? || (g.LogKfunc2? && InRange(m.w.blob, g.slot, 4))
      || ((g.DebugPair? || g.DebugR9?) && DbgIn(g.dbg, |m.w.blob|) && m.r7.Num? && m.r9.Num?)
    ensures var o := Den(env, g, m);
      o.Next? && o.m == m.(r7 := o.m.r7, r9 := o.m.r9, w := m.w.(calls := o.m.w.calls))
      && (g.LogKsym1? || g.LogKfunc1? ==> o.m.r7.Num? && o.m.r9.Num?)
        && (g.LogKsym2? || g.LogKfunc2? ==> o.m.r9.Num? && o.m.r7 == m.r7)
      && (g.DebugPair? || g.DebugR9? ==> o.m.r7 == m.r7 && o.m.r9 == m.r9)
  {
    hide LoadNum;
    if (g.DebugPair? || g.DebugR9?) && g.dbg.Dbg? {
      InRangeHolds(m.w.blob, g.dbg.addr, g.dbg.len);
    }
  }

  // The prints show things and change nothing.
  lemma PrintsRun(env: Env, m: M, logs: seq<Group>, insn: int)
    requires m.w.ok && m.r8 == BlobPtr(insn) && InRange(m.w.blob, insn, INSN_SZ) && Prints(logs, |m.w.blob|)
    requires logs != [] && logs[0].LogKsym1? ==> InRange(m.w.blob, insn, 2 * INSN_SZ)
    ensures var o := DenAll(env, logs, m); o.Next? && o.m.w == m.w.(calls := o.m.w.calls)
  {
    hide Den, DenAll;
    if logs == [] {
      DenNone(env, m);
    } else {
      assert logs == [logs[0]] + ([logs[1]] + ([logs[2]] + ([logs[3]] + [])));
      DenFirst(env, logs[0], [logs[1]] + ([logs[2]] + ([logs[3]] + [])), m);
      PrintRun(env, m, logs[0], insn);
      var m1 := Den(env, logs[0], m).m;
      DenFirst(env, logs[1], [logs[2]] + ([logs[3]] + []), m1);
      PrintRun(env, m1, logs[1], insn);
      var m2 := Den(env, logs[1], m1).m;
      DenFirst(env, logs[2], [logs[3]] + [], m2);
      PrintRun(env, m2, logs[2], insn);
      var m3 := Den(env, logs[2], m2).m;
      DenFirst(env, logs[3], [], m3);
      PrintRun(env, m3, logs[3], insn);
      DenNone(env, Den(env, logs[3], m3).m);
    }
  }
}
