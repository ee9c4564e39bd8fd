/** The attributes built at generation time hold each of the caller's values in its field of union
    bpf_attr, whatever is filled in around them at run time. */
module LoaderAttr {
  import opened LoaderBytes
  import opened LoaderMachine
  import opened LoaderIR
  import opened LoaderGen
  import opened LoaderLedger

  // A field that nothing is filled in.
  predicate Untouched(off: int, n: nat, fields: seq<(int, nat)>) {
    forall f | f in fields :: off + n <= f.0 || f.0 + f.1 <= off
  }

  lemma LikeSlice(a: Bytes, t: Bytes, fields: seq<(int, nat)>, off: int, n: nat)
    requires Like(a, t, fields) && 0 <= off && off + n <= |t| && Untouched(off, n, fields)
    ensures a[off..off + n] == t[off..off + n]
  {
    forall i | off <= i < off + n ensures a[i] == t[i] {
      assert Outside(i, fields);
    }
  }

  // It reads as the number that was put there.
  lemma FieldIs(a: Bytes, t: Bytes, fields: seq<(int, nat)>, off: int, v: nat, n: nat)
    requires Like(a, t, fields) && 0 <= off && off + n <= |t| && Untouched(off, n, fields)
    requires t[off..off + n] == LittleEndian(v, n) && (n == 4 || n == 8)
    ensures Get(a, off, n) == v % if n == 4 then TWO32 else TWO64
  {
    hide LittleEndian, FromLittleEndian, Like;
    assert |a| == |t| by { LikeLength(a, t, fields); }
    LikeSlice(a, t, fields, off, n);
    ReadBack(v, n);
    assert Pow256(4) == TWO32 && Pow256(8) == TWO64;
  }

  lemma LikeLength(a: Bytes, t: Bytes, fields: seq<(int, nat)>)
    requires Like(a, t, fields)
    ensures |a| == |t|
  {
  }

  lemma NameIs(a: Bytes, t: Bytes, fields: seq<(int, nat)>, off: int, name: Bytes)
    requires Like(a, t, fields) && 0 <= off && off + 16 <= |t| && Untouched(off, 16, fields)
    requires t[off..off + 16] == NameField(name)
    ensures NameAt(a, off, name)
  {
    LikeSlice(a, t, fields, off, 16);
    var f := NameField(name);
    forall i | 0 <= i < 16 ensures a[off + i] == if i < 15 && i < |name| then name[i] else 0 {
      assert a[off + i] == a[off..off + 16][i] == f[i];
    }
  }

  lemma MapParts(s: MapSpec)
    ensures var a := MapAttr(s);
      a[0..4] == LE4(s.mapType) && a[4..8] == LE4(s.keySize) && a[8..12] == LE4(s.valueSize)
      && a[12..16] == LE4(s.maxEntries) && a[16..20] == LE4(s.flags) && a[20..24] == LE4(0)
      && a[24..28] == LE4(s.numaNode) && a[28..44] == NameField(s.name) && a[44..48] == LE4(s.ifindex)
      && a[48..52] == LE4(0) && a[52..56] == LE4(s.btfKeyTypeId) && a[56..60] == LE4(s.btfValueTypeId)
      && a[60..64] == LE4(0) && a[64..72] == LittleEndian(s.extra, 8)
  {
    hide LittleEndian, NameField;
    var a := MapAttr(s);
    var front := LE4(s.mapType) + LE4(s.keySize) + LE4(s.valueSize) + LE4(s.maxEntries) + LE4(s.flags) + LE4(0)
      + LE4(s.numaNode);
    var back := LE4(s.ifindex) + LE4(0) + LE4(s.btfKeyTypeId) + LE4(s.btfValueTypeId) + LE4(0) + LittleEndian(s.extra, 8);
    assert a == front + (NameField(s.name) + back);
    assert forall i, j | 0 <= i <= j <= 28 :: a[i..j] == front[i..j];
    assert a[44..] == back;
    assert forall i, j | 0 <= i <= j <= 28 :: a[44 + i..44 + j] == back[i..j];
  }

  lemma ProgParts(s: ProgSpec, core: Bytes)
    ensures var a := ProgAttr(s, core);
      a[0..4] == LE4(s.progType) && a[4..8] == LE4(|s.insns| / 8) && a[40..44] == LE4(0)
      && a[44..48] == LE4(s.flags) && a[48..64] == NameField(s.name) && a[64..68] == LE4(s.ifindex)
      && a[68..72] == LE4(s.expectedAttachType) && a[76..80] == LE4(s.funcInfoRecSize)
      && a[88..92] == LE4(s.funcInfoCnt) && a[92..96] == LE4(s.lineInfoRecSize) && a[104..108] == LE4(s.lineInfoCnt)
      && a[108..112] == LE4(s.attachBtfId) && a[112..116] == LE4(0) && a[116..120] == LE4(|core| / CORE_RELO_SZ)
      && a[136..140] == LE4(CORE_RELO_SZ)
  {
    hide LittleEndian, NameField;
  }

  lemma BtfParts(n: nat)
    ensures BtfAttr(n)[16..20] == LE4(n)
  {
    hide LittleEndian;
  }

  lemma BtfAsked(a: Bytes, raw: Bytes)
    requires Like(a, BtfAttr(|raw|), BTF_FIELDS)
    ensures AsksBtf(a, raw)
  {
    hide Like, LittleEndian, Get, BtfAttr;
    var t := BtfAttr(|raw|);
    LikeLength(a, t, BTF_FIELDS);
    BtfParts(|raw|);
    FieldIs(a, t, BTF_FIELDS, BTF_SIZE, |raw|, 4);
  }

  predicate Clear(off: int, n: nat, f: (int, nat)) {
    off + n <= f.0 || f.0 + f.1 <= off
  }

  lemma ProgFree(p: Pending, off: int, n: nat)
    requires Clear(off, n, (PROG_INSNS, 8)) && Clear(off, n, (PROG_LICENSE, 8)) && Clear(off, n, (PROG_FUNC_INFO, 8))
    requires Clear(off, n, (PROG_LINE_INFO, 8)) && Clear(off, n, (PROG_CORE_RELOS, 8)) && Clear(off, n, (PROG_FD_ARRAY, 8))
    requires Clear(off, n, (PROG_LOG_LEVEL, 4)) && Clear(off, n, (PROG_LOG_SIZE, 4)) && Clear(off, n, (PROG_LOG_BUF, 8))
    requires Clear(off, n, (PROG_BTF_FD, 4))
    requires p.attachKind != 0 ==>
      Clear(off, n, (ATTR_ATTACH_BTF_ID, 4)) && Clear(off, n, (ATTR_ATTACH_BTF_OBJ_FD, 4))
    ensures Untouched(off, n, AttrFields(p))
  {
  }

  lemma MapFree(s: MapSpec, idx: int, off: int, n: nat)
    requires s.btfValueTypeId != 0 ==> Clear(off, n, (MAP_BTF_FD, 4))
    requires IsOuter(s) ==> Clear(off, n, (MAP_INNER_FD, 4))
    requires idx >= 0 ==> Clear(off, n, (MAP_MAX_ENTRIES, 4))
    ensures Untouched(off, n, MapFields(s, idx))
  {
  }

  lemma MapAsked(a: Bytes, s: MapSpec, idx: int)
    requires Like(a, MapAttr(s), MapFields(s, idx))
    ensures AsksMap(a, s, idx)
  {
    hide Like, LittleEndian, Get, MapAttr, NameAt, NameField, MapFields, Untouched;
    var t, fs := MapAttr(s), MapFields(s, idx);
    LikeLength(a, t, fs);
    MapParts(s);
    MapFree(s, idx, MAP_TYPE, 4);
    FieldIs(a, t, fs, MAP_TYPE, s.mapType, 4);
    MapFree(s, idx, MAP_KEY_SIZE, 4);
    FieldIs(a, t, fs, MAP_KEY_SIZE, s.keySize, 4);
    MapFree(s, idx, MAP_VALUE_SIZE, 4);
    FieldIs(a, t, fs, MAP_VALUE_SIZE, s.valueSize, 4);
    MapFree(s, idx, MAP_FLAGS, 4);
    FieldIs(a, t, fs, MAP_FLAGS, s.flags, 4);
    MapFree(s, idx, MAP_NUMA_NODE, 4);
    FieldIs(a, t, fs, MAP_NUMA_NODE, s.numaNode, 4);
    MapFree(s, idx, MAP_NAME, 16);
    NameIs(a, t, fs, MAP_NAME, s.name);
    MapFree(s, idx, MAP_IFINDEX, 4);
    FieldIs(a, t, fs, MAP_IFINDEX, s.ifindex, 4);
    MapFree(s, idx, MAP_BTF_KEY_TYPE_ID, 4);
    FieldIs(a, t, fs, MAP_BTF_KEY_TYPE_ID, s.btfKeyTypeId, 4);
    MapFree(s, idx, MAP_BTF_VALUE_TYPE_ID, 4);
    FieldIs(a, t, fs, MAP_BTF_VALUE_TYPE_ID, s.btfValueTypeId, 4);
    MapFree(s, idx, MAP_VMLINUX_VALUE_TYPE_ID, 4);
    FieldIs(a, t, fs, MAP_VMLINUX_VALUE_TYPE_ID, 0, 4);
    MapFree(s, idx, MAP_EXTRA, 8);
    FieldIs(a, t, fs, MAP_EXTRA, s.extra, 8);
    if idx < 0 {
      MapFree(s, idx, MAP_MAX_ENTRIES, 4);
      FieldIs(a, t, fs, MAP_MAX_ENTRIES, s.maxEntries, 4);
    }
    if s.btfValueTypeId == 0 {
      MapFree(s, idx, MAP_BTF_FD, 4);
      FieldIs(a, t, fs, MAP_BTF_FD, 0, 4);
    }
    if !IsOuter(s) {
      MapFree(s, idx, MAP_INNER_FD, 4);
      FieldIs(a, t, fs, MAP_INNER_FD, 0, 4);
    }
  }

  lemma ProgAsked(a: Bytes, s: ProgSpec, p: Pending)
    requires Like(a, ProgAttr(s, p.core), AttrFields(p))
    ensures AsksProg(a, s, p)
  {
    hide Like, LittleEndian, Get, ProgAttr, NameAt, NameField, AttrFields, Untouched;
    var t, fs := ProgAttr(s, p.core), AttrFields(p);
    LikeLength(a, t, fs);
    ProgParts(s, p.core);
    ProgFree(p, PROG_TYPE, 4);
    FieldIs(a, t, fs, PROG_TYPE, s.progType, 4);
    ProgFree(p, PROG_INSN_CNT, 4);
    FieldIs(a, t, fs, PROG_INSN_CNT, |s.insns| / 8, 4);
    ProgFree(p, PROG_KERN_VERSION, 4);
    FieldIs(a, t, fs, PROG_KERN_VERSION, 0, 4);
    ProgFree(p, PROG_FLAGS, 4);
    FieldIs(a, t, fs, PROG_FLAGS, s.flags, 4);
    ProgFree(p, PROG_NAME, 16);
    NameIs(a, t, fs, PROG_NAME, s.name);
    ProgFree(p, PROG_IFINDEX, 4);
    FieldIs(a, t, fs, PROG_IFINDEX, s.ifindex, 4);
    ProgFree(p, PROG_EXPECTED_ATTACH_TYPE, 4);
    FieldIs(a, t, fs, PROG_EXPECTED_ATTACH_TYPE, s.expectedAttachType, 4);
    ProgFree(p, PROG_FUNC_INFO_REC_SIZE, 4);
    FieldIs(a, t, fs, PROG_FUNC_INFO_REC_SIZE, s.funcInfoRecSize, 4);
    ProgFree(p, PROG_FUNC_INFO_CNT, 4);
    FieldIs(a, t, fs, PROG_FUNC_INFO_CNT, s.funcInfoCnt, 4);
    ProgFree(p, PROG_LINE_INFO_REC_SIZE, 4);
    FieldIs(a, t, fs, PROG_LINE_INFO_REC_SIZE, s.lineInfoRecSize, 4);
    ProgFree(p, PROG_LINE_INFO_CNT, 4);
    FieldIs(a, t, fs, PROG_LINE_INFO_CNT, s.lineInfoCnt, 4);
    ProgFree(p, PROG_CORE_RELO_CNT, 4);
    FieldIs(a, t, fs, PROG_CORE_RELO_CNT, |p.core| / CORE_RELO_SZ, 4);
    ProgFree(p, PROG_CORE_RELO_REC_SIZE, 4);
    FieldIs(a, t, fs, PROG_CORE_RELO_REC_SIZE, CORE_RELO_SZ, 4);
    if p.attachKind == 0 {
      ProgFree(p, ATTR_ATTACH_BTF_ID, 4);
      FieldIs(a, t, fs, ATTR_ATTACH_BTF_ID, s.attachBtfId, 4);
      ProgFree(p, ATTR_ATTACH_BTF_OBJ_FD, 4);
      FieldIs(a, t, fs, ATTR_ATTACH_BTF_OBJ_FD, 0, 4);
    }
  }

  // --- the structures the offsets belong to

  // Fields one right behind the other.
  predicate Packed(fields: seq<(int, nat)>, from: int, to: int) {
    fields != [] && fields[0].0 == from && fields[|fields| - 1].0 + fields[|fields| - 1].1 == to
    && forall i | 0 <= i < |fields| - 1 :: fields[i].0 + fields[i].1 == fields[i + 1].0
  }

  // The fields of a map's and of a program's attribute, of the loader's context and of its stack frame fill
  // them completely, in the order of their declarations.
  lemma FieldsPacked(nrMaps: nat, i: nat)
    ensures Packed([(MAP_TYPE, 4), (MAP_KEY_SIZE, 4), (MAP_VALUE_SIZE, 4), (MAP_MAX_ENTRIES, 4), (MAP_FLAGS, 4),
      (MAP_INNER_FD, 4), (MAP_NUMA_NODE, 4), (MAP_NAME, 16), (MAP_IFINDEX, 4), (MAP_BTF_FD, 4), (MAP_BTF_KEY_TYPE_ID, 4),
      (MAP_BTF_VALUE_TYPE_ID, 4), (MAP_VMLINUX_VALUE_TYPE_ID, 4), (MAP_EXTRA, 8)], 0, MAP_ATTR_SZ)
    ensures Packed([(PROG_TYPE, 4), (PROG_INSN_CNT, 4), (PROG_INSNS, 8), (PROG_LICENSE, 8), (PROG_LOG_LEVEL, 4),
      (PROG_LOG_SIZE, 4), (PROG_LOG_BUF, 8), (PROG_KERN_VERSION, 4), (PROG_FLAGS, 4), (PROG_NAME, 16), (PROG_IFINDEX, 4),
      (PROG_EXPECTED_ATTACH_TYPE, 4), (PROG_BTF_FD, 4), (PROG_FUNC_INFO_REC_SIZE, 4), (PROG_FUNC_INFO, 8),
      (PROG_FUNC_INFO_CNT, 4), (PROG_LINE_INFO_REC_SIZE, 4), (PROG_LINE_INFO, 8), (PROG_LINE_INFO_CNT, 4),
      (ATTR_ATTACH_BTF_ID, 4), (ATTR_ATTACH_BTF_OBJ_FD, 4), (PROG_CORE_RELO_CNT, 4), (PROG_FD_ARRAY, 8),
      (PROG_CORE_RELOS, 8), (PROG_CORE_RELO_REC_SIZE, 4)], 0, PROG_ATTR_SZ)
    ensures Packed([(BTF_BTF, 8), (BTF_LOG_BUF, 8), (BTF_SIZE, 4), (BTF_LOG_SIZE, 4), (BTF_LOG_LEVEL, 4)], 0, BTF_ATTR_SZ)
    ensures Packed([(CTX_FLAGS, 4), (CTX_LOG_LEVEL, 4), (CTX_LOG_SIZE, 4), (CTX_LOG_BUF, 8)], 4, CtxMapFd(0))
    ensures Packed([(CtxMapFd(i), 4), (CtxMaxEntries(i), 4), (CtxInitialValue(i), 8)], CtxMapFd(i), CtxMapFd(i + 1))
    ensures CtxProgFd(nrMaps, 0) == CtxMapFd(nrMaps)
      && Packed([(CtxProgFd(nrMaps, i), 4)], CtxProgFd(nrMaps, i), CtxProgFd(nrMaps, i + 1))
    ensures Packed([(OFF_BTF_FD, 4), (OFF_INNER_MAP_FD, 4)], -STACK_SZ, OffProgFd(0))
    ensures Packed([(OffProgFd(i), 4)], OffProgFd(i), OffProgFd(i + 1)) && OffProgFd(MAX_USED_PROGS) == 0
  {
  }
}
