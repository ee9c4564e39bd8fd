/** BTF as a sequence of types (id 0 is void), and what CO-RE relocations read from it: type sizes
    and the places that access paths lead to. */
module BtfTypes {
  type Id = nat

  // The string a name offset refers to; Marked is UINT32_MAX, which is no offset.
  datatype Name = Str(s: string) | Marked

  datatype ModKind = Const | Volatile | Restrict | TypeTag

  // offset holds the bit offset and, in a composite with kflag, the bitfield size above 24 bits of it.
  datatype Member = Member(name: Name, typ: Id, offset: nat)

  datatype Param = Param(name: Name, typ: Id)

  // wide: ENUM64
  datatype PlainKind =
    | Int(signed: bool, offset: nat, rest: nat)
    | Float
    | Enum(wide: bool, signed: bool, values: seq<(string, int)>)

  datatype Body =
    | Void
    | Plain(kind: PlainKind, size: nat)
    | Ptr(to: Id)
    | Mod(mod: ModKind, to: Id)
    | Typedef(to: Id)
    | Array(elem: Id, index: Id, nelems: nat)
    | Composite(isUnion: bool, size: nat, kflag: bool, members: seq<Member>)
    | FuncProto(ret: Id, params: seq<Param>)
    | Fwd(isUnion: bool)
    | Other(other: nat, refs: seq<Id>)                   // FUNC, VAR, DATASEC, DECL_TAG

  datatype Type = Type(name: Name, body: Body)

  const EINVAL: int := 22
  const TWO24: nat := 0x100_0000
  const TWO32: nat := 0x1_0000_0000

  datatype Option<T> = None | Some(value: T)

  // btf_member_bit_offset and btf_member_bitfield_size
  function BitOffset(kflag: bool, m: Member): nat {
    if kflag then m.offset % TWO24 else m.offset
  }

  function BitSize(kflag: bool, m: Member): nat {
    if kflag then m.offset / TWO24 else 0
  }

  function MemberIds(ms: seq<Member>): (ids: seq<Id>)
    ensures |ids| == |ms| && forall k | 0 <= k < |ids| :: ids[k] == ms[k].typ
  {
    seq(|ms|, k requires 0 <= k < |ms| => ms[k].typ)
  }

  function ParamIds(ps: seq<Param>): (ids: seq<Id>)
    ensures |ids| == |ps| && forall k | 0 <= k < |ids| :: ids[k] == ps[k].typ
  {
    seq(|ps|, k requires 0 <= k < |ps| => ps[k].typ)
  }

  // All types a type refers to.
  function Refs(b: Body): seq<Id> {
    match b
    case Void => []
    case Plain(_, _) => []
    case Ptr(to) => [to]
    case Mod(_, to) => [to]
    case Typedef(to) => [to]
    case Array(elem, index, _) => [elem, index]
    case Composite(_, _, _, ms) => MemberIds(ms)
    case FuncProto(ret, ps) => [ret] + ParamIds(ps)
    case Fwd(_) => []
    case Other(_, refs) => refs
  }

  const BTF_MAX_NR_TYPES: nat := 0x7fff_ffff

  // Type ids are in range, offsets fit 32 bits, and no name is the mark.
  ghost predicate ValidType(n: nat, t: Type) {
    (forall x | x in Refs(t.body) :: x < n) && t.name != Marked && t.body != Void
    && (t.body.Composite? ==> forall m | m in t.body.members :: m.name != Marked && m.offset < TWO32)
  }

  ghost predicate ValidBtf(ts: seq<Type>) {
    ts != [] && |ts| <= BTF_MAX_NR_TYPES && ts[0] == Type(Str(""), Void) && forall i | 0 < i < |ts| :: ValidType(|ts|, ts[i])
  }

  // --- btf__resolve_size

  const MAX_RESOLVE_DEPTH: nat := 32

  // Depth more steps; n elements of the type so far.
  function SizeFrom(ts: seq<Type>, id: Id, ptrSz: nat, depth: nat, n: nat): Option<nat>
    decreases depth
  {
    if depth == 0 || id >= |ts| then None else
    match ts[id].body
    case Plain(_, size) => Total(size, n)
    case Composite(_, size, _, _) => Total(size, n)
    case Ptr(_) => Total(ptrSz, n)
    case Mod(_, to) => SizeFrom(ts, to, ptrSz, depth - 1, n)
    case Typedef(to) => SizeFrom(ts, to, ptrSz, depth - 1, n)
    case Array(elem, _, k) =>
      if n != 0 && k > (TWO32 - 1) / n then None else SizeFrom(ts, elem, ptrSz, depth - 1, n * k)
    case Void => None
    case FuncProto(_, _) => None
    case Fwd(_) => None
    case Other(_, _) => None
  }

  function Total(size: nat, n: nat): Option<nat> {
    if n != 0 && size > (TWO32 - 1) / n then None else Some(n * size)
  }

  function Size(ts: seq<Type>, id: Id, ptrSz: nat): Option<nat> {
    SizeFrom(ts, id, ptrSz, MAX_RESOLVE_DEPTH, 1)
  }

  // --- access paths, as bpf_core_parse_spec walks them

  predicate Skipped(b: Body) {
    b.Mod? || b.Typedef?
  }

  // skip_mods_and_typedefs, at most fuel of them
  function Skip(ts: seq<Type>, id: Id, fuel: nat): (r: Option<Id>)
    ensures r.Some? ==> r.value < |ts| && !Skipped(ts[r.value].body)
    decreases fuel
  {
    if id >= |ts| then None
    else if !Skipped(ts[id].body) then Some(id)
    else if fuel == 0 then None
    else Skip(ts, ts[id].body.to, fuel - 1)
  }

  // What one index of a path means: where a member lies and what type it has, or an array element.
  datatype Step =
    | Field(name: Name, bitOffset: nat, bitSize: nat, size: Option<nat>)
    | Elem(index: nat, nelems: nat, size: Option<nat>)

  // The steps of a path from type id; flex says that the last named member was the last of its
  // composite, so that an array of length 0 there may be indexed at will.
  function Walk(ts: seq<Type>, id: Id, path: seq<nat>, ptrSz: nat, fuel: nat, flex: bool): Option<seq<Step>>
    decreases |path|
  {
    if path == [] then Some([]) else
    var c := Skip(ts, id, fuel);
    if c.None? then None else
    match ts[c.value].body
    case Composite(_, _, kflag, ms) =>
      if path[0] >= |ms| then None else
      var m := ms[path[0]];
      var rest := Walk(ts, m.typ, path[1..], ptrSz, fuel, if m.name == Str("") then flex else path[0] == |ms| - 1);
      if rest.None? then None
      else Some([Field(m.name, BitOffset(kflag, m), BitSize(kflag, m), Size(ts, m.typ, ptrSz))] + rest.value)
    case Array(elem, _, n) =>
      var e := Skip(ts, elem, fuel);
      if e.None? || (path[0] >= n && !(flex && n == 0)) then None else
      var size := Size(ts, e.value, ptrSz);
      if size.None? then None else
      var rest := Walk(ts, e.value, path[1..], ptrSz, fuel, false);
      if rest.None? then None else Some([Elem(path[0], n, size)] + rest.value)
    case _ => None
  }

  // Where an access path leads: its bit offset from the object, and its steps.
  datatype Found = Found(bitOffset: nat, steps: seq<Step>)

  function Bits(steps: seq<Step>): nat {
    if steps == [] then 0 else
    var n := |steps| - 1;
    Bits(steps[..n])
    + match steps[n]
      case Field(_, off, _, _) => off
      case Elem(i, _, size) => if size.Some? then i * size.value * 8 else 0
  }

  // bpf_core_parse_spec on a field access: raw[0] counts whole objects.
  function Access(ts: seq<Type>, root: Id, raw: seq<nat>, ptrSz: nat, fuel: nat): Option<Found> {
    if raw == [] then None else
    var c := Skip(ts, root, fuel);
    if c.None? then None else
    var size := Size(ts, c.value, ptrSz);
    var steps := Walk(ts, c.value, raw[1..], ptrSz, fuel, false);
    if size.None? || steps.None? then None else Some(Found(raw[0] * size.value * 8 + Bits(steps.value), steps.value))
  }
}
