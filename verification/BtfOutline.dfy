/** Compatible types: the engine compares two types step by step, but what it decides is whether they have
    the same outline. */
module BtfOutline {
  import opened BtfTypes
  import opened BtfMatch
  import opened BtfTheorem
  import opened BtfCompat

  // What is left of a type without names, sizes, members and array lengths.
  datatype Outline =
    | Nothing
    | Number
    | Names
    | Record(isUnion: bool)
    | Declared
    | Pointer(to: Outline)
    | Row(elem: Outline)
    | Function(params: seq<Outline>, ret: Outline)

  // The outline of one type, as far as the engine looks: none of a float or a bit-offset integer, and none
  // beyond the given depths.
  function OutlineOf(ts: seq<Type>, id: Id, level: nat, depth: nat, fuel: nat): Option<Outline>
    requires depth <= MATCH_DEPTH
    decreases level, depth + 2
  {
    var c := Skip(ts, id, fuel);
    if depth == 0 || c.None? then None else
    match ts[c.value].body
    case Void => Some(Nothing)
    case Plain(Int(_, offset, _), _) => if offset == 0 then Some(Number) else None
    case Plain(Enum(_, _, _), _) => Some(Names)
    case Composite(isUnion, _, _, _) => Some(Record(isUnion))
    case Fwd(_) => Some(Declared)
    case Ptr(to) =>
      var o := OutlineOf(ts, to, level, depth - 1, fuel);
      if o.None? then None else Some(Pointer(o.value))
    case Array(elem, _, _) =>
      var o := OutlineOf(ts, elem, level, depth - 1, fuel);
      if o.None? then None else Some(Row(o.value))
    case FuncProto(ret, ps) =>
      var params, o := OutlinesOf(ts, ps, level, fuel), OutlineOf(ts, ret, level, depth - 1, fuel);
      if params.None? || o.None? then None else Some(Function(params.value, o.value))
    case _ => None
  }

  function OutlinesOf(ts: seq<Type>, ps: seq<Param>, level: nat, fuel: nat): (os: Option<seq<Outline>>)
    ensures os.Some? ==> |os.value| == |ps|
    decreases level, 1, |ps|
  {
    if ps == [] then Some([])
    else if level == 0 then None
    else
      var o, rest := OutlineOf(ts, ps[0].typ, level - 1, MATCH_DEPTH, fuel), OutlinesOf(ts, ps[1..], level, fuel);
      if o.None? || rest.None? then None else Some([o.value] + rest.value)
  }

  lemma SkippedOutline(ts: seq<Type>, id: Id, level: nat, depth: nat, fuel: nat)
    requires depth <= MATCH_DEPTH && Skip(ts, id, fuel).Some?
    ensures OutlineOf(ts, Skip(ts, id, fuel).value, level, depth, fuel) == OutlineOf(ts, id, level, depth, fuel)
  {
    SkipTwice(ts, id, fuel);
  }

  lemma {:induction false} FromOutlines(l: seq<Type>, lid: Id, t: seq<Type>, tid: Id, level: nat, depth: nat, fuel: nat)
    requires depth <= MATCH_DEPTH
    ensures var o, p := OutlineOf(l, lid, level, depth, fuel), OutlineOf(t, tid, level, depth, fuel);
      CompatFrom(l, lid, t, tid, level, depth, fuel) > 0 <==> o.Some? && o == p
    decreases level, depth + 2, 0
  {
    hide Skip, CompatAgain, ParamsCompat, OutlinesOf;
    var lc, tc := Skip(l, lid, fuel), Skip(t, tid, fuel);
    if depth > 0 && lc.Some? && tc.Some? && KindsCompat(l[lc.value].body, t[tc.value].body) {
      match l[lc.value].body
      case Ptr(to) => FromOutlines(l, to, t, t[tc.value].body.to, level, depth - 1, fuel);
      case Array(elem, _, _) => FromOutlines(l, elem, t, t[tc.value].body.elem, level, depth - 1, fuel);
      case FuncProto(ret, ps) =>
        var qs, ret2 := t[tc.value].body.params, t[tc.value].body.ret;
        if |ps| == |qs| {
          ParamOutlines(l, ps, t, qs, level, fuel);
          RetOutlines(l, ret, t, ret2, level, depth, fuel);
        }
      case _ =>
    }
  }

  lemma {:induction false} RetOutlines(l: seq<Type>, lid: Id, t: seq<Type>, tid: Id, level: nat, depth: nat, fuel: nat)
    requires 0 < depth <= MATCH_DEPTH
    ensures var o, p := OutlineOf(l, lid, level, depth - 1, fuel), OutlineOf(t, tid, level, depth - 1, fuel);
      CompatAgain(l, lid, t, tid, level, depth, fuel) > 0 <==> o.Some? && o == p
    decreases level, depth + 1, 1
  {
    hide Skip, CompatFrom;
    var lc, tc := Skip(l, lid, fuel), Skip(t, tid, fuel);
    if lc.Some? && tc.Some? {
      hide OutlineOf;
      SkippedOutline(l, lid, level, depth - 1, fuel);
      SkippedOutline(t, tid, level, depth - 1, fuel);
      FromOutlines(l, lc.value, t, tc.value, level, depth - 1, fuel);
    }
  }

  // One parameter, which is skipped to before it is compared.
  lemma {:induction false} ParamOutline(l: seq<Type>, lid: Id, t: seq<Type>, tid: Id, level: nat, fuel: nat)
    requires Skip(l, lid, fuel).Some? && Skip(t, tid, fuel).Some?
    ensures var o, p := OutlineOf(l, lid, level, MATCH_DEPTH, fuel), OutlineOf(t, tid, level, MATCH_DEPTH, fuel);
      TypesCompat(l, Skip(l, lid, fuel).value, t, Skip(t, tid, fuel).value, level, fuel) > 0 <==> o.Some? && o == p
    decreases level, MATCH_DEPTH + 3, 0
  {
    hide CompatFrom, OutlineOf, KindsCompat;
    var lc, tc := Skip(l, lid, fuel).value, Skip(t, tid, fuel).value;
    SkippedOutline(l, lid, level, MATCH_DEPTH, fuel);
    SkippedOutline(t, tid, level, MATCH_DEPTH, fuel);
    FromOutlines(l, lc, t, tc, level, MATCH_DEPTH, fuel);
    KindsFromOutline(l, lc, t, tc, level, fuel);
  }

  lemma {:induction false} ParamOutlines(l: seq<Type>, ps: seq<Param>, t: seq<Type>, qs: seq<Param>, level: nat, fuel: nat)
    requires |ps| == |qs|
    ensures var os, us := OutlinesOf(l, ps, level, fuel), OutlinesOf(t, qs, level, fuel);
      ParamsCompat(l, ps, t, qs, level, fuel) > 0 <==> os.Some? && os == us
    decreases level, 1, |ps|
  {
    hide Skip, TypesCompat, OutlineOf, KindsCompat;
    if ps != [] && level > 0 {
      var o, p := OutlineOf(l, ps[0].typ, level - 1, MATCH_DEPTH, fuel), OutlineOf(t, qs[0].typ, level - 1, MATCH_DEPTH, fuel);
      if Skip(l, ps[0].typ, fuel).Some? && Skip(t, qs[0].typ, fuel).Some? {
        ParamOutline(l, ps[0].typ, t, qs[0].typ, level - 1, fuel);
        ParamOutlines(l, ps[1..], t, qs[1..], level, fuel);
        var os, us := OutlinesOf(l, ps[1..], level, fuel), OutlinesOf(t, qs[1..], level, fuel);
        if os.Some? && us.Some? && o.Some? && p.Some? {
          ConsSame(o.value, os.value, p.value, us.value);
        }
      } else {
        SkipFirst(l, ps[0].typ, level - 1, fuel);
        SkipFirst(t, qs[0].typ, level - 1, fuel);
      }
    }
  }

  lemma SkipFirst(ts: seq<Type>, id: Id, level: nat, fuel: nat)
    ensures Skip(ts, id, fuel).None? ==> OutlineOf(ts, id, level, MATCH_DEPTH, fuel).None?
  {
  }

  lemma ConsSame(o: Outline, os: seq<Outline>, p: Outline, ps: seq<Outline>)
    ensures [o] + os == [p] + ps <==> o == p && os == ps
  {
    if [o] + os == [p] + ps {
      assert ([o] + os)[1..] == os && ([p] + ps)[1..] == ps && ([o] + os)[0] == o && ([p] + ps)[0] == p;
    }
  }

  lemma KindsFromOutline(l: seq<Type>, lid: Id, t: seq<Type>, tid: Id, level: nat, fuel: nat)
    requires lid < |l| && tid < |t| && !Skipped(l[lid].body) && !Skipped(t[tid].body)
    ensures var o := OutlineOf(l, lid, level, MATCH_DEPTH, fuel);
      o.Some? && o == OutlineOf(t, tid, level, MATCH_DEPTH, fuel) ==> KindsCompat(l[lid].body, t[tid].body)
  {
    hide OutlinesOf;
  }

  // Two types are compatible if and only if they are of the same kind and have the same outline.
  lemma CompatIsSameOutline(l: seq<Type>, lid: Id, t: seq<Type>, tid: Id, level: nat, fuel: nat)
    requires lid < |l| && tid < |t|
    ensures var o, p := OutlineOf(l, lid, level, MATCH_DEPTH, fuel), OutlineOf(t, tid, level, MATCH_DEPTH, fuel);
      TypesCompat(l, lid, t, tid, level, fuel) > 0 <==> KindsCompat(l[lid].body, t[tid].body) && o.Some? && o == p
  {
    hide CompatFrom, OutlineOf, KindsCompat;
    FromOutlines(l, lid, t, tid, level, MATCH_DEPTH, fuel);
  }
}
