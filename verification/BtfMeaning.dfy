/** What the relocation engine's walks over BTF compute: where skipping ends, how large a type is, and
    where an access path leads. */
module BtfMeaning {
  import opened BtfTypes

  // --- skip_mods_and_typedefs

  predicate IsName(b: Body) {
    b.Mod? || b.Typedef?
  }

  // Modifiers and typedefs one after the other, and then another type.
  ghost predicate NameChain(ts: seq<Type>, p: seq<Id>) {
    p != [] && (forall k | 0 <= k < |p| :: p[k] < |ts|) && !IsName(ts[p[|p| - 1]].body)
    && forall k | 0 <= k < |p| - 1 :: Names(ts, p, k)
  }

  ghost predicate Names(ts: seq<Type>, p: seq<Id>, k: nat)
    requires k + 1 < |p|
  {
    p[k] < |ts| && IsName(ts[p[k]].body) && ts[p[k]].body.to == p[k + 1]
  }

  ghost predicate NamesLead(ts: seq<Type>, id: Id, c: Id, p: seq<Id>) {
    NameChain(ts, p) && p[0] == id && p[|p| - 1] == c
  }

  lemma NameChainCons(ts: seq<Type>, id: Id, p: seq<Id>)
    requires NameChain(ts, p) && id < |ts| && IsName(ts[id].body) && ts[id].body.to == p[0]
    ensures NameChain(ts, [id] + p)
  {
    var q := [id] + p;
    forall k | 0 <= k < |q| - 1 ensures Names(ts, q, k) {
      if k > 0 { assert Names(ts, p, k - 1); }
    }
  }

  lemma NameChainTail(ts: seq<Type>, p: seq<Id>)
    requires NameChain(ts, p) && |p| > 1
    ensures NameChain(ts, p[1..]) && p[0] < |ts| && IsName(ts[p[0]].body) && ts[p[0]].body.to == p[1]
  {
    assert Names(ts, p, 0);
    forall k | 0 <= k < |p[1..]| - 1 ensures Names(ts, p[1..], k) {
      assert Names(ts, p, k + 1);
    }
  }

  lemma {:induction false} SkipFollows(ts: seq<Type>, id: Id, fuel: nat) returns (p: seq<Id>)
    requires Skip(ts, id, fuel).Some?
    ensures NamesLead(ts, id, Skip(ts, id, fuel).value, p) && |p| <= fuel + 1
    decreases fuel
  {
    if !Skipped(ts[id].body) {
      p := [id];
    } else {
      p := SkipFollows(ts, ts[id].body.to, fuel - 1);
      NameChainCons(ts, id, p);
      p := [id] + p;
    }
  }

  lemma {:induction false} FollowedSkips(ts: seq<Type>, p: seq<Id>, fuel: nat)
    requires NameChain(ts, p) && |p| <= fuel + 1
    ensures Skip(ts, p[0], fuel) == Some(p[|p| - 1])
    decreases |p|
  {
    if |p| > 1 {
      NameChainTail(ts, p);
      FollowedSkips(ts, p[1..], fuel - 1);
    }
  }

  // Skipping leads to a type if and only if at most fuel modifiers and typedefs lead there, and no more follow.
  lemma SkipIs(ts: seq<Type>, id: Id, fuel: nat, c: Id)
    ensures Skip(ts, id, fuel) == Some(c) <==> exists p :: NamesLead(ts, id, c, p) && |p| <= fuel + 1
  {
    hide NameChain;
    if Skip(ts, id, fuel) == Some(c) {
      var p := SkipFollows(ts, id, fuel);
    }
    if p :| NamesLead(ts, id, c, p) && |p| <= fuel + 1 {
      ChainNotEmpty(ts, p);
      FollowedSkips(ts, p, fuel);
    }
  }

  lemma ChainNotEmpty(ts: seq<Type>, p: seq<Id>)
    requires NameChain(ts, p)
    ensures p != []
  {
  }

  // --- btf__resolve_size

  // What a type takes by itself.
  function Base(b: Body, ptrSz: nat): Option<nat> {
    match b
    case Plain(_, size) => Some(size)
    case Composite(_, size, _, _) => Some(size)
    case Ptr(_) => Some(ptrSz)
    case _ => None
  }

  // The type behind a modifier, a typedef or an array, and how many of it there are.
  function Behind(b: Body): Option<(Id, nat)> {
    match b
    case Mod(_, to) => Some((to, 1))
    case Typedef(to) => Some((to, 1))
    case Array(elem, _, n) => Some((elem, n))
    case _ => None
  }

  // From a type down to one with a size.
  ghost predicate SizeChain(ts: seq<Type>, p: seq<Id>, ptrSz: nat)
    decreases |p|
  {
    p != [] && p[0] < |ts|
    && if |p| == 1 then Base(ts[p[0]].body, ptrSz).Some?
       else Behind(ts[p[0]].body).Some? && Behind(ts[p[0]].body).value.0 == p[1] && SizeChain(ts, p[1..], ptrSz)
  }

  // The base size times the elements of all arrays on the way.
  ghost function Bytes(ts: seq<Type>, p: seq<Id>, ptrSz: nat): nat
    requires SizeChain(ts, p, ptrSz)
    decreases |p|
  {
    if |p| == 1 then Base(ts[p[0]].body, ptrSz).value
    else Behind(ts[p[0]].body).value.1 * Bytes(ts, p[1..], ptrSz)
  }

  // The products stay within 32 bits, from the outermost array on.
  ghost predicate Fits(ts: seq<Type>, p: seq<Id>, ptrSz: nat, n: nat)
    requires SizeChain(ts, p, ptrSz)
    decreases |p|
  {
    if |p| == 1 then n * Base(ts[p[0]].body, ptrSz).value < TWO32
    else
      var b := ts[p[0]].body;
      (b.Array? ==> n * b.nelems < TWO32) && Fits(ts, p[1..], ptrSz, n * Behind(b).value.1)
  }

  lemma CheckIsProduct(n: nat, k: nat)
    ensures n != 0 && k > (TWO32 - 1) / n <==> n * k >= TWO32
  {
    if n != 0 {
      var q, r := (TWO32 - 1) / n, (TWO32 - 1) % n;
      assert TWO32 - 1 == q * n + r;
      if k > q {
        assert k * n >= (q + 1) * n;
        assert (q + 1) * n == q * n + n;
      } else {
        assert k * n <= q * n;
      }
    }
  }

  lemma Product(n: nat, k: nat, b: nat)
    ensures (n * k) * b == n * (k * b)
  {
  }

  // The size of a type is the product, as long as the chain is short enough and nothing overflows.
  lemma {:induction false} SizeFollows(ts: seq<Type>, id: Id, ptrSz: nat, depth: nat, n: nat) returns (p: seq<Id>)
    requires SizeFrom(ts, id, ptrSz, depth, n).Some?
    ensures SizeChain(ts, p, ptrSz) && p[0] == id && |p| <= depth && Fits(ts, p, ptrSz, n)
    ensures SizeFrom(ts, id, ptrSz, depth, n).value == n * Bytes(ts, p, ptrSz)
    decreases depth
  {
    var b := ts[id].body;
    if Base(b, ptrSz).Some? {
      p := [id];
      CheckIsProduct(n, Base(b, ptrSz).value);
    } else {
      var (to, k) := Behind(b).value;
      CheckIsProduct(n, k);
      var q := SizeFollows(ts, to, ptrSz, depth - 1, n * k);
      p := [id] + q;
      assert p[1..] == q;
      Product(n, k, Bytes(ts, q, ptrSz));
    }
  }

  lemma {:induction false} FollowedSize(ts: seq<Type>, p: seq<Id>, ptrSz: nat, depth: nat, n: nat)
    requires SizeChain(ts, p, ptrSz) && |p| <= depth && Fits(ts, p, ptrSz, n)
    ensures SizeFrom(ts, p[0], ptrSz, depth, n) == Some(n * Bytes(ts, p, ptrSz))
    decreases |p|
  {
    var b := ts[p[0]].body;
    if |p| == 1 {
      CheckIsProduct(n, Base(b, ptrSz).value);
    } else {
      var k := Behind(b).value.1;
      CheckIsProduct(n, k);
      FollowedSize(ts, p[1..], ptrSz, depth - 1, n * k);
      Product(n, k, Bytes(ts, p[1..], ptrSz));
    }
  }

  ghost predicate HasSize(ts: seq<Type>, id: Id, ptrSz: nat, size: nat, p: seq<Id>) {
    SizeChain(ts, p, ptrSz) && p[0] == id && |p| <= MAX_RESOLVE_DEPTH && Fits(ts, p, ptrSz, 1) && size == Bytes(ts, p, ptrSz)
  }

  // A type has a size if and only if at most 32 types lead to a base of that size, times the elements of the
  // arrays on the way, and no product leaves 32 bits.
  lemma SizeIs(ts: seq<Type>, id: Id, ptrSz: nat, size: nat)
    ensures Size(ts, id, ptrSz) == Some(size) <==> exists p :: HasSize(ts, id, ptrSz, size, p)
  {
    hide SizeFrom, SizeChain, Fits, Bytes;
    if Size(ts, id, ptrSz) == Some(size) {
      var p := SizeFollows(ts, id, ptrSz, MAX_RESOLVE_DEPTH, 1);
      assert HasSize(ts, id, ptrSz, size, p);
    }
    if p :| HasSize(ts, id, ptrSz, size, p) {
      FollowedSize(ts, p, ptrSz, MAX_RESOLVE_DEPTH, 1);
    }
  }

  // --- bpf_core_parse_spec

  // struct p { int x; int y; };  typedef struct p pt;  struct s { int a; pt b[4]; int f[]; };
  const LAYOUT: seq<Type> := [
    Type(Str(""), Void),
    Type(Str("int"), Plain(Int(true, 0, 32), 4)),
    Type(Str("p"), Composite(false, 8, false, [Member(Str("x"), 1, 0), Member(Str("y"), 1, 32)])),
    Type(Str("pt"), Typedef(2)),
    Type(Str(""), Array(3, 1, 4)),
    Type(Str(""), Array(1, 1, 0)),
    Type(Str("s"), Composite(false, 36, false,
      [Member(Str("a"), 1, 0), Member(Str("b"), 4, 32), Member(Str("f"), 5, 288)]))]

  const A_STEP: Step := Field(Str("a"), 0, 0, Some(4))
  const B_STEP: Step := Field(Str("b"), 32, 0, Some(32))
  const Y_STEP: Step := Field(Str("y"), 32, 0, Some(4))
  const F_STEP: Step := Field(Str("f"), 288, 0, Some(0))

  lemma Sizes()
    ensures Size(LAYOUT, 1, 8) == Some(4) && Size(LAYOUT, 2, 8) == Some(8) && Size(LAYOUT, 4, 8) == Some(32)
    ensures Size(LAYOUT, 5, 8) == Some(0) && Size(LAYOUT, 6, 8) == Some(36)
  {
    FollowedSize(LAYOUT, [1], 8, MAX_RESOLVE_DEPTH, 1);
    FollowedSize(LAYOUT, [2], 8, MAX_RESOLVE_DEPTH, 1);
    FollowedSize(LAYOUT, [6], 8, MAX_RESOLVE_DEPTH, 1);
    assert [5, 1][1..] == [1] && [4, 3, 2][1..] == [3, 2] && [3, 2][1..] == [2];
    FollowedSize(LAYOUT, [5, 1], 8, MAX_RESOLVE_DEPTH, 1);
    assert SizeChain(LAYOUT, [3, 2], 8) && Bytes(LAYOUT, [3, 2], 8) == 8;
    FollowedSize(LAYOUT, [4, 3, 2], 8, MAX_RESOLVE_DEPTH, 1);
  }

  lemma Skips(id: Id)
    requires id in {2, 4, 5, 6, 1}
    ensures Skip(LAYOUT, id, 1) == Some(id) && Skip(LAYOUT, 3, 1) == Some(2)
  {
    FollowedSkips(LAYOUT, [id], 1);
    assert Names(LAYOUT, [3, 2], 0);
    FollowedSkips(LAYOUT, [3, 2], 1);
  }

  lemma FieldStep(id: Id, path: seq<nat>)
    requires id in {2, 6} && path != [] && path[0] < |LAYOUT[id].body.members|
    ensures var m := LAYOUT[id].body.members[path[0]];
      var rest := Walk(LAYOUT, m.typ, path[1..], 8, 1, path[0] == |LAYOUT[id].body.members| - 1);
      Walk(LAYOUT, id, path, 8, 1, false) ==
        if rest.None? then None else Some([Field(m.name, m.offset, 0, Size(LAYOUT, m.typ, 8))] + rest.value)
  {
    hide Size, Skip;
    Skips(id);
  }

  lemma ElemStep(id: Id, path: seq<nat>, flex: bool)
    requires id in {4, 5} && path != [] && (id == 4 ==> path[0] < 4) && (id == 5 ==> flex)
    ensures var (e, n, size) := if id == 4 then (2, 4, 8) else (1, 0, 4);
      var rest := Walk(LAYOUT, e, path[1..], 8, 1, false);
      Walk(LAYOUT, id, path, 8, 1, flex) == if rest.None? then None else Some([Elem(path[0], n, Some(size))] + rest.value)
  {
    hide Size, Skip;
    Skips(id);
    Skips(1);
    Sizes();
  }

  // Every step adds its own part to the place.
  lemma {:induction false} BitsCons(st: Step, rest: seq<Step>)
    ensures Bits([st] + rest) == Bits([st]) + Bits(rest)
    decreases |rest|
  {
    if rest == [] {
      assert [st] + rest == [st];
    } else {
      var n := |rest| - 1;
      BitsCons(st, rest[..n]);
      assert ([st] + rest)[..n + 1] == [st] + rest[..n];
    }
  }

  // s[1].b[2].y lies at 36 + 4 + 2 * 8 + 4 bytes.
  lemma NestedPlace()
    ensures Access(LAYOUT, 6, [1, 1, 2, 1], 8, 1) == Some(Found(8 * 60, [B_STEP, Elem(2, 4, Some(8)), Y_STEP]))
  {
    Sizes();
    Skips(6);
    var e := Elem(2, 4, Some(8));
    hide Size, Skip, Walk;
    assert Walk(LAYOUT, 2, [1], 8, 1, false) == Some([Y_STEP]) by {
      assert [1][1..] == [] && [Y_STEP] + [] == [Y_STEP];
      FieldStep(2, [1]);
      WalkEnds(1, true);
    }
    assert [2, 1][1..] == [1] && [1, 2, 1][1..] == [2, 1] && [1, 1, 2, 1][1..] == [1, 2, 1];
    ElemStep(4, [2, 1], false);
    FieldStep(6, [1, 2, 1]);
    assert [B_STEP] + ([e] + [Y_STEP]) == [B_STEP, e, Y_STEP];
    BitsCons(B_STEP, [e] + [Y_STEP]);
    BitsCons(e, [Y_STEP]);
  }

  // s.f[7] may be read although f has no elements.
  lemma FlexiblePlace()
    ensures Access(LAYOUT, 6, [0, 2, 7], 8, 1) == Some(Found(8 * 64, [F_STEP, Elem(7, 0, Some(4))]))
  {
    Sizes();
    Skips(6);
    var e := Elem(7, 0, Some(4));
    hide Size, Skip, Walk;
    assert [7][1..] == [] && [2, 7][1..] == [7] && [0, 2, 7][1..] == [2, 7];
    WalkEnds(1, false);
    ElemStep(5, [7], true);
    assert [e] + [] == [e];
    FieldStep(6, [2, 7]);
    assert [F_STEP] + [e] == [F_STEP, e];
    BitsCons(F_STEP, [e]);
  }

  lemma WalkEnds(id: Id, flex: bool)
    ensures Walk(LAYOUT, id, [], 8, 1, flex) == Some([])
  {
  }
}
