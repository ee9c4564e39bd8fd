/** The struct that a skeleton declares for a data section: where C layout rules put its fields, on
    machines that align to at most 4 and to at most 8 bytes. */
module SectionLayout {
  // A variable of the section: its place and size there, and the alignment of its type.
  datatype Var = Var(isStatic: bool, offset: int, size: nat, align: int)

  datatype Field = Pad(len: int) | Decl(v: Var)

  datatype Result<T> = Ok(value: T) | Err

  function Min(a: int, b: int): int {
    if a < b then a else b
  }

  function RoundUp(off: int, align: int): int
    requires align > 0
  {
    (off + align - 1) / align * align
  }

  // One variable after the fields that end at off.
  function Emit(off: int, v: Var): seq<Field>
    requires v.align > 0
  {
    (if RoundUp(off, Min(v.align, 4)) != v.offset then [Pad(v.offset - off)] else []) + [Decl(v)]
  }

  // The end of the last of some variables that is not static.
  function EndOf(vars: seq<Var>): int {
    if vars == [] then 0 else
    var v := vars[|vars| - 1];
    if v.isStatic then EndOf(vars[..|vars| - 1]) else v.offset + v.size
  }

  // The declared fields, or an error if variables overlap or an alignment is unknown.
  function Generate(vars: seq<Var>): Result<seq<Field>> {
    if vars == [] then Ok([]) else
    var n := |vars| - 1;
    var r, v := Generate(vars[..n]), vars[n];
    if r.Err? || v.isStatic then r
    else if EndOf(vars[..n]) > v.offset || v.align <= 0 then Err
    else Ok(r.value + Emit(EndOf(vars[..n]), v))
  }

  // codegen_datasec_def
  method CodegenDatasec(vars: seq<Var>) returns (r: Result<seq<Field>>)
    ensures r == Generate(vars)
  {
    var fields, off := [], 0;
    for i := 0 to |vars|
      invariant Generate(vars[..i]) == Ok(fields) && off == EndOf(vars[..i])
    {
      var v := vars[i];
      assert vars[..i + 1][..i] == vars[..i];
      if v.isStatic {
        continue;
      }
      if off > v.offset || v.align <= 0 {
        GenerateFails(vars, i + 1);
        return Err;
      }
      var align := if v.align > 4 then 4 else v.align;
      var alignOff := (off + align - 1) / align * align;
      ghost var before := fields;
      if alignOff != v.offset {
        fields := fields + [Pad(v.offset - off)];
      }
      fields := fields + [Decl(v)];
      assert fields == before + Emit(off, v);
      off := v.offset + v.size;
    }
    assert vars[..|vars|] == vars;
    return Ok(fields);
  }

  lemma {:induction false} GenerateFails(vars: seq<Var>, n: nat)
    requires n <= |vars| && Generate(vars[..n]).Err?
    ensures Generate(vars).Err?
    decreases |vars|
  {
    if n == |vars| {
      assert vars[..n] == vars;
    } else {
      assert vars[..|vars| - 1][..n] == vars[..n];
      GenerateFails(vars[..|vars| - 1], n);
    }
  }

  // --- C layout

  function AlignOf(f: Field): int {
    match f case Pad(_) => 1 case Decl(v) => v.align
  }

  function SizeOf(f: Field): int {
    match f case Pad(len) => len case Decl(v) => v.size
  }

  predicate Layable(fs: seq<Field>) {
    forall f | f in fs :: AlignOf(f) > 0
  }

  // Where the next field of this alignment goes.
  function PlaceAfter(fs: seq<Field>, align: int, cap: int): int
    requires align > 0 && cap > 0 && Layable(fs)
  {
    RoundUp(EndAfter(fs, cap), Min(align, cap))
  }

  // Where the fields end.
  function EndAfter(fs: seq<Field>, cap: int): int
    requires cap > 0 && Layable(fs)
    decreases |fs|
  {
    if fs == [] then 0 else
    var n := |fs| - 1;
    assert fs[n] in fs && forall f | f in fs[..n] :: f in fs;
    RoundUp(EndAfter(fs[..n], cap), Min(AlignOf(fs[n]), cap)) + SizeOf(fs[n])
  }

  // Every variable is where the section has it, and every padding has some length.
  ghost predicate Exact(fs: seq<Field>, cap: int)
    requires cap > 0 && Layable(fs)
  {
    forall i | 0 <= i < |fs| :: ExactAt(fs, i, cap)
  }

  ghost predicate ExactAt(fs: seq<Field>, i: nat, cap: int)
    requires cap > 0 && i < |fs| && Layable(fs)
  {
    assert fs[i] in fs && forall f | f in fs[..i] :: f in fs;
    FieldOk(fs[..i], fs[i], cap)
  }

  // A field behind others.
  ghost predicate FieldOk(fs: seq<Field>, f: Field, cap: int)
    requires cap > 0 && Layable(fs) && AlignOf(f) > 0
  {
    if f.Pad? then f.len > 0 else PlaceAfter(fs, f.v.align, cap) == f.v.offset
  }

  predicate PowerOf2(a: int) {
    a == 1 || a == 2 || a == 4 || a == 8 || a == 16 || a == 32 || a == 64
  }

  // Every variable that is not static lies at a multiple of its alignment, as far as cap asks.
  predicate Aligned(vars: seq<Var>, cap: int)
    requires cap > 0
  {
    forall v | v in vars && !v.isStatic :: v.align > 0 && v.offset % Min(v.align, cap) == 0
  }

  predicate PowersOf2(vars: seq<Var>) {
    forall v | v in vars && !v.isStatic :: v.align > 0 ==> PowerOf2(v.align)
  }

  predicate Small(a: int) {
    a == 1 || a == 2 || a == 4 || a == 8
  }

  lemma RoundUpIs(off: int, a: int)
    requires Small(a)
    ensures off <= RoundUp(off, a) < off + a && RoundUp(off, a) % a == 0
  {
  }

  // Where a coarser alignment leads when a finer one already leads to one of its multiples.
  lemma SameRound(off: int, need: int, a: int, b: int)
    requires Small(a) && Small(b) && a <= b && RoundUp(off, a) == need && need % b == 0
    ensures RoundUp(off, b) == need
  {
    RoundUpIs(off, a);
    RoundUpIs(off, b);
  }

  lemma RoundedIsMultiple(off: int, need: int, a: int)
    requires Small(a) && RoundUp(off, a) == need
    ensures need % a == 0
  {
    RoundUpIs(off, a);
  }

  lemma MultipleStays(need: int, a: int)
    requires Small(a) && need % a == 0
    ensures RoundUp(need, a) == need
  {
  }

  // The effective alignment of a variable.
  lemma Capped(v: Var, cap: int)
    requires v.align > 0 && PowerOf2(v.align) && (cap == 4 || cap == 8)
    ensures Small(Min(v.align, cap)) && Small(Min(v.align, 4)) && Min(v.align, 4) <= Min(v.align, cap)
    ensures v.offset % Min(v.align, cap) == 0 ==> v.offset % Min(v.align, 4) == 0
  {
  }

  // --- fields one by one

  lemma ExactSnoc(fs: seq<Field>, f: Field, cap: int)
    requires cap > 0 && Layable(fs) && AlignOf(f) > 0
    ensures Layable(fs + [f])
    ensures Exact(fs + [f], cap) <==> Exact(fs, cap) && FieldOk(fs, f, cap)
    ensures EndAfter(fs + [f], cap) == RoundUp(EndAfter(fs, cap), Min(AlignOf(f), cap)) + SizeOf(f)
  {
    var g := fs + [f];
    assert g[..|fs|] == fs && g[|fs|] == f;
    forall i | 0 <= i < |fs| ensures ExactAt(g, i, cap) <==> ExactAt(fs, i, cap) {
      assert g[..i] == fs[..i] && g[i] == fs[i];
    }
    if Exact(g, cap) {
      assert ExactAt(g, |fs|, cap);
      forall i | 0 <= i < |fs| ensures ExactAt(fs, i, cap) {
        assert ExactAt(g, i, cap);
      }
    } else if Exact(fs, cap) {
      assert exists i :: 0 <= i < |g| && !ExactAt(g, i, cap);
    }
  }

  // One variable laid out behind fields that end where the section says.
  lemma EmitExact(fs: seq<Field>, v: Var, off: int, cap: int)
    requires (cap == 4 || cap == 8) && Layable(fs) && v.align > 0 && PowerOf2(v.align) && off <= v.offset
    ensures Layable(fs + Emit(off, v))
    ensures Exact(fs + Emit(off, v), cap) ==> Exact(fs, cap)
    ensures Exact(fs, cap) && EndAfter(fs, cap) == off ==>
      (Exact(fs + Emit(off, v), cap) <==> v.offset % Min(v.align, cap) == 0)
    ensures Exact(fs + Emit(off, v), cap) && Exact(fs, cap) && EndAfter(fs, cap) == off ==>
      EndAfter(fs + Emit(off, v), cap) == v.offset + v.size
  {
    hide Exact, EndAfter, RoundUp, Layable;
    Capped(v, cap);
    var m, a := Min(v.align, cap), Min(v.align, 4);
    if RoundUp(off, a) != v.offset {
      var pad := Pad(v.offset - off);
      assert fs + Emit(off, v) == fs + [pad] + [Decl(v)];
      ExactSnoc(fs, pad, cap);
      ExactSnoc(fs + [pad], Decl(v), cap);
      MultipleStays(off, 1);
      if v.offset % m == 0 {
        MultipleStays(v.offset, m);
        MultipleStays(v.offset, a);
      } else if RoundUp(v.offset, m) == v.offset {
        RoundedIsMultiple(v.offset, v.offset, m);
      }
    } else {
      assert fs + Emit(off, v) == fs + [Decl(v)];
      ExactSnoc(fs, Decl(v), cap);
      if v.offset % m == 0 {
        SameRound(off, v.offset, a, m);
      } else if RoundUp(off, m) == v.offset {
        RoundedIsMultiple(off, v.offset, m);
      }
    }
  }

  lemma {:induction false} LaidOut(vars: seq<Var>, cap: int)
    requires (cap == 4 || cap == 8) && PowersOf2(vars) && Generate(vars).Ok?
    ensures Layable(Generate(vars).value)
    ensures Exact(Generate(vars).value, cap) <==> Aligned(vars, cap)
    ensures Exact(Generate(vars).value, cap) ==> EndAfter(Generate(vars).value, cap) == EndOf(vars)
    decreases |vars|
  {
    hide Exact, EndAfter, Emit, Layable;
    if vars == [] {
      NothingExact(cap);
    } else {
      var n := |vars| - 1;
      var v := vars[n];
      assert v in vars && forall x | x in vars[..n] :: x in vars;
      LaidOut(vars[..n], cap);
      AlignedSnoc(vars, cap);
      if !v.isStatic {
        EmitExact(Generate(vars[..n]).value, v, EndOf(vars[..n]), cap);
      }
    }
  }

  lemma AlignedSnoc(vars: seq<Var>, cap: int)
    requires cap > 0 && vars != []
    ensures var n := |vars| - 1; var v := vars[n];
      Aligned(vars, cap) <==> Aligned(vars[..n], cap) && (!v.isStatic ==> v.align > 0 && v.offset % Min(v.align, cap) == 0)
  {
    var n := |vars| - 1;
    assert vars == vars[..n] + [vars[n]];
    assert vars[n] in vars && forall x | x in vars[..n] :: x in vars;
  }

  lemma NothingExact(cap: int)
    requires cap > 0
    ensures Layable([]) && Exact([], cap) && EndAfter([], cap) == 0
  {
  }

  // If generation succeeds, C layout puts every variable at exactly its offset in the section, with
  // every padding of some length, on machines that align to at most cap bytes, if and only if every
  // variable lies at a multiple of its alignment there.
  lemma LayoutExact(vars: seq<Var>, cap: int)
    requires (cap == 4 || cap == 8) && PowersOf2(vars) && Generate(vars).Ok?
    ensures Layable(Generate(vars).value) && (Exact(Generate(vars).value, cap) <==> Aligned(vars, cap))
  {
    LaidOut(vars, cap);
  }

  // Offsets that are multiples of the natural alignments suit both kinds of machine.
  lemma NaturalSuitsBoth(vars: seq<Var>)
    requires PowersOf2(vars) && Generate(vars).Ok?
    requires forall v | v in vars && !v.isStatic :: v.align > 0 && v.offset % v.align == 0
    ensures Layable(Generate(vars).value) && Exact(Generate(vars).value, 4) && Exact(Generate(vars).value, 8)
  {
    forall v | v in vars && !v.isStatic ensures v.offset % Min(v.align, 4) == 0 && v.offset % Min(v.align, 8) == 0 {
      Divides(v.offset, v.align);
    }
    LayoutExact(vars, 4);
    LayoutExact(vars, 8);
  }

  lemma Divides(x: int, a: int)
    requires PowerOf2(a) && x % a == 0
    ensures x % Min(a, 4) == 0 && x % Min(a, 8) == 0
  {
    if a == 8 {
      Quarters(x / 8);
    } else if a == 16 {
      Quarters(2 * (x / 16));
    } else if a == 32 {
      Quarters(4 * (x / 32));
    } else if a == 64 {
      Quarters(8 * (x / 64));
    }
  }

  lemma Quarters(q: int)
    ensures 8 * q % 4 == 0 && 8 * q % 8 == 0
  {
  }

  // --- what is declared, and when

  // The variables that are not static, in order.
  function Shown(vars: seq<Var>): seq<Var> {
    if vars == [] then [] else
    var n := |vars| - 1;
    Shown(vars[..n]) + (if vars[n].isStatic then [] else [vars[n]])
  }

  function Declared(fs: seq<Field>): seq<Var> {
    if fs == [] then [] else
    var n := |fs| - 1;
    Declared(fs[..n]) + (if fs[n].Decl? then [fs[n].v] else [])
  }

  lemma DeclaredSnoc(fs: seq<Field>, f: Field)
    ensures Declared(fs + [f]) == Declared(fs) + (if f.Decl? then [f.v] else [])
  {
    assert (fs + [f])[..|fs|] == fs;
  }

  lemma DeclaredEmit(fs: seq<Field>, off: int, v: Var)
    requires v.align > 0
    ensures Declared(fs + Emit(off, v)) == Declared(fs) + [v]
  {
    hide Declared;
    var pad := Pad(v.offset - off);
    if |Emit(off, v)| == 2 {
      DeclaredSnoc(fs, pad);
      DeclaredSnoc(fs + [pad], Decl(v));
      assert fs + Emit(off, v) == fs + [pad] + [Decl(v)];
    } else {
      DeclaredSnoc(fs, Decl(v));
      assert fs + Emit(off, v) == fs + [Decl(v)];
    }
  }

  // Every variable that is not static is declared once, in order, and nothing else is.
  lemma {:induction false} DeclaresShown(vars: seq<Var>)
    requires Generate(vars).Ok?
    ensures Declared(Generate(vars).value) == Shown(vars)
    decreases |vars|
  {
    hide Declared, Emit;
    if vars == [] {
      NothingDeclared();
    } else {
      var n := |vars| - 1;
      DeclaresShown(vars[..n]);
      if !vars[n].isStatic {
        DeclaredEmit(Generate(vars[..n]).value, EndOf(vars[..n]), vars[n]);
      }
    }
  }

  lemma NothingDeclared()
    ensures Declared([]) == []
  {
  }

  predicate Behind(vars: seq<Var>, i: nat, j: nat)
    requires i < |vars| && j < |vars|
  {
    vars[i].isStatic || vars[j].isStatic || vars[i].offset + vars[i].size <= vars[j].offset
  }

  // No two variables overlap or are out of order, none lies before the section, and all alignments are
  // known; static variables do not matter.
  ghost predicate InOrder(vars: seq<Var>) {
    (forall i | 0 <= i < |vars| && !vars[i].isStatic :: vars[i].offset >= 0 && vars[i].align > 0)
    && forall i, j | 0 <= i < j < |vars| :: Behind(vars, i, j)
  }

  lemma InOrderSnoc(vars: seq<Var>)
    requires vars != []
    ensures var n := |vars| - 1; var v := vars[n];
      InOrder(vars) <==>
        InOrder(vars[..n])
        && (!v.isStatic ==> v.offset >= 0 && v.align > 0 && forall i | 0 <= i < n :: Behind(vars, i, n))
  {
    var n := |vars| - 1;
    forall i, j | 0 <= i < j < n ensures Behind(vars[..n], i, j) == Behind(vars, i, j) {
    }
    forall i | 0 <= i < n ensures vars[..n][i] == vars[i] {
    }
    if InOrder(vars) {
      forall i, j | 0 <= i < j < n ensures Behind(vars[..n], i, j) {
        assert Behind(vars, i, j);
      }
    }
    if InOrder(vars[..n]) && (vars[n].isStatic || forall i | 0 <= i < n :: Behind(vars, i, n)) {
      forall i, j | 0 <= i < j < |vars| ensures Behind(vars, i, j) {
        if j < n { assert Behind(vars[..n], i, j); }
      }
    }
  }

  // In order, the last variable that is not static ends last.
  lemma {:induction false} EndIsLast(vars: seq<Var>)
    requires InOrder(vars)
    ensures EndOf(vars) >= 0 && forall i | 0 <= i < |vars| && !vars[i].isStatic :: vars[i].offset + vars[i].size <= EndOf(vars)
    ensures EndOf(vars) == 0 || exists i :: 0 <= i < |vars| && !vars[i].isStatic && vars[i].offset + vars[i].size == EndOf(vars)
    decreases |vars|
  {
    if vars != [] {
      var n := |vars| - 1;
      InOrderSnoc(vars);
      EndIsLast(vars[..n]);
      if vars[n].isStatic {
        forall i | 0 <= i < |vars| && !vars[i].isStatic ensures vars[i].offset + vars[i].size <= EndOf(vars) {
          assert vars[..n][i] == vars[i];
        }
        if EndOf(vars) != 0 {
          var i :| 0 <= i < n && !vars[..n][i].isStatic && vars[..n][i].offset + vars[..n][i].size == EndOf(vars[..n]);
          assert vars[i] == vars[..n][i];
        }
      } else {
        forall i | 0 <= i < n && !vars[i].isStatic ensures vars[i].offset + vars[i].size <= EndOf(vars) {
          assert Behind(vars, i, n);
        }
      }
    }
  }

  // Generation succeeds if and only if the variables are in order.
  lemma {:induction false} GenerateSucceeds(vars: seq<Var>)
    ensures Generate(vars).Ok? <==> InOrder(vars)
    decreases |vars|
  {
    hide Emit, EndOf;
    if vars != [] {
      var n := |vars| - 1;
      GenerateSucceeds(vars[..n]);
      InOrderSnoc(vars);
      if InOrder(vars[..n]) && !vars[n].isStatic {
        EndIsLast(vars[..n]);
        if EndOf(vars[..n]) <= vars[n].offset {
          forall i | 0 <= i < n ensures Behind(vars, i, n) {
            assert vars[..n][i] == vars[i];
          }
        } else if EndOf(vars[..n]) != 0 {
          var i :| 0 <= i < n && !vars[..n][i].isStatic && vars[..n][i].offset + vars[..n][i].size == EndOf(vars[..n]);
          assert vars[i] == vars[..n][i] && !Behind(vars, i, n);
        }
      }
    }
  }

  // --- no needless padding

  // A variable follows, which would not lie at its offset without the padding.
  ghost predicate PadNeeded(fs: seq<Field>, i: nat, cap: int)
    requires cap > 0 && Layable(fs) && i < |fs|
  {
    fs[i].Pad? ==>
      i + 1 < |fs| && fs[i + 1].Decl?
      && (assert fs[i + 1] in fs && forall f | f in fs[..i] :: f in fs;
          PlaceAfter(fs[..i], AlignOf(fs[i + 1]), cap) != fs[i + 1].v.offset)
  }

  ghost predicate PadsNeeded(fs: seq<Field>, cap: int)
    requires cap > 0 && Layable(fs)
  {
    forall i | 0 <= i < |fs| :: PadNeeded(fs, i, cap)
  }

  lemma PadStays(fs: seq<Field>, more: seq<Field>, i: nat, cap: int)
    requires cap > 0 && Layable(fs) && Layable(fs + more) && i < |fs| && PadNeeded(fs, i, cap)
    ensures PadNeeded(fs + more, i, cap)
  {
    var g := fs + more;
    assert g[i] == fs[i] && g[..i] == fs[..i];
    if i + 1 < |fs| {
      assert g[i + 1] == fs[i + 1];
    }
  }

  lemma EmitNeeded(fs: seq<Field>, v: Var, off: int)
    requires Layable(fs) && v.align > 0 && PadsNeeded(fs, 4) && EndAfter(fs, 4) == off && Layable(fs + Emit(off, v))
    ensures PadsNeeded(fs + Emit(off, v), 4)
  {
    hide EndAfter, RoundUp;
    var g := fs + Emit(off, v);
    forall i | 0 <= i < |g| ensures PadNeeded(g, i, 4) {
      if i < |fs| {
        PadStays(fs, Emit(off, v), i, 4);
      } else if i == |fs| {
        assert g[..i] == fs && g[i] == Emit(off, v)[0];
      } else {
        assert g[i] == Emit(off, v)[1];
      }
    }
  }

  // On machines that align to at most 4 bytes no padding could be left out.
  lemma {:induction false} NoNeedlessPad(vars: seq<Var>)
    requires PowersOf2(vars) && Generate(vars).Ok? && Aligned(vars, 4)
    ensures Layable(Generate(vars).value) && PadsNeeded(Generate(vars).value, 4)
    decreases |vars|
  {
    hide Exact, EndAfter, Emit, PadsNeeded, Aligned;
    LaidOut(vars, 4);
    if vars == [] {
      NoPads();
    } else {
      var n := |vars| - 1;
      var v := vars[n];
      assert v in vars && forall x | x in vars[..n] :: x in vars;
      AlignedSnoc(vars, 4);
      NoNeedlessPad(vars[..n]);
      LaidOut(vars[..n], 4);
      if !v.isStatic {
        EmitNeeded(Generate(vars[..n]).value, v, EndOf(vars[..n]));
      }
    }
  }

  lemma NoPads()
    ensures PadsNeeded([], 4)
  {
  }
}
