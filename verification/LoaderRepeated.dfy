/** Two uses of the same typed kernel variable in one program: whether the relocated instructions end
    up alike. */
module LoaderRepeated {
  import opened LoaderBytes
  import opened LoaderMachine
  import opened LoaderIR
  import opened LoaderGen
  import opened LoaderShape
  import opened LoaderLedger

  // Relocation n is a further use of a typed variable.
  predicate RepeatedUse(rs: seq<Relo>, n: nat)
    requires n < |rs|
  {
    FirstUse(rs, n) < n && IsTyped(rs[n]) && IsTyped(rs[FirstUse(rs, n)])
  }

  predicate IsTyped(r: Relo) {
    r.kind == BTF_KIND_VAR && !r.isTypeless
  }

  // The byte with src_reg, as the program came with it.
  function SrcGiven(insns: Bytes, r: Relo): nat {
    Get(insns, INSN_SZ * r.insnIdx + INSN_CODE_END, 1)
  }

  // Both uses get the same type and descriptor, and keep or lose src_reg alike unless the variable
  // was found outside modules: then only the first use keeps it.
  predicate UsedAlike(rs: seq<Relo>, n: nat, insns: Bytes, b: Bytes, q: int, ret: int)
    requires n < |rs|
  {
    var first, next := q + INSN_SZ * rs[FirstUse(rs, n)].insnIdx, q + INSN_SZ * rs[n].insnIdx;
    var was, own := SrcGiven(insns, rs[FirstUse(rs, n)]), SrcGiven(insns, rs[n]);
    ImmAt(b, next) == ImmAt(b, first) && FdAt(b, next) == FdAt(b, first)
    && (was == own && own >= 16 ==> (SrcAt(b, next) == SrcAt(b, first) <==> !(0 <= ret < TWO32)))
    && (0 <= ret < TWO32 ==> SrcAt(b, first) == was && SrcAt(b, next) == own % 16)
  }

  lemma FirstOfFirst(rs: seq<Relo>, n: nat)
    requires n < |rs|
    ensures FirstUse(rs, FirstUse(rs, n)) == FirstUse(rs, n)
  {
  }

  lemma UsesAlike(rs: seq<Relo>, n: nat, insns: Bytes, b: Bytes, q: int, es: seq<Event>, k0: nat)
    requires n < |rs| && RepeatedUse(rs, n) && Relocated(rs, insns, b, q, es, k0)
    ensures var k := k0 + |Sought(rs, FirstUse(rs, n))|; k < |es| && es[k].Find? && UsedAlike(rs, n, insns, b, q, es[k].ret)
  {
    hide Sought, FirstUse, Get, Unpatched;
    var f := FirstUse(rs, n);
    FirstOfFirst(rs, n);
    assert ReloDone(rs, n, insns, b, q, es, k0) && ReloDone(rs, f, insns, b, q, es, k0);
  }

  // In every run: when a program is loaded, further uses of a typed variable have become like the
  // first if and only if the lookup's result does not lie in [0, 2^32), given the same src_reg.
  lemma RepeatedVariable(env: Env, cs: seq<Request>, j: nat, es: seq<Event>, ctx: Bytes, i: nat, s: ProgSpec,
    p: Pending, n: nat)
    requires j <= |cs| && j <= |es| && Followed(env, cs, j, es, ctx) && i < j && cs[i] == Do(ProgLoad(s), p)
    requires n < |p.relos| && RepeatedUse(p.relos, n)
    ensures es[i].Bpf? && i >= |Sought(p.relos, |p.relos|)|
    ensures var k := i - |Sought(p.relos, |p.relos|)| + |Sought(p.relos, FirstUse(p.relos, n))|;
      k < i && es[k].Find?
      && exists q: int ::
           Get(AttrOf(es[i]), PROG_INSNS, 8) == U64(env.blobBase + q)
             && UsedAlike(p.relos, n, s.insns, es[i].blob, q, es[k].ret)
  {
    hide Sought, Get, LedgerAfter, UsedAlike, RepeatedUse, Relocated, Like, PointsAt, AttachGiven, Logs;
    var l := LedgerAfter(cs[..i]);
    assert Given(env, cs[i], l, es[..i], ctx, es[i]);
    assert GivenProg(env, s, p, l, es[..i], ctx, es[i]);
    var k0 := i - |Sought(p.relos, |p.relos|)|;
    var q: int :| Relocated(p.relos, s.insns, es[i].blob, q, es[..i], k0)
      && Get(AttrOf(es[i]), PROG_INSNS, 8) == U64(env.blobBase + q);
    UsesAlike(p.relos, n, s.insns, es[i].blob, q, es[..i], k0);
  }
}
