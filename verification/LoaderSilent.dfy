/** Runs without prints and without initial values: each helper call but the first is one event of the
    trace, so a result can be read off the environment by the event's position. */
module LoaderSilent {
  import opened LoaderBytes
  import opened LoaderMachine
  import opened LoaderIR
  import opened LoaderGen
  import opened LoaderShape

  predicate Silent(g: Group) {
    match g
    case DebugRet(dbg) => dbg.NoDbg?
    case DebugPair(dbg) => dbg.NoDbg?
    case DebugR9(dbg) => dbg.NoDbg?
    case CloseStack(_, dbg) => dbg.NoDbg?
    case CloseBlob(_, dbg) => dbg.NoDbg?
    case InitialValue(_, _, _) => false
    case _ => true
  }

  predicate AllSilent(gs: seq<Group>) {
    forall g | g in gs :: Silent(g)
  }

  // The event at position i answers helper call i + 1; call 0 has cleared the stack.
  predicate Answers(env: Env, t: seq<Event>) {
    forall i | 0 <= i < |t| ::
      (t[i].Bpf? ==> t[i].ret == env.bpf(i + 1)) && (t[i].Find? || t[i].Lookup? ==> t[i].ret == env.any(i + 1))
  }

  // As long as nothing faults.
  predicate Traced(env: Env, w: World) {
    w.ok ==> w.calls == |w.trace| + 1 && Answers(env, w.trace)
  }

  lemma AnswersMore(env: Env, t: seq<Event>, e: Event)
    requires Answers(env, t)
    requires e.Bpf? ==> e.ret == env.bpf(|t| + 1)
    requires e.Find? || e.Lookup? ==> e.ret == env.any(|t| + 1)
    ensures Answers(env, t + [e])
  {
  }

  // What memory accesses do to trace and calls: nothing.
  predicate Same(w: World, w2: World) {
    w2.trace == w.trace && w2.calls == w.calls && (w2.ok ==> w.ok)
  }

  lemma SameTraced(env: Env, w: World, w2: World)
    requires Traced(env, w) && Same(w, w2)
    ensures Traced(env, w2)
  {
  }

  lemma StoreSame(env: Env, w: World, p: Val, off: int, n: nat, v: Val)
    ensures Same(w, StoreAt(env, w, p, off, n, v))
  {
    hide Put;
  }

  lemma LoadSame(w: World, p: Val, off: int, n: nat)
    ensures Same(w, LoadAt(w, p, off, n).1)
  {
    hide LoadNum;
  }

  // Groups that make no helper call.
  predicate CallFree(g: Group) {
    !(g.SysCall? || g.FindByName? || g.LookupName? || g.CloseStack? || g.CloseBlob? || g.CloseStackQuiet? || g.InitialValue?)
  }

  lemma MoveSame(env: Env, w: World, from: Val, fromOff: int, to: Val, toOff: int, n: nat)
    ensures Same(w, Move(env, w, from, fromOff, to, toOff, n))
  {
    hide LoadAt, StoreAt;
    LoadSame(w, from, fromOff, n);
    var (v, w1) := LoadAt(w, from, fromOff, n);
    StoreSame(env, w1, to, toOff, n, v);
  }

  lemma HalvesSame(env: Env, w: World, p: Val, off1: int, off2: int, v: Val)
    ensures Same(w, StoreHalves(env, w, p, off1, off2, v))
  {
    hide StoreAt;
    StoreSame(env, w, p, off1, 4, v);
    var w1 := Need(StoreAt(env, w, p, off1, 4, v), v.Num?);
    StoreSame(env, w1, p, off2, 4, Upper(v, 32));
  }

  lemma ClearSame(env: Env, m: M)
    ensures Same(m.w, ClearSrcReg(env, m).w)
  {
    hide LoadAt, StoreAt, And;
    LoadSame(m.w, m.r8, INSN_CODE_END, 1);
    var (v, w) := LoadAt(m.w, m.r8, INSN_CODE_END, 1);
    StoreSame(env, w, m.r8, INSN_CODE_END, 1, Masked(v, SRC_REG_MASK));
  }

  lemma KfuncSame(env: Env, m: M, idx: int, slot: int)
    ensures Same(m.w, KfuncDen(env, m, idx, slot).w)
  {
    hide StoreAt;
    var w0 := Need(m.w, m.r7.Num?);
    StoreSame(env, w0, m.r8, INSN_IMM, 4, Num(0));
    StoreSame(env, StoreAt(env, w0, m.r8, INSN_IMM, 4, Num(0)), m.r8, INSN_OFF, 2, Num(0));
    StoreSame(env, w0, m.r8, INSN_IMM, 4, m.r7);
    var w1, fd := Need(StoreAt(env, w0, m.r8, INSN_IMM, 4, m.r7), m.r7.Num?), Upper(m.r7, 32);
    StoreSame(env, w1, m.r8, INSN_OFF, 2, Num(0));
    StoreSame(env, w1, BlobPtr(slot), 0, 4, fd);
    StoreSame(env, StoreAt(env, w1, BlobPtr(slot), 0, 4, fd), m.r8, INSN_OFF, 2, Num(idx));
  }

  lemma KsymSame(env: Env, m: M)
    ensures Same(m.w, KsymDen(env, m).w)
  {
    hide StoreAt, StoreHalves, ClearSrcReg;
    var m0 := m.(w := Need(m.w, m.r7.Num?));
    HalvesSame(env, m0.w, m.r8, INSN_IMM, INSN_SZ + INSN_IMM, m.r7);
    StoreSame(env, m0.w, m.r8, INSN_IMM, 4, Num(0));
    var w1 := StoreAt(env, m0.w, m.r8, INSN_IMM, 4, Num(0));
    StoreSame(env, w1, m.r8, INSN_SZ + INSN_IMM, 4, Num(0));
    ClearSame(env, m0.(w := StoreAt(env, w1, m.r8, INSN_SZ + INSN_IMM, 4, Num(0))));
  }

  lemma CopySame(env: Env, m: M, off: int, src: int)
    ensures Same(m.w, CopyKsymDen(env, m, off, src).w)
  {
    hide LoadAt, StoreAt, ClearSrcReg;
    LoadSame(m.w, BlobPtr(src), 0, 4);
    var (v, w1) := LoadAt(m.w, BlobPtr(src), 0, 4);
    StoreSame(env, w1, BlobPtr(off), 0, 4, v);
    ClearSame(env, m.(w := StoreAt(env, w1, BlobPtr(off), 0, 4, v)));
  }

  lemma QuietSame(env: Env, g: Group, m: M)
    requires CallFree(g) && Silent(g)
    ensures Same(m.w, Den(env, g, m).m.w)
  {
    hide LoadAt, StoreAt, Move, StoreHalves, ClearSrcReg, KfuncDen, KsymDen, CopyKsymDen;
    match g {
      case RelStore(off, data) => StoreSame(env, m.w, BlobPtr(off), 0, 8, BlobPtr(data));
      case Blob2Blob(off, sz, src) => MoveSame(env, m.w, BlobPtr(src), 0, BlobPtr(off), 0, Width(sz));
      case Blob2Ctx(ctxOff, sz, src) => MoveSame(env, m.w, BlobPtr(src), 0, CtxPtr(0), ctxOff, Width(sz));
      case Ctx2Blob(off, sz, ctxOff, check) =>
        LoadSame(m.w, CtxPtr(0), ctxOff, Width(sz));
        var (v, w1) := LoadAt(m.w, CtxPtr(0), ctxOff, Width(sz));
        StoreSame(env, w1, BlobPtr(off), 0, Width(sz), v);
      case Stack2Blob(off, sz, so) => MoveSame(env, m.w, StackPtr(0), so, BlobPtr(off), 0, Width(sz));
      case Stack2Ctx(ctxOff, sz, so) => MoveSame(env, m.w, StackPtr(0), so, CtxPtr(0), ctxOff, Width(sz));
      case SaveToStack(so) => StoreSame(env, m.w, StackPtr(0), so, 4, m.r7);
      case SaveToBlob(off) => StoreSame(env, m.w, BlobPtr(off), 0, 4, m.r7);
      case SaveAttach(attr) => HalvesSame(env, m.w, BlobPtr(attr), ATTR_ATTACH_BTF_ID, ATTR_ATTACH_BTF_OBJ_FD, m.r7);
      case StoreAddr => HalvesSame(env, m.w, m.r8, INSN_IMM, INSN_SZ + INSN_IMM, m.r9);
      case StoreKfunc(idx, slot) => KfuncSame(env, m, idx, slot);
      case StoreKsym => KsymSame(env, m);
      case CopyKsym(off, src) => CopySame(env, m, off, src);
      case LogKfunc1 =>
        LoadSame(m.w, m.r8, INSN_IMM, 4);
        LoadSame(LoadAt(m.w, m.r8, INSN_IMM, 4).1, m.r8, INSN_OFF, 2);
      case LogKsym1 =>
        LoadSame(m.w, m.r8, INSN_IMM, 4);
        LoadSame(LoadAt(m.w, m.r8, INSN_IMM, 4).1, m.r8, INSN_SZ + INSN_IMM, 2);
      case LogKfunc2(slot) => LoadSame(m.w, BlobPtr(slot), 0, 4);
      case LogKsym2 => LoadSame(m.w, m.r8, INSN_CODE_END, 1);
      case _ =>
    }
  }

  lemma CloseTraced(env: Env, m: M, p: Val, off: int)
    requires Traced(env, m.w)
    ensures Traced(env, LoaderIR.CloseAt(m, p, off, NoDbg).w)
  {
    hide LoadAt;
    LoadSame(m.w, p, off, 4);
    var (fd, w) := LoadAt(m.w, p, off, 4);
    SameTraced(env, m.w, w);
    if w.ok {
      AnswersMore(env, w.trace, Close(fd.v));
    }
  }

  lemma GroupTraced(env: Env, g: Group, m: M)
    requires Silent(g) && Traced(env, m.w)
    ensures Traced(env, Den(env, g, m).m.w)
  {
    if CallFree(g) {
      QuietSame(env, g, m);
      SameTraced(env, m.w, Den(env, g, m).m.w);
    } else {
      hide LoadAt, Put;
      match g {
        case CloseStack(so, _) => CloseTraced(env, m, StackPtr(0), so);
        case CloseBlob(off, _) => CloseTraced(env, m, BlobPtr(off), 0);
        case CloseStackQuiet(so) => CloseTraced(env, m, StackPtr(0), so);
        case SysCall(cmd, attr, n) =>
          var w := Den(env, g, m).m.w;
          if w.ok {
            AnswersMore(env, m.w.trace, w.trace[|m.w.trace|]);
          }
        case FindByName(name, len, kind) =>
          var w := Den(env, g, m).m.w;
          if w.ok {
            AnswersMore(env, m.w.trace, w.trace[|m.w.trace|]);
          }
        case LookupName(name, len, res) => LookupTraced(env, m, name, len, res);
      }
    }
  }

  lemma LookupTraced(env: Env, m: M, name: int, len: int, res: int)
    requires Traced(env, m.w)
    ensures Traced(env, LookupDen(env, m, name, len, res).w)
  {
    hide LoadAt, Put, Fetched;
    var w1 := DoLookup(env, m.w, BlobPtr(name), Num(len), Num(0), BlobPtr(res));
    LoadSame(w1, BlobPtr(res), 0, 8);
    if w1.ok {
      AnswersMore(env, m.w.trace, w1.trace[|m.w.trace|]);
    }
    SameTraced(env, w1, LoadAt(w1, BlobPtr(res), 0, 8).1);
  }

  lemma {:induction false} AllTraced(env: Env, gs: seq<Group>, m: M)
    requires AllSilent(gs) && Traced(env, m.w)
    ensures Traced(env, DenAll(env, gs, m).m.w)
    decreases |gs|
  {
    hide Den, Silent, Traced;
    if gs != [] {
      assert gs[0] in gs && forall g | g in gs[1..] :: g in gs;
      GroupTraced(env, gs[0], m);
      var o := Den(env, gs[0], m);
      if o.Next? {
        AllTraced(env, gs[1..], o.m);
      }
    }
  }
}
