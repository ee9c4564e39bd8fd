/** What is closed behind the command that loads a program: the descriptor of each of its symbols, in
    the order of their first uses, then the attach target's. */
module LoaderClose {
  import opened LoaderBytes
  import opened LoaderMachine
  import opened LoaderIR
  import opened LoaderGen
  import opened LoaderShape
  import opened LoaderLedger
  import opened LoaderFollow
  import opened LoaderSave
  import opened LoaderRelos
  import opened LoaderProg

  lemma CloseBlobAt(cfg: Config, g: Gen, off: int) returns (dbg: Dbg)
    requires EmitCloseBlob(cfg, g, off).Live?
    ensures g.Live?
    ensures var g' := EmitCloseBlob(cfg, g, off);
      DbgIn(dbg, |g'.data|) && g.data <= g'.data && g' == g.(groups := g.groups + [CloseBlob(off, dbg)],
        data := g'.data, pieces := g'.pieces)
  {
    hide Emit, AddDebug;
    var (g1, d) := AddDebug(cfg, g, MsgClose, false);
    EmitAt(cfg, g1, CloseBlob(off, d));
    AddDebugAt(cfg, g, MsgClose, false);
    dbg := d;
  }

  lemma CleanupKsymAt(cfg: Config, g: Gen, k: Ksym) returns (more: seq<Group>, dbg: Dbg)
    requires CleanupKsym(cfg, g, k).Live?
    ensures g.Live?
    ensures var g' := CleanupKsym(cfg, g, k);
      g.data <= g'.data && DbgIn(dbg, |g'.data|) && more == (if Closes(k) then [CloseBlob(LocOf(k), dbg)] else [])
      && g' == g.(groups := g.groups + more, data := g'.data, pieces := g'.pieces, nrFdArray := g'.nrFdArray)
  {
    hide EmitCloseBlob;
    more, dbg := [], NoDbg;
    if Closes(k) {
      dbg := CloseBlobAt(cfg, g, LocOf(k));
      more := [CloseBlob(LocOf(k), dbg)];
    } else {
      assert g.groups + [] == g.groups;
    }
  }

  lemma {:induction false} CleanupSnoc(cfg: Config, g: Gen, ks: seq<Ksym>, k: Ksym)
    ensures CleanupKsyms(cfg, g, ks + [k]) == CleanupKsym(cfg, CleanupKsyms(cfg, g, ks), k)
    decreases |ks|
  {
    hide CleanupKsym;
    if ks == [] {
      assert CleanupKsyms(cfg, g, [k]) == CleanupKsyms(cfg, CleanupKsym(cfg, g, k), []);
    } else {
      assert (ks + [k])[0] == ks[0] && (ks + [k])[1..] == ks[1..] + [k];
      CleanupSnoc(cfg, CleanupKsym(cfg, g, ks[0]), ks[1..], k);
    }
  }

  // Closing what a place holds, or leaving a place that holds nothing.
  lemma ShutMore(m0: M, m: M, m2: M, es: seq<Event>, script: seq<Step>, places: seq<Source>, a: Source)
    requires Closing(m0, m, es, script + Shuts(places)) && m2.r7 == m.r7 && Closed(m.w, m2.w, Fd(es, a))
    ensures Closing(m0, m2, es, script + Shuts(places + [a]))
  {
    hide Play, Calls, Shuts, Fd;
    ShutOne(m.w, m2.w, es, script + Shuts(places), a);
    ShutsSnoc(places, a);
    assert script + Shuts(places) + [Shut(a)] == script + Shuts(places + [a]);
  }

  lemma BlobClose(env: Env, m: M, off: int, dbg: Dbg)
    requires m.w.ok && DbgIn(dbg, |m.w.blob|) && InRange(m.w.blob, off, 4)
    ensures var o := Den(env, CloseBlob(off, dbg), m); o.Next? && o.m.r7 == m.r7 && Closed(m.w, o.m.w, Get(m.w.blob, off, 4))
  {
    hide Get;
    CloseWord(m, BlobPtr(off), 0, m.w.blob, off, dbg);
  }

  // Every symbol's word lies in the blob.
  predicate LocsIn(ks: seq<Ksym>, size: nat) {
    forall i | 0 <= i < |ks| :: Closes(ks[i]) ==> 0 <= LocOf(ks[i]) && LocOf(ks[i]) + 4 <= size
  }

  lemma {:induction false} KsymsClosed(env: Env, cfg: Config, g: Gen, ks: seq<Ksym>, n: nat, m: M, l: Ledger, es: seq<Event>,
    script: seq<Step>) returns (more: seq<Group>)
    requires n <= |ks| && CleanupKsyms(cfg, g, ks[..n]).Live? && |CleanupKsyms(cfg, g, ks[..n]).data| <= |m.w.blob|
    requires m.w.ok && Held(ks, m.w.blob, l, es) && LocsIn(ks, |m.w.blob|)
    requires Calls(m.w.trace) == es && m.w.trace == Play(es, script)
    ensures g.Live?
    ensures var g' := CleanupKsyms(cfg, g, ks[..n]);
      g'.groups == g.groups + more && g.data <= g'.data
        && g' == g.(groups := g'.groups, data := g'.data, pieces := g'.pieces, nrFdArray := g'.nrFdArray)
      && DenAll(env, more, m).Next? && Closing(m, DenAll(env, more, m).m, es, script + Shuts(l.held[..n]))
    decreases n
  {
    hide DenAll, Calls, Play, CleanupKsym, Fd, Get, Shuts, Den;
    if n == 0 {
      more := [];
      assert g.groups + [] == g.groups && ks[..0] == [] && l.held[..0] == [];
      ClosingNone(m, es, script);
      DenNone(env, m);
    } else {
      var i := n - 1;
      var k := ks[i];
      assert ks[..n] == ks[..i] + [k] && l.held[..n] == l.held[..i] + [l.held[i]];
      CleanupSnoc(cfg, g, ks[..i], k);
      var g1 := CleanupKsyms(cfg, g, ks[..i]);
      var tail, dbg := CleanupKsymAt(cfg, g1, k);
      var head := KsymsClosed(env, cfg, g, ks, i, m, l, es, script);
      PrefixTrans(g.data, g1.data, CleanupKsym(cfg, g1, k).data);
      more := head + tail;
      var m1 := DenAll(env, head, m).m;
      assert HoldsFor(k, m.w.blob, es, l.held[i]);
      if Closes(k) {
        DenSnoc(env, head, tail[0], m);
        BlobClose(env, m1, LocOf(k), dbg);
        ShutMore(m, m1, DenAll(env, more, m).m, es, script, l.held[..i], l.held[i]);
      } else {
        assert more == head;
        NoClose(es, m1.w);
        ShutMore(m, m1, m1, es, script, l.held[..i], l.held[i]);
      }
    }
  }

  lemma NoClose(es: seq<Event>, w: World)
    ensures Closed(w, w, Fd(es, Nowhere))
  {
  }

  lemma CloseAttachAt(cfg: Config, g: Gen, attr: int) returns (more: seq<Group>, dbg: Dbg)
    requires CloseAttach(cfg, g, attr).Live?
    ensures g.Live?
    ensures var g' := CloseAttach(cfg, g, attr);
      g.data <= g'.data && DbgIn(dbg, |g'.data|)
      && more == (if g.attachKind != 0 then [CloseBlob(attr + ATTR_ATTACH_BTF_OBJ_FD, dbg)] else [])
      && g' == g.(groups := g.groups + more, data := g'.data, pieces := g'.pieces, attachKind := 0)
  {
    hide EmitCloseBlob;
    more, dbg := [], NoDbg;
    if g.attachKind != 0 {
      dbg := CloseBlobAt(cfg, g, attr + ATTR_ATTACH_BTF_OBJ_FD);
      more := [CloseBlob(attr + ATTR_ATTACH_BTF_OBJ_FD, dbg)];
    } else {
      assert g.groups + [] == g.groups;
    }
  }

  // Everything the program's symbols and its attach target obtained is closed.
  lemma AllShut(env: Env, cfg: Config, q: Load, g: Gen, m: M, l: Ledger, es: seq<Event>, script: seq<Step>)
    returns (more: seq<Group>)
    requires g.Live? && var g2 := CloseAttach(cfg, CleanupRelos(cfg, g), q.at.attr); g2.Live? && |g2.data| <= |m.w.blob|
    requires g.attachKind == q.pend.attachKind
    requires m.w.ok && Held(g.ksyms, m.w.blob, l, es) && LocsIn(g.ksyms, |m.w.blob|) && Attached(q, m.w.blob, l, es)
    requires 0 <= q.at.attr && q.at.attr + PROG_ATTR_SZ <= |m.w.blob|
    requires Calls(m.w.trace) == es && m.w.trace == Play(es, script)
    ensures var g2 := CloseAttach(cfg, CleanupRelos(cfg, g), q.at.attr);
      g2.groups == g.groups + more && g.data <= g2.data
      && g2 == g.(groups := g2.groups, data := g2.data, pieces := g2.pieces, nrFdArray := g2.nrFdArray,
        ksyms := [], relos := [], coreRelos := [],
        attachKind := 0)
      && DenAll(env, more, m).Next? && Closing(m, DenAll(env, more, m).m, es, script + Shuts(l.held + [l.attach]))
  {
    hide DenAll, Calls, Play, CleanupKsyms, Fd, Get, Shuts, Den, CloseAttach, LocsIn;
    var ks := g.ksyms;
    assert ks[..|ks|] == ks;
    var g1 := CleanupRelos(cfg, g);
    var tail, dbg := CloseAttachAt(cfg, g1, q.at.attr);
    var head := KsymsClosed(env, cfg, g, ks, |ks|, m, l, es, script);
    assert l.held[..|ks|] == l.held;
    PrefixTrans(g.data, g1.data, CloseAttach(cfg, g1, q.at.attr).data);
    more := head + tail;
    var m1 := DenAll(env, head, m).m;
    if q.pend.attachKind != 0 {
      DenSnoc(env, head, tail[0], m);
      BlobClose(env, m1, q.at.attr + ATTR_ATTACH_BTF_OBJ_FD, dbg);
      ShutMore(m, m1, DenAll(env, more, m).m, es, script, l.held, l.attach);
    } else {
      assert more == head;
      NoClose(es, m1.w);
      ShutMore(m, m1, m1, es, script, l.held, l.attach);
    }
  }
}
