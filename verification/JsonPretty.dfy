/** Pretty and compact text differ only in the space between tokens. */
module JsonPretty {
  import opened JsonText
  import opened JsonRound

  // The text without the space outside of strings.
  function Squeeze(s: string): string
    decreases |s|
  {
    if s == [] then ""
    else if s[0] == '\"' then "\"" + Inside(s[1..])
    else if IsSpace(s[0]) then Squeeze(s[1..])
    else [s[0]] + Squeeze(s[1..])
  }

  // The same from inside a string.
  function Inside(s: string): string
    decreases |s|
  {
    if s == [] then ""
    else if s[0] == '\"' then "\"" + Squeeze(s[1..])
    else if s[0] == '\\' && |s| > 1 then s[..2] + Inside(s[2..])
    else [s[0]] + Inside(s[1..])
  }

  lemma InsideEscape(c: char, more: string)
    ensures Inside(Escape(c) + more) == Escape(c) + Inside(more)
  {
    var e := Escape(c);
    var t := e + more;
    if |e| == 1 {
      assert t[0] == e[0] && t[1..] == more && [t[0]] == e;
    } else {
      assert t[0] == '\\' && t[..2] == e && t[2..] == more;
    }
  }

  lemma {:induction false} InsideString(s: string, rest: string)
    ensures Inside(Escaped(s) + ("\"" + rest)) == Escaped(s) + ("\"" + Squeeze(rest))
  {
    hide Escape;
    var end := "\"" + rest;
    if s == [] {
      assert Escaped(s) + end == end && end[1..] == rest;
      assert Escaped(s) + ("\"" + Squeeze(rest)) == "\"" + Squeeze(rest);
    } else {
      hide Inside, Squeeze;
      InsideString(s[1..], rest);
      var e := Escape(s[0]);
      assert Escaped(s) + end == e + (Escaped(s[1..]) + end);
      InsideEscape(s[0], Escaped(s[1..]) + end);
      assert e + (Escaped(s[1..]) + ("\"" + Squeeze(rest))) == Escaped(s) + ("\"" + Squeeze(rest));
    }
  }

  lemma SqueezeQuote(s: string, rest: string)
    ensures Squeeze(Quote(s) + rest) == Quote(s) + Squeeze(rest)
  {
    hide Escaped, Inside;
    var inner := Escaped(s) + ("\"" + rest);
    InsideString(s, rest);
    assert Quote(s) + rest == "\"" + inner;
    AtQuote(inner);
    assert Quote(s) + Squeeze(rest) == "\"" + (Escaped(s) + ("\"" + Squeeze(rest)));
  }

  lemma AtQuote(more: string)
    ensures Squeeze("\"" + more) == "\"" + Inside(more)
  {
    assert ("\"" + more)[1..] == more;
  }

  // Characters that are neither space nor a quote stay.
  predicate Solid(s: string) {
    forall c | c in s :: !IsSpace(c) && c != '\"'
  }

  lemma {:induction false} SqueezeSolid(s: string, rest: string)
    requires Solid(s)
    ensures Squeeze(s + rest) == s + Squeeze(rest)
  {
    if s == [] {
      assert s + rest == rest && s + Squeeze(rest) == Squeeze(rest);
    } else {
      assert s[0] in s && forall c | c in s[1..] :: c in s;
      SqueezeSolid(s[1..], rest);
      assert (s + rest)[1..] == s[1..] + rest && [s[0]] + (s[1..] + Squeeze(rest)) == s + Squeeze(rest);
    }
  }

  lemma {:induction false} SqueezeSpace(s: string, rest: string)
    requires forall c | c in s :: IsSpace(c)
    ensures Squeeze(s + rest) == Squeeze(rest)
  {
    if s == [] {
      assert s + rest == rest;
    } else {
      assert s[0] in s && forall c | c in s[1..] :: c in s;
      SqueezeSpace(s[1..], rest);
      assert (s + rest)[1..] == s[1..] + rest;
    }
  }

  lemma {:induction false} EolIsSpace(depth: nat, pretty: bool)
    ensures forall c | c in Indent(depth) :: IsSpace(c)
    ensures forall c | c in Eol(depth, pretty) :: IsSpace(c)
  {
    if depth > 0 {
      EolIsSpace(depth - 1, pretty);
    }
  }

  // --- numbers hold neither

  predicate InNumber(c: char) {
    IsDigit(c) || c in ['-', '+', '.', 'e', 'E']
  }

  lemma NumberChars(lit: string)
    requires IsNumber(lit)
    ensures forall c | c in lit :: InNumber(c)
  {
    hide Digits;
    var a := ScanInt(lit).value;
    var b := ScanFrac(lit, a).value;
    forall k | 0 <= k < |lit| ensures InNumber(lit[k]) {
      if k >= b {
        ExpChars(lit, b, k);
      } else if k >= a {
        FracChars(lit, a, k);
      } else {
        IntChars(lit, k);
      }
    }
  }

  lemma NumberSolid(lit: string)
    requires IsNumber(lit)
    ensures Solid(lit)
  {
    NumberChars(lit);
  }

  lemma IntChars(s: string, k: nat)
    requires ScanInt(s).Some? && k < ScanInt(s).value
    ensures InNumber(s[k])
  {
  }

  lemma FracChars(s: string, i: nat, k: nat)
    requires i <= |s| && ScanFrac(s, i).Some? && i <= k < ScanFrac(s, i).value
    ensures InNumber(s[k])
  {
  }

  lemma ExpChars(s: string, i: nat, k: nat)
    requires i <= |s| && ScanExp(s, i).Some? && i <= k < ScanExp(s, i).value
    ensures InNumber(s[k])
  {
  }

  // --- trees

  lemma {:induction false} SqueezeText(v: Json, d: nat, rest: string)
    requires NumbersOk(v)
    ensures Squeeze(Text(v, d, true) + rest) == Text(v, d, false) + Squeeze(rest)
    decreases v, 0
  {
    hide Elems, Members, Squeeze, Quote;
    match v
    case Null => SqueezeSolid("null", rest);
    case Bool(b) => SqueezeSolid(if b then "true" else "false", rest);
    case Num(lit) =>
      NumberSolid(lit);
      SqueezeSolid(lit, rest);
    case Str(s) => SqueezeQuote(s, rest);
    case Arr(vs) => SqueezeBlock("[", Elems(vs, d + 1, true), Elems(vs, d + 1, false), |vs|, d, "]", rest) by {
      SqueezeElems(vs, d + 1, End(|vs|, d, true) + "]" + rest);
    }
    case Obj(ms) => SqueezeBlock("{", Members(ms, d + 1, true), Members(ms, d + 1, false), |ms|, d, "}", rest) by {
      SqueezeMembers(ms, d + 1, End(|ms|, d, true) + "}" + rest);
    }
  }

  // Brackets around something that has been dealt with.
  lemma SqueezeBlock(open_: string, inner: string, inner2: string, n: nat, d: nat, close: string, rest: string)
    requires Solid(open_) && Solid(close)
    requires var tail := End(n, d, true) + close + rest; Squeeze(inner + tail) == inner2 + Squeeze(tail)
    ensures Squeeze(open_ + inner + End(n, d, true) + close + rest) == open_ + inner2 + End(n, d, false) + close + Squeeze(rest)
  {
    hide Squeeze, End;
    var e := End(n, d, true);
    var tail := e + close + rest;
    assert open_ + inner + e + close + rest == open_ + (inner + tail);
    SqueezeSolid(open_, inner + tail);
    assert tail == e + (close + rest);
    EndSpace(n, d, close + rest);
    SqueezeSolid(close, rest);
    assert End(n, d, false) == "" by { EndCompact(n, d); }
    assert open_ + inner2 + "" + close + Squeeze(rest) == open_ + (inner2 + (close + Squeeze(rest)));
  }

  lemma EndCompact(n: nat, d: nat)
    ensures End(n, d, false) == ""
  {
  }

  lemma EndSpace(n: nat, d: nat, s: string)
    ensures Squeeze(End(n, d, true) + s) == Squeeze(s)
  {
    hide Squeeze;
    EolIsSpace(d, true);
    SqueezeSpace(End(n, d, true), s);
  }

  lemma {:induction false} SqueezeElems(vs: seq<Json>, d: nat, rest: string)
    requires forall x | x in vs :: NumbersOk(x)
    ensures Squeeze(Elems(vs, d, true) + rest) == Elems(vs, d, false) + Squeeze(rest)
    decreases vs, 1
  {
    hide Text, Squeeze;
    if vs == [] {
      assert Elems(vs, d, true) + rest == rest && Elems(vs, d, false) + Squeeze(rest) == Squeeze(rest);
    } else {
      assert vs[0] in vs;
      var a, b := Text(vs[0], d, true), Text(vs[0], d, false);
      if |vs| == 1 {
        assert Elems(vs, d, true) == a && Elems(vs, d, false) == b;
        SqueezeText(vs[0], d, rest);
      } else {
        assert forall x | x in vs[1..] :: x in vs;
        var more := Elems(vs[1..], d, true) + rest;
        assert Elems(vs, d, true) + rest == a + ("," + more);
        SqueezeText(vs[0], d, "," + more);
        SqueezeSolid(",", more);
        SqueezeElems(vs[1..], d, rest);
        assert b + ("," + (Elems(vs[1..], d, false) + Squeeze(rest))) == Elems(vs, d, false) + Squeeze(rest);
      }
    }
  }

  lemma {:induction false} SqueezePair(m: Member, d: nat, rest: string)
    requires NumbersOk(m.value)
    ensures Squeeze(Pair(m, d, true) + rest) == Pair(m, d, false) + Squeeze(rest)
    decreases m, 0
  {
    hide Text, Squeeze, Quote;
    var value := Text(m.value, d, true) + rest;
    assert Pair(m, d, true) + rest == Eol(d, true) + (Quote(m.name) + (":" + (" " + value)));
    EolIsSpace(d, true);
    SqueezeSpace(Eol(d, true), Quote(m.name) + (":" + (" " + value)));
    SqueezeQuote(m.name, ":" + (" " + value));
    SqueezeSolid(":", " " + value);
    SqueezeSpace(" ", value);
    SqueezeText(m.value, d, rest);
    assert Quote(m.name) + (":" + (Text(m.value, d, false) + Squeeze(rest))) == Pair(m, d, false) + Squeeze(rest);
  }

  lemma {:induction false} SqueezeMembers(ms: seq<Member>, d: nat, rest: string)
    requires forall m | m in ms :: NumbersOk(m.value)
    ensures Squeeze(Members(ms, d, true) + rest) == Members(ms, d, false) + Squeeze(rest)
    decreases ms, 1
  {
    hide Pair, Squeeze;
    if ms == [] {
      assert Members(ms, d, true) + rest == rest && Members(ms, d, false) + Squeeze(rest) == Squeeze(rest);
    } else {
      assert ms[0] in ms;
      var a, b := Pair(ms[0], d, true), Pair(ms[0], d, false);
      if |ms| == 1 {
        assert Members(ms, d, true) == a && Members(ms, d, false) == b;
        SqueezePair(ms[0], d, rest);
      } else {
        assert forall m | m in ms[1..] :: m in ms;
        var more := Members(ms[1..], d, true) + rest;
        assert Members(ms, d, true) + rest == a + ("," + more);
        SqueezePair(ms[0], d, "," + more);
        SqueezeSolid(",", more);
        SqueezeMembers(ms[1..], d, rest);
        assert b + ("," + (Members(ms[1..], d, false) + Squeeze(rest))) == Members(ms, d, false) + Squeeze(rest);
      }
    }
  }

  // Without the space between tokens, the pretty text of a tree is the compact one.
  lemma PrettyIsSpace(v: Json, d: nat)
    requires NumbersOk(v)
    ensures Squeeze(Text(v, d, true)) == Text(v, d, false)
  {
    SqueezeText(v, d, "");
    assert Text(v, d, true) + "" == Text(v, d, true) && Text(v, d, false) + "" == Text(v, d, false);
    assert Squeeze("") == "";
  }
}
