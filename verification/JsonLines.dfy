/** The lines of pretty text: each starts a member or a closing bracket, with four spaces for every
    bracket that is open around it. */
module JsonLines {
  import opened JsonText
  import opened JsonRound
  import opened JsonPretty

  // Lines that start with a member's name, and with a closing bracket; Bad if a line starts otherwise.
  datatype Lines = Bad | Good(names: nat, closings: nat)

  function Plus(l: Lines, names: nat, closings: nat): Lines {
    if l.Bad? then Bad else Good(l.names + names, l.closings + closings)
  }

  predicate Opens(c: char) { c == '[' || c == '{' }

  predicate Closes(c: char) { c == ']' || c == '}' }

  function Spaces(s: string): (n: nat)
    ensures n <= |s|
  {
    if s != [] && s[0] == ' ' then 1 + Spaces(s[1..]) else 0
  }

  // The lines that begin in s, which stands behind k open brackets and outside of strings.
  function LinesOf(s: string, k: int): Lines
    decreases |s|
  {
    if s == [] then Good(0, 0)
    else if s[0] == '\"' then LinesIn(s[1..], k)
    else if Opens(s[0]) then LinesOf(s[1..], k + 1)
    else if Closes(s[0]) then LinesOf(s[1..], k - 1)
    else if s[0] == '\n' then
      var n, rest := Spaces(s[1..]), LinesOf(s[1..], k);
      if n == |s| - 1 then Bad
      else if s[1 + n] == '\"' && n == 4 * k then Plus(rest, 1, 0)
      else if Closes(s[1 + n]) && n == 4 * (k - 1) then Plus(rest, 0, 1)
      else Bad
    else if s[0] == ':' && !OneSpaceBehind(s) then Bad
    else LinesOf(s[1..], k)
  }

  predicate OneSpaceBehind(s: string) {
    |s| > 2 && s[1] == ' ' && s[2] != ' '
  }

  // The same from inside a string.
  function LinesIn(s: string, k: int): Lines
    decreases |s|
  {
    if s == [] then Good(0, 0)
    else if s[0] == '\"' then LinesOf(s[1..], k)
    else if s[0] == '\\' && |s| > 1 then LinesIn(s[2..], k)
    else LinesIn(s[1..], k)
  }

  // --- what a tree should have

  function Names(v: Json): nat {
    match v
    case Arr(vs) => NamesIn(vs)
    case Obj(ms) => NamesOf(ms)
    case _ => 0
  }

  function NamesIn(vs: seq<Json>): nat {
    if vs == [] then 0 else Names(vs[0]) + NamesIn(vs[1..])
  }

  function NamesOf(ms: seq<Member>): nat {
    if ms == [] then 0 else 1 + Names(ms[0].value) + NamesOf(ms[1..])
  }

  // Collections that are not empty.
  function Blocks(v: Json): nat {
    match v
    case Arr(vs) => (if vs == [] then 0 else 1) + BlocksIn(vs)
    case Obj(ms) => (if ms == [] then 0 else 1) + BlocksOf(ms)
    case _ => 0
  }

  function BlocksIn(vs: seq<Json>): nat {
    if vs == [] then 0 else Blocks(vs[0]) + BlocksIn(vs[1..])
  }

  function BlocksOf(ms: seq<Member>): nat {
    if ms == [] then 0 else Blocks(ms[0].value) + BlocksOf(ms[1..])
  }

  // --- pieces of text

  predicate Inert(s: string) {
    forall c | c in s :: c != '\"' && c != '\n' && c != ':' && !Opens(c) && !Closes(c)
  }

  lemma {:induction false} InertLines(s: string, rest: string, k: int)
    requires Inert(s)
    ensures LinesOf(s + rest, k) == LinesOf(rest, k)
  {
    if s == [] {
      assert s + rest == rest;
    } else {
      assert s[0] in s && forall c | c in s[1..] :: c in s;
      InertLines(s[1..], rest, k);
      assert (s + rest)[1..] == s[1..] + rest;
    }
  }

  lemma EscapeLines(c: char, rest: string, k: int)
    ensures LinesIn(Escape(c) + rest, k) == LinesIn(rest, k)
  {
    var e := Escape(c);
    if |e| == 1 {
      assert (e + rest)[0] == e[0] && (e + rest)[1..] == rest;
    } else {
      assert (e + rest)[0] == '\\' && (e + rest)[2..] == rest;
    }
  }

  lemma {:induction false} StringLines(s: string, rest: string, k: int)
    ensures LinesIn(Escaped(s) + ("\"" + rest), k) == LinesOf(rest, k)
  {
    hide Escape;
    var end := "\"" + rest;
    if s == [] {
      assert Escaped(s) + end == end && end[1..] == rest;
    } else {
      StringLines(s[1..], rest, k);
      assert Escaped(s) + end == Escape(s[0]) + (Escaped(s[1..]) + end);
      EscapeLines(s[0], Escaped(s[1..]) + end, k);
    }
  }

  lemma QuoteLines(s: string, rest: string, k: int)
    ensures LinesOf(Quote(s) + rest, k) == LinesOf(rest, k)
  {
    hide Escaped, LinesIn;
    StringLines(s, rest, k);
    var t := "\"" + (Escaped(s) + ("\"" + rest));
    assert Quote(s) + rest == t && t[1..] == Escaped(s) + ("\"" + rest);
  }

  lemma BracketLines(c: char, rest: string, k: int)
    requires Opens(c) || Closes(c)
    ensures LinesOf([c] + rest, k) == LinesOf(rest, if Opens(c) then k + 1 else k - 1)
  {
    assert ([c] + rest)[1..] == rest;
  }

  lemma {:induction false} IndentIs(d: nat, rest: string)
    requires rest != [] && rest[0] != ' '
    ensures |Indent(d)| == 4 * d && Inert(Indent(d)) && Spaces(Indent(d) + rest) == 4 * d
  {
    if d == 0 {
      assert Indent(0) + rest == rest;
    } else {
      IndentIs(d - 1, rest);
      FourSpaces(Indent(d - 1) + rest);
      assert Indent(d) + rest == "    " + (Indent(d - 1) + rest);
      assert forall c | c in Indent(d) :: c in "    " || c in Indent(d - 1);
    }
  }

  lemma OneSpace(s: string)
    ensures Spaces(" " + s) == 1 + Spaces(s)
  {
    assert (" " + s)[1..] == s;
  }

  lemma FourSpaces(s: string)
    ensures Spaces("    " + s) == 4 + Spaces(s)
  {
    hide Spaces;
    OneSpace(s);
    OneSpace(" " + s);
    OneSpace("  " + s);
    OneSpace("   " + s);
    assert " " + (" " + s) == "  " + s && " " + ("  " + s) == "   " + s && " " + ("   " + s) == "    " + s;
  }

  // A line that starts with n spaces.
  lemma BreakLines(t: string, n: nat, k: int)
    requires n == Spaces(t) < |t|
    ensures LinesOf("\n" + t, k) ==
      if t[n] == '\"' && n == 4 * k then Plus(LinesOf(t, k), 1, 0)
      else if Closes(t[n]) && n == 4 * (k - 1) then Plus(LinesOf(t, k), 0, 1) else Bad
  {
    var s := "\n" + t;
    assert s[1..] == t && s[1 + n] == t[n];
  }

  // A line end before a member or a closing bracket.
  lemma EolLines(d: nat, rest: string, k: int)
    requires rest != [] && ((rest[0] == '\"' && k == d) || (Closes(rest[0]) && k == d + 1))
    ensures LinesOf(Eol(d, true) + rest, k) ==
      if rest[0] == '\"' then Plus(LinesOf(rest, k), 1, 0) else Plus(LinesOf(rest, k), 0, 1)
  {
    hide LinesOf, Indent, Spaces, Inert;
    IndentIs(d, rest);
    var t := Indent(d) + rest;
    assert Eol(d, true) + rest == "\n" + t;
    assert t[4 * d] == rest[0];
    BreakLines(t, 4 * d, k);
    InertLines(Indent(d), rest, k);
  }

  lemma NumberInert(lit: string)
    requires IsNumber(lit)
    ensures Inert(lit)
  {
    NumberChars(lit);
  }

  lemma PlusPlus(l: Lines, a: nat, b: nat, c: nat, d: nat)
    ensures Plus(Plus(l, a, b), c, d) == Plus(l, a + c, b + d) && Plus(l, 0, 0) == l
  {
  }

  // A value does not start with a space.
  lemma TextStarts(v: Json, d: nat)
    requires NumbersOk(v)
    ensures Text(v, d, true) != [] && Text(v, d, true)[0] != ' '
  {
    hide Elems, Members, End, Escaped;
    if v.Num? {
      NumberChars(v.lit);
      assert v.lit != [] by { NumberNotEmpty(v.lit); }
      assert v.lit[0] in v.lit;
    }
  }

  lemma NumberNotEmpty(lit: string)
    requires IsNumber(lit)
    ensures lit != []
  {
  }

  lemma ColonLines(value: string, rest: string, k: int)
    requires value != [] && value[0] != ' '
    ensures LinesOf(": " + (value + rest), k) == LinesOf(value + rest, k)
  {
    var t := value + rest;
    var s := ": " + t;
    assert s[1..] == " " + t && s[1..][1..] == t && s[2] == value[0];
  }

  // --- trees

  lemma {:induction false} TextLines(v: Json, d: nat, rest: string)
    requires NumbersOk(v)
    ensures LinesOf(Text(v, d, true) + rest, d) == Plus(LinesOf(rest, d), Names(v), Blocks(v))
    decreases v, 0
  {
    hide Elems, Members, LinesOf, Quote, Eol;
    match v
    case Null => InertLines("null", rest, d);
    case Bool(b) => InertLines(if b then "true" else "false", rest, d);
    case Num(lit) =>
      NumberInert(lit);
      InertLines(lit, rest, d);
    case Str(s) => QuoteLines(s, rest, d);
    case Arr(vs) =>
      ElemsLines(vs, d + 1, End(|vs|, d, true) + "]" + rest);
      BlockLines('[', Elems(vs, d + 1, true), |vs|, d, ']', rest, NamesIn(vs), BlocksIn(vs));
    case Obj(ms) =>
      MembersLines(ms, d + 1, End(|ms|, d, true) + "}" + rest);
      BlockLines('{', Members(ms, d + 1, true), |ms|, d, '}', rest, NamesOf(ms), BlocksOf(ms));
  }

  // Brackets around something that has been dealt with.
  lemma BlockLines(open_: char, inner: string, n: nat, d: nat, close: char, rest: string, names: nat, blocks: nat)
    requires Opens(open_) && Closes(close)
    requires var tail := End(n, d, true) + [close] + rest;
      LinesOf(inner + tail, d + 1) == Plus(LinesOf(tail, d + 1), names, blocks)
    ensures LinesOf([open_] + inner + End(n, d, true) + [close] + rest, d) ==
      Plus(LinesOf(rest, d), names, (if n == 0 then 0 else 1) + blocks)
  {
    hide LinesOf, End;
    var tail := End(n, d, true) + [close] + rest;
    assert [open_] + inner + End(n, d, true) + [close] + rest == [open_] + (inner + tail);
    BracketLines(open_, inner + tail, d);
    EndLines(n, d, close, rest);
    PlusPlus(LinesOf(rest, d), 0, if n == 0 then 0 else 1, names, blocks);
  }

  lemma EndLines(n: nat, d: nat, c: char, rest: string)
    requires Closes(c)
    ensures LinesOf(End(n, d, true) + [c] + rest, d + 1) == Plus(LinesOf(rest, d), 0, if n == 0 then 0 else 1)
  {
    hide LinesOf, Eol;
    BracketLines(c, rest, d + 1);
    PlusPlus(LinesOf(rest, d), 0, 0, 0, 0);
    if n == 0 {
      assert End(n, d, true) + [c] + rest == [c] + rest;
    } else {
      assert End(n, d, true) + [c] + rest == Eol(d, true) + ([c] + rest);
      EolLines(d, [c] + rest, d + 1);
    }
  }

  lemma {:induction false} ElemsLines(vs: seq<Json>, d: nat, rest: string)
    requires forall x | x in vs :: NumbersOk(x)
    ensures LinesOf(Elems(vs, d, true) + rest, d) == Plus(LinesOf(rest, d), NamesIn(vs), BlocksIn(vs))
    decreases vs, 1
  {
    hide Text, LinesOf;
    if vs == [] {
      assert Elems(vs, d, true) + rest == rest;
    } else {
      assert vs[0] in vs;
      if |vs| == 1 {
        assert Elems(vs, d, true) == Text(vs[0], d, true) && vs[1..] == [];
        TextLines(vs[0], d, rest);
      } else {
        assert forall x | x in vs[1..] :: x in vs;
        var more := Elems(vs[1..], d, true) + rest;
        assert Elems(vs, d, true) + rest == Text(vs[0], d, true) + ("," + more);
        TextLines(vs[0], d, "," + more);
        InertLines(",", more, d);
        ElemsLines(vs[1..], d, rest);
        PlusPlus(LinesOf(rest, d), NamesIn(vs[1..]), BlocksIn(vs[1..]), Names(vs[0]), Blocks(vs[0]));
      }
    }
  }

  lemma {:induction false} PairLines(m: Member, d: nat, rest: string)
    requires NumbersOk(m.value)
    ensures LinesOf(Pair(m, d, true) + rest, d) == Plus(LinesOf(rest, d), 1 + Names(m.value), Blocks(m.value))
    decreases m, 0
  {
    hide Text, LinesOf, Escaped, Eol;
    var value := Text(m.value, d, true) + rest;
    var after := ": " + value;
    assert Pair(m, d, true) + rest == Eol(d, true) + (Quote(m.name) + after);
    EolLines(d, Quote(m.name) + after, d);
    QuoteLines(m.name, after, d);
    TextStarts(m.value, d);
    ColonLines(Text(m.value, d, true), rest, d);
    TextLines(m.value, d, rest);
    PlusPlus(LinesOf(rest, d), Names(m.value), Blocks(m.value), 1, 0);
  }

  lemma {:induction false} MembersLines(ms: seq<Member>, d: nat, rest: string)
    requires forall m | m in ms :: NumbersOk(m.value)
    ensures LinesOf(Members(ms, d, true) + rest, d) == Plus(LinesOf(rest, d), NamesOf(ms), BlocksOf(ms))
    decreases ms, 1
  {
    hide Pair, LinesOf;
    if ms == [] {
      assert Members(ms, d, true) + rest == rest;
    } else {
      assert ms[0] in ms;
      if |ms| == 1 {
        assert Members(ms, d, true) == Pair(ms[0], d, true) && ms[1..] == [];
        PairLines(ms[0], d, rest);
      } else {
        assert forall m | m in ms[1..] :: m in ms;
        var more := Members(ms[1..], d, true) + rest;
        assert Members(ms, d, true) + rest == Pair(ms[0], d, true) + ("," + more);
        PairLines(ms[0], d, "," + more);
        InertLines(",", more, d);
        MembersLines(ms[1..], d, rest);
        PlusPlus(LinesOf(rest, d), NamesOf(ms[1..]), BlocksOf(ms[1..]), 1 + Names(ms[0].value), Blocks(ms[0].value));
      }
    }
  }

  // In the pretty text of a tree every line but the first starts a member or a closing bracket, with four
  // spaces for each bracket around it; every member starts a line, every collection that is not empty
  // closes on one of its own, and one space stands behind each colon.
  lemma PrettyLines(v: Json)
    requires NumbersOk(v)
    ensures LinesOf(Text(v, 0, true), 0) == Good(Names(v), Blocks(v))
  {
    TextLines(v, 0, "");
    assert Text(v, 0, true) + "" == Text(v, 0, true);
  }
}
