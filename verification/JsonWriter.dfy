/** The streaming writer: every call appends to the output and updates depth and separator, and the
    calls for a tree produce exactly its text. */
module JsonWriter {
  import opened JsonText
  import opened JsonRound

  const NUL: char := '\0'

  // --- numbers as printf prints them

  function DigitChar(d: nat): char
    requires d < 10
  {
    ('0' as int + d) as char
  }

  function Decimal(n: nat): (s: string)
    ensures s != []
  {
    if n < 10 then [DigitChar(n)] else Decimal(n / 10) + [DigitChar(n % 10)]
  }

  function Signed(i: int): string {
    if i < 0 then "-" + Decimal(-i) else Decimal(i)
  }

  // The number a literal stands for.
  function NatValue(s: string): nat
    requires forall c | c in s :: IsDigit(c)
  {
    if s == [] then 0 else
    var n := |s| - 1;
    assert s[n] in s && IsDigit(s[n]) && forall c | c in s[..n] :: c in s;
    NatValue(s[..n]) * 10 + (s[n] as int - '0' as int)
  }

  lemma {:induction false} DecimalDigits(n: nat)
    ensures forall c | c in Decimal(n) :: IsDigit(c)
    ensures Decimal(n)[0] == '0' <==> n == 0
    ensures n == 0 ==> |Decimal(n)| == 1
    ensures NatValue(Decimal(n)) == n
  {
    var d := Decimal(n);
    if n < 10 {
      assert d[..0] == [];
    } else {
      DecimalDigits(n / 10);
      assert d[..|d| - 1] == Decimal(n / 10) && d[|d| - 1] == DigitChar(n % 10);
    }
  }

  lemma {:induction false} AllDigits(s: string, i: nat)
    requires i <= |s| && forall k | i <= k < |s| :: IsDigit(s[k])
    ensures Digits(s, i) == |s|
    decreases |s| - i
  {
    if i < |s| {
      AllDigits(s, i + 1);
    }
  }

  // Printed integers are literals of the JSON grammar that stand for the integer.
  lemma SignedIsNumber(i: int)
    ensures IsNumber(Signed(i))
    ensures var s := Signed(i);
      if i < 0 then s[0] == '-' && (forall c | c in s[1..] :: IsDigit(c)) && NatValue(s[1..]) == -i
      else (forall c | c in s :: IsDigit(c)) && NatValue(s) == i
  {
    var n := if i < 0 then -i else i;
    var s, d := Signed(i), Decimal(n);
    DecimalDigits(n);
    var j := if i < 0 then 1 else 0;
    assert s[j..] == d;
    forall k | j <= k < |s| ensures IsDigit(s[k]) {
      assert s[k] == d[k - j] && d[k - j] in d;
    }
    AllDigits(s, j);
  }

  class Writer {
    var out: string
    var depth: nat
    var pretty: bool
    // either nul or a comma
    var sep: char

    // jsonw_new
    constructor ()
      ensures out == "" && depth == 0 && !pretty && sep == NUL
    {
      out, depth, pretty, sep := "", 0, false, NUL;
    }

    method SetPretty(on: bool)
      modifies this`pretty
      ensures pretty == on
    {
      pretty := on;
    }

    // jsonw_eor
    method Eor()
      modifies this`out, this`sep
      ensures out == old(out) + Comma(old(sep)) && sep == ','
    {
      if sep != NUL {
        out := out + [sep];
      }
      sep := ',';
    }

    // jsonw_eol and jsonw_indent
    method EndLine()
      modifies this`out
      ensures out == old(out) + Eol(depth, pretty)
    {
      if !pretty {
        return;
      }
      hide Indent;
      ghost var total := out + Eol(depth, pretty);
      out := out + "\n";
      assert out + Indent(depth) == total;
      NoIndent();
      var i := 0;
      while i < depth
        invariant i <= depth && out + Indent(depth - i) == total
      {
        IndentStep(out, depth - i);
        out := out + "    ";
        i := i + 1;
      }
    }

    // jsonw_puts
    method PutString(str: string)
      modifies this`out
      ensures out == old(out) + Quote(str)
    {
      out := out + "\"";
      var i := 0;
      assert str[0..] == str;
      while i < |str|
        invariant i <= |str| && out + Escaped(str[i..]) + "\"" == old(out) + Quote(str)
      {
        assert str[i..][1..] == str[i + 1..];
        assert out + Escaped(str[i..]) == out + Escape(str[i]) + Escaped(str[i + 1..]);
        out := out + Escape(str[i]);
        i := i + 1;
      }
      out := out + "\"";
    }

    // jsonw_begin
    method Begin(c: char)
      modifies this`out, this`depth, this`sep
      ensures out == old(out) + Comma(old(sep)) + [c] && depth == old(depth) + 1 && sep == NUL
    {
      Eor();
      out := out + [c];
      depth := depth + 1;
      sep := NUL;
    }

    // jsonw_end
    method EndWith(c: char)
      requires depth > 0
      modifies this`out, this`depth, this`sep
      ensures depth == old(depth) - 1 && sep == ','
      ensures out == old(out) + (if old(sep) != NUL then Eol(depth, pretty) else "") + [c]
    {
      depth := depth - 1;
      if sep != NUL {
        EndLine();
      }
      out := out + [c];
      sep := ',';
    }

    // jsonw_name
    method Name(name: string)
      modifies this`out, this`sep
      ensures out == old(out) + Comma(old(sep)) + Eol(depth, pretty) + Quote(name) + ":"
        + (if pretty then " " else "") && sep == NUL
    {
      Eor();
      EndLine();
      sep := NUL;
      PutString(name);
      out := out + ":";
      if pretty {
        out := out + " ";
      }
    }

    // jsonw_printf, with the text that printf makes
    method Print(text: string)
      modifies this`out, this`sep
      ensures out == old(out) + Comma(old(sep)) + text && sep == ','
    {
      Eor();
      out := out + text;
    }

    // jsonw_string
    method String(value: string)
      modifies this`out, this`sep
      ensures out == old(out) + Comma(old(sep)) + Quote(value) && sep == ','
    {
      Eor();
      PutString(value);
    }

    // jsonw_int and jsonw_uint
    method Int(num: int)
      modifies this`out, this`sep
      ensures out == old(out) + Comma(old(sep)) + Text(Num(Signed(num)), depth, pretty) && sep == ','
    {
      Print(Signed(num));
    }

    // The calls for a tree.
    method Tree(v: Json)
      modifies this`out, this`depth, this`sep
      ensures out == old(out) + Comma(old(sep)) + Text(v, depth, pretty)
      ensures depth == old(depth) && sep == ','
      decreases v
    {
      match v
      case Null => Print("null");
      case Bool(b) => Print(if b then "true" else "false");
      case Num(lit) => Print(lit);
      case Str(s) => String(s);
      case Arr(vs) => ArrayTree(vs);
      case Obj(ms) => ObjectTree(ms);
    }

    method ArrayTree(vs: seq<Json>)
      modifies this`out, this`depth, this`sep
      ensures out == old(out) + Comma(old(sep)) + Text(Arr(vs), depth, pretty) && depth == old(depth) && sep == ','
      decreases vs, 1
    {
      hide Elems, Eol, Comma;
      Begin('[');
      Array(vs);
      EndWith(']');
    }

    method ObjectTree(ms: seq<Member>)
      modifies this`out, this`depth, this`sep
      ensures out == old(out) + Comma(old(sep)) + Text(Obj(ms), depth, pretty) && depth == old(depth) && sep == ','
      decreases ms, 1
    {
      hide Members, Eol, Comma;
      Begin('{');
      Object(ms);
      EndWith('}');
    }

    // The elements of an array that has just been opened.
    method Array(vs: seq<Json>)
      requires sep == NUL
      modifies this`out, this`depth, this`sep
      ensures out == old(out) + Elems(vs, depth, pretty) && depth == old(depth) && sep == (if vs == [] then NUL else ',')
      decreases vs, 0
    {
      hide Elems, Text, ElemsFrom;
      ElemsEnds(vs, depth, pretty);
      ghost var total := out + Elems(vs, depth, pretty);
      for i := 0 to |vs|
        invariant depth == old(depth) && sep == (if i == 0 then NUL else ',')
        invariant out + ElemsFrom(vs, i, depth, pretty) == total
      {
        ElemsStep(vs, i, depth, pretty);
        Assoc(out, if i > 0 then "," else "", Text(vs[i], depth, pretty), ElemsFrom(vs, i + 1, depth, pretty));
        Tree(vs[i]);
      }
    }

    // The members of an object that has just been opened.
    method Object(ms: seq<Member>)
      requires sep == NUL
      modifies this`out, this`depth, this`sep
      ensures out == old(out) + Members(ms, depth, pretty) && depth == old(depth) && sep == (if ms == [] then NUL else ',')
      decreases ms, 0
    {
      hide Members, Pair, MembersFrom;
      MembersEnds(ms, depth, pretty);
      ghost var total := out + Members(ms, depth, pretty);
      for i := 0 to |ms|
        invariant depth == old(depth) && sep == (if i == 0 then NUL else ',')
        invariant out + MembersFrom(ms, i, depth, pretty) == total
      {
        MembersStep(ms, i, depth, pretty);
        Assoc(out, if i > 0 then "," else "", Pair(ms[i], depth, pretty), MembersFrom(ms, i + 1, depth, pretty));
        Field(ms[i]);
      }
    }

    // One member.
    method Field(m: Member)
      modifies this`out, this`depth, this`sep
      ensures out == old(out) + Comma(old(sep)) + Pair(m, depth, pretty) && depth == old(depth) && sep == ','
      decreases m
    {
      hide Quote, Eol, Text;
      Name(m.name);
      Tree(m.value);
    }
  }

  lemma IndentStep(out: string, n: nat)
    requires n > 0
    ensures out + Indent(n) == out + "    " + Indent(n - 1)
  {
    assert Indent(n) == "    " + Indent(n - 1);
  }

  lemma NoIndent()
    ensures Indent(0) == ""
  {
  }

  lemma Assoc(a: string, b: string, c: string, d: string)
    ensures a + (b + c + d) == a + b + c + d
  {
  }

  // The text from element i on, with the comma before it.
  function ElemsFrom(vs: seq<Json>, i: nat, depth: nat, pretty: bool): string
    requires i <= |vs|
  {
    if i == |vs| then "" else (if i > 0 then "," else "") + Elems(vs[i..], depth, pretty)
  }

  lemma ElemsEnds(vs: seq<Json>, depth: nat, pretty: bool)
    ensures ElemsFrom(vs, 0, depth, pretty) == Elems(vs, depth, pretty) && ElemsFrom(vs, |vs|, depth, pretty) == ""
  {
    assert vs[0..] == vs;
  }

  lemma ElemsStep(vs: seq<Json>, i: nat, depth: nat, pretty: bool)
    requires i < |vs|
    ensures ElemsFrom(vs, i, depth, pretty) == (if i > 0 then "," else "") + Text(vs[i], depth, pretty)
      + ElemsFrom(vs, i + 1, depth, pretty)
  {
    hide Text;
    assert vs[i..][1..] == vs[i + 1..] && vs[i..][0] == vs[i];
    if i + 1 == |vs| { assert vs[i + 1..] == []; }
  }

  function MembersFrom(ms: seq<Member>, i: nat, depth: nat, pretty: bool): string
    requires i <= |ms|
  {
    if i == |ms| then "" else (if i > 0 then "," else "") + Members(ms[i..], depth, pretty)
  }

  lemma MembersEnds(ms: seq<Member>, depth: nat, pretty: bool)
    ensures MembersFrom(ms, 0, depth, pretty) == Members(ms, depth, pretty) && MembersFrom(ms, |ms|, depth, pretty) == ""
  {
    assert ms[0..] == ms;
  }

  lemma MembersStep(ms: seq<Member>, i: nat, depth: nat, pretty: bool)
    requires i < |ms|
    ensures MembersFrom(ms, i, depth, pretty) == (if i > 0 then "," else "") + Pair(ms[i], depth, pretty)
      + MembersFrom(ms, i + 1, depth, pretty)
  {
    hide Pair;
    assert ms[i..][1..] == ms[i + 1..] && ms[i..][0] == ms[i];
    if i + 1 == |ms| { assert ms[i + 1..] == []; }
  }

  function Comma(sep: char): string {
    if sep != NUL then [sep] else ""
  }

  // A fresh writer, the calls for one tree, and what a reader then finds.
  method WriteTree(v: Json, pretty: bool) returns (text: string)
    requires NumbersOk(v)
    ensures text == Text(v, 0, pretty)
    ensures ParseText(text) == Some(v) <==> Clean(v)
  {
    var w := new Writer();
    w.SetPretty(pretty);
    w.Tree(v);
    text := w.out;
    RoundTrip(v, 0, pretty);
  }
}
