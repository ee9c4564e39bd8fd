/** The round trip: exactly what an RFC 8259 reader makes of the writer's text, for every tree. */
module JsonRound {
  import opened JsonText

  // Characters that the writer leaves readable: no single quote, no control character but five.
  predicate Printable(c: char) {
    c != '\'' && (c >= ' ' || c == '\t' || c == '\n' || c == '\r' || c == '\U{000C}' || c == '\U{0008}')
  }

  // What a character is read back as.
  function ReadChar(c: char): char {
    if c == '\\' then '\n' else c
  }

  function ReadString(s: string): Option<string> {
    if s == [] then Some("")
    else if !Printable(s[0]) then None
    else
      var r := ReadString(s[1..]);
      if r.None? then None else Some([ReadChar(s[0])] + r.value)
  }

  // What a tree is read back as, if it is read at all.
  function Read(v: Json): Option<Json>
    decreases v
  {
    match v
    case Str(s) => var r := ReadString(s); if r.None? then None else Some(Str(r.value))
    case Arr(vs) => var r := ReadElems(vs); if r.None? then None else Some(Arr(r.value))
    case Obj(ms) => var r := ReadMembers(ms); if r.None? then None else Some(Obj(r.value))
    case _ => Some(v)
  }

  function ReadElems(vs: seq<Json>): Option<seq<Json>>
    decreases vs
  {
    if vs == [] then Some([]) else
    var a, r := Read(vs[0]), ReadElems(vs[1..]);
    if a.None? || r.None? then None else Some([a.value] + r.value)
  }

  function ReadMember(m: Member): Option<Member>
    decreases m
  {
    var n, v := ReadString(m.name), Read(m.value);
    if n.None? || v.None? then None else Some(Member(n.value, v.value))
  }

  function ReadMembers(ms: seq<Member>): Option<seq<Member>>
    decreases ms
  {
    if ms == [] then Some([]) else
    var a, r := ReadMember(ms[0]), ReadMembers(ms[1..]);
    if a.None? || r.None? then None else Some([a.value] + r.value)
  }

  // All numbers of a tree are literals of the grammar.
  ghost predicate NumbersOk(v: Json)
    decreases v
  {
    match v
    case Num(lit) => IsNumber(lit)
    case Arr(vs) => forall x | x in vs :: NumbersOk(x)
    case Obj(ms) => forall m | m in ms :: NumbersOk(m.value)
    case _ => true
  }

  // --- numbers

  // Text after a value: nothing, or a character that cannot continue a number.
  predicate Delimited(rest: string) {
    rest == [] || !(IsDigit(rest[0]) || rest[0] in ['.', 'e', 'E', '+', '-'])
  }

  lemma {:induction false} DigitsAppend(lit: string, i: nat, rest: string)
    requires i <= |lit| && Delimited(rest)
    ensures Digits(lit + rest, i) == Digits(lit, i)
    decreases |lit| - i
  {
    if i < |lit| {
      assert (lit + rest)[i] == lit[i];
      if IsDigit(lit[i]) {
        DigitsAppend(lit, i + 1, rest);
      }
    } else if rest != [] {
      assert (lit + rest)[i] == rest[0];
    }
  }

  lemma CharAppend(lit: string, rest: string, i: nat)
    requires i <= |lit|
    ensures i < |lit| ==> (lit + rest)[i] == lit[i]
    ensures i == |lit| && rest != [] ==> (lit + rest)[i] == rest[0]
  {
  }

  lemma IntAppend(lit: string, rest: string)
    requires ScanInt(lit).Some? && Delimited(rest)
    ensures ScanInt(lit + rest) == ScanInt(lit)
  {
    CharAppend(lit, rest, 0);
    var i := if lit[0] == '-' then 1 else 0;
    CharAppend(lit, rest, i);
    DigitsAppend(lit, i, rest);
  }

  lemma FracAppend(lit: string, i: nat, rest: string)
    requires i <= |lit| && Delimited(rest) && ScanFrac(lit, i).Some?
    ensures ScanFrac(lit + rest, i) == ScanFrac(lit, i)
  {
    CharAppend(lit, rest, i);
    if i < |lit| {
      DigitsAppend(lit, i + 1, rest);
    }
  }

  lemma ExpAppend(lit: string, i: nat, rest: string)
    requires i <= |lit| && Delimited(rest) && ScanExp(lit, i).Some?
    ensures ScanExp(lit + rest, i) == ScanExp(lit, i)
  {
    CharAppend(lit, rest, i);
    if i < |lit| {
      CharAppend(lit, rest, i + 1);
      DigitsAppend(lit, i + 1, rest);
      if i + 1 < |lit| { DigitsAppend(lit, i + 2, rest); }
    }
  }

  lemma NumberAppend(lit: string, rest: string)
    requires IsNumber(lit) && Delimited(rest)
    ensures ScanNumber(lit + rest) == Some(|lit|) && (lit + rest)[..|lit|] == lit && (lit + rest)[|lit|..] == rest
    ensures lit != [] && (IsDigit(lit[0]) || lit[0] == '-')
  {
    assert lit != [] && (IsDigit(lit[0]) || lit[0] == '-');
    hide ScanInt, ScanFrac, ScanExp;
    IntAppend(lit, rest);
    var a := ScanInt(lit).value;
    FracAppend(lit, a, rest);
    ExpAppend(lit, ScanFrac(lit, a).value, rest);
  }

  // --- strings

  lemma {:induction false} CharsRead(s: string, rest: string)
    ensures ParseChars(Escaped(s) + "\"" + rest) ==
      if ReadString(s).Some? then Some((ReadString(s).value, rest)) else None
  {
    var t := Escaped(s) + "\"" + rest;
    if s == [] {
      assert t == ['\"'] + rest;
      assert t[1..] == rest;
    } else {
      CharsRead(s[1..], rest);
      var e, more := Escape(s[0]), Escaped(s[1..]) + "\"" + rest;
      assert t == e + more;
      OneChar(s[0], more);
    }
  }

  // An escape sequence in front of other characters.
  lemma PairChar(x: char, more: string)
    ensures var r := ParseChars(more);
      ParseChars(['\\', x] + more) ==
        if Unescape(x).None? || r.None? then None else Some(([Unescape(x).value] + r.value.0, r.value.1))
  {
    var t := ['\\', x] + more;
    assert t[0] == '\\' && t[1] == x && t[2..] == more;
  }

  lemma PlainChar(c: char, more: string)
    requires c != '\\' && c != '\"'
    ensures var r := ParseChars(more);
      ParseChars([c] + more) == if c < ' ' || r.None? then None else Some(([c] + r.value.0, r.value.1))
  {
    var t := [c] + more;
    assert t[0] == c && t[1..] == more;
  }

  // One escaped character in front of others.
  lemma OneChar(c: char, more: string)
    ensures var r := ParseChars(more);
      ParseChars(Escape(c) + more) ==
        if !Printable(c) || r.None? then None else Some(([ReadChar(c)] + r.value.0, r.value.1))
  {
    hide ParseChars;
    if |Escape(c)| == 1 {
      PlainChar(c, more);
    } else {
      assert Escape(c) == ['\\', Escape(c)[1]];
      PairChar(Escape(c)[1], more);
    }
  }

  // --- space

  lemma {:induction false} SkipIndent(depth: nat, s: string)
    requires s != [] && !IsSpace(s[0])
    ensures SkipSpace(Indent(depth) + s) == s
  {
    if depth == 0 {
      assert Indent(0) + s == s;
    } else {
      SkipIndent(depth - 1, s);
      var t := Indent(depth - 1) + s;
      assert Indent(depth) + s == [' '] + ([' '] + ([' '] + ([' '] + t)));
      SkipOne(' ', t);
      SkipOne(' ', [' '] + t);
      SkipOne(' ', [' '] + ([' '] + t));
      SkipOne(' ', [' '] + ([' '] + ([' '] + t)));
    }
  }

  lemma SkipOne(c: char, s: string)
    requires IsSpace(c)
    ensures SkipSpace([c] + s) == SkipSpace(s)
  {
    assert ([c] + s)[1..] == s;
  }

  lemma SkipEol(depth: nat, pretty: bool, s: string)
    requires s != [] && !IsSpace(s[0])
    ensures SkipSpace(Eol(depth, pretty) + s) == s
  {
    if pretty {
      SkipIndent(depth, s);
      assert Eol(depth, pretty) + s == ['\n'] + (Indent(depth) + s);
      SkipOne('\n', Indent(depth) + s);
    } else {
      assert Eol(depth, pretty) + s == s;
    }
  }

  lemma SkipEnd(n: nat, depth: nat, pretty: bool, s: string)
    requires s != [] && !IsSpace(s[0])
    ensures SkipSpace(End(n, depth, pretty) + s) == s
  {
    if n == 0 {
      assert End(n, depth, pretty) + s == s;
    } else {
      SkipEol(depth, pretty, s);
    }
  }

  // Parsing does not mind space in front.
  lemma ParseAfterSpace(s: string, t: string)
    requires SkipSpace(s) == SkipSpace(t)
    ensures Parse(s) == Parse(t)
  {
  }

  // --- values

  function Then<T>(r: Option<T>, rest: string): Option<(T, string)> {
    if r.None? then None else Some((r.value, rest))
  }

  // The text of a value starts with no space and no closing bracket, comma or colon.
  lemma TextStarts(v: Json, depth: nat, pretty: bool)
    requires NumbersOk(v)
    ensures var t := Text(v, depth, pretty);
      t != [] && !IsSpace(t[0]) && t[0] != ']' && t[0] != '}'
  {
    if v.Num? {
      NumberAppend(v.lit, "");
    }
  }

  // How a value is read, by its first character.
  lemma AtWord(w: string, rest: string)
    requires w == "null" || w == "true" || w == "false"
    ensures Parse(w + rest) == Some((if w == "null" then Null else Bool(w == "true"), rest))
  {
    hide ParseElems, ParseMembers, ParseChars, ScanNumber;
    var s := w + rest;
    assert s[..|w|] == w && s[|w|..] == rest && s[0] == w[0];
  }

  // Text that starts with neither a space nor a word.
  lemma NoWord(s: string)
    requires s != [] && !IsSpace(s[0]) && s[0] != 'n' && s[0] != 't' && s[0] != 'f'
    ensures SkipSpace(s) == s && !Starts(s, "null") && !Starts(s, "true") && !Starts(s, "false")
  {
  }

  lemma AtQuote(more: string)
    ensures var r := ParseChars(more);
      Parse("\"" + more) == if r.None? then None else Some((Str(r.value.0), r.value.1))
  {
    hide ParseElems, ParseMembers, ParseChars, ScanNumber, SkipSpace, Starts;
    var s := "\"" + more;
    assert s[0] == '\"' && s[1..] == more;
    NoWord(s);
  }

  lemma AtBracket(more: string)
    ensures var u := SkipSpace(more);
      Parse("[" + more) ==
        if u != [] && u[0] == ']' then Some((Arr([]), u[1..]))
        else if ParseElems(more).None? then None
        else Some((Arr(ParseElems(more).value.0), ParseElems(more).value.1))
  {
    hide ParseElems, ParseMembers, ParseChars, ScanNumber, SkipSpace, Starts;
    var s := "[" + more;
    assert s[0] == '[' && s[1..] == more;
    NoWord(s);
  }

  lemma AtBrace(more: string)
    ensures var u := SkipSpace(more);
      Parse("{" + more) ==
        if u != [] && u[0] == '}' then Some((Obj([]), u[1..]))
        else if ParseMembers(more).None? then None
        else Some((Obj(ParseMembers(more).value.0), ParseMembers(more).value.1))
  {
    hide ParseElems, ParseMembers, ParseChars, ScanNumber, SkipSpace, Starts;
    var s := "{" + more;
    assert s[0] == '{' && s[1..] == more;
    NoWord(s);
  }

  lemma AtNumber(s: string)
    requires s != [] && (IsDigit(s[0]) || s[0] == '-') && ScanNumber(s).Some?
    ensures Parse(s) == Some((Num(s[..ScanNumber(s).value]), s[ScanNumber(s).value..]))
  {
    hide ParseElems, ParseMembers, ParseChars, ScanNumber, SkipSpace, Starts;
    NoWord(s);
  }

  lemma {:induction false} ValueRead(v: Json, depth: nat, pretty: bool, rest: string)
    requires NumbersOk(v) && Delimited(rest)
    ensures Parse(Text(v, depth, pretty) + rest) == Then(Read(v), rest)
    decreases v, 0
  {
    hide Parse, Elems, Members, Escaped, ParseElems, ParseMembers, ParseChars, ScanNumber, Delimited, SkipSpace, End;
    hide ReadElems, ReadMembers, ReadString, IsDigit;
    var s := Text(v, depth, pretty) + rest;
    match v
    case Null => AtWord("null", rest);
    case Bool(b) => AtWord(if b then "true" else "false", rest);
    case Num(lit) =>
      NumberAppend(lit, rest);
      assert s[0] == lit[0];
      AtNumber(s);
    case Str(x) =>
      assert s == "\"" + (Escaped(x) + "\"" + rest);
      AtQuote(Escaped(x) + "\"" + rest);
      CharsRead(x, rest);
    case Arr(vs) => ArrValue(v, depth, pretty, rest);
    case Obj(ms) => ObjValue(v, depth, pretty, rest);
  }

  lemma {:induction false} ArrValue(v: Json, depth: nat, pretty: bool, rest: string)
    requires v.Arr? && NumbersOk(v)
    ensures Parse(Text(v, depth, pretty) + rest) == Then(Read(v), rest)
    decreases v.elems, 3
  {
    hide Parse, Elems, ParseElems, SkipSpace, End;
    var vs := v.elems;
    var more := Elems(vs, depth + 1, pretty) + (End(|vs|, depth, pretty) + "]" + rest);
    assert Text(v, depth, pretty) + rest == "[" + more;
    AtBracket(more);
    ArrRead(vs, depth, pretty, rest);
    assert ("]" + rest)[1..] == rest;
    hide ReadElems;
    assert vs == [] ==> ReadElems(vs) == Some([]) by { NoElems(vs); }
  }

  lemma NoElems(vs: seq<Json>)
    ensures vs == [] ==> ReadElems(vs) == Some([])
  {
  }

  lemma {:induction false} ObjValue(v: Json, depth: nat, pretty: bool, rest: string)
    requires v.Obj? && NumbersOk(v)
    ensures Parse(Text(v, depth, pretty) + rest) == Then(Read(v), rest)
    decreases v.members, 3
  {
    hide Parse, Members, ParseMembers, SkipSpace, End;
    var ms := v.members;
    var more := Members(ms, depth + 1, pretty) + (End(|ms|, depth, pretty) + "}" + rest);
    assert Text(v, depth, pretty) + rest == "{" + more;
    AtBrace(more);
    ObjRead(ms, depth, pretty, rest);
    assert ("}" + rest)[1..] == rest;
    hide ReadMembers;
    assert ms == [] ==> ReadMembers(ms) == Some([]) by { NoMembers(ms); }
  }

  lemma NoMembers(ms: seq<Member>)
    ensures ms == [] ==> ReadMembers(ms) == Some([])
  {
  }

  // What follows an opening square bracket.
  lemma {:induction false} ArrRead(vs: seq<Json>, depth: nat, pretty: bool, rest: string)
    requires forall x | x in vs :: NumbersOk(x)
    ensures var s := Elems(vs, depth + 1, pretty) + (End(|vs|, depth, pretty) + "]" + rest);
      if vs == [] then SkipSpace(s) == "]" + rest
      else SkipSpace(s) != [] && SkipSpace(s)[0] != ']' && ParseElems(s) == Then(ReadElems(vs), rest)
    decreases vs, 2
  {
    hide ParseElems, Text, End;
    var tail := End(|vs|, depth, pretty) + "]" + rest;
    assert tail == End(|vs|, depth, pretty) + ("]" + rest);
    var s := Elems(vs, depth + 1, pretty) + tail;
    if vs == [] {
      assert s == tail;
      SkipEnd(0, depth, pretty, "]" + rest);
    } else {
      assert vs[0] in vs;
      TextStarts(vs[0], depth + 1, pretty);
      assert s[0] == Text(vs[0], depth + 1, pretty)[0];
      ElemsRead(vs, depth, pretty, rest, |vs|);
    }
  }

  lemma LastElem(s: string, v: Option<Json>, after: string, rest: string)
    requires Parse(s) == Then(v, after) && SkipSpace(after) == "]" + rest
    ensures ParseElems(s) == if v.None? then None else Some(([v.value], rest))
  {
    hide Parse, SkipSpace;
    assert ("]" + rest)[0] == ']' && ("]" + rest)[1..] == rest;
  }

  lemma MoreElems(s: string, v: Option<Json>, more: string)
    requires Parse(s) == Then(v, "," + more)
    ensures var r := ParseElems(more);
      ParseElems(s) == if v.None? || r.None? then None else Some(([v.value] + r.value.0, r.value.1))
  {
    hide Parse;
    CommaNext(more);
  }

  lemma {:induction false} ElemsRead(vs: seq<Json>, depth: nat, pretty: bool, rest: string, n: nat)
    requires vs != [] && n > 0 && forall x | x in vs :: NumbersOk(x)
    ensures ParseElems(Elems(vs, depth + 1, pretty) + (End(n, depth, pretty) + "]" + rest)) == Then(ReadElems(vs), rest)
    decreases vs, 1
  {
    hide Text, Parse, ParseElems, End, Delimited, NumbersOk, Read;
    var tail := End(n, depth, pretty) + "]" + rest;
    var s := Elems(vs, depth + 1, pretty) + tail;
    var t := Text(vs[0], depth + 1, pretty);
    assert vs[0] in vs;
    assert tail == End(n, depth, pretty) + ("]" + rest);
    if |vs| == 1 {
      assert s == t + tail && vs[1..] == [];
      EndDelimits(n, depth, pretty, "]" + rest);
      ValueRead(vs[0], depth + 1, pretty, tail);
      SkipEnd(n, depth, pretty, "]" + rest);
      LastElem(s, Read(vs[0]), tail, rest);
      OnlyElem(vs);
    } else {
      var more := Elems(vs[1..], depth + 1, pretty) + tail;
      assert s == t + ("," + more);
      CommaNext(more);
      ValueRead(vs[0], depth + 1, pretty, "," + more);
      MoreElems(s, Read(vs[0]), more);
      assert forall x | x in vs[1..] :: x in vs;
      ElemsRead(vs[1..], depth, pretty, rest, n);
    }
  }

  lemma OnlyElem(vs: seq<Json>)
    requires |vs| == 1
    ensures var v := Read(vs[0]); ReadElems(vs) == if v.None? then None else Some([v.value])
  {
    hide Read;
    assert vs[1..] == [];
    if Read(vs[0]).Some? { assert [Read(vs[0]).value] + [] == [Read(vs[0]).value]; }
  }

  lemma CommaNext(more: string)
    ensures Delimited("," + more) && SkipSpace("," + more) == "," + more && ("," + more)[1..] == more
  {
  }

  lemma EndDelimits(n: nat, depth: nat, pretty: bool, s: string)
    requires s != [] && (s[0] == ']' || s[0] == '}')
    ensures Delimited(End(n, depth, pretty) + s)
  {
    if n == 0 || !pretty {
      assert End(n, depth, pretty) + s == s;
    } else {
      assert (End(n, depth, pretty) + s)[0] == '\n';
    }
  }

  // What follows an opening curly bracket.
  lemma {:induction false} ObjRead(ms: seq<Member>, depth: nat, pretty: bool, rest: string)
    requires forall m | m in ms :: NumbersOk(m.value)
    ensures var s := Members(ms, depth + 1, pretty) + (End(|ms|, depth, pretty) + "}" + rest);
      if ms == [] then SkipSpace(s) == "}" + rest
      else SkipSpace(s) != [] && SkipSpace(s)[0] != '}' && ParseMembers(s) == Then(ReadMembers(ms), rest)
    decreases ms, 2
  {
    hide ParseMembers, Text, End, Escaped, Eol;
    var tail := End(|ms|, depth, pretty) + "}" + rest;
    assert tail == End(|ms|, depth, pretty) + ("}" + rest);
    var s := Members(ms, depth + 1, pretty) + tail;
    if ms == [] {
      assert s == tail;
      SkipEnd(0, depth, pretty, "}" + rest);
    } else {
      var m, more := ms[0], PairRest(ms, depth, pretty, tail);
      var core := Quote(m.name) + ":" + (if pretty then " " else "") + Text(m.value, depth + 1, pretty);
      var comma := if |ms| == 1 then "" else "," + Members(ms[1..], depth + 1, pretty);
      assert Pair(m, depth + 1, pretty) == Eol(depth + 1, pretty) + core;
      assert s == Eol(depth + 1, pretty) + core + comma + tail;
      assert more == core + comma + tail;
      assert s == Eol(depth + 1, pretty) + more;
      SkipEol(depth + 1, pretty, more);
      MembersRead(ms, depth, pretty, rest, |ms|);
    }
  }

  // The text of some members after the line end before the first.
  function PairRest(ms: seq<Member>, depth: nat, pretty: bool, tail: string): (r: string)
    requires ms != []
    ensures r != [] && r[0] == '\"'
  {
    var m := ms[0];
    ("\"" + Escaped(m.name) + "\"") + ":" + (if pretty then " " else "") + Text(m.value, depth + 1, pretty)
    + (if |ms| == 1 then "" else "," + Members(ms[1..], depth + 1, pretty)) + tail
  }

  lemma LastMember(s: string, m: Option<Member>, after: string, rest: string)
    requires ParsePair(s) == Then(m, after) && SkipSpace(after) == "}" + rest
    ensures ParseMembers(s) == if m.None? then None else Some(([m.value], rest))
  {
    hide ParsePair, SkipSpace;
    assert ("}" + rest)[0] == '}' && ("}" + rest)[1..] == rest;
  }

  lemma MoreMembers(s: string, m: Option<Member>, more: string)
    requires ParsePair(s) == Then(m, "," + more)
    ensures var r := ParseMembers(more);
      ParseMembers(s) == if m.None? || r.None? then None else Some(([m.value] + r.value.0, r.value.1))
  {
    hide ParsePair;
    CommaNext(more);
  }

  lemma {:induction false} MembersRead(ms: seq<Member>, depth: nat, pretty: bool, rest: string, n: nat)
    requires ms != [] && n > 0 && forall m | m in ms :: NumbersOk(m.value)
    ensures ParseMembers(Members(ms, depth + 1, pretty) + (End(n, depth, pretty) + "}" + rest)) == Then(ReadMembers(ms), rest)
    decreases ms, 1
  {
    hide Text, ParsePair, ParseMembers, End, Pair, Delimited, NumbersOk, ReadMember;
    var tail := End(n, depth, pretty) + "}" + rest;
    var s := Members(ms, depth + 1, pretty) + tail;
    var t := Pair(ms[0], depth + 1, pretty);
    assert ms[0] in ms;
    assert tail == End(n, depth, pretty) + ("}" + rest);
    if |ms| == 1 {
      assert s == t + tail && ms[1..] == [];
      EndDelimits(n, depth, pretty, "}" + rest);
      PairRead(ms[0], depth + 1, pretty, tail);
      SkipEnd(n, depth, pretty, "}" + rest);
      LastMember(s, ReadMember(ms[0]), tail, rest);
      OnlyMember(ms);
    } else {
      var more := Members(ms[1..], depth + 1, pretty) + tail;
      assert s == t + ("," + more);
      CommaNext(more);
      PairRead(ms[0], depth + 1, pretty, "," + more);
      MoreMembers(s, ReadMember(ms[0]), more);
      assert forall m | m in ms[1..] :: m in ms;
      MembersRead(ms[1..], depth, pretty, rest, n);
    }
  }

  lemma OnlyMember(ms: seq<Member>)
    requires |ms| == 1
    ensures var m := ReadMember(ms[0]); ReadMembers(ms) == if m.None? then None else Some([m.value])
  {
    hide ReadMember;
    assert ms[1..] == [];
    if ReadMember(ms[0]).Some? { assert [ReadMember(ms[0]).value] + [] == [ReadMember(ms[0]).value]; }
  }

  lemma {:induction false} PairRead(m: Member, depth: nat, pretty: bool, rest: string)
    requires NumbersOk(m.value) && Delimited(rest)
    ensures ParsePair(Pair(m, depth, pretty) + rest) == Then(ReadMember(m), rest)
    decreases m, 0
  {
    hide Text, Parse, Escaped, Eol, ParseChars;
    var gap := if pretty then " " else "";
    var value := Text(m.value, depth, pretty) + rest;
    var after := ":" + (gap + value);
    var quoted := "\"" + (Escaped(m.name) + "\"" + after);
    assert Pair(m, depth, pretty) + rest == Eol(depth, pretty) + quoted;
    SkipEol(depth, pretty, quoted);
    assert quoted[1..] == Escaped(m.name) + "\"" + after;
    CharsRead(m.name, after);
    assert SkipSpace(after) == after && after[1..] == gap + value;
    if pretty {
      SkipOne(' ', value);
    } else {
      assert gap + value == value;
    }
    ParseAfterSpace(gap + value, value);
    ValueRead(m.value, depth, pretty, rest);
  }

  // Exactly what a reader makes of the writer's text, in compact and in pretty mode.
  lemma TreeRead(v: Json, depth: nat, pretty: bool)
    requires NumbersOk(v)
    ensures ParseText(Text(v, depth, pretty)) == Read(v)
  {
    ValueRead(v, depth, pretty, "");
    assert Text(v, depth, pretty) + "" == Text(v, depth, pretty);
  }

  // --- when that is the same tree

  // A string without backslash, single quote and other control characters.
  predicate CleanString(s: string) {
    forall c | c in s :: Printable(c) && c != '\\'
  }

  ghost predicate Clean(v: Json)
    decreases v
  {
    match v
    case Str(s) => CleanString(s)
    case Arr(vs) => forall x | x in vs :: Clean(x)
    case Obj(ms) => forall m | m in ms :: CleanString(m.name) && Clean(m.value)
    case _ => true
  }

  lemma {:induction false} StringSame(s: string)
    ensures ReadString(s) == Some(s) <==> CleanString(s)
  {
    if s != [] {
      StringSame(s[1..]);
      assert s == [s[0]] + s[1..];
      if CleanString(s) {
        assert s[0] in s && forall c | c in s[1..] :: c in s;
      } else if CleanString(s[1..]) {
        assert !(Printable(s[0]) && s[0] != '\\');
      }
    }
  }

  lemma {:induction false} ReadSame(v: Json)
    ensures Read(v) == Some(v) <==> Clean(v)
    decreases v, 1
  {
    match v
    case Str(s) => StringSame(s);
    case Arr(vs) => ElemsSame(vs);
    case Obj(ms) => MembersSame(ms);
    case _ =>
  }

  lemma {:induction false} ElemsSame(vs: seq<Json>)
    ensures ReadElems(vs) == Some(vs) <==> forall x | x in vs :: Clean(x)
    decreases vs, 0
  {
    if vs != [] {
      ReadSame(vs[0]);
      ElemsSame(vs[1..]);
      assert vs == [vs[0]] + vs[1..];
      assert vs[0] in vs && forall x | x in vs[1..] :: x in vs;
    }
  }

  lemma {:induction false} MembersSame(ms: seq<Member>)
    ensures ReadMembers(ms) == Some(ms) <==> forall m | m in ms :: CleanString(m.name) && Clean(m.value)
    decreases ms, 0
  {
    if ms != [] {
      StringSame(ms[0].name);
      ReadSame(ms[0].value);
      MembersSame(ms[1..]);
      assert ms == [ms[0]] + ms[1..];
      assert ms[0] in ms && forall m | m in ms[1..] :: m in ms;
    }
  }

  // The writer's text reads back as the same tree if and only if no string or name in it holds a
  // backslash, a single quote or a control character other than \t \n \r \f \b.
  lemma RoundTrip(v: Json, depth: nat, pretty: bool)
    requires NumbersOk(v)
    ensures ParseText(Text(v, depth, pretty)) == Some(v) <==> Clean(v)
  {
    TreeRead(v, depth, pretty);
    ReadSame(v);
  }

  // A backslash is printed as an escaped newline, and a single quote as an escape that JSON does not have.
  lemma TwoBadStrings(depth: nat, pretty: bool)
    ensures ParseText(Text(Str("\\"), depth, pretty)) == Some(Str("\n"))
    ensures ParseText(Text(Str("\'"), depth, pretty)) == None
  {
    hide ParseText, Text;
    TreeRead(Str("\\"), depth, pretty);
    TreeRead(Str("\'"), depth, pretty);
    var s := "\\";
    assert s[0] == '\\' && s[1..] == [];
    assert ReadString(s[1..]) == Some("");
    assert ReadString(s).Some? && ReadString(s).value == [ReadChar(s[0])] + [];
    assert ReadString(s).value == "\n";
    assert !Printable("\'"[0]) && ReadString("\'") == None;
  }
}
