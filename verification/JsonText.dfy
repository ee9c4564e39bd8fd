/** JSON trees, the text the writer makes of them, and what that text says to a reader. */
module JsonText {
  // A number is the literal that printf produced for it.
  datatype Json =
    | Null
    | Bool(b: bool)
    | Num(lit: string)
    | Str(s: string)
    | Arr(elems: seq<Json>)
    | Obj(members: seq<Member>)

  datatype Member = Member(name: string, value: Json)

  datatype Option<T> = None | Some(value: T)

  // --- the text

  // The replacement of one character; a backslash and a single quote come out wrong.
  function Escape(c: char): string {
    match c
    case '\t' => "\\t"
    case '\n' => "\\n"
    case '\r' => "\\r"
    case '\U{000C}' => "\\f"
    case '\U{0008}' => "\\b"
    case '\\' => "\\n"
    case '\"' => "\\\""
    case '\'' => "\\'"
    case _ => [c]
  }

  function Escaped(s: string): string {
    if s == [] then [] else Escape(s[0]) + Escaped(s[1..])
  }

  function Quote(s: string): string {
    "\"" + Escaped(s) + "\""
  }

  function Indent(depth: nat): string {
    if depth == 0 then "" else "    " + Indent(depth - 1)
  }

  function Eol(depth: nat, pretty: bool): string {
    if pretty then "\n" + Indent(depth) else ""
  }

  // The text of a value at some nesting depth.
  function Text(v: Json, depth: nat, pretty: bool): string
    decreases v
  {
    match v
    case Null => "null"
    case Bool(b) => if b then "true" else "false"
    case Num(lit) => lit
    case Str(s) => Quote(s)
    case Arr(vs) => "[" + Elems(vs, depth + 1, pretty) + End(|vs|, depth, pretty) + "]"
    case Obj(ms) => "{" + Members(ms, depth + 1, pretty) + End(|ms|, depth, pretty) + "}"
  }

  // What stands before the closing bracket of a collection of n values.
  function End(n: nat, depth: nat, pretty: bool): string {
    if n == 0 then "" else Eol(depth, pretty)
  }

  function Elems(vs: seq<Json>, depth: nat, pretty: bool): string
    decreases vs
  {
    if vs == [] then ""
    else Text(vs[0], depth, pretty) + (if |vs| == 1 then "" else "," + Elems(vs[1..], depth, pretty))
  }

  function Pair(m: Member, depth: nat, pretty: bool): string
    decreases m
  {
    Eol(depth, pretty) + Quote(m.name) + ":" + (if pretty then " " else "") + Text(m.value, depth, pretty)
  }

  function Members(ms: seq<Member>, depth: nat, pretty: bool): string
    decreases ms
  {
    if ms == [] then ""
    else Pair(ms[0], depth, pretty) + (if |ms| == 1 then "" else "," + Members(ms[1..], depth, pretty))
  }

  // --- numbers (RFC 8259, section 6)

  predicate IsDigit(c: char) { '0' <= c <= '9' }

  function Digits(s: string, i: nat): (j: nat)
    requires i <= |s|
    ensures i <= j <= |s|
    ensures forall k | i <= k < j :: IsDigit(s[k])
    ensures j < |s| ==> !IsDigit(s[j])
    decreases |s| - i
  {
    if i < |s| && IsDigit(s[i]) then Digits(s, i + 1) else i
  }

  // The end of the number that starts s, if one does.
  function ScanInt(s: string): (r: Option<nat>)
    ensures r.Some? ==> 0 < r.value <= |s|
  {
    var i := if s != [] && s[0] == '-' then 1 else 0;
    if i >= |s| || !IsDigit(s[i]) then None
    else if s[i] == '0' then Some(i + 1) else Some(Digits(s, i))
  }

  function ScanFrac(s: string, i: nat): (r: Option<nat>)
    requires i <= |s|
    ensures r.Some? ==> i <= r.value <= |s|
  {
    if i == |s| || s[i] != '.' then Some(i) else
    var j := Digits(s, i + 1);
    if j == i + 1 then None else Some(j)
  }

  function ScanExp(s: string, i: nat): (r: Option<nat>)
    requires i <= |s|
    ensures r.Some? ==> i <= r.value <= |s|
  {
    if i == |s| || (s[i] != 'e' && s[i] != 'E') then Some(i) else
    var k := if i + 1 < |s| && (s[i + 1] == '+' || s[i + 1] == '-') then i + 2 else i + 1;
    var j := Digits(s, k);
    if j == k then None else Some(j)
  }

  function ScanNumber(s: string): (r: Option<nat>)
    ensures r.Some? ==> 0 < r.value <= |s|
  {
    var a := ScanInt(s);
    if a.None? then None else
    var b := ScanFrac(s, a.value);
    if b.None? then None else ScanExp(s, b.value)
  }

  predicate IsNumber(lit: string) {
    ScanNumber(lit) == Some(|lit|)
  }

  // --- strings (section 7); four-digit escapes are not read

  function Unescape(c: char): Option<char> {
    match c
    case '\"' => Some('\"')
    case '\\' => Some('\\')
    case '/' => Some('/')
    case 'b' => Some('\U{0008}')
    case 'f' => Some('\U{000C}')
    case 'n' => Some('\n')
    case 'r' => Some('\r')
    case 't' => Some('\t')
    case _ => None
  }

  // The rest of a string whose opening quote has been read, and what follows it.
  function ParseChars(s: string): (r: Option<(string, string)>)
    ensures r.Some? ==> |r.value.1| < |s|
    decreases |s|
  {
    if s == [] then None
    else if s[0] == '\"' then Some(("", s[1..]))
    else if s[0] < ' ' then None
    else if s[0] == '\\' then
      if |s| < 2 || Unescape(s[1]).None? then None else
      var r := ParseChars(s[2..]);
      if r.None? then None else Some(([Unescape(s[1]).value] + r.value.0, r.value.1))
    else
      var r := ParseChars(s[1..]);
      if r.None? then None else Some(([s[0]] + r.value.0, r.value.1))
  }

  // --- values (sections 2 to 5)

  predicate IsSpace(c: char) {
    c == ' ' || c == '\t' || c == '\n' || c == '\r'
  }

  function SkipSpace(s: string): (r: string)
    ensures |r| <= |s|
    ensures r != [] ==> !IsSpace(r[0])
  {
    if s != [] && IsSpace(s[0]) then SkipSpace(s[1..]) else s
  }

  predicate Starts(s: string, p: string) {
    |s| >= |p| && s[..|p|] == p
  }

  // One value with the space before it, and what follows it.
  function Parse(s: string): (r: Option<(Json, string)>)
    ensures r.Some? ==> |r.value.1| < |s|
    decreases |s|, 0
  {
    var t := SkipSpace(s);
    if t == [] then None
    else if Starts(t, "null") then Some((Null, t[4..]))
    else if Starts(t, "true") then Some((Bool(true), t[4..]))
    else if Starts(t, "false") then Some((Bool(false), t[5..]))
    else if t[0] == '\"' then
      var r := ParseChars(t[1..]);
      if r.None? then None else Some((Str(r.value.0), r.value.1))
    else if t[0] == '[' then
      var u := SkipSpace(t[1..]);
      if u != [] && u[0] == ']' then Some((Arr([]), u[1..])) else
      var r := ParseElems(t[1..]);
      if r.None? then None else Some((Arr(r.value.0), r.value.1))
    else if t[0] == '{' then
      var u := SkipSpace(t[1..]);
      if u != [] && u[0] == '}' then Some((Obj([]), u[1..])) else
      var r := ParseMembers(t[1..]);
      if r.None? then None else Some((Obj(r.value.0), r.value.1))
    else
      var n := ScanNumber(t);
      if n.None? then None else Some((Num(t[..n.value]), t[n.value..]))
  }

  // Values separated by commas, up to the closing bracket.
  function ParseElems(s: string): (r: Option<(seq<Json>, string)>)
    ensures r.Some? ==> |r.value.1| < |s|
    decreases |s|, 1
  {
    var v := Parse(s);
    if v.None? then None else
    var t := SkipSpace(v.value.1);
    if t == [] then None
    else if t[0] == ']' then Some(([v.value.0], t[1..]))
    else if t[0] != ',' then None
    else
      var r := ParseElems(t[1..]);
      if r.None? then None else Some(([v.value.0] + r.value.0, r.value.1))
  }

  // One name and its value.
  function ParsePair(s: string): (r: Option<(Member, string)>)
    ensures r.Some? ==> |r.value.1| < |s|
    decreases |s|, 1
  {
    var t := SkipSpace(s);
    if t == [] || t[0] != '\"' then None else
    var n := ParseChars(t[1..]);
    if n.None? then None else
    var u := SkipSpace(n.value.1);
    if u == [] || u[0] != ':' then None else
    var v := Parse(u[1..]);
    if v.None? then None else Some((Member(n.value.0, v.value.0), v.value.1))
  }

  function ParseMembers(s: string): (r: Option<(seq<Member>, string)>)
    ensures r.Some? ==> |r.value.1| < |s|
    decreases |s|, 2
  {
    var m := ParsePair(s);
    if m.None? then None else
    var t := SkipSpace(m.value.1);
    if t == [] then None
    else if t[0] == '}' then Some(([m.value.0], t[1..]))
    else if t[0] != ',' then None
    else
      var r := ParseMembers(t[1..]);
      if r.None? then None else Some(([m.value.0] + r.value.0, r.value.1))
  }

  // A whole text (section 2): one value between optional space.
  function ParseText(s: string): Option<Json> {
    var r := Parse(s);
    if r.Some? && SkipSpace(r.value.1) == [] then Some(r.value.0) else None
  }
}
