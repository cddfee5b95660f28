/** The text form of LVM metadata: the substitutions and the split that make tokens of it, the
    recursive-descent parser, and the printer. */
module LvmText {
  import opened Strings
  import opened Options

  // ---- tokens ----

  /** White space to `\s` and to `str.split`. */
  predicate IsSpace(c: char) {
    var n := c as int;
    9 <= n <= 13 || 28 <= n <= 32 || n == 0x85 || n == 0xA0 || n == 0x1680 || 0x2000 <= n <= 0x200A
    || n == 0x2028 || n == 0x2029 || n == 0x202F || n == 0x205F || n == 0x3000
  }

  /** The length of the longest prefix without white space. */
  function WordLength(s: string): (n: nat)
    ensures n <= |s| && (n < |s| ==> IsSpace(s[n])) && forall i :: 0 <= i < n ==> !IsSpace(s[i])
  {
    if s == "" || IsSpace(s[0]) then 0 else 1 + WordLength(s[1..])
  }

  function SpaceLength(s: string): (n: nat)
    ensures n <= |s| && (n < |s| ==> !IsSpace(s[n])) && forall i :: 0 <= i < n ==> IsSpace(s[i])
  {
    if s == "" || !IsSpace(s[0]) then 0 else 1 + SpaceLength(s[1..])
  }

  function Split(s: string): seq<string> {
    if s == "" then []
    else if IsSpace(s[0]) then Split(s[1..])
    else var n := WordLength(s); [s[..n]] + Split(s[n..])
  }

  /** Removes `#.*\n`; a last line without a newline stays. */
  function StripComments(s: string): string {
    if s == "" then ""
    else if s[0] == '#' then var n := Find(s, '\n'); if n == |s| then s else StripComments(s[n + 1..])
    else [s[0]] + StripComments(s[1..])
  }

  function Replace(s: string, c: char, repl: string): string {
    if s == "" then "" else (if s[0] == c then repl else [s[0]]) + Replace(s[1..], c, repl)
  }

  /** The substitutions that work on single characters. */
  function Expand(s: string): string {
    Replace(Replace(Replace(Replace(Replace(s, '[', "[ "), ']', " ]"), '"', " \" "), '=', ""), ',', "")
  }

  function Collapse(s: string): string {
    if s == "" then ""
    else if IsSpace(s[0]) then " " + Collapse(s[SpaceLength(s)..])
    else [s[0]] + Collapse(s[1..])
  }

  function DropNul(s: string): string {
    if s != "" && s[|s| - 1] == '\0' then s[..|s| - 1] else s
  }

  function Tokens(raw: string): seq<string> {
    Split(DropNul(Collapse(Expand(StripComments(raw)))))
  }

  // ---- trees ----

  datatype Value = Int(i: int) | Float(text: string) | Str(s: string) | List(items: seq<Value>) | Section(entries: Tree)

  datatype Entry = Entry(key: string, value: Value)

  /** An ordered dictionary: each key once. */
  type Tree = seq<Entry>

  predicate DistinctKeys(d: Tree) {
    forall i, j :: 0 <= i < j < |d| ==> d[i].key != d[j].key
  }

  function KeyAt(d: Tree, key: string): (i: nat)
    ensures i <= |d| && (i < |d| ==> d[i].key == key) && forall j :: 0 <= j < i ==> d[j].key != key
  {
    if d == [] || d[0].key == key then 0 else 1 + KeyAt(d[1..], key)
  }

  /** `d[key] = value`: a key that is there keeps its place. */
  function SetItem(d: Tree, key: string, value: Value): (r: Tree)
    ensures DistinctKeys(d) ==> DistinctKeys(r)
    ensures (forall e <- d :: e.key != key) ==> r == d + [Entry(key, value)]
  {
    var i := KeyAt(d, key);
    if i < |d| then d[i := Entry(key, value)] else d + [Entry(key, value)]
  }

  /** A key that is there keeps its place and takes the value; a new one goes last; nothing else changes. */
  lemma SetItemIs(d: Tree, key: string, value: Value)
    requires DistinctKeys(d)
    ensures var r := SetItem(d, key, value);
      && |r| == |d| + (if exists e <- d :: e.key == key then 0 else 1)
      && (forall i :: 0 <= i < |d| ==> r[i] == if d[i].key == key then Entry(key, value) else d[i])
      && (|r| > |d| ==> r[|d|] == Entry(key, value))
  {
    var i := KeyAt(d, key);
    if i < |d| { assert d[i] in d; }
  }

  // ---- numbers ----

  /** What `int` takes: digits, and single underscores between them. */
  predicate IsNumeral(s: string) {
    && s != "" && IsDigit(s[0]) && IsDigit(s[|s| - 1])
    && forall i :: 0 <= i < |s| ==> IsDigit(s[i]) || (s[i] == '_' && i > 0 && s[i - 1] != '_')
  }

  function NumeralValue(s: string): nat {
    if s == "" then 0
    else
      var last := s[|s| - 1];
      if !IsDigit(last) then NumeralValue(s[..|s| - 1]) else 10 * NumeralValue(s[..|s| - 1]) + DigitValue(last)
  }

  // ---- the parser, as functions from the tokens left to the tokens left ----

  datatype Error = NotAnInt | NoToken | NeverEnds

  datatype Parsed<T> = Ok(value: T, rest: seq<string>) | Err(error: Error)

  /** `int`. */
  function IntValue(s: string): Option<int> {
    var body := if s != "" && (s[0] == '-' || s[0] == '+') then s[1..] else s;
    if !IsNumeral(body) then None
    else Some(if s[0] == '-' then 0 - NumeralValue(body) else NumeralValue(body))
  }

  function TrimLeft(s: string): string { s[SpaceLength(s)..] }

  function TrimRight(s: string): string {
    if s != "" && IsSpace(s[|s| - 1]) then TrimRight(s[..|s| - 1]) else s
  }

  function Strip(s: string): string { TrimRight(TrimLeft(s)) }

  /** Without a closing quote the loop of `parse_str` never ends. */
  function ParseStr(ts: seq<string>, result: string): Parsed<Value> {
    if ts == [] then Err(NeverEnds)
    else if ts[0] == "\"" then Ok(Str(Strip(result)), ts[1..])
    else ParseStr(ts[1..], result + " " + ts[0])
  }

  function ParseType(ts: seq<string>): (r: Parsed<Value>)
    ensures r.Ok? ==> |r.rest| < |ts|
  {
    if ts == [] then Err(NoToken)
    else if ts[0] == "\"" then StrShrinks(ts[1..], ""); ParseStr(ts[1..], "")
    else if '.' in ts[0] then Ok(Float(ts[0]), ts[1..])
    else
      var n := IntValue(ts[0]);
      if n.None? then Err(NotAnInt) else Ok(Int(n.value), ts[1..])
  }

  lemma StrShrinks(ts: seq<string>, result: string)
    ensures ParseStr(ts, result).Ok? ==> |ParseStr(ts, result).rest| < |ts|
  {
    if ts != [] && ts[0] != "\"" { StrShrinks(ts[1..], result + " " + ts[0]); }
  }

  function ParseArray(ts: seq<string>, result: seq<Value>): (r: Parsed<Value>)
    ensures r.Ok? ==> |r.rest| < |ts|
    decreases |ts|
  {
    if ts == [] then Err(NoToken)
    else if ts[0] == "]" then Ok(List(result), ts[1..])
    else
      var v := ParseType(ts);
      if v.Err? then v else ParseArray(v.rest, result + [v.value])
  }

  /** A section ends at its brace, or where there is no token left. */
  function ParseSection(ts: seq<string>, result: Tree): (r: Parsed<Tree>)
    ensures r.Ok? ==> |r.rest| <= |ts|
    decreases |ts|
  {
    if ts == [] then Ok(result, [])
    else if ts[0] == "}" then Ok(result, ts[1..])
    else
      var v := ParseValue(ts[1..]);
      if v.Err? then Err(v.error) else ParseSection(v.rest, SetItem(result, ts[0], v.value))
  }

  function ParseValue(ts: seq<string>): (r: Parsed<Value>)
    ensures r.Ok? ==> |r.rest| < |ts|
    decreases |ts|
  {
    if ts != [] && ts[0] == "{" then
      var d := ParseSection(ts[1..], []);
      if d.Err? then Err(d.error) else Ok(Section(d.value), d.rest)
    else if ts != [] && ts[0] == "[" then ParseArray(ts[1..], [])
    else ParseType(ts)
  }

  /** A volume group's name and its metadata. */
  datatype Named = Named(name: Option<string>, tree: Tree)

  function DecodeTokens(ts: seq<string>): Parsed<Named> {
    var d := ParseSection(ts, []);
    if d.Err? then Err(d.error) else Ok(Named(if ts == [] then None else Some(ts[0]), d.value), d.rest)
  }

  function DecodeData(raw: string): Parsed<Named> {
    DecodeTokens(Tokens(raw))
  }

  // ---- the printer ----

  function IntText(i: int): string {
    if i < 0 then "-" + Digits(-i) else Digits(i)
  }

  function EncodeVal(v: Value): string {
    match v
    case Int(i) => IntText(i)
    case Float(_) => ""
    case Str(s) => "\"" + s + "\""
    case List(items) => "[" + EncodeItems(items) + "]"
    case Section(d) => "{\n" + EncodeDict(d) + "}\n"
  }

  function EncodeItems(items: seq<Value>): string {
    if items == [] then ""
    else if |items| == 1 then EncodeVal(items[0])
    else EncodeVal(items[0]) + ", " + EncodeItems(items[1..])
  }

  function EncodeDict(d: Tree): string {
    if d == [] then ""
    else d[0].key + (if d[0].value.Section? then " " else " = ") + EncodeVal(d[0].value) + "\n" + EncodeDict(d[1..])
  }

  /** The printer has no case for a float. */
  predicate Printable(v: Value) {
    match v
    case Float(_) => false
    case List(items) => forall x <- items :: Printable(x)
    case Section(d) => PrintableTree(d)
    case _ => true
  }

  predicate PrintableTree(d: Tree) {
    forall e <- d :: Printable(e.value)
  }

  function EncodeData(d: Tree): Option<string> {
    if PrintableTree(d) then Some(EncodeDict(d) + "\0") else None
  }
}
