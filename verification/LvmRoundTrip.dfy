/** Decoding what was encoded gives the tree back exactly when the tree is well formed. */
module LvmRoundTrip {
  import opened Strings
  import opened LvmText
  import opened LvmTokens
  import opened LvmEncoding
  import opened Options

  // ---- numbers ----

  lemma {:induction false} DigitsValue(n: nat)
    ensures NumeralValue(Digits(n)) == n
  {
    if n >= 10 {
      DigitsValue(n / 10);
      assert Digits(n)[..|Digits(n)| - 1] == Digits(n / 10);
    } else {
      assert Digits(n)[..0] == "";
    }
  }

  lemma IntRoundTrip(i: int)
    ensures IntValue(IntText(i)) == Some(i)
  {
    var n := if i < 0 then -i else i;
    var ds := Digits(n);
    DigitsValue(n);
    DigitsNumeral(n);
    hide Digits, NumeralValue, IsNumeral;
    assert ("-" + ds)[1..] == ds;
    assert ds[0] != '-' && ds[0] != '+';
  }

  lemma DigitsNumeral(n: nat)
    ensures IsNumeral(Digits(n)) == true
  {
    hide Digits;
  }

  function Power10(n: nat): nat { if n == 0 then 1 else 10 * Power10(n - 1) }

  /** The digits of a numeral, without the underscores between them. */
  function DigitsOf(s: string): (d: string)
    ensures forall i :: 0 <= i < |d| ==> IsDigit(d[i])
  {
    if s == "" then "" else (if IsDigit(s[0]) then [s[0]] else "") + DigitsOf(s[1..])
  }

  /** The value of a numeral is positional, and underscores count for nothing. */
  lemma {:induction false} NumeralIs(s: string)
    ensures NumeralValue(s) == NumeralValue(DigitsOf(s))
    ensures s != "" && IsDigit(s[0]) ==>
      NumeralValue(s) == DigitValue(s[0]) * Power10(|DigitsOf(s[1..])|) + NumeralValue(s[1..])
  {
    if s != "" {
      NumeralIs(s[1..]);
      NumeralFirst(s);
      assert s == [s[0]] + s[1..];
      if IsDigit(s[0]) {
        NumeralFirst(DigitsOf(s));
        assert DigitsOf(s)[1..] == DigitsOf(s[1..]);
        AllDigits(DigitsOf(s[1..]));
      } else {
        assert DigitsOf(s) == DigitsOf(s[1..]);
      }
    }
  }

  lemma {:induction false} AllDigits(d: string)
    requires forall i :: 0 <= i < |d| ==> IsDigit(d[i])
    ensures DigitsOf(d) == d
  {
    if d != "" {
      AllDigits(d[1..]);
      assert d == [d[0]] + d[1..];
    }
  }

  lemma {:induction false} DigitsOfSnoc(s: string, c: char)
    ensures DigitsOf(s + [c]) == DigitsOf(s) + (if IsDigit(c) then [c] else "")
  {
    if s == "" {
      assert [c][1..] == "";
      assert s + [c] == [c];
    } else {
      assert (s + [c])[1..] == s[1..] + [c];
      DigitsOfSnoc(s[1..], c);
    }
  }

  lemma {:induction false} NumeralFirst(s: string)
    requires s != ""
    ensures NumeralValue(s) ==
      (if IsDigit(s[0]) then DigitValue(s[0]) * Power10(|DigitsOf(s[1..])|) else 0) + NumeralValue(s[1..])
  {
    var before, last := s[..|s| - 1], s[|s| - 1];
    if |s| == 1 {
      assert before == "" && s[1..] == "";
    } else {
      NumeralFirst(before);
      assert s[1..] == before[1..] + [last] && s[1..][..|s[1..]| - 1] == before[1..];
      DigitsOfSnoc(before[1..], last);
      var n := |DigitsOf(before[1..])|;
      var d := if IsDigit(s[0]) then DigitValue(s[0]) else 0;
      Shifted(d, n, NumeralValue(before[1..]));
      assert before[0] == s[0];
      hide DigitsOf, DigitValue, Power10;
    }
  }

  lemma Shifted(d: nat, n: nat, v: nat)
    ensures 10 * (d * Power10(n) + v) == d * Power10(n + 1) + 10 * v
  {
    assert d * (10 * Power10(n)) == 10 * (d * Power10(n));
  }

  predicate AllDigit(g: string) {
    g != "" && forall i :: 0 <= i < |g| ==> IsDigit(g[i])
  }

  predicate Groups(gs: seq<string>) {
    gs != [] && forall i :: 0 <= i < |gs| ==> AllDigit(gs[i])
  }

  function Underscored(gs: seq<string>): string
    requires gs != []
  {
    if |gs| == 1 then gs[0] else gs[0] + "_" + Underscored(gs[1..])
  }

  lemma {:induction false} GroupsAreNumeral(gs: seq<string>)
    requires Groups(gs)
    ensures IsNumeral(Underscored(gs))
  {
    assert AllDigit(gs[0]);
    if |gs| > 1 {
      forall i | 0 <= i < |gs| - 1 ensures AllDigit(gs[1..][i]) { assert AllDigit(gs[i + 1]); }
      GroupsAreNumeral(gs[1..]);
      Joined(gs[0], Underscored(gs[1..]));
    }
  }

  lemma Joined(g: string, t: string)
    requires AllDigit(g) && IsNumeral(t)
    ensures IsNumeral(g + "_" + t)
  {
    hide IsDigit;
    var s := g + "_" + t;
    assert s[|g|] == '_' && s[|g| - 1] == g[|g| - 1];
    forall i | 0 <= i < |s| ensures IsDigit(s[i]) || (s[i] == '_' && i > 0 && s[i - 1] != '_') {
      if i > |g| + 1 { assert s[i] == t[i - |g| - 1] && s[i - 1] == t[i - |g| - 2]; }
      if i == |g| { assert IsDigit(g[i - 1]); NotUnderscore(g[i - 1]); }
    }
  }

  lemma NotUnderscore(c: char)
    requires IsDigit(c)
    ensures c != '_'
  {}

  lemma {:induction false} NumeralHasGroups(s: string) returns (gs: seq<string>)
    requires IsNumeral(s)
    ensures Groups(gs) && Underscored(gs) == s
    decreases |s|
  {
    var i := Find(s, '_');
    if i == |s| {
      forall j | 0 <= j < |s| ensures IsDigit(s[j]) { assert s[j] != '_' && (j > 0 ==> s[j - 1] != '_'); }
      gs := [s];
    } else {
      var g, t := s[..i], s[i + 1..];
      CutNumeral(s, i);
      var rest := NumeralHasGroups(t);
      gs := [g] + rest;
      assert gs[1..] == rest;
      assert s == g + "_" + t;
    }
  }

  lemma CutNumeral(s: string, i: nat)
    requires IsNumeral(s) && i < |s| && s[i] == '_' && forall j :: 0 <= j < i ==> s[j] != '_'
    ensures AllDigit(s[..i]) && IsNumeral(s[i + 1..])
  {
    var t := s[i + 1..];
    assert s[|s| - 1] != '_' && s[0] != '_';
    forall j | 0 <= j < i ensures IsDigit(s[..i][j]) {
      assert s[..i][j] == s[j] && s[j] != '_' && (j > 0 ==> s[j - 1] != '_');
    }
    assert s[i + 1] != '_';
    forall k | 0 <= k < |t| ensures IsDigit(t[k]) || (t[k] == '_' && k > 0 && t[k - 1] != '_') {
      assert t[k] == s[i + 1 + k] && (k > 0 ==> t[k - 1] == s[i + k]);
    }
  }

  /** A numeral is groups of digits with single underscores between them. */
  lemma NumeralIff(s: string)
    ensures IsNumeral(s) <==> exists gs :: Groups(gs) && Underscored(gs) == s
  {
    if IsNumeral(s) { var gs := NumeralHasGroups(s); }
    if gs :| Groups(gs) && Underscored(gs) == s { GroupsAreNumeral(gs); }
  }

  /** A sign in front of a numeral. */
  lemma SignedIs(body: string)
    requires IsNumeral(body)
    ensures IntValue(body) == Some(NumeralValue(body)) == IntValue("+" + body)
    ensures IntValue("-" + body) == Some(0 - NumeralValue(body))
  {
    hide NumeralValue;
    assert ("+" + body)[1..] == body && ("-" + body)[1..] == body;
    hide IsNumeral;
  }

  /** A token with a point is a float with that text. */
  lemma FloatIs(t: string, rest: seq<string>)
    requires '.' in t
    ensures ParseType([t] + rest) == Ok(Float(t), rest)
  {
    assert t != "\"" && ([t] + rest)[1..] == rest;
  }

  // ---- quoted strings ----

  function Spaced(ws: seq<string>): string {
    if ws == [] then "" else " " + ws[0] + Spaced(ws[1..])
  }

  lemma {:induction false} SpacedIsJoined(ws: seq<string>)
    ensures ws != [] ==> Spaced(ws) == " " + Join(ws)
  {
    if |ws| > 1 {
      SpacedIsJoined(ws[1..]);
    } else if |ws| == 1 {
      assert Spaced(ws[1..]) == "";
    }
  }

  lemma {:induction false} SpacedSnoc(ws: seq<string>, w: string)
    ensures Spaced(ws + [w]) == Spaced(ws) + " " + w
  {
    if ws == [] {
      assert [w][1..] == [] && [] + [w] == [w];
    } else {
      assert (ws + [w])[1..] == ws[1..] + [w];
      SpacedSnoc(ws[1..], w);
    }
  }

  lemma {:induction false} JoinEnds(ws: seq<string>)
    requires Quotable(ws) && ws != []
    ensures var j := Join(ws); j != "" && !IsSpace(j[0]) && !IsSpace(j[|j| - 1])
  {
    hide IsSpace;
    assert Clean(ws[0]);
    if |ws| > 1 { JoinEnds(ws[1..]); }
  }

  lemma StripSpaced(ws: seq<string>)
    requires Quotable(ws)
    ensures Strip(Spaced(ws)) == Join(ws)
  {
    if ws != [] {
      SpacedIsJoined(ws);
      JoinEnds(ws);
      hide Quotable, Join;
      var j := Join(ws);
      assert IsSpace(' ');
      SpaceLengthIs(" " + j, 1);
      assert (" " + j)[1..] == j;
    }
  }

  lemma SplitSpaced(s: string)
    ensures StartsWithSpace(" " + s) && Split(" " + s) == Split(s)
  {
    assert IsSpace(' ') && (" " + s)[1..] == s;
  }

  lemma {:induction false} SplitJoin(ws: seq<string>)
    requires Quotable(ws)
    ensures Split(Join(ws)) == ws
  {
    hide IsSpace;
    if ws != [] {
      assert Clean(ws[0]);
      SplitWord(ws[0]);
      if |ws| == 1 {
        assert ws == [ws[0]];
      } else {
        SplitJoin(ws[1..]);
        var tail := Join(ws[1..]);
        SplitSpaced(tail);
        SplitAppend(ws[0], " " + tail);
        hide Split, Quotable;
        assert Join(ws) == ws[0] + (" " + tail);
        assert ws == [ws[0]] + ws[1..];
      }
    }
  }

  lemma {:induction false} ParseWords(ws: seq<string>, result: string, rest: seq<string>)
    requires Quotable(ws)
    ensures ParseStr(ws + ["\""] + rest, result) == Ok(Str(Strip(result + Spaced(ws))), rest)
  {
    hide Strip, Clean;
    var ts := ws + ["\""] + rest;
    if ws == [] {
      assert ts[1..] == rest && result + "" == result;
    } else {
      assert ts[1..] == ws[1..] + ["\""] + rest;
      ParseWords(ws[1..], result + " " + ws[0], rest);
      assert result + Spaced(ws) == result + " " + ws[0] + Spaced(ws[1..]);
    }
  }

  lemma ParseQuoted(s: string, rest: seq<string>)
    requires GoodString(s)
    ensures ParseType(["\""] + Split(s) + ["\""] + rest) == Ok(Str(s), rest)
  {
    hide Split, Strip;
    var ws := Split(s);
    ParseWords(ws, "", rest);
    StripSpaced(ws);
    assert "" + Spaced(ws) == Spaced(ws);
    assert (["\""] + ws + ["\""] + rest)[1..] == ws + ["\""] + rest;
  }

  // ---- the parser on a tree's tokens ----

  lemma ParseIntToken(i: int, rest: seq<string>)
    ensures IntText(i) !in ["{", "[", "]", "}", "\""] && ParseType([IntText(i)] + rest) == Ok(Int(i), rest)
  {
    IntTextIsClean(i);
    IntRoundTrip(i);
    hide IntText, IntValue, Clean;
    var s := IntText(i);
    assert !('.' in s);
    assert s != "";
    assert !IsDigit('{') && !IsDigit('[') && !IsDigit(']') && !IsDigit('}') && !IsDigit('"');
    assert s[0] !in "{[]}\"";
    assert ([s] + rest)[1..] == rest;
  }

  lemma ParseScalar(v: Value, rest: seq<string>)
    requires GoodScalar(v)
    ensures var ts := TokensOfVal(v) + rest; ts != [] && ts[0] !in ["{", "[", "]"] && ParseType(ts) == Ok(v, rest)
  {
    hide GoodString, IntText, Split, ParseType;
    match v {
      case Int(i) => ParseIntToken(i, rest);
      case Str(s) => ParseQuoted(s, rest);
    }
  }

  lemma {:induction false} ParseItems(items: seq<Value>, done: seq<Value>, rest: seq<string>)
    requires forall i :: 0 <= i < |items| ==> GoodScalar(items[i])
    ensures ParseArray(TokensOfItems(items) + ["]"] + rest, done) == Ok(List(done + items), rest)
  {
    hide GoodScalar, TokensOfVal, ParseType;
    var ts := TokensOfItems(items) + ["]"] + rest;
    if items == [] {
      assert ts[1..] == rest && done + items == done;
    } else {
      var more := TokensOfItems(items[1..]) + ["]"] + rest;
      assert ts == TokensOfVal(items[0]) + more;
      ParseScalar(items[0], more);
      ParseItems(items[1..], done + [items[0]], rest);
      assert done + items == done + [items[0]] + items[1..];
    }
  }

  lemma ParseListTokens(items: seq<Value>, rest: seq<string>)
    requires forall i :: 0 <= i < |items| ==> GoodScalar(items[i])
    ensures ParseValue(["["] + TokensOfItems(items) + ["]"] + rest) == Ok(List(items), rest)
  {
    hide GoodScalar, TokensOfItems, ParseArray, ParseSection, ParseType;
    ParseItems(items, [], rest);
    assert (["["] + TokensOfItems(items) + ["]"] + rest)[1..] == TokensOfItems(items) + ["]"] + rest;
    assert [] + items == items;
  }

  lemma ParseBraces(d: Tree, rest: seq<string>)
    requires ParseSection(TokensOfDict(d) + ["}"] + rest, []) == Ok(d, rest)
    ensures ParseValue(["{"] + TokensOfDict(d) + ["}"] + rest) == Ok(Section(d), rest)
  {
    hide TokensOfDict, ParseArray, ParseSection, ParseType;
    assert (["{"] + TokensOfDict(d) + ["}"] + rest)[1..] == TokensOfDict(d) + ["}"] + rest;
  }

  lemma {:induction false} ParseVal(v: Value, rest: seq<string>)
    requires WF(v)
    ensures ParseValue(TokensOfVal(v) + rest) == Ok(v, rest)
    decreases v
  {
    hide GoodString, ParseSection, ParseArray, ParseType, TokensOfDict, TokensOfItems, Split, IntText;
    match v {
      case Int(i) => ParseScalar(v, rest);
      case Str(s) => ParseScalar(v, rest);
      case List(items) => ParseListTokens(items, rest);
      case Section(d) =>
        ParseDict(d, [], ["}"] + rest);
        assert ParseSection(["}"] + rest, d) == Ok(d, rest) by { ParseEnd(d, rest); }
        assert [] + d == d;
        assert TokensOfDict(d) + (["}"] + rest) == TokensOfDict(d) + ["}"] + rest;
        ParseBraces(d, rest);
    }
  }

  lemma ParseEnd(d: Tree, rest: seq<string>)
    ensures ParseSection(["}"] + rest, d) == Ok(d, rest)
  {
    assert (["}"] + rest)[1..] == rest;
  }

  /** Reading a tree's tokens adds its entries to those read before, in order. */
  lemma {:induction false} ParseDict(d: Tree, done: Tree, rest: seq<string>)
    requires WFTree(d) && DistinctKeys(done + d)
    ensures ParseSection(TokensOfDict(d) + rest, done) == ParseSection(rest, done + d)
    decreases d
  {
    hide WF, Clean, TokensOfVal, ParseValue, SetItem;
    if d == [] {
      assert TokensOfDict(d) + rest == rest && done + d == done;
    } else {
      var e := d[0];
      var more := TokensOfDict(d[1..]) + rest;
      var ts := TokensOfDict(d) + rest;
      assert ts == [e.key] + (TokensOfVal(e.value) + more);
      assert ts[1..] == TokensOfVal(e.value) + more;
      ParseVal(e.value, more);
      assert done + d == done + [e] + d[1..];
      FreshKey(done, d);
      assert WFTree(d[1..]);
      ParseDict(d[1..], done + [e], rest);
    }
  }

  lemma FreshKey(done: Tree, d: Tree)
    requires d != [] && DistinctKeys(done + d)
    ensures SetItem(done, d[0].key, d[0].value) == done + [d[0]]
  {
    var all := done + d;
    forall e | e in done ensures e.key != d[0].key {
      var i :| 0 <= i < |done| && done[i] == e;
      assert all[i] == e && all[|done|] == d[0];
    }
  }

  /** What a decoder should say of a tree. */
  function NamedTree(d: Tree): Named {
    Named(if d == [] then None else Some(d[0].key), d)
  }

  /** Every token is read, and the tree comes back, its first key as the name. */
  lemma RoundTrip(d: Tree)
    requires WFTree(d)
    ensures PrintableTree(d) && DecodeData(EncodeData(d).value) == Ok(NamedTree(d), [])
  {
    hide ParseSection, Tokens, EncodeDict, Clean;
    WFPrints(d);
    EncodedTokens(d);
    ParseDict(d, [], []);
    assert [] + d == d && TokensOfDict(d) + [] == TokensOfDict(d);
    assert ParseSection([], d) == Ok(d, []) by { ParseNothing(d); }
    assert d != [] ==> TokensOfDict(d)[0] == d[0].key;
  }

  lemma ParseNothing(d: Tree)
    ensures ParseSection([], d) == Ok(d, [])
  {}

  lemma {:induction false} WFPrints(d: Tree)
    requires WFTree(d)
    ensures PrintableTree(d)
    decreases d
  {
    hide Clean;
    forall i | 0 <= i < |d| ensures Printable(d[i].value) { WFPrintsVal(d[i].value); }
  }

  lemma {:induction false} WFPrintsVal(v: Value)
    requires WF(v)
    ensures Printable(v)
    decreases v
  {
    if v.Section? { WFPrints(v.entries); }
  }
}
