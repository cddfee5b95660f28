/** Which metadata trees survive being printed, and what their text's tokens are. */
module LvmEncoding {
  import opened Strings
  import opened LvmText
  import opened LvmTokens

  // ---- well-formed trees ----

  function Join(ws: seq<string>): string {
    if ws == [] then "" else if |ws| == 1 then ws[0] else ws[0] + " " + Join(ws[1..])
  }

  /** Words that stand in a quoted string. */
  predicate Quotable(ws: seq<string>) {
    forall i :: 0 <= i < |ws| ==> Clean(ws[i]) && ws[i] != "\""
  }

  /** A string made of clean words with single spaces between them. */
  predicate GoodString(s: string) {
    s == Join(Split(s)) && Quotable(Split(s))
  }

  predicate GoodKey(k: string) {
    Clean(k) && k != "}"
  }

  /** What one element of an array may be. */
  predicate GoodScalar(v: Value) {
    v.Int? || (v.Str? && GoodString(v.s))
  }

  predicate WF(v: Value) {
    match v
    case Int(_) => true
    case Float(_) => false
    case Str(s) => GoodString(s)
    case List(items) => forall i :: 0 <= i < |items| ==> GoodScalar(items[i])
    case Section(d) => WFTree(d)
  }

  predicate WFTree(d: Tree) {
    DistinctKeys(d) && forall i :: 0 <= i < |d| ==> GoodKey(d[i].key) && WF(d[i].value)
  }

  // ---- the tokens of a tree ----

  function TokensOfVal(v: Value): seq<string> {
    match v
    case Int(i) => [IntText(i)]
    case Float(_) => []
    case Str(s) => ["\""] + Split(s) + ["\""]
    case List(items) => ["["] + TokensOfItems(items) + ["]"]
    case Section(d) => ["{"] + TokensOfDict(d) + ["}"]
  }

  function TokensOfItems(items: seq<Value>): seq<string> {
    if items == [] then [] else TokensOfVal(items[0]) + TokensOfItems(items[1..])
  }

  function TokensOfDict(d: Tree): seq<string> {
    if d == [] then [] else [d[0].key] + TokensOfVal(d[0].value) + TokensOfDict(d[1..])
  }

  // ---- texts and their tokens ----

  predicate NoHash(s: string) { forall i :: 0 <= i < |s| ==> s[i] != '#' }

  ghost predicate Spells(s: string, ts: seq<string>) {
    NoHash(s) && Split(Expand(s)) == ts
  }

  lemma SpellsAppend(a: string, ta: seq<string>, b: string, tb: seq<string>)
    requires Spells(a, ta) && Spells(b, tb)
    requires Expand(a) == "" || Expand(b) == "" || EndsWithSpace(Expand(a)) || StartsWithSpace(Expand(b))
    ensures Spells(a + b, ta + tb) == true && Expand(a + b) == Expand(a) + Expand(b)
  {
    hide Expand, Split;
    ExpandAppend(a, b);
    SplitAppend(Expand(a), Expand(b));
  }

  /** Something that comes to white space alone. */
  ghost predicate Separates(sep: string) {
    Spells(sep, []) && EndsWithSpace(Expand(sep)) && StartsWithSpace(Expand(sep))
  }

  lemma SpellsJoin(a: string, ta: seq<string>, sep: string, b: string, tb: seq<string>)
    requires Spells(a, ta) == true && Separates(sep) && Spells(b, tb) == true
    ensures Spells(a + sep + b, ta + tb) == true
  {
    hide Expand, Split, Spells;
    SpellsAppend(a, ta, sep, []);
    SpellsAppend(a + sep, ta + [], b, tb);
    assert ta + [] == ta;
  }

  lemma ExpandEmpty()
    ensures Expand("") == ""
  {
    ReplaceNone("", '[', "[ ");
    ReplaceNone("", ']', " ]");
    ReplaceNone("", '"', " \" ");
    ReplaceNone("", '=', "");
    ReplaceNone("", ',', "");
  }

  lemma ExpandTwo(s: string)
    requires |s| == 2
    ensures Expand(s) == Spell(s[0]) + Spell(s[1])
  {
    assert s == [s[0]] + [s[1]];
    ExpandAppend([s[0]], [s[1]]);
    ExpandOne(s[0]);
    ExpandOne(s[1]);
  }

  lemma SpaceSeparates(s: string)
    requires s == " " || s == "\n" || s == "  "
    ensures Split(s) == [] && EndsWithSpace(s) && StartsWithSpace(s)
  {
    assert IsSpace(' ') && IsSpace('\n');
    SkipSpace(s, |s|);
    assert s[|s|..] == "";
  }

  lemma Separators()
    ensures Separates(" ") == true && Separates("\n") == true && Separates(" = ") == true && Separates(", ") == true
  {
    hide Expand, Split, EndsWithSpace, StartsWithSpace;
    ExpandOne(' ');
    ExpandOne('\n');
    ExpandTwo(", ");
    assert " = " == " =" + " ";
    ExpandTwo(" =");
    ExpandAppend(" =", " ");
    SpaceSeparates(" ");
    SpaceSeparates("\n");
    SpaceSeparates("  ");
    assert Spell(' ') == " " && Spell('\n') == "\n" && Spell(',') + " " == " ";
    assert Spell(' ') + Spell('=') + " " == "  ";
  }

  lemma CleanSpells(w: string)
    requires Clean(w)
    ensures Spells(w, [w]) == true
  {
    hide Expand, Split;
    CleanSplits(w);
  }

  lemma NothingSpells()
    ensures Spells("", []) == true
  {
    ExpandEmpty();
  }

  lemma {:induction false} WordsSpell(ws: seq<string>)
    requires Quotable(ws)
    ensures Spells(Join(ws), ws) == true
  {
    hide Spells, Clean, Separates;
    Separators();
    if ws == [] {
      NothingSpells();
    } else {
      CleanSpells(ws[0]);
      if |ws| == 1 {
        assert ws == [ws[0]];
      } else {
        WordsSpell(ws[1..]);
        SpellsJoin(ws[0], [ws[0]], " ", Join(ws[1..]), ws[1..]);
        assert [ws[0]] + ws[1..] == ws;
      }
    }
  }

  lemma IntTextIsClean(i: int)
    ensures Clean(IntText(i)) && forall k :: 0 <= k < |IntText(i)| ==> IsDigit(IntText(i)[k]) || IntText(i)[k] == '-'
  {
    var s := IntText(i);
    forall k | 0 <= k < |s| ensures IsDigit(s[k]) || s[k] == '-' {}
    assert forall c: char :: IsDigit(c) || c == '-' ==> !IsSpace(c);
  }

  lemma QuotedSpells(s: string)
    requires GoodString(s)
    ensures Spells("\"" + s + "\"", ["\""] + Split(s) + ["\""]) == true
  {
    hide Split, Spells;
    WordsSpell(Split(s));
    QuoteSpells();
    SpellsAppend("\"", ["\""], s, Split(s));
    SpellsAppend("\"" + s, ["\""] + Split(s), "\"", ["\""]);
  }

  lemma QuoteSpells()
    ensures Spells("\"", ["\""]) == true && EndsWithSpace(Expand("\"")) && StartsWithSpace(Expand("\""))
  {
    hide Expand, Spells;
    CleanSpells("\"");
    ExpandOne('"');
    assert IsSpace(' ');
  }

  lemma BracketsSpell()
    ensures Spells("[", ["["]) == true && EndsWithSpace(Expand("["))
    ensures Spells("]", ["]"]) == true && StartsWithSpace(Expand("]"))
  {
    hide Expand, Spells;
    CleanSpells("[");
    CleanSpells("]");
    ExpandOne('[');
    ExpandOne(']');
    assert IsSpace(' ');
  }

  lemma {:induction false} ScalarSpells(v: Value)
    requires GoodScalar(v)
    ensures Spells(EncodeVal(v), TokensOfVal(v)) == true
  {
    hide Spells, GoodString;
    match v {
      case Int(i) => IntTextIsClean(i); CleanSpells(IntText(i));
      case Str(s) => QuotedSpells(s);
    }
  }

  lemma {:induction false} ItemsSpell(items: seq<Value>)
    requires forall i :: 0 <= i < |items| ==> GoodScalar(items[i])
    ensures Spells(EncodeItems(items), TokensOfItems(items)) == true
  {
    hide Spells, Separates, GoodScalar, EncodeVal, TokensOfVal;
    if items == [] {
      NothingSpells();
    } else {
      ScalarSpells(items[0]);
      ItemsSpell(items[1..]);
      if |items| == 1 {
        assert TokensOfItems(items) == TokensOfVal(items[0]) + [];
        assert TokensOfVal(items[0]) + [] == TokensOfVal(items[0]);
      } else {
        Separators();
        SpellsJoin(EncodeVal(items[0]), TokensOfVal(items[0]), ", ", EncodeItems(items[1..]),
                   TokensOfItems(items[1..]));
      }
    }
  }

  lemma ListSpells(items: seq<Value>)
    requires forall i :: 0 <= i < |items| ==> GoodScalar(items[i])
    ensures Spells("[" + EncodeItems(items) + "]", ["["] + TokensOfItems(items) + ["]"]) == true
  {
    hide Spells, GoodScalar, EncodeItems, TokensOfItems;
    ItemsSpell(items);
    BracketsSpell();
    SpellsAppend("[", ["["], EncodeItems(items), TokensOfItems(items));
    SpellsAppend("[" + EncodeItems(items), ["["] + TokensOfItems(items), "]", ["]"]);
  }

  lemma EndsInNewline(s: string)
    requires s != "" && s[|s| - 1] == '\n'
    ensures EndsWithSpace(Expand(s))
  {
    var t := s[..|s| - 1];
    assert s == t + "\n";
    ExpandAppend(t, "\n");
    ExpandOne('\n');
    assert IsSpace('\n');
  }

  lemma {:induction false} DictEnds(d: Tree)
    ensures d != [] ==> EncodeDict(d) != "" && EncodeDict(d)[|EncodeDict(d)| - 1] == '\n'
  {
    hide EncodeVal;
    if d != [] { DictEnds(d[1..]); }
  }

  lemma BracesSpell(d: Tree)
    requires Spells(EncodeDict(d), TokensOfDict(d)) == true
    ensures Spells("{\n" + EncodeDict(d) + "}\n", ["{"] + TokensOfDict(d) + ["}"]) == true
  {
    hide Spells, EncodeDict, TokensOfDict, Separates;
    Separators();
    CleanSpells("{");
    CleanSpells("}");
    NothingSpells();
    SpellsJoin("{", ["{"], "\n", EncodeDict(d), TokensOfDict(d));
    SpellsJoin("}", ["}"], "\n", "", []);
    var open := "{\n" + EncodeDict(d);
    assert open == "{" + "\n" + EncodeDict(d);
    assert "}\n" == "}" + "\n" + "";
    assert ["}"] + [] == ["}"];
    BraceEnds(d);
    SpellsAppend(open, ["{"] + TokensOfDict(d), "}\n", ["}"]);
  }

  lemma BraceEnds(d: Tree)
    ensures EndsWithSpace(Expand("{\n" + EncodeDict(d)))
  {
    hide Expand;
    DictEnds(d);
    EndsInNewline("{\n" + EncodeDict(d));
  }

  lemma {:induction false} ValSpells(v: Value)
    requires WF(v)
    ensures Spells(EncodeVal(v), TokensOfVal(v)) == true
    decreases v
  {
    hide Spells, GoodString;
    match v {
      case Int(_) => ScalarSpells(v);
      case Str(_) => QuotedSpells(v.s);
      case List(items) => ListSpells(items);
      case Section(d) => DictSpells(d); BracesSpell(d);
    }
  }

  lemma {:induction false} DictSpells(d: Tree)
    requires WFTree(d)
    ensures Spells(EncodeDict(d), TokensOfDict(d)) == true
    decreases d
  {
    hide Spells, EncodeVal, TokensOfVal, Clean, Separates;
    if d == [] {
      NothingSpells();
    } else {
      assert WFTree(d[1..]);
      ValSpells(d[0].value);
      DictSpells(d[1..]);
      CleanSpells(d[0].key);
      Separators();
      var sep := if d[0].value.Section? then " " else " = ";
      var line, ts := d[0].key + sep + EncodeVal(d[0].value), [d[0].key] + TokensOfVal(d[0].value);
      SpellsJoin(d[0].key, [d[0].key], sep, EncodeVal(d[0].value), TokensOfVal(d[0].value));
      SpellsJoin(line, ts, "\n", EncodeDict(d[1..]), TokensOfDict(d[1..]));
    }
  }

  lemma {:induction false} NoCommentsToStrip(s: string)
    requires NoHash(s)
    ensures StripComments(s) == s
  {
    if s != "" {
      NoCommentsToStrip(s[1..]);
    }
  }

  lemma OneLine(key: string, v: Value)
    ensures EncodeDict([Entry(key, v)]) == key + (if v.Section? then " " else " = ") + EncodeVal(v) + "\n"
  {
    assert [Entry(key, v)][1..] == [];
  }

  lemma {:induction false} Lines(d: Tree, e: Tree)
    ensures EncodeDict(d + e) == EncodeDict(d) + EncodeDict(e)
  {
    if d == [] {
      assert d + e == e;
    } else {
      assert (d + e)[1..] == d[1..] + e;
      Lines(d[1..], e);
    }
  }

  /** What the text looks like. */
  lemma PrintedLikeThis()
    ensures var flags := Entry("flags", List([Str("A"), Int(1)]));
      var vg := [Entry("id", Str("x y"))] + [Entry("seqno", Int(-7))] + [flags];
      EncodeDict([Entry("vg", Section(vg))])
      == "vg {\n" + "id = \"x y\"\n" + "seqno = -7\n" + "flags = [\"A\", 1]\n" + "}\n\n"
  {
    var flags := Entry("flags", List([Str("A"), Int(1)]));
    var vg := [Entry("id", Str("x y"))] + [Entry("seqno", Int(-7))] + [flags];
    SomeLines();
    OneLine("vg", Section(vg));
    assert EncodeVal(Section(vg)) == "{\n" + EncodeDict(vg) + "}\n";
    hide EncodeDict, EncodeVal, EncodeItems;
  }

  lemma SomeLines()
    ensures var flags := Entry("flags", List([Str("A"), Int(1)]));
      EncodeDict([Entry("id", Str("x y"))] + [Entry("seqno", Int(-7))] + [flags])
      == "id = \"x y\"\n" + "seqno = -7\n" + "flags = [\"A\", 1]\n"
  {
    var id, seqno := [Entry("id", Str("x y"))], [Entry("seqno", Int(-7))];
    var items := [Str("A"), Int(1)];
    var flags := [Entry("flags", List(items))];
    SomeValues();
    hide EncodeDict, EncodeVal, EncodeItems;
    OneLine("id", Str("x y"));
    OneLine("seqno", Int(-7));
    OneLine("flags", List(items));
    Lines(id, seqno);
    Lines(id + seqno, flags);
  }

  lemma SomeValues()
    ensures EncodeVal(Str("x y")) == "\"x y\"" && EncodeVal(Int(-7)) == "-7"
    ensures EncodeVal(List([Str("A"), Int(1)])) == "[\"A\", 1]"
  {
    assert Digits(7) == "7" && Digits(1) == "1";
    var items := [Str("A"), Int(1)];
    assert items[1..] == [Int(1)];
    assert EncodeItems([Int(1)]) == "1";
    assert EncodeItems(items) == "\"A\"" + ", " + "1";
  }

  /** The decoder finds just the tree's tokens. */
  lemma EncodedTokens(d: Tree)
    requires WFTree(d)
    ensures Tokens(EncodeDict(d) + "\0") == TokensOfDict(d)
  {
    hide Expand, Split, EncodeDict, TokensOfDict, WFTree, Collapse;
    var s := EncodeDict(d);
    DictSpells(d);
    NoCommentsToStrip(s + "\0");
    ExpandAppend(s, "\0");
    ExpandOne('\0');
    SplitDropNul(Expand(s + "\0"));
    assert Spell('\0') == "\0";
    assert DropNul(Expand(s) + "\0") == Expand(s);
  }
}
