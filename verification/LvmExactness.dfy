/** No other tree survives: whatever the decoder makes of a printed tree is well formed, or holds a
    float, which is never printed. */
module LvmExactness {
  import opened Strings
  import opened LvmText
  import opened LvmTokens
  import opened LvmEncoding
  import opened LvmRoundTrip

  // ---- the tokens of a printed text are clean ----

  ghost predicate ApartAt(s: string, i: nat)
    requires i < |s|
  {
    && s[i] != '#' && s[i] != '=' && s[i] != ','
    && (s[i] == '[' || s[i] == '"' ==> i + 1 < |s| && IsSpace(s[i + 1]))
    && (s[i] == ']' || s[i] == '"' ==> i > 0 && IsSpace(s[i - 1]))
  }

  /** After the substitutions brackets and quotes stand apart, and the rest of the syntax is gone. */
  ghost predicate Apart(s: string) {
    forall i :: 0 <= i < |s| ==> ApartAt(s, i)
  }

  lemma ApartAppend(a: string, b: string)
    requires Apart(a) && Apart(b)
    ensures Apart(a + b) == true
  {
    hide IsSpace;
    var s := a + b;
    forall i | 0 <= i < |s| ensures ApartAt(s, i) {
      if i < |a| {
        assert ApartAt(a, i);
      } else {
        assert ApartAt(b, i - |a|);
      }
    }
  }

  lemma {:induction false} ExpandApart(s: string)
    requires NoHash(s)
    ensures Apart(Expand(s)) == true
  {
    hide Expand, Apart;
    if s == "" {
      ExpandEmpty();
      assert Apart("") == true by { NothingApart(); }
    } else {
      ExpandCons(s);
      ExpandApart(s[1..]);
      SpellApart(s[0]);
      ApartAppend(Spell(s[0]), Expand(s[1..]));
    }
  }

  lemma NothingApart()
    ensures Apart("")
  {}

  lemma SpellApart(c: char)
    requires c != '#'
    ensures Apart(Spell(c)) == true
  {
    assert IsSpace(' ');
  }

  /** As `Apart`, but the ends of the text count as white space too. */
  ghost predicate CutAt(s: string, i: nat)
    requires i < |s|
  {
    && s[i] != '#' && s[i] != '=' && s[i] != ','
    && (s[i] == '[' || s[i] == '"' ==> i + 1 == |s| || IsSpace(s[i + 1]))
    && (s[i] == ']' || s[i] == '"' ==> i == 0 || IsSpace(s[i - 1]))
  }

  ghost predicate Cut(s: string) {
    forall i :: 0 <= i < |s| ==> CutAt(s, i)
  }

  lemma CutAfter(s: string, n: nat)
    requires Cut(s) && n <= |s|
    ensures Cut(s[n..])
  {
    hide IsSpace;
    forall i | 0 <= i < |s| - n ensures CutAt(s[n..], i) {
      assert CutAt(s, n + i);
    }
  }

  lemma CutWord(s: string, n: nat)
    requires Cut(s) && 0 < n <= |s| && forall i :: 0 <= i < n ==> !IsSpace(s[i])
    ensures Clean(s[..n])
  {
    hide IsSpace;
    var w := s[..n];
    forall i | 0 <= i < n
      ensures w[i] != '#' && w[i] != '=' && w[i] != ','
      ensures w[i] == '[' ==> i == n - 1
      ensures w[i] == ']' ==> i == 0
      ensures w[i] == '"' ==> n == 1
    {
      assert CutAt(s, i);
    }
  }

  ghost predicate AllClean(ts: seq<string>) {
    forall i :: 0 <= i < |ts| ==> Clean(ts[i])
  }

  lemma {:induction false} SplitClean(s: string)
    requires Cut(s)
    ensures AllClean(Split(s)) == true
    decreases |s|
  {
    hide IsSpace, Cut, Clean;
    if s == "" {
    } else if IsSpace(s[0]) {
      CutAfter(s, 1);
      SplitClean(s[1..]);
    } else {
      var n := WordLength(s);
      CutWord(s, n);
      CutAfter(s, n);
      SplitClean(s[n..]);
      assert Split(s) == [s[..n]] + Split(s[n..]);
    }
  }

  /** A text whose lines all end. */
  predicate LinesEnd(s: string) {
    s == "" || s[|s| - 1] == '\n'
  }

  lemma EncodedLinesEnd(d: Tree)
    ensures LinesEnd(EncodeDict(d)) == true
  {
    DictEnds(d);
  }

  lemma {:induction false} StripsHashes(s: string)
    requires LinesEnd(s)
    ensures NoHash(StripComments(s + "\0"))
    decreases |s|
  {
    var t := s + "\0";
    if s == "" {
      assert t[1..] == "";
      assert StripComments(t[1..]) == "";
    } else if s[0] == '#' {
      var n := Find(t, '\n');
      assert t[|s| - 1] == '\n';
      assert t[n + 1..] == s[n + 1..] + "\0";
      StripsHashes(s[n + 1..]);
    } else {
      assert t[1..] == s[1..] + "\0";
      StripsHashes(s[1..]);
    }
  }

  lemma EncodedTokensAreClean(d: Tree)
    ensures AllClean(Tokens(EncodeDict(d) + "\0")) == true
  {
    hide EncodeDict, Split, Expand, Collapse, StripComments;
    EncodedLinesEnd(d);
    StripsHashes(EncodeDict(d));
    var s := Expand(StripComments(EncodeDict(d) + "\0"));
    ExpandApart(StripComments(EncodeDict(d) + "\0"));
    SplitDropNul(s);
    DropNulCut(s);
    SplitClean(DropNul(s));
  }

  lemma DropNulCut(s: string)
    requires Apart(s)
    ensures Cut(DropNul(s)) == true
  {
    var t := DropNul(s);
    assert !IsSpace('\0');
    forall i | 0 <= i < |t| ensures CutAt(t, i) {
      assert ApartAt(s, i);
    }
  }

  // ---- what the parser makes of clean tokens ----

  /** Well formed but for floats. */
  predicate Sound(v: Value) {
    match v
    case Int(_) => true
    case Float(_) => true
    case Str(s) => GoodString(s)
    case List(items) => forall i :: 0 <= i < |items| ==> items[i].Float? || GoodScalar(items[i])
    case Section(d) => SoundTree(d)
  }

  predicate SoundTree(d: Tree) {
    DistinctKeys(d) && forall i :: 0 <= i < |d| ==> GoodKey(d[i].key) && Sound(d[i].value)
  }

  lemma {:induction false} StrIsGood(ts: seq<string>, ws: seq<string>)
    requires AllClean(ts) && Quotable(ws)
    ensures var r := ParseStr(ts, Spaced(ws)); r.Ok? ==> r.value.Str? && GoodString(r.value.s) && AllClean(r.rest)
    decreases |ts|
  {
    hide Strip, Clean, Split;
    if ts != [] {
      if ts[0] == "\"" {
        StripSpaced(ws);
        SplitJoin(ws);
      } else {
        SpacedSnoc(ws, ts[0]);
        StrIsGood(ts[1..], ws + [ts[0]]);
      }
    }
  }

  lemma TypeIsGood(ts: seq<string>)
    requires AllClean(ts)
    ensures var r := ParseType(ts); r.Ok? ==> (r.value.Float? || GoodScalar(r.value)) && AllClean(r.rest)
  {
    hide Clean, IntValue, GoodString;
    if ts != [] { StrIsGood(ts[1..], []); }
  }

  lemma {:induction false} ArrayIsSound(ts: seq<string>, done: seq<Value>)
    requires AllClean(ts) && Sound(List(done))
    ensures var r := ParseArray(ts, done); r.Ok? ==> Sound(r.value) && AllClean(r.rest)
    decreases |ts|
  {
    hide Clean, GoodScalar, ParseType;
    if ts != [] && ts[0] != "]" {
      TypeIsGood(ts);
      var v := ParseType(ts);
      if v.Ok? { ArrayIsSound(v.rest, done + [v.value]); }
    }
  }

  lemma {:induction false} SectionIsSound(ts: seq<string>, done: Tree)
    requires AllClean(ts) && SoundTree(done)
    ensures var r := ParseSection(ts, done); r.Ok? ==> SoundTree(r.value) && AllClean(r.rest)
    decreases |ts|
  {
    hide Clean, Sound, ParseValue, SetItem;
    if ts != [] && ts[0] != "}" {
      ValueIsSound(ts[1..]);
      var v := ParseValue(ts[1..]);
      if v.Ok? {
        SetItemSound(done, ts[0], v.value);
        SectionIsSound(v.rest, SetItem(done, ts[0], v.value));
      }
    }
  }

  lemma SetItemSound(d: Tree, key: string, value: Value)
    requires SoundTree(d) && GoodKey(key) && Sound(value)
    ensures SoundTree(SetItem(d, key, value))
  {
    hide GoodKey, Sound;
  }

  lemma {:induction false} ValueIsSound(ts: seq<string>)
    requires AllClean(ts)
    ensures var r := ParseValue(ts); r.Ok? ==> Sound(r.value) && AllClean(r.rest)
    decreases |ts|
  {
    hide Clean, ParseType, ParseArray, ParseSection, GoodString;
    if ts != [] && ts[0] == "{" {
      SectionIsSound(ts[1..], []);
    } else if ts != [] && ts[0] == "[" {
      ArrayIsSound(ts[1..], []);
    } else {
      TypeIsGood(ts);
    }
  }

  lemma {:induction false} PrintableSound(v: Value)
    requires Sound(v) && Printable(v)
    ensures WF(v)
    decreases v
  {
    hide GoodString, GoodScalar;
    match v {
      case Section(d) => PrintableSoundTree(d);
      case List(items) => forall i | 0 <= i < |items|
          ensures GoodScalar(items[i]) { assert items[i] in items && Printable(items[i]); }
      case _ =>
    }
  }

  lemma {:induction false} PrintableSoundTree(d: Tree)
    requires SoundTree(d) && PrintableTree(d)
    ensures WFTree(d)
    decreases d
  {
    hide GoodKey;
    forall i | 0 <= i < |d| ensures WF(d[i].value) {
      assert d[i] in d;
      PrintableSound(d[i].value);
    }
  }

  /** The tree can be printed, and decoding the text gives it back, in order, with its first key as
      the name. */
  ghost predicate Survives(d: Tree) {
    && EncodeData(d).Some?
    && var r := DecodeData(EncodeData(d).value);
       r.Ok? && r.value == NamedTree(d)
  }

  lemma SurvivesIff(d: Tree)
    ensures Survives(d) <==> WFTree(d)
  {
    hide WFTree, Tokens, ParseSection, EncodeDict, PrintableTree, SoundTree, AllClean;
    if WFTree(d) {
      RoundTrip(d);
    }
    if Survives(d) {
      EncodedTokensAreClean(d);
      assert SoundTree([]) by { NothingSound(); }
      SectionIsSound(Tokens(EncodeDict(d) + "\0"), []);
      PrintableSoundTree(d);
    }
  }

  lemma NothingSound()
    ensures SoundTree([])
  {}
}
