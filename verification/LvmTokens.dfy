/** What the substitutions and the split make of a text. */
module LvmTokens {
  import opened LvmText

  // ---- splitting ----

  predicate EndsWithSpace(s: string) { s != "" && IsSpace(s[|s| - 1]) }

  predicate StartsWithSpace(s: string) { s != "" && IsSpace(s[0]) }

  predicate NoSpace(s: string) { forall i :: 0 <= i < |s| ==> !IsSpace(s[i]) }

  lemma WordLengthIs(s: string, n: nat)
    requires n <= |s| && (forall i :: 0 <= i < n ==> !IsSpace(s[i])) && (n < |s| ==> IsSpace(s[n]))
    ensures WordLength(s) == n
  {
    hide IsSpace;
  }

  lemma {:induction false} SplitAppend(a: string, b: string)
    requires a == "" || b == "" || EndsWithSpace(a) || StartsWithSpace(b)
    ensures Split(a + b) == Split(a) + Split(b)
  {
    hide IsSpace;
    if a == "" {
      assert a + b == b;
    } else if IsSpace(a[0]) {
      assert (a + b)[1..] == a[1..] + b;
      SplitAppend(a[1..], b);
    } else {
      var n := WordLength(a);
      assert (a + b)[..n] == a[..n] && (a + b)[n..] == a[n..] + b;
      WordLengthIs(a + b, n);
      SplitAppend(a[n..], b);
    }
  }

  lemma SplitWord(w: string)
    requires w != "" && NoSpace(w)
    ensures Split(w) == [w]
  {
    assert w[..|w|] == w;
    WordLengthIs(w, |w|);
    assert w[|w|..] == "";
  }

  /** A word among white space. */
  lemma SplitPadded(before: string, w: string, after: string)
    requires w != "" && NoSpace(w) && (before == "" || before == " ") && (after == "" || after == " ")
    ensures Split(before + w + after) == [w]
  {
    SplitWord(w);
    SplitAppend(before + w, after);
    SplitAppend(before, w);
    assert Split(" ") == [] by { assert IsSpace(' ') && " "[1..] == ""; }
  }

  lemma {:induction false} SplitCollapse(s: string)
    ensures Split(Collapse(s)) == Split(s)
    decreases |s|
  {
    if s == "" {
    } else if IsSpace(s[0]) {
      var n := SpaceLength(s);
      SplitCollapse(s[n..]);
      assert Collapse(s) == " " + Collapse(s[n..]) && IsSpace(' ');
      assert Collapse(s)[1..] == Collapse(s[n..]);
      SkipSpace(s, n);
    } else {
      var n := WordLength(s);
      CollapseWord(s[..n], s[n..]);
      assert s == s[..n] + s[n..];
      SplitCollapse(s[n..]);
      SplitWord(s[..n]);
      CollapseStarts(s[n..]);
      SplitAppend(s[..n], Collapse(s[n..]));
    }
  }

  lemma CollapseStarts(s: string)
    requires s == "" || IsSpace(s[0])
    ensures Collapse(s) == "" || StartsWithSpace(Collapse(s))
  {
    assert IsSpace(' ');
  }

  lemma {:induction false} SkipSpace(s: string, n: nat)
    requires n <= |s| && forall i :: 0 <= i < n ==> IsSpace(s[i])
    ensures Split(s) == Split(s[n..])
  {
    hide IsSpace;
    if n == 0 {
      assert s[0..] == s;
    } else {
      SkipSpace(s[1..], n - 1);
      assert s[1..][n - 1..] == s[n..];
    }
  }

  lemma {:induction false} CollapseWord(w: string, s: string)
    requires NoSpace(w)
    ensures Collapse(w + s) == w + Collapse(s)
  {
    hide IsSpace;
    if w == "" {
      assert w + s == s;
    } else {
      assert (w + s)[1..] == w[1..] + s;
      CollapseWord(w[1..], s);
    }
  }

  lemma {:induction false} CollapseSnoc(s: string, c: char)
    requires !IsSpace(c)
    ensures Collapse(s + [c]) == Collapse(s) + [c]
    decreases |s|
  {
    hide IsSpace;
    if s == "" {
      assert s + [c] == [c] && [c][1..] == "";
    } else if IsSpace(s[0]) {
      var n := SpaceLength(s);
      assert SpaceLength(s + [c]) == n by { SpaceLengthIs(s + [c], n); }
      assert (s + [c])[n..] == s[n..] + [c];
      CollapseSnoc(s[n..], c);
    } else {
      assert (s + [c])[1..] == s[1..] + [c];
      CollapseSnoc(s[1..], c);
    }
  }

  lemma SpaceLengthIs(s: string, n: nat)
    requires n <= |s| && (forall i :: 0 <= i < n ==> IsSpace(s[i])) && (n < |s| ==> !IsSpace(s[n]))
    ensures SpaceLength(s) == n
  {}

  lemma {:induction false} CollapseLast(s: string)
    requires EndsWithSpace(s)
    ensures EndsWithSpace(Collapse(s))
    decreases |s|
  {
    if IsSpace(s[0]) {
      var n := SpaceLength(s);
      assert IsSpace(' ');
      if n < |s| { CollapseLast(s[n..]); }
    } else {
      CollapseLast(s[1..]);
    }
  }

  /** Only a last NUL is lost, whether before or after white space is collapsed. */
  lemma SplitDropNul(s: string)
    ensures Split(DropNul(Collapse(s))) == Split(DropNul(s))
  {
    assert !IsSpace('\0');
    hide IsSpace, Split;
    if s == "" {
    } else if IsSpace(s[|s| - 1]) {
      CollapseLast(s);
      SplitCollapse(s);
    } else {
      var before, c := s[..|s| - 1], s[|s| - 1];
      assert s == before + [c];
      CollapseSnoc(before, c);
      assert Collapse(s)[..|Collapse(s)| - 1] == Collapse(before);
      SplitCollapse(s);
      SplitCollapse(before);
    }
  }

  // ---- single characters ----

  lemma {:induction false} ReplaceAppend(a: string, b: string, c: char, repl: string)
    ensures Replace(a + b, c, repl) == Replace(a, c, repl) + Replace(b, c, repl)
  {
    if a == "" {
      assert a + b == b;
    } else {
      assert (a + b)[1..] == a[1..] + b;
      ReplaceAppend(a[1..], b, c, repl);
    }
  }

  lemma ExpandAppend(a: string, b: string)
    ensures Expand(a + b) == Expand(a) + Expand(b)
  {
    hide Replace;
    ReplaceAppend(a, b, '[', "[ ");
    var a1, b1 := Replace(a, '[', "[ "), Replace(b, '[', "[ ");
    ReplaceAppend(a1, b1, ']', " ]");
    var a2, b2 := Replace(a1, ']', " ]"), Replace(b1, ']', " ]");
    ReplaceAppend(a2, b2, '"', " \" ");
    var a3, b3 := Replace(a2, '"', " \" "), Replace(b2, '"', " \" ");
    ReplaceAppend(a3, b3, '=', "");
    ReplaceAppend(Replace(a3, '=', ""), Replace(b3, '=', ""), ',', "");
  }

  /** What becomes of one character. */
  function Spell(c: char): string {
    if c == '[' then "[ " else if c == ']' then " ]" else if c == '"' then " \" " else if c == '=' || c == ',' then ""
      else [c]
  }

  lemma ReplaceOne(x: char, c: char, repl: string)
    ensures Replace([x], c, repl) == if x == c then repl else [x]
  {
    assert [x][1..] == "";
    assert Replace("", c, repl) == "";
  }

  lemma ReplaceNone(s: string, c: char, repl: string)
    requires |s| <= 3 && forall i :: 0 <= i < |s| ==> s[i] != c
    ensures Replace(s, c, repl) == s
  {
    if s != "" {
      ReplaceNone(s[1..], c, repl);
    }
  }

  lemma ExpandOne(c: char)
    ensures Expand([c]) == Spell(c)
  {
    hide Replace;
    ReplaceOne(c, '[', "[ ");
    ReplaceOne(c, ']', " ]");
    ReplaceOne(c, '"', " \" ");
    ReplaceOne(c, '=', "");
    ReplaceOne(c, ',', "");
    ReplaceNone("[ ", ']', " ]");
    ReplaceNone("[ ", '"', " \" ");
    ReplaceNone("[ ", '=', "");
    ReplaceNone("[ ", ',', "");
    ReplaceNone(" ]", '"', " \" ");
    ReplaceNone(" ]", '=', "");
    ReplaceNone(" ]", ',', "");
    ReplaceNone(" \" ", '=', "");
    ReplaceNone(" \" ", ',', "");
    ReplaceNone("", ',', "");
  }

  /** What becomes of each special character; all others stay, by `ExpandPlain`. */
  lemma ExpandSpecial()
    ensures Expand("[") == "[ " && Expand("]") == " ]" && Expand("\"") == " \" " && Expand("=") == Expand(",") == ""
  {
    hide Expand;
    ExpandOne('[');
    ExpandOne(']');
    ExpandOne('"');
    ExpandOne('=');
    ExpandOne(',');
  }

  lemma ExpandCons(s: string)
    requires s != ""
    ensures Expand(s) == Spell(s[0]) + Expand(s[1..])
  {
    hide Expand, Spell;
    assert s == [s[0]] + s[1..];
    ExpandAppend([s[0]], s[1..]);
    ExpandOne(s[0]);
  }

  // ---- clean words ----

  /** A word that can be a token. */
  predicate Clean(w: string) {
    && w != "" && NoSpace(w)
    && (forall i :: 0 <= i < |w| ==> w[i] != '#' && w[i] != '=' && w[i] != ',')
    && (forall i :: 0 <= i < |w| && w[i] == '[' ==> i == |w| - 1)
    && (forall i :: 0 <= i < |w| && w[i] == ']' ==> i == 0)
    && (forall i :: 0 <= i < |w| && w[i] == '"' ==> |w| == 1)
  }

  lemma {:induction false} ExpandPlain(w: string)
    requires forall i :: 0 <= i < |w| ==> w[i] !in "[]\"=,"
    ensures Expand(w) == w
  {
    if w == "" {
    } else {
      ExpandCons(w);
      hide Expand;
      assert w[0] !in "[]\"=,";
      ExpandPlain(w[1..]);
      assert w == [w[0]] + w[1..];
    }
  }

  /** A clean word is its own token. */
  lemma CleanSplits(w: string)
    requires Clean(w)
    ensures Split(Expand(w)) == [w] && Expand(w) != ""
  {
    hide Expand, IsSpace, Split;
    if |w| == 1 {
      ExpandOne(w[0]);
      assert w == [w[0]];
      OneSplits(w);
    } else {
      var front, last := w[..|w| - 1], w[|w| - 1];
      var first, mid := [w[0]], w[1..|w| - 1];
      assert w == first + mid + [last];
      ExpandAppend(first + mid, [last]);
      ExpandAppend(first, mid);
      ExpandOne(w[0]);
      ExpandOne(last);
      CleanParts(w, mid);
      hide Clean;
      ExpandPlain(mid);
      var before, after := if w[0] == ']' then " " else "", if last == '[' then " " else "";
      assert before + first + mid + ([last] + after) == before + w + after;
      SplitPadded(before, w, after);
    }
  }

  lemma CleanParts(w: string, mid: string)
    requires Clean(w) && |w| > 1 && mid == w[1..|w| - 1]
    ensures NoSpace(w) && forall i :: 0 <= i < |mid| ==> mid[i] !in "[]\"=,"
    ensures Spell(w[0]) == (if w[0] == ']' then " " else "") + [w[0]]
    ensures Spell(w[|w| - 1]) == [w[|w| - 1]] + (if w[|w| - 1] == '[' then " " else "")
  {
    assert forall i :: 0 <= i < |mid| ==> mid[i] == w[i + 1];
  }

  lemma OneSplits(w: string)
    requires |w| == 1 && Clean(w)
    ensures Split(Spell(w[0])) == [w]
  {
    var before := if w[0] == ']' || w[0] == '"' then " " else "";
    var after := if w[0] == '[' || w[0] == '"' then " " else "";
    assert Spell(w[0]) == before + w + after;
    SplitPadded(before, w, after);
  }
}
