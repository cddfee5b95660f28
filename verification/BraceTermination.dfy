/** For which texts `brace_expand` ends. */
module BraceTermination {
  import opened Strings
  import opened BraceExpand

  // ---- texts without a stray closing brace ----

  /** No closing brace without an open one before it. */
  ghost predicate Closed(s: string) {
    forall k :: 0 <= k <= |s| ==> Count(s[..k], '}') <= Count(s[..k], '{')
  }

  lemma CountFour(a: string, b: string, c: string, d: string, x: char)
    ensures Count(a + b + c + d, x) == Count(a, x) + Count(b, x) + Count(c, x) + Count(d, x)
  {
    CountAppend(a + b + c, d, x);
    CountAppend(a + b, c, x);
    CountAppend(a, b, x);
  }

  lemma CountBraces(before: string, m: string, behind: string)
    requires Lacks(m, '{') && Lacks(m, '}')
    ensures var s := before + "{" + m + "}" + behind;
      && Count(s, '{') == Count(before, '{') + 1 + Count(behind, '{')
      && Count(s, '}') == Count(before, '}') + 1 + Count(behind, '}')
  {
    CountLacks(m, '{');
    CountLacks(m, '}');
    assert before + "{" + m + "}" + behind == before + ("{" + m + "}") + behind + "";
    CountFour(before, "{" + m + "}", behind, "", '{');
    CountFour(before, "{" + m + "}", behind, "", '}');
    CountFour("{", m, "}", "", '{');
    CountFour("{", m, "}", "", '}');
    assert "{" + m + "}" + "" == "{" + m + "}";
    assert Count("{", '{') == 1 && Count("}", '}') == 1 && Count("{", '}') == 0 && Count("}", '{') == 0;
  }

  lemma ClosedPart(before: string, m: string, behind: string, c: string)
    requires Closed(before + "{" + m + "}" + behind)
    requires Lacks(before, '}') && Lacks(m, '{') && Lacks(m, '}') && Lacks(c, '{') && Lacks(c, '}')
    ensures Closed(before + c + behind) == true
  {
    hide Count;
    var s, t := before + "{" + m + "}" + behind, before + c + behind;
    forall k | 0 <= k <= |t| ensures Count(t[..k], '}') <= Count(t[..k], '{') {
      if k <= |before| + |c| {
        assert Lacks(t[..k], '}');
        CountLacks(t[..k], '}');
      } else {
        var j := k - |before| - |c|;
        ClosedTail(before, m, behind, j);
        assert t[..k] == before + c + behind[..j] + "";
        CountFour(before, c, behind[..j], "", '{');
        CountFour(before, c, behind[..j], "", '}');
        CountLacks(c, '{');
        CountLacks(c, '}');
        CountLacks("", '{');
        CountLacks("", '}');
      }
    }
  }

  lemma ClosedTail(before: string, m: string, behind: string, j: nat)
    requires Closed(before + "{" + m + "}" + behind) && Lacks(m, '{') && Lacks(m, '}') && j <= |behind|
    ensures Count(before, '}') + Count(behind[..j], '}') <= Count(before, '{') + Count(behind[..j], '{')
  {
    hide Count;
    var s := before + "{" + m + "}" + behind;
    CountBraces(before, m, behind[..j]);
    assert s[..|s| - |behind| + j] == before + "{" + m + "}" + behind[..j];
  }

  lemma StuckIsNotClosed(s: string)
    requires Stuck(s)
    ensures !Closed(s)
  {
    var right := Find(s, '}');
    CountLacks(s[..right], '{');
    CountAppend(s[..right], "}", '{');
    CountAppend(s[..right], "}", '}');
    assert s[..right + 1] == s[..right] + "}";
    assert Count("}", '}') == 1 && Count("}", '{') == 0;
    assert Count(s[..right + 1], '}') > Count(s[..right + 1], '{');
  }

  /** The recursion ends on every text without a stray closing brace, pattern or not. */
  lemma {:induction false} ClosedExpands(s: string)
    requires Closed(s)
    ensures Expand(s).Expanded?
    decreases Count(s, '{'), 1, 0
  {
    hide Count, SplitCommas, Closed, Cut, Expandable;
    if Stuck(s) { StuckIsNotClosed(s); }
    if Expandable(s) {
      ExpandStep(s);
      ClosedEach(s, 0, Count(s, '{'));
      assert SplitCommas(Cut(s).choices)[0..] == SplitCommas(Cut(s).choices);
    }
  }

  lemma {:induction false} ClosedEach(s: string, k: nat, bound: nat)
    requires Closed(s) && Expandable(s) && !Stuck(s) && k <= |SplitCommas(Cut(s).choices)| && bound == Count(s, '{')
    requires forall i: nat :: i < |SplitCommas(Cut(s).choices)| ==>
             Count(Cut(s).prefix + SplitCommas(Cut(s).choices)[i] + Cut(s).suffix, '{') < bound
    ensures ExpandEach(Cut(s).prefix, SplitCommas(Cut(s).choices)[k..], Cut(s).suffix, bound).Expanded?
    decreases bound, 0, |SplitCommas(Cut(s).choices)| - k
  {
    hide Count, SplitCommas, Closed, Cut, Expandable, Stuck, Expand;
    var ch := SplitCommas(Cut(s).choices);
    if k < |ch| {
      assert ch[k..][0] == ch[k] && ch[k..][1..] == ch[k + 1..];
      PartsLack(Cut(s).choices, '{');
      PartsLack(Cut(s).choices, '}');
      ClosedPart(Cut(s).prefix, Cut(s).choices, Cut(s).suffix, ch[k]);
      ClosedExpands(Cut(s).prefix + ch[k] + Cut(s).suffix);
      ClosedEach(s, k + 1, bound);
    } else {
      assert ch[k..] == [];
    }
  }

  // ---- texts with one ----

  /** All braces are matched. */
  ghost predicate Level(s: string) {
    Closed(s) && Count(s, '{') == Count(s, '}')
  }

  predicate TopAt(s: string, k: nat) {
    k < |s| && s[k] == ',' && Count(s[..k], '{') == Count(s[..k], '}')
  }

  /** A comma that stands in no group. */
  predicate TopComma(s: string) {
    exists k :: 0 <= k < |s| && TopAt(s, k)
  }

  /** With `a` before the first stray closing brace and `b` behind it, the recursion never ends. */
  predicate Fails(a: string, b: string) {
    '{' in b && (',' in b || TopComma(a))
  }

  lemma {:induction false} CountZero(s: string, c: char)
    requires Count(s, c) == 0
    ensures Lacks(s, c)
  {
    if s != "" { CountZero(s[1..], c); }
  }

  lemma {:induction false} CountSome(s: string, c: char)
    requires c in s
    ensures Count(s, c) > 0
  {
    if s[0] != c { CountSome(s[1..], c); }
  }

  lemma {:induction false} NoCommas(s: string)
    ensures forall k :: 0 <= k < |SplitCommas(s)| ==> Lacks(SplitCommas(s)[k], ',')
    decreases |s|
  {
    var i := Find(s, ',');
    if i < |s| { NoCommas(s[i + 1..]); }
  }

  lemma {:induction false} CountHas(s: string, c: char)
    requires Count(s, c) > 0
    ensures c in s
  {
    if s[0] != c { CountHas(s[1..], c); }
  }

  lemma OpensBefore(s: string, i: nat)
    requires Closed(s) && i < |s| && s[i] == '}'
    ensures '{' in s[..i]
  {
    CountAppend(s[..i], "}", '{');
    CountAppend(s[..i], "}", '}');
    assert s[..i + 1] == s[..i] + "}";
    CountOne('}', '{');
    CountOne('}', '}');
    CountHas(s[..i], '{');
  }

  /** The group of a level text that closes first. */
  lemma CutLevel(a: string) returns (p: string, m: string, q: string)
    requires Level(a) && '{' in a
    ensures a == p + "{" + m + "}" + q && Lacks(p, '}') && Lacks(m, '{') && Lacks(m, '}')
  {
    CountSome(a, '{');
    CountHas(a, '}');
    var right := Find(a, '}');
    OpensBefore(a, right);
    var left := RFind(a[..right], '{');
    p, m, q := a[..left], a[left + 1..right], a[right + 1..];
    assert forall i :: 0 <= i < |m| ==> m[i] == a[left + 1 + i] == a[..right][left + 1 + i];
  }

  // ---- filling in a choice changes nothing that matters ----

  lemma FilledCounts(p: string, m: string, q: string, c: string)
    requires Lacks(m, '{') && Lacks(m, '}') && Lacks(c, '{') && Lacks(c, '}')
    ensures Count(p + c + q, '{') + 1 == Count(p + "{" + m + "}" + q, '{')
    ensures Count(p + c + q, '}') + 1 == Count(p + "{" + m + "}" + q, '}')
  {
    CountBraces(p, m, q);
    CountLacks(c, '{');
    CountLacks(c, '}');
    CountAppend(p + c, q, '{');
    CountAppend(p + c, q, '}');
    CountAppend(p, c, '{');
    CountAppend(p, c, '}');
  }

  /** Within the first group no comma is at the top. */
  lemma GroupIsNotTop(p: string, m: string, q: string, k: nat)
    requires Lacks(p, '}') && Lacks(m, '{') && Lacks(m, '}') && |p| <= k <= |p| + |m| + 1
    ensures !TopAt(p + "{" + m + "}" + q, k)
  {
    var s := p + "{" + m + "}" + q;
    if k > |p| && s[k] == ',' {
      var i := k - |p| - 1;
      assert s[..k] == p + "{" + m[..i];
      CountAppend(p + "{", m[..i], '{');
      CountAppend(p, "{", '{');
      assert Count("{", '{') == 1;
      assert Lacks(s[..k], '}');
      CountLacks(s[..k], '}');
    }
  }

  lemma BehindIsTop(p: string, m: string, q: string, c: string, j: nat)
    requires Lacks(m, '{') && Lacks(m, '}') && Lacks(c, '{') && Lacks(c, '}') && j < |q|
    ensures TopAt(p + "{" + m + "}" + q, |p| + |m| + 2 + j) == TopAt(p + c + q, |p| + |c| + j)
  {
    hide Count;
    FilledCounts(p, m, q[..j], c);
    var s, t := p + "{" + m + "}" + q, p + c + q;
    assert s[..|p| + |m| + 2 + j] == p + "{" + m + "}" + q[..j];
    assert t[..|p| + |c| + j] == p + c + q[..j];
  }

  lemma TopCommaStays(p: string, m: string, q: string, c: string)
    requires Lacks(p, '}') && Lacks(m, '{') && Lacks(m, '}') && Lacks(c, '{') && Lacks(c, '}') && Lacks(c, ',')
    ensures TopComma(p + "{" + m + "}" + q) == TopComma(p + c + q)
  {
    hide Count;
    var s, t := p + "{" + m + "}" + q, p + c + q;
    if TopComma(s) {
      var k :| 0 <= k < |s| && TopAt(s, k);
      if k < |p| {
        assert s[..k] == t[..k] && TopAt(t, k);
      } else {
        if k <= |p| + |m| + 1 { GroupIsNotTop(p, m, q, k); }
        BehindIsTop(p, m, q, c, k - |p| - |m| - 2);
      }
    }
    if TopComma(t) {
      var k :| 0 <= k < |t| && TopAt(t, k);
      if k < |p| {
        assert s[..k] == t[..k] && TopAt(s, k);
      } else {
        assert k >= |p| + |c|;
        BehindIsTop(p, m, q, c, k - |p| - |c|);
      }
    }
  }

  lemma LevelStays(p: string, m: string, q: string, c: string)
    requires Level(p + "{" + m + "}" + q)
    requires Lacks(p, '}') && Lacks(m, '{') && Lacks(m, '}') && Lacks(c, '{') && Lacks(c, '}')
    ensures Level(p + c + q) == true
  {
    hide Count;
    ClosedPart(p, m, q, c);
    FilledCounts(p, m, q, c);
  }

  // ---- the recursion ----

  lemma {:induction false} EachAlike(prefix: string, choices: seq<string>, suffix: string, bound: nat, fails: bool)
    requires forall k: nat :: k < |choices| ==> Count(prefix + choices[k] + suffix, '{') < bound
    requires forall k: nat :: k < |choices| ==> Expand(prefix + choices[k] + suffix).RecursionError? == fails
    ensures ExpandEach(prefix, choices, suffix, bound).RecursionError? == (choices != [] && fails)
    decreases |choices|
  {
    hide Expand, Count;
    if choices != [] { EachAlike(prefix, choices[1..], suffix, bound, fails); }
  }

  lemma FlatFails(a: string, b: string)
    requires Lacks(a, '{') && Lacks(a, '}')
    ensures Expand(a + "}" + b).RecursionError? == Fails(a, b)
  {
    var s := a + "}" + b;
    FlatTop(a);
    InParts(a, b);
    if '{' in b && (',' in a || ',' in b) { StuckIs(a, b); }
  }

  lemma FlatTop(a: string)
    requires Lacks(a, '{') && Lacks(a, '}')
    ensures TopComma(a) == (',' in a)
  {
    forall k | 0 <= k < |a| ensures TopAt(a, k) == (a[k] == ',') {
      CountLacks(a[..k], '{');
      CountLacks(a[..k], '}');
    }
  }

  lemma {:induction false} SplitFails(a: string, b: string)
    requires Level(a)
    ensures Expand(a + "}" + b).RecursionError? == Fails(a, b)
    decreases Count(a, '{')
  {
    hide Expand, Fails, Level, Expandable, Stuck, Cut;
    if '{' !in a {
      LevelFlat(a);
      FlatFails(a, b);
    } else {
      var p, m, q := CutLevel(a);
      var s, suffix := a + "}" + b, q + "}" + b;
      assert s == p + "{" + m + "}" + suffix;
      if Expandable(s) {
        CutAt(p, m, suffix);
        ExpandStep(s);
        forall k: nat | k < |SplitCommas(m)|
            ensures Expand(p + SplitCommas(m)[k] + suffix).RecursionError? == Fails(a, b) {
          ChoiceFails(p, m, q, b, k);
          SplitFails(p + SplitCommas(m)[k] + q, b);
        }
        EachAlike(p, SplitCommas(m), suffix, Count(s, '{'), Fails(a, b));
      } else {
        UnexpandableEnds(a, b);
      }
    }
  }

  lemma LevelFlat(a: string)
    requires Level(a) && '{' !in a
    ensures Lacks(a, '{') && Lacks(a, '}')
  {
    CountLacks(a, '{');
    CountZero(a, '}');
  }

  /** A choice filled in: a smaller text of the same kind. */
  lemma ChoiceFails(p: string, m: string, q: string, b: string, k: nat)
    requires Level(p + "{" + m + "}" + q) && Lacks(p, '}') && Lacks(m, '{') && Lacks(m, '}') && k < |SplitCommas(m)|
    ensures var c := SplitCommas(m)[k];
      && Level(p + c + q) == true && Fails(p + c + q, b) == Fails(p + "{" + m + "}" + q, b)
      && Count(p + c + q, '{') < Count(p + "{" + m + "}" + q, '{')
      && p + c + (q + "}" + b) == p + c + q + "}" + b
  {
    hide Count, SplitCommas, Lacks, TopComma, Level;
    PartsLack(m, '{');
    PartsLack(m, '}');
    NoCommas(m);
    var c := SplitCommas(m)[k];
    LevelStays(p, m, q, c);
    FilledCounts(p, m, q, c);
    TopCommaStays(p, m, q, c);
  }

  lemma UnexpandableEnds(a: string, b: string)
    requires '{' in a && !Expandable(a + "}" + b)
    ensures Expand(a + "}" + b).Expanded? && !Fails(a, b)
  {
    InParts(a, b);
    TopIsIn(a);
  }

  lemma TopIsIn(a: string)
    ensures TopComma(a) ==> ',' in a
  {}

  /** At `i` for the first time more braces have been closed than opened. */
  ghost predicate StrayAt(s: string, i: nat) {
    i < |s| && s[i] == '}' && Level(s[..i])
  }

  lemma {:induction false} StrayExists(s: string) returns (i: nat)
    requires !Closed(s)
    ensures StrayAt(s, i)
    decreases |s|
  {
    EmptyIsClosed();
    var t, c := s[..|s| - 1], s[|s| - 1];
    if !Closed(t) {
      i := StrayExists(t);
      assert s[..i] == t[..i];
    } else {
      i := |s| - 1;
      LastIsStray(s);
    }
  }

  lemma EmptyIsClosed()
    ensures Closed("")
  {}

  lemma LastIsStray(s: string)
    requires s != "" && !Closed(s) && Closed(s[..|s| - 1])
    ensures StrayAt(s, |s| - 1)
  {
    hide Count;
    var t, c := s[..|s| - 1], s[|s| - 1];
    var k :| 0 <= k <= |s| && Count(s[..k], '}') > Count(s[..k], '{');
    assert forall j :: 0 <= j < |s| ==> t[..j] == s[..j];
    assert s[..|s|] == s && t[..|t|] == t && s == t + [c];
    CountAppend(t, [c], '{');
    CountAppend(t, [c], '}');
    CountOne(c, '{');
    CountOne(c, '}');
    assert Count(t, '}') <= Count(t, '{');
  }

  lemma CountOne(c: char, x: char)
    ensures Count([c], x) == if c == x then 1 else 0
  {
    assert [c][1..] == "";
  }

  lemma StrayIsFirst(s: string, i: nat)
    requires StrayAt(s, i)
    ensures !Closed(s)
    ensures forall j: nat :: StrayAt(s, j) ==> j <= i
  {
    hide Count;
    StrayCounts(s, i);
    forall j: nat | StrayAt(s, j) ensures j <= i {
      if j > i { ClosedBefore(s, i, j); }
    }
  }

  lemma ClosedBefore(s: string, i: nat, j: nat)
    requires i < j <= |s| && Level(s[..j])
    ensures Count(s[..i + 1], '}') <= Count(s[..i + 1], '{')
  {
    assert s[..j][..i + 1] == s[..i + 1];
  }

  lemma StrayCounts(s: string, i: nat)
    requires StrayAt(s, i)
    ensures Count(s[..i + 1], '}') > Count(s[..i + 1], '{')
  {
    hide Count;
    assert s[..i + 1] == s[..i] + ['}'];
    CountAppend(s[..i], ['}'], '{');
    CountAppend(s[..i], ['}'], '}');
    CountOne('}', '{');
    CountOne('}', '}');
  }

  /** The recursion never ends exactly where, behind the first stray closing brace, another opens, and a
      comma stands behind it too, or before it outside of all groups. */
  lemma NeverEndsIff(s: string)
    ensures Expand(s) == RecursionError <==> exists i: nat :: StrayAt(s, i) && Fails(s[..i], s[i + 1..])
  {
    hide Expand, Fails, Level, Closed, StrayAt;
    if Closed(s) {
      ClosedExpands(s);
      forall i: nat | StrayAt(s, i) ensures false { StrayIsFirst(s, i); }
    } else {
      var i := StrayExists(s);
      StrayFails(s, i);
      forall j: nat | StrayAt(s, j) ensures j == i {
        StrayIsFirst(s, i);
        StrayIsFirst(s, j);
      }
    }
  }

  lemma StrayFails(s: string, i: nat)
    requires StrayAt(s, i)
    ensures Expand(s).RecursionError? == Fails(s[..i], s[i + 1..])
  {
    hide Expand, Fails, Level;
    SplitFails(s[..i], s[i + 1..]);
    assert s == s[..i] + "}" + s[i + 1..];
  }

  /** A stray closing brace with a comma and another group behind it never ends; alone it does no harm. */
  lemma StrayExamples()
    ensures Expand("},{a}") == RecursionError && Expand("}") == Expanded(["}"]) && !Closed("}")
  {
    var s := "},{a}";
    assert s[0] == '}' && s[1] == ',' && s[2] == '{';
    assert s[..0] == "" && Find(s, '}') == 0 && RFind("", '{') == -1;
    assert Expandable(s) && Stuck(s);
    assert !Expandable("}");
    StrayIsFirst("}", 0) by { assert "}"[..0] == ""; EmptyIsClosed(); }
  }
}
