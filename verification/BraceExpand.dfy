/** `brace_expand`: shell-like alternatives in template lines. */
module BraceExpand {
  import opened Strings

  datatype Result = Expanded(lines: seq<string>) | RecursionError

  // ---- strings ----

  /** `s.rfind(c)`. */
  function RFind(s: string, c: char): (i: int)
    ensures -1 <= i < |s| && (i >= 0 ==> s[i] == c) && forall j :: i < j < |s| ==> s[j] != c
  {
    if s == "" then -1 else if s[|s| - 1] == c then |s| - 1 else RFind(s[..|s| - 1], c)
  }

  /** `s.split(",")`. */
  function SplitCommas(s: string): (parts: seq<string>)
    ensures parts != []
    decreases |s|
  {
    var i := Find(s, ',');
    if i == |s| then [s] else [s[..i]] + SplitCommas(s[i + 1..])
  }

  function Count(s: string, c: char): nat {
    if s == "" then 0 else (if s[0] == c then 1 else 0) + Count(s[1..], c)
  }

  predicate Lacks(s: string, c: char) { forall i :: 0 <= i < |s| ==> s[i] != c }

  lemma {:induction false} CountAppend(a: string, b: string, c: char)
    ensures Count(a + b, c) == Count(a, c) + Count(b, c)
  {
    if a == "" {
      assert a + b == b;
    } else {
      assert (a + b)[1..] == a[1..] + b;
      CountAppend(a[1..], b, c);
    }
  }

  lemma {:induction false} CountLacks(s: string, c: char)
    requires Lacks(s, c)
    ensures Count(s, c) == 0
  {
    if s != "" { CountLacks(s[1..], c); }
  }

  lemma {:induction false} PartsLack(s: string, c: char)
    requires Lacks(s, c)
    ensures forall k :: 0 <= k < |SplitCommas(s)| ==> Lacks(SplitCommas(s)[k], c)
    decreases |s|
  {
    var i := Find(s, ',');
    if i < |s| { PartsLack(s[i + 1..], c); }
  }

  // ---- the function ----

  predicate Expandable(s: string) {
    '{' in s && ',' in s && '}' in s
  }

  /** The string around and within its first closed group. */
  datatype Parts = Parts(prefix: string, choices: string, suffix: string)

  /** Where no brace opens before the first that closes, `rfind` gives -1, and the slices overlap. */
  predicate Stuck(s: string) {
    Expandable(s) && RFind(s[..Find(s, '}')], '{') == -1
  }

  function Cut(s: string): (p: Parts)
    requires Expandable(s) && !Stuck(s)
    ensures s == p.prefix + "{" + p.choices + "}" + p.suffix
    ensures Lacks(p.prefix, '}') && Lacks(p.choices, '{') && Lacks(p.choices, '}')
  {
    var right := Find(s, '}');
    var left := RFind(s[..right], '{');
    Parts(s[..left], s[left + 1..right], s[right + 1..])
  }

  lemma FewerBraces(s: string, k: nat)
    requires Expandable(s) && !Stuck(s) && k < |SplitCommas(Cut(s).choices)|
    ensures Count(Cut(s).prefix + SplitCommas(Cut(s).choices)[k] + Cut(s).suffix, '{') < Count(s, '{')
  {
    var p := Cut(s);
    var c := SplitCommas(p.choices)[k];
    PartsLack(p.choices, '{');
    CountLacks(c, '{');
    CountLacks(p.choices, '{');
    CountAppend(p.prefix + c, p.suffix, '{');
    CountAppend(p.prefix, c, '{');
    CountAppend(p.prefix + "{" + p.choices + "}", p.suffix, '{');
    CountAppend(p.prefix + "{" + p.choices, "}", '{');
    CountAppend(p.prefix + "{", p.choices, '{');
    CountAppend(p.prefix, "{", '{');
    assert Count("{", '{') == 1;
  }

  lemma RFindIs(s: string, i: nat, c: char)
    requires i < |s| && s[i] == c && forall j :: i < j < |s| ==> s[j] != c
    ensures RFind(s, c) == i
  {
    assert RFind(s, c) <= i;
  }

  /** How a text is cut, if it is. */
  lemma CutAt(before: string, m: string, behind: string)
    requires Lacks(before, '}') && Lacks(m, '{') && Lacks(m, '}') && Expandable(before + "{" + m + "}" + behind)
    ensures var s := before + "{" + m + "}" + behind; !Stuck(s) && Cut(s) == Parts(before, m, behind)
  {
    hide Find, RFind;
    var s := before + "{" + m + "}" + behind;
    var left, right := |before|, |before| + 1 + |m|;
    assert s[left] == '{' && s[right] == '}';
    FindIs(s, right, '}');
    assert s[..right] == before + "{" + m;
    RFindIs(s[..right], left, '{');
    assert s[..left] == before && s[left + 1..right] == m && s[right + 1..] == behind;
  }

  function Expand(s: string): Result
    decreases Count(s, '{'), 1, 0
  {
    if !Expandable(s) then Expanded([s])
    else if Stuck(s) then RecursionError
    else
      assert forall k: nat :: k < |SplitCommas(Cut(s).choices)| ==>
          Count(Cut(s).prefix + SplitCommas(Cut(s).choices)[k] + Cut(s).suffix, '{') < Count(s, '{') by {
        forall k: nat | k < |SplitCommas(Cut(s).choices)| { FewerBraces(s, k); }
      }
      ExpandEach(Cut(s).prefix, SplitCommas(Cut(s).choices), Cut(s).suffix, Count(s, '{'))
  }

  /** The expansions with each choice in turn. */
  function ExpandEach(prefix: string, choices: seq<string>, suffix: string, bound: nat): Result
    requires forall k: nat :: k < |choices| ==> Count(prefix + choices[k] + suffix, '{') < bound
    decreases bound, 0, |choices|
  {
    if choices == [] then Expanded([])
    else
      var first := Expand(prefix + choices[0] + suffix);
      if first.RecursionError? then RecursionError
      else
        var more := ExpandEach(prefix, choices[1..], suffix, bound);
        if more.RecursionError? then RecursionError else Expanded(first.lines + more.lines)
  }

  lemma StuckIs(a: string, b: string)
    requires Lacks(a, '{') && Lacks(a, '}') && '{' in b && (',' in a || ',' in b)
    ensures Stuck(a + "}" + b)
  {
    var s := a + "}" + b;
    var open :| 0 <= open < |b| && b[open] == '{';
    assert s[|a| + 1 + open] == '{' && s[|a|] == '}';
    if c :| 0 <= c < |a| && a[c] == ',' {
      assert s[c] == ',';
    } else {
      var c :| 0 <= c < |b| && b[c] == ',';
      assert s[|a| + 1 + c] == ',';
    }
    assert s[..|a|] == a;
    assert Find(s, '}') == |a|;
  }

  lemma InParts(a: string, b: string)
    ensures forall c: char :: c in a + "}" + b <==> c in a || c == '}' || c in b
  {
    var s := a + "}" + b;
    forall c: char ensures c in s <==> c in a || c == '}' || c in b {
      assert s == a + ("}" + b);
    }
  }

  /** What stands before and behind the first closing brace of a stuck string. */
  predicate Stray(a: string, b: string) {
    Lacks(a, '{') && Lacks(a, '}') && '{' in b && (',' in a || ',' in b)
  }

  lemma FirstClosing(s: string)
    requires Stuck(s)
    ensures var right := Find(s, '}');
            right < |s| && Lacks(s[..right], '{') && Lacks(s[..right], '}') && s == s[..right] + "}" + s[right + 1..]
  {
    var right := Find(s, '}');
    hide Find, RFind, Expandable;
    var i :| 0 <= i < |s| && s[i] == '}' by { HasClosing(s); }
    CutOff(s, right, i);
  }

  lemma HasClosing(s: string)
    requires Expandable(s)
    ensures exists i :: 0 <= i < |s| && s[i] == '}'
  {}

  lemma CutOff(s: string, right: nat, i: nat)
    requires i < |s| && s[i] == '}' && right <= |s| && (right < |s| ==> s[right] == '}')
    requires forall j :: 0 <= j < right ==> s[j] != '}'
    ensures right < |s| && s == s[..right] + "}" + s[right + 1..]
  {}

  lemma StuckParts(s: string)
    requires Stuck(s)
    ensures var right := Find(s, '}');
            right < |s| && Stray(s[..right], s[right + 1..]) == true && s == s[..right] + "}" + s[right + 1..]
  {
    FirstClosing(s);
    var right := Find(s, '}');
    hide Find, RFind, Lacks;
    InParts(s[..right], s[right + 1..]);
    NotIn(s[..right], '{');
  }

  lemma NotIn(s: string, c: char)
    requires Lacks(s, c)
    ensures c !in s
  {}

  lemma StuckAgain(a: string, b: string, choice: string)
    requires Stray(a, b)
    ensures b != "" && Stuck(a + "}" + (b[..|b| - 1] + choice + b)) == true
  {
    hide Stuck, Lacks;
    var c := b[..|b| - 1] + choice;
    InTail(c, b);
    StuckIs(a, c + b);
  }

  lemma InTail(a: string, b: string)
    ensures forall c: char :: c in b ==> c in a + b
  {
    forall c: char | c in b ensures c in a + b {
      var i :| 0 <= i < |b| && b[i] == c;
      assert (a + b)[|a| + i] == c;
    }
  }

  /** What the recursion on a stuck string is on: the slices overlap. */
  function Again(s: string, choice: string): string
    requires Stuck(s)
  {
    s[..|s| - 1] + choice + s[Find(s, '}') + 1..]
  }

  /** It only ever meets stuck strings, so it never ends. */
  lemma StuckForever(s: string, choice: string)
    requires Stuck(s) == true
    ensures Stuck(Again(s, choice)) == true
  {
    hide Stuck, Stray, Find, RFind;
    StuckParts(s);
    var a, b := s[..Find(s, '}')], s[Find(s, '}') + 1..];
    StuckAgain(a, b, choice);
    Overlap(a, b, choice);
  }

  lemma Overlap(a: string, b: string, choice: string)
    requires b != ""
    ensures var s := a + "}" + b; s[..|s| - 1] + choice + b == a + "}" + (b[..|b| - 1] + choice + b)
  {
    var s, c := a + "}" + b, b[..|b| - 1];
    assert s[..|s| - 1] == a + "}" + c;
    assert (a + "}" + c) + choice + b == a + "}" + (c + choice + b);
  }

  method BraceExpand(s: string) returns (r: Result)
    ensures r == Expand(s)
    decreases Count(s, '{'), 1
  {
    if !Expandable(s) { return Expanded([s]); }
    if Stuck(s) { return RecursionError; }
    var p := Cut(s);
    ExpandStep(s);
    hide Expand, Count, SplitCommas, Cut, Stuck, Expandable;
    r := ExpandChoices(p.prefix, SplitCommas(p.choices), p.suffix, Count(s, '{'));
  }

  /** The loop over the choices. */
  method ExpandChoices(prefix: string, choices: seq<string>, suffix: string, ghost bound: nat) returns (r: Result)
    requires forall k: nat :: k < |choices| ==> Count(prefix + choices[k] + suffix, '{') < bound
    ensures r == ExpandEach(prefix, choices, suffix, bound)
    decreases bound, 0
  {
    hide Expand, Count;
    var result := [];
    assert choices[0..] == choices;
    for i := 0 to |choices|
      invariant ExpandEach(prefix, choices, suffix, bound)
                == Then(result, ExpandEach(prefix, choices[i..], suffix, bound))
    {
      assert choices[i..][0] == choices[i] && choices[i..][1..] == choices[i + 1..];
      var more := BraceExpand(prefix + choices[i] + suffix);
      if more.RecursionError? { return RecursionError; }
      ThenThen(result, more.lines, ExpandEach(prefix, choices[i + 1..], suffix, bound));
      result := result + more.lines;
    }
    assert choices[|choices|..] == [];
    r := Expanded(result);
  }

  lemma ExpandStep(s: string)
    requires Expandable(s) && !Stuck(s)
    ensures var p := Cut(s);
      && (forall k: nat :: k < |SplitCommas(p.choices)| ==>
          Count(p.prefix + SplitCommas(p.choices)[k] + p.suffix, '{') < Count(s, '{'))
      && Expand(s) == ExpandEach(p.prefix, SplitCommas(p.choices), p.suffix, Count(s, '{'))
  {
    hide Count, SplitCommas, Find, RFind;
    var p := Cut(s);
    forall k: nat | k < |SplitCommas(p.choices)| { FewerBraces(s, k); }
  }

  function Then(done: seq<string>, r: Result): Result {
    if r.RecursionError? then r else Expanded(done + r.lines)
  }

  lemma ThenThen(a: seq<string>, b: seq<string>, r: Result)
    ensures Then(a, Then(b, r)) == Then(a + b, r)
  {
    if r.Expanded? { assert a + (b + r.lines) == a + b + r.lines; }
  }
}
