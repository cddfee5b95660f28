/** Which texts are texts of patterns: read from left to right, every brace closes a group, and every
    group has a comma of its own. */
module BraceSyntax {
  import opened BraceExpand
  import opened BracePatterns

  /** Reads on inside the groups `open`, innermost last, each with whether it has had a comma. */
  predicate Reads(s: string, open: seq<bool>) {
    if s == "" then open == []
    else if s[0] == '{' then Reads(s[1..], open + [false])
    else if s[0] == '}' then open != [] && open[|open| - 1] && Reads(s[1..], open[..|open| - 1])
    else if s[0] == ',' && open != [] then Reads(s[1..], open[..|open| - 1] + [true])
    else Reads(s[1..], open)
  }

  /** The text of a pattern changes nothing about the groups around it. */
  lemma {:induction false} ReadsText(p: Pattern, inGroup: bool, t: string, open: seq<bool>)
    requires WF(p, inGroup) && (inGroup <==> open != [])
    ensures Reads(Text(p) + t, open) == Reads(t, open)
  {
    match p
    case End =>
      assert Text(p) + t == t;
    case Lit(c, next) =>
      assert Text(p) + t == [c] + (Text(next) + t);
      ReadsText(next, inGroup, t, open);
    case Group(alts, next) =>
      var rest := Text(next) + t;
      assert Text(p) + t == ['{'] + (TextAlts(alts) + ("}" + rest));
      ReadsAlts(alts, rest, open, false);
      ReadsText(next, inGroup, t, open);
  }

  /** The alternatives of a group and its end lead back to where it began, if a comma has been read. */
  lemma {:induction false} ReadsAlts(a: Alts, t: string, open: seq<bool>, comma: bool)
    requires WFAlts(a) && (comma || a.More?)
    ensures Reads(TextAlts(a) + ("}" + t), open + [comma]) == Reads(t, open)
  {
    match a
    case One(p) =>
      ReadsText(p, true, "}" + t, open + [comma]);
      assert (open + [comma])[..|open|] == open;
    case More(p, rest) =>
      var u := TextAlts(rest) + ("}" + t);
      assert TextAlts(a) + ("}" + t) == Text(p) + ("," + u);
      ReadsText(p, true, "," + u, open + [comma]);
      assert (open + [comma])[..|open|] + [true] == open + [true];
      ReadsAlts(rest, t, open, true);
  }

  function Led(c: char, a: Alts): Alts {
    match a
    case One(p) => One(Lit(c, p))
    case More(p, rest) => More(Lit(c, p), rest)
  }

  function Grouped(g: Alts, a: Alts): Alts {
    match a
    case One(p) => One(Group(g, p))
    case More(p, rest) => More(Group(g, p), rest)
  }

  lemma TextLed(c: char, a: Alts)
    requires WFAlts(a) && c != '{' && c != '}' && c != ','
    ensures WFAlts(Led(c, a)) && TextAlts(Led(c, a)) == [c] + TextAlts(a) && Led(c, a).More? == a.More?
  {}

  lemma TextGrouped(g: Alts, a: Alts)
    requires WFAlts(a) && WFAlts(g) && g.More?
    ensures WFAlts(Grouped(g, a)) && Grouped(g, a).More? == a.More?
    ensures TextAlts(Grouped(g, a)) == "{" + TextAlts(g) + "}" + TextAlts(a)
  {}

  /** What is read inside a group are its alternatives, up to its end. */
  lemma {:induction false} ReadGroup(s: string, open: seq<bool>, comma: bool) returns (a: Alts, rest: string)
    requires Reads(s, open + [comma])
    ensures s == TextAlts(a) + ("}" + rest) && Reads(rest, open) && WFAlts(a) && (comma || a.More?)
    decreases |s|
  {
    var all := open + [comma];
    assert all[..|all| - 1] == open;
    var t := s[1..];
    assert s == [s[0]] + t;
    if s[0] == '}' {
      a, rest := One(End), t;
    } else if s[0] == ',' {
      a, rest := ReadGroup(t, open, true);
      a := More(End, a);
    } else if s[0] == '{' {
      var g, behind := ReadGroup(t, all, false);
      a, rest := ReadGroup(behind, open, comma);
      TextGrouped(g, a);
      a := Grouped(g, a);
      assert s == "{" + (TextAlts(g) + ("}" + behind));
    } else {
      a, rest := ReadGroup(t, open, comma);
      TextLed(s[0], a);
      a := Led(s[0], a);
    }
  }

  lemma {:induction false} ReadPattern(s: string) returns (p: Pattern)
    requires Reads(s, [])
    ensures s == Text(p) && WF(p, false)
    decreases |s|
  {
    if s == "" { return End; }
    var t := s[1..];
    assert s == [s[0]] + t;
    if s[0] == '{' {
      assert [] + [false] == [false];
      var g, behind := ReadGroup(t, [], false);
      p := ReadPattern(behind);
      p := Group(g, p);
      assert s == "{" + (TextAlts(g) + ("}" + behind));
    } else {
      p := ReadPattern(t);
      p := Lit(s[0], p);
    }
  }

  /** The texts of patterns are exactly those. */
  lemma PatternIff(s: string)
    ensures Reads(s, []) <==> exists p :: WF(p, false) && Text(p) == s
  {
    if Reads(s, []) { var p := ReadPattern(s); }
    if p :| WF(p, false) && Text(p) == s {
      ReadsText(p, false, "", []);
      assert Text(p) + "" == s;
    }
  }
}
