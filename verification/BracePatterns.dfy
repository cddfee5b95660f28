/** What a line with brace groups stands for, and that expanding it, innermost group first, yields
    just that. */
module BracePatterns {
  import opened Strings
  import opened BraceExpand

  // ---- patterns ----

  datatype Pattern = End | Lit(c: char, next: Pattern) | Group(alts: Alts, next: Pattern)

  datatype Alts = One(p: Pattern) | More(p: Pattern, rest: Alts)

  /** Every group has at least two alternatives; a comma stands for itself only outside of groups. */
  predicate WF(p: Pattern, inGroup: bool) {
    match p
    case End => true
    case Lit(c, next) => c != '{' && c != '}' && (inGroup ==> c != ',') && WF(next, inGroup)
    case Group(alts, next) => alts.More? && WFAlts(alts) && WF(next, inGroup)
  }

  predicate WFAlts(a: Alts) {
    WF(a.p, true) && (a.More? ==> WFAlts(a.rest))
  }

  function Text(p: Pattern): string {
    match p
    case End => ""
    case Lit(c, next) => [c] + Text(next)
    case Group(alts, next) => "{" + TextAlts(alts) + "}" + Text(next)
  }

  function TextAlts(a: Alts): string {
    match a
    case One(p) => Text(p)
    case More(p, rest) => Text(p) + "," + TextAlts(rest)
  }

  function Cat(a: set<string>, b: set<string>): set<string> {
    set x, y | x in a && y in b :: x + y
  }

  /** The lines a pattern stands for. */
  function Den(p: Pattern): set<string> {
    match p
    case End => {""}
    case Lit(c, next) => Cat({[c]}, Den(next))
    case Group(alts, next) => Cat(DenAlts(alts), Den(next))
  }

  function DenAlts(a: Alts): set<string> {
    match a
    case One(p) => Den(p)
    case More(p, rest) => Den(p) + DenAlts(rest)
  }

  function AltCount(a: Alts): nat {
    if a.One? then 1 else 1 + AltCount(a.rest)
  }

  /** The product of the numbers of alternatives of all groups, nested ones included. */
  function Product(p: Pattern): nat {
    match p
    case End => 1
    case Lit(_, next) => Product(next)
    case Group(alts, next) => AltCount(alts) * ProductAlts(alts) * Product(next)
  }

  function ProductAlts(a: Alts): nat {
    match a
    case One(p) => Product(p)
    case More(p, rest) => Product(p) * ProductAlts(rest)
  }

  function Groups(p: Pattern): nat {
    match p
    case End => 0
    case Lit(_, next) => Groups(next)
    case Group(alts, next) => 1 + GroupsAlts(alts) + Groups(next)
  }

  function GroupsAlts(a: Alts): nat {
    Groups(a.p) + (if a.More? then GroupsAlts(a.rest) else 0)
  }

  // ---- the group that closes first ----

  /** What stands before and behind it, and its alternatives, which hold no group. */
  datatype Hole = Hole(before: string, choices: seq<string>, behind: string)

  function First(p: Pattern): Hole
    requires Groups(p) > 0
  {
    match p
    case Lit(c, next) => var h := First(next); h.(before := [c] + h.before)
    case Group(alts, next) =>
      if GroupsAlts(alts) > 0 then
        var h := FirstAlts(alts);
        Hole("{" + h.before, h.choices, h.behind + "}" + Text(next))
      else Hole("", Words(alts), Text(next))
  }

  function FirstAlts(a: Alts): Hole
    requires GroupsAlts(a) > 0
  {
    if Groups(a.p) > 0 then
      var h := First(a.p);
      if a.One? then h else h.(behind := h.behind + "," + TextAlts(a.rest))
    else
      var h := FirstAlts(a.rest);
      h.(before := Text(a.p) + "," + h.before)
  }

  function Words(a: Alts): seq<string> {
    [Text(a.p)] + (if a.More? then Words(a.rest) else [])
  }

  function Literal(w: string, next: Pattern): Pattern {
    if w == "" then next else Lit(w[0], Literal(w[1..], next))
  }

  /** The pattern with a word in place of that group. */
  function Fill(p: Pattern, w: string): Pattern
    requires Groups(p) > 0
  {
    match p
    case Lit(c, next) => Lit(c, Fill(next, w))
    case Group(alts, next) => if GroupsAlts(alts) > 0 then Group(FillAlts(alts, w), next) else Literal(w, next)
  }

  function FillAlts(a: Alts, w: string): Alts
    requires GroupsAlts(a) > 0
  {
    if Groups(a.p) > 0 then
      if a.One? then One(Fill(a.p, w)) else More(Fill(a.p, w), a.rest)
    else More(a.p, FillAlts(a.rest, w))
  }

  /** A word that can stand in a group. */
  predicate Plain(w: string) {
    Lacks(w, '{') && Lacks(w, '}') && Lacks(w, ',')
  }

  // ---- the text around it ----

  lemma {:induction false} LiteralText(w: string, next: Pattern, inGroup: bool)
    requires Plain(w) && WF(next, inGroup)
    ensures Text(Literal(w, next)) == w + Text(next) && WF(Literal(w, next), inGroup)
    ensures Groups(Literal(w, next)) == Groups(next) && Product(Literal(w, next)) == Product(next)
  {
    if w == "" {
      assert w + Text(next) == Text(next);
    } else {
      LiteralText(w[1..], next, inGroup);
      assert w + Text(next) == [w[0]] + (w[1..] + Text(next));
    }
  }

  function JoinCommas(ws: seq<string>): string
    requires ws != []
  {
    if |ws| == 1 then ws[0] else ws[0] + "," + JoinCommas(ws[1..])
  }

  lemma {:induction false} FlatText(p: Pattern, inGroup: bool)
    requires WF(p, inGroup) && Groups(p) == 0
    ensures Lacks(Text(p), '{') && Lacks(Text(p), '}') && (inGroup ==> Lacks(Text(p), ','))
    ensures Den(p) == {Text(p)} && Product(p) == 1
  {
    if p.Lit? {
      FlatText(p.next, inGroup);
      CatOne([p.c], Text(p.next));
    }
  }

  lemma CatOne(a: string, b: string)
    ensures Cat({a}, {b}) == {a + b}
  {}

  lemma {:induction false} FlatWords(a: Alts)
    requires WFAlts(a) && GroupsAlts(a) == 0
    ensures |Words(a)| == AltCount(a) && TextAlts(a) == JoinCommas(Words(a)) && ProductAlts(a) == 1
    ensures forall k :: 0 <= k < |Words(a)| ==> Plain(Words(a)[k])
    ensures DenAlts(a) == set w | w in Words(a)
  {
    FlatText(a.p, true);
    if a.More? {
      FlatWords(a.rest);
      assert Words(a)[1..] == Words(a.rest);
      assert forall w: string :: w in Words(a) <==> w == Text(a.p) || w in Words(a.rest);
    }
  }

  ghost predicate Around(text: string, h: Hole) {
    && |h.choices| >= 2 && Lacks(h.before, '}')
    && (forall k :: 0 <= k < |h.choices| ==> Plain(h.choices[k]))
    && text == h.before + "{" + JoinCommas(h.choices) + "}" + h.behind
  }

  lemma AroundMore(text: string, h: Hole, before: string, behind: string)
    requires Around(text, h) && Lacks(before, '}')
    ensures Around(before + text + behind, Hole(before + h.before, h.choices, h.behind + behind)) == true
  {
    hide Plain, JoinCommas;
    assert before + (h.before + "{" + JoinCommas(h.choices) + "}" + h.behind) + behind
        == before + h.before + "{" + JoinCommas(h.choices) + "}" + (h.behind + behind);
  }

  lemma {:induction false} FirstIs(p: Pattern, inGroup: bool)
    requires WF(p, inGroup) && Groups(p) > 0
    ensures Around(Text(p), First(p)) == true
    decreases p
  {
    hide Around, JoinCommas, Plain;
    match p {
      case Lit(c, next) =>
        FirstIs(next, inGroup);
        AroundMore(Text(next), First(next), [c], "");
        assert [c] + Text(next) + "" == Text(p) && First(next).behind + "" == First(next).behind;
      case Group(alts, next) =>
        if GroupsAlts(alts) > 0 {
          FirstAltsIs(alts);
          AroundMore(TextAlts(alts), FirstAlts(alts), "{", "}" + Text(next));
          assert "{" + TextAlts(alts) + ("}" + Text(next)) == Text(p);
          assert FirstAlts(alts).behind + ("}" + Text(next)) == FirstAlts(alts).behind + "}" + Text(next);
        } else {
          FlatAround(alts, next);
        }
    }
  }

  lemma FlatAround(alts: Alts, next: Pattern)
    requires WFAlts(alts) && alts.More? && GroupsAlts(alts) == 0
    ensures Around("{" + TextAlts(alts) + "}" + Text(next), Hole("", Words(alts), Text(next))) == true
  {
    hide Plain, JoinCommas;
    FlatWords(alts);
    assert "{" + JoinCommas(Words(alts)) + "}" + Text(next) == "" + "{" + JoinCommas(Words(alts)) + "}" + Text(next);
  }

  lemma {:induction false} FirstAltsIs(a: Alts)
    requires WFAlts(a) && GroupsAlts(a) > 0
    ensures Around(TextAlts(a), FirstAlts(a)) == true
    decreases a
  {
    hide Around, JoinCommas, Plain;
    if Groups(a.p) > 0 {
      FirstIs(a.p, true);
      if a.More? {
        AroundMore(Text(a.p), First(a.p), "", "," + TextAlts(a.rest));
        assert "" + Text(a.p) + ("," + TextAlts(a.rest)) == TextAlts(a);
        assert "" + First(a.p).before == First(a.p).before;
        assert First(a.p).behind + ("," + TextAlts(a.rest)) == First(a.p).behind + "," + TextAlts(a.rest);
      }
    } else {
      FirstAltsIs(a.rest);
      FlatText(a.p, true);
      AroundMore(TextAlts(a.rest), FirstAlts(a.rest), Text(a.p) + ",", "");
      assert Text(a.p) + "," + TextAlts(a.rest) + "" == TextAlts(a);
      assert FirstAlts(a.rest).behind + "" == FirstAlts(a.rest).behind;
    }
  }

  // ---- the pattern with the group filled in ----

  lemma {:induction false} FillIs(p: Pattern, inGroup: bool, w: string)
    requires WF(p, inGroup) && Groups(p) > 0 && Plain(w)
    ensures WF(Fill(p, w), inGroup) && Groups(Fill(p, w)) == Groups(p) - 1
    ensures Text(Fill(p, w)) == First(p).before + w + First(p).behind
    ensures Product(p) == |First(p).choices| * Product(Fill(p, w))
    decreases p
  {
    hide Plain;
    match p {
      case Lit(c, next) =>
        FillIs(next, inGroup, w);
        assert [c] + (First(next).before + w + First(next).behind) == [c] + First(next).before + w + First(next).behind;
      case Group(alts, next) =>
        if GroupsAlts(alts) > 0 {
          FillAltsIs(alts, w);
          var h := FirstAlts(alts);
          assert "{" + (h.before + w + h.behind) + "}" + Text(next)
              == "{" + h.before + w + (h.behind + "}" + Text(next));
          Multiply(AltCount(alts), |h.choices|, ProductAlts(FillAlts(alts, w)), Product(next));
        } else {
          FlatWords(alts);
          LiteralText(w, next, inGroup);
          assert "" + w + Text(next) == w + Text(next);
        }
    }
  }

  lemma Multiply(a: nat, n: nat, b: nat, c: nat)
    ensures a * (n * b) * c == n * (a * b * c)
  {}

  lemma {:induction false} FillAltsIs(a: Alts, w: string)
    requires WFAlts(a) && GroupsAlts(a) > 0 && Plain(w)
    ensures WFAlts(FillAlts(a, w)) && GroupsAlts(FillAlts(a, w)) == GroupsAlts(a) - 1
    ensures AltCount(FillAlts(a, w)) == AltCount(a) && FillAlts(a, w).More? == a.More?
    ensures TextAlts(FillAlts(a, w)) == FirstAlts(a).before + w + FirstAlts(a).behind
    ensures ProductAlts(a) == |FirstAlts(a).choices| * ProductAlts(FillAlts(a, w))
    decreases a
  {
    hide Plain;
    if Groups(a.p) > 0 {
      FillIs(a.p, true, w);
      var h := First(a.p);
      if a.More? {
        assert h.before + w + h.behind + "," + TextAlts(a.rest) == h.before + w + (h.behind + "," + TextAlts(a.rest));
        Multiply(1, |h.choices|, Product(Fill(a.p, w)), ProductAlts(a.rest));
      }
    } else {
      FillAltsIs(a.rest, w);
      var h := FirstAlts(a.rest);
      assert Text(a.p) + "," + (h.before + w + h.behind) == Text(a.p) + "," + h.before + w + h.behind;
      Multiply(Product(a.p), |h.choices|, ProductAlts(FillAlts(a.rest, w)), 1);
    }
  }

  // ---- filling in every choice loses and adds nothing ----

  lemma {:induction false} LiteralDen(w: string, next: Pattern)
    ensures Den(Literal(w, next)) == Cat({w}, Den(next))
  {
    hide Cat;
    if w == "" {
      CatNothing(Den(next));
    } else {
      LiteralDen(w[1..], next);
      CatAssoc([w[0]], w[1..], Den(next));
      assert [w[0]] + w[1..] == w;
    }
  }

  lemma CatNothing(d: set<string>)
    ensures Cat({""}, d) == d
  {
    forall x | x in d ensures x in Cat({""}, d) {
      assert "" in {""} && "" + x == x;
    }
    forall x | x in Cat({""}, d) ensures x in d {
      var e, y :| e in {""} && y in d && x == e + y;
      assert e + y == y;
    }
  }

  lemma CatAssoc(a: string, b: string, c: set<string>)
    ensures Cat({a}, Cat({b}, c)) == Cat({a + b}, c)
  {
    forall x | x in c ensures a + (b + x) == a + b + x {}
    forall s | s in Cat({a + b}, c) ensures s in Cat({a}, Cat({b}, c)) {
      var x :| x in c && s == a + b + x;
      assert b + x in Cat({b}, c);
      assert s == a + (b + x);
    }
  }

  /** A line of a pattern is a line of the pattern with one of the choices filled in. */
  lemma {:induction false} DenOut(p: Pattern, inGroup: bool, s: string) returns (k: nat)
    requires WF(p, inGroup) && Groups(p) > 0 && s in Den(p)
    ensures k < |First(p).choices| && s in Den(Fill(p, First(p).choices[k]))
    decreases p
  {
    match p {
      case Lit(c, next) =>
        var x, y :| x in {[c]} && y in Den(next) && s == x + y;
        k := DenOut(next, inGroup, y);
      case Group(alts, next) =>
        var x, y :| x in DenAlts(alts) && y in Den(next) && s == x + y;
        if GroupsAlts(alts) > 0 {
          k := DenAltsOut(alts, x);
        } else {
          FlatWords(alts);
          k :| 0 <= k < |Words(alts)| && Words(alts)[k] == x;
          LiteralDen(x, next);
        }
    }
  }

  lemma {:induction false} DenAltsOut(a: Alts, s: string) returns (k: nat)
    requires WFAlts(a) && GroupsAlts(a) > 0 && s in DenAlts(a)
    ensures k < |FirstAlts(a).choices| && s in DenAlts(FillAlts(a, FirstAlts(a).choices[k]))
    decreases a
  {
    if Groups(a.p) > 0 {
      FirstIs(a.p, true);
      if s in Den(a.p) { k := DenOut(a.p, true, s); } else { k := 0; }
    } else {
      FirstAltsIs(a.rest);
      if s in Den(a.p) { k := 0; } else { k := DenAltsOut(a.rest, s); }
    }
  }

  lemma {:induction false} DenIn(p: Pattern, inGroup: bool, s: string, k: nat)
    requires WF(p, inGroup) && Groups(p) > 0 && k < |First(p).choices| && s in Den(Fill(p, First(p).choices[k]))
    ensures s in Den(p)
    decreases p
  {
    match p {
      case Lit(c, next) =>
        var x, y :| x in {[c]} && y in Den(Fill(next, First(next).choices[k])) && s == x + y;
        DenIn(next, inGroup, y, k);
      case Group(alts, next) =>
        if GroupsAlts(alts) > 0 {
          var x, y :| x in DenAlts(FillAlts(alts, FirstAlts(alts).choices[k])) && y in Den(next) && s == x + y;
          DenAltsIn(alts, x, k);
        } else {
          FlatWords(alts);
          LiteralDen(Words(alts)[k], next);
          var x, y :| x in {Words(alts)[k]} && y in Den(next) && s == x + y;
        }
    }
  }

  lemma {:induction false} DenAltsIn(a: Alts, s: string, k: nat)
    requires WFAlts(a) && GroupsAlts(a) > 0 && k < |FirstAlts(a).choices|
    requires s in DenAlts(FillAlts(a, FirstAlts(a).choices[k]))
    ensures s in DenAlts(a)
    decreases a
  {
    if Groups(a.p) > 0 {
      if s in Den(Fill(a.p, First(a.p).choices[k])) { DenIn(a.p, true, s, k); }
    } else if s !in Den(a.p) {
      DenAltsIn(a.rest, s, k);
    }
  }

  lemma {:induction false} DenLacks(p: Pattern, inGroup: bool, s: string)
    requires WF(p, inGroup) && s in Den(p)
    ensures Lacks(s, '{') && Lacks(s, '}')
    decreases p
  {
    match p {
      case End =>
      case Lit(c, next) =>
        var x, y :| x in {[c]} && y in Den(next) && s == x + y;
        DenLacks(next, inGroup, y);
      case Group(alts, next) =>
        var x, y :| x in DenAlts(alts) && y in Den(next) && s == x + y;
        DenAltsLacks(alts, x);
        DenLacks(next, inGroup, y);
    }
  }

  lemma {:induction false} DenAltsLacks(a: Alts, s: string)
    requires WFAlts(a) && s in DenAlts(a)
    ensures Lacks(s, '{') && Lacks(s, '}')
    decreases a
  {
    if s in Den(a.p) { DenLacks(a.p, true, s); } else { DenAltsLacks(a.rest, s); }
  }

  // ---- the theorem ----

  lemma {:induction false} SplitJoined(ws: seq<string>)
    requires ws != [] && forall k :: 0 <= k < |ws| ==> Plain(ws[k])
    ensures SplitCommas(JoinCommas(ws)) == ws
    ensures Lacks(JoinCommas(ws), '{') && Lacks(JoinCommas(ws), '}') && (|ws| > 1 ==> ',' in JoinCommas(ws))
  {
    hide SplitCommas, Lacks;
    assert Plain(ws[0]);
    if |ws| > 1 {
      SplitJoined(ws[1..]);
      SplitFirst(ws[0], JoinCommas(ws[1..]));
      assert [ws[0]] + ws[1..] == ws;
    } else {
      SplitOne(ws[0]);
      assert ws == [ws[0]];
    }
  }

  lemma SplitOne(w: string)
    requires Plain(w)
    ensures SplitCommas(w) == [w]
  {
    assert Find(w, ',') == |w|;
  }

  lemma SplitFirst(w: string, rest: string)
    requires Plain(w) && Lacks(rest, '{') && Lacks(rest, '}')
    ensures var j := w + "," + rest;
      && SplitCommas(j) == [w] + SplitCommas(rest) && ',' in j && Lacks(j, '{')
      && Lacks(j, '}')
  {
    var j := w + "," + rest;
    assert j[|w|] == ',';
    FindIs(j, |w|, ',');
    assert j[..|w|] == w && j[|w| + 1..] == rest;
  }

  /** The code finds the group that closes first, and its alternatives. */
  lemma CutIs(h: Hole, s: string)
    requires Around(s, h)
    ensures Expandable(s) && !Stuck(s) && Cut(s) == Parts(h.before, JoinCommas(h.choices), h.behind)
    ensures SplitCommas(JoinCommas(h.choices)) == h.choices
  {
    var m := JoinCommas(h.choices);
    SplitJoined(h.choices);
    hide JoinCommas, SplitCommas, Find, RFind, Plain;
    CutParts(h.before, m, h.behind);
  }

  lemma CutParts(before: string, m: string, behind: string)
    requires Lacks(before, '}') && Lacks(m, '{') && Lacks(m, '}') && ',' in m
    ensures var s := before + "{" + m + "}" + behind;
      && Expandable(s) == true && !Stuck(s)
      && Cut(s) == Parts(before, m, behind)
  {
    var s := before + "{" + m + "}" + behind;
    var c :| 0 <= c < |m| && m[c] == ',';
    assert s[|before| + 1 + c] == ',' && s[|before|] == '{' && s[|before| + 1 + |m|] == '}';
    CutAt(before, m, behind);
  }

  /** The expansions of a pattern: its lines, as many as the product of its groups' alternatives
      (counting a line as often as it arises), and no brace left in any. */
  ghost predicate Right(p: Pattern, r: Result) {
    && r.Expanded?
    && (forall s :: s in r.lines <==> s in Den(p))
    && |r.lines| == Product(p)
    && (forall s :: s in r.lines ==> Lacks(s, '{') && Lacks(s, '}'))
  }

  lemma {:induction false} ExpandIsRight(p: Pattern)
    requires WF(p, false)
    ensures Right(p, Expand(Text(p))) == true
    decreases Groups(p), 1, 0
  {
    hide Lacks, WF, First, Fill, Den, Text, Around, Product, SplitCommas, Cut, JoinCommas, Count;
    if Groups(p) == 0 {
      FlatIsRight(p);
    } else {
      var h := First(p);
      FirstIs(p, false);
      CutIs(h, Text(p));
      ExpandStep(Text(p));
      assert h.choices != [] by { TwoChoices(Text(p), h); }
      EachIsRight(p, 0, Count(Text(p), '{'));
      assert h.choices[0..] == h.choices;
      AllIsRight(p, ExpandEach(h.before, h.choices, h.behind, Count(Text(p), '{')));
    }
  }

  lemma TwoChoices(s: string, h: Hole)
    requires Around(s, h)
    ensures |h.choices| >= 2
  {}

  lemma FlatIsRight(p: Pattern)
    requires WF(p, false) && Groups(p) == 0
    ensures Right(p, Expand(Text(p))) == true
  {
    FlatText(p, false);
    assert !('{' in Text(p));
  }

  /** As `Right`, for the choices from `k` on. */
  ghost predicate RightFrom(p: Pattern, k: nat, r: Result)
    requires Groups(p) > 0
  {
    var ch := First(p).choices;
    && k <= |ch| && r.Expanded?
    && (forall s :: s in r.lines <==> exists i :: k <= i < |ch| && s in Den(Fill(p, ch[i])))
    && (forall s :: s in r.lines ==> Lacks(s, '{') && Lacks(s, '}'))
    && |ch| * |r.lines| == (|ch| - k) * Product(p)
  }

  lemma {:induction false} EachIsRight(p: Pattern, k: nat, bound: nat)
    requires WF(p, false) && Groups(p) > 0 && k <= |First(p).choices|
    requires forall i: nat :: i < |First(p).choices| ==>
             Count(First(p).before + First(p).choices[i] + First(p).behind, '{') < bound
    ensures RightFrom(p, k, ExpandEach(First(p).before, First(p).choices[k..], First(p).behind, bound)) == true
    decreases Groups(p), 0, |First(p).choices| - k
  {
    hide Lacks, WF, First, Fill, Den, Text, Product, Expand, Count;
    var h := First(p);
    if k == |h.choices| {
      assert h.choices[k..] == [];
      NoneRight(p, bound);
    } else {
      assert h.choices[k..][0] == h.choices[k] && h.choices[k..][1..] == h.choices[k + 1..];
      ChoicePlain(p, k);
      FillIs(p, false, h.choices[k]);
      ExpandIsRight(Fill(p, h.choices[k]));
      EachIsRight(p, k + 1, bound);
      OneMoreRight(p, k, Expand(h.before + h.choices[k] + h.behind),
                   ExpandEach(h.before, h.choices[k + 1..], h.behind, bound));
    }
  }

  lemma NoneRight(p: Pattern, bound: nat)
    requires Groups(p) > 0
    ensures RightFrom(p, |First(p).choices|, Expanded([])) == true
  {
    hide First, Den, Fill, Product;
  }

  lemma ChoicePlain(p: Pattern, k: nat)
    requires WF(p, false) && Groups(p) > 0 && k < |First(p).choices|
    ensures Plain(First(p).choices[k])
  {
    hide Plain, First, WF;
    FirstIs(p, false);
  }

  lemma OneMoreRight(p: Pattern, k: nat, first: Result, more: Result)
    requires WF(p, false) && Groups(p) > 0 && k < |First(p).choices|
    requires Right(Fill(p, First(p).choices[k]), first) && RightFrom(p, k + 1, more)
    ensures RightFrom(p, k, Expanded(first.lines + more.lines)) == true
  {
    hide Lacks, First, WF, Den, Fill, Plain, Product;
    var ch := First(p).choices;
    ChoicePlain(p, k);
    FillIs(p, false, ch[k]);
    var lines := first.lines + more.lines;
    var n, m := |ch|, Product(Fill(p, ch[k]));
    assert n * |lines| == n * m + n * |more.lines|;
    assert (n - k) * Product(p) == (n - (k + 1)) * Product(p) + Product(p);
    forall s ensures s in lines <==> exists i :: k <= i < |ch| && s in Den(Fill(p, ch[i])) {
      assert s in lines <==> s in first.lines || s in more.lines;
    }
  }

  lemma AllIsRight(p: Pattern, r: Result)
    requires WF(p, false) && Groups(p) > 0 && First(p).choices != [] && RightFrom(p, 0, r)
    ensures Right(p, r) == true
  {
    hide Lacks, First, WF, Den, Fill, Product;
    var ch := First(p).choices;
    forall s ensures s in r.lines <==> s in Den(p) {
      if s in Den(p) { var k := DenOut(p, false, s); }
      if s in r.lines {
        var i :| 0 <= i < |ch| && s in Den(Fill(p, ch[i]));
        DenIn(p, false, s, i);
      }
    }
    SameFactor(|ch|, |r.lines|, Product(p));
  }

  lemma SameFactor(n: nat, a: nat, b: nat)
    requires n > 0 && n * a == n * b
    ensures a == b
  {
    assert n * (a - b) == 0;
  }
}
