/** Comments in metadata: they may stand anywhere and change nothing. */
module LvmComments {
  import opened Strings
  import opened LvmText
  import opened LvmTokens
  import opened LvmEncoding
  import opened LvmRoundTrip

  /** A comment goes with its newline, and nothing else does. */
  lemma {:induction false} StripOne(a: string, c: string, b: string)
    requires NoHash(a) && '\n' !in c
    ensures StripComments(a + "#" + c + "\n" + b) == a + StripComments(b)
  {
    var s := a + "#" + c + "\n" + b;
    if a == "" {
      assert s[1 + |c|] == '\n' && s[0] == '#';
      FindIs(s, 1 + |c|, '\n');
      assert s[1 + |c| + 1..] == b;
    } else {
      assert s[1..] == a[1..] + "#" + c + "\n" + b;
      StripOne(a[1..], c, b);
    }
  }

  /** A comment on a last line without a newline stays. */
  lemma {:induction false} StripNone(a: string, c: string)
    requires NoHash(a) && '\n' !in c
    ensures StripComments(a + "#" + c) == a + "#" + c
  {
    var s := a + "#" + c;
    if a == "" {
      assert forall i :: 0 <= i < |s| ==> s[i] != '\n';
    } else {
      assert s[1..] == a[1..] + "#" + c;
      StripNone(a[1..], c);
    }
  }

  // ---- a text with comments put into it ----

  predicate IsComment(t: string, n: nat) {
    0 < n < |t| && t[0] == '#' && t[n] == '\n' && forall i :: 0 <= i < n ==> t[i] != '\n'
  }

  predicate Alike(c: char, x: char) {
    c == x || (IsSpace(c) && IsSpace(x))
  }

  /** `t` is `s` with comments put in anywhere, and white space possibly of another kind. */
  ghost predicate Commented(s: string, t: string)
    decreases |t|
  {
    if t == "" then s == ""
    else if t[0] == '#' then exists n: nat :: IsComment(t, n) && Commented(s, t[n + 1..])
    else s != "" && Alike(s[0], t[0]) && Commented(s[1..], t[1..])
  }

  lemma {:induction false} Itself(s: string)
    requires NoHash(s)
    ensures Commented(s, s)
  {
    if s != "" { Itself(s[1..]); }
  }

  /** A comment at the end of a line. */
  lemma {:induction false} AtLineEnd(a: string, c: string, b: string)
    requires NoHash(a) && '\n' !in c && NoHash(b)
    ensures Commented(a + "\n" + b, a + " #" + c + "\n" + b)
  {
    var s, t := a + "\n" + b, a + " #" + c + "\n" + b;
    if a == "" {
      var u := t[1..];
      assert u[0] == '#' && u[1 + |c|] == '\n' && IsComment(u, 1 + |c|) && u[1 + |c| + 1..] == b && s[1..] == b;
      Itself(b);
      assert Commented(b, u);
      assert IsSpace(' ') && IsSpace('\n') && s[0] == '\n' && t[0] == ' ';
    } else {
      assert s[1..] == a[1..] + "\n" + b && t[1..] == a[1..] + " #" + c + "\n" + b;
      AtLineEnd(a[1..], c, b);
    }
  }

  // ---- what becomes of it ----

  predicate AllAlike(s: string, u: string) {
    |s| == |u| && forall i :: 0 <= i < |s| ==> Alike(s[i], u[i])
  }

  lemma {:induction false} Stripped(s: string, t: string)
    requires Commented(s, t)
    ensures AllAlike(s, StripComments(t))
    decreases |t|
  {
    hide IsSpace;
    if t == "" {
    } else if t[0] == '#' {
      var n: nat :| IsComment(t, n) && Commented(s, t[n + 1..]);
      FindIs(t, n, '\n');
      Stripped(s, t[n + 1..]);
    } else {
      Stripped(s[1..], t[1..]);
    }
  }

  lemma {:induction false} ExpandAlike(s: string, u: string)
    requires AllAlike(s, u)
    ensures AllAlike(Expand(s), Expand(u))
  {
    if s == "" {
      assert u == "";
    } else {
      ExpandCons(s);
      ExpandCons(u);
      assert Spell(s[0]) == Spell(u[0]) || (Spell(s[0]) == [s[0]] && Spell(u[0]) == [u[0]]);
      hide Expand, Spell, IsSpace;
      ExpandAlike(s[1..], u[1..]);
    }
  }

  lemma {:induction false} SplitAlike(s: string, u: string)
    requires AllAlike(s, u)
    ensures Split(s) == Split(u)
  {
    hide IsSpace;
    if s == "" {
    } else if IsSpace(s[0]) {
      SplitAlike(s[1..], u[1..]);
    } else {
      var n := WordLength(s);
      WordLengthIs(u, n);
      assert s[..n] == u[..n];
      SplitAlike(s[n..], u[n..]);
    }
  }

  lemma DropNulAlike(s: string, u: string)
    requires AllAlike(s, u)
    ensures AllAlike(DropNul(s), DropNul(u))
  {
    assert !IsSpace('\0');
    hide IsSpace;
  }

  /** Comments make no difference to the tokens. */
  lemma SameTokens(s: string, t: string)
    requires NoHash(s) && Commented(s, t)
    ensures Tokens(t) == Tokens(s)
  {
    hide IsSpace, Expand, Collapse, Split, DropNul;
    NoCommentsToStrip(s);
    Stripped(s, t);
    var u := StripComments(t);
    ExpandAlike(s, u);
    SplitDropNul(Expand(s));
    SplitDropNul(Expand(u));
    DropNulAlike(Expand(s), Expand(u));
    SplitAlike(DropNul(Expand(s)), DropNul(Expand(u)));
  }

  /** A well-formed tree comes back from its printed text whatever comments have been put into that. */
  lemma CommentedRoundTrip(d: Tree, t: string)
    requires WFTree(d) && Commented(EncodeDict(d) + "\0", t)
    ensures DecodeData(t) == Ok(NamedTree(d), [])
  {
    hide Commented, Tokens, EncodeDict, DecodeTokens;
    DictSpells(d);
    SameTokens(EncodeDict(d) + "\0", t);
    RoundTrip(d);
  }
}
