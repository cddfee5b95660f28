/** Where the parser stops, as a reader finds it who goes over the tokens once; and the two ways in which the
    parser goes wrong without raising: tokens it never reads, and a string it never finishes. */
module LvmFailures {
  import opened Options
  import opened LvmText
  import opened LvmTokens
  import opened LvmEncoding

  // ---- reading the tokens from left to right ----

  /** What the next token is: a key or the end of a section, a value, an item of an array, or part of a string. */
  datatype Mode = AtKey | AtValue | InArray | InString(inArray: bool)

  /** Where the reader stops: at a closing brace that closes nothing, with the tokens behind it, at a word that
      should have been a number, or at the end of the tokens. */
  datatype Stop = Stray(behind: seq<string>) | BadWord | AtEnd(mode: Mode)

  predicate IsNumber(t: string) {
    '.' in t || IntValue(t).Some?
  }

  /** Reads on with `open` sections begun and not ended. */
  function Read(ts: seq<string>, open: nat, mode: Mode): Stop {
    if ts == [] then AtEnd(mode)
    else
      var t, rest := ts[0], ts[1..];
      match mode
      case AtKey =>
        if t != "}" then Read(rest, open, AtValue) else if open == 0 then Stray(rest) else Read(rest, open - 1, AtKey)
      case AtValue =>
        if t == "{" then Read(rest, open + 1, AtKey)
        else if t == "[" then Read(rest, open, InArray)
        else if t == "\"" then Read(rest, open, InString(false))
        else if IsNumber(t) then Read(rest, open, AtKey)
        else BadWord
      case InArray =>
        if t == "]" then Read(rest, open, AtKey)
        else if t == "\"" then Read(rest, open, InString(true))
        else if IsNumber(t) then Read(rest, open, InArray)
        else BadWord
      case InString(inArray) =>
        Read(rest, open, if t != "\"" then mode else if inArray then InArray else AtKey)
  }

  /** How the parser fails there. */
  predicate FailsAt(stop: Stop, e: Error) {
    match stop
    case Stray(_) => false
    case BadWord => e == NotAnInt
    case AtEnd(mode) => !mode.AtKey? && e == if mode.InString? then NeverEnds else NoToken
  }

  lemma {:induction false} StrRead(ts: seq<string>, result: string, open: nat, inArray: bool)
    ensures var r, stop := ParseStr(ts, result), Read(ts, open, InString(inArray));
      if r.Ok? then stop == Read(r.rest, open, if inArray then InArray else AtKey) else FailsAt(stop, r.error)
  {
    hide Strip;
    if ts != [] && ts[0] != "\"" { StrRead(ts[1..], result + " " + ts[0], open, inArray); }
  }

  lemma TypeRead(ts: seq<string>, open: nat, inArray: bool)
    requires ts != [] ==> ts[0] != (if inArray then "]" else "[") && (!inArray ==> ts[0] != "{")
    ensures var r, stop := ParseType(ts), Read(ts, open, if inArray then InArray else AtValue);
      if r.Ok? then stop == Read(r.rest, open, if inArray then InArray else AtKey) else FailsAt(stop, r.error)
  {
    hide IntValue, ParseStr;
    if ts != [] && ts[0] == "\"" { StrRead(ts[1..], "", open, inArray); }
  }

  lemma {:induction false} ArrayRead(ts: seq<string>, done: seq<Value>, open: nat)
    ensures var r, stop := ParseArray(ts, done), Read(ts, open, InArray);
      if r.Ok? then stop == Read(r.rest, open, AtKey) else FailsAt(stop, r.error)
    decreases |ts|
  {
    hide ParseType, Read;
    if ts == [] || ts[0] == "]" {
      ArrayStops(ts, open);
    } else {
      var v := ParseType(ts);
      TypeRead(ts, open, true);
      if v.Ok? { ArrayRead(v.rest, done + [v.value], open); }
    }
  }

  lemma ArrayStops(ts: seq<string>, open: nat)
    ensures ts == [] ==> Read(ts, open, InArray) == AtEnd(InArray)
    ensures ts != [] && ts[0] == "]" ==> Read(ts, open, InArray) == Read(ts[1..], open, AtKey)
  {}

  lemma {:induction false} ValueRead(ts: seq<string>, open: nat)
    ensures var r, stop := ParseValue(ts), Read(ts, open, AtValue);
      if r.Ok? then stop == Read(r.rest, open, AtKey) else FailsAt(stop, r.error)
    decreases |ts|, 1
  {
    hide ParseType, ParseArray, ParseSection, FailsAt;
    if ts != [] && ts[0] == "{" {
      SectionRead(ts[1..], [], open + 1);
    } else if ts != [] && ts[0] == "[" {
      ArrayRead(ts[1..], [], open);
    } else {
      TypeRead(ts, open, false);
    }
  }

  /** A section that another encloses is read to its end; the outermost ends at a stray brace or with the tokens. */
  lemma {:induction false} SectionRead(ts: seq<string>, done: Tree, open: nat)
    ensures var r, stop := ParseSection(ts, done), Read(ts, open, AtKey);
      if r.Err? then FailsAt(stop, r.error)
      else if open > 0 then stop == Read(r.rest, open - 1, AtKey)
      else stop == Stray(r.rest) || (stop == AtEnd(AtKey) && r.rest == [])
    decreases |ts|, 0
  {
    hide ParseValue, SetItem;
    if ts != [] && ts[0] != "}" {
      var v := ParseValue(ts[1..]);
      ValueRead(ts[1..], open);
      if v.Ok? { SectionRead(v.rest, SetItem(done, ts[0], v.value), open); }
    }
  }

  /** Whether decoding succeeds, how it fails and what it leaves unread is what the reader says. */
  lemma DecodeReads(ts: seq<string>)
    ensures var r, stop := DecodeTokens(ts), Read(ts, 0, AtKey);
      && (r.Ok? <==> stop.Stray? || stop == AtEnd(AtKey))
      && (r.Ok? ==> r.rest == if stop.Stray? then stop.behind else [])
      && (r.Err? ==> FailsAt(stop, r.error))
  {
    hide Read, ParseSection;
    SectionRead(ts, [], 0);
  }

  /** Tokens are left over iff the reader meets a closing brace that closes nothing, with tokens behind it. */
  lemma LeftOverIff(ts: seq<string>)
    ensures var r, stop := DecodeTokens(ts), Read(ts, 0, AtKey);
      r.Ok? && r.rest != [] <==> stop.Stray? && stop.behind != []
  {
    hide Read, DecodeTokens;
    DecodeReads(ts);
  }

  /** Decoding never ends iff the tokens end inside a string. */
  lemma NeverEndsIff(raw: string)
    ensures DecodeData(raw) == Err(NeverEnds)
            <==> exists inArray: bool :: Read(Tokens(raw), 0, AtKey) == AtEnd(InString(inArray))
  {
    hide Read, DecodeTokens, Tokens;
    DecodeReads(Tokens(raw));
    var stop := Read(Tokens(raw), 0, AtKey);
    if stop.AtEnd? && stop.mode.InString? { assert stop == AtEnd(InString(stop.mode.inArray)); }
  }

  // ---- a string without an end ----

  /** `parse_str` comes to an end iff there is a closing quote. */
  lemma {:induction false} StrEndsIff(ts: seq<string>, result: string)
    ensures ParseStr(ts, result) == Err(NeverEnds) <==> "\"" !in ts
    ensures ParseStr(ts, result).Ok? <==> "\"" in ts
  {
    hide Strip;
    if ts != [] && ts[0] != "\"" { StrEndsIff(ts[1..], result + " " + ts[0]); }
  }

  /** A text on which decoding never ends. */
  lemma UnclosedQuote()
    ensures DecodeData("a \"b") == Err(NeverEnds)
  {
    UnclosedTokens();
    NeverEndsIff("a \"b");
    var ts := ["a", "\"", "b"];
    hide Tokens;
    assert ts[1..] == ["\"", "b"] && ["\"", "b"][1..] == ["b"] && ["b"][1..] == [];
    assert Read(["b"], 0, InString(false)) == AtEnd(InString(false));
    assert Read(ts, 0, AtKey) == AtEnd(InString(false));
  }

  lemma UnclosedTokens()
    ensures Tokens("a \"b") == ["a", "\"", "b"]
  {
    hide Expand, Split, Collapse, Spells, Separates, StripComments;
    CleanSpells("a");
    CleanSpells("b");
    QuoteSpells();
    Separators();
    SpellsAppend("\"", ["\""], "b", ["b"]);
    SpellsJoin("a", ["a"], " ", "\"" + "b", ["\""] + ["b"]);
    var s := "a \"b";
    assert "a" + " " + ("\"" + "b") == s;
    UnclosedText(s);
  }

  lemma UnclosedText(s: string)
    requires s == "a \"b" && Spells(s, ["a"] + (["\""] + ["b"]))
    ensures Tokens(s) == ["a", "\"", "b"]
  {
    hide Expand, Split, Collapse;
    NoCommentsToStrip(s);
    SplitDropNul(Expand(s));
    ExpandAppend("a \"", "b");
    ExpandOne('b');
    assert "a \"" + "b" == s;
    assert Expand(s)[|Expand(s)| - 1] == 'b';
  }

  // ---- tokens left over ----

  /** However the tokens go on behind them, these are read as this value. */
  ghost predicate StrReads(used: seq<string>, result: string, v: Value) {
    forall more: seq<string> :: ParseStr(used + more, result) == Ok(v, more)
  }

  ghost predicate TypeReads(used: seq<string>, v: Value) {
    forall more: seq<string> :: ParseType(used + more) == Ok(v, more)
  }

  ghost predicate ArrayReads(used: seq<string>, done: seq<Value>, v: Value) {
    forall more: seq<string> :: ParseArray(used + more, done) == Ok(v, more)
  }

  ghost predicate ValueReads(used: seq<string>, v: Value) {
    forall more: seq<string> :: ParseValue(used + more) == Ok(v, more)
  }

  /** These tokens make up the dictionary by themselves, and a closing brace behind them ends it: it closes
      nothing that they opened. */
  ghost predicate ClosesNothing(before: seq<string>, done: Tree, d: Tree) {
    && ParseSection(before, done) == Ok(d, [])
    && forall more: seq<string> :: ParseSection(before + ["}"] + more, done) == Ok(d, more)
  }

  lemma Onward(t: string, used: seq<string>, more: seq<string>)
    ensures ([t] + used + more)[0] == t && ([t] + used + more)[1..] == used + more
  {}

  lemma {:induction false} StrUses(ts: seq<string>, result: string) returns (used: seq<string>)
    requires ParseStr(ts, result).Ok?
    ensures ts == used + ParseStr(ts, result).rest && StrReads(used, result, ParseStr(ts, result).value)
  {
    hide Strip;
    if ts[0] == "\"" {
      used := ["\""];
      forall more: seq<string> ensures ParseStr(used + more, result) == Ok(ParseStr(ts, result).value, more) {
        assert (used + more)[1..] == more;
      }
    } else {
      var rest := StrUses(ts[1..], result + " " + ts[0]);
      used := [ts[0]] + rest;
      forall more: seq<string> ensures ParseStr(used + more, result) == Ok(ParseStr(ts, result).value, more) {
        Onward(ts[0], rest, more);
        assert ParseStr(rest + more, result + " " + ts[0]) == Ok(ParseStr(ts, result).value, more);
      }
    }
  }

  lemma TypeUses(ts: seq<string>) returns (used: seq<string>)
    requires ParseType(ts).Ok?
    ensures ts == used + ParseType(ts).rest && TypeReads(used, ParseType(ts).value) && used != [] && used[0] == ts[0]
  {
    hide IntValue, ParseStr;
    var rest: seq<string> := [];
    if ts[0] == "\"" { rest := StrUses(ts[1..], ""); }
    used := [ts[0]] + rest;
    forall more: seq<string> ensures ParseType(used + more) == Ok(ParseType(ts).value, more) {
      Onward(ts[0], rest, more);
      if ts[0] == "\"" { assert ParseStr(rest + more, "") == Ok(ParseType(ts).value, more); }
    }
  }

  lemma {:induction false} ArrayUses(ts: seq<string>, done: seq<Value>) returns (used: seq<string>)
    requires ParseArray(ts, done).Ok?
    ensures ts == used + ParseArray(ts, done).rest && ArrayReads(used, done, ParseArray(ts, done).value)
    decreases |ts|
  {
    hide ParseType;
    var r := ParseArray(ts, done);
    if ts[0] == "]" {
      used := ["]"];
      forall more: seq<string> ensures ParseArray(used + more, done) == Ok(r.value, more) {
        assert (used + more)[1..] == more;
      }
    } else {
      var v := ParseType(ts);
      var first := TypeUses(ts);
      var rest := ArrayUses(v.rest, done + [v.value]);
      used := first + rest;
      forall more: seq<string> ensures ParseArray(used + more, done) == Ok(r.value, more) {
        assert used + more == first + (rest + more);
        assert ParseType(first + (rest + more)) == Ok(v.value, rest + more);
        assert ParseArray(rest + more, done + [v.value]) == Ok(r.value, more);
      }
    }
  }

  /** Where something is left, a section has ended at a brace and not at the end of the tokens. */
  lemma {:induction false} SectionUses(ts: seq<string>, done: Tree) returns (before: seq<string>)
    requires ParseSection(ts, done).Ok? && ParseSection(ts, done).rest != []
    ensures ts == before + ["}"] + ParseSection(ts, done).rest
    ensures ClosesNothing(before, done, ParseSection(ts, done).value)
    decreases |ts|
  {
    hide ParseValue, SetItem;
    var r := ParseSection(ts, done);
    if ts[0] == "}" {
      before := [];
      forall more: seq<string> ensures ParseSection([] + ["}"] + more, done) == Ok(r.value, more) {
        assert ([] + ["}"] + more)[1..] == more;
      }
    } else {
      var v := ParseValue(ts[1..]);
      var first := ValueUses(ts[1..]);
      var rest := SectionUses(v.rest, SetItem(done, ts[0], v.value));
      before := [ts[0]] + first + rest;
      EntryReads(ts[0], first, v.value, rest, done, r.value);
      assert ts == [ts[0]] + ts[1..];
    }
  }

  lemma EntryReads(key: string, first: seq<string>, v: Value, rest: seq<string>, done: Tree, d: Tree)
    requires key != "}" && ValueReads(first, v) && ClosesNothing(rest, SetItem(done, key, v), d)
    ensures ClosesNothing([key] + first + rest, done, d)
  {
    hide ParseValue, SetItem;
    var before := [key] + first + rest;
    assert before[1..] == first + rest && before[0] == key;
    assert ParseValue(first + rest) == Ok(v, rest);
    forall more: seq<string> ensures ParseSection(before + ["}"] + more, done) == Ok(d, more) {
      var ts := before + ["}"] + more;
      assert ts[0] == key && ts[1..] == first + (rest + ["}"] + more);
      assert ParseValue(first + (rest + ["}"] + more)) == Ok(v, rest + ["}"] + more);
    }
  }

  lemma {:induction false} ValueUses(ts: seq<string>) returns (used: seq<string>)
    requires ParseValue(ts).Ok? && ParseValue(ts).rest != []
    ensures ts == used + ParseValue(ts).rest && ValueReads(used, ParseValue(ts).value)
    decreases |ts|
  {
    hide ParseType, ParseArray, ParseSection;
    var r := ParseValue(ts);
    if ts[0] == "{" {
      var before := SectionUses(ts[1..], []);
      used := ["{"] + before + ["}"];
      assert ts == ["{"] + ts[1..];
      forall more: seq<string> ensures ParseValue(used + more) == Ok(r.value, more) {
        assert (used + more)[0] == "{" && (used + more)[1..] == before + ["}"] + more;
      }
    } else if ts[0] == "[" {
      var rest := ArrayUses(ts[1..], []);
      used := ["["] + rest;
      assert ts == ["["] + ts[1..];
      forall more: seq<string> ensures ParseValue(used + more) == Ok(r.value, more) {
        Onward("[", rest, more);
        assert ParseArray(rest + more, []) == Ok(r.value, more);
      }
    } else {
      used := TypeUses(ts);
      forall more: seq<string> ensures ParseValue(used + more) == Ok(r.value, more) {
        assert (used + more)[0] == ts[0];
        assert ParseType(used + more) == Ok(r.value, more);
      }
    }
  }

  /** What is dropped is behind such a brace, and what is before it makes up the same dictionary by itself. */
  lemma Dropped(ts: seq<string>) returns (before: seq<string>)
    requires DecodeTokens(ts).Ok? && DecodeTokens(ts).rest != []
    ensures ts == before + ["}"] + DecodeTokens(ts).rest && ClosesNothing(before, [], DecodeTokens(ts).value.tree)
  {
    hide ParseSection;
    before := SectionUses(ts, []);
  }

  lemma StrayBrace()
    ensures DecodeTokens(["}", "a"]) == Ok(Named(Some("}"), []), ["a"])
  {
    assert ["}", "a"][1..] == ["a"];
  }
}
