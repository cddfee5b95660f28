/** The policy check that a manifest holds only allowed properties. */
module PropertyAllowlist {
  import opened Strings

  datatype Node = Scalar | List(items: seq<Node>) | Dict(entries: seq<Property>)

  datatype Property = Property(key: string, value: Node)

  function PathOf(prefix: string, key: string): string {
    if prefix != "" then prefix + "." + key else key
  }

  function ItemPath(path: string, i: nat): string {
    path + "[" + Digits(i) + "]"
  }

  predicate StartsWith(s: string, prefix: string) { prefix <= s }

  /** The path or one above it is allowed. */
  predicate Covered(allowed: seq<string>, path: string) {
    path in allowed || exists a <- allowed :: StartsWith(path, a + ".")
  }

  predicate HasAllowedBelow(allowed: seq<string>, path: string) {
    exists a <- allowed :: StartsWith(a, path + ".")
  }

  // ---- the walk, as the list of the paths it reports ----

  function Walk(allowed: seq<string>, ps: seq<Property>, prefix: string): seq<string>
    decreases ps
  {
    if ps == [] then []
    else
      var p := ps[|ps| - 1];
      Walk(allowed, ps[..|ps| - 1], prefix) + WalkProperty(allowed, p.value, PathOf(prefix, p.key))
  }

  function WalkProperty(allowed: seq<string>, value: Node, path: string): seq<string>
    decreases value, 1
  {
    if Covered(allowed, path) then WalkBelow(allowed, value, path)
    else if !value.Dict? then [path] + WalkBelow(allowed, value, path)
    else if !HasAllowedBelow(allowed, path) then [path]
    else WalkBelow(allowed, value, path)
  }

  function WalkBelow(allowed: seq<string>, value: Node, path: string): seq<string>
    decreases value, 0
  {
    match value
    case Scalar => []
    case Dict(ps) => Walk(allowed, ps, path)
    case List(items) => WalkItems(allowed, items, path)
  }

  function WalkItems(allowed: seq<string>, items: seq<Node>, path: string): seq<string>
    decreases items
  {
    if items == [] then []
    else
      var i, item := |items| - 1, items[|items| - 1];
      WalkItems(allowed, items[..i], path) + (if item.Dict? then Walk(allowed, item.entries, ItemPath(path, i)) else [])
  }

  class Validator {
    var errors: seq<string>

    constructor ()
      ensures errors == []
    {
      errors := [];
    }

    method CheckProperties(allowed: seq<string>, ps: seq<Property>, prefix: string)
      modifies this
      ensures errors == old(errors) + Walk(allowed, ps, prefix)
      decreases ps
    {
      hide WalkProperty, PathOf;
      assert ps[..|ps|] == ps;
      for k := 0 to |ps|
        invariant errors == old(errors) + Walk(allowed, ps[..k], prefix)
      {
        assert ps[..k + 1][..k] == ps[..k];
        CheckProperty(allowed, ps[k].value, PathOf(prefix, ps[k].key));
      }
    }

    /** The body of the loop. */
    method CheckProperty(allowed: seq<string>, value: Node, path: string)
      modifies this
      ensures errors == old(errors) + WalkProperty(allowed, value, path)
      decreases value, 1
    {
      hide Covered, HasAllowedBelow, Walk, WalkItems;
      if !Covered(allowed, path) {
        if !value.Dict? {
          errors := errors + [path];
        } else if !HasAllowedBelow(allowed, path) {
          errors := errors + [path];
          return;
        }
      }
      if value.Dict? {
        CheckProperties(allowed, value.entries, path);
      } else if value.List? {
        CheckItems(allowed, value.items, path);
      }
    }

    method CheckItems(allowed: seq<string>, items: seq<Node>, path: string)
      modifies this
      ensures errors == old(errors) + WalkItems(allowed, items, path)
      decreases items
    {
      assert items[..|items|] == items;
      for i := 0 to |items|
        invariant errors == old(errors) + WalkItems(allowed, items[..i], path)
      {
        assert items[..i + 1][..i] == items[..i];
        if items[i].Dict? {
          CheckProperties(allowed, items[i].entries, ItemPath(path, i));
        }
      }
    }
  }

  method ValidatePropertyAllowlist(manifest: Node, allowed: seq<string>) returns (errors: seq<string>)
    ensures errors == WalkBelowTop(manifest, allowed)
  {
    var v := new Validator();
    if manifest.Dict? { v.CheckProperties(allowed, manifest.entries, ""); }
    errors := v.errors;
  }

  function WalkBelowTop(manifest: Node, allowed: seq<string>): seq<string> {
    if manifest.Dict? then Walk(allowed, manifest.entries, "") else []
  }

  // ---- what the walk is for ----

  /** Every property of a tree with its path, whatever is allowed; of a list only elements that are
      dictionaries are looked into. */
  function Properties(ps: seq<Property>, prefix: string): set<(string, Node)>
    decreases ps
  {
    if ps == [] then {}
    else
      var p := ps[|ps| - 1];
      Properties(ps[..|ps| - 1], prefix) + {(PathOf(prefix, p.key), p.value)} + Below(p.value, PathOf(prefix, p.key))
  }

  function Below(value: Node, path: string): set<(string, Node)>
    decreases value, 0
  {
    match value
    case Scalar => {}
    case Dict(ps) => Properties(ps, path)
    case List(items) => InItems(items, path)
  }

  function InItems(items: seq<Node>, path: string): set<(string, Node)>
    decreases items
  {
    if items == [] then {}
    else
      var i, item := |items| - 1, items[|items| - 1];
      InItems(items[..i], path) + (if item.Dict? then Properties(item.entries, ItemPath(path, i)) else {})
  }

  /** A property that is no reason for an error: it is covered, or it is a dictionary with something
      allowed in it. */
  predicate Permitted(allowed: seq<string>, path: string, value: Node) {
    Covered(allowed, path) || (value.Dict? && HasAllowedBelow(allowed, path))
  }

  ghost predicate AllPermitted(allowed: seq<string>, ps: set<(string, Node)>) {
    forall p :: p in ps ==> Permitted(allowed, p.0, p.1)
  }

  lemma {:induction false} WalkExact(allowed: seq<string>, ps: seq<Property>, prefix: string)
    ensures Walk(allowed, ps, prefix) == [] <==> AllPermitted(allowed, Properties(ps, prefix))
    decreases ps
  {
    hide Covered, HasAllowedBelow, PathOf;
    if ps != [] {
      var p := ps[|ps| - 1];
      var path := PathOf(prefix, p.key);
      WalkExact(allowed, ps[..|ps| - 1], prefix);
      BelowExact(allowed, p.value, path);
      assert (path, p.value) in Properties(ps, prefix);
    }
  }

  lemma {:induction false} BelowExact(allowed: seq<string>, value: Node, path: string)
    ensures WalkBelow(allowed, value, path) == [] <==> AllPermitted(allowed, Below(value, path))
    decreases value, 0
  {
    hide Permitted;
    match value {
      case Scalar =>
      case Dict(ps) => WalkExact(allowed, ps, path);
      case List(items) => ItemsExact(allowed, items, path);
    }
  }

  lemma {:induction false} ItemsExact(allowed: seq<string>, items: seq<Node>, path: string)
    ensures WalkItems(allowed, items, path) == [] <==> AllPermitted(allowed, InItems(items, path))
    decreases items
  {
    hide Permitted;
    if items != [] {
      var i, item := |items| - 1, items[|items| - 1];
      ItemsExact(allowed, items[..i], path);
      if item.Dict? { WalkExact(allowed, item.entries, ItemPath(path, i)); }
    }
  }

  /** A larger allowlist accepts whatever a smaller one does. */
  lemma Monotone(manifest: Node, small: seq<string>, large: seq<string>)
    requires forall a <- small :: a in large
    requires WalkBelowTop(manifest, small) == []
    ensures WalkBelowTop(manifest, large) == []
  {
    hide StartsWith, Walk;
    if manifest.Dict? {
      WalkExact(small, manifest.entries, "");
      WalkExact(large, manifest.entries, "");
      forall p | p in Properties(manifest.entries, "") ensures Permitted(large, p.0, p.1) {
        assert Permitted(small, p.0, p.1);
      }
    }
  }

  /** Every path reported is that of a property that is not permitted. */
  lemma {:induction false} ReportsAreRight(allowed: seq<string>, ps: seq<Property>, prefix: string, e: string)
    requires e in Walk(allowed, ps, prefix)
    ensures exists v :: (e, v) in Properties(ps, prefix) && !Permitted(allowed, e, v)
    decreases ps
  {
    hide Covered, HasAllowedBelow, PathOf;
    var p := ps[|ps| - 1];
    var path := PathOf(prefix, p.key);
    if e in Walk(allowed, ps[..|ps| - 1], prefix) {
      ReportsAreRight(allowed, ps[..|ps| - 1], prefix, e);
    } else if e in WalkBelow(allowed, p.value, path) && !(e == path && !Permitted(allowed, path, p.value)) {
      ReportsBelow(allowed, p.value, path, e);
    } else {
      assert (path, p.value) in Properties(ps, prefix);
    }
  }

  lemma {:induction false} ReportsBelow(allowed: seq<string>, value: Node, path: string, e: string)
    requires e in WalkBelow(allowed, value, path)
    ensures exists v :: (e, v) in Below(value, path) && !Permitted(allowed, e, v)
    decreases value, 0
  {
    hide Permitted;
    match value {
      case Dict(ps) => ReportsAreRight(allowed, ps, path, e);
      case List(items) => ReportsInItems(allowed, items, path, e);
    }
  }

  lemma {:induction false} ReportsInItems(allowed: seq<string>, items: seq<Node>, path: string, e: string)
    requires e in WalkItems(allowed, items, path)
    ensures exists v :: (e, v) in InItems(items, path) && !Permitted(allowed, e, v)
    decreases items
  {
    hide Permitted;
    var i, item := |items| - 1, items[|items| - 1];
    if e in WalkItems(allowed, items[..i], path) {
      ReportsInItems(allowed, items[..i], path, e);
    } else {
      ReportsAreRight(allowed, item.entries, ItemPath(path, i), e);
    }
  }

  // ---- how many errors there are ----

  predicate Within(small: seq<string>, large: seq<string>) {
    forall a <- small :: a in large
  }

  lemma PermittedToo(small: seq<string>, large: seq<string>, path: string, value: Node)
    requires Within(small, large)
    ensures Covered(small, path) ==> Covered(large, path)
    ensures Permitted(small, path, value) ==> Permitted(large, path, value)
  {
    hide StartsWith;
  }

  /** A dictionary that only the larger allowlist looks into. */
  predicate Opened(small: seq<string>, large: seq<string>, path: string, value: Node) {
    value.Dict? && Permitted(large, path, value) && !Permitted(small, path, value)
  }

  /** None of these dictionaries has more than one report in it. */
  ghost predicate OneEach(small: seq<string>, large: seq<string>, ps: set<(string, Node)>) {
    forall p <- ps :: Opened(small, large, p.0, p.1) ==> |WalkBelow(large, p.1, p.0)| <= 1
  }

  /** Allowing more leads to no more errors, unless it opens a dictionary that then has several errors in it
      instead of the one for the dictionary itself. */
  lemma {:induction false} CountIsMonotone(small: seq<string>, large: seq<string>, ps: seq<Property>, prefix: string)
    requires Within(small, large) && OneEach(small, large, Properties(ps, prefix))
    ensures |Walk(large, ps, prefix)| <= |Walk(small, ps, prefix)|
    decreases ps
  {
    hide PathOf, Within, Opened, WalkProperty, WalkBelow;
    if ps != [] {
      var p := ps[|ps| - 1];
      CountIsMonotone(small, large, ps[..|ps| - 1], prefix);
      assert (PathOf(prefix, p.key), p.value) in Properties(ps, prefix);
      CountOfOne(small, large, p.value, PathOf(prefix, p.key));
    }
  }

  lemma {:induction false} CountOfOne(small: seq<string>, large: seq<string>, value: Node, path: string)
    requires Within(small, large) && OneEach(small, large, Below(value, path))
    requires Opened(small, large, path, value) ==> |WalkBelow(large, value, path)| <= 1
    ensures |WalkProperty(large, value, path)| <= |WalkProperty(small, value, path)|
    decreases value, 1
  {
    hide Covered, HasAllowedBelow, Within, WalkBelow;
    PermittedToo(small, large, path, value);
    CountBelow(small, large, value, path);
  }

  lemma {:induction false} CountBelow(small: seq<string>, large: seq<string>, value: Node, path: string)
    requires Within(small, large) && OneEach(small, large, Below(value, path))
    ensures |WalkBelow(large, value, path)| <= |WalkBelow(small, value, path)|
    decreases value, 0
  {
    hide Within, OneEach;
    match value {
      case Scalar =>
      case Dict(ps) => CountIsMonotone(small, large, ps, path);
      case List(items) => CountInItems(small, large, items, path);
    }
  }

  lemma {:induction false} CountInItems(small: seq<string>, large: seq<string>, items: seq<Node>, path: string)
    requires Within(small, large) && OneEach(small, large, InItems(items, path))
    ensures |WalkItems(large, items, path)| <= |WalkItems(small, items, path)|
    decreases items
  {
    hide Within, Opened;
    if items != [] {
      var i, item := |items| - 1, items[|items| - 1];
      CountInItems(small, large, items[..i], path);
      if item.Dict? { CountIsMonotone(small, large, item.entries, ItemPath(path, i)); }
    }
  }

  lemma {:induction false} CoveredIsQuiet(allowed: seq<string>, ps: seq<Property>, prefix: string)
    requires prefix != "" && exists a <- allowed :: StartsWith(prefix + ".", a + ".")
    ensures Walk(allowed, ps, prefix) == []
    decreases ps
  {
    hide WalkProperty;
    if ps != [] {
      var p := ps[|ps| - 1];
      CoveredIsQuiet(allowed, ps[..|ps| - 1], prefix);
      var a :| a in allowed && StartsWith(prefix + ".", a + ".");
      QuietProperty(allowed, p.value, PathOf(prefix, p.key), a);
    }
  }

  lemma {:induction false} QuietProperty(allowed: seq<string>, value: Node, path: string, a: string)
    requires path != "" && a in allowed && StartsWith(path, a + ".")
    ensures WalkProperty(allowed, value, path) == []
    decreases value, 1
  {
    hide Walk, WalkItems;
    match value {
      case Scalar =>
      case Dict(ps) =>
        assert StartsWith(path + ".", a + ".");
        CoveredIsQuiet(allowed, ps, path);
      case List(items) => QuietItems(allowed, items, path, a);
    }
  }

  lemma {:induction false} QuietItems(allowed: seq<string>, items: seq<Node>, path: string, a: string)
    requires path != "" && a in allowed && StartsWith(path, a + ".")
    ensures WalkItems(allowed, items, path) == []
    decreases items
  {
    hide Walk;
    if items != [] {
      var i, item := |items| - 1, items[|items| - 1];
      QuietItems(allowed, items[..i], path, a);
      assert StartsWith(ItemPath(path, i) + ".", a + ".");
      if item.Dict? { CoveredIsQuiet(allowed, item.entries, ItemPath(path, i)); }
    }
  }

  /** Properties of a dictionary at this path are looked at one by one, and may be reported.  (Those of one with
      an empty path have paths of their own.) */
  predicate LooksInto(allowed: seq<string>, path: string) {
    if path == "" then Covered(allowed, path) || HasAllowedBelow(allowed, path)
    else HasAllowedBelow(allowed, path) && !Covered(allowed, path)
  }

  /** Whatever the larger allowlist looks into, the smaller one does not report as a whole. */
  ghost predicate NothingOpened(small: seq<string>, large: seq<string>) {
    forall path: string :: LooksInto(large, path) ==> HasAllowedBelow(small, path) || Covered(small, path)
  }

  lemma OpenedIsCovered(small: seq<string>, large: seq<string>, path: string, value: Node)
    requires NothingOpened(small, large) && Opened(small, large, path, value)
    ensures WalkBelow(large, value, path) == []
  {
    hide StartsWith, Walk;
    assert Covered(large, path);
    CoveredStarts(large, path);
    CoveredIsQuiet(large, value.entries, path);
  }

  lemma CoveredStarts(allowed: seq<string>, path: string)
    requires Covered(allowed, path)
    ensures exists a <- allowed :: StartsWith(path + ".", a + ".")
  {
    if path in allowed {
      assert StartsWith(path + ".", path + ".");
    } else {
      var a :| a in allowed && StartsWith(path, a + ".");
      assert StartsWith(path + ".", a + ".");
    }
  }

  function Longest(allowed: seq<string>): (n: nat)
    ensures forall a <- allowed :: |a| <= n
  {
    if allowed == [] then 0
    else
      var n := Longest(allowed[1..]);
      if |allowed[0]| > n then |allowed[0]| else n
  }

  lemma OnlyAbove(path: string, key: string, a: string)
    requires StartsWith(PathOf(path, key), a + ".") && '.' !in key
    ensures path != "" && (a == path || StartsWith(path, a + "."))
  {
    var at := PathOf(path, key);
    assert at[|a|] == (a + ".")[|a|] == '.' && a == at[..|a|];
  }

  /** A key that nothing in the list has anything to do with. */
  lemma Unheard(allowed: seq<string>, path: string, key: string)
    requires |key| > Longest(allowed) && '.' !in key
    ensures Covered(allowed, PathOf(path, key)) ==> path != "" && Covered(allowed, path)
  {
    var at := PathOf(path, key);
    assert |at| >= |key|;
    forall a | a in allowed && StartsWith(at, a + ".") ensures path != "" && Covered(allowed, path) {
      OnlyAbove(path, key, a);
    }
  }

  /** A manifest with a dictionary at `path` that holds two unheard-of properties. */
  lemma TwoForOne(small: seq<string>, large: seq<string>, path: string)
    requires LooksInto(large, path) && !HasAllowedBelow(small, path) && !Covered(small, path)
    ensures exists ps: seq<Property> :: |Walk(large, ps, "")| == 2 && |Walk(small, ps, "")| == 1
  {
    var n := Longest(large) + 1;
    var j, k := seq(n, _ => 'z'), seq(n + 1, _ => 'z');
    Unheard(large, path, j);
    Unheard(large, path, k);
    var x, y := Property(j, Scalar), Property(k, Scalar);
    var value := Dict([x, y]);
    OneProperty(small, path, value);
    OneProperty(large, path, value);
    hide Covered, HasAllowedBelow;
    assert [x, y][..1] == [x] && [x][..0] == [];
    assert Walk(large, [x], path) == [PathOf(path, j)];
    assert Walk(large, [x, y], path) == [PathOf(path, j), PathOf(path, k)];
    assert WalkProperty(large, value, path) == Walk(large, [x, y], path);
    assert WalkProperty(small, value, path) == [path];
    assert |Walk(large, [Property(path, value)], "")| == 2 && |Walk(small, [Property(path, value)], "")| == 1;
  }

  /** Allowing more leads to no more errors, whatever the manifest, iff it makes the check look into no
      dictionary that it reported as a whole before. */
  lemma CountIff(small: seq<string>, large: seq<string>)
    requires Within(small, large)
    ensures (forall ps: seq<Property>, prefix: string :: |Walk(large, ps, prefix)| <= |Walk(small, ps, prefix)|)
            <==> NothingOpened(small, large)
  {
    hide Walk, WalkBelow, HasAllowedBelow, Covered, LooksInto;
    if NothingOpened(small, large) {
      forall ps: seq<Property>, prefix: string ensures |Walk(large, ps, prefix)| <= |Walk(small, ps, prefix)| {
        forall p | p in Properties(ps, prefix) && Opened(small, large, p.0, p.1)
          ensures |WalkBelow(large, p.1, p.0)| <= 1
        {
          OpenedIsCovered(small, large, p.0, p.1);
        }
        CountIsMonotone(small, large, ps, prefix);
      }
    } else {
      var path: string :| LooksInto(large, path) && !HasAllowedBelow(small, path) && !Covered(small, path);
      TwoForOne(small, large, path);
    }
  }

  /** Beneath a dictionary that the smaller allowlist reports as a whole. */
  ghost predicate BeneathReported(small: seq<string>, large: seq<string>, ps: set<(string, Node)>, errors: seq<string>,
                                  e: string)
  {
    exists p :: p in ps && Opened(small, large, p.0, p.1) && p.0 in errors && exists v :: (e, v) in Below(p.1, p.0)
  }

  lemma MoreBeneath(small: seq<string>, large: seq<string>, ps: set<(string, Node)>, errors: seq<string>, e: string,
                    qs: set<(string, Node)>, more: seq<string>)
    requires BeneathReported(small, large, ps, errors, e) && ps <= qs && forall x <- errors :: x in more
    ensures BeneathReported(small, large, qs, more, e)
  {
    hide Opened, Below;
  }

  /** What the larger allowlist reports, the smaller one reports as well, or it reports a dictionary around it. */
  lemma {:induction false} NewReports(small: seq<string>, large: seq<string>, ps: seq<Property>, prefix: string,
                                         e: string)
    requires Within(small, large) && e in Walk(large, ps, prefix)
    ensures var was := Walk(small, ps, prefix);
      e in was || BeneathReported(small, large, Properties(ps, prefix), was, e)
    decreases ps
  {
    hide PathOf, Within, WalkProperty, Below, BeneathReported;
    var before, p := ps[..|ps| - 1], ps[|ps| - 1];
    var path, was, all := PathOf(prefix, p.key), Walk(small, ps, prefix), Properties(ps, prefix);
    if e in Walk(large, before, prefix) {
      NewReports(small, large, before, prefix, e);
      if e !in was {
        MoreBeneath(small, large, Properties(before, prefix), Walk(small, before, prefix), e, all, was);
      }
    } else {
      NewOfOne(small, large, p.value, path, e);
      var one := {(path, p.value)} + Below(p.value, path);
      if e !in was { MoreBeneath(small, large, one, WalkProperty(small, p.value, path), e, all, was); }
    }
  }

  lemma {:induction false} NewOfOne(small: seq<string>, large: seq<string>, value: Node, path: string, e: string)
    requires Within(small, large) && e in WalkProperty(large, value, path)
    ensures var was := WalkProperty(small, value, path);
      e in was || BeneathReported(small, large, {(path, value)} + Below(value, path), was, e)
    decreases value, 1
  {
    hide Covered, HasAllowedBelow, Within, WalkBelow, Below, BeneathReported;
    var was := WalkProperty(small, value, path);
    PermittedToo(small, large, path, value);
    if e !in was && e in WalkBelow(large, value, path) {
      if Opened(small, large, path, value) {
        ReportsBelow(large, value, path, e);
        IsBeneath(small, large, value, path, was, e);
      } else {
        NewBelow(small, large, value, path, e);
        MoreBeneath(small, large, Below(value, path), WalkBelow(small, value, path), e,
                    {(path, value)} + Below(value, path), was);
      }
    }
  }

  lemma IsBeneath(small: seq<string>, large: seq<string>, value: Node, path: string, was: seq<string>, e: string)
    requires Opened(small, large, path, value) && path in was && exists v :: (e, v) in Below(value, path)
    ensures BeneathReported(small, large, {(path, value)} + Below(value, path), was, e)
  {
    hide Opened, Below;
    assert (path, value) in {(path, value)} + Below(value, path);
  }

  lemma {:induction false} NewBelow(small: seq<string>, large: seq<string>, value: Node, path: string, e: string)
    requires Within(small, large) && e in WalkBelow(large, value, path)
    ensures var was := WalkBelow(small, value, path);
      e in was || BeneathReported(small, large, Below(value, path), was, e)
    decreases value, 0
  {
    hide Within, BeneathReported;
    match value {
      case Dict(ps) => NewReports(small, large, ps, path, e);
      case List(items) => NewInItems(small, large, items, path, e);
    }
  }

  lemma {:induction false} NewInItems(small: seq<string>, large: seq<string>, items: seq<Node>, path: string, e: string)
    requires Within(small, large) && e in WalkItems(large, items, path)
    ensures var was := WalkItems(small, items, path);
      e in was || BeneathReported(small, large, InItems(items, path), was, e)
    decreases items
  {
    hide Within, BeneathReported;
    var i, item, was := |items| - 1, items[|items| - 1], WalkItems(small, items, path);
    var all := InItems(items, path);
    if e in WalkItems(large, items[..i], path) {
      NewInItems(small, large, items[..i], path, e);
      if e !in was {
        MoreBeneath(small, large, InItems(items[..i], path), WalkItems(small, items[..i], path), e, all, was);
      }
    } else {
      var at := ItemPath(path, i);
      NewReports(small, large, item.entries, at, e);
      if e !in was {
        MoreBeneath(small, large, Properties(item.entries, at), Walk(small, item.entries, at), e, all, was);
      }
    }
  }

  /** Allowing more can lead to more errors, as long as there are some. */
  lemma CountIsNotMonotone()
    ensures var manifest := Dict([Property("a", Dict([Property("b", Scalar), Property("c", Scalar)]))]);
      |WalkBelowTop(manifest, [])| == 1 && |WalkBelowTop(manifest, ["a.d"])| == 2
  {
    var b, c := Property("b", Scalar), Property("c", Scalar);
    var value := Dict([b, c]);
    var manifest := Dict([Property("a", value)]);
    OneProperty([], "a", value);
    OneProperty(["a.d"], "a", value);
    assert WalkProperty([], value, "a") == ["a"];
    assert HasAllowedBelow(["a.d"], "a") by { assert "a." <= "a.d" && "a.d" in ["a.d"]; }
    assert !Covered(["a.d"], "a");
    assert [b, c][..1] == [b] && [b][..0] == [];
    assert !Covered(["a.d"], "a.b") && !Covered(["a.d"], "a.c");
    assert PathOf("a", "b") == "a.b" && PathOf("a", "c") == "a.c";
    assert Walk(["a.d"], [b], "a") == ["a.b"];
    assert Walk(["a.d"], [b, c], "a") == ["a.b", "a.c"];
  }

  lemma OneProperty(allowed: seq<string>, key: string, value: Node)
    ensures Walk(allowed, [Property(key, value)], "") == WalkProperty(allowed, value, key)
  {
    assert [Property(key, value)][..0] == [];
  }

  /** A property of a list's element is covered iff something above the list is allowed, or something about that
      element: never by allowing the list. */
  lemma ElementCovered(allowed: seq<string>, path: string, i: nat, key: string)
    ensures var at := PathOf(ItemPath(path, i), key);
      Covered(allowed, at) <==>
      || (exists a <- allowed :: StartsWith(path, a + "."))
      || (exists a <- allowed :: StartsWith(a, path + "[") && (a == at || StartsWith(at, a + ".")))
  {
    var at := PathOf(ItemPath(path, i), key);
    assert at == path + ("[" + Digits(i) + "]." + key);
    assert at[|path|] == '[' && at[..|path|] == path && at[..|path| + 1] == path + "[";
    if at in allowed { assert StartsWith(at, path + "["); }
    forall a | a in allowed && StartsWith(at, a + ".") ensures StartsWith(path, a + ".") || StartsWith(a, path + "[") {
      assert at[|a|] == (a + ".")[|a|] == '.';
      if |a| < |path| { assert at[..|a| + 1] == path[..|a| + 1]; } else { assert at[..|a|] == a; }
    }
    forall a | a in allowed && StartsWith(path, a + ".") ensures StartsWith(at, a + ".") {
      assert at[..|a| + 1] == path[..|a| + 1];
    }
  }

  /** Allowing a list does not allow what its elements hold. */
  lemma ListElementsAreNotCovered()
    ensures WalkBelowTop(Dict([Property("a", List([Dict([Property("b", Scalar)])]))]), ["a"]) == ["a[0].b"]
  {
    var item := Dict([Property("b", Scalar)]);
    OneProperty(["a"], "a", List([item]));
    assert Covered(["a"], "a");
    assert [item][..0] == [] && item.entries[..0] == [];
    assert Digits(0) == "0";
    assert ItemPath("a", 0) == "a[0]" && PathOf("a[0]", "b") == "a[0].b";
    assert ("a" + ".")[1] == '.' && "a[0].b"[1] == '[';
    assert !Covered(["a"], "a[0].b");
    assert Walk(["a"], item.entries, "a[0]") == ["a[0].b"];
  }
}
