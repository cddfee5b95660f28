/** The property allowlist without its path strings: which properties a manifest has and where, and what covers what,
    in terms of keys and indices. */
module PropertyPaths {
  import opened Strings
  import opened PropertyAllowlist

  // ---- paths of keys ----

  /** Keys that can be told apart in a path. */
  predicate Plain(keys: seq<string>) {
    forall k <- keys :: k != "" && '.' !in k
  }

  lemma PlainRest(keys: seq<string>)
    requires keys != [] && Plain(keys)
    ensures Plain(keys[1..])
  {
    forall k | k in keys[1..] ensures k in keys {}
  }

  function Dotted(keys: seq<string>): string
    requires keys != []
  {
    if |keys| == 1 then keys[0] else keys[0] + "." + Dotted(keys[1..])
  }

  lemma FirstDot(k: string, s: string)
    requires '.' !in k && k + "." <= s
    ensures Find(s, '.') == |k| && s[..|k|] == k && '.' in s
  {
    assert s[|k|] == '.' && s[..|k|] == k;
    FindIs(s, |k|, '.');
  }

  lemma DotAt(k: string, rest: string, x: string, s: string)
    requires '.' !in k && '.' !in x && (s == x || x + "." <= s)
    ensures k + "." + rest <= s <==> k == x && s != x && k + "." + rest <= s
    ensures k + "." <= s ==> k == x && s != x
  {
    if k + "." <= s {
      FirstDot(k, s);
      if x + "." <= s { FirstDot(x, s); }
    }
    assert k + "." <= k + "." + rest;
  }

  lemma DottedStarts(keys: seq<string>)
    requires keys != []
    ensures if |keys| == 1 then Dotted(keys) == keys[0] else keys[0] + "." <= Dotted(keys)
  {}

  lemma After(k: string, a: string, b: string)
    ensures k + "." + a <= k + "." + b <==> a <= b
    ensures k + "." + a == k + "." + b <==> a == b
  {
    var s, t := k + "." + a, k + "." + b;
    assert s[|k| + 1..] == a && t[|k| + 1..] == b;
    if a <= b { assert t == s + b[|a|..]; }
    if s <= t { assert b[..|a|] == t[|k| + 1..|k| + 1 + |a|] == s[|k| + 1..] == a; }
  }

  /** A path with a dot behind it begins another iff its keys begin the other's and are not all of them. */
  lemma {:induction false} BeginsIff(a: seq<string>, b: seq<string>)
    requires a != [] && b != [] && Plain(a) && Plain(b)
    ensures StartsWith(Dotted(b), Dotted(a) + ".") <==> a <= b && a != b
  {
    DottedStarts(b);
    if |a| == 1 {
      DotAt(a[0], "", b[0], Dotted(b));
      assert Dotted(a) + "." == a[0] + ".";
      assert a <= b && a != b <==> a[0] == b[0] && |b| > 1;
    } else {
      var rest := Dotted(a[1..]) + ".";
      assert Dotted(a) + "." == a[0] + "." + rest;
      DotAt(a[0], rest, b[0], Dotted(b));
      if |b| > 1 {
        PlainRest(a);
        PlainRest(b);
        BeginsIff(a[1..], b[1..]);
        After(a[0], rest, Dotted(b[1..]));
        if a[0] == b[0] { FirstAndRest(a, b); }
      }
    }
  }

  lemma FirstAndRest(a: seq<string>, b: seq<string>)
    requires a != [] && b != [] && a[0] == b[0]
    ensures (a <= b <==> a[1..] <= b[1..]) && (a == b <==> a[1..] == b[1..])
  {
    assert a == [a[0]] + a[1..] && b == [b[0]] + b[1..];
  }

  lemma {:induction false} SameIff(a: seq<string>, b: seq<string>)
    requires a != [] && b != [] && Plain(a) && Plain(b)
    ensures Dotted(a) == Dotted(b) <==> a == b
  {
    DottedStarts(a);
    DottedStarts(b);
    DotAt(a[0], "", b[0], Dotted(b));
    DotAt(b[0], "", a[0], Dotted(a));
    if |a| > 1 && |b| > 1 && a[0] == b[0] {
      PlainRest(a);
      PlainRest(b);
      SameIff(a[1..], b[1..]);
      After(a[0], Dotted(a[1..]), Dotted(b[1..]));
      FirstAndRest(a, b);
    }
  }

  predicate Usable(allowed: seq<seq<string>>) {
    forall i :: 0 <= i < |allowed| ==> allowed[i] != [] && Plain(allowed[i])
  }

  function Paths(allowed: seq<seq<string>>): (ps: seq<string>)
    requires Usable(allowed)
    ensures |ps| == |allowed| && forall i :: 0 <= i < |ps| ==> ps[i] == Dotted(allowed[i])
  {
    seq(|allowed|, i requires 0 <= i < |allowed| => Dotted(allowed[i]))
  }

  /** A property is covered iff it or something that it is in is allowed. */
  lemma CoveredIff(allowed: seq<seq<string>>, at: seq<string>)
    requires Usable(allowed) && at != [] && Plain(at)
    ensures Covered(Paths(allowed), Dotted(at)) <==> exists a <- allowed :: a <= at
  {
    var ps, path := Paths(allowed), Dotted(at);
    hide Dotted, StartsWith, Plain;
    forall i | 0 <= i < |ps|
      ensures ps[i] == path || StartsWith(path, ps[i] + ".") <==> allowed[i] <= at
    {
      BeginsIff(allowed[i], at);
      SameIff(allowed[i], at);
    }
    if a :| a in allowed && a <= at {
      var i :| 0 <= i < |allowed| && allowed[i] == a;
      assert ps[i] in ps;
    }
    if p :| p in ps && (p == path || StartsWith(path, p + ".")) {
      var i :| 0 <= i < |ps| && ps[i] == p;
      assert allowed[i] in allowed;
    }
  }

  /** A dictionary has something allowed in it iff its keys begin those of something allowed. */
  lemma BelowIff(allowed: seq<seq<string>>, at: seq<string>)
    requires Usable(allowed) && at != [] && Plain(at)
    ensures HasAllowedBelow(Paths(allowed), Dotted(at)) <==> exists a <- allowed :: at <= a && at != a
  {
    var ps, path := Paths(allowed), Dotted(at);
    hide Dotted, StartsWith, Plain;
    forall i | 0 <= i < |ps| ensures StartsWith(ps[i], path + ".") <==> at <= allowed[i] && at != allowed[i] {
      BeginsIff(at, allowed[i]);
    }
    if a :| a in allowed && at <= a && at != a {
      var i :| 0 <= i < |allowed| && allowed[i] == a;
      assert ps[i] in ps;
    }
    if p :| p in ps && StartsWith(p, path + ".") {
      var i :| 0 <= i < |ps| && ps[i] == p;
      assert allowed[i] in allowed;
    }
  }

  lemma {:induction false} DottedSnoc(keys: seq<string>, key: string)
    requires keys != [] && keys[0] != ""
    ensures Dotted(keys + [key]) == PathOf(Dotted(keys), key)
  {
    if |keys| == 1 {
      assert (keys + [key])[1..] == [key];
    } else {
      assert (keys + [key])[1..] == keys[1..] + [key];
      assert Dotted(keys) == keys[0] + "." + Dotted(keys[1..]);
      DottedMore(keys[1..], key);
      assert keys[0] + "." + (Dotted(keys[1..]) + "." + key) == keys[0] + "." + Dotted(keys[1..]) + "." + key;
    }
  }

  lemma {:induction false} DottedMore(keys: seq<string>, key: string)
    requires keys != []
    ensures Dotted(keys + [key]) == Dotted(keys) + "." + key
  {
    if |keys| == 1 {
      assert (keys + [key])[1..] == [key];
    } else {
      assert (keys + [key])[1..] == keys[1..] + [key];
      DottedMore(keys[1..], key);
      assert keys[0] + "." + (Dotted(keys[1..]) + "." + key) == keys[0] + "." + Dotted(keys[1..]) + "." + key;
    }
  }

  // ---- where a property is ----

  datatype Step = Key(key: string) | Index(i: nat)

  /** The path of an address below `prefix`. */
  function Rendered(prefix: string, address: seq<Step>): string
    decreases |address|
  {
    if address == [] then prefix
    else
      match address[0]
      case Key(key) => Rendered(if prefix == "" then key else prefix + "." + key, address[1..])
      case Index(i) => Rendered(prefix + "[" + Digits(i) + "]", address[1..])
  }

  /** `value` is the property at this address: by key in a dictionary, by index in a list of dictionaries. */
  ghost predicate IsAt(ps: seq<Property>, address: seq<Step>, value: Node)
    decreases |address|, 1
  {
    && address != [] && address[0].Key?
    && exists k :: 0 <= k < |ps| && IsFrom(ps[k], address, value)
  }

  ghost predicate IsFrom(p: Property, address: seq<Step>, value: Node)
    requires address != []
    decreases |address|, 0
  {
    && address[0] == Key(p.key)
    && if |address| == 1 then p.value == value else IsWithin(p.value, address[1..], value)
  }

  ghost predicate IsWithin(node: Node, address: seq<Step>, value: Node)
    requires address != []
    decreases |address|, 2
  {
    match node
    case Scalar => false
    case Dict(ps) => IsAt(ps, address, value)
    case List(items) =>
      && address[0].Index? && address[0].i < |items| && items[address[0].i].Dict? && |address| > 1
      && IsAt(items[address[0].i].entries, address[1..], value)
  }

  lemma {:induction false} PartOf(ps: seq<Property>, k: nat, prefix: string)
    requires k < |ps|
    ensures var path := PathOf(prefix, ps[k].key);
      (path, ps[k].value) in Properties(ps, prefix) && Below(ps[k].value, path) <= Properties(ps, prefix)
  {
    hide PathOf, Below;
    if k < |ps| - 1 { PartOf(ps[..|ps| - 1], k, prefix); }
  }

  lemma {:induction false} PartOfItems(items: seq<Node>, i: nat, path: string)
    requires i < |items| && items[i].Dict?
    ensures Properties(items[i].entries, ItemPath(path, i)) <= InItems(items, path)
  {
    hide Properties, ItemPath;
    if i < |items| - 1 { PartOfItems(items[..|items| - 1], i, path); }
  }

  lemma {:induction false} HasProperty(ps: seq<Property>, prefix: string, address: seq<Step>, value: Node)
    requires IsAt(ps, address, value)
    ensures (Rendered(prefix, address), value) in Properties(ps, prefix)
    decreases |address|, 0
  {
    var k :| 0 <= k < |ps| && IsFrom(ps[k], address, value);
    var path := PathOf(prefix, ps[k].key);
    PartOf(ps, k, prefix);
    hide Properties;
    assert Rendered(prefix, address) == Rendered(path, address[1..]);
    if |address| == 1 {
      assert Rendered(path, []) == path;
    } else {
      HasBelow(ps[k].value, path, address[1..], value);
    }
  }

  lemma {:induction false} HasBelow(node: Node, path: string, address: seq<Step>, value: Node)
    requires address != [] && IsWithin(node, address, value)
    ensures (Rendered(path, address), value) in Below(node, path)
    decreases |address|, 1
  {
    hide Properties, InItems;
    match node {
      case Dict(ps) => HasProperty(ps, path, address, value);
      case List(items) =>
        var i := address[0].i;
        HasProperty(items[i].entries, ItemPath(path, i), address[1..], value);
        PartOfItems(items, i, path);
        assert Rendered(path, address) == Rendered(ItemPath(path, i), address[1..]);
    }
  }

  ghost predicate Addressed(ps: seq<Property>, prefix: string, path: string, value: Node) {
    exists address :: IsAt(ps, address, value) && Rendered(prefix, address) == path
  }

  lemma AddressedMore(ps: seq<Property>, p: Property, prefix: string, path: string, value: Node)
    requires Addressed(ps, prefix, path, value)
    ensures Addressed(ps + [p], prefix, path, value)
  {
    hide Rendered, IsFrom;
    var address :| IsAt(ps, address, value) && Rendered(prefix, address) == path;
    var k :| 0 <= k < |ps| && IsFrom(ps[k], address, value);
    assert IsFrom((ps + [p])[k], address, value);
    assert IsAt(ps + [p], address, value);
  }

  lemma {:induction false} GetAddress(ps: seq<Property>, prefix: string, path: string, value: Node)
    requires (path, value) in Properties(ps, prefix)
    ensures Addressed(ps, prefix, path, value)
    decreases ps
  {
    var before, p := ps[..|ps| - 1], ps[|ps| - 1];
    var at := PathOf(prefix, p.key);
    hide Addressed;
    if (path, value) in Properties(before, prefix) {
      GetAddress(before, prefix, path, value);
      AddressedMore(before, p, prefix, path, value);
      assert before + [p] == ps;
    } else if (path, value) in Below(p.value, at) {
      var rest := GetBelow(p.value, at, path, value);
      LastAddress(ps, prefix, [Key(p.key)] + rest, path, value);
    } else {
      LastAddress(ps, prefix, [Key(p.key)], path, value);
    }
  }

  lemma LastAddress(ps: seq<Property>, prefix: string, address: seq<Step>, path: string, value: Node)
    requires ps != [] && address != [] && address[0] == Key(ps[|ps| - 1].key)
    requires Rendered(PathOf(prefix, ps[|ps| - 1].key), address[1..]) == path
    requires if |address| == 1 then ps[|ps| - 1].value == value else IsWithin(ps[|ps| - 1].value, address[1..], value)
    ensures Addressed(ps, prefix, path, value)
  {
    hide IsWithin;
    assert IsFrom(ps[|ps| - 1], address, value);
    assert IsAt(ps, address, value) && Rendered(prefix, address) == path;
  }

  lemma {:induction false} GetBelow(node: Node, at: string, path: string, value: Node) returns (address: seq<Step>)
    requires (path, value) in Below(node, at)
    ensures address != [] && IsWithin(node, address, value) && Rendered(at, address) == path
    decreases node, 0
  {
    hide Properties, InItems;
    match node {
      case Dict(ps) =>
        GetAddress(ps, at, path, value);
        address :| IsAt(ps, address, value) && Rendered(at, address) == path;
      case List(items) =>
        address := GetInItems(items, at, path, value);
    }
  }

  lemma {:induction false} GetInItems(items: seq<Node>, at: string, path: string, value: Node)
      returns (address: seq<Step>)
    requires (path, value) in InItems(items, at)
    ensures address != [] && IsWithin(List(items), address, value) && Rendered(at, address) == path
    decreases items
  {
    hide Properties, IsAt;
    var i, item := |items| - 1, items[|items| - 1];
    if (path, value) in InItems(items[..i], at) {
      address := GetInItems(items[..i], at, path, value);
    } else {
      GetAddress(item.entries, ItemPath(at, i), path, value);
      var rest :| IsAt(item.entries, rest, value) && Rendered(ItemPath(at, i), rest) == path;
      NotEmpty(item.entries, rest, value);
      address := [Index(i)] + rest;
      assert address[1..] == rest;
    }
  }

  lemma NotEmpty(ps: seq<Property>, address: seq<Step>, value: Node)
    requires IsAt(ps, address, value)
    ensures address != []
  {}

  /** The properties that are checked are just those that can be reached by keys and indices, each with the path of
      its address. */
  lemma PropertiesAre(ps: seq<Property>, prefix: string, path: string, value: Node)
    ensures (path, value) in Properties(ps, prefix) <==>
      exists address :: IsAt(ps, address, value) && Rendered(prefix, address) == path
  {
    hide Properties, IsAt, Rendered;
    if (path, value) in Properties(ps, prefix) { GetAddress(ps, prefix, path, value); }
    if address :| IsAt(ps, address, value) && Rendered(prefix, address) == path {
      HasProperty(ps, prefix, address, value);
    }
  }
}
