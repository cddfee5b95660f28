/** The dependency graph of a software bill of materials: `SBOM.from_pkgs`. */
module Sbom {
  import opened Strings

  /** A package as the depsolver gives it; `evr` is epoch, version and release. */
  datatype Input = Input(checksum: string, name: string, evr: string, needs: seq<string>, offers: seq<string>)

  datatype Package = Package(checksum: string, name: string, version: string, needs: seq<string>, offers: seq<string>)

  datatype Relation = Relation(source: string, target: string)

  // ---- identifiers ----

  function RemovePrefix(s: string, prefix: string): string {
    if prefix <= s then s[|prefix|..] else s
  }

  function Id(p: Package): string {
    "SPDXRef-Package-rpm-" + p.name + "-" + RemovePrefix(p.checksum, "sha256:")
  }

  /** The identifier ends in the digest without its `sha256:`, behind the name. */
  lemma IdIs(p: Package, digest: string)
    requires p.checksum == "sha256:" + digest || (p.checksum == digest && !("sha256:" <= digest))
    ensures Id(p) == "SPDXRef-Package-rpm-" + p.name + "-" + digest
  {
    if p.checksum == "sha256:" + digest { assert p.checksum[|"sha256:"|..] == digest; }
  }

  /** `evr.split(":")[1]` where there is a colon. */
  function VersionOf(evr: string): string {
    var i := Find(evr, ':');
    if i == |evr| then evr else evr[i + 1..][..Find(evr[i + 1..], ':')]
  }

  /** What is left of `evr` without its epoch: all of it where there is no colon, and else what stands between
      the first colon and the second, if there is one. */
  ghost predicate IsVersion(evr: string, v: string) {
    if ':' !in evr then v == evr
    else exists e: string, rest: string :: Cuts(evr, e, v, rest)
  }

  predicate Cuts(evr: string, e: string, v: string, rest: string) {
    ':' !in e && ':' !in v && evr == e + ":" + v + rest && (rest == "" || rest[0] == ':')
  }

  lemma VersionIs(evr: string)
    ensures IsVersion(evr, VersionOf(evr))
  {
    hide Cuts;
    var i := Find(evr, ':');
    if i < |evr| {
      var b := evr[i + 1..];
      CutsAt(evr, i, Find(b, ':'));
    }
  }

  lemma CutsAt(evr: string, i: nat, j: nat)
    requires i < |evr| && evr[i] == ':' && ':' !in evr[..i]
    requires i + 1 + j <= |evr| && ':' !in evr[i + 1..][..j] && (i + 1 + j < |evr| ==> evr[i + 1 + j] == ':')
    ensures var b := evr[i + 1..]; Cuts(evr, evr[..i], b[..j], b[j..])
  {
    var b := evr[i + 1..];
    assert evr == evr[..i] + ":" + b[..j] + b[j..];
  }

  /** There is one such version. */
  lemma VersionUnique(evr: string, v: string, w: string)
    requires IsVersion(evr, v) && IsVersion(evr, w)
    ensures v == w
  {
    if ':' in evr {
      var e, rest :| Cuts(evr, e, v, rest);
      var f, more :| Cuts(evr, f, w, more);
      CutAtColon(e, v, rest);
      CutAtColon(f, w, more);
    }
  }

  lemma CutAtColon(e: string, v: string, rest: string)
    requires Cuts(e + ":" + v + rest, e, v, rest)
    ensures VersionOf(e + ":" + v + rest) == v
  {
    var evr := e + ":" + v + rest;
    FindIs(evr, |e|, ':');
    var b := evr[|e| + 1..];
    assert b == v + rest;
    if rest != "" {
      FindIs(b, |v|, ':');
    } else {
      assert Find(b, ':') == |b|;
    }
    assert b[..|v|] == v;
  }

  function Dashed(s: string): (r: string)
    ensures |r| == |s|
  {
    seq(|s|, i requires 0 <= i < |s| => if s[i] == '/' then '-' else s[i])
  }

  function Emitted(p: Input): Package {
    Package(p.checksum, p.name, VersionOf(p.evr), p.needs, p.offers)
  }

  /** The package is the input, with its epoch removed. */
  ghost predicate IsPackage(p: Package, input: Input) {
    && p.checksum == input.checksum && p.name == input.name && IsVersion(input.evr, p.version)
    && p.needs == input.needs && p.offers == input.offers
  }

  /** The first packages are the inputs, one by one. */
  ghost predicate AreInputs(packages: seq<Package>, inputs: seq<Input>) {
    |packages| >= |inputs| && forall i :: 0 <= i < |inputs| ==> IsPackage(packages[i], inputs[i])
  }

  lemma EmittedAre(inputs: seq<Input>)
    ensures AreInputs(Emit(inputs), inputs)
  {
    hide VersionOf, IsVersion;
    forall i | 0 <= i < |inputs| ensures IsPackage(Emit(inputs)[i], inputs[i]) { VersionIs(inputs[i].evr); }
  }

  /** What stands for a requirement that nothing provides. */
  function Placeholder(r: string, sha: string -> string): Package {
    Package(sha(r), Dashed(r), "NOASSERTION", [], [r])
  }

  lemma PlaceholderIs(r: string, sha: string -> string)
    ensures var p := Placeholder(r, sha);
      && p.checksum == sha(r) && p.version == "NOASSERTION" && p.needs == []
      && |p.name| == |r| && forall i :: 0 <= i < |r| ==> p.name[i] == if r[i] == '/' then '-' else r[i]
  {}

  // ---- who provides what ----

  function Provide(m: map<string, string>, names: seq<string>, id: string): map<string, string> {
    if names == [] then m else Provide(m, names[..|names| - 1], id)[names[|names| - 1] := id]
  }

  function Providers(ps: seq<Package>): map<string, string> {
    if ps == [] then map[]
    else Provide(Providers(ps[..|ps| - 1]), ps[|ps| - 1].offers, Id(ps[|ps| - 1]))
  }

  lemma {:induction false} ProvideIs(m: map<string, string>, names: seq<string>, id: string, r: string)
    ensures r in Provide(m, names, id) <==> r in m || r in names
    ensures r in Provide(m, names, id) ==> Provide(m, names, id)[r] == if r in names then id else m[r]
  {
    if names != [] {
      ProvideIs(m, names[..|names| - 1], id, r);
      assert names == names[..|names| - 1] + [names[|names| - 1]];
    }
  }

  /** Package `k` is the last that provides `r`. */
  ghost predicate LastProvider(ps: seq<Package>, r: string, k: nat) {
    k < |ps| && r in ps[k].offers && forall j :: k < j < |ps| ==> r !in ps[j].offers
  }

  /** A requirement is found iff some package provides it, and of several the last counts. */
  lemma {:induction false} ProvidersIs(ps: seq<Package>, r: string) returns (k: nat)
    ensures r in Providers(ps) <==> exists p <- ps :: r in p.offers
    ensures r in Providers(ps) ==> LastProvider(ps, r, k) && Providers(ps)[r] == Id(ps[k])
  {
    k := 0;
    if ps != [] {
      var before, last := ps[..|ps| - 1], ps[|ps| - 1];
      ProvideIs(Providers(before), last.offers, Id(last), r);
      k := ProvidersIs(before, r);
      assert ps == before + [last];
      if r in last.offers { k := |before|; }
    }
  }

  // ---- what is missing, and what depends on what ----

  /** The requirements that nothing provides, each once, in the order they are met. */
  function Missing(m: map<string, string>, rs: seq<string>): seq<string> {
    if rs == [] then []
    else
      var before, r := Missing(m, rs[..|rs| - 1]), rs[|rs| - 1];
      if r in m || r in before then before else before + [r]
  }

  lemma {:induction false} MissingIs(m: map<string, string>, rs: seq<string>)
    ensures forall r :: r in Missing(m, rs) <==> r in rs && r !in m
    ensures forall i, j :: 0 <= i < j < |Missing(m, rs)| ==> Missing(m, rs)[i] != Missing(m, rs)[j]
  {
    if rs != [] {
      MissingIs(m, rs[..|rs| - 1]);
      assert rs == rs[..|rs| - 1] + [rs[|rs| - 1]];
    }
  }

  function AllRequires(ps: seq<Package>): seq<string> {
    if ps == [] then [] else AllRequires(ps[..|ps| - 1]) + ps[|ps| - 1].needs
  }

  lemma {:induction false} AllRequiresIs(ps: seq<Package>)
    ensures forall r :: r in AllRequires(ps) <==> exists p <- ps :: r in p.needs
  {
    if ps != [] {
      AllRequiresIs(ps[..|ps| - 1]);
      assert ps == ps[..|ps| - 1] + [ps[|ps| - 1]];
    }
  }

  function Placeholders(rs: seq<string>, sha: string -> string): (ps: seq<Package>)
    ensures |ps| == |rs|
  {
    seq(|rs|, i requires 0 <= i < |rs| => Placeholder(rs[i], sha))
  }

  /** The identifier a requirement resolves to. */
  function Target(m: map<string, string>, sha: string -> string, r: string): string {
    if r in m then m[r] else Id(Placeholder(r, sha))
  }

  function Targets(m: map<string, string>, sha: string -> string, rs: seq<string>): set<string> {
    set r | r in rs :: Target(m, sha, r)
  }

  /** The packages as they come, before any placeholder. */
  function Emit(inputs: seq<Input>): (ps: seq<Package>)
    ensures |ps| == |inputs| && forall i :: 0 <= i < |inputs| ==> ps[i] == Emitted(inputs[i])
  {
    seq(|inputs|, i requires 0 <= i < |inputs| => Emitted(inputs[i]))
  }

  // ---- the loops ----

  /** The inner loop: one package's provides. */
  method ProvideAll(m: map<string, string>, names: seq<string>, id: string) returns (provided: map<string, string>)
    ensures provided == Provide(m, names, id)
  {
    provided := m;
    for k := 0 to |names|
      invariant provided == Provide(m, names[..k], id)
    {
      provided := provided[names[k] := id];
      assert names[..k + 1][..k] == names[..k];
    }
    assert names[..|names|] == names;
  }

  method Collect(inputs: seq<Input>) returns (packages: seq<Package>, provided: map<string, string>)
    ensures packages == Emit(inputs) && provided == Providers(packages)
    ensures |packages| == |inputs| && AreInputs(packages, inputs)
  {
    EmittedAre(inputs);
    hide Provide, Emitted, Id, IsPackage;
    packages, provided := [], map[];
    for i := 0 to |inputs|
      invariant |packages| == i && forall j :: 0 <= j < i ==> packages[j] == Emitted(inputs[j])
      invariant provided == Providers(packages)
    {
      var pkg := Emitted(inputs[i]);
      provided := ProvideAll(provided, pkg.offers, Id(pkg));
      assert (packages + [pkg])[..|packages|] == packages;
      packages := packages + [pkg];
    }
  }

  lemma MissingSnoc(m: map<string, string>, rs: seq<string>, r: string)
    ensures Missing(m, rs + [r]) == if r in m || r in Missing(m, rs) then Missing(m, rs) else Missing(m, rs) + [r]
  {
    assert (rs + [r])[..|rs|] == rs;
  }

  lemma PlaceholdersSnoc(rs: seq<string>, r: string, sha: string -> string)
    ensures Placeholders(rs + [r], sha) == Placeholders(rs, sha) + [Placeholder(r, sha)]
  {}

  /** What the placeholders made so far are for. */
  ghost predicate Known(unknown: map<string, Package>, missing: seq<string>, sha: string -> string) {
    && (forall r :: r in unknown <==> r in missing)
    && (forall r :: r in unknown ==> unknown[r] == Placeholder(r, sha))
  }

  /** One package's requirements: finds their targets, appending a placeholder for each that nothing
      provides and that has none yet. */
  method Resolve(needs: seq<string>, provided: map<string, string>, sha: string -> string, ghost base: seq<Package>,
                 ghost before: seq<string>,
      emitted: seq<Package>, known: map<string, Package>)
    returns (deps: set<string>, packages: seq<Package>, unknown: map<string, Package>)
    requires emitted == base + Placeholders(Missing(provided, before), sha)
    requires Known(known, Missing(provided, before), sha)
    ensures packages == base + Placeholders(Missing(provided, before + needs), sha)
    ensures Known(unknown, Missing(provided, before + needs), sha)
    ensures deps == Targets(provided, sha, needs)
  {
    hide Missing, Placeholders, Placeholder, Id;
    deps, packages, unknown := {}, emitted, known;
    assert before + needs[..0] == before;
    for j := 0 to |needs|
      invariant packages == base + Placeholders(Missing(provided, before + needs[..j]), sha)
      invariant Known(unknown, Missing(provided, before + needs[..j]), sha)
      invariant deps == Targets(provided, sha, needs[..j])
    {
      var r := needs[j];
      assert before + needs[..j + 1] == before + needs[..j] + [r];
      MissingSnoc(provided, before + needs[..j], r);
      PlaceholdersSnoc(Missing(provided, before + needs[..j]), r, sha);
      TargetsSnoc(provided, sha, needs[..j], r);
      assert needs[..j + 1] == needs[..j] + [r];
      if r in provided {
        deps := deps + {provided[r]};
      } else {
        if r !in unknown {
          var p := Placeholder(r, sha);
          unknown := unknown[r := p];
          packages := packages + [p];
        }
        deps := deps + {Id(unknown[r])};
      }
    }
    assert needs[..|needs|] == needs;
  }

  lemma TargetsSnoc(m: map<string, string>, sha: string -> string, rs: seq<string>, r: string)
    ensures Targets(m, sha, rs + [r]) == Targets(m, sha, rs) + {Target(m, sha, r)}
  {
    hide Target;
  }

  /** The relations of one package: one for each of its targets, in any order. */
  ghost predicate RelatesTo(rs: seq<Relation>, source: string, deps: set<string>) {
    && (forall i :: 0 <= i < |rs| ==> rs[i].source == source && rs[i].target in deps)
    && (forall i, j :: 0 <= i < j < |rs| ==> rs[i].target != rs[j].target)
    && (forall d :: d in deps ==> exists i :: 0 <= i < |rs| && rs[i].target == d)
  }

  method Relate(source: string, deps: set<string>) returns (rs: seq<Relation>)
    ensures RelatesTo(rs, source, deps)
  {
    rs := [];
    var left := deps;
    while left != {}
      invariant left <= deps && RelatesTo(rs, source, deps - left)
      decreases |left|
    {
      var d :| d in left;
      ghost var was, todo := rs, left;
      rs := rs + [Relation(source, d)];
      left := left - {d};
      forall t | t in deps - left ensures exists i :: 0 <= i < |rs| && rs[i].target == t {
        if t == d {
          assert rs[|was|].target == t;
        } else {
          assert t in deps - todo;
          var i :| 0 <= i < |was| && was[i].target == t;
          assert rs[i].target == t;
        }
      }
    }
    assert deps - {} == deps;
  }

  function Flatten(blocks: seq<seq<Relation>>): seq<Relation> {
    if blocks == [] then [] else Flatten(blocks[..|blocks| - 1]) + blocks[|blocks| - 1]
  }

  /** The relations, package by package. */
  ghost predicate Graph(packages: seq<Package>, blocks: seq<seq<Relation>>, m: map<string, string>,
                        sha: string -> string) {
    && |blocks| == |packages|
    && forall k :: 0 <= k < |blocks| ==> RelatesTo(blocks[k], Id(packages[k]), Targets(m, sha, packages[k].needs))
  }

  lemma GraphSnoc(packages: seq<Package>, blocks: seq<seq<Relation>>, m: map<string, string>, sha: string -> string,
                  p: Package, rs: seq<Relation>)
    requires Graph(packages, blocks, m, sha) && RelatesTo(rs, Id(p), Targets(m, sha, p.needs)) == true
    ensures Graph(packages + [p], blocks + [rs], m, sha) == true && Flatten(blocks + [rs]) == Flatten(blocks) + rs
  {
    hide RelatesTo, Targets, Id;
    assert (blocks + [rs])[..|blocks|] == blocks;
  }

  /** The relations of a document, one group after another, one group for each package. */
  ghost predicate Relates(relations: seq<Relation>, packages: seq<Package>, m: map<string, string>,
                          sha: string -> string) {
    exists blocks :: relations == Flatten(blocks) && Graph(packages, blocks, m, sha)
  }

  method FromPkgs(inputs: seq<Input>, sha: string -> string) returns (packages: seq<Package>, relations: seq<Relation>)
    ensures var base := Emit(inputs);
      && packages == base + Placeholders(Missing(Providers(base), AllRequires(base)), sha)
      && Relates(relations, packages, Providers(base), sha) == true
    ensures AreInputs(packages, inputs)
  {
    hide IsPackage, AreInputs, Missing, Providers, Graph, Targets, RelatesTo, Id, Emitted, Known, Flatten;
    var provided;
    packages, provided := Collect(inputs);
    ghost var base, blocks: seq<seq<Relation>> := packages, [];
    relations := [];
    NothingYet(base, provided, sha);
    var unknown: map<string, Package> := map[];
    ghost var before: seq<string> := [];
    var k := 0;
    while k < |packages|
      invariant 0 <= k <= |packages|
      invariant packages == base + Placeholders(Missing(provided, before), sha)
      invariant Known(unknown, Missing(provided, before), sha) == true
      invariant before == AllRequires(base[..if k < |base| then k else |base|])
      invariant relations == Flatten(blocks) && Graph(packages[..k], blocks, provided, sha) == true
      decreases if k < |base| then |base| - k else 0, |packages| - k
    {
      var pkg, deps := packages[k], {};
      ghost var was := packages;
      deps, packages, unknown := Resolve(pkg.needs, provided, sha, base, before, packages, unknown);
      if k < |base| {
        assert base[..k + 1][..k] == base[..k];
      } else {
        assert before + pkg.needs == before;
      }
      MissingGrows(provided, before, pkg.needs, sha);
      before := before + pkg.needs;
      assert packages[..k + 1] == was[..k] + [pkg];
      var rs := Relate(Id(pkg), deps);
      GraphSnoc(was[..k], blocks, provided, sha, pkg, rs);
      relations, blocks := relations + rs, blocks + [rs];
      k := k + 1;
    }
    assert base[..|base|] == base && packages[..|packages|] == packages;
    assert Graph(packages, blocks, provided, sha);
    StillInputs(base, packages, inputs);
  }

  lemma StillInputs(base: seq<Package>, packages: seq<Package>, inputs: seq<Input>)
    requires AreInputs(base, inputs) && base <= packages
    ensures AreInputs(packages, inputs)
  {
    hide IsPackage;
  }

  lemma NothingYet(base: seq<Package>, m: map<string, string>, sha: string -> string)
    ensures base == base + Placeholders(Missing(m, []), sha) && Known(map[], Missing(m, []), sha) == true
    ensures Graph(base[..0], [], m, sha) == true && AllRequires(base[..0]) == [] && Flatten([]) == []
  {}

  lemma {:induction false} MissingGrows(m: map<string, string>, rs: seq<string>, more: seq<string>,
                                        sha: string -> string)
    ensures Missing(m, rs) <= Missing(m, rs + more)
    ensures Placeholders(Missing(m, rs), sha) <= Placeholders(Missing(m, rs + more), sha)
  {
    if more == [] {
      assert rs + more == rs;
    } else {
      MissingGrows(m, rs, more[..|more| - 1], sha);
      assert rs + more == rs + more[..|more| - 1] + [more[|more| - 1]];
      MissingSnoc(m, rs + more[..|more| - 1], more[|more| - 1]);
    }
  }

  // ---- what the document says ----

  ghost predicate IsEmitted(packages: seq<Package>, id: string) {
    exists k :: 0 <= k < |packages| && Id(packages[k]) == id
  }

  /** Both ends of every relation are packages of the document. */
  lemma Closed(base: seq<Package>, sha: string -> string, packages: seq<Package>, blocks: seq<seq<Relation>>, k: nat,
               i: nat)
    requires packages == base + Placeholders(Missing(Providers(base), AllRequires(base)), sha)
    requires Graph(packages, blocks, Providers(base), sha) && k < |blocks| && i < |blocks[k]|
    ensures IsEmitted(packages, blocks[k][i].source) && IsEmitted(packages, blocks[k][i].target)
  {
    hide Id, Providers, AllRequires;
    var m := Providers(base);
    assert RelatesTo(blocks[k], Id(packages[k]), Targets(m, sha, packages[k].needs));
    assert Id(packages[k]) == blocks[k][i].source;
    var r :| r in packages[k].needs && Target(m, sha, r) == blocks[k][i].target;
    TargetIsEmitted(base, sha, packages, k, r);
  }

  lemma TargetIsEmitted(base: seq<Package>, sha: string -> string, packages: seq<Package>, k: nat, r: string)
    requires packages == base + Placeholders(Missing(Providers(base), AllRequires(base)), sha)
    requires k < |packages| && r in packages[k].needs
    ensures IsEmitted(packages, Target(Providers(base), sha, r))
  {
    hide Id, Providers, AllRequires, Missing, Providers;
    var m, missing := Providers(base), Missing(Providers(base), AllRequires(base));
    if r in m {
      var p := ProvidersIs(base, r);
      assert packages[p] == base[p];
    } else {
      AllRequiresIs(base);
      MissingIs(m, AllRequires(base));
      assert packages[k] in base by { NeedsOnlyInBase(base, missing, sha, packages, k, r); }
      assert r in missing;
      var i :| 0 <= i < |missing| && missing[i] == r;
      assert packages[|base| + i] == Placeholder(r, sha);
    }
  }

  lemma NeedsOnlyInBase(base: seq<Package>, missing: seq<string>, sha: string -> string, packages: seq<Package>,
                        k: nat, r: string)
    requires packages == base + Placeholders(missing, sha) && k < |packages| && r in packages[k].needs
    ensures packages[k] in base
  {}

  /** A requirement leads to the last package that provides it, or else to its one placeholder. */
  lemma TargetIs(base: seq<Package>, sha: string -> string, r: string)
    ensures (exists k: nat :: LastProvider(base, r, k) && Target(Providers(base), sha, r) == Id(base[k]))
      || ((forall p <- base :: r !in p.offers) && Target(Providers(base), sha, r) == Id(Placeholder(r, sha)))
  {
    hide Id, Placeholder, Providers;
    var k := ProvidersIs(base, r);
  }

  /** With a hash of fixed length that keeps the unresolved requirements apart, so do their
      placeholders' identifiers, although `/` and `-` fall together in the names. */
  lemma PlaceholdersApart(rs: seq<string>, sha: string -> string, i: nat, j: nat)
    requires i < |rs| && j < |rs| && sha(rs[i]) != sha(rs[j]) && |sha(rs[i])| == |sha(rs[j])|
    requires !("sha256:" <= sha(rs[i])) && !("sha256:" <= sha(rs[j]))
    ensures Id(Placeholders(rs, sha)[i]) != Id(Placeholders(rs, sha)[j])
  {
    var a, b := Id(Placeholder(rs[i], sha)), Id(Placeholder(rs[j], sha));
    var n := |sha(rs[i])|;
    assert a[|a| - n..] == sha(rs[i]);
    assert b[|b| - n..] == sha(rs[j]);
  }
}
