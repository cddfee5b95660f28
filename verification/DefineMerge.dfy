/** How `--define`, `--define-file` and `--extend-define` come together in two dictionaries that may
    share list objects. */
module DefineMerge {
  type Item = string

  /** What a key stands for. */
  datatype Val = Lst(items: seq<Item>) | Scalar(s: Item)

  datatype State = State(defines: map<string, Val>, user: map<string, Val>)

  datatype Op = Set(key: string, v: Val) | Extend(key: string, items: seq<Item>)

  datatype Outcome = Merged(state: State) | NotAList

  // ---- on values ----

  function ItemsOf(v: Val): seq<Item> {
    if v.Lst? then v.items else [v.s]
  }

  function ListAt(m: map<string, Val>, key: string): seq<Item> {
    if key in m then ItemsOf(m[key]) else []
  }

  /** One option on the command line, or one entry of a file. */
  function Apply(s: State, op: Op): Outcome {
    match op
    case Set(k, v) => Merged(State(s.defines[k := v], s.user[k := v]))
    case Extend(k, items) =>
      if k in s.defines && s.defines[k].Scalar? then NotAList
      else Merged(State(s.defines[k := Lst(ListAt(s.defines, k) + items)], s.user[k := Lst(ListAt(s.user, k) + items)]))
  }

  function ApplyAll(base: map<string, Val>, ops: seq<Op>): Outcome {
    if ops == [] then Merged(State(base, map[]))
    else
      var before := ApplyAll(base, ops[..|ops| - 1]);
      if before.NotAList? then NotAList else Apply(before.state, ops[|ops| - 1])
  }

  /** What the user set the key to, last. */
  function SetTo(ops: seq<Op>, key: string): (v: seq<Val>)
    ensures |v| <= 1
  {
    if ops == [] then []
    else
      var op := ops[|ops| - 1];
      if op.Set? && op.key == key then [op.v] else SetTo(ops[..|ops| - 1], key)
  }

  /** What the user has added to it since, once each and in order. */
  function Added(ops: seq<Op>, key: string): seq<Item> {
    if ops == [] then []
    else
      var op := ops[|ops| - 1];
      if op.key != key then Added(ops[..|ops| - 1], key)
      else if op.Set? then []
      else Added(ops[..|ops| - 1], key) + op.items
  }

  predicate Extended(ops: seq<Op>, key: string) {
    if ops == [] then false
    else
      var op := ops[|ops| - 1];
      if op.key == key then op.Extend? else Extended(ops[..|ops| - 1], key)
  }

  /** What a key must come to, in `defines` and in `user_defines`. */
  ghost predicate Right(base: map<string, Val>, ops: seq<Op>, key: string, s: State) {
    var set_ := SetTo(ops, key);
    if set_ != [] then
      // the user set it: the same in both
      && key in s.defines && key in s.user && s.defines[key] == s.user[key]
      && (if Extended(ops, key) then set_[0].Lst? && s.defines[key] == Lst(set_[0].items + Added(ops, key))
          else s.defines[key] == set_[0])
    else if Extended(ops, key) then
      // the user only added to it
      && (key in base ==> base[key].Lst?)
      && key in s.defines && s.defines[key] == Lst(ListAt(base, key) + Added(ops, key))
      && key in s.user && s.user[key] == Lst(Added(ops, key))
    else
      && key !in s.user && (key in s.defines <==> key in base)
      && (key in base ==> s.defines[key] == base[key])
  }

  lemma {:induction false} MergeIsRight(base: map<string, Val>, ops: seq<Op>, key: string)
    ensures ApplyAll(base, ops).Merged? ==> Right(base, ops, key, ApplyAll(base, ops).state)
  {
    if ops != [] {
      var before, op := ops[..|ops| - 1], ops[|ops| - 1];
      MergeIsRight(base, before, key);
      if op.key == key && op.Extend? && ApplyAll(base, ops).Merged? {
        AddedOnce(base, before, op, ApplyAll(base, before).state);
      }
    }
  }

  lemma ExtendSnoc(before: seq<Op>, op: Op)
    requires op.Extend?
    ensures var ops := before + [op];
      SetTo(ops, op.key) == SetTo(before, op.key) && Added(ops, op.key) == Added(before, op.key) + op.items
          && Extended(ops, op.key)
  {
    assert (before + [op])[..|before|] == before;
  }

  lemma AddedOnce(base: map<string, Val>, before: seq<Op>, op: Op, s: State)
    requires op.Extend? && Right(base, before, op.key, s) && Apply(s, op).Merged?
    ensures Right(base, before + [op], op.key, Apply(s, op).state)
  {
    hide SetTo, Added, Extended;
    var k, added := op.key, Added(before, op.key);
    ExtendSnoc(before, op);
    if !Extended(before, k) { NotExtended(before, k); }
    assert forall xs: seq<Item> :: xs + [] + op.items == xs + op.items;
    assert forall xs: seq<Item> :: xs + added + op.items == xs + (added + op.items);
    assert [] + op.items == op.items;
  }

  lemma {:induction false} NotExtended(ops: seq<Op>, key: string)
    requires !Extended(ops, key)
    ensures Added(ops, key) == []
  {
    if ops != [] && ops[|ops| - 1].key != key { NotExtended(ops[..|ops| - 1], key); }
  }

  /** At this option a key that holds no list would have to be extended. */
  ghost predicate ExtendsScalar(base: map<string, Val>, ops: seq<Op>, i: nat)
    requires i < |ops|
  {
    && ops[i].Extend?
    && var key := ops[i].key;
       if SetTo(ops[..i], key) != [] then SetTo(ops[..i], key)[0].Scalar? else key in base && base[key].Scalar?
  }

  /** The merge fails just where a key without a list is extended. */
  lemma {:induction false} FailsIff(base: map<string, Val>, ops: seq<Op>)
    ensures ApplyAll(base, ops).NotAList? <==> exists i: nat :: i < |ops| && ExtendsScalar(base, ops, i)
  {
    if ops != [] {
      var n := |ops| - 1;
      var before, op := ops[..n], ops[n];
      FailsIff(base, before);
      forall i: nat | i < n ensures ExtendsScalar(base, ops, i) == ExtendsScalar(base, before, i) {
        assert ops[..i] == before[..i];
      }
      if ApplyAll(base, before).Merged? {
        MergeIsRight(base, before, op.key);
        assert op.Extend? ==> (ExtendsScalar(base, ops, n) <==> Apply(ApplyAll(base, before).state, op).NotAList?) by {
          if op.Extend? { ScalarKnown(base, before, op.key, ApplyAll(base, before).state); }
        }
      }
    }
  }

  lemma ScalarKnown(base: map<string, Val>, ops: seq<Op>, key: string, s: State)
    requires Right(base, ops, key, s)
    ensures (key in s.defines && s.defines[key].Scalar?) <==>
      (if SetTo(ops, key) != [] then SetTo(ops, key)[0].Scalar? else key in base && base[key].Scalar?)
  {}

  lemma ApplySnoc(base: map<string, Val>, ops: seq<Op>, op: Op)
    ensures ApplyAll(base, ops + [op]) == var r := ApplyAll(base, ops); if r.NotAList? then r else Apply(r.state, op)
  {
    assert (ops + [op])[..|ops|] == ops;
  }

  // ---- on shared list objects ----

  class PyList {
    var items: seq<Item>

    constructor (items: seq<Item>)
      ensures this.items == items
    {
      this.items := items;
    }

    method ExtendWith(more: seq<Item>)
      modifies this
      ensures items == old(items) + more
    {
      items := items + more;
    }
  }

  datatype Ref = ListRef(l: PyList) | ScalarRef(s: Item)

  predicate Shows(r: Ref, v: Val)
    reads if r.ListRef? then {r.l} else {}
  {
    if r.ListRef? then v == Lst(r.l.items) else v == Scalar(r.s)
  }

  function ListsIn(m: map<string, Ref>): set<PyList> {
    set k | k in m && m[k].ListRef? :: m[k].l
  }

  ghost predicate ShowsAll(m: map<string, Ref>, a: map<string, Val>)
    reads ListsIn(m)
  {
    m.Keys == a.Keys && forall k :: k in m ==> Shows(m[k], a[k])
  }

  /** The two keys stand for one list, as a YAML anchor in a define file makes them. */
  predicate OneList(refs: map<string, Ref>, j: string, k: string) {
    j in refs && k in refs && refs[j].ListRef? && refs[k].ListRef? && refs[j].l == refs[k].l
  }

  // ---- what the options come to where lists are shared ----

  predicate OnlyExtends(ops: seq<Op>) {
    forall op <- ops :: op.Extend?
  }

  /** The list under the key grows, and with it whatever else that list stands for. */
  function GrownDefines(refs: map<string, Ref>, m: map<string, Val>, op: Op): map<string, Val>
    requires op.Extend?
  {
    map j | j in m.Keys + {op.key} ::
      if j == op.key || OneList(refs, j, op.key) then Lst(ListAt(m, j) + op.items) else m[j]
  }

  /** A key that was extended before has a list of its own. */
  function GrownUser(refs: map<string, Ref>, before: seq<Op>, m: map<string, Val>, op: Op): map<string, Val>
    requires op.Extend?
  {
    map j | j in m.Keys + {op.key} ::
      if j == op.key || (OneList(refs, j, op.key) && !Extended(before, j)) then Lst(ListAt(m, j) + op.items) else m[j]
  }

  /** The keys whose list is shared and that were not extended, `done` being the extensions so far. */
  function GrownShared(refs: map<string, Ref>, done: seq<Op>, m: map<string, Val>, op: Op): map<string, Val>
    requires op.Extend?
  {
    map j | j in m :: if OneList(refs, j, op.key) && !Extended(done, j) then Lst(ListAt(m, j) + op.items) else m[j]
  }

  lemma ExtendedSnoc(done: seq<Op>, op: Op)
    requires op.Extend?
    ensures forall j: string :: Extended(done + [op], j) <==> j == op.key || Extended(done, j)
  {
    assert (done + [op])[..|done|] == done;
  }

  /** The user's list first, then that in `defines`. */
  lemma SharedInSteps(refs: map<string, Ref>, done: seq<Op>, s: State, op: Op)
    requires op.Extend? && !(op.key in s.defines && s.defines[op.key].Scalar?)
    ensures var m := if op.key in s.defines then s.defines else s.defines[op.key := Lst([])];
            ApplyShared(refs, done, s, op) ==
            Merged(State(GrownDefines(refs, m, op),
                         GrownShared(refs, done + [op], s.user[op.key := Lst(ListAt(s.user, op.key) + op.items)], op)))
  {
    ExtendedSnoc(done, op);
    hide Extended, OneList;
  }

  function ApplyShared(refs: map<string, Ref>, before: seq<Op>, s: State, op: Op): Outcome
    requires op.Extend?
  {
    if op.key in s.defines && s.defines[op.key].Scalar? then NotAList
    else Merged(State(GrownDefines(refs, s.defines, op), GrownUser(refs, before, s.user, op)))
  }

  /** The extensions, where `refs` is what `defines` holds before the first of them. */
  function ApplyAllShared(refs: map<string, Ref>, s: State, ops: seq<Op>): Outcome
    requires OnlyExtends(ops)
  {
    if ops == [] then Merged(s)
    else
      var before := ops[..|ops| - 1];
      var r := ApplyAllShared(refs, s, before);
      if r.NotAList? then NotAList else ApplyShared(refs, before, r.state, ops[|ops| - 1])
  }

  /** This extension also adds to what `key`, another key, stands for. */
  predicate LeaksAt(refs: map<string, Ref>, ops: seq<Op>, i: nat, key: string) {
    i < |ops| && ops[i].Extend? && ops[i].items != [] && ops[i].key != key && OneList(refs, key, ops[i].key)
  }

  ghost predicate Leaks(refs: map<string, Ref>, ops: seq<Op>, key: string) {
    exists i: nat :: LeaksAt(refs, ops, i, key)
  }

  /** As `Leaks`, while the user's dictionary still holds the shared list. */
  ghost predicate LeaksToUser(refs: map<string, Ref>, ops: seq<Op>, key: string) {
    exists i: nat :: LeaksAt(refs, ops, i, key) && !Extended(ops[..i], key)
  }

  /** The references are to what the dictionaries stand for. */
  ghost predicate Refers(refs: map<string, Ref>, s: State) {
    && refs.Keys == s.defines.Keys
    && (forall j, k :: OneList(refs, j, k) ==> s.defines[j].Lst? && (j in s.user ==> s.user[j].Lst?))
  }

  lemma LeaksSnoc(refs: map<string, Ref>, ops: seq<Op>, key: string)
    requires ops != []
    ensures var n := |ops| - 1;
      && (Leaks(refs, ops, key) <==> Leaks(refs, ops[..n], key) || LeaksAt(refs, ops, n, key))
      && (LeaksToUser(refs, ops, key) <==>
            LeaksToUser(refs, ops[..n], key) || (LeaksAt(refs, ops, n, key) && !Extended(ops[..n], key)))
  {
    hide Extended, OneList;
    var n := |ops| - 1;
    var before := ops[..n];
    assert forall i: nat | i < n ::
      LeaksAt(refs, ops, i, key) == LeaksAt(refs, before, i, key) && ops[..i] == before[..i];
    if i: nat :| LeaksAt(refs, before, i, key) { assert LeaksAt(refs, ops, i, key); }
    if i: nat :| LeaksAt(refs, before, i, key) && !Extended(before[..i], key) {
      assert LeaksAt(refs, ops, i, key) && ops[..i] == before[..i];
    }
    if i: nat :| LeaksAt(refs, ops, i, key) && !Extended(ops[..i], key) && i < n {
      assert LeaksAt(refs, before, i, key) && ops[..i] == before[..i];
    }
  }

  /** How a value with sharing compares to that without. */
  predicate Compares(shared: Val, v: Val, leaks: bool) {
    if leaks then shared.Lst? && v.Lst? && |shared.items| > |v.items| else shared == v
  }

  /** What one key comes to, in the outcome `r` with sharing and in the outcome `v` without. */
  ghost predicate ComparesAt(refs: map<string, Ref>, s: State, ops: seq<Op>, r: State, v: State, key: string) {
    && (key in r.defines <==> key in v.defines) && (key in r.user <==> key in v.user)
    && (key in v.defines ==> Compares(r.defines[key], v.defines[key], Leaks(refs, ops, key)))
    && (key in v.user ==> Compares(r.user[key], v.user[key], key in s.user && LeaksToUser(refs, ops, key)))
    && (key in s.defines ==> key in v.defines) && (key in s.user ==> key in v.user)
    && (key in refs && refs[key].ListRef? ==> key in v.defines && v.defines[key].Lst?)
    && (key in refs && refs[key].ListRef? && key in v.user ==> v.user[key].Lst?)
    && (!Extended(ops, key) && key !in s.user ==> key !in v.user)
  }

  lemma SharedStep(refs: map<string, Ref>, s: State, before: seq<Op>, op: Op, r: State, v: State, key: string)
    requires op.Extend? && Refers(refs, s) && ComparesAt(refs, s, before, r, v, key)
    requires Apply(v, op).Merged? && ApplyShared(refs, before, r, op).Merged?
    ensures ComparesAt(refs, s, before + [op], ApplyShared(refs, before, r, op).state, Apply(v, op).state, key)
  {
    var ops := before + [op];
    LeaksSnoc(refs, ops, key);
    assert ops[..|before|] == before;
    ExtendedSnoc(before, op);
    assert LeaksAt(refs, ops, |before|, key) <==> op.items != [] && op.key != key && OneList(refs, key, op.key);
    hide Leaks, LeaksToUser, LeaksAt, Extended;
  }

  /** Key by key: a value differs from that without sharing, and is longer, iff an extension of another key
      with the same list has added something to it; in the user's dictionary, before the key was itself extended. */
  lemma {:induction false} SharedKey(refs: map<string, Ref>, base: map<string, Val>, sets: seq<Op>, s: State,
                                     ops: seq<Op>, key: string)
    requires ApplyAll(base, sets) == Merged(s) && Refers(refs, s) && OnlyExtends(ops)
    ensures var r, v := ApplyAllShared(refs, s, ops), ApplyAll(base, sets + ops);
            && (r.NotAList? <==> v.NotAList?)
            && (v.Merged? ==> ComparesAt(refs, s, ops, r.state, v.state, key))
  {
    if ops == [] {
      assert sets + ops == sets;
      assert key in refs && refs[key].ListRef? ==> OneList(refs, key, key);
    } else {
      var before, op := ops[..|ops| - 1], ops[|ops| - 1];
      assert before + [op] == ops && sets + ops == sets + before + [op];
      ApplySnoc(base, sets + before, op);
      SharedKey(refs, base, sets, s, before, key);
      SharedKey(refs, base, sets, s, before, op.key);
      var r, v := ApplyAllShared(refs, s, before), ApplyAll(base, sets + before);
      hide ApplyAll, Leaks, LeaksToUser, GrownDefines, GrownUser, Extended, OneList;
      if v.Merged? && Apply(v.state, op).Merged? { SharedStep(refs, s, before, op, r.state, v.state, key); }
    }
  }

  /** The dictionaries come to what the options say one after the other, iff no extension that adds something
      is of a key whose list stands under another key too.  Whether the merge fails never depends on it. */
  lemma SharingIff(refs: map<string, Ref>, base: map<string, Val>, sets: seq<Op>, s: State, ops: seq<Op>)
    requires ApplyAll(base, sets) == Merged(s) && Refers(refs, s) && OnlyExtends(ops)
    ensures var r, v := ApplyAllShared(refs, s, ops), ApplyAll(base, sets + ops);
            && (r.NotAList? <==> v.NotAList?)
            && (v.Merged? ==> (r == v <==> forall i: nat, key: string :: !LeaksAt(refs, ops, i, key)))
  {
    hide ApplyAll, ApplyAllShared;
    SharedKey(refs, base, sets, s, ops, "");
    var r, v := ApplyAllShared(refs, s, ops), ApplyAll(base, sets + ops);
    if v.Merged? {
      forall key: string ensures ComparesAt(refs, s, ops, r.state, v.state, key) {
        SharedKey(refs, base, sets, s, ops, key);
      }
      if i: nat, key: string :| LeaksAt(refs, ops, i, key) {
        assert Leaks(refs, ops, key) && ComparesAt(refs, s, ops, r.state, v.state, key);
      } else {
        SameState(refs, s, ops, r.state, v.state);
      }
    }
  }

  lemma SameState(refs: map<string, Ref>, s: State, ops: seq<Op>, r: State, v: State)
    requires forall i: nat, key: string :: !LeaksAt(refs, ops, i, key)
    requires forall key: string :: ComparesAt(refs, s, ops, r, v, key)
    ensures r == v
  {
    hide LeaksAt, Extended;
    forall key: string
      ensures key in r.defines <==> key in v.defines
      ensures key in r.defines ==> r.defines[key] == v.defines[key]
      ensures key in r.user <==> key in v.user
      ensures key in r.user ==> r.user[key] == v.user[key]
    {
      assert ComparesAt(refs, s, ops, r, v, key);
    }
    assert r.defines == v.defines && r.user == v.user;
  }

  // ---- the two dictionaries ----

  lemma ShowsPut(m: map<string, Ref>, a: map<string, Val>, key: string, v: Ref, shown: Val)
    requires ShowsAll(m, a) && Shows(v, shown)
    ensures ShowsAll(m[key := v], a[key := shown])
  {}

  lemma ListsInPut(m: map<string, Ref>, key: string, v: Ref)
    ensures ListsIn(m[key := v]) <= ListsIn(m) + (if v.ListRef? then {v.l} else {})
  {}

  /** Lists are shared as they were before any extension, but that a key extended by the user has one of its
      own in `user`. */
  ghost predicate Owned(refs: map<string, Ref>, defines: map<string, Ref>, user: map<string, Ref>, done: seq<Op>) {
    && (forall j <- refs :: j in defines && defines[j] == refs[j])
    && (forall j, k :: OneList(defines, j, k) ==> j == k || OneList(refs, j, k))
    && (forall j <- user :: if Extended(done, j) then user[j].ListRef? && user[j].l !in ListsIn(defines)
                            else j in refs && user[j] == refs[j])
  }

  lemma OwnedByUser(refs: map<string, Ref>, defines: map<string, Ref>, user: map<string, Ref>, done: seq<Op>, op: Op,
                    l: PyList)
    requires Owned(refs, defines, user, done) && op.Extend? && l !in ListsIn(defines)
    ensures Owned(refs, defines, user[op.key := ListRef(l)], done + [op])
  {
    ExtendedSnoc(done, op);
    hide Extended, OneList;
  }

  lemma OwnedByDefines(refs: map<string, Ref>, defines: map<string, Ref>, user: map<string, Ref>, done: seq<Op>,
                       key: string, l: PyList)
    requires Owned(refs, defines, user, done) && key !in defines && l !in ListsIn(defines) && l !in ListsIn(user)
    ensures Owned(refs, defines[key := ListRef(l)], user, done)
  {
    hide Extended;
    forall j, k | OneList(defines[key := ListRef(l)], j, k) ensures j == k || OneList(refs, j, k) {
      assert j != key && k != key ==> OneList(defines, j, k);
    }
  }

  lemma OwnedBySetting(refs: map<string, Ref>, user: map<string, Ref>, key: string, v: Ref)
    requires Owned(refs, refs, user, [])
    ensures Owned(refs[key := v], refs[key := v], user[key := v], [])
  {
    hide OneList;
  }

  /** Growing a list in place reaches just these values. */
  lemma Reaches(refs: map<string, Ref>, defines: map<string, Ref>, user: map<string, Ref>, done: seq<Op>, key: string)
    requires Owned(refs, defines, user, done) && key in defines && defines[key].ListRef? && Extended(done, key)
    ensures forall j <- defines ::
      defines[j].ListRef? && defines[j].l == defines[key].l <==> j == key || OneList(refs, j, key)
    ensures forall j <- user ::
      user[j].ListRef? && user[j].l == defines[key].l <==> OneList(refs, j, key) && !Extended(done, j)
  {
    hide Extended;
    forall j | j in defines
      ensures defines[j].ListRef? && defines[j].l == defines[key].l <==> j == key || OneList(refs, j, key)
    {
      assert OneList(defines, j, key) <==> defines[j].ListRef? && defines[j].l == defines[key].l;
    }
  }

  /** `b` is `a` with the values that stand for the list longer by `items`. */
  ghost predicate GrowsTo(m: map<string, Ref>, a: map<string, Val>, l: PyList, was: seq<Item>, items: seq<Item>,
                          b: map<string, Val>)
  {
    && m.Keys == a.Keys == b.Keys
    && forall k <- m ::
         if m[k].ListRef? && m[k].l == l then a[k] == Lst(was) && b[k] == Lst(was + items) else b[k] == a[k]
  }

  lemma {:induction false} GrownShows(m: map<string, Ref>, a: map<string, Val>, l: PyList, was: seq<Item>,
                                      items: seq<Item>, b: map<string, Val>)
    requires l.items == was + items && GrowsTo(m, a, l, was, items, b)
    requires forall k <- m :: Shows(m[k], a[k]) || m[k] == ListRef(l)
    ensures ShowsAll(m, b)
  {}

  class Merger {
    var defines: map<string, Ref>
    var user: map<string, Ref>
    /** What `defines` held before it was extended, the extensions made since, and what the two
        dictionaries stand for. */
    ghost var refs: map<string, Ref>
    ghost var done: seq<Op>
    ghost var now: State

    ghost function Lists(): set<PyList>
      reads this
    {
      ListsIn(defines) + ListsIn(user)
    }

    ghost predicate Valid()
      reads this, Lists()
    {
      && Owned(refs, defines, user, done) == true && (done == [] ==> refs == defines)
      && ShowsAll(defines, now.defines) && ShowsAll(user, now.user)
    }

    constructor (base: map<string, Ref>, ghost shown: map<string, Val>)
      requires ShowsAll(base, shown)
      ensures Valid() && refs == defines == base && user == map[] && done == [] && now == State(shown, map[])
    {
      defines, user := base, map[];
      refs, done, now := base, [], State(shown, map[]);
    }

    /** Both dictionaries get the same object, which other keys may have got as well. */
    method Define(key: string, v: Ref, ghost shown: Val)
      requires Valid() && done == [] && Shows(v, shown)
      modifies this
      ensures Valid() && done == [] && refs == old(refs)[key := v]
      ensures Lists() <= old(Lists()) + (if v.ListRef? then {v.l} else {})
      ensures Apply(old(now), Op.Set(key, shown)) == Merged(now)
    {
      OwnedBySetting(refs, user, key, v);
      ListsInPut(defines, key, v);
      ListsInPut(user, key, v);
      ShowsPut(defines, now.defines, key, v, shown);
      ShowsPut(user, now.user, key, v, shown);
      hide Owned, ListsIn, ShowsAll, Shows;
      defines, user := defines[key := v], user[key := v];
      refs, now := defines, Apply(now, Op.Set(key, shown)).state;
    }

    /** A new list, so that one shared with `defines` stays as it is. */
    method AddToUser(key: string, items: seq<Item>)
      requires Valid()
      modifies this`user, this`done, this`now
      ensures Valid() && done == old(done) + [Op.Extend(key, items)] && fresh(ListsIn(user) - old(ListsIn(user)))
      ensures now == State(old(now).defines, old(now).user[key := Lst(ListAt(old(now).user, key) + items)])
    {
      hide Owned;
      var prev := if key !in user then [] else if user[key].ListRef? then user[key].l.items else [user[key].s];
      var both := new PyList(prev + items);
      OwnedByUser(refs, defines, user, done, Op.Extend(key, items), both);
      user := user[key := ListRef(both)];
      done := done + [Op.Extend(key, items)];
      now := State(now.defines, now.user[key := Lst(ListAt(now.user, key) + items)]);
    }

    /** `if k not in defines: defines[k] = []`. */
    method EnsureDefined(key: string)
      requires Valid() && done != []
      modifies this`defines, this`now
      ensures Valid() && key in defines && fresh(ListsIn(defines) - old(ListsIn(defines)))
      ensures key in old(defines) ==> defines == old(defines) && now == old(now)
      ensures key !in old(defines) ==>
        defines[key].ListRef? && now == State(old(now).defines[key := Lst([])], old(now).user)
    {
      hide Owned;
      if key !in defines {
        var empty := new PyList([]);
        OwnedByDefines(refs, defines, user, done, key, empty);
        defines := defines[key := ListRef(empty)];
        now := State(now.defines[key := Lst([])], now.user);
      }
    }

    /** `defines[k].extend`: the list grows in place, for whatever else it stands for. */
    method Grow(key: string, items: seq<Item>)
      requires Valid() && key in defines && defines[key].ListRef? && Extended(done, key)
      modifies this`now, defines[key].l
      ensures Valid()
      ensures now == State(GrownDefines(refs, old(now).defines, Op.Extend(key, items)),
                           GrownShared(refs, done, old(now).user, Op.Extend(key, items)))
    {
      var op := Op.Extend(key, items);
      WillGrow(key, op);
      hide Owned, Extended, OneList, GrowsTo, GrownDefines, GrownShared;
      ghost var l, was := defines[key].l, defines[key].l.items;
      defines[key].l.ExtendWith(items);
      GrownShows(defines, now.defines, l, was, items, GrownDefines(refs, now.defines, op));
      GrownShows(user, now.user, l, was, items, GrownShared(refs, done, now.user, op));
      hide ShowsAll;
      now := State(GrownDefines(refs, now.defines, op), GrownShared(refs, done, now.user, op));
    }

    lemma WillGrow(key: string, op: Op)
      requires Valid() && key in defines && defines[key].ListRef? && Extended(done, key) && op.Extend? && op.key == key
      ensures var l := defines[key].l;
        && GrowsTo(defines, now.defines, l, l.items, op.items, GrownDefines(refs, now.defines, op)) == true
        && GrowsTo(user, now.user, l, l.items, op.items, GrownShared(refs, done, now.user, op)) == true
    {
      Reaches(refs, defines, user, done, key);
      hide Owned, Extended, OneList;
    }

    /** `user_defines` gets a new list; the list in `defines` grows in place. */
    method Extend(key: string, v: Ref, ghost shown: Val) returns (ok: bool)
      requires Valid() && Shows(v, shown) && (v.ListRef? ==> v.l !in Lists())
      modifies this`defines, this`user, this`done, this`now, ListsIn(defines)
      ensures Valid() && fresh(Lists() - old(Lists())) && fresh(ListsIn(defines) - old(ListsIn(defines)))
      ensures done == old(done) + [Op.Extend(key, ItemsOf(shown))]
      ensures var r := ApplyShared(refs, old(done), old(now), Op.Extend(key, ItemsOf(shown)));
        if ok then r == Merged(now) else r == NotAList
    {
      hide Owned, Extended, GrownDefines, GrownUser, GrownShared, ShowsAll, Valid;
      Held(key);
      var items := if v.ListRef? then v.l.items else [v.s];
      AddToUser(key, items);
      ExtendedSnoc(old(done), Op.Extend(key, items));
      EnsureDefined(key);
      Held(key);
      if defines[key].ScalarRef? { return false; }
      Grow(key, items);
      ok := true;
      SharedInSteps(refs, old(done), old(now), Op.Extend(key, items));
    }

    lemma Held(key: string)
      requires Valid()
      ensures key in defines <==> key in now.defines
      ensures key in defines ==> Shows(defines[key], now.defines[key])
      ensures key in defines && defines[key].ListRef? ==> defines[key].l in ListsIn(defines)
    {}
  }

  // ---- the loops over the options ----

  datatype Arg = Arg(key: string, v: Ref)

  function ListsOf(args: seq<Arg>): set<PyList> {
    set i | 0 <= i < |args| && args[i].v.ListRef? :: args[i].v.l
  }

  ghost predicate ShowsArgs(args: seq<Arg>, vals: seq<Val>)
    reads ListsOf(args)
  {
    |vals| == |args| && forall i :: 0 <= i < |args| ==> Shows(args[i].v, vals[i])
  }

  function Sets(args: seq<Arg>, vals: seq<Val>): seq<Op>
    requires |vals| == |args|
  {
    seq(|args|, i requires 0 <= i < |args| => Op.Set(args[i].key, vals[i]))
  }

  function Extends(args: seq<Arg>, vals: seq<Val>): (ops: seq<Op>)
    requires |vals| == |args|
    ensures OnlyExtends(ops)
  {
    seq(|args|, i requires 0 <= i < |args| => Op.Extend(args[i].key, ItemsOf(vals[i])))
  }

  /** What `defines` holds once everything is set: for each key what it was set to last. */
  function RefsAfter(base: map<string, Ref>, args: seq<Arg>): map<string, Ref> {
    if args == [] then base
    else
      var arg := args[|args| - 1];
      RefsAfter(base, args[..|args| - 1])[arg.key := arg.v]
  }

  method DefineAll(m: Merger, args: seq<Arg>, ghost base: map<string, Val>, ghost ops: seq<Op>, ghost vals: seq<Val>)
    requires m.Valid() && m.done == [] && ShowsArgs(args, vals)
    requires ApplyAll(base, ops) == Merged(m.now)
    modifies m
    ensures m.Valid() && m.done == [] && m.Lists() <= old(m.Lists()) + ListsOf(args)
    ensures m.refs == RefsAfter(old(m.refs), args)
    ensures ApplyAll(base, ops + Sets(args, vals)) == Merged(m.now)
  {
    hide ApplyAll, Apply, Merger.Valid;
    assert ops + Sets(args[..0], vals[..0]) == ops;
    for i := 0 to |args|
      invariant m.Valid() && m.done == [] && m.Lists() <= old(m.Lists()) + ListsOf(args[..i])
      invariant m.refs == RefsAfter(old(m.refs), args[..i])
      invariant ApplyAll(base, ops + Sets(args[..i], vals[..i])) == Merged(m.now)
    {
      OneMore(args, i);
      ApplySnoc(base, ops + Sets(args[..i], vals[..i]), Op.Set(args[i].key, vals[i]));
      assert ops + Sets(args[..i + 1], vals[..i + 1])
          == ops + Sets(args[..i], vals[..i]) + [Op.Set(args[i].key, vals[i])];
      m.Define(args[i].key, args[i].v, vals[i]);
    }
    assert args[..|args|] == args && vals[..|args|] == vals;
  }

  lemma OneMore(args: seq<Arg>, i: nat)
    requires i < |args|
    ensures args[..i + 1] == args[..i] + [args[i]] && args[..i + 1][..i] == args[..i]
    ensures ListsOf(args[..i]) + (if args[i].v.ListRef? then {args[i].v.l} else {}) <= ListsOf(args[..i + 1])
  {
    forall l | l in ListsOf(args[..i]) ensures l in ListsOf(args[..i + 1]) {
      var j :| 0 <= j < i && args[..i][j].v.ListRef? && args[..i][j].v.l == l;
      assert args[..i + 1][j].v.l == l;
    }
    assert args[..i + 1][i] == args[i];
  }

  lemma ExtendsAt(args: seq<Arg>, vals: seq<Val>, i: nat)
    requires |vals| == |args| && i < |args|
    ensures args[i].v.ListRef? ==> args[i].v.l in ListsOf(args)
    ensures Extends(args[..i + 1], vals[..i + 1])
            == Extends(args[..i], vals[..i]) + [Op.Extend(args[i].key, ItemsOf(vals[i]))]
    ensures Extends(args, vals) == Extends(args[..i + 1], vals[..i + 1]) + Extends(args, vals)[i + 1..]
    ensures |Extends(args, vals)| == |args| && OnlyExtends(Extends(args, vals)[i + 1..])
  {}

  lemma SharedSnoc(refs: map<string, Ref>, s: State, ops: seq<Op>, op: Op)
    requires OnlyExtends(ops) && op.Extend?
    ensures OnlyExtends(ops + [op])
    ensures ApplyAllShared(refs, s, ops + [op]) ==
      var r := ApplyAllShared(refs, s, ops); if r.NotAList? then r else ApplyShared(refs, ops, r.state, op)
  {
    assert (ops + [op])[..|ops|] == ops;
  }

  lemma {:induction false} SharedStaysFailed(refs: map<string, Ref>, s: State, ops: seq<Op>, more: seq<Op>)
    requires OnlyExtends(ops) && OnlyExtends(more) && ApplyAllShared(refs, s, ops).NotAList?
    ensures OnlyExtends(ops + more) && ApplyAllShared(refs, s, ops + more).NotAList?
  {
    if more == [] {
      assert ops + more == ops;
    } else {
      var before, op := more[..|more| - 1], more[|more| - 1];
      SharedStaysFailed(refs, s, ops, before);
      assert ops + more == ops + before + [op];
      SharedSnoc(refs, s, ops + before, op);
    }
  }

  method ExtendAll(m: Merger, args: seq<Arg>, ghost vals: seq<Val>) returns (ok: bool)
    requires m.Valid() && m.done == [] && ShowsArgs(args, vals) && ListsOf(args) !! m.Lists()
    modifies m`defines, m`user, m`done, m`now, ListsIn(m.defines)
    ensures m.Valid() && fresh(m.Lists() - old(m.Lists()))
    ensures ApplyAllShared(m.refs, old(m.now), Extends(args, vals)) == if ok then Merged(m.now) else NotAList
  {
    hide ApplyAllShared, ApplyShared, Extends, Merger.Valid;
    ghost var s := m.now;
    NoneYet(m.refs, s, args, vals);
    for i := 0 to |args|
      invariant m.Valid() && fresh(m.Lists() - old(m.Lists())) && fresh(ListsIn(m.defines) - old(ListsIn(m.defines)))
      invariant ShowsArgs(args, vals) && m.done == Extends(args[..i], vals[..i])
      invariant ApplyAllShared(m.refs, s, m.done) == Merged(m.now)
    {
      ExtendsAt(args, vals, i);
      SharedSnoc(m.refs, s, m.done, Op.Extend(args[i].key, ItemsOf(vals[i])));
      ok := m.Extend(args[i].key, args[i].v, vals[i]);
      if !ok {
        SharedStaysFailed(m.refs, s, Extends(args[..i + 1], vals[..i + 1]), Extends(args, vals)[i + 1..]);
        return;
      }
    }
    assert args[..|args|] == args && vals[..|args|] == vals;
    ok := true;
  }

  lemma NoneYet(refs: map<string, Ref>, s: State, args: seq<Arg>, vals: seq<Val>)
    requires |vals| == |args|
    ensures Extends(args[..0], vals[..0]) == [] && ApplyAllShared(refs, s, []) == Merged(s)
  {}

  /** All options, those from files after those from the command line and extensions last.  The dictionaries
      come to what the options say one after the other, iff no extension that adds something is of a key whose
      list, after all settings, stands under another key too; `ApplyAllShared` says what they come to otherwise.
      (Each option that extends is parsed by itself, so that its list is nobody else's.) */
  method MergeDefines(base: map<string, Ref>, define: seq<Arg>, defineFile: seq<Arg>, extendDefine: seq<Arg>,
                      ghost shown: map<string, Val>, ghost vals: seq<Val>, ghost more: seq<Val>)
    returns (m: Merger, ok: bool)
    requires ShowsAll(base, shown) && ShowsArgs(define + defineFile, vals) && ShowsArgs(extendDefine, more)
    requires ListsIn(base) + ListsOf(define + defineFile) !! ListsOf(extendDefine)
    modifies ListsIn(base), ListsOf(define + defineFile)
    ensures fresh(m) && m.Valid()
    ensures ApplyAll(shown, Sets(define + defineFile, vals)).Merged?
    ensures var refs, ops := RefsAfter(base, define + defineFile), Extends(extendDefine, more);
      var set_ := ApplyAll(shown, Sets(define + defineFile, vals));
      var said := ApplyAll(shown, Sets(define + defineFile, vals) + ops);
      && (ok <==> said.Merged?)
      && (ok ==> ApplyAllShared(refs, set_.state, ops) == Merged(m.now))
      && (ok ==> (said == Merged(m.now) <==> forall i: nat, key: string :: !LeaksAt(refs, ops, i, key)))
  {
    assert ApplyAll(shown, []) == Merged(State(shown, map[]));
    hide ApplyAll, ApplyAllShared, RefsAfter, LeaksAt, Merger.Valid;
    m := new Merger(base, shown);
    DefineAll(m, define + defineFile, shown, [], vals);
    SharingNow(m, shown, Sets(define + defineFile, vals), Extends(extendDefine, more));
    hide Sets, Extends, ShowsAll;
    ok := ExtendAll(m, extendDefine, more);
  }

  lemma SharingNow(m: Merger, base: map<string, Val>, sets: seq<Op>, ops: seq<Op>)
    requires m.Valid() && m.done == [] && ApplyAll(base, [] + sets) == Merged(m.now) && OnlyExtends(ops)
    ensures ApplyAll(base, sets) == Merged(m.now)
    ensures var r, v := ApplyAllShared(m.refs, m.now, ops), ApplyAll(base, sets + ops);
            && (r.NotAList? <==> v.NotAList?)
            && (v.Merged? ==> (r == v <==> forall i: nat, key: string :: !LeaksAt(m.refs, ops, i, key)))
  {
    assert [] + sets == sets;
    RefersNow(m);
    SharingIff(m.refs, base, sets, m.now, ops);
  }

  lemma RefersNow(m: Merger)
    requires m.Valid() && m.done == []
    ensures Refers(m.refs, m.now)
  {
    forall j, k | OneList(m.refs, j, k) ensures m.now.defines[j].Lst? && (j in m.now.user ==> m.now.user[j].Lst?) {
      assert Shows(m.defines[j], m.now.defines[j]);
      assert j in m.now.user ==> Shows(m.user[j], m.now.user[j]);
    }
  }

  /** One file whose keys `a` and `b` have one list `x` by an anchor, and then an option that adds `y` to `a`. */
  lemma LeakComesTo(a: string, b: string, x: seq<Item>, y: Item, v: Ref)
    requires a != b && v.ListRef?
    ensures var was: map<string, Val> := map[a := Lst(x), b := Lst(x)];
      var now: map<string, Val> := map[a := Lst(x + [y]), b := Lst(x + [y])];
      var sets, ops := [Op.Set(a, Lst(x)), Op.Set(b, Lst(x))], [Op.Extend(a, [y])];
      && ApplyAll(map[], sets) == Merged(State(was, was)) && ApplyAll(map[], sets + ops).Merged?
      && ApplyAllShared(RefsAfter(map[], [Arg(a, v), Arg(b, v)]), State(was, was), ops) == Merged(State(now, now))
  {
    var s, t, op := Op.Set(a, Lst(x)), Op.Set(b, Lst(x)), Op.Extend(a, [y]);
    var was: map<string, Val> := map[a := Lst(x), b := Lst(x)];
    ApplySnoc(map[], [], s);
    ApplySnoc(map[], [s], t);
    ApplySnoc(map[], [s, t], op);
    assert [] + [s] == [s] && [s] + [t] == [s, t];
    TwoRefs(a, b, v);
    LeakExtends(map[a := v, b := v], was, a, b, x, y, op);
  }

  lemma TwoRefs(a: string, b: string, v: Ref)
    ensures RefsAfter(map[], [Arg(a, v), Arg(b, v)]) == map[a := v, b := v]
  {
    assert [Arg(a, v), Arg(b, v)][..1] == [Arg(a, v)] && [Arg(a, v)][..0] == [];
    assert RefsAfter(map[], [Arg(a, v)]) == map[a := v];
  }

  lemma {:induction false} LeakExtends(refs: map<string, Ref>, was: map<string, Val>, a: string, b: string,
                                       x: seq<Item>, y: Item, op: Op)
    requires a != b && refs.Keys == {a, b} && OneList(refs, b, a)
    requires was == map[a := Lst(x), b := Lst(x)] && op == Op.Extend(a, [y])
    ensures OnlyExtends([op])
    ensures var now: map<string, Val> := map[a := Lst(x + [y]), b := Lst(x + [y])];
      ApplyAllShared(refs, State(was, was), [op]) == Merged(State(now, now))
  {
    SharedSnoc(refs, State(was, was), [], op);
    assert [] + [op] == [op];
    LeakGrows(refs, was, a, b, x, y, op);
    hide GrownDefines, GrownUser, OneList;
  }

  lemma {:induction false} LeakGrows(refs: map<string, Ref>, was: map<string, Val>, a: string, b: string,
                                     x: seq<Item>, y: Item, op: Op)
    requires a != b && OneList(refs, b, a)
    requires was == map[a := Lst(x), b := Lst(x)] && op == Op.Extend(a, [y])
    ensures GrownDefines(refs, was, op) == GrownUser(refs, [], was, op) == map[a := Lst(x + [y]), b := Lst(x + [y])]
  {}

  /** Extending the first of two keys that have one list also extends what the second shows, in both dictionaries. */
  method SharedListLeaks(a: string, b: string, x: seq<Item>, y: Item) returns (m: Merger, ok: bool)
    requires a != b
    ensures ok && m.Valid()
    ensures m.now.defines == m.now.user == map[a := Lst(x + [y]), b := Lst(x + [y])]
  {
    var shared := new PyList(x);
    var file := [Arg(a, ListRef(shared)), Arg(b, ListRef(shared))];
    ghost var vals, more := [Lst(x), Lst(x)], [Scalar(y)];
    LeakComesTo(a, b, x, y, ListRef(shared));
    assert [] + file == file && Sets(file, vals) == [Op.Set(a, Lst(x)), Op.Set(b, Lst(x))];
    assert Extends([Arg(a, ScalarRef(y))], more) == [Op.Extend(a, [y])];
    hide ApplyAll, ApplyAllShared, Sets, Extends, RefsAfter, Merger.Valid, LeaksAt;
    m, ok := MergeDefines(map[], [], file, [Arg(a, ScalarRef(y))], map[], vals, more);
  }
}
