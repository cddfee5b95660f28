/** `_remove_lru` when nobody else is around: what it removes, in which order, and when it stops. */
module LruEviction {
  import Counter = CacheSize

  /** An entry under `objects/`: the access time of its lock file, its total space, and whether some
      other open file holds a lock on it, as the caller does on its own anonymous entry. */
  datatype Entry = Entry(used: nat, space: nat, locked: bool)
  datatype ObjectInfo = ObjectInfo(name: string, lastUsed: nat)

  predicate Sorted(objs: seq<ObjectInfo>) {
    forall i, j :: 0 <= i < j < |objs| ==> objs[i].lastUsed <= objs[j].lastUsed
  }

  /** `sorted` is stable: an object goes behind those it ties with. */
  function Insert(objs: seq<ObjectInfo>, x: ObjectInfo): (r: seq<ObjectInfo>)
    requires Sorted(objs)
    ensures Sorted(r) && exists p :: 0 <= p <= |objs| && r == objs[..p] + [x] + objs[p..]
  {
    var p := Place(objs, x.lastUsed);
    SortedWith(objs, x, p);
    objs[..p] + [x] + objs[p..]
  }

  lemma SortedWith(objs: seq<ObjectInfo>, x: ObjectInfo, p: nat)
    requires Sorted(objs) && p <= |objs| && (p > 0 ==> objs[p - 1].lastUsed <= x.lastUsed)
    requires forall i :: p <= i < |objs| ==> x.lastUsed < objs[i].lastUsed
    ensures Sorted(objs[..p] + [x] + objs[p..])
  {
    var r := objs[..p] + [x] + objs[p..];
    forall i, j | 0 <= i < j < |r| ensures r[i].lastUsed <= r[j].lastUsed {
      assert r[i] == if i < p then objs[i] else if i == p then x else objs[i - 1];
      assert r[j] == if j < p then objs[j] else if j == p then x else objs[j - 1];
    }
  }

  function Place(objs: seq<ObjectInfo>, lastUsed: nat): (p: nat)
    ensures p <= |objs| && (p > 0 ==> objs[p - 1].lastUsed <= lastUsed)
    ensures forall i :: p <= i < |objs| ==> lastUsed < objs[i].lastUsed
  {
    if objs == [] || objs[|objs| - 1].lastUsed <= lastUsed then |objs| else Place(objs[..|objs| - 1], lastUsed)
  }

  predicate NamesOnce(objs: seq<ObjectInfo>) {
    forall i, j :: 0 <= i < j < |objs| ==> objs[i].name != objs[j].name
  }

  /** The objects of a listing, as they should appear: each exactly once, with its access time.  What has
      no lock file, such as a private file left behind, is no object. */
  predicate Lists(objs: seq<ObjectInfo>, names: seq<string>, entries: map<string, Entry>) {
    && NamesOnce(objs)
    && (forall o <- objs :: o.name in names && o.name in entries && o.lastUsed == entries[o.name].used)
    && (forall n <- names :: n in entries ==> ObjectInfo(n, entries[n].used) in objs)
  }

  /** Of two objects last used at the same time, that listed first comes first. */
  predicate TiesAsListed(objs: seq<ObjectInfo>, names: seq<string>) {
    forall i, j :: 0 <= i < j < |objs| && objs[i].lastUsed == objs[j].lastUsed ==>
      Before(objs[i].name, objs[j].name, names)
  }

  predicate Before(m: string, n: string, names: seq<string>) {
    exists a, b :: 0 <= a < b < |names| && names[a] == m && names[b] == n
  }

  lemma BeforeMore(m: string, n: string, names: seq<string>, last: string)
    ensures Before(m, n, names) ==> Before(m, n, names + [last])
    ensures m in names ==> Before(m, last, names + [last])
  {
    var more := names + [last];
    if a, b :| 0 <= a < b < |names| && names[a] == m && names[b] == n {
      assert more[a] == m && more[b] == n;
    }
    if m in names {
      var a :| 0 <= a < |names| && names[a] == m;
      assert more[a] == m && more[|names|] == last;
    }
  }

  lemma InsertTies(objs: seq<ObjectInfo>, x: ObjectInfo, names: seq<string>)
    requires Sorted(objs) && TiesAsListed(objs, names) && forall o <- objs :: o.name in names
    ensures TiesAsListed(Insert(objs, x), names + [x.name])
  {
    var p, r := Place(objs, x.lastUsed), Insert(objs, x);
    InsertPutsIn(objs, x);
    hide Insert, Before, Sorted;
    forall i, j | 0 <= i < j < |r| && r[i].lastUsed == r[j].lastUsed
      ensures Before(r[i].name, r[j].name, names + [x.name])
    {
      if j == p {
        assert r[i] == objs[i] && objs[i] in objs;
        BeforeMore(r[i].name, x.name, names, x.name);
      } else if i != p {
        BeforeMore(r[i].name, r[j].name, names, x.name);
      }
    }
  }

  lemma ListedMore(objs: seq<ObjectInfo>, names: seq<string>, last: string)
    requires TiesAsListed(objs, names)
    ensures TiesAsListed(objs, names + [last])
  {
    hide Before;
    forall i, j | 0 <= i < j < |objs| && objs[i].lastUsed == objs[j].lastUsed
      ensures Before(objs[i].name, objs[j].name, names + [last])
    {
      BeforeMore(objs[i].name, objs[j].name, names, last);
    }
  }

  lemma NoTies()
    ensures TiesAsListed([], [])
  {}

  /** `r` is `objs` with `x` put in at `p`. */
  predicate PutIn(objs: seq<ObjectInfo>, x: ObjectInfo, p: nat, r: seq<ObjectInfo>) {
    && p <= |objs| && |r| == |objs| + 1 && r[p] == x
    && (forall i :: 0 <= i < p ==> r[i] == objs[i])
    && (forall i :: p < i < |r| ==> r[i] == objs[i - 1])
  }

  lemma PutInMembers(objs: seq<ObjectInfo>, x: ObjectInfo, p: nat, r: seq<ObjectInfo>)
    requires PutIn(objs, x, p, r) == true
    ensures forall o :: o in r <==> o in objs || o == x
  {
    forall o | o in objs || o == x ensures o in r {
      if o in objs {
        var i :| 0 <= i < |objs| && objs[i] == o;
        assert r[if i < p then i else i + 1] == o;
      }
    }
  }

  lemma PutInOnce(objs: seq<ObjectInfo>, x: ObjectInfo, p: nat, r: seq<ObjectInfo>)
    requires PutIn(objs, x, p, r) == true && NamesOnce(objs)
    requires forall i :: 0 <= i < |objs| ==> objs[i].name != x.name
    ensures NamesOnce(r) == true
  {}

  lemma InsertLists(objs: seq<ObjectInfo>, names: seq<string>, entries: map<string, Entry>, n: string)
    requires n in entries && Sorted(objs) && Lists(objs, names, entries) && n !in names
    ensures Lists(Insert(objs, ObjectInfo(n, entries[n].used)), names + [n], entries) == true
  {
    var x := ObjectInfo(n, entries[n].used);
    var r := Insert(objs, x);
    InsertPutsIn(objs, x);
    hide Insert, Sorted, Place, PutIn;
    var p := Place(objs, x.lastUsed);
    PutInMembers(objs, x, p, r);
    forall i | 0 <= i < |objs| ensures objs[i].name != n { assert objs[i] in objs; }
    PutInOnce(objs, x, p, r);
    hide Lists, NamesOnce;
    ListsMore(objs, r, x, names, entries, n);
  }

  lemma InsertPutsIn(objs: seq<ObjectInfo>, x: ObjectInfo)
    requires Sorted(objs)
    ensures PutIn(objs, x, Place(objs, x.lastUsed), Insert(objs, x)) == true
  {
    var p := Place(objs, x.lastUsed);
    PutInAt(objs, x, p, objs[..p], objs[p..]);
  }

  lemma PutInAt(objs: seq<ObjectInfo>, x: ObjectInfo, p: nat, front: seq<ObjectInfo>, back: seq<ObjectInfo>)
    requires p <= |objs| && front == objs[..p] && back == objs[p..]
    ensures PutIn(objs, x, p, front + [x] + back) == true
  {
    var r := front + [x] + back;
    forall i | 0 <= i < p ensures r[i] == objs[i] {}
    forall i | p < i < |r| ensures r[i] == objs[i - 1] { assert r[i] == back[i - p - 1]; }
  }

  lemma ListsMore(objs: seq<ObjectInfo>, r: seq<ObjectInfo>, x: ObjectInfo, names: seq<string>,
                  entries: map<string, Entry>, n: string)
    requires n in entries && x == ObjectInfo(n, entries[n].used)
    requires Lists(objs, names, entries) && NamesOnce(r) && forall o :: o in r <==> o in objs || o == x
    ensures Lists(r, names + [n], entries) == true
  {
    hide NamesOnce;
    forall o | o in r ensures o.name in names + [n] && o.name in entries && o.lastUsed == entries[o.name].used {
      if o in objs { assert o.name in names; }
    }
    forall m | m in names + [n] && m in entries ensures ObjectInfo(m, entries[m].used) in r {
      if m in names { assert ObjectInfo(m, entries[m].used) in objs; }
    }
  }

  /** Space of the entries that can be evicted among the first `k` objects. */
  function Freed(objs: seq<ObjectInfo>, entries: map<string, Entry>, k: nat): nat
    requires k <= |objs| && forall o <- objs :: o.name in entries
  {
    if k == 0 then 0
    else Freed(objs, entries, k - 1) + (if entries[objs[k - 1].name].locked then 0 else entries[objs[k - 1].name].space)
  }

  /** The names evicted when the walk has passed the first `k` objects. */
  function Evicted(objs: seq<ObjectInfo>, entries: map<string, Entry>, k: nat): set<string>
    requires k <= |objs| && forall o <- objs :: o.name in entries
  {
    set i | 0 <= i < k && !entries[objs[i].name].locked :: objs[i].name
  }

  /** None of the evictions among the first `k` objects brought the total to `target`. */
  predicate NotYet(objs: seq<ObjectInfo>, entries: map<string, Entry>, k: nat, target: nat)
    requires k <= |objs| && forall o <- objs :: o.name in entries
  {
    forall m :: 0 < m <= k && !entries[objs[m - 1].name].locked ==> Freed(objs, entries, m) < target
  }

  /** The state of the walk before object `i`: `was` and `size0` are what it started from. */
  ghost predicate Walked(objs: seq<ObjectInfo>, was: map<string, Entry>, i: nat, entries: map<string, Entry>,
                         freed: nat, size0: nat, size: nat, target: nat)
  {
    && i <= |objs| && (forall o <- objs :: o.name in was)
    && NamesOnce(objs)
    && (forall o <- objs :: o.lastUsed == was[o.name].used)
    && entries == was - Evicted(objs, was, i)
    && freed == Freed(objs, was, i) && size == Counter.Apply(size0, 0 - freed)
  }

  lemma WalkStarts(objs: seq<ObjectInfo>, names: seq<string>, was: map<string, Entry>, size: nat, target: nat)
    requires Lists(objs, names, was)
    ensures Walked(objs, was, 0, was, 0, size, size, target) == true
    ensures (forall o <- objs :: o.name in was) && NotYet(objs, was, 0, target)
  {}

  lemma WalkOn(objs: seq<ObjectInfo>, was: map<string, Entry>, i: nat, entries: map<string, Entry>,
               freed: nat, size0: nat, size: nat, target: nat)
    requires Walked(objs, was, i, entries, freed, size0, size, target) && i < |objs|
    ensures var o := objs[i];
            && o.name in entries && entries[o.name] == was[o.name] && o.lastUsed == was[o.name].used
            && (entries[o.name].locked ==> Walked(objs, was, i + 1, entries, freed, size0, size, target) == true)
            && (!entries[o.name].locked ==>
                  var space := entries[o.name].space;
                  Walked(objs, was, i + 1, entries - {o.name}, freed + space,
                         size0, Counter.Apply(size, 0 - space), target) == true)
  {
    var name := objs[i].name;
    assert name !in Evicted(objs, was, i);
    assert Evicted(objs, was, i + 1) == Evicted(objs, was, i) + (if was[name].locked then {} else {name});
  }

  lemma NotYetAtAll(objs: seq<ObjectInfo>, was: map<string, Entry>, target: nat)
    requires forall o <- objs :: o.name in was
    ensures NotYet(objs, was, 0, target) == true
  {}

  lemma NotYetOn(objs: seq<ObjectInfo>, was: map<string, Entry>, i: nat, target: nat)
    requires i < |objs| && (forall o <- objs :: o.name in was) && NotYet(objs, was, i, target)
    requires was[objs[i].name].locked || Freed(objs, was, i + 1) < target
    ensures NotYet(objs, was, i + 1, target) == true
  {
    hide Freed;
  }

  lemma NotYetBefore(objs: seq<ObjectInfo>, was: map<string, Entry>, i: nat, target: nat)
    requires 0 < i <= |objs| && (forall o <- objs :: o.name in was) && NotYet(objs, was, i, target)
    ensures NotYet(objs, was, i - 1, target) == true
  {
    hide Freed;
  }

  lemma WalkedTo(objs: seq<ObjectInfo>, was: map<string, Entry>, i: nat, entries: map<string, Entry>,
                 freed: nat, size0: nat, size: nat, target: nat)
    requires Walked(objs, was, i, entries, freed, size0, size, target)
    ensures i <= |objs| && (forall o <- objs :: o.name in was)
    ensures entries == was - Evicted(objs, was, i) && freed == Freed(objs, was, i)
    ensures size == Counter.Apply(size0, 0 - freed)
  {}

  class Cache {
    var entries: map<string, Entry>
    var size: nat

    constructor (entries: map<string, Entry>, size: nat)
      ensures this.entries == entries && this.size == size
    {
      this.entries := entries;
      this.size := size;
    }

    /** `listing` is what `listdir` returns, in whatever order. */
    method LastUsedObjs(listing: seq<string>) returns (objs: seq<ObjectInfo>)
      requires Counter.Distinct(listing)
      ensures Sorted(objs) && Lists(objs, listing, entries) && TiesAsListed(objs, listing)
    {
      hide TiesAsListed;
      objs := [];
      assert TiesAsListed([], []) by { NoTies(); }
      for i := 0 to |listing|
        invariant Sorted(objs) && Lists(objs, listing[..i], entries) && TiesAsListed(objs, listing[..i])
      {
        assert listing[..i + 1] == listing[..i] + [listing[i]];
        assert listing[i] !in listing[..i];
        ListedMore(objs, listing[..i], listing[i]);
        if listing[i] in entries {
          InsertTies(objs, ObjectInfo(listing[i], entries[listing[i]].used), listing[..i]);
          InsertLists(objs, listing[..i], entries, listing[i]);
          objs := Insert(objs, ObjectInfo(listing[i], entries[listing[i]].used));
        }
      }
      assert listing[..|listing|] == listing;
    }

    /** The loop: walks the list until the target is met. */
    method Walk(list: seq<ObjectInfo>, target: nat) returns (freed: nat, k: nat)
      requires Walked(list, entries, 0, entries, 0, size, size, target) == true && forall o <- list :: o.name in entries
      modifies this
      ensures k <= |list| && Walked(list, old(entries), k, entries, freed, old(size), size, target) == true
      ensures k < |list| ==> freed >= target && k > 0 && !old(entries)[list[k - 1].name].locked
      ensures k > 0 ==> NotYet(list, old(entries), k - 1, target) == true
    {
      hide Walked, NotYet, Evicted, Freed, Counter.Apply;
      ghost var was, size0 := entries, size;
      freed, k := 0, 0;
      NotYetAtAll(list, was, target);
      while k < |list|
        invariant k <= |list| && Walked(list, was, k, entries, freed, size0, size, target) == true
        invariant NotYet(list, was, k, target) == true
      {
        WalkOn(list, was, k, entries, freed, size0, size, target);
        var name := list[k].name;
        if entries[name].locked || entries[name].used != list[k].lastUsed {
          NotYetOn(list, was, k, target);
          k := k + 1;
          continue;
        }
        var space: int := entries[name].space;
        entries := entries - {name};
        size := Counter.Apply(size, 0 - space);
        freed := freed + space;
        k := k + 1;
        WalkedTo(list, was, k, entries, freed, size0, size, target);
        if freed >= target {
          return;
        }
        NotYetOn(list, was, k - 1, target);
      }
      if k > 0 { NotYetBefore(list, was, k, target); }
    }

    method RemoveLru(listing: seq<string>, required: nat)
      returns (enough: bool, ghost objs: seq<ObjectInfo>, ghost k: nat)
      requires Counter.Distinct(listing) && forall n <- entries :: n in listing
      modifies this
      ensures Sorted(objs) && Lists(objs, listing, old(entries)) && k <= |objs|
      // exactly the unlocked entries among the first k, oldest first, are gone
      ensures entries == old(entries) - Evicted(objs, old(entries), k)
      // the walk ended because nothing was left, or with its last eviction having freed twice the request
      ensures k < |objs| ==>
        && Freed(objs, old(entries), k) >= 2 * required && k > 0
        && !old(entries)[objs[k - 1].name].locked
      ensures k > 0 ==> NotYet(objs, old(entries), k - 1, 2 * required) == true
      ensures size == Counter.Apply(old(size), 0 - Freed(objs, old(entries), k))
      ensures enough <==> Freed(objs, old(entries), k) > required
    {
      hide Walked, NotYet, Evicted, Freed, Counter.Apply;
      ghost var was, size0 := entries, size;
      var list := LastUsedObjs(listing);
      objs := list;
      WalkStarts(list, listing, was, size, required * 2);
      var freed, i := Walk(list, required * 2);
      WalkedTo(list, was, i, entries, freed, size0, size, required * 2);
      k := i;
      enough := freed > required;
    }
  }

  /** Least recently used first: whatever is evicted was last used no later than anything that
      is kept and could have been evicted. */
  lemma OldestFirst(objs: seq<ObjectInfo>, names: seq<string>, entries: map<string, Entry>, k: nat, gone: string,
                    kept: string)
    requires forall n <- entries :: n in names
    requires Sorted(objs) && Lists(objs, names, entries) && k <= |objs|
    requires gone in Evicted(objs, entries, k) && kept in entries && !entries[kept].locked
    requires kept !in Evicted(objs, entries, k)
    ensures entries[gone].used <= entries[kept].used && !entries[gone].locked
  {
    var i :| 0 <= i < k && objs[i].name == gone;
    assert ObjectInfo(kept, entries[kept].used) in objs;
    var j :| 0 <= j < |objs| && objs[j] == ObjectInfo(kept, entries[kept].used);
    assert j >= k;
  }
}
