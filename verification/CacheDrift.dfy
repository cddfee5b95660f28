/** A run that shows why `CacheAccounting.AccountingIsExact` ends where an eviction deducts more than the
    entry had accounted: the counter falls below what the cache holds, and the limit no longer bounds it. */
module CacheDrift {
  import opened CacheEntries
  import opened CacheSafety
  import opened CacheRuns
  import opened CacheAccounting
  import opened Options

  const A := User("a")
  /** `a` and `b` fill the cache; the store of `c` finds no room. */
  const ONE := Stored(Alone(5), "a", 0, 0, 0, {}, 2)
  const FULL := Stored(ONE, "b", 1, 1, 1, {}, 3)
  const STORING := Crowded(FULL, "c", 2, 2, 2, {}, 3)
  const EVICTING := Evicting("c", 2, 2, 3)
  const LOOP := Loop(3, 0, [])
  /** `a`, accounted as 2, measures 3 with its other files, and is removed. */
  const DRIFTED := STORING.(drift := -1)
  const GONE := Removed(DRIFTED, A)
  const LOWERED := GONE.(size := 2)

  lemma ReachFull()
    ensures Reachable(true, FULL) == true
  {
    ReachAlone(true, 5);
    hide Reachable;
    StoreEnds(true, Alone(5), "a", 0, 0, 0, {}, 2);
    StoreEnds(true, ONE, "b", 1, 1, 1, {}, 3);
  }

  lemma ReadyToStore()
    ensures Ready(FULL, "c", 2, 2, 2) == true
  {}

  lemma ReachChosen()
    ensures Reachable(true, With(STORING, EVICTING, Pick(Loop(3, 0, [A])))) == true
  {
    ReachFull();
    ReadyToStore();
    hide Reachable, Ready;
    StoreCrowds(true, FULL, "c", 2, 2, 2, {}, 3, [A]);
  }

  lemma EntryIsThere()
    ensures Evictable(STORING, EVICTING, A, 0) == true && STORING.breaker == map[] && STORING.size == 5
    ensures Present(STORING, A) && STORING.names[A] == 0 && DirAt(STORING, A) == Dir(0, "a", true, Some({}), Some(2))
  {
    assert Anon(2) != A;
  }

  lemma ReachMeasured()
    ensures Reachable(true, With(Seized(STORING, 0), EVICTING, Removing(LOOP, A, 0, 3, RmInfo))) == true
  {
    ReachChosen();
    EntryIsThere();
    hide Reachable, With, Evictable;
    EvictionMeasures(true, STORING, EVICTING, 3, A, 0, 3);
  }

  lemma ReachRemoved()
    ensures Reachable(true, With(Seized(GONE, 0), EVICTING, Deduct(LOOP, 0, 3))) == true
  {
    ReachMeasured();
    EntryIsThere();
    hide Reachable, With, Evictable;
    EvictionRemoves(true, Seized(STORING, 0), EVICTING, LOOP, A, 0, 3);
    assert Drifted(Seized(STORING, 0), A, 3) == Seized(DRIFTED, 0);
    assert Removed(Seized(DRIFTED, 0), A) == Seized(GONE, 0);
  }

  lemma ReachLowered()
    ensures Reachable(true, With(LOWERED, EVICTING, Pick(Loop(3, 3, [])))) == true
  {
    ReachRemoved();
    EntryIsThere();
    hide Reachable, With, Evictable;
    EvictionDeducts(true, Seized(GONE, 0), EVICTING, LOOP, 0, 3);
    assert Seized(GONE, 0).(size := 2) == Seized(LOWERED, 0);
    EvictionReleases(true, LOWERED, EVICTING, Loop(3, 3, []), 0);
  }

  // The store of `c` tries again and now finds room.

  const RETRYING := Retrying("c", 2, 2, 3)
  const BASE := Removed(FULL, A).(written := FULL.written[2 := {}], size := 2, drift := -1)
  const BARE := Dir(2, "c", true, Some({}), None)
  const FINAL := Building(BASE.(size := 5), 2, 2, 2, BARE.(info := Some(3)), Commit("c", 2, 2, 3))

  lemma SameState()
    ensures With(LOWERED, RETRYING, Off) == Building(BASE, 2, 2, 2, BARE, RETRYING)
  {
    CrowdedThenRemoved(FULL, "c", 2, 2, 2, {}, 3, "a", RETRYING);
    SameFields(STORING);
    hide Crowded, Removed;
    assert LOWERED == Removed(STORING, A).(size := 2, drift := -1);
  }

  lemma SameFields(s: State)
    requires Present(s, A)
    ensures Removed(s.(drift := -1), A) == Removed(s, A).(drift := -1)
  {}

  lemma ReachRetrying()
    ensures Reachable(true, Building(BASE, 2, 2, 2, BARE, RETRYING)) == true
  {
    ReachLowered();
    hide Reachable;
    EvictionEnds(true, LOWERED, EVICTING, Loop(3, 3, []));
    SameState();
  }

  lemma ReachReserved()
    ensures Reachable(true, Building(BASE.(size := 5), 2, 2, 2, BARE, PutInfo("c", 2, 2, 3))) == true
  {
    ReachRetrying();
    NotBreaking();
    hide Reachable, Building;
    Retries(true, BASE, "c", 2, 2, 2, BARE, 3);
  }

  lemma NotBreaking()
    ensures BASE.breaker == map[] && BASE.size == 2 && BASE.maximum == 5
  {}

  lemma ReachFinal()
    ensures Reachable(true, FINAL) == true
  {
    ReachReserved();
    NotBreaking();
    hide Reachable, Building;
    Vouches(true, BASE.(size := 5), "c", 2, 2, 2, {}, 3);
  }

  lemma FinalDirs()
    ensures FINAL.dirs.Keys == {0, 1, 2}
    ensures FINAL.dirs[0].info == None && FINAL.dirs[1].info == Some(3) && FINAL.dirs[2].info == Some(3)
  {}

  lemma SumOfThree(dirs: map<DirId, Dir>)
    requires dirs.Keys == {0, 1, 2}
    ensures Total(CommittedBy(dirs)) == Accounted(dirs[0]) + Accounted(dirs[1]) + Accounted(dirs[2])
  {
    assert CommittedBy(dirs) == map[0 := Accounted(dirs[0])][1 := Accounted(dirs[1])][2 := Accounted(dirs[2])];
    TotalPut(map[], 0, Accounted(dirs[0]));
    TotalPut(map[0 := Accounted(dirs[0])], 1, Accounted(dirs[1]));
    TotalPut(map[0 := Accounted(dirs[0])][1 := Accounted(dirs[1])], 2, Accounted(dirs[2]));
  }

  lemma CommittedIs()
    ensures Committed(FINAL) == 6
  {
    FinalDirs();
    hide CommittedBy, Total, Building, Removed;
    SumOfThree(FINAL.dirs);
  }

  /** The counter says less than the entries have accounted, and these are more than the limit allows. */
  ghost predicate Overfull(s: State) {
    s.drift < 0 && s.leaked == 0 && s.size < Committed(s) && 0 <= s.maximum < Committed(s)
  }

  /** A run without any crash in which one eviction deducts more than its entry had accounted, so that the cache
      ends up with more in it than its limit. */
  lemma DriftBreaksTheLimit()
    ensures exists run: seq<State> :: Run(run) && CrashFree(run) && Overfull(run[|run| - 1])
  {
    ReachFinal();
    CommittedIs();
    assert FINAL.size == 5 && FINAL.maximum == 5 && FINAL.drift == -1 && FINAL.leaked == 0;
    var run :| Run(run) && run[|run| - 1] == FINAL && CrashFree(run);
    assert Overfull(run[|run| - 1]);
  }
}
