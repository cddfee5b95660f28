/** A run that shows what `CacheGuarantees.ReaderSeesWinner` has to except: an evictor dies half-way
    through an entry, and a later `load` is handed what is left of it. */
module CacheCrash {
  import opened CacheEntries
  import opened CacheSafety
  import opened CacheRuns
  import opened Options

  const F := Item("f", "x")
  const A := User("a")
  /** `a` is stored and fills the cache; the store of `b` finds no room. */
  const FULL := Stored(Alone(5), "a", 0, 0, 0, {F}, 5)
  const STORING := Crowded(FULL, "b", 1, 1, 1, {}, 5)
  const EVICTING := Evicting("b", 1, 1, 5)
  const LOOP := Loop(5, 0, [])
  /** What the eviction of `a` leaves, without its info file and then without its one file. */
  const UNLISTED := Dir(0, "a", true, Some({F}), None)
  const EMPTIED := Dir(0, "a", true, Some({}), None)
  const BEGUN := Rewritten(Seized(STORING, 0), 0, UNLISTED, true)
  const TORN := With(Rewritten(BEGUN, 0, EMPTIED, false), EVICTING, Removing(LOOP, A, 0, 5, RmData))

  lemma ReachFull()
    ensures Reachable(false, FULL) == true
  {
    ReachAlone(false, 5);
    hide Reachable;
    StoreEnds(false, Alone(5), "a", 0, 0, 0, {F}, 5);
  }

  lemma ReadyToStore()
    ensures Ready(FULL, "b", 1, 1, 1) == true
  {}

  lemma ReachChosen()
    ensures Reachable(false, With(STORING, EVICTING, Pick(Loop(5, 0, [A])))) == true
  {
    ReachFull();
    ReadyToStore();
    hide Reachable, Ready;
    StoreCrowds(false, FULL, "b", 1, 1, 1, {}, 5, [A]);
  }

  lemma EntryIsThere()
    ensures Evictable(STORING, EVICTING, A, 0) == true
    ensures Present(STORING, A) && STORING.names[A] == 0 && DirAt(STORING, A) == Dir(0, "a", true, Some({F}), Some(5))
  {
    assert Anon(1) != A;
  }

  lemma ReachMeasured()
    ensures Reachable(false, With(Seized(STORING, 0), EVICTING, Removing(LOOP, A, 0, 5, RmInfo))) == true
  {
    ReachChosen();
    EntryIsThere();
    hide Reachable, With, Evictable;
    EvictionMeasures(false, STORING, EVICTING, 5, A, 0, 5);
  }

  lemma ReachTorn()
    ensures Reachable(false, TORN) == true
  {
    ReachMeasured();
    EntryIsThere();
    hide Reachable, With, Evictable;
    EvictionUnlists(false, Seized(STORING, 0), EVICTING, LOOP, A, 0, 5);
    assert Drifted(Seized(STORING, 0), A, 5) == Seized(STORING, 0);
    assert {F} - {F} == {};
    EvictionRewrites(false, BEGUN, EVICTING, Removing(LOOP, A, 0, 5, RmData), F, RmData, EMPTIED, false);
  }

  // It dies there, and process 1 loads `a`.

  const DEAD := TORN.(procs := map[], locks := map[], breaker := map[], damaged := {0}, leaked := 5)

  lemma Dies()
    ensures Crash(TORN, 0, DEAD)
  {
    assert TORN.breaker == map[0 := 0] && TORN.damaged == {};
    assert TORN.procs - {0} == map[];
    assert (map f | f in TORN.locks && f.pid != 0 :: TORN.locks[f]) == map[];
  }

  lemma ReachDead()
    ensures Reachable(false, LoadingAt(DEAD, Idle)) == true
  {
    ReachTorn();
    Dies();
    hide Reachable;
    ReachesBy(false, TORN, 0, DEAD);
    ReachesBy(false, DEAD, 1, LoadingAt(DEAD, Idle));
  }

  lemma LoadFindsIt()
    ensures LockFileAt(DEAD, A, 0) && LockFileAt(Shared(DEAD, 0), A, 0) && Compatible(DEAD, Fd(1, Main), Held(0, false))
    ensures DEAD.names[A] == 0 && DEAD.dirs[0] == EMPTIED && DEAD.written[0] == {F}
  {}

  const SERVED := LoadingAt(Shared(DEAD, 0), Reading("a", 0))

  lemma ReachServed()
    ensures Reachable(false, SERVED) == true
  {
    ReachDead();
    LoadFindsIt();
    hide Reachable, LoadingAt;
    LoadOpened(false, DEAD, "a", 0);
    LoadLocked(false, DEAD, "a", 0);
    LoadEnters(false, Shared(DEAD, 0), "a", 0);
  }

  /** A reachable state in which a process is inside `load("a")` and sees other data than the one
      store of `a` wrote: with a crash in `_rm_r_object`, reader safety fails. */
  lemma CrashBreaksReaders()
    ensures exists s: State, q: Pid ::
      Reachable(false, s) && q in s.procs && s.procs[q].pc == Reading("a", 0) && Present(s, User("a"))
          && !Complete(s, User("a"))
  {
    ReachServed();
    LoadFindsIt();
    assert SERVED.procs[1].pc == Reading("a", 0);
    assert F in {F};
    assert !Complete(SERVED, A);
  }
}
