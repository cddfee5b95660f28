/** Runs of the cache protocol, put together step by step. */
module CacheRuns {
  import opened CacheEntries
  import opened CacheSafety
  import opened Options

  ghost predicate CrashFree(run: seq<State>) {
    forall m, p :: 0 <= m < |run| - 1 && p in run[m].procs ==> !Crash(run[m], p, run[m + 1])
  }

  /** By some run; if `calm`, by one without a crash. */
  ghost predicate Reachable(calm: bool, s: State) {
    exists run :: Run(run) && run[|run| - 1] == s && (calm ==> CrashFree(run))
  }

  lemma Extend(calm: bool, s: State, s': State)
    requires Reachable(calm, s) && Step(s, s') && (calm ==> s.procs.Keys <= s'.procs.Keys)
    ensures Reachable(calm, s')
  {
    hide Step;
    var run :| Run(run) && run[|run| - 1] == s && (calm ==> CrashFree(run));
    var more := run + [s'];
    assert Run(more) && more[|more| - 1] == s';
    if calm {
      forall m, p | 0 <= m < |more| - 1 && p in more[m].procs ensures !Crash(more[m], p, more[m + 1]) {
        if m < |run| - 1 { assert more[m] == run[m] && more[m + 1] == run[m + 1]; }
      }
      assert CrashFree(more);
    }
  }

  lemma ReachesBy(calm: bool, s: State, p: Pid, s': State)
    requires Reachable(calm, s) == true && (Start(s, p, s') || (!calm && Crash(s, p, s')))
    ensures Reachable(calm, s') == true
  {
    assert StepOf(s, p, s');
    hide Reachable, StepOf;
    Extend(calm, s, s');
  }

  lemma Go(calm: bool, s: State, p: Pid, act: Act) returns (s': State)
    requires Reachable(calm, s) == true && PlanOf(s, p, act).Some?
    ensures Reachable(calm, s') == true && s' == Do(s, p, PlanOf(s, p, act).value)
  {
    s' := Do(s, p, PlanOf(s, p, act).value);
    assert Moves(s, p, act, s');
    assert StepOf(s, p, s');
    hide PlanOf, Do;
    Extend(calm, s, s');
  }

  lemma GoStore(calm: bool, s: State, p: Pid, act: Act) returns (s': State)
    requires Reachable(calm, s) == true && p in s.procs && StorePlan(s, p, s.procs[p], act).Some?
    ensures Reachable(calm, s') == true && s' == Do(s, p, StorePlan(s, p, s.procs[p], act).value)
  {
    hide StorePlan, CommitPlan, LoadPlan, VictimPlan, Do, Reachable;
    s' := Go(calm, s, p, act);
  }

  // Each action belongs to one part of the protocol.

  predicate OfStore(act: Act) {
    || act.StoreCall? || act.MakeLock? || act.MakeDirectory? || act.Link? || act.LinkAgain? || act.MakeDataDir?
        || act.Fill?
    || act.FillFails? || act.FillDone? || act.TooBig? || act.Reserve? || act.Full? || act.GiveUp? || act.WriteInfo?
  }

  predicate OfCommit(act: Act) {
    || act.RenameWins? || act.RenameLoses? || act.CheckGone? || act.CheckLeft? || act.UnlinkInfo? || act.Refunded?
    || act.Clean? || act.Close?
  }

  predicate OfLoad(act: Act) {
    || act.LoadCall? || act.LoadOpens? || act.LoadMiss? || act.LoadLocks? || act.LoadBusy? || act.LoadSame?
        || act.LoadRetry?
    || act.Touched?
  }

  lemma StoreActs(s: State, p: Pid, pr: Proc, act: Act)
    ensures StorePlan(s, p, pr, act).Some? ==> OfStore(act)
  {}

  lemma CommitActs(s: State, p: Pid, pr: Proc, act: Act)
    ensures CommitPlan(s, p, pr, act).Some? ==> OfCommit(act)
  {}

  lemma LoadActs(s: State, p: Pid, pr: Proc, act: Act)
    ensures LoadPlan(s, p, pr, act).Some? ==> OfLoad(act)
  {}

  lemma GoCommit(calm: bool, s: State, p: Pid, act: Act) returns (s': State)
    requires Reachable(calm, s) == true && p in s.procs && !OfStore(act) && CommitPlan(s, p, s.procs[p], act).Some?
    ensures Reachable(calm, s') == true && s' == Do(s, p, CommitPlan(s, p, s.procs[p], act).value)
  {
    hide StorePlan, CommitPlan, LoadPlan, VictimPlan, Do, Reachable, OfStore, OfCommit;
    StoreActs(s, p, s.procs[p], act);
    s' := Go(calm, s, p, act);
  }

  lemma GoLoad(calm: bool, s: State, p: Pid, act: Act) returns (s': State)
    requires Reachable(calm, s) == true && p in s.procs && !OfStore(act) && !OfCommit(act)
    requires LoadPlan(s, p, s.procs[p], act).Some?
    ensures Reachable(calm, s') == true && s' == Do(s, p, LoadPlan(s, p, s.procs[p], act).value)
  {
    hide StorePlan, CommitPlan, LoadPlan, VictimPlan, Do, Reachable, OfStore, OfCommit;
    StoreActs(s, p, s.procs[p], act);
    CommitActs(s, p, s.procs[p], act);
    s' := Go(calm, s, p, act);
  }

  lemma GoVictim(calm: bool, s: State, p: Pid, act: Act) returns (s': State)
    requires Reachable(calm, s) == true && p in s.procs && !OfStore(act) && !OfCommit(act) && !OfLoad(act)
    requires VictimPlan(s, p, s.procs[p], act).Some?
    ensures Reachable(calm, s') == true && s' == Do(s, p, VictimPlan(s, p, s.procs[p], act).value)
  {
    hide StorePlan, CommitPlan, LoadPlan, VictimPlan, Do, Reachable, OfStore, OfCommit, OfLoad;
    StoreActs(s, p, s.procs[p], act);
    CommitActs(s, p, s.procs[p], act);
    LoadActs(s, p, s.procs[p], act);
    s' := Go(calm, s, p, act);
  }

  // ---- one process in an empty cache ----

  function Fresh(maximum: int): State {
    State(map[], map[], map[], map[], 0, maximum, map[], map[], {}, {}, 0, 0)
  }

  function Alone(maximum: int): State {
    Fresh(maximum).(procs := map[0 := Proc(Idle, Off)])
  }

  lemma ReachAlone(calm: bool, maximum: int)
    ensures Reachable(calm, Alone(maximum)) == true
  {
    var s := Fresh(maximum);
    assert Run([s]) && [s][|[s]| - 1] == s;
    assert Reachable(calm, s);
    hide Reachable;
    ReachesBy(calm, s, 0, Alone(maximum));
  }

  // ---- a store by process 0, from the call to the end ----

  /** Its entry, still anonymous: `dir` is what the directory holds, `pc` where the store is. */
  function Building(s: State, ino: Ino, uuid: nat, id: DirId, dir: Dir, pc: Pc): State {
    s.(names := s.names[Anon(uuid) := id], dirs := s.dirs[id := dir], locks := s.locks[Fd(0, Main) := Held(ino, true)],
       procs := s.procs[0 := Proc(pc, Off)], used := s.used + {uuid})
  }

  /** Process 0 can store under a name that is free. */
  predicate Ready(s: State, key: string, ino: Ino, uuid: nat, id: DirId) {
    && 0 in s.procs && s.procs[0] == Proc(Idle, Off) && Fd(0, Main) !in s.locks && FreeIno(s, ino)
    && uuid !in s.used && Anon(uuid) !in s.names && id !in s.dirs && id !in s.breaker && User(key) !in s.names
  }

  lemma StoreBegins(calm: bool, s: State, key: string, ino: Ino, uuid: nat, id: DirId)
    requires Reachable(calm, s) == true && Ready(s, key, ino, uuid, id) == true
    ensures Reachable(calm, Building(s, ino, uuid, id, Dir(ino, key, false, None, None), LinkLock(key, ino, uuid)))
            == true
  {
    hide Reachable;
    var s1 := GoStore(calm, s, 0, StoreCall(key));
    assert s1 == s.(procs := s.procs[0 := Proc(Starting(key), Off)]);
    assert FreeIno(s1, ino);
    StoreLocks(calm, s, s1, key, ino, uuid, id);
  }

  lemma StoreLocks(calm: bool, s: State, s1: State, key: string, ino: Ino, uuid: nat, id: DirId)
    requires Reachable(calm, s1) == true && Ready(s, key, ino, uuid, id) && FreeIno(s1, ino)
    requires s1 == s.(procs := s.procs[0 := Proc(Starting(key), Off)])
    ensures Reachable(calm, Building(s, ino, uuid, id, Dir(ino, key, false, None, None), LinkLock(key, ino, uuid)))
            == true
  {
    hide Reachable, FreeIno;
    var s2 := GoStore(calm, s1, 0, MakeLock(ino));
    var s3 := GoStore(calm, s2, 0, MakeDirectory(uuid, id));
    assert s3 == Building(s, ino, uuid, id, Dir(ino, key, false, None, None), LinkLock(key, ino, uuid));
  }

  lemma Twice<K, V>(m: map<K, V>, k: K, v: V, w: V)
    ensures m[k := v][k := w] == m[k := w]
  {}

  lemma TakenBack<K, V>(m: map<K, V>, k: K, v: V)
    requires k !in m
    ensures m[k := v] - {k} == m
  {}

  lemma DoRewrites(s: State, ino: Ino, uuid: nat, id: DirId, dir: Dir, pc: Pc, next: Dir, to: Pc)
    requires id !in s.breaker
    ensures Do(Building(s, ino, uuid, id, dir, pc), 0,
               Plan(Main, Put(Anon(uuid), next, false, false), Proc(to, Off), s.size, 0, s.drift))
         == Building(s, ino, uuid, id, next, to)
  {
    Twice(s.dirs, id, dir, next);
    Twice(s.procs, 0, Proc(pc, Off), Proc(to, Off));
    assert s.breaker - {id} == s.breaker;
  }

  /** A step that rewrites the entry. */
  lemma Rewrites(calm: bool, s: State, ino: Ino, uuid: nat, id: DirId, dir: Dir, pc: Pc, act: Act, next: Dir, to: Pc)
    requires Reachable(calm, Building(s, ino, uuid, id, dir, pc)) == true && id !in s.breaker
    requires StorePlan(Building(s, ino, uuid, id, dir, pc), 0, Proc(pc, Off), act) ==
      Some(Plan(Main, Put(Anon(uuid), next, false, false), Proc(to, Off), s.size, 0, s.drift))
    ensures Reachable(calm, Building(s, ino, uuid, id, next, to)) == true
  {
    hide Reachable, StorePlan, Do;
    DoRewrites(s, ino, uuid, id, dir, pc, next, to);
    var s' := GoStore(calm, Building(s, ino, uuid, id, dir, pc), 0, act);
  }

  lemma DoPasses(s: State, ino: Ino, uuid: nat, id: DirId, dir: Dir, pc: Pc, size: nat, to: Pc)
    ensures Do(Building(s, ino, uuid, id, dir, pc), 0, Plan(Main, Nop, Proc(to, Off), size, 0, s.drift))
         == Building(s.(size := size), ino, uuid, id, dir, to)
  {
    Twice(s.procs, 0, Proc(pc, Off), Proc(to, Off));
  }

  /** A step that only goes on, perhaps with another size. */
  lemma Passes(calm: bool, s: State, ino: Ino, uuid: nat, id: DirId, dir: Dir, pc: Pc, act: Act, size: nat, to: Pc)
    requires Reachable(calm, Building(s, ino, uuid, id, dir, pc)) == true
    requires StorePlan(Building(s, ino, uuid, id, dir, pc), 0, Proc(pc, Off), act)
             == Some(Plan(Main, Nop, Proc(to, Off), size, 0, s.drift))
    ensures Reachable(calm, Building(s.(size := size), ino, uuid, id, dir, to)) == true
  {
    hide Reachable, StorePlan, Do;
    DoPasses(s, ino, uuid, id, dir, pc, size, to);
    var s' := GoStore(calm, Building(s, ino, uuid, id, dir, pc), 0, act);
  }

  lemma StoreLinks(calm: bool, s: State, key: string, ino: Ino, uuid: nat, id: DirId)
    requires Reachable(calm, s) == true && Ready(s, key, ino, uuid, id) == true
    ensures Reachable(calm, Building(s, ino, uuid, id, Dir(ino, key, true, Some({}), None), Filling(key, ino, uuid)))
            == true
  {
    StoreBegins(calm, s, key, ino, uuid, id);
    hide Reachable;
    var bare, linked := Dir(ino, key, false, None, None), Dir(ino, key, true, None, None);
    Rewrites(calm, s, ino, uuid, id, bare, LinkLock(key, ino, uuid), Link, linked, MakeData(key, ino, uuid));
    Rewrites(calm, s, ino, uuid, id, linked, MakeData(key, ino, uuid), MakeDataDir,
      linked.(data := Some({})), Filling(key, ino, uuid));
  }

  lemma StoreFills(calm: bool, s: State, key: string, ino: Ino, uuid: nat, id: DirId, data: set<Item>)
    requires Reachable(calm, s) == true && Ready(s, key, ino, uuid, id) == true
    ensures Reachable(calm, Building(s, ino, uuid, id, Dir(ino, key, true, Some(data), None), Filling(key, ino, uuid)))
            == true
  {
    StoreLinks(calm, s, key, ino, uuid, id);
    hide Reachable;
    var pc := Filling(key, ino, uuid);
    Rewrites(calm, s, ino, uuid, id, Dir(ino, key, true, Some({}), None), pc, Fill(data),
             Dir(ino, key, true, Some(data), None), pc);
  }

  lemma DoMeasures(s: State, ino: Ino, uuid: nat, id: DirId, dir: Dir, pc: Pc, data: set<Item>, to: Pc)
    requires id !in s.breaker && dir.data == Some(data)
    ensures Do(Building(s, ino, uuid, id, dir, pc), 0,
               Plan(Main, Put(Anon(uuid), dir, true, false), Proc(to, Off), s.size, 0, s.drift))
         == Building(s.(written := s.written[id := data]), ino, uuid, id, dir, to)
  {
    Twice(s.dirs, id, dir, dir);
    Twice(s.procs, 0, Proc(pc, Off), Proc(to, Off));
    assert s.breaker - {id} == s.breaker;
  }

  /** The caller is done, and the entry measured. */
  lemma StoreMeasures(calm: bool, s: State, key: string, ino: Ino, uuid: nat, id: DirId, data: set<Item>, size: nat)
    requires Reachable(calm, s) == true && Ready(s, key, ino, uuid, id) == true
    ensures Reachable(calm, Building(s.(written := s.written[id := data]), ino, uuid, id,
                               Dir(ino, key, true, Some(data), None),
                               Measured(key, ino, uuid, size))) == true
  {
    StoreFills(calm, s, key, ino, uuid, id, data);
    hide Reachable, Do;
    var dir, pc := Dir(ino, key, true, Some(data), None), Filling(key, ino, uuid);
    DoMeasures(s, ino, uuid, id, dir, pc, data, Measured(key, ino, uuid, size));
    var s1 := GoStore(calm, Building(s, ino, uuid, id, dir, pc), 0, FillDone(size));
  }

  lemma StorePlansReserve(s: State, ino: Ino, uuid: nat, id: DirId, dir: Dir, key: string, size: nat)
    requires s.maximum >= size && s.size + size <= s.maximum
    ensures StorePlan(Building(s, ino, uuid, id, dir, Measured(key, ino, uuid, size)), 0,
                      Proc(Measured(key, ino, uuid, size), Off), Reserve)
         == Some(Plan(Main, Nop, Proc(PutInfo(key, ino, uuid, size), Off), s.size + size, 0, s.drift))
  {}

  lemma StoreReserves(calm: bool, s: State, key: string, ino: Ino, uuid: nat, id: DirId, data: set<Item>, size: nat)
    requires Reachable(calm, s) == true && Ready(s, key, ino, uuid, id) == true
    requires s.maximum >= size && s.size + size <= s.maximum
    ensures Reachable(calm, Building(s.(written := s.written[id := data], size := s.size + size), ino, uuid, id,
                               Dir(ino, key, true, Some(data), None), PutInfo(key, ino, uuid, size))) == true
  {
    StoreMeasures(calm, s, key, ino, uuid, id, data, size);
    var was, dir := s.(written := s.written[id := data]), Dir(ino, key, true, Some(data), None);
    StorePlansReserve(was, ino, uuid, id, dir, key, size);
    hide Reachable, StorePlan, Ready;
    Passes(calm, was, ino, uuid, id, dir, Measured(key, ino, uuid, size), Reserve, s.size + size,
           PutInfo(key, ino, uuid, size));
  }

  /** The info file is written. */
  lemma Vouches(calm: bool, s: State, key: string, ino: Ino, uuid: nat, id: DirId, data: set<Item>, size: nat)
    requires Reachable(calm, Building(s, ino, uuid, id, Dir(ino, key, true, Some(data), None),
                                PutInfo(key, ino, uuid, size))) == true
    requires id !in s.breaker
    ensures Reachable(calm, Building(s, ino, uuid, id, Dir(ino, key, true, Some(data), Some(size)),
                               Commit(key, ino, uuid, size))) == true
  {
    hide Reachable;
    var dir := Dir(ino, key, true, Some(data), None);
    Rewrites(calm, s, ino, uuid, id, dir, PutInfo(key, ino, uuid, size), WriteInfo, dir.(info := Some(size)),
             Commit(key, ino, uuid, size));
  }

  lemma StoreVouches(calm: bool, s: State, key: string, ino: Ino, uuid: nat, id: DirId, data: set<Item>, size: nat)
    requires Reachable(calm, s) == true && Ready(s, key, ino, uuid, id) == true
    requires s.maximum >= size && s.size + size <= s.maximum
    ensures Reachable(calm, Building(s.(written := s.written[id := data], size := s.size + size), ino, uuid, id,
                               Dir(ino, key, true, Some(data), Some(size)), Commit(key, ino, uuid, size))) == true
  {
    StoreReserves(calm, s, key, ino, uuid, id, data, size);
    hide Reachable, Building;
    Vouches(calm, s.(written := s.written[id := data], size := s.size + size), key, ino, uuid, id, data, size);
  }

  /** A cache with one entry more. */
  function Stored(s: State, key: string, ino: Ino, uuid: nat, id: DirId, data: set<Item>, size: nat): State {
    s.(names := s.names[User(key) := id], dirs := s.dirs[id := Dir(ino, key, true, Some(data), Some(size))],
       written := s.written[id := data], size := s.size + size, used := s.used + {uuid})
  }

  /** The same, while the store still holds its lock. */
  function Leaving(s: State, key: string, ino: Ino, uuid: nat, id: DirId, data: set<Item>, size: nat, pc: Pc): State {
    Stored(s, key, ino, uuid, id, data, size).(locks := s.locks[Fd(0, Main) := Held(ino, true)],
                                               procs := s.procs[0 := Proc(pc, Off)])
  }

  lemma DoRenames(s: State, key: string, ino: Ino, uuid: nat, id: DirId, data: set<Item>, size: nat)
    requires Anon(uuid) !in s.names
    ensures Do(Building(s.(written := s.written[id := data], size := s.size + size), ino, uuid, id,
                        Dir(ino, key, true, Some(data), Some(size)), Commit(key, ino, uuid, size)),
               0, Plan(Main, Rename(uuid, key), Proc(Check(key, ino, uuid, size), Off), s.size + size, 0, s.drift))
         == Leaving(s, key, ino, uuid, id, data, size, Check(key, ino, uuid, size))
  {
    TakenBack(s.names, Anon(uuid), id);
    Twice(s.procs, 0, Proc(Commit(key, ino, uuid, size), Off), Proc(Check(key, ino, uuid, size), Off));
  }

  lemma CommitPlansRename(s: State, key: string, ino: Ino, uuid: nat, id: DirId, dir: Dir, size: nat)
    requires User(key) !in s.names
    ensures CommitPlan(Building(s, ino, uuid, id, dir, Commit(key, ino, uuid, size)), 0,
                       Proc(Commit(key, ino, uuid, size), Off), RenameWins)
         == Some(Plan(Main, Rename(uuid, key), Proc(Check(key, ino, uuid, size), Off), s.size, 0, s.drift))
  {}

  lemma StoreRenames(calm: bool, s: State, key: string, ino: Ino, uuid: nat, id: DirId, data: set<Item>, size: nat)
    requires Reachable(calm, s) == true && Ready(s, key, ino, uuid, id) == true
    requires s.maximum >= size && s.size + size <= s.maximum
    ensures Reachable(calm, Leaving(s, key, ino, uuid, id, data, size, Check(key, ino, uuid, size))) == true
  {
    StoreVouches(calm, s, key, ino, uuid, id, data, size);
    DoRenames(s, key, ino, uuid, id, data, size);
    var now, dir := s.(written := s.written[id := data], size := s.size + size),
        Dir(ino, key, true, Some(data), Some(size));
    CommitPlansRename(now, key, ino, uuid, id, dir, size);
    hide Reachable, Do, CommitPlan;
    var s1 := GoCommit(calm, Building(now, ino, uuid, id, dir, Commit(key, ino, uuid, size)), 0, RenameWins);
  }

  lemma DoLeaves(s: State, key: string, ino: Ino, uuid: nat, id: DirId, data: set<Item>, size: nat, pc: Pc, to: Pc)
    ensures Do(Leaving(s, key, ino, uuid, id, data, size, pc), 0,
               Plan(Main, Nop, Proc(to, Off), s.size + size, 0, s.drift))
         == Leaving(s, key, ino, uuid, id, data, size, to)
  {
    Twice(s.procs, 0, Proc(pc, Off), Proc(to, Off));
  }

  lemma DoCloses(s: State, key: string, ino: Ino, uuid: nat, id: DirId, data: set<Item>, size: nat, pc: Pc)
    requires 0 in s.procs && s.procs[0] == Proc(Idle, Off) && Fd(0, Main) !in s.locks
    ensures Do(Leaving(s, key, ino, uuid, id, data, size, pc), 0,
               Plan(Main, Drop, Proc(Idle, Off), s.size + size, 0, s.drift))
         == Stored(s, key, ino, uuid, id, data, size)
  {
    TakenBack(s.locks, Fd(0, Main), Held(ino, true));
    Twice(s.procs, 0, Proc(pc, Off), Proc(Idle, Off));
    assert s.procs[0 := Proc(Idle, Off)] == s.procs;
  }

  lemma StoreLeaves(calm: bool, s: State, key: string, ino: Ino, uuid: nat, id: DirId, data: set<Item>, size: nat)
    requires Reachable(calm, s) == true && Ready(s, key, ino, uuid, id) == true
    requires s.maximum >= size && s.size + size <= s.maximum
    ensures Reachable(calm, Leaving(s, key, ino, uuid, id, data, size, Closing(ino))) == true
  {
    StoreRenames(calm, s, key, ino, uuid, id, data, size);
    var at := Leaving(s, key, ino, uuid, id, data, size, Check(key, ino, uuid, size));
    assert Anon(uuid) !in at.names;
    DoLeaves(s, key, ino, uuid, id, data, size, Check(key, ino, uuid, size), Closing(ino));
    hide Reachable, Do, Ready;
    var s1 := GoCommit(calm, at, 0, CheckGone);
  }

  lemma StoreEnds(calm: bool, s: State, key: string, ino: Ino, uuid: nat, id: DirId, data: set<Item>, size: nat)
    requires Reachable(calm, s) == true && Ready(s, key, ino, uuid, id) == true
    requires s.maximum >= size && s.size + size <= s.maximum
    ensures Reachable(calm, Stored(s, key, ino, uuid, id, data, size)) == true
  {
    StoreLeaves(calm, s, key, ino, uuid, id, data, size);
    DoCloses(s, key, ino, uuid, id, data, size, Closing(ino));
    hide Reachable, Do, Ready;
    var s1 := GoCommit(calm, Leaving(s, key, ino, uuid, id, data, size, Closing(ino)), 0, Close);
  }

  // ---- an eviction within a store of process 0 ----

  function With(s: State, pc: Pc, v: VictimPc): State {
    s.(procs := s.procs[0 := Proc(pc, v)])
  }

  /** The store of an entry that the cache has no room for. */
  function Crowded(s: State, key: string, ino: Ino, uuid: nat, id: DirId, data: set<Item>, size: nat): State {
    Building(s.(written := s.written[id := data]), ino, uuid, id, Dir(ino, key, true, Some(data), None),
             Evicting(key, ino, uuid, size))
  }

  lemma StorePlansEviction(s: State, key: string, ino: Ino, uuid: nat, id: DirId, dir: Dir, size: nat, todo: seq<Name>)
    requires size <= s.maximum < s.size + size && 0 < size
    ensures StorePlan(Building(s, ino, uuid, id, dir, Measured(key, ino, uuid, size)), 0,
                      Proc(Measured(key, ino, uuid, size), Off), Full(todo))
         == Some(Plan(Main, Nop, Proc(Evicting(key, ino, uuid, size), Pick(Loop(size, 0, todo))), s.size, 0, s.drift))
  {}

  lemma StoreCrowds(calm: bool, s: State, key: string, ino: Ino, uuid: nat, id: DirId, data: set<Item>, size: nat,
                    todo: seq<Name>)
    requires Reachable(calm, s) == true && Ready(s, key, ino, uuid, id) == true
    requires size <= s.maximum < s.size + size && 0 < size
    ensures Reachable(calm, With(Crowded(s, key, ino, uuid, id, data, size), Evicting(key, ino, uuid, size),
                           Pick(Loop(size, 0, todo)))) == true
  {
    StoreMeasures(calm, s, key, ino, uuid, id, data, size);
    var was, dir := s.(written := s.written[id := data]), Dir(ino, key, true, Some(data), None);
    StorePlansEviction(was, key, ino, uuid, id, dir, size, todo);
    hide Reachable, StorePlan, Ready;
    var s1 := GoStore(calm, Building(was, ino, uuid, id, dir, Measured(key, ino, uuid, size)), 0, Full(todo));
    Twice(s.procs, 0, Proc(Measured(key, ino, uuid, size), Off),
          Proc(Evicting(key, ino, uuid, size), Pick(Loop(size, 0, todo))));
    Twice(s.procs, 0, Proc(Evicting(key, ino, uuid, size), Off),
          Proc(Evicting(key, ino, uuid, size), Pick(Loop(size, 0, todo))));
  }

  predicate OfVictim(act: Act) {
    !OfStore(act) && !OfCommit(act) && !OfLoad(act)
  }

  /** A step of the eviction: `s` without the process, before and after. */
  lemma Evicts(calm: bool, s: State, pc: Pc, v: VictimPc, act: Act, s': State, plan: Plan)
    requires Reachable(calm, With(s, pc, v)) == true && OfVictim(act) == true
    requires VictimPlan(With(s, pc, v), 0, Proc(pc, v), act) == Some(plan)
    requires Do(With(s, pc, v), 0, plan) == s'
    ensures Reachable(calm, s') == true
  {
    hide Reachable, VictimPlan, Do;
    var t := GoVictim(calm, With(s, pc, v), 0, act);
  }

  lemma DoVictimPasses(s: State, pc: Pc, v: VictimPc, to: VictimPc, size: nat)
    ensures Do(With(s, pc, v), 0, Plan(Victim, Nop, Proc(pc, to), size, 0, s.drift)) == With(s.(size := size), pc, to)
  {
    Twice(s.procs, 0, Proc(pc, v), Proc(pc, to));
  }

  /** A step that touches nothing on disk. */
  lemma VictimPasses(calm: bool, s: State, pc: Pc, v: VictimPc, act: Act, to: VictimPc)
    requires Reachable(calm, With(s, pc, v)) == true && OfVictim(act) == true
    requires VictimPlan(With(s, pc, v), 0, Proc(pc, v), act)
             == Some(Plan(Victim, Nop, Proc(pc, to), s.size, 0, s.drift))
    ensures Reachable(calm, With(s, pc, to)) == true
  {
    DoVictimPasses(s, pc, v, to, s.size);
    hide Reachable, VictimPlan, Do, OfVictim;
    Evicts(calm, s, pc, v, act, With(s, pc, to), Plan(Victim, Nop, Proc(pc, to), s.size, 0, s.drift));
  }

  /** `s` with the lock on the entry to evict. */
  function Seized(s: State, ino: Ino): State {
    s.(locks := s.locks[Fd(0, Victim) := Held(ino, true)])
  }

  predicate Evictable(s: State, pc: Pc, name: Name, ino: Ino) {
    && pc.Evicting? && 0 in s.procs && LockFileAt(s, name, ino)
    && Compatible(s, Fd(0, Victim), Held(ino, true)) && Fd(0, Victim) !in s.locks
  }

  lemma EvictionOpens(calm: bool, s: State, pc: Pc, required: nat, name: Name, ino: Ino)
    requires Reachable(calm, With(s, pc, Pick(Loop(required, 0, [name])))) == true && Evictable(s, pc, name, ino)
    ensures Reachable(calm, With(s, pc, VLock(Loop(required, 0, []), name, ino))) == true
  {
    hide Reachable;
    assert [name][1..] == [];
    var loop := Loop(required, 0, []);
    VictimPasses(calm, s, pc, Pick(Loop(required, 0, [name])), PickNext, VOpen(loop, name));
    VictimPasses(calm, s, pc, VOpen(loop, name), VOpens(ino), VLock(loop, name, ino));
  }

  lemma EvictionLocks(calm: bool, s: State, pc: Pc, required: nat, name: Name, ino: Ino)
    requires Reachable(calm, With(s, pc, Pick(Loop(required, 0, [name])))) == true && Evictable(s, pc, name, ino)
    ensures Reachable(calm, With(Seized(s, ino), pc, VStat(Loop(required, 0, []), name, ino))) == true
  {
    EvictionOpens(calm, s, pc, required, name, ino);
    var loop := Loop(required, 0, []);
    Twice(s.procs, 0, Proc(pc, VLock(loop, name, ino)), Proc(pc, VStat(loop, name, ino)));
    hide Reachable;
    Evicts(calm, s, pc, VLock(loop, name, ino), VLocks, With(Seized(s, ino), pc, VStat(loop, name, ino)),
      Plan(Victim, Acquire(Held(ino, true)), Proc(pc, VStat(loop, name, ino)), s.size, 0, s.drift));
  }

  /** The lock is on the right file. */
  lemma VictimStats(calm: bool, s: State, pc: Pc, loop: Loop, name: Name, ino: Ino)
    requires Reachable(calm, With(s, pc, VStat(loop, name, ino))) == true && pc.Evicting? && LockFileAt(s, name, ino)
    ensures Reachable(calm, With(s, pc, Atime(loop, name, ino))) == true
  {
    hide Reachable;
    VictimPasses(calm, s, pc, VStat(loop, name, ino), VSame, Atime(loop, name, ino));
  }

  lemma VictimGoesOn(calm: bool, s: State, pc: Pc, loop: Loop, name: Name, ino: Ino)
    requires Reachable(calm, With(s, pc, Atime(loop, name, ino))) == true && pc.Evicting?
    ensures Reachable(calm, With(s, pc, Measure(loop, name, ino))) == true
  {
    hide Reachable;
    VictimPasses(calm, s, pc, Atime(loop, name, ino), VProceed, Measure(loop, name, ino));
  }

  lemma EvictionProceeds(calm: bool, s: State, pc: Pc, required: nat, name: Name, ino: Ino)
    requires Reachable(calm, With(s, pc, Pick(Loop(required, 0, [name])))) == true && Evictable(s, pc, name, ino)
    ensures Reachable(calm, With(Seized(s, ino), pc, Measure(Loop(required, 0, []), name, ino))) == true
  {
    EvictionLocks(calm, s, pc, required, name, ino);
    hide Reachable, With;
    VictimStats(calm, Seized(s, ino), pc, Loop(required, 0, []), name, ino);
    VictimGoesOn(calm, Seized(s, ino), pc, Loop(required, 0, []), name, ino);
  }

  /** The measured size is what the eviction will deduct. */
  lemma VictimMeasures(calm: bool, s: State, pc: Pc, loop: Loop, name: Name, ino: Ino, size: nat)
    requires Reachable(calm, With(s, pc, Measure(loop, name, ino))) == true && pc.Evicting? && Present(s, name)
    ensures Reachable(calm, With(s, pc, Removing(loop, name, ino, size, RmCheck))) == true
  {
    hide Reachable;
    VictimPasses(calm, s, pc, Measure(loop, name, ino), VMeasure(size), Removing(loop, name, ino, size, RmCheck));
  }

  lemma VictimChecks(calm: bool, s: State, pc: Pc, loop: Loop, name: Name, ino: Ino, size: nat)
    requires Reachable(calm, With(s, pc, Removing(loop, name, ino, size, RmCheck))) == true && pc.Evicting?
    requires Present(s, name)
    ensures Reachable(calm, With(s, pc, Removing(loop, name, ino, size, RmInfo))) == true
  {
    hide Reachable;
    VictimPasses(calm, s, pc, Removing(loop, name, ino, size, RmCheck), VClean(Item("", "")),
                 Removing(loop, name, ino, size, RmInfo));
  }

  lemma EvictionMeasures(calm: bool, s: State, pc: Pc, required: nat, name: Name, ino: Ino, size: nat)
    requires Reachable(calm, With(s, pc, Pick(Loop(required, 0, [name])))) == true && Evictable(s, pc, name, ino)
    requires Present(s, name)
    ensures Reachable(calm, With(Seized(s, ino), pc, Removing(Loop(required, 0, []), name, ino, size, RmInfo))) == true
  {
    EvictionProceeds(calm, s, pc, required, name, ino);
    hide Reachable, With;
    VictimMeasures(calm, Seized(s, ino), pc, Loop(required, 0, []), name, ino, size);
    VictimChecks(calm, Seized(s, ino), pc, Loop(required, 0, []), name, ino, size);
  }

  /** `s` with the directory rewritten by its evictor. */
  function Rewritten(s: State, d: DirId, dir: Dir, breaks: bool): State {
    s.(dirs := s.dirs[d := dir],
       breaker := if breaks then s.breaker[d := 0] else if dir.linked then s.breaker else s.breaker - {d})
  }

  /** `s` after an eviction that measured the entry as `size`. */
  function Drifted(s: State, name: Name, size: nat): State
    requires Present(s, name)
  {
    s.(drift := s.drift + Accounted(DirAt(s, name)) - size)
  }

  /** The info file goes first. */
  lemma EvictionUnlists(calm: bool, s: State, pc: Pc, loop: Loop, name: Name, ino: Ino, size: nat)
    requires Reachable(calm, With(s, pc, Removing(loop, name, ino, size, RmInfo))) == true && pc.Evicting?
    requires Present(s, name)
    ensures Reachable(calm,
                      With(Rewritten(Drifted(s, name, size), s.names[name], DirAt(s, name).(info := None), true), pc,
                                 Removing(loop, name, ino, size, RmData))) == true
  {
    hide Reachable;
    var v, next := Removing(loop, name, ino, size, RmInfo), Removing(loop, name, ino, size, RmData);
    var dir, t := DirAt(s, name).(info := None), Drifted(s, name, size);
    Twice(s.procs, 0, Proc(pc, v), Proc(pc, next));
    Evicts(calm, s, pc, v, VClean(Item("", "")), With(Rewritten(t, s.names[name], dir, true), pc, next),
      Plan(Victim, Put(name, dir, false, true), Proc(pc, next), s.size, 0, t.drift));
  }

  /** A further step of `_rm_r_object` that rewrites the entry. */
  lemma EvictionRewrites(calm: bool, s: State, pc: Pc, v: VictimPc, item: Item, to: Rm, dir: Dir, breaks: bool)
    requires Reachable(calm, With(s, pc, v)) == true && pc.Evicting? && v.Removing? && !RmFails(s, v.name, v.step)
    requires !v.step.RmInfo? && Present(s, v.name)
    requires RmStep(s, v.name, v.step, item, true) == (Put(v.name, dir, false, breaks), Some(to))
    ensures Reachable(calm, With(Rewritten(s, s.names[v.name], dir, breaks), pc, v.(step := to))) == true
  {
    hide Reachable;
    var next := v.(step := to);
    Twice(s.procs, 0, Proc(pc, v), Proc(pc, next));
    Evicts(calm, s, pc, v, VClean(item), With(Rewritten(s, s.names[v.name], dir, breaks), pc, next),
      Plan(Victim, Put(v.name, dir, false, breaks), Proc(pc, next), s.size, 0, s.drift));
  }

  /** The entry goes, and the size is adjusted next. */
  lemma EvictionEmpties(calm: bool, s: State, pc: Pc, loop: Loop, name: Name, ino: Ino, size: nat)
    requires Reachable(calm, With(s, pc, Removing(loop, name, ino, size, RmDir))) == true && pc.Evicting?
    requires Present(s, name) && DirAt(s, name).Empty()
    ensures Reachable(calm, With(s.(names := s.names - {name}), pc, Deduct(loop, ino, size))) == true
  {
    hide Reachable;
    var v, to := Removing(loop, name, ino, size, RmDir), Deduct(loop, ino, size);
    Twice(s.procs, 0, Proc(pc, v), Proc(pc, to));
    Evicts(calm, s, pc, v, VClean(Item("", "")), With(s.(names := s.names - {name}), pc, to),
      Plan(Victim, Rmdir(name), Proc(pc, to), s.size, 0, s.drift));
  }

  /** `s` without an entry: its directory is there no more under any name, with nothing in it. */
  function Removed(s: State, name: Name): State
    requires Present(s, name)
  {
    s.(names := s.names - {name},
       dirs := s.dirs[s.names[name] := Dir(DirAt(s, name).key, DirAt(s, name).title, false, None, None)])
  }

  lemma RewrittenLast(s: State, name: Name, dir: Dir)
    requires Present(s, name) && s.names[name] !in s.breaker && DirAt(s, name).linked
    requires dir == DirAt(s, name).(linked := false, data := None, info := None)
    ensures var d, was := s.names[name], DirAt(s, name);
      var s1 := Rewritten(s, d, was.(info := None), true);
      var s2 := Rewritten(s1, d, was.(info := None, data := None), false);
      Rewritten(s2, d, dir, false).(names := s.names - {name}) == Removed(s, name)
  {
    var d, was := s.names[name], DirAt(s, name);
    var unlisted, bare := was.(info := None), was.(info := None, data := None);
    Twice(s.dirs, d, unlisted, bare);
    Twice(s.dirs, d, bare, dir);
    TakenBack(s.breaker, d, 0);
  }

  /** An entry without files is taken apart: info file, `data/`, lock file and directory. */
  lemma EvictionRemoves(calm: bool, s: State, pc: Pc, loop: Loop, name: Name, ino: Ino, size: nat)
    requires Reachable(calm, With(s, pc, Removing(loop, name, ino, size, RmInfo))) == true && pc.Evicting?
    requires Present(s, name) && s.names[name] !in s.breaker && DirAt(s, name).linked && DirAt(s, name).data == Some({})
    ensures Reachable(calm, With(Removed(Drifted(s, name, size), name), pc, Deduct(loop, ino, size))) == true
  {
    hide Reachable, With;
    var t := Drifted(s, name, size);
    var d, was, none := s.names[name], DirAt(s, name), Item("", "");
    var unlisted, bare, dir := was.(info := None), was.(info := None, data := None),
        was.(info := None, data := None, linked := false);
    var s1 := Rewritten(t, d, unlisted, true);
    var s2 := Rewritten(s1, d, bare, false);
    var s3 := Rewritten(s2, d, dir, false);
    EvictionUnlists(calm, s, pc, loop, name, ino, size);
    EvictionRewrites(calm, s1, pc, Removing(loop, name, ino, size, RmData), none, RmLock, bare, false);
    EvictionRewrites(calm, s2, pc, Removing(loop, name, ino, size, RmLock), none, RmDir, dir, false);
    EvictionEmpties(calm, s3, pc, loop, name, ino, size);
    RewrittenLast(t, name, dir);
  }

  lemma EvictionDeducts(calm: bool, s: State, pc: Pc, loop: Loop, ino: Ino, size: nat)
    requires Reachable(calm, With(s, pc, Deduct(loop, ino, size))) == true && pc.Evicting?
    requires size <= s.size && loop.freed + size < 2 * loop.required
    ensures Reachable(calm, With(s.(size := s.size - size), pc, Release(loop.(freed := loop.freed + size), ino, Next)))
            == true
  {
    hide Reachable;
    var v, to := Deduct(loop, ino, size), Release(loop.(freed := loop.freed + size), ino, Next);
    DoVictimPasses(s, pc, v, to, s.size - size);
    Evicts(calm, s, pc, v, VDeduct, With(s.(size := s.size - size), pc, to),
      Plan(Victim, Nop, Proc(pc, to), s.size - size, 0, s.drift));
  }

  lemma EvictionReleases(calm: bool, s: State, pc: Pc, loop: Loop, ino: Ino)
    requires Reachable(calm, With(Seized(s, ino), pc, Release(loop, ino, Next))) == true && pc.Evicting?
    requires Fd(0, Victim) !in s.locks
    ensures Reachable(calm, With(s, pc, Pick(loop))) == true
  {
    hide Reachable;
    TakenBack(s.locks, Fd(0, Victim), Held(ino, true));
    Twice(s.procs, 0, Proc(pc, Release(loop, ino, Next)), Proc(pc, Pick(loop)));
    Evicts(calm, Seized(s, ino), pc, Release(loop, ino, Next), VRelease, With(s, pc, Pick(loop)),
      Plan(Victim, Drop, Proc(pc, Pick(loop)), s.size, 0, s.drift));
  }

  lemma EvictionEnds(calm: bool, s: State, pc: Pc, loop: Loop)
    requires Reachable(calm, With(s, pc, Pick(loop))) == true && pc.Evicting? && loop.todo == []
    ensures Reachable(calm, With(s, Retrying(pc.title, pc.ino, pc.uuid, pc.size), Off)) == true
  {
    hide Reachable;
    var to := Retrying(pc.title, pc.ino, pc.uuid, pc.size);
    Twice(s.procs, 0, Proc(pc, Pick(loop)), Proc(to, Off));
    Evicts(calm, s, pc, Pick(loop), PickEnd, With(s, to, Off), Plan(Victim, Nop, Proc(to, Off), s.size, 0, s.drift));
  }

  lemma Swaps<K, V>(m: map<K, V>, k: K, v: V, j: K, w: V)
    requires k != j
    ensures m[k := v] - {j} == (m - {j})[k := v] && m[k := v][j := w] == m[j := w][k := v]
  {}

  /** The store goes on in a cache that an entry is gone from. */
  lemma CrowdedThenRemoved(s: State, key: string, ino: Ino, uuid: nat, id: DirId, data: set<Item>, size: nat,
                           title: string, pc: Pc)
    requires Present(s, User(title)) && s.names[User(title)] != id
    ensures var t := Removed(s, User(title)).(written := s.written[id := data]);
      With(Removed(Crowded(s, key, ino, uuid, id, data, size), User(title)), pc, Off)
      == Building(t, ino, uuid, id, Dir(ino, key, true, Some(data), None), pc)
  {
    var d := s.names[User(title)];
    Swaps(s.names, Anon(uuid), id, User(title), id);
    Swaps(s.dirs, id, Dir(ino, key, true, Some(data), None), d, Dir(s.dirs[d].key, s.dirs[d].title, false, None, None));
    Twice(s.procs, 0, Proc(Evicting(key, ino, uuid, size), Off), Proc(pc, Off));
  }

  /** The second reservation. */
  lemma Retries(calm: bool, s: State, key: string, ino: Ino, uuid: nat, id: DirId, dir: Dir, size: nat)
    requires Reachable(calm, Building(s, ino, uuid, id, dir, Retrying(key, ino, uuid, size))) == true
    requires s.size + size <= s.maximum
    ensures Reachable(calm, Building(s.(size := s.size + size), ino, uuid, id, dir, PutInfo(key, ino, uuid, size)))
            == true
  {
    hide Reachable;
    Passes(calm, s, ino, uuid, id, dir, Retrying(key, ino, uuid, size), Reserve, s.size + size,
           PutInfo(key, ino, uuid, size));
  }

  // ---- a load by process 1 ----

  function LoadingAt(s: State, pc: Pc): State {
    s.(procs := s.procs[1 := Proc(pc, Off)])
  }

  function Shared(s: State, ino: Ino): State {
    s.(locks := s.locks[Fd(1, Main) := Held(ino, false)])
  }

  lemma DoLoadPasses(s: State, pc: Pc, to: Pc)
    ensures Do(LoadingAt(s, pc), 1, Plan(Main, Nop, Proc(to, Off), s.size, 0, s.drift)) == LoadingAt(s, to)
  {
    Twice(s.procs, 1, Proc(pc, Off), Proc(to, Off));
  }

  lemma LoadPasses(calm: bool, s: State, pc: Pc, act: Act, to: Pc)
    requires Reachable(calm, LoadingAt(s, pc)) == true && OfLoad(act)
    requires LoadPlan(LoadingAt(s, pc), 1, Proc(pc, Off), act)
             == Some(Plan(Main, Nop, Proc(to, Off), s.size, 0, s.drift))
    ensures Reachable(calm, LoadingAt(s, to)) == true
  {
    DoLoadPasses(s, pc, to);
    hide Reachable, LoadPlan, Do;
    var t := GoLoad(calm, LoadingAt(s, pc), 1, act);
  }

  lemma LoadOpened(calm: bool, s: State, key: string, ino: Ino)
    requires Reachable(calm, LoadingAt(s, Idle)) == true && LockFileAt(s, User(key), ino)
    ensures Reachable(calm, LoadingAt(s, LoadLock(key, ino))) == true
  {
    hide Reachable;
    LoadPasses(calm, s, Idle, LoadCall(key), LoadOpen(key));
    LoadPasses(calm, s, LoadOpen(key), LoadOpens(ino), LoadLock(key, ino));
  }

  lemma LoadLocked(calm: bool, s: State, key: string, ino: Ino)
    requires Reachable(calm, LoadingAt(s, LoadLock(key, ino))) == true && Compatible(s, Fd(1, Main), Held(ino, false))
    ensures Reachable(calm, LoadingAt(Shared(s, ino), LoadStat(key, ino))) == true
  {
    hide Reachable;
    Twice(s.procs, 1, Proc(LoadLock(key, ino), Off), Proc(LoadStat(key, ino), Off));
    var t := GoLoad(calm, LoadingAt(s, LoadLock(key, ino)), 1, LoadLocks);
  }

  lemma LoadEnters(calm: bool, s: State, key: string, ino: Ino)
    requires Reachable(calm, LoadingAt(s, LoadStat(key, ino))) == true && LockFileAt(s, User(key), ino)
    ensures Reachable(calm, LoadingAt(s, Reading(key, ino))) == true
  {
    hide Reachable;
    LoadPasses(calm, s, LoadStat(key, ino), LoadSame, Touch(key, ino));
    LoadPasses(calm, s, Touch(key, ino), Touched, Reading(key, ino));
  }
}
