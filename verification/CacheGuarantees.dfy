/** What the users of the cache get from `CacheSafety`: frozen readers, one winner per name,
    complete data, and what `cache.size` counts. */
module CacheGuarantees {
  import opened CacheEntries
  import opened CacheSafety

  // ---- readers ----

  predicate Inside(s: State, q: Pid, key: string) {
    q in s.procs && (s.procs[q].pc.Touch? || s.procs[q].pc.Reading?) && s.procs[q].pc.key == key
  }

  /** The entry under a name, its contents, and what its store wrote, are the same in both states. */
  predicate SameEntryAt(s: State, s': State, key: string) {
    && Present(s, User(key)) && Present(s', User(key))
    && s'.names[User(key)] == s.names[User(key)] && DirAt(s', User(key)) == DirAt(s, User(key))
    && (Complete(s, User(key)) <==> Complete(s', User(key)))
  }

  lemma OthersStable(s: State, p: Pid, s': State, g: Fd)
    requires Inv(s) == true && StepOf(s, p, s') == true && g.pid != p
    ensures Stable(s, s', g) == true
  {
    if Start(s, p, s') {
    } else if Crash(s, p, s') {
      CrashStable(s, p, s', g);
    } else {
      var act :| Moves(s, p, act, s');
      assert Acting(s, p);
      MovesDisk(s, p, act, s');
    }
  }

  lemma StableEntry(s: State, s': State, q: Pid, key: string)
    requires q in s.procs && ProcInv(s, q, s.procs[q]) && Inside(s, q, key) && Stable(s, s', Fd(q, Main)) == true
    ensures SameEntryAt(s, s', key) == true
  {
    assert Linked(s, User(key), s.procs[q].pc.ino);
  }

  lemma OthersKeepProc(s: State, p: Pid, s': State, q: Pid)
    requires StepOf(s, p, s') && p != q && q in s.procs
    ensures q in s'.procs && s'.procs[q] == s.procs[q]
  {}

  /** While a process is inside `load(key)` nothing another process does, including crashing,
      changes the entry or moves its name. */
  lemma ReaderFrozen(s: State, p: Pid, s': State, q: Pid, key: string)
    requires Inv(s) == true && StepOf(s, p, s') == true && p != q && Inside(s, q, key)
    ensures SameEntryAt(s, s', key) == true && q in s'.procs && s'.procs[q] == s.procs[q]
  {
    OthersStable(s, p, s', Fd(q, Main));
    StableEntry(s, s', q, key);
    OthersKeepProc(s, p, s', q);
  }

  predicate ReadsAt(s: State, q: Pid, key: string, ino: Ino) {
    q in s.procs && s.procs[q].pc == Reading(key, ino)
  }

  /** A reader that is still inside has not moved at all. */
  lemma ReaderStays(s: State, s': State, q: Pid, key: string, ino: Ino)
    requires Inv(s) == true && Step(s, s') == true
    requires ReadsAt(s, q, key, ino) == true && ReadsAt(s', q, key, ino) == true
    ensures SameEntryAt(s, s', key) == true
  {
    var p :| StepOf(s, p, s');
    if p != q {
      ReaderFrozen(s, p, s', q, key);
    } else {
      assert ProcInv(s, q, s.procs[q]);
      assert !Start(s, q, s') && !Crash(s, q, s');
      var act :| Moves(s, q, act, s');
      PlanShape(s, q, act);
      assert false;
    }
  }

  lemma SameEntryTransitive(a: State, b: State, c: State, key: string)
    requires SameEntryAt(a, b, key) == true && SameEntryAt(b, c, key) == true
    ensures SameEntryAt(a, c, key) == true
  {}

  /** A reader's lock keeps every evictor of the entry away. */
  lemma ReaderExcludesBreaker(s: State, q: Pid, key: string)
    requires Inv(s) == true && Inside(s, q, key)
    ensures Present(s, User(key)) && DirAt(s, User(key)).linked && s.names[User(key)] !in s.breaker
  {
    assert ProcInv(s, q, s.procs[q]);
    assert Holds(s, Fd(q, Main), s.procs[q].pc.ino, false);
  }

  lemma ReaderStarts(s: State, q: Pid, key: string, ino: Ino)
    requires Inv(s) == true && ReadsAt(s, q, key, ino) == true
    ensures SameEntryAt(s, s, key) == true
  {
    ReaderExcludesBreaker(s, q, key);
  }

  /** From entering to leaving, a reader sees one and the same entry. */
  lemma {:induction false} ReaderSeesOneEntry(run: seq<State>, i: nat, j: nat, q: Pid, key: string, ino: Ino)
    requires Run(run) == true && i <= j < |run|
    requires forall m :: i <= m <= j ==> ReadsAt(run[m], q, key, ino) == true
    ensures SameEntryAt(run[i], run[j], key) == true
  {
    hide Step, Inv, SameEntryAt;
    if i == j {
      RunInv(run, i);
      ReaderStarts(run[i], q, key, ino);
    } else {
      ReaderSeesOneEntry(run, i, j - 1, q, key, ino);
      RunStep(run, j - 1);
      ReaderStays(run[j - 1], run[j], q, key, ino);
      SameEntryTransitive(run[i], run[j - 1], run[j], key);
    }
  }

  /** What a reader sees was stored under the name it asked for, and is exactly what that store
      wrote, unless an evictor of this very entry died after unlinking its info file.  So
      the info file, which `load` does not look at, would have told the two cases apart. */
  lemma ReaderSeesWinner(run: seq<State>, i: nat, q: Pid, key: string)
    requires Run(run) && i < |run| && Inside(run[i], q, key)
    ensures var s := run[i];
            && Present(s, User(key)) && DirAt(s, User(key)).title == key
            && (s.names[User(key)] !in s.damaged ==> Complete(s, User(key)))
            && (DirAt(s, User(key)).info.None? <==> s.names[User(key)] in s.damaged)
  {
    RunInv(run, i);
    ReaderExcludesBreaker(run[i], q, key);
  }

  lemma MovesKeepDamaged(s: State, p: Pid, act: Act, s': State)
    requires Moves(s, p, act, s')
    ensures s'.damaged == s.damaged
  {
    ExecKeeps(s, Fd(p, PlanOf(s, p, act).value.role), PlanOf(s, p, act).value.sys);
    hide PlanOf, Exec;
  }

  /** Without crashes no entry is ever damaged. */
  lemma {:induction false} OnlyCrashesDamage(run: seq<State>, i: nat)
    requires Run(run) && i < |run|
    requires forall m, p :: 0 <= m < i && p in run[m].procs ==> !Crash(run[m], p, run[m + 1])
    ensures run[i].damaged == {}
  {
    if i > 0 {
      OnlyCrashesDamage(run, i - 1);
      var s, s' := run[i - 1], run[i - 1 + 1];
      assert Step(s, s');
      var p :| StepOf(s, p, s');
      if act :| Moves(s, p, act, s') { MovesKeepDamaged(s, p, act, s'); }
    }
  }

  /** Reader safety: in every crash-free run, whoever is inside `load(key)` has before it an entry that
      was stored under that name, with exactly the data that store wrote. */
  lemma CrashFreeReaders(run: seq<State>, i: nat, q: Pid, key: string)
    requires Run(run) && i < |run| && Inside(run[i], q, key)
    requires forall m, p :: 0 <= m < i && p in run[m].procs ==> !Crash(run[m], p, run[m + 1])
    ensures Present(run[i], User(key)) && DirAt(run[i], User(key)).title == key && Complete(run[i], User(key))
  {
    OnlyCrashesDamage(run, i);
    ReaderSeesWinner(run, i, q, key);
  }

  // ---- one winner per name ----

  /** A step of the eviction of entry `key`, taken by a process that holds its lock. */
  ghost predicate Evicts(s: State, s': State, key: string) {
    exists p, item: Item :: Moves(s, p, VClean(item), s') && EvictorOf(s, p, key)
  }

  predicate EvictorOf(s: State, p: Pid, key: string) {
    && p in s.procs && s.procs[p].victim.Removing? && s.procs[p].victim.name == User(key)
    && Holds(s, Fd(p, Victim), s.procs[p].victim.ino, true) && Linked(s, User(key), s.procs[p].victim.ino)
  }

  lemma SysKeepsEntry(s: State, f: Fd, sys: Sys, key: string)
    requires DirInv(s) && Legal(s, f, sys) && Present(s, User(key)) && DirAt(s, User(key)).linked
    requires sys.Put? ==> sys.name != User(key)
    ensures SameEntryAt(s, Exec(s, f, sys), key)
  {}

  lemma MoveKeepsEntry(s: State, p: Pid, act: Act, s': State, key: string)
    requires Inv(s) == true && Moves(s, p, act, s') && Present(s, User(key)) && DirAt(s, User(key)).linked
    requires var sys := PlanOf(s, p, act).value.sys; sys.Put? ==> sys.name != User(key)
    ensures SameEntryAt(s, s', key) == true
  {
    assert Acting(s, p);
    PlanOfOk(s, p, act);
    SysKeepsEntry(s, Fd(p, PlanOf(s, p, act).value.role), PlanOf(s, p, act).value.sys, key);
  }

  lemma PutIsEviction(s: State, p: Pid, act: Act, s': State, key: string)
    requires Inv(s) == true && Moves(s, p, act, s')
    requires var sys := PlanOf(s, p, act).value.sys; sys.Put? && sys.name == User(key)
    ensures Evicts(s, s', key) == true
  {
    PlanShape(s, p, act);
    hide PlanOf, Do, DirInv, MainInv;
    assert ProcInv(s, p, s.procs[p]);
    assert Moves(s, p, VClean(act.item), s') && EvictorOf(s, p, key);
  }

  lemma CrashKeepsEntry(s: State, p: Pid, s': State, key: string)
    requires Present(s, User(key)) && (Crash(s, p, s') || Start(s, p, s'))
    ensures SameEntryAt(s, s', key) == true
  {}

  /** Once an entry can be opened under a name, only its own eviction touches it: no store, won
      or lost, no cleanup, no other evictor's `rmdir`, and no crash changes or moves it. */
  lemma EntryStaysUntilEvicted(s: State, s': State, key: string)
    requires Inv(s) == true && Step(s, s') == true && Present(s, User(key)) && DirAt(s, User(key)).linked
    ensures SameEntryAt(s, s', key) == true || Evicts(s, s', key) == true
  {
    var p :| StepOf(s, p, s');
    if Crash(s, p, s') || Start(s, p, s') {
      CrashKeepsEntry(s, p, s', key);
    } else {
      var act :| Moves(s, p, act, s');
      var sys := PlanOf(s, p, act).value.sys;
      if sys.Put? && sys.name == User(key) {
        PutIsEviction(s, p, act, s', key);
      } else {
        MoveKeepsEntry(s, p, act, s', key);
      }
    }
  }

  /** Along any run: of all stores racing for a name, the first to win stays the one until it is evicted. */
  lemma {:induction false} OneWinner(run: seq<State>, i: nat, j: nat, key: string)
    requires Run(run) && i <= j < |run| && Present(run[i], User(key)) && DirAt(run[i], User(key)).linked
    requires forall m :: i <= m < j ==> !Evicts(run[m], run[m + 1], key)
    ensures SameEntryAt(run[i], run[j], key) == true
  {
    hide Step, Inv, Evicts;
    if i < j {
      OneWinner(run, i, j - 1, key);
      RunStep(run, j - 1);
      assert DirAt(run[j - 1], User(key)) == DirAt(run[i], User(key));
      assert !Evicts(run[j - 1], run[j - 1 + 1], key);
      EntryStaysUntilEvicted(run[j - 1], run[j], key);
      SameEntryTransitive(run[i], run[j - 1], run[j], key);
    }
  }

  predicate WinsAs(s: State, p: Pid, key: string) {
    p in s.procs && s.procs[p].pc.Commit? && s.procs[p].pc.title == key
  }

  /** The name `key` is new in `s'` or means another directory than before. */
  predicate NewlyNamed(s: State, s': State, key: string) {
    User(key) in s'.names && (User(key) !in s.names || s'.names[User(key)] != s.names[User(key)])
  }

  lemma NamingIsRename(s: State, f: Fd, sys: Sys, key: string)
    requires NewlyNamed(s, Exec(s, f, sys), key)
    ensures sys.Rename? && sys.target == key
  {}

  lemma RenamedEntry(s: State, f: Fd, sys: Sys)
    requires DirInv(s) && sys.Rename? && Legal(s, f, sys)
    ensures var s' := Exec(s, f, sys); var n := User(sys.target);
            && Present(s', n) && DirAt(s', n).title == sys.target && DirAt(s', n).info.Some? && Complete(s', n)
    ensures User(sys.target) in s.names ==> Present(s, User(sys.target)) && DirAt(s, User(sys.target)).Empty()
  {}

  /** How a name comes to mean another entry: a store of that name renames its complete, vouched
      for and accounted entry onto nothing or onto a directory already emptied. */
  lemma NewEntryIsWinner(s: State, p: Pid, s': State, key: string)
    requires Inv(s) == true && StepOf(s, p, s') == true && NewlyNamed(s, s', key)
    ensures WinsAs(s, p, key)
    ensures Present(s', User(key)) && DirAt(s', User(key)).title == key && DirAt(s', User(key)).info.Some?
    ensures Complete(s', User(key))
    ensures User(key) in s.names ==> Present(s, User(key)) && DirAt(s, User(key)).Empty()
  {
    assert !Start(s, p, s') && !Crash(s, p, s');
    var act :| Moves(s, p, act, s');
    WinningMove(s, p, act, s', key);
  }

  lemma WinningMove(s: State, p: Pid, act: Act, s': State, key: string)
    requires Inv(s) == true && Moves(s, p, act, s') && NewlyNamed(s, s', key)
    ensures WinsAs(s, p, key)
    ensures Present(s', User(key)) && DirAt(s', User(key)).title == key && DirAt(s', User(key)).info.Some?
    ensures Complete(s', User(key))
    ensures User(key) in s.names ==> Present(s, User(key)) && DirAt(s, User(key)).Empty()
  {
    assert Acting(s, p);
    PlanOfOk(s, p, act);
    var plan := PlanOf(s, p, act).value;
    NamingIsRename(s, Fd(p, plan.role), plan.sys, key);
    PlanShape(s, p, act);
    RenamedEntry(s, Fd(p, plan.role), plan.sys);
  }

  // ---- nothing gets in a process's way ----

  function NextOfEviction(s: State, p: Pid, v: VictimPc): Act {
    match v
    case Off => PickEnd
    case Pick(loop) => if loop.todo == [] then PickEnd else PickNext
    case VOpen(_, name) => if NoLockFile(s, name) then VGone else VOpens(DirAt(s, name).key)
    case VLock(_, _, ino) => if Compatible(s, Fd(p, Victim), Held(ino, true)) then VLocks else VBusy
    case VStat(_, name, ino) => if LockFileAt(s, name, ino) then VSame else VRetry
    case Atime(_, _, _) => VSkip
    case Measure(_, _, _) => VMeasure(0)
    case Removing(_, name, _, _, step) => if RmFails(s, name, step) then VDirFull else VClean(Item("", ""))
    case Deduct(_, _, _) => VDeduct
    case Release(_, _, _) => VRelease
  }

  /** What a process can do next.  A `Clean` that still has items to delete may name any of them. */
  function NextAct(s: State, p: Pid): Act
    requires p in s.procs
  {
    var pc, v := s.procs[p].pc, s.procs[p].victim;
    var f := Fd(p, Main);
    match pc
    case Idle => StoreCall("")
    case Starting(_) => MakeLock(0)
    case MakeDir(_, _) => MakeDirectory(0, 0)
    case LinkLock(_, _, uuid) => if Anon(uuid) in s.names then Link else LinkAgain
    case MakeData(_, _, _) => MakeDataDir
    case Filling(_, _, _) => FillFails
    case Measured(_, _, _, size) =>
      if s.maximum > -1 && size > s.maximum then TooBig else if Accepts(s, size) then Reserve else Full([])
    case Evicting(_, _, _, _) => NextOfEviction(s, p, v)
    case Retrying(_, _, _, size) => if Accepts(s, size) then Reserve else GiveUp
    case PutInfo(_, _, _, _) => WriteInfo
    case Commit(title, _, _, _) =>
      if Present(s, User(title)) && !DirAt(s, User(title)).Empty() then RenameLoses else RenameWins
    case Check(_, _, uuid, _) => if Anon(uuid) in s.names then CheckLeft else CheckGone
    case DropInfo(_, _, _, _) => UnlinkInfo
    case Refund(_, _, _, _) => Refunded
    case Cleaning(_, _, _, _) => Clean(Item("", ""))
    case Closing(_) => Close
    case LoadOpen(key) => if NoLockFile(s, User(key)) then LoadMiss else LoadOpens(DirAt(s, User(key)).key)
    case LoadLock(_, ino) => if Compatible(s, f, Held(ino, false)) then LoadLocks else LoadBusy
    case LoadStat(key, ino) => if LockFileAt(s, User(key), ino) then LoadSame else LoadRetry
    case Touch(_, _) => Touched
    case Reading(_, _) => Close
  }

  predicate StorePhase(pc: Pc) {
    || pc.Idle? || pc.LinkLock? || pc.MakeData? || pc.Filling? || pc.Measured? || pc.Retrying? || pc.PutInfo?
  }

  lemma StoreGoesOn(s: State, p: Pid)
    requires Acting(s, p) == true && StorePhase(s.procs[p].pc)
    ensures StorePlan(s, p, s.procs[p], NextAct(s, p)).Some?
  {}

  lemma CommitGoesOn(s: State, p: Pid)
    requires Acting(s, p) == true
    requires var pc := s.procs[p].pc;
      || pc.Commit? || pc.Check? || pc.DropInfo? || pc.Refund? || pc.Cleaning?
      || pc.Closing? || pc.Reading?
    ensures CommitPlan(s, p, s.procs[p], NextAct(s, p)).Some?
  {
    hide VictimInv, NextOfEviction, LocksInv, NamesInv;
  }

  lemma LoadGoesOn(s: State, p: Pid)
    requires Acting(s, p) == true
    requires var pc := s.procs[p].pc; pc.LoadOpen? || pc.LoadLock? || pc.LoadStat? || pc.Touch?
    ensures LoadPlan(s, p, s.procs[p], NextAct(s, p)).Some?
  {
    hide VictimInv, NextOfEviction, LocksInv, NamesInv;
  }

  lemma EvictionGoesOn(s: State, p: Pid, pr: Proc)
    requires pr.pc.Evicting? && !pr.victim.Off? && (pr.victim.Measure? ==> Present(s, pr.victim.name))
    ensures VictimPlan(s, p, pr, NextOfEviction(s, p, pr.victim)).Some?
  {}

  lemma VictimGoesOn(s: State, p: Pid)
    requires Acting(s, p) == true && s.procs[p].pc.Evicting?
    ensures VictimPlan(s, p, s.procs[p], NextAct(s, p)).Some?
  {
    hide DirInv, MainInv, VictimPlan;
    EvictionGoesOn(s, p, s.procs[p]);
  }

  /** The two system calls whose errors nobody catches: opening the lock file of an entry to evict
      (ENOENT), and removing the directory of one (ENOTEMPTY). */
  predicate Uncaught(act: Act) {
    act.VGone? || act.VDirFull?
  }

  /** The entry to evict vanished before it could be opened, or another has been renamed into the
      directory just emptied. */
  predicate LosesVictim(s: State, p: Pid)
    requires p in s.procs
  {
    var v := s.procs[p].victim;
    || (v.VOpen? && NoLockFile(s, v.name))
    || (v.Removing? && v.step.RmDir? && Present(s, v.name) && !DirAt(s, v.name).Empty())
  }

  ghost predicate GoesOn(s: State, p: Pid)
    requires p in s.procs
  {
    exists act :: PlanOf(s, p, act).Some? && (Uncaught(act) ==> LosesVictim(s, p))
  }

  lemma NextIsCaught(s: State, p: Pid)
    requires p in s.procs && Uncaught(NextAct(s, p))
    ensures LosesVictim(s, p)
  {}

  /** Nothing blocks a process, and only an eviction that loses its victim meets an error that the
      code does not handle.  Otherwise the anonymous path is still there at the rename, `link` and the
      creation of the info file find no other file, and a store's own `rmdir` finds its
      directory empty.  (A free inode or random name is taken for granted.) */
  lemma NeverStuck(run: seq<State>, i: nat, p: Pid)
    requires Run(run) && i < |run| && p in run[i].procs
    ensures !run[i].procs[p].pc.Starting? && !run[i].procs[p].pc.MakeDir? ==> GoesOn(run[i], p) == true
  {
    RunInv(run, i);
    var s := run[i];
    var pc := s.procs[p].pc;
    assert Acting(s, p);
    hide Acting, NextAct;
    if pc.Starting? || pc.MakeDir? {
    } else if StorePhase(pc) {
      StoreGoesOn(s, p);
    } else if pc.Evicting? {
      VictimGoesOn(s, p);
    } else if pc.LoadOpen? || pc.LoadLock? || pc.LoadStat? || pc.Touch? {
      LoadGoesOn(s, p);
    } else {
      CommitGoesOn(s, p);
    }
    hide StorePlan, CommitPlan, LoadPlan, VictimPlan, LosesVictim;
    if !pc.Starting? && !pc.MakeDir? {
      assert PlanOf(s, p, NextAct(s, p)).Some?;
      if Uncaught(NextAct(s, p)) { NextIsCaught(s, p); }
    }
  }
}
