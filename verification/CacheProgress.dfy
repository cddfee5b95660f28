/** Who holds a lock in the `cache.size` protocol, that whoever waits waits for a process that can go on, and
    that a lock is given back after a bounded number of its holder's own steps. */
module CacheProgress {
  import opened CacheSize

  // ---- what else holds in every reachable state ----

  /** The inodes on which a process standing here has a lock. */
  function OuterHeld(pc: Pc): set<Ino> {
    if pc.Opened? then {} else OuterIno(pc)
  }

  function InnerHeld(pc: Pc): set<Ino> {
    if pc.TempOpened? then {} else InnerIno(pc)
  }

  /** The lock is that of a running process which stands between its locking and its unlocking. */
  predicate HeldRightly(s: State, i: Ino)
    requires i in s.locks
  {
    && s.locks[i].pid in s.procs
    && var pc := s.procs[s.locks[i].pid];
       i in if s.locks[i].Outer? then OuterHeld(pc) else InnerHeld(pc)
  }

  predicate Unpublished(pc: Pc) {
    pc.TempOpened? || pc.TempLocked? || pc.TempReady? || pc.TempWritten?
  }

  /** A private name is there from its creation to its publication, and nobody has its file open as the counter. */
  predicate OwnFile(s: State, p: Pid)
    requires p in s.procs
  {
    var pc := s.procs[p];
    && (pc.Creating? ==> Temp(pc.uuid) !in s.paths)
    && (Unpublished(pc) ==> Temp(pc.uuid) in s.paths && forall q <- s.procs :: pc.ino !in OuterIno(s.procs[q]))
  }

  predicate LocksInv(s: State) {
    && (forall i <- s.locks :: HeldRightly(s, i))
    && (forall p <- s.procs :: OwnFile(s, p))
  }

  lemma MovesHeld(s: State, p: Pid, act: Action, s': State, i: Ino)
    requires Moves(s, p, act, s') && i in s'.locks && (i in s.locks ==> HeldRightly(s, i))
    ensures HeldRightly(s', i)
  {
    if s'.locks[i].pid == p { ActorHolds(s, p, act, s', i); } else { OthersHold(s, p, act, s', i); }
    hide Moves, OuterHeld, InnerHeld;
  }

  lemma ActorHolds(s: State, p: Pid, act: Action, s': State, i: Ino)
    requires Moves(s, p, act, s') == true && i in s'.locks && s'.locks[i].pid == p
    requires i in s.locks ==> HeldRightly(s, i)
    ensures HeldRightly(s', i) == true
  {
    hide Moves, OuterHeld, InnerHeld;
    if act.LockTempAct? || act.LockSizeAct? { ActorLocks(s, p, act, s', i); }
    else if act.RetryTempAct? || act.CloseTempAct? || act.RetrySizeAct? || act.ReturnAct? {
      ActorUnlocks(s, p, act, s', i);
    }
    else { ActorKeeps(s, p, act, s', i); }
  }

  lemma ActorLocks(s: State, p: Pid, act: Action, s': State, i: Ino)
    requires act.LockTempAct? || act.LockSizeAct?
    requires Moves(s, p, act, s') && i in s'.locks && s'.locks[i].pid == p && (i in s.locks ==> HeldRightly(s, i))
    ensures HeldRightly(s', i) == true
  {}

  lemma ActorUnlocks(s: State, p: Pid, act: Action, s': State, i: Ino)
    requires act.RetryTempAct? || act.CloseTempAct? || act.RetrySizeAct? || act.ReturnAct?
    requires Moves(s, p, act, s') && i in s'.locks && s'.locks[i].pid == p && (i in s.locks ==> HeldRightly(s, i))
    ensures HeldRightly(s', i) == true
  {}

  lemma ActorKeeps(s: State, p: Pid, act: Action, s': State, i: Ino)
    requires !act.LockTempAct? && !act.LockSizeAct?
    requires !act.RetryTempAct? && !act.CloseTempAct? && !act.RetrySizeAct? && !act.ReturnAct?
    requires Moves(s, p, act, s') && i in s'.locks && s'.locks[i].pid == p && (i in s.locks ==> HeldRightly(s, i))
    ensures HeldRightly(s', i) == true
  {}

  lemma OthersHold(s: State, p: Pid, act: Action, s': State, i: Ino)
    requires Moves(s, p, act, s') && i in s'.locks && s'.locks[i].pid != p
    ensures i in s.locks && s.locks[i] == s'.locks[i]
    ensures s.locks[i].pid in s.procs ==>
      s.locks[i].pid in s'.procs && s'.procs[s.locks[i].pid] == s.procs[s.locks[i].pid]
  {}

  lemma MovesOwn(s: State, p: Pid, act: Action, s': State)
    requires Acting(s, p) == true && Moves(s, p, act, s') && OwnFile(s, p) == true
    ensures OwnFile(s', p) == true
  {
    if act.CreateTempAct? || act.UnlinkTempAct? || act.LinkSetupAct? || act.RenameTempAct? {
      MovesPaths(s, p, act, s');
    } else {
      hide Acting;
    }
  }

  lemma MovesPaths(s: State, p: Pid, act: Action, s': State)
    requires act.CreateTempAct? || act.UnlinkTempAct? || act.LinkSetupAct? || act.RenameTempAct?
    requires Acting(s, p) && Moves(s, p, act, s') && OwnFile(s, p) == true
    ensures OwnFile(s', p) == true
  {
    hide FileInv, JobInv;
  }

  /** A bystander's file is never opened as the counter, and its name is left alone. */
  lemma MovesOther(s: State, p: Pid, act: Action, s': State, q: Pid)
    requires Pair(s, p, q) == true && Moves(s, p, act, s') && OwnFile(s, q)
    ensures q in s'.procs && OwnFile(s', q) == true
  {
    NoneOpens(s, p, act, s', q);
    NameStays(s, p, act, s', q);
  }

  lemma OpensOnly(s: State, p: Pid, act: Action, s': State)
    requires p in s.procs && Moves(s, p, act, s')
    ensures s'.procs == s.procs[p := s'.procs[p]]
    ensures forall i <- OuterIno(s'.procs[p]) :: i in OuterIno(s.procs[p]) || At(s, SizeFile, i)
  {}

  lemma NoneOpens(s: State, p: Pid, act: Action, s': State, q: Pid)
    requires Pair(s, p, q) && Moves(s, p, act, s') && OwnFile(s, q)
    ensures Unpublished(s.procs[q]) ==> forall r <- s'.procs :: s.procs[q].ino !in OuterIno(s'.procs[r])
  {
    OpensOnly(s, p, act, s');
    hide FileInv, JobInv, Apart, Moves, OuterIno;
  }

  lemma NameStays(s: State, p: Pid, act: Action, s': State, q: Pid)
    requires Pair(s, p, q) && Moves(s, p, act, s')
    ensures q in s'.procs && s'.procs[q] == s.procs[q]
    ensures forall u <- NameOf(s.procs[q]) :: Temp(u) in s'.paths <==> Temp(u) in s.paths
  {
    hide FileInv, JobInv, PcInv;
  }

  lemma MovesLocks(s: State, p: Pid, act: Action, s': State)
    requires Inv(s) && LocksInv(s) && p in s.procs && Moves(s, p, act, s')
    ensures LocksInv(s')
  {
    assert Acting(s, p);
    forall i | i in s'.locks ensures HeldRightly(s', i) == true { MovesHeld(s, p, act, s', i); }
    MovesOwn(s, p, act, s');
    forall q | q in s'.procs ensures OwnFile(s', q) == true {
      if q != p && q in s.procs {
        assert Pair(s, p, q);
        MovesOther(s, p, act, s', q);
      } else {
        ActorOnly(s, p, act, s', q);
      }
    }
    hide HeldRightly, OwnFile, Moves;
  }

  lemma ActorOnly(s: State, p: Pid, act: Action, s': State, q: Pid)
    requires p in s.procs && Moves(s, p, act, s') && q in s'.procs && !(q != p && q in s.procs)
    ensures q == p
  {}

  lemma CrashLocks(s: State, p: Pid, s': State)
    requires LocksInv(s) && Crash(s, p, s')
    ensures LocksInv(s')
  {
    forall q | q in s'.procs ensures OwnFile(s', q) == true { assert OwnFile(s, q); }
    forall i | i in s'.locks ensures HeldRightly(s', i) == true { assert HeldRightly(s, i); }
  }

  lemma StartLocks(s: State, p: Pid, s': State)
    requires LocksInv(s) && Start(s, p, s')
    ensures LocksInv(s')
  {
    forall q | q in s'.procs ensures OwnFile(s', q) == true { if q != p { assert OwnFile(s, q); } }
    forall i | i in s'.locks ensures HeldRightly(s', i) == true { assert HeldRightly(s, i); }
  }

  lemma StepLocks(s: State, s': State)
    requires Inv(s) == true && LocksInv(s) == true && Step(s, s')
    ensures LocksInv(s') == true
  {
    var p :| StepOf(s, p, s');
    if p !in s.procs {
      StartLocks(s, p, s') by { NotStarted(s, p, s'); }
    } else if Crash(s, p, s') {
      CrashLocks(s, p, s');
    } else {
      var act :| Moves(s, p, act, s');
      MovesLocks(s, p, act, s');
    }
  }

  lemma NotStarted(s: State, p: Pid, s': State)
    requires p !in s.procs && StepOf(s, p, s')
    ensures Start(s, p, s')
  {}

  lemma {:induction false} RunLocks(run: seq<State>, i: nat)
    requires Run(run) && i < |run|
    ensures Inv(run[i]) == true && LocksInv(run[i]) == true
  {
    RunInv(run, i);
    if i > 0 {
      RunLocks(run, i - 1);
      assert Step(run[i - 1], run[i - 1 + 1]);
      hide Run, Step, Inv, LocksInv;
      StepLocks(run[i - 1], run[i]);
    }
  }

  // ---- locks are held by those who stand between locking and unlocking, and by nobody else ----

  /** In every reachable state the locks are just those of the running processes that have locked a file and
      not yet given it back. */
  lemma LocksAreHeld(run: seq<State>, i: nat, ino: Ino, f: Fd)
    requires Run(run) && i < |run|
    ensures var s := run[i];
      LockedBy(s, ino, f) <==>
      f.pid in s.procs && ino in if f.Outer? then OuterHeld(s.procs[f.pid]) else InnerHeld(s.procs[f.pid])
  {
    RunLocks(run, i);
    var s := run[i];
    hide Run;
    if f.pid in s.procs {
      assert PcInv(s, f.pid, s.procs[f.pid]);
      if ino in if f.Outer? then OuterHeld(s.procs[f.pid]) else InnerHeld(s.procs[f.pid]) { Holds(s, f, ino); }
    }
    if ino in s.locks { assert HeldRightly(s, ino); }
    hide Inv;
  }

  lemma Holds(s: State, f: Fd, ino: Ino)
    requires CallsKnown(s) && f.pid in s.procs && PcInv(s, f.pid, s.procs[f.pid])
    requires ino in if f.Outer? then OuterHeld(s.procs[f.pid]) else InnerHeld(s.procs[f.pid])
    ensures LockedBy(s, ino, f)
  {}

  /** Before its call and after it. */
  predicate OutOfCall(pc: Pc) {
    pc.Entering? || pc.Ready? || pc.Opening? || pc.Opened?
  }

  lemma SomebodyHolds(s: State, ino: Ino)
    requires LocksInv(s) && ino in s.locks
    ensures s.locks[ino].pid in s.procs && !OutOfCall(s.procs[s.locks[ino].pid])
  {
    assert HeldRightly(s, ino);
  }

  /** Once every call under way has returned or has yet to lock, no lock is left. */
  lemma NoLockIsLeft(run: seq<State>, i: nat)
    requires Run(run) == true && i < |run| && forall p <- run[i].procs :: OutOfCall(run[i].procs[p])
    ensures run[i].locks == map[]
  {
    RunLocks(run, i);
    if ino :| ino in run[i].locks { SomebodyHolds(run[i], ino); }
  }

  // ---- everyone can go on, but who waits for the counter's lock ----

  ghost predicate CanMove(s: State, p: Pid) {
    exists act, s' :: Moves(s, p, act, s')
  }

  lemma {:induction false} Above(q: set<nat>) returns (n: nat)
    ensures forall m <- q :: m < n
  {
    n := 0;
    if q != {} {
      var m :| m in q;
      var k := Above(q - {m});
      n := if k > m then k else m + 1;
      forall x | x in q ensures x < n { if x != m { assert x in q - {m}; } }
    }
  }

  /** There is always a name that nobody knows, and an inode that nothing names. */
  lemma UnusedName(s: State) returns (uuid: nat)
    ensures FreshName(s, uuid)
  {
    var named := set q | q in s.paths && q.Temp? :: q.uuid;
    var known := set p, u | p in s.procs && u in NameOf(s.procs[p]) :: u;
    uuid := Above(named + known);
    assert uuid !in named && uuid !in known;
    assert Temp(uuid).uuid == uuid;
    forall p | p in s.procs ensures uuid !in NameOf(s.procs[p]) {
      assert uuid in NameOf(s.procs[p]) ==> uuid in known;
    }
  }

  lemma UnusedIno(s: State) returns (ino: Ino)
    ensures Free(s, ino)
  {
    var inUse := set p, i | p in s.procs && i in InnerIno(s.procs[p]) + OuterIno(s.procs[p]) :: i;
    ino := Above(s.paths.Values + inUse);
    assert ino !in s.paths.Values && ino !in inUse;
    forall p | p in s.procs ensures ino !in InnerIno(s.procs[p]) && ino !in OuterIno(s.procs[p]) {
      assert ino in InnerIno(s.procs[p]) + OuterIno(s.procs[p]) ==> ino in inUse;
    }
  }

  /** Nobody else can have locked a private file. */
  lemma TempIsUnlocked(s: State, p: Pid)
    requires p in s.procs && s.procs[p].TempOpened? && OwnFile(s, p) && s.procs[p].ino in s.locks
    requires forall q <- s.procs :: q != p ==> Apart(s.procs[p], s.procs[q])
    ensures !HeldRightly(s, s.procs[p].ino)
  {}

  lemma SetupGoesOn(s: State, p: Pid)
    requires p in s.procs && OwnFile(s, p) && (s.procs[p].Entering? || s.procs[p].Creating?)
    ensures CanMove(s, p)
  {
    if s.procs[p].Entering? {
      var uuid := UnusedName(s);
      assert Moves(s, p, BeginSetupAct(uuid), Goto(s, p, Creating(Setup, uuid)));
    } else {
      var ino := UnusedIno(s);
      var pc := s.procs[p];
      assert Moves(s, p, CreateTempAct(ino), Goto(s, p, TempOpened(pc.job, pc.uuid, ino)).(
        paths := s.paths[Temp(pc.uuid) := ino], content := s.content[ino := Partial]));
    }
  }

  lemma TempGoesOn(s: State, p: Pid)
    requires p in s.procs && Unpublished(s.procs[p])
    requires var pc := s.procs[p];
      && (pc.TempOpened? ==> pc.ino !in s.locks) && (pc.TempLocked? ==> At(s, Temp(pc.uuid), pc.ino))
      && (pc.TempWritten? && pc.job.Replace? ==> Temp(pc.uuid) in s.paths)
    ensures CanMove(s, p)
  {
    var pc := s.procs[p];
    match pc
    case TempOpened(job, uuid, i) =>
      assert Moves(s, p, LockTempAct, Goto(s, p, TempLocked(job, uuid, i)).(locks := s.locks[i := Inner(p)]));
    case TempLocked(job, uuid, i) => assert Moves(s, p, StatTempAct, Goto(s, p, TempReady(job, uuid, i)));
    case TempReady(job, uuid, i) =>
      assert Moves(s, p, WriteTempAct, Goto(s, p, TempWritten(job, uuid, i)).(
        content := s.content[i := Number(if job.Setup? then 0 else job.value)]));
    case TempWritten(job, uuid, i) =>
      if job.Setup? {
        assert Moves(s, p, LinkSetupAct, Goto(s, p, Published(job, uuid, i)).(
          paths := if SizeFile in s.paths then s.paths else s.paths[SizeFile := i]));
      } else {
        assert Moves(s, p, RenameTempAct, Goto(s, p, Published(job, uuid, i)).(
          paths := (s.paths - {Temp(uuid)})[SizeFile := s.paths[Temp(uuid)]], log := s.log + [job.call]));
      }
  }

  lemma CallGoesOn(s: State, p: Pid)
    requires CallsKnown(s) && FileInv(s) && p in s.procs && PcInv(s, p, s.procs[p])
    requires var pc := s.procs[p]; pc.Opening? || pc.Opened? || pc.Locked? || pc.Valid? || pc.Loaded?
    requires s.procs[p].Opened? ==> s.procs[p].ino !in s.locks
    ensures CanMove(s, p)
  {
    var pc := s.procs[p];
    match pc
    case Opening(c) => assert Moves(s, p, OpenSizeAct, Goto(s, p, Opened(c, s.paths[SizeFile])));
    case Opened(c, i) =>
      assert Moves(s, p, LockSizeAct, Goto(s, p, Locked(c, i)).(locks := s.locks[i := Outer(p)]));
    case Locked(c, i) =>
      if At(s, SizeFile, i) {
        assert Moves(s, p, StatSizeAct, Goto(s, p, Valid(c, i)));
      } else {
        assert Moves(s, p, RetrySizeAct, Goto(s, p, Opening(c)).(locks := s.locks - {i}));
      }
    case Valid(c, i) => assert Moves(s, p, ReadSizeAct, Goto(s, p, Loaded(c, i, s.content[i].n)));
    case Loaded(c, i, size) => Decides(s, p);
  }

  lemma Decides(s: State, p: Pid)
    requires p in s.procs && s.procs[p].Loaded? && s.procs[p].call < |s.diffs|
    ensures CanMove(s, p)
  {
    var pc := s.procs[p];
    var uuid := UnusedName(s);
    if Accepts(s.maximum, pc.size, s.diffs[pc.call]) {
      assert Moves(s, p, AcceptAct(uuid),
        Goto(s, p, Creating(Replace(pc.call, pc.ino, Apply(pc.size, s.diffs[pc.call])), uuid)));
    } else {
      assert Moves(s, p, RefuseAct, Goto(s, p, Closing(pc.call, pc.ino, false)));
    }
  }

  lemma EndGoesOn(s: State, p: Pid)
    requires p in s.procs
    requires var pc := s.procs[p]; pc.Published? || pc.TempClosed? || pc.Ready? || pc.Closing?
    ensures CanMove(s, p)
  {
    var pc := s.procs[p];
    match pc
    case Published(job, uuid, i) =>
      assert Moves(s, p, CloseTempAct, Goto(s, p, TempClosed(job, uuid)).(locks := s.locks - {i}));
    case TempClosed(job, uuid) =>
      assert Moves(s, p, UnlinkTempAct,
        Goto(s, p, if job.Setup? then Ready else Closing(job.call, job.outer, true)).(paths := s.paths - {Temp(uuid)}));
    case Ready => assert Moves(s, p, CallUpdateAct(0), Goto(s, p, Opening(|s.diffs|)).(diffs := s.diffs + [0]));
    case Closing(c, i, ok) =>
      assert Moves(s, p, ReturnAct, Goto(s, p, Ready).(locks := s.locks - {i}, results := s.results[c := ok]));
  }

  lemma GoesOn(s: State, p: Pid)
    requires Inv(s) == true && LocksInv(s) == true && p in s.procs
    requires s.procs[p].Opened? ==> s.procs[p].ino !in s.locks
    ensures CanMove(s, p) == true
  {
    assert PcInv(s, p, s.procs[p]) && OwnFile(s, p);
    var pc := s.procs[p];
    if pc.TempOpened? && pc.ino in s.locks { TempIsUnlocked(s, p); }
    hide CanMove, HeldRightly;
    if pc.Entering? || pc.Creating? { SetupGoesOn(s, p); }
    else if Unpublished(pc) { TempGoesOn(s, p); }
    else if pc.Published? || pc.TempClosed? || pc.Ready? || pc.Closing? { EndGoesOn(s, p); }
    else { CallGoesOn(s, p); }
  }

  /** No deadlock: in every reachable state a process can go on, or it has the counter open and waits for another
      process, which can. */
  lemma NoDeadlock(run: seq<State>, i: nat, p: Pid)
    requires Run(run) && i < |run| && p in run[i].procs
    ensures var s := run[i];
      || CanMove(s, p)
      || (s.procs[p].Opened? && s.procs[p].ino in s.locks
          && var q := s.locks[s.procs[p].ino].pid;
             q in s.procs && q != p && CanMove(s, q))
  {
    RunLocks(run, i);
    var s := run[i];
    if s.procs[p].Opened? && s.procs[p].ino in s.locks {
      var q := s.locks[s.procs[p].ino].pid;
      assert HeldRightly(s, s.procs[p].ino);
      GoesOn(s, q);
    } else {
      GoesOn(s, p);
    }
  }

  // ---- and a lock comes back ----

  /** How many steps of its own a process has before it gives back its locks, at most. */
  function StepsLeft(pc: Pc): nat {
    match pc
    case Locked(_, _) => 11
    case Valid(_, _) => 10
    case Loaded(_, _, _) => 9
    case Creating(_, _) => 8
    case TempOpened(_, _, _) => 7
    case TempLocked(_, _, _) => 6
    case TempReady(_, _, _) => 5
    case TempWritten(_, _, _) => 4
    case Published(_, _, _) => 3
    case TempClosed(_, _) => 2
    case Closing(_, _, _) => 1
    case _ => 0
  }

  /** Every step of a process that holds a lock brings it nearer to the end, or gives the lock back; so it
      has done so after `StepsLeft` steps of its own, which it can always take. */
  lemma LockComesBack(run: seq<State>, i: nat, p: Pid, act: Action, s': State, ino: Ino)
    requires Run(run) == true && i < |run| && p in run[i].procs && Moves(run[i], p, act, s') == true
    requires ino in run[i].locks && run[i].locks[ino].pid == p
    ensures CanMove(run[i], p) == true && StepsLeft(run[i].procs[p]) > 0
    ensures ino in s'.locks ==> p in s'.procs && StepsLeft(s'.procs[p]) < StepsLeft(run[i].procs[p])
  {
    RunLocks(run, i);
    hide Run;
    var s := run[i];
    assert HeldRightly(s, ino) && PcInv(s, p, s.procs[p]) && OwnFile(s, p);
    HolderIsPast(s, p, ino);
    GoesOn(s, p);
    HolderStep(s, p, act, s', ino);
  }

  lemma HolderIsPast(s: State, p: Pid, ino: Ino)
    requires p in s.procs && ino in s.locks && s.locks[ino].pid == p && HeldRightly(s, ino)
    ensures StepsLeft(s.procs[p]) > 0 && !s.procs[p].Opened?
  {}

  lemma HolderStep(s: State, p: Pid, act: Action, s': State, ino: Ino)
    requires CallsKnown(s) && p in s.procs && PcInv(s, p, s.procs[p]) && OwnFile(s, p) && Moves(s, p, act, s')
    requires ino in s.locks && s.locks[ino].pid == p && HeldRightly(s, ino)
    ensures ino in s'.locks ==> p in s'.procs && StepsLeft(s'.procs[p]) < StepsLeft(s.procs[p])
  {
    hide JobInv;
  }

  // ---- and no private file is left behind ----

  ghost predicate CrashFree(run: seq<State>) {
    forall m, p :: 0 <= m < |run| - 1 && p in run[m].procs ==> !Crash(run[m], p, run[m + 1])
  }

  predicate NoneCrashes(s: State, s': State) {
    forall p <- s.procs :: !Crash(s, p, s')
  }

  /** A process remembers the private name, to unlink it. */
  ghost predicate Remembered(s: State, uuid: nat) {
    exists p :: p in s.procs && uuid in NameOf(s.procs[p])
  }

  lemma MovesName(s: State, p: Pid, act: Action, s': State, uuid: nat)
    requires p in s.procs && Moves(s, p, act, s') && Temp(uuid) in s'.paths
    ensures s'.procs == s.procs[p := s'.procs[p]]
    ensures Temp(uuid) in s.paths || uuid in NameOf(s'.procs[p])
    ensures uuid in NameOf(s.procs[p]) ==> uuid in NameOf(s'.procs[p])
  {}

  lemma MovesRemember(s: State, p: Pid, act: Action, s': State, uuid: nat)
    requires p in s.procs && Moves(s, p, act, s') && Temp(uuid) in s'.paths
    requires Temp(uuid) in s.paths ==> Remembered(s, uuid)
    ensures Remembered(s', uuid)
  {
    MovesName(s, p, act, s', uuid);
    hide Moves, NameOf;
    if Temp(uuid) in s.paths {
      var q :| q in s.procs && uuid in NameOf(s.procs[q]);
      assert q in s'.procs && uuid in NameOf(s'.procs[q]);
    } else {
      assert p in s'.procs && uuid in NameOf(s'.procs[p]);
    }
  }

  lemma StepRemembers(s: State, s': State, uuid: nat)
    requires Step(s, s') && NoneCrashes(s, s') && Temp(uuid) in s'.paths
    requires Temp(uuid) in s.paths ==> Remembered(s, uuid)
    ensures Remembered(s', uuid)
  {
    var p :| StepOf(s, p, s');
    if act :| p in s.procs && Moves(s, p, act, s') {
      MovesRemember(s, p, act, s', uuid);
    } else if p !in s.procs {
      NotStarted(s, p, s');
      var q :| q in s.procs && uuid in NameOf(s.procs[q]);
      assert q in s'.procs && uuid in NameOf(s'.procs[q]);
    }
  }

  lemma CalmStep(run: seq<State>, i: nat)
    requires Run(run) && CrashFree(run) && i < |run|
    ensures i == 0 ==> run[i].paths == map[]
    ensures i > 0 ==> Step(run[i - 1], run[i]) == true && NoneCrashes(run[i - 1], run[i])
  {
    hide Step, Crash;
    if i > 0 { assert Step(run[i - 1], run[i - 1 + 1]) == true && NoneCrashes(run[i - 1], run[i - 1 + 1]); }
  }

  /** In a run without crashes every private file is that of a process that is going to remove its name. */
  lemma {:induction false} NoLitter(run: seq<State>, i: nat, uuid: nat)
    requires Run(run) == true && CrashFree(run) == true && i < |run| && Temp(uuid) in run[i].paths
    ensures Remembered(run[i], uuid) == true
  {
    hide Run, CrashFree, Step, Crash, Remembered;
    CalmStep(run, i);
    if Temp(uuid) in run[i - 1].paths { NoLitter(run, i - 1, uuid); }
    StepRemembers(run[i - 1], run[i], uuid);
  }
}
