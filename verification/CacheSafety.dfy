/** Safety of the `objects/` protocol over every run: what a lock on a linked lock file
    protects, what readers see, and that nothing but its own eviction ends an entry. */
module CacheSafety {
  import opened CacheEntries
  import opened Options

  predicate Holds(s: State, f: Fd, ino: Ino, write: bool) {
    f in s.locks && s.locks[f] == Held(ino, write)
  }

  /** `name` is a complete directory made for lock file `ino`, and the file is there. */
  predicate Linked(s: State, name: Name, ino: Ino) {
    Present(s, name) && DirAt(s, name).linked && DirAt(s, name).key == ino
  }

  predicate Complete(s: State, name: Name)
    requires Present(s, name)
  {
    var d := s.names[name];
    d in s.written && s.dirs[d].data == Some(s.written[d])
  }

  // ---- what each process knows at each point ----

  /** A store that owns its anonymous entry. */
  predicate Owns(s: State, p: Pid, title: string, ino: Ino, uuid: nat) {
    && Holds(s, Fd(p, Main), ino, true) && Linked(s, Anon(uuid), ino) && DirAt(s, Anon(uuid)).title == title
    && s.names[Anon(uuid)] !in s.damaged
  }

  predicate Finished(s: State, p: Pid, title: string, ino: Ino, uuid: nat, info: Option<nat>) {
    && Owns(s, p, title, ino, uuid)
    && Complete(s, Anon(uuid)) && DirAt(s, Anon(uuid)).info == info
  }

  predicate MainInv(s: State, p: Pid, pc: Pc) {
    var f := Fd(p, Main);
    match pc
    case Idle => f !in s.locks
    case Starting(title) => f !in s.locks
    case MakeDir(title, ino) => Holds(s, f, ino, true)
    case LinkLock(title, ino, uuid) =>
      && Holds(s, f, ino, true) && uuid in s.used
      && (Anon(uuid) in s.names ==>
            && Present(s, Anon(uuid)) && DirAt(s, Anon(uuid)) == Dir(ino, title, false, None, None)
            && s.names[Anon(uuid)] !in s.damaged)
    case MakeData(title, ino, uuid) =>
      Owns(s, p, title, ino, uuid) && DirAt(s, Anon(uuid)).data.None? && DirAt(s, Anon(uuid)).info.None?
    case Filling(title, ino, uuid) =>
      Owns(s, p, title, ino, uuid) && DirAt(s, Anon(uuid)).data.Some? && DirAt(s, Anon(uuid)).info.None?
    case Measured(title, ino, uuid, size) => Finished(s, p, title, ino, uuid, None)
    case Evicting(title, ino, uuid, size) => Finished(s, p, title, ino, uuid, None)
    case Retrying(title, ino, uuid, size) => Finished(s, p, title, ino, uuid, None)
    case PutInfo(title, ino, uuid, size) => Finished(s, p, title, ino, uuid, None)
    case Commit(title, ino, uuid, size) => Finished(s, p, title, ino, uuid, Some(size))
    case Check(title, ino, uuid, size) =>
      && Holds(s, f, ino, true) && uuid in s.used
      && (Anon(uuid) in s.names ==> Finished(s, p, title, ino, uuid, Some(size)))
    case DropInfo(title, ino, uuid, size) => Finished(s, p, title, ino, uuid, Some(size))
    case Refund(title, ino, uuid, size) => Holds(s, f, ino, true)
    case Cleaning(title, ino, uuid, step) =>
      && Holds(s, f, ino, true) && uuid in s.used
      && (!step.RmDir? ==> Owns(s, p, title, ino, uuid) && DirAt(s, Anon(uuid)).info.None?)
      && (step.RmLock? ==> DirAt(s, Anon(uuid)).data.None?)
      && (step.RmDir? && Anon(uuid) in s.names ==>
          Present(s, Anon(uuid)) && DirAt(s, Anon(uuid)) == Dir(ino, title, false, None, None))
    case Closing(ino) => Holds(s, f, ino, true)
    case LoadOpen(key) => f !in s.locks
    case LoadLock(key, ino) => f !in s.locks
    case LoadStat(key, ino) => Holds(s, f, ino, false)
    case Touch(key, ino) => Holds(s, f, ino, false) && Linked(s, User(key), ino)
    case Reading(key, ino) => Holds(s, f, ino, false) && Linked(s, User(key), ino)
  }

  predicate Unbroken(s: State, p: Pid) {
    forall d <- s.breaker :: s.breaker[d] != p
  }

  /** Process `p` is between unlinking the info file and the lock file of entry `name`. */
  predicate Breaks(s: State, p: Pid, name: Name) {
    && name in s.names && s.names[name] in s.breaker && s.breaker[s.names[name]] == p
    && forall d <- s.breaker :: s.breaker[d] == p ==> d == s.names[name]
  }

  predicate VictimInv(s: State, p: Pid, v: VictimPc) {
    var f := Fd(p, Victim);
    match v
    case Off => f !in s.locks && Unbroken(s, p)
    case Pick(_) => f !in s.locks && Unbroken(s, p)
    case VOpen(_, _) => f !in s.locks && Unbroken(s, p)
    case VLock(_, _, _) => f !in s.locks && Unbroken(s, p)
    case VStat(_, _, ino) => Holds(s, f, ino, true) && Unbroken(s, p)
    case Atime(_, name, ino) => Holds(s, f, ino, true) && Linked(s, name, ino) && Unbroken(s, p)
    case Measure(_, name, ino) => Holds(s, f, ino, true) && Linked(s, name, ino) && Unbroken(s, p)
    case Removing(_, name, ino, _, step) =>
      && Holds(s, f, ino, true)
      && (!step.RmDir? ==> Linked(s, name, ino))
      && (step.RmData? || step.RmLock? ==> Breaks(s, p, name) && DirAt(s, name).info.None?)
      && (step.RmCheck? || step.RmInfo? || step.RmDir? ==> Unbroken(s, p))
      && (step.RmLock? ==> DirAt(s, name).data.None?)
    case Deduct(_, ino, _) => Holds(s, f, ino, true) && Unbroken(s, p)
    case Release(_, ino, _) => Holds(s, f, ino, true) && Unbroken(s, p)
  }

  /** Eviction runs inside a store. */
  predicate ProcInv(s: State, p: Pid, pr: Proc) {
    MainInv(s, p, pr.pc) && VictimInv(s, p, pr.victim) && (pr.pc.Evicting? <==> !pr.victim.Off?)
  }

  // ---- what holds of the directory alone ----

  predicate NamesInv(s: State) {
    && (forall n <- s.names :: s.names[n] in s.dirs)
    && (forall n, m :: n in s.names && m in s.names && s.names[n] == s.names[m] ==> n == m)
    && (forall n <- s.names :: n.Anon? ==> n.uuid in s.used)
    && (forall n <- s.names :: n.User? ==> s.dirs[s.names[n]].title == n.key)
  }

  predicate LocksInv(s: State) {
    && (forall f <- s.locks :: f.pid in s.procs)
    && (forall f, g :: f in s.locks && g in s.locks && f != g && s.locks[f].ino == s.locks[g].ino ==>
          !s.locks[f].write && !s.locks[g].write)
  }

  /** An info file vouches for complete data, and goes first when an entry is taken apart. */
  predicate InfoInv(s: State) {
    && (forall d <- s.dirs :: s.dirs[d].info.Some? ==> d in s.written && s.dirs[d].data == Some(s.written[d]))
    && (forall d <- s.dirs :: s.dirs[d].linked && (d in s.damaged || d in s.breaker) ==> s.dirs[d].info.None?)
    && s.written.Keys <= s.dirs.Keys && s.damaged <= s.dirs.Keys
  }

  /** An entry under a caller's name has its info file unless its evictor, still holding the lock,
      is at work or has died there. */
  predicate UserInv(s: State) {
    && (forall n <- s.names :: n.User? ==>
          var d := s.names[n];
          d in s.dirs && (s.dirs[d].linked && d !in s.damaged ==> s.dirs[d].info.Some? || d in s.breaker))
    && (forall n <- s.names :: n.User? && s.names[n] in s.dirs && !s.dirs[s.names[n]].linked ==>
        s.dirs[s.names[n]].Empty())
  }

  predicate BreakerInv(s: State) {
    forall d <- s.breaker :: d in s.dirs && s.dirs[d].linked && Holds(s, Fd(s.breaker[d], Victim), s.dirs[d].key, true)
  }

  predicate EntriesInv(s: State) {
    InfoInv(s) && UserInv(s) && BreakerInv(s)
  }

  predicate DirInv(s: State) {
    NamesInv(s) && LocksInv(s) && EntriesInv(s)
  }

  predicate Inv(s: State) {
    DirInv(s) && forall p <- s.procs :: ProcInv(s, p, s.procs[p])
  }

  // ---- the guarantee of every system call, and what others may rely on ----

  /** The conditions under which the protocol issues a system call through descriptor `f`. */
  predicate Legal(s: State, f: Fd, sys: Sys) {
    match sys
    case Nop => true
    case Acquire(h) => f.pid in s.procs && f !in s.locks && Compatible(s, f, h)
    case Drop => f in s.locks && (f.role.Victim? ==> Unbroken(s, f.pid))
    case Mkdir(uuid, id, key, title) => uuid !in s.used && id !in s.dirs && Holds(s, f, key, true)
    case Put(name, dir, wrote, breaks) =>
      && Present(s, name) && Holds(s, f, dir.key, true)
      && var was := DirAt(s, name);
      && was.key == dir.key && was.title == dir.title
      && (name.User? ==> was.linked && (was != dir ==> f.role.Victim?))
      && (wrote ==> dir == was && was.info.None? && was.data.Some?)
      && (dir.info.Some? ==> Complete(s, name) && dir.data == was.data && !wrote)
      && (breaks ==> f.role.Victim? && dir.linked && dir.info.None? && Unbroken(s, f.pid))
      && (name.User? && dir.linked && !breaks ==> dir.info == was.info)
      && (was.info.None? && dir.info.Some? ==> f.role.Main? && s.names[name] !in s.damaged)
      && (!was.linked && dir.linked ==> s.names[name] !in s.damaged)
      && (!dir.linked ==> name.User? ==> dir.Empty())
      && (!dir.linked && s.names[name] in s.breaker ==> s.breaker[s.names[name]] == f.pid)
    case Rename(uuid, target) =>
      && Linked(s, Anon(uuid), DirAtKey(s, uuid)) && Holds(s, f, DirAtKey(s, uuid), true)
      && DirAt(s, Anon(uuid)).title == target && DirAt(s, Anon(uuid)).info.Some?
      && (User(target) in s.names ==> Present(s, User(target)) && DirAt(s, User(target)).Empty())
    case Rmdir(name) => Present(s, name) ==> DirAt(s, name).Empty()
  }

  function DirAtKey(s: State, uuid: nat): Ino {
    if Present(s, Anon(uuid)) then DirAt(s, Anon(uuid)).key else 0
  }

  /** The directory stays under its name, as it is. */
  predicate Frozen(s: State, s': State, n: Name)
    requires Present(s, n)
  {
    && Present(s', n) && s'.names[n] == s.names[n] && DirAt(s', n) == DirAt(s, n)
    && (s'.names[n] in s'.damaged ==> s.names[n] in s.damaged)
    && (s.names[n] in s.written <==> s.names[n] in s'.written)
    && (s.names[n] in s.written ==> s'.written[s.names[n]] == s.written[s.names[n]])
  }

  /** It stays as it is, as long as it is there. */
  predicate FrozenOrGone(s: State, s': State, n: Name)
    requires Present(s, n)
  {
    n in s'.names ==>
      && Present(s', n) && DirAt(s', n) == DirAt(s, n)
      && (s'.names[n] in s'.damaged ==> s.names[n] in s.damaged)
  }

  /** What the holder of descriptor `g` may rely on while others act: a lock on a linked lock
      file, of either kind, freezes the whole directory and its name; a directory made for a lock
      it holds is at most removed while still empty; names once used do not come back. */
  ghost predicate Stable(s: State, s': State, g: Fd) {
    && (g in s.locks <==> g in s'.locks)
    && (g in s.locks ==>
      && s'.locks[g] == s.locks[g]
      && var ino := s.locks[g].ino;
      && (forall n :: Linked(s, n, ino) ==> Frozen(s, s', n))
      && (s.locks[g].write ==>
            forall n: Name :: n.Anon? && Present(s, n) && DirAt(s, n).key == ino ==> FrozenOrGone(s, s', n)))
    && s.used <= s'.used
    && (forall n <- s'.names :: n.Anon? && n.uuid in s.used ==> n in s.names)
    && (g.role.Victim? ==> forall d :: (d in s.breaker && s.breaker[d] == g.pid) <==>
        (d in s'.breaker && s'.breaker[d] == g.pid))
  }

  lemma NopStable(s: State, f: Fd, sys: Sys, g: Fd)
    requires DirInv(s) && sys.Nop? && Legal(s, f, sys) && g != f
    ensures Stable(s, Exec(s, f, sys), g)
  {}

  lemma NopInv(s: State, f: Fd, sys: Sys)
    requires DirInv(s) && sys.Nop? && Legal(s, f, sys)
    ensures DirInv(Exec(s, f, sys))
  {}

  lemma AcquireStable(s: State, f: Fd, sys: Sys, g: Fd)
    requires DirInv(s) && sys.Acquire? && Legal(s, f, sys) && g != f
    ensures Stable(s, Exec(s, f, sys), g)
  {}

  lemma AcquireInv(s: State, f: Fd, sys: Sys)
    requires DirInv(s) && sys.Acquire? && Legal(s, f, sys)
    ensures DirInv(Exec(s, f, sys))
  {}

  lemma DropStable(s: State, f: Fd, sys: Sys, g: Fd)
    requires DirInv(s) && sys.Drop? && Legal(s, f, sys) && g != f
    ensures Stable(s, Exec(s, f, sys), g)
  {
    hide DirInv;
  }

  lemma DropInv(s: State, f: Fd, sys: Sys)
    requires DirInv(s) && sys.Drop? && Legal(s, f, sys)
    ensures DirInv(Exec(s, f, sys))
  {}

  lemma MkdirFreezes(s: State, f: Fd, sys: Sys, n: Name)
    requires DirInv(s) && sys.Mkdir? && Legal(s, f, sys) && Present(s, n)
    ensures Frozen(s, Exec(s, f, sys), n) == true && FrozenOrGone(s, Exec(s, f, sys), n) == true
  {
    hide LocksInv, UserInv, BreakerInv;
  }

  lemma MkdirStable(s: State, f: Fd, sys: Sys, g: Fd)
    requires DirInv(s) && sys.Mkdir? && Legal(s, f, sys) && g != f
    ensures Stable(s, Exec(s, f, sys), g)
  {
    var s' := Exec(s, f, sys);
    forall n | Present(s, n) ensures Frozen(s, s', n) == true && FrozenOrGone(s, s', n) == true {
      MkdirFreezes(s, f, sys, n);
    }
    hide DirInv, Frozen, FrozenOrGone;
  }

  lemma MkdirInv(s: State, f: Fd, sys: Sys)
    requires DirInv(s) && sys.Mkdir? && Legal(s, f, sys)
    ensures DirInv(Exec(s, f, sys))
  {
    var s' := Exec(s, f, sys);
    assert NamesInv(s') && LocksInv(s') by { hide EntriesInv; }
    MkdirEntriesInv(s, f, sys);
  }

  lemma MkdirEntriesInv(s: State, f: Fd, sys: Sys)
    requires DirInv(s) == true && sys.Mkdir? && Legal(s, f, sys) == true
    ensures EntriesInv(Exec(s, f, sys)) == true
  {
    MkdirInfoInv(s, f, sys);
    MkdirUserInv(s, f, sys);
  }

  lemma MkdirInfoInv(s: State, f: Fd, sys: Sys)
    requires DirInv(s) && sys.Mkdir? && Legal(s, f, sys)
    ensures InfoInv(Exec(s, f, sys)) == true && BreakerInv(Exec(s, f, sys)) == true
  {
    hide UserInv, LocksInv, NamesInv;
  }

  lemma MkdirUserInv(s: State, f: Fd, sys: Sys)
    requires DirInv(s) && sys.Mkdir? && Legal(s, f, sys)
    ensures UserInv(Exec(s, f, sys)) == true
  {
    hide InfoInv, LocksInv;
  }

  /** A directory is rewritten by whoever holds the lock on it alone. */
  lemma PutFreezes(s: State, f: Fd, sys: Sys, g: Fd, n: Name)
    requires DirInv(s) && sys.Put? && Legal(s, f, sys) && g != f && g in s.locks
    requires Present(s, n) && DirAt(s, n).key == s.locks[g].ino
    ensures Frozen(s, Exec(s, f, sys), n) == true && FrozenOrGone(s, Exec(s, f, sys), n) == true
  {
    hide InfoInv, UserInv, BreakerInv;
  }

  lemma PutStable(s: State, f: Fd, sys: Sys, g: Fd)
    requires DirInv(s) && sys.Put? && Legal(s, f, sys) && g != f
    ensures Stable(s, Exec(s, f, sys), g)
  {
    var s' := Exec(s, f, sys);
    forall n | g in s.locks && Present(s, n) && DirAt(s, n).key == s.locks[g].ino
      ensures Frozen(s, s', n) == true && FrozenOrGone(s, s', n) == true
    {
      PutFreezes(s, f, sys, g, n);
    }
    hide Frozen, FrozenOrGone, InfoInv, UserInv, NamesInv;
  }

  lemma PutInv(s: State, f: Fd, sys: Sys)
    requires DirInv(s) && sys.Put? && Legal(s, f, sys)
    ensures DirInv(Exec(s, f, sys))
  {
    var s' := Exec(s, f, sys);
    assert NamesInv(s') && LocksInv(s');
    PutEntriesInv(s, f, sys);
  }

  lemma PutEntriesInv(s: State, f: Fd, sys: Sys)
    requires DirInv(s) == true && sys.Put? && Legal(s, f, sys) == true
    ensures EntriesInv(Exec(s, f, sys)) == true
  {
    PutInfoInv(s, f, sys);
    PutUserInv(s, f, sys);
    PutBreakerInv(s, f, sys);
  }

  lemma PutInfoInv(s: State, f: Fd, sys: Sys)
    requires DirInv(s) && sys.Put? && Legal(s, f, sys)
    ensures InfoInv(Exec(s, f, sys)) == true
  {
    hide UserInv;
  }

  lemma PutUserInv(s: State, f: Fd, sys: Sys)
    requires DirInv(s) && sys.Put? && Legal(s, f, sys)
    ensures UserInv(Exec(s, f, sys)) == true
  {
    hide BreakerInv, LocksInv;
  }

  lemma PutBreakerInv(s: State, f: Fd, sys: Sys)
    requires DirInv(s) && sys.Put? && Legal(s, f, sys)
    ensures BreakerInv(Exec(s, f, sys)) == true
  {
    hide UserInv, InfoInv, NamesInv;
  }

  lemma RenameFreezes(s: State, f: Fd, sys: Sys, g: Fd, n: Name)
    requires DirInv(s) && sys.Rename? && Legal(s, f, sys) && g != f && g in s.locks
    requires Present(s, n) && DirAt(s, n).key == s.locks[g].ino
    ensures DirAt(s, n).linked ==> Frozen(s, Exec(s, f, sys), n) == true
    ensures n.Anon? ==> FrozenOrGone(s, Exec(s, f, sys), n) == true
  {
    hide InfoInv, BreakerInv;
  }

  lemma RenameStable(s: State, f: Fd, sys: Sys, g: Fd)
    requires DirInv(s) && sys.Rename? && Legal(s, f, sys) && g != f
    ensures Stable(s, Exec(s, f, sys), g)
  {
    var s' := Exec(s, f, sys);
    forall n | g in s.locks && Present(s, n) && DirAt(s, n).key == s.locks[g].ino
      ensures DirAt(s, n).linked ==> Frozen(s, s', n) == true
      ensures n.Anon? ==> FrozenOrGone(s, s', n) == true
    {
      RenameFreezes(s, f, sys, g, n);
    }
    hide Frozen, FrozenOrGone, InfoInv, UserInv, LocksInv;
  }

  lemma RenameInv(s: State, f: Fd, sys: Sys)
    requires DirInv(s) && sys.Rename? && Legal(s, f, sys)
    ensures DirInv(Exec(s, f, sys))
  {
    assert NamesInv(Exec(s, f, sys)) && LocksInv(Exec(s, f, sys)) by { hide EntriesInv; }
    RenameInfoInv(s, f, sys);
    RenameUserInv(s, f, sys);
  }

  lemma RenameInfoInv(s: State, f: Fd, sys: Sys)
    requires DirInv(s) && sys.Rename? && Legal(s, f, sys)
    ensures InfoInv(Exec(s, f, sys)) == true && BreakerInv(Exec(s, f, sys)) == true
  {
    hide UserInv, LocksInv, NamesInv;
  }

  lemma RenameUserInv(s: State, f: Fd, sys: Sys)
    requires DirInv(s) && sys.Rename? && Legal(s, f, sys)
    ensures UserInv(Exec(s, f, sys)) == true
  {
    hide LocksInv;
  }

  lemma RmdirStable(s: State, f: Fd, sys: Sys, g: Fd)
    requires DirInv(s) && sys.Rmdir? && Legal(s, f, sys) && g != f
    ensures Stable(s, Exec(s, f, sys), g)
  {}

  lemma RmdirInv(s: State, f: Fd, sys: Sys)
    requires DirInv(s) && sys.Rmdir? && Legal(s, f, sys)
    ensures DirInv(Exec(s, f, sys))
  {}

  lemma MainStable(s: State, s': State, p: Pid, pc: Pc)
    requires MainInv(s, p, pc) && Stable(s, s', Fd(p, Main))
    ensures MainInv(s', p, pc)
  {}

  lemma VictimStable(s: State, s': State, p: Pid, v: VictimPc)
    requires VictimInv(s, p, v) && Stable(s, s', Fd(p, Victim))
    ensures VictimInv(s', p, v)
  {}

  // ---- every action issues legal calls and re-establishes what its process knows ----

  predicate Acting(s: State, p: Pid) {
    DirInv(s) && p in s.procs && ProcInv(s, p, s.procs[p])
  }

  predicate PlanOk(s: State, p: Pid, plan: Plan) {
    var s' := Do(s, p, plan);
    && p in s.procs
    && var was := s.procs[p];
    Legal(s, Fd(p, plan.role), plan.sys)
    && (plan.proc.pc.Evicting? <==> !plan.proc.victim.Off?)
    && (plan.role.Main? || plan.proc.pc != was.pc ==> MainInv(s', p, plan.proc.pc))
    && (plan.role.Victim? || plan.proc.victim != was.victim ==> VictimInv(s', p, plan.proc.victim))
  }

  // Below, a predicate compared with `true` is one the verifier is asked not to unfold into its parts.

  lemma StoreCallOk(s: State, p: Pid, act: Act)
    requires act.StoreCall? && Acting(s, p) == true && StorePlan(s, p, s.procs[p], act).Some?
    ensures PlanOk(s, p, StorePlan(s, p, s.procs[p], act).value) == true
  {
    hide DirInv;
  }

  lemma MakeLockOk(s: State, p: Pid, act: Act)
    requires act.MakeLock? && Acting(s, p) == true && StorePlan(s, p, s.procs[p], act).Some?
    ensures PlanOk(s, p, StorePlan(s, p, s.procs[p], act).value) == true
  {
    hide DirInv;
  }

  lemma MakeDirectoryOk(s: State, p: Pid, act: Act)
    requires act.MakeDirectory? && Acting(s, p) == true && StorePlan(s, p, s.procs[p], act).Some?
    ensures PlanOk(s, p, StorePlan(s, p, s.procs[p], act).value) == true
  {}

  lemma LinkOk(s: State, p: Pid, act: Act)
    requires act.Link? && Acting(s, p) == true && StorePlan(s, p, s.procs[p], act).Some?
    ensures PlanOk(s, p, StorePlan(s, p, s.procs[p], act).value) == true
  {
    hide DirInv;
  }

  lemma LinkAgainOk(s: State, p: Pid, act: Act)
    requires act.LinkAgain? && Acting(s, p) == true && StorePlan(s, p, s.procs[p], act).Some?
    ensures PlanOk(s, p, StorePlan(s, p, s.procs[p], act).value) == true
  {
    hide DirInv;
  }

  lemma MakeDataDirOk(s: State, p: Pid, act: Act)
    requires act.MakeDataDir? && Acting(s, p) == true && StorePlan(s, p, s.procs[p], act).Some?
    ensures PlanOk(s, p, StorePlan(s, p, s.procs[p], act).value) == true
  {
    hide DirInv;
  }

  lemma FillOk(s: State, p: Pid, act: Act)
    requires act.Fill? && Acting(s, p) == true && StorePlan(s, p, s.procs[p], act).Some?
    ensures PlanOk(s, p, StorePlan(s, p, s.procs[p], act).value) == true
  {
    hide DirInv;
  }

  lemma FillFailsOk(s: State, p: Pid, act: Act)
    requires act.FillFails? && Acting(s, p) == true && StorePlan(s, p, s.procs[p], act).Some?
    ensures PlanOk(s, p, StorePlan(s, p, s.procs[p], act).value) == true
  {
    hide LocksInv;
  }

  lemma FillDoneOk(s: State, p: Pid, act: Act)
    requires act.FillDone? && Acting(s, p) == true && StorePlan(s, p, s.procs[p], act).Some?
    ensures PlanOk(s, p, StorePlan(s, p, s.procs[p], act).value) == true
  {
    hide DirInv;
  }

  lemma TooBigOk(s: State, p: Pid, act: Act)
    requires act.TooBig? && Acting(s, p) == true && StorePlan(s, p, s.procs[p], act).Some?
    ensures PlanOk(s, p, StorePlan(s, p, s.procs[p], act).value) == true
  {
    hide LocksInv, InfoInv, BreakerInv;
  }

  lemma ReserveOk(s: State, p: Pid, act: Act)
    requires act.Reserve? && Acting(s, p) == true && StorePlan(s, p, s.procs[p], act).Some?
    ensures PlanOk(s, p, StorePlan(s, p, s.procs[p], act).value) == true
  {
    hide DirInv;
  }

  lemma FullOk(s: State, p: Pid, act: Act)
    requires act.Full? && Acting(s, p) == true && StorePlan(s, p, s.procs[p], act).Some?
    ensures PlanOk(s, p, StorePlan(s, p, s.procs[p], act).value) == true
  {
    hide DirInv;
  }

  lemma GiveUpOk(s: State, p: Pid, act: Act)
    requires act.GiveUp? && Acting(s, p) == true && StorePlan(s, p, s.procs[p], act).Some?
    ensures PlanOk(s, p, StorePlan(s, p, s.procs[p], act).value) == true
  {
    hide LocksInv, InfoInv, BreakerInv;
  }

  lemma WriteInfoOk(s: State, p: Pid, act: Act)
    requires act.WriteInfo? && Acting(s, p) == true && StorePlan(s, p, s.procs[p], act).Some?
    ensures PlanOk(s, p, StorePlan(s, p, s.procs[p], act).value) == true
  {
    hide DirInv;
  }

  lemma RenameWinsOk(s: State, p: Pid, act: Act)
    requires act.RenameWins? && Acting(s, p) == true && CommitPlan(s, p, s.procs[p], act).Some?
    ensures PlanOk(s, p, CommitPlan(s, p, s.procs[p], act).value) == true
  {
    hide LocksInv;
  }

  lemma RenameLosesOk(s: State, p: Pid, act: Act)
    requires act.RenameLoses? && Acting(s, p) == true && CommitPlan(s, p, s.procs[p], act).Some?
    ensures PlanOk(s, p, CommitPlan(s, p, s.procs[p], act).value) == true
  {
    hide LocksInv;
  }

  lemma CheckGoneOk(s: State, p: Pid, act: Act)
    requires act.CheckGone? && Acting(s, p) == true && CommitPlan(s, p, s.procs[p], act).Some?
    ensures PlanOk(s, p, CommitPlan(s, p, s.procs[p], act).value) == true
  {
    hide DirInv;
  }

  lemma CheckLeftOk(s: State, p: Pid, act: Act)
    requires act.CheckLeft? && Acting(s, p) == true && CommitPlan(s, p, s.procs[p], act).Some?
    ensures PlanOk(s, p, CommitPlan(s, p, s.procs[p], act).value) == true
  {
    hide DirInv;
  }

  lemma UnlinkInfoOk(s: State, p: Pid, act: Act)
    requires act.UnlinkInfo? && Acting(s, p) == true && CommitPlan(s, p, s.procs[p], act).Some?
    ensures PlanOk(s, p, CommitPlan(s, p, s.procs[p], act).value) == true
  {
    hide DirInv;
  }

  lemma RefundedOk(s: State, p: Pid, act: Act)
    requires act.Refunded? && Acting(s, p) == true && CommitPlan(s, p, s.procs[p], act).Some?
    ensures PlanOk(s, p, CommitPlan(s, p, s.procs[p], act).value) == true
  {
    hide DirInv;
  }

  lemma CleanRmCheckOk(s: State, p: Pid, act: Act)
    requires act.Clean? && Acting(s, p) == true && CommitPlan(s, p, s.procs[p], act).Some?
    requires s.procs[p].pc.Cleaning? && s.procs[p].pc.step.RmCheck?
    ensures PlanOk(s, p, CommitPlan(s, p, s.procs[p], act).value) == true
  {
    hide DirInv;
  }

  lemma CleanRmInfoLegal(s: State, p: Pid, act: Act)
    requires act.Clean? && Acting(s, p) == true && CommitPlan(s, p, s.procs[p], act).Some?
    requires s.procs[p].pc.Cleaning? && s.procs[p].pc.step.RmInfo?
    ensures Legal(s, Fd(p, Main), CommitPlan(s, p, s.procs[p], act).value.sys)
  {
    hide DirInv;
  }

  lemma CleanRmInfoOwn(s: State, p: Pid, act: Act)
    requires act.Clean? && Acting(s, p) == true && CommitPlan(s, p, s.procs[p], act).Some?
    requires s.procs[p].pc.Cleaning? && s.procs[p].pc.step.RmInfo?
    ensures var plan := CommitPlan(s, p, s.procs[p], act).value; MainInv(Do(s, p, plan), p, plan.proc.pc)
  {
    hide DirInv;
  }

  lemma CleanRmInfoOk(s: State, p: Pid, act: Act)
    requires act.Clean? && Acting(s, p) == true && CommitPlan(s, p, s.procs[p], act).Some?
    requires s.procs[p].pc.Cleaning? && s.procs[p].pc.step.RmInfo?
    ensures PlanOk(s, p, CommitPlan(s, p, s.procs[p], act).value) == true
  {
    CleanRmInfoLegal(s, p, act);
    CleanRmInfoOwn(s, p, act);
  }

  lemma CleanRmDataLegal(s: State, p: Pid, act: Act)
    requires act.Clean? && Acting(s, p) == true && CommitPlan(s, p, s.procs[p], act).Some?
    requires s.procs[p].pc.Cleaning? && s.procs[p].pc.step.RmData?
    ensures Legal(s, Fd(p, Main), CommitPlan(s, p, s.procs[p], act).value.sys)
  {
    hide DirInv;
  }

  /** A store that rewrites its own linked entry keeps owning it. */
  lemma OwnsAfterPut(s: State, p: Pid, title: string, ino: Ino, uuid: nat, dir: Dir, breaks: bool)
    requires Owns(s, p, title, ino, uuid) && dir.key == ino && dir.title == title && dir.linked
    ensures var s' := Exec(s, Fd(p, Main), Put(Anon(uuid), dir, false, breaks));
            Owns(s', p, title, ino, uuid) && DirAt(s', Anon(uuid)) == dir
  {}

  lemma CleanRmDataOwn(s: State, p: Pid, act: Act)
    requires act.Clean? && Acting(s, p) == true && CommitPlan(s, p, s.procs[p], act).Some?
    requires s.procs[p].pc.Cleaning? && s.procs[p].pc.step.RmData?
    ensures var plan := CommitPlan(s, p, s.procs[p], act).value; MainInv(Do(s, p, plan), p, plan.proc.pc)
  {
    hide DirInv, Exec;
    var plan := CommitPlan(s, p, s.procs[p], act).value;
    var pc := s.procs[p].pc;
    assert Owns(s, p, pc.title, pc.ino, pc.uuid) && pc.uuid in s.used;
    var s0 := Exec(s, Fd(p, Main), plan.sys);
    if plan.sys.Put? {
      OwnsAfterPut(s, p, pc.title, pc.ino, pc.uuid, plan.sys.dir, false);
    } else {
      NopIsNothing(s, Fd(p, Main));
    }
    ExecUsed(s, Fd(p, Main), plan.sys);
    hide CommitPlan;
    assert MainInv(s0, p, plan.proc.pc);
    DoSameDisk(s, p, plan);
    MainReads(s0, Do(s, p, plan), p, plan.proc.pc);
  }

  lemma NopIsNothing(s: State, f: Fd)
    ensures Exec(s, f, Nop) == s
  {}

  lemma ExecUsed(s: State, f: Fd, sys: Sys)
    ensures s.used <= Exec(s, f, sys).used
  {}

  lemma CleanRmDataOk(s: State, p: Pid, act: Act)
    requires act.Clean? && Acting(s, p) == true && CommitPlan(s, p, s.procs[p], act).Some?
    requires s.procs[p].pc.Cleaning? && s.procs[p].pc.step.RmData?
    ensures PlanOk(s, p, CommitPlan(s, p, s.procs[p], act).value) == true
  {
    CleanRmDataLegal(s, p, act);
    CleanRmDataOwn(s, p, act);
  }

  lemma CleanRmLockLegal(s: State, p: Pid, act: Act)
    requires act.Clean? && Acting(s, p) == true && CommitPlan(s, p, s.procs[p], act).Some?
    requires s.procs[p].pc.Cleaning? && s.procs[p].pc.step.RmLock?
    ensures Legal(s, Fd(p, Main), CommitPlan(s, p, s.procs[p], act).value.sys) == true
  {
    hide UserInv, InfoInv;
  }

  lemma CleanRmLockOwn(s: State, p: Pid, act: Act)
    requires act.Clean? && Acting(s, p) == true && CommitPlan(s, p, s.procs[p], act).Some?
    requires s.procs[p].pc.Cleaning? && s.procs[p].pc.step.RmLock?
    ensures var plan := CommitPlan(s, p, s.procs[p], act).value; MainInv(Do(s, p, plan), p, plan.proc.pc)
  {
    hide DirInv;
  }

  lemma CleanRmLockOk(s: State, p: Pid, act: Act)
    requires act.Clean? && Acting(s, p) == true && CommitPlan(s, p, s.procs[p], act).Some?
    requires s.procs[p].pc.Cleaning? && s.procs[p].pc.step.RmLock?
    ensures PlanOk(s, p, CommitPlan(s, p, s.procs[p], act).value) == true
  {
    CleanRmLockLegal(s, p, act);
    CleanRmLockOwn(s, p, act);
    hide Legal, MainInv, VictimInv, DirInv;
  }

  lemma CleanRmDirOk(s: State, p: Pid, act: Act)
    requires act.Clean? && Acting(s, p) == true && CommitPlan(s, p, s.procs[p], act).Some?
    requires s.procs[p].pc.Cleaning? && s.procs[p].pc.step.RmDir?
    ensures PlanOk(s, p, CommitPlan(s, p, s.procs[p], act).value) == true
  {
    hide DirInv;
  }

  lemma CleanOk(s: State, p: Pid, act: Act)
    requires act.Clean? && Acting(s, p) == true && CommitPlan(s, p, s.procs[p], act).Some?
    ensures PlanOk(s, p, CommitPlan(s, p, s.procs[p], act).value) == true
  {
    match s.procs[p].pc.step
    case RmCheck => CleanRmCheckOk(s, p, act);
    case RmInfo => CleanRmInfoOk(s, p, act);
    case RmData => CleanRmDataOk(s, p, act);
    case RmLock => CleanRmLockOk(s, p, act);
    case RmDir => CleanRmDirOk(s, p, act);
  }

  lemma CloseOk(s: State, p: Pid, act: Act)
    requires act.Close? && Acting(s, p) == true && CommitPlan(s, p, s.procs[p], act).Some?
    ensures PlanOk(s, p, CommitPlan(s, p, s.procs[p], act).value) == true
  {
    hide DirInv;
  }

  lemma LoadCallOk(s: State, p: Pid, act: Act)
    requires act.LoadCall? && Acting(s, p) == true && LoadPlan(s, p, s.procs[p], act).Some?
    ensures PlanOk(s, p, LoadPlan(s, p, s.procs[p], act).value) == true
  {
    hide DirInv;
  }

  lemma LoadOpensOk(s: State, p: Pid, act: Act)
    requires act.LoadOpens? && Acting(s, p) == true && LoadPlan(s, p, s.procs[p], act).Some?
    ensures PlanOk(s, p, LoadPlan(s, p, s.procs[p], act).value) == true
  {
    hide DirInv;
  }

  lemma LoadMissOk(s: State, p: Pid, act: Act)
    requires act.LoadMiss? && Acting(s, p) == true && LoadPlan(s, p, s.procs[p], act).Some?
    ensures PlanOk(s, p, LoadPlan(s, p, s.procs[p], act).value) == true
  {
    hide DirInv;
  }

  lemma LoadLocksOk(s: State, p: Pid, act: Act)
    requires act.LoadLocks? && Acting(s, p) == true && LoadPlan(s, p, s.procs[p], act).Some?
    ensures PlanOk(s, p, LoadPlan(s, p, s.procs[p], act).value) == true
  {
    hide DirInv;
  }

  lemma LoadBusyOk(s: State, p: Pid, act: Act)
    requires act.LoadBusy? && Acting(s, p) == true && LoadPlan(s, p, s.procs[p], act).Some?
    ensures PlanOk(s, p, LoadPlan(s, p, s.procs[p], act).value) == true
  {
    hide DirInv;
  }

  lemma LoadSameOk(s: State, p: Pid, act: Act)
    requires act.LoadSame? && Acting(s, p) == true && LoadPlan(s, p, s.procs[p], act).Some?
    ensures PlanOk(s, p, LoadPlan(s, p, s.procs[p], act).value) == true
  {
    hide DirInv;
  }

  lemma LoadRetryOk(s: State, p: Pid, act: Act)
    requires act.LoadRetry? && Acting(s, p) == true && LoadPlan(s, p, s.procs[p], act).Some?
    ensures PlanOk(s, p, LoadPlan(s, p, s.procs[p], act).value) == true
  {
    hide DirInv;
  }

  lemma TouchedOk(s: State, p: Pid, act: Act)
    requires act.Touched? && Acting(s, p) == true && LoadPlan(s, p, s.procs[p], act).Some?
    ensures PlanOk(s, p, LoadPlan(s, p, s.procs[p], act).value) == true
  {
    hide DirInv;
  }

  lemma PickNextOk(s: State, p: Pid, act: Act)
    requires act.PickNext? && Acting(s, p) == true && VictimPlan(s, p, s.procs[p], act).Some?
    ensures PlanOk(s, p, VictimPlan(s, p, s.procs[p], act).value) == true
  {
    hide DirInv;
  }

  lemma PickEndOk(s: State, p: Pid, act: Act)
    requires act.PickEnd? && Acting(s, p) == true && VictimPlan(s, p, s.procs[p], act).Some?
    ensures PlanOk(s, p, VictimPlan(s, p, s.procs[p], act).value) == true
  {
    hide DirInv;
  }

  lemma VOpensOk(s: State, p: Pid, act: Act)
    requires act.VOpens? && Acting(s, p) == true && VictimPlan(s, p, s.procs[p], act).Some?
    ensures PlanOk(s, p, VictimPlan(s, p, s.procs[p], act).value) == true
  {
    hide DirInv;
  }

  lemma VGoneOk(s: State, p: Pid, act: Act)
    requires act.VGone? && Acting(s, p) == true && VictimPlan(s, p, s.procs[p], act).Some?
    ensures PlanOk(s, p, VictimPlan(s, p, s.procs[p], act).value) == true
  {
    hide LocksInv, InfoInv, BreakerInv;
  }

  lemma VLocksOk(s: State, p: Pid, act: Act)
    requires act.VLocks? && Acting(s, p) == true && VictimPlan(s, p, s.procs[p], act).Some?
    ensures PlanOk(s, p, VictimPlan(s, p, s.procs[p], act).value) == true
  {
    hide DirInv;
  }

  lemma VBusyOk(s: State, p: Pid, act: Act)
    requires act.VBusy? && Acting(s, p) == true && VictimPlan(s, p, s.procs[p], act).Some?
    ensures PlanOk(s, p, VictimPlan(s, p, s.procs[p], act).value) == true
  {
    hide DirInv;
  }

  lemma VSameOk(s: State, p: Pid, act: Act)
    requires act.VSame? && Acting(s, p) == true && VictimPlan(s, p, s.procs[p], act).Some?
    ensures PlanOk(s, p, VictimPlan(s, p, s.procs[p], act).value) == true
  {
    hide DirInv;
  }

  lemma VRetryOk(s: State, p: Pid, act: Act)
    requires act.VRetry? && Acting(s, p) == true && VictimPlan(s, p, s.procs[p], act).Some?
    ensures PlanOk(s, p, VictimPlan(s, p, s.procs[p], act).value) == true
  {
    hide DirInv;
  }

  lemma VSkipOk(s: State, p: Pid, act: Act)
    requires act.VSkip? && Acting(s, p) == true && VictimPlan(s, p, s.procs[p], act).Some?
    ensures PlanOk(s, p, VictimPlan(s, p, s.procs[p], act).value) == true
  {
    hide DirInv;
  }

  lemma VProceedOk(s: State, p: Pid, act: Act)
    requires act.VProceed? && Acting(s, p) == true && VictimPlan(s, p, s.procs[p], act).Some?
    ensures PlanOk(s, p, VictimPlan(s, p, s.procs[p], act).value) == true
  {
    hide DirInv;
  }

  lemma VMeasureOk(s: State, p: Pid, act: Act)
    requires act.VMeasure? && Acting(s, p) == true && VictimPlan(s, p, s.procs[p], act).Some?
    ensures PlanOk(s, p, VictimPlan(s, p, s.procs[p], act).value) == true
  {
    hide DirInv;
  }

  lemma VCleanRmCheckOk(s: State, p: Pid, act: Act)
    requires act.VClean? && Acting(s, p) == true && VictimPlan(s, p, s.procs[p], act).Some?
    requires s.procs[p].victim.Removing? && s.procs[p].victim.step.RmCheck?
    ensures PlanOk(s, p, VictimPlan(s, p, s.procs[p], act).value) == true
  {
    hide DirInv;
  }

  lemma VCleanKeepsPc(s: State, p: Pid, act: Act)
    requires act.VClean? && p in s.procs && VictimPlan(s, p, s.procs[p], act).Some?
    ensures var plan := VictimPlan(s, p, s.procs[p], act).value;
      plan.role.Victim? && plan.proc.pc == s.procs[p].pc && plan.proc.pc.Evicting? && !plan.proc.victim.Off?
  {
    hide RmStep, RmFails;
  }

  lemma VCleanRmInfoLegal(s: State, p: Pid, act: Act)
    requires act.VClean? && Acting(s, p) == true && VictimPlan(s, p, s.procs[p], act).Some?
    requires s.procs[p].victim.Removing? && s.procs[p].victim.step.RmInfo?
    ensures Legal(s, Fd(p, Victim), VictimPlan(s, p, s.procs[p], act).value.sys) == true
  {
    hide DirInv;
  }

  lemma VCleanRmInfoOwn(s: State, p: Pid, act: Act)
    requires act.VClean? && Acting(s, p) == true && VictimPlan(s, p, s.procs[p], act).Some?
    requires s.procs[p].victim.Removing? && s.procs[p].victim.step.RmInfo?
    ensures var plan := VictimPlan(s, p, s.procs[p], act).value; VictimInv(Do(s, p, plan), p, plan.proc.victim) == true
  {
    hide DirInv;
  }

  lemma VCleanRmInfoOk(s: State, p: Pid, act: Act)
    requires act.VClean? && Acting(s, p) == true && VictimPlan(s, p, s.procs[p], act).Some?
    requires s.procs[p].victim.Removing? && s.procs[p].victim.step.RmInfo?
    ensures PlanOk(s, p, VictimPlan(s, p, s.procs[p], act).value) == true
  {
    VCleanRmInfoLegal(s, p, act);
    VCleanRmInfoOwn(s, p, act);
    VCleanKeepsPc(s, p, act);
    hide Acting, VictimPlan, Legal, VictimInv, MainInv, Do;
  }

  lemma VCleanRmDataLegal(s: State, p: Pid, act: Act)
    requires act.VClean? && Acting(s, p) == true && VictimPlan(s, p, s.procs[p], act).Some?
    requires s.procs[p].victim.Removing? && s.procs[p].victim.step.RmData?
    ensures Legal(s, Fd(p, Victim), VictimPlan(s, p, s.procs[p], act).value.sys) == true
  {
    hide DirInv;
  }

  lemma VCleanRmDataOwn(s: State, p: Pid, act: Act)
    requires act.VClean? && Acting(s, p) == true && VictimPlan(s, p, s.procs[p], act).Some?
    requires s.procs[p].victim.Removing? && s.procs[p].victim.step.RmData?
    ensures var plan := VictimPlan(s, p, s.procs[p], act).value; VictimInv(Do(s, p, plan), p, plan.proc.victim) == true
  {
    hide DirInv;
  }

  lemma VCleanRmDataOk(s: State, p: Pid, act: Act)
    requires act.VClean? && Acting(s, p) == true && VictimPlan(s, p, s.procs[p], act).Some?
    requires s.procs[p].victim.Removing? && s.procs[p].victim.step.RmData?
    ensures PlanOk(s, p, VictimPlan(s, p, s.procs[p], act).value) == true
  {
    VCleanRmDataLegal(s, p, act);
    VCleanRmDataOwn(s, p, act);
    VCleanKeepsPc(s, p, act);
    hide Acting, VictimPlan, Legal, VictimInv, MainInv, Do;
  }

  lemma VCleanRmLockOk(s: State, p: Pid, act: Act)
    requires act.VClean? && Acting(s, p) == true && VictimPlan(s, p, s.procs[p], act).Some?
    requires s.procs[p].victim.Removing? && s.procs[p].victim.step.RmLock?
    ensures PlanOk(s, p, VictimPlan(s, p, s.procs[p], act).value) == true
  {
    hide DirInv;
  }

  lemma VCleanRmDirOk(s: State, p: Pid, act: Act)
    requires act.VClean? && Acting(s, p) == true && VictimPlan(s, p, s.procs[p], act).Some?
    requires s.procs[p].victim.Removing? && s.procs[p].victim.step.RmDir?
    ensures PlanOk(s, p, VictimPlan(s, p, s.procs[p], act).value) == true
  {
    hide DirInv;
  }

  lemma VCleanOk(s: State, p: Pid, act: Act)
    requires act.VClean? && Acting(s, p) == true && VictimPlan(s, p, s.procs[p], act).Some?
    ensures PlanOk(s, p, VictimPlan(s, p, s.procs[p], act).value) == true
  {
    match s.procs[p].victim.step
    case RmCheck => VCleanRmCheckOk(s, p, act);
    case RmInfo => VCleanRmInfoOk(s, p, act);
    case RmData => VCleanRmDataOk(s, p, act);
    case RmLock => VCleanRmLockOk(s, p, act);
    case RmDir => VCleanRmDirOk(s, p, act);
  }

  lemma VDirFullOk(s: State, p: Pid, act: Act)
    requires act.VDirFull? && Acting(s, p) == true && VictimPlan(s, p, s.procs[p], act).Some?
    ensures PlanOk(s, p, VictimPlan(s, p, s.procs[p], act).value) == true
  {
    hide DirInv;
  }

  lemma VDeductOk(s: State, p: Pid, act: Act)
    requires act.VDeduct? && Acting(s, p) == true && VictimPlan(s, p, s.procs[p], act).Some?
    ensures PlanOk(s, p, VictimPlan(s, p, s.procs[p], act).value) == true
  {
    hide DirInv;
  }

  lemma VReleaseNextOk(s: State, p: Pid, act: Act)
    requires act.VRelease? && Acting(s, p) == true && VictimPlan(s, p, s.procs[p], act).Some?
    requires s.procs[p].victim.after.Next?
    ensures PlanOk(s, p, VictimPlan(s, p, s.procs[p], act).value) == true
  {
    hide DirInv;
  }

  lemma VReleaseKeepsEntry(s: State, p: Pid)
    requires Acting(s, p) == true && s.procs[p].victim.Release?
    ensures var pc := s.procs[p].pc; var s' := Exec(s, Fd(p, Victim), Drop);
            && pc.Evicting? && pc.uuid in s.used && Legal(s, Fd(p, Victim), Drop) == true
            && MainInv(s', p, pc) == true && VictimInv(s', p, Off) == true
  {
    DropStable(s, Fd(p, Victim), Drop, Fd(p, Main));
    MainStable(s, Exec(s, Fd(p, Victim), Drop), p, s.procs[p].pc);
  }

  lemma VReleaseEndsOk(s: State, p: Pid, act: Act)
    requires act.VRelease? && Acting(s, p) == true && VictimPlan(s, p, s.procs[p], act).Some?
    requires !s.procs[p].victim.after.Next?
    ensures PlanOk(s, p, VictimPlan(s, p, s.procs[p], act).value) == true
  {
    VReleaseKeepsEntry(s, p);
    VReleaseEnds(s, p, act);
    var plan := VictimPlan(s, p, s.procs[p], act).value;
    hide Acting, MainInv, VictimInv, Legal, VictimPlan, Do, Exec;
    var s0 := Exec(s, Fd(p, Victim), Drop);
    DoSameDisk(s, p, plan);
    MainReads(s0, Do(s, p, plan), p, plan.proc.pc);
    VictimReads(s0, Do(s, p, plan), p, Off);
    SameEntry(s0, p, s.procs[p].pc, plan.proc.pc);
  }

  lemma VReleaseEnds(s: State, p: Pid, act: Act)
    requires act.VRelease? && p in s.procs && VictimPlan(s, p, s.procs[p], act).Some? && !s.procs[p].victim.after.Next?
    ensures var plan := VictimPlan(s, p, s.procs[p], act).value; var a := s.procs[p].pc;
      && plan.role.Victim? && plan.sys == Drop && plan.proc.victim.Off?
      && (plan.proc.pc == Retrying(a.title, a.ino, a.uuid, a.size)
          || plan.proc.pc == Cleaning(a.title, a.ino, a.uuid, RmCheck))
  {}

  /** The entry an evicting store holds is the one it goes on with, whichever way the eviction ends. */
  lemma SameEntry(s: State, p: Pid, a: Pc, b: Pc)
    requires a.Evicting? && MainInv(s, p, a) == true && a.uuid in s.used
    requires b == Retrying(a.title, a.ino, a.uuid, a.size) || b == Cleaning(a.title, a.ino, a.uuid, RmCheck)
    ensures MainInv(s, p, b)
  {}

  lemma MainReads(s: State, s': State, p: Pid, pc: Pc)
    requires SameDisk(s, s') == true
    ensures MainInv(s, p, pc) == MainInv(s', p, pc)
  {}

  lemma VictimReads(s: State, s': State, p: Pid, v: VictimPc)
    requires SameDisk(s, s') == true
    ensures VictimInv(s, p, v) == VictimInv(s', p, v)
  {}

  lemma VReleaseOk(s: State, p: Pid, act: Act)
    requires act.VRelease? && Acting(s, p) == true && VictimPlan(s, p, s.procs[p], act).Some?
    ensures PlanOk(s, p, VictimPlan(s, p, s.procs[p], act).value) == true
  {
    if s.procs[p].victim.after.Next? { VReleaseNextOk(s, p, act); } else { VReleaseEndsOk(s, p, act); }
  }

  lemma StoreOk(s: State, p: Pid, act: Act)
    requires Acting(s, p) == true && StorePlan(s, p, s.procs[p], act).Some?
    ensures PlanOk(s, p, StorePlan(s, p, s.procs[p], act).value) == true
  {
    match act
    case StoreCall(_) => StoreCallOk(s, p, act);
    case MakeLock(_) => MakeLockOk(s, p, act);
    case MakeDirectory(_, _) => MakeDirectoryOk(s, p, act);
    case Link => LinkOk(s, p, act);
    case LinkAgain => LinkAgainOk(s, p, act);
    case MakeDataDir => MakeDataDirOk(s, p, act);
    case Fill(_) => FillOk(s, p, act);
    case FillFails => FillFailsOk(s, p, act);
    case FillDone(_) => FillDoneOk(s, p, act);
    case TooBig => TooBigOk(s, p, act);
    case Reserve => ReserveOk(s, p, act);
    case Full(_) => FullOk(s, p, act);
    case GiveUp => GiveUpOk(s, p, act);
    case WriteInfo => WriteInfoOk(s, p, act);
    case _ =>
  }

  lemma CommitOk(s: State, p: Pid, act: Act)
    requires Acting(s, p) == true && CommitPlan(s, p, s.procs[p], act).Some?
    ensures PlanOk(s, p, CommitPlan(s, p, s.procs[p], act).value) == true
  {
    match act
    case RenameWins => RenameWinsOk(s, p, act);
    case RenameLoses => RenameLosesOk(s, p, act);
    case CheckGone => CheckGoneOk(s, p, act);
    case CheckLeft => CheckLeftOk(s, p, act);
    case UnlinkInfo => UnlinkInfoOk(s, p, act);
    case Refunded => RefundedOk(s, p, act);
    case Clean(_) => CleanOk(s, p, act);
    case Close => CloseOk(s, p, act);
    case _ =>
  }

  lemma LoadOk(s: State, p: Pid, act: Act)
    requires Acting(s, p) == true && LoadPlan(s, p, s.procs[p], act).Some?
    ensures PlanOk(s, p, LoadPlan(s, p, s.procs[p], act).value) == true
  {
    match act
    case LoadCall(_) => LoadCallOk(s, p, act);
    case LoadOpens(_) => LoadOpensOk(s, p, act);
    case LoadMiss => LoadMissOk(s, p, act);
    case LoadLocks => LoadLocksOk(s, p, act);
    case LoadBusy => LoadBusyOk(s, p, act);
    case LoadSame => LoadSameOk(s, p, act);
    case LoadRetry => LoadRetryOk(s, p, act);
    case Touched => TouchedOk(s, p, act);
    case _ =>
  }

  lemma VictimOk(s: State, p: Pid, act: Act)
    requires Acting(s, p) == true && VictimPlan(s, p, s.procs[p], act).Some?
    ensures PlanOk(s, p, VictimPlan(s, p, s.procs[p], act).value) == true
  {
    match act
    case PickNext => PickNextOk(s, p, act);
    case PickEnd => PickEndOk(s, p, act);
    case VOpens(_) => VOpensOk(s, p, act);
    case VGone => VGoneOk(s, p, act);
    case VLocks => VLocksOk(s, p, act);
    case VBusy => VBusyOk(s, p, act);
    case VSame => VSameOk(s, p, act);
    case VRetry => VRetryOk(s, p, act);
    case VSkip => VSkipOk(s, p, act);
    case VProceed => VProceedOk(s, p, act);
    case VMeasure(_) => VMeasureOk(s, p, act);
    case VClean(_) => VCleanOk(s, p, act);
    case VDirFull => VDirFullOk(s, p, act);
    case VDeduct => VDeductOk(s, p, act);
    case VRelease => VReleaseOk(s, p, act);
    case _ =>
  }

  // ---- the shape of each group of actions ----

  /** Only taking an entry apart, or a deduction that would go below 0, changes the drift. */
  predicate Drifts(s: State, act: Act, pr: Proc, plan: Plan) {
    && (!act.VDirFull? ==> plan.leak == 0)
    && (act.VClean? ==> plan.drift == s.drift + Mismatch(s, pr.victim))
    && (!act.VClean? ==> plan.drift == s.drift || (plan.drift > s.drift && plan.size == 0))
  }

  lemma StoreShape(s: State, p: Pid, act: Act)
    requires p in s.procs && StorePlan(s, p, s.procs[p], act).Some?
    ensures var plan := StorePlan(s, p, s.procs[p], act).value;
            && plan.drift == s.drift && plan.leak == 0 && !plan.sys.Rename? && !s.procs[p].pc.Reading?
            && (plan.sys.Put? ==> plan.sys.name.Anon?)
  {}

  lemma CommitShape(s: State, p: Pid, act: Act)
    requires p in s.procs && CommitPlan(s, p, s.procs[p], act).Some?
    ensures var plan := CommitPlan(s, p, s.procs[p], act).value; var pc := s.procs[p].pc;
            && plan.drift == s.drift + (if act.Refunded? then Clamped(s.size, pc.size) else 0) && plan.leak == 0
            && (act.Refunded? ==> pc.Refund? && plan.size == Apply(s.size, 0 - pc.size))
            && (plan.sys.Rename? ==> pc.Commit? && plan.sys == Rename(pc.uuid, pc.title))
            && (pc.Reading? ==> plan.proc.pc.Idle?)
            && (plan.sys.Put? ==> plan.sys.name.Anon?)
  {}

  lemma LoadShape(s: State, p: Pid, act: Act)
    requires p in s.procs && LoadPlan(s, p, s.procs[p], act).Some?
    ensures var plan := LoadPlan(s, p, s.procs[p], act).value;
            plan.drift == s.drift && plan.leak == 0 && !plan.sys.Rename? && !plan.sys.Put? && !s.procs[p].pc.Reading?
  {}

  lemma VictimShape(s: State, p: Pid, act: Act)
    requires p in s.procs && VictimPlan(s, p, s.procs[p], act).Some?
    ensures var plan := VictimPlan(s, p, s.procs[p], act).value; var v := s.procs[p].victim;
            && Drifts(s, act, s.procs[p], plan)
            && !plan.sys.Rename? && !s.procs[p].pc.Reading?
            && (plan.sys.Put? ==> act.VClean? && v.Removing? && v.name == plan.sys.name && !v.step.RmDir?)
  {}

  /** Only a store at its commit renames, only an evictor rewrites a caller's entry, and only
      an eviction can upset the books. */
  lemma PlanShape(s: State, p: Pid, act: Act)
    requires PlanOf(s, p, act).Some?
    ensures var plan := PlanOf(s, p, act).value; var pr := s.procs[p];
            && Drifts(s, act, pr, plan)
            && (plan.sys.Rename? ==> pr.pc.Commit? && plan.sys == Rename(pr.pc.uuid, pr.pc.title))
            && (plan.sys.Put? && plan.sys.name.User? ==>
                  act.VClean? && pr.victim.Removing? && pr.victim.name == plan.sys.name && !pr.victim.step.RmDir?)
            && (pr.pc.Reading? ==> plan.proc.pc.Idle?)
  {
    if StorePlan(s, p, s.procs[p], act).Some? { StoreShape(s, p, act); }
    else if CommitPlan(s, p, s.procs[p], act).Some? { CommitShape(s, p, act); }
    else if LoadPlan(s, p, s.procs[p], act).Some? { LoadShape(s, p, act); }
    else { VictimShape(s, p, act); }
    hide StorePlan, CommitPlan, LoadPlan, VictimPlan;
  }

  lemma PlanOfOk(s: State, p: Pid, act: Act)
    requires Acting(s, p) == true && PlanOf(s, p, act).Some?
    ensures PlanOk(s, p, PlanOf(s, p, act).value) == true
  {
    if StorePlan(s, p, s.procs[p], act).Some? { StoreOk(s, p, act); }
    else if CommitPlan(s, p, s.procs[p], act).Some? { CommitOk(s, p, act); }
    else if LoadPlan(s, p, s.procs[p], act).Some? { LoadOk(s, p, act); }
    else { VictimOk(s, p, act); }
  }

  lemma SysStable(s: State, f: Fd, sys: Sys, g: Fd)
    requires DirInv(s) == true && Legal(s, f, sys) == true && g != f
    ensures Stable(s, Exec(s, f, sys), g) == true
  {
    match sys
    case Nop => NopStable(s, f, sys, g);
    case Acquire(_) => AcquireStable(s, f, sys, g);
    case Drop => DropStable(s, f, sys, g);
    case Mkdir(_, _, _, _) => MkdirStable(s, f, sys, g);
    case Put(_, _, _, _) => PutStable(s, f, sys, g);
    case Rename(_, _) => RenameStable(s, f, sys, g);
    case Rmdir(_) => RmdirStable(s, f, sys, g);
  }

  lemma SysInv(s: State, f: Fd, sys: Sys)
    requires DirInv(s) == true && Legal(s, f, sys) == true
    ensures DirInv(Exec(s, f, sys)) == true
  {
    match sys
    case Nop => NopInv(s, f, sys);
    case Acquire(_) => AcquireInv(s, f, sys);
    case Drop => DropInv(s, f, sys);
    case Mkdir(_, _, _, _) => MkdirInv(s, f, sys);
    case Put(_, _, _, _) => PutInv(s, f, sys);
    case Rename(_, _) => RenameInv(s, f, sys);
    case Rmdir(_) => RmdirInv(s, f, sys);
  }

  /** Equality of everything the invariants read, other than the processes. */
  predicate SameDisk(s: State, s': State) {
    && s'.names == s.names && s'.dirs == s.dirs && s'.locks == s.locks && s'.used == s.used
    && s'.written == s.written && s'.breaker == s.breaker && s'.damaged == s.damaged
  }

  lemma StableReads(s: State, a: State, b: State, g: Fd)
    requires Stable(s, a, g) == true && SameDisk(a, b) == true
    ensures Stable(s, b, g) == true
  {}

  lemma DirReads(a: State, b: State)
    requires DirInv(a) && SameDisk(a, b) == true && a.procs.Keys <= b.procs.Keys
    ensures DirInv(b)
  {}

  lemma ExecKeeps(s: State, f: Fd, sys: Sys)
    ensures Exec(s, f, sys).procs == s.procs && Exec(s, f, sys).damaged == s.damaged
  {}

  lemma DoSameDisk(s: State, p: Pid, plan: Plan)
    requires p in s.procs
    ensures SameDisk(Exec(s, Fd(p, plan.role), plan.sys), Do(s, p, plan)) == true
    ensures s.procs.Keys <= Do(s, p, plan).procs.Keys
  {
    hide Exec;
  }

  lemma MovesDir(s: State, p: Pid, plan: Plan)
    requires DirInv(s) == true && PlanOk(s, p, plan)
    ensures DirInv(Do(s, p, plan)) == true
  {
    SysInv(s, Fd(p, plan.role), plan.sys);
    DoSameDisk(s, p, plan);
    ExecKeeps(s, Fd(p, plan.role), plan.sys);
    DirReads(Exec(s, Fd(p, plan.role), plan.sys), Do(s, p, plan));
  }

  lemma MovesStable(s: State, p: Pid, plan: Plan, g: Fd)
    requires DirInv(s) == true && PlanOk(s, p, plan) && g != Fd(p, plan.role)
    ensures Stable(s, Do(s, p, plan), g) == true
  {
    SysStable(s, Fd(p, plan.role), plan.sys, g);
    DoSameDisk(s, p, plan);
    StableReads(s, Exec(s, Fd(p, plan.role), plan.sys), Do(s, p, plan), g);
  }

  lemma MovesDisk(s: State, p: Pid, act: Act, s': State)
    requires Acting(s, p) == true && Moves(s, p, act, s')
    ensures PlanOk(s, p, PlanOf(s, p, act).value) == true && DirInv(s') == true
    ensures forall g: Fd :: g != Fd(p, PlanOf(s, p, act).value.role) ==> Stable(s, s', g) == true
  {
    var plan := PlanOf(s, p, act).value;
    PlanOfOk(s, p, act);
    MovesDir(s, p, plan);
    forall g: Fd | g != Fd(p, plan.role) ensures Stable(s, s', g) == true { MovesStable(s, p, plan, g); }
  }

  lemma OwnInv(s: State, p: Pid, act: Act, s': State)
    requires Acting(s, p) == true && Moves(s, p, act, s')
    requires PlanOk(s, p, PlanOf(s, p, act).value) == true
    requires forall g: Fd :: g != Fd(p, PlanOf(s, p, act).value.role) ==> Stable(s, s', g) == true
    ensures ProcInv(s', p, s'.procs[p]) == true
  {
    hide PlanOf, DirInv, Stable;
    var plan := PlanOf(s, p, act).value;
    if plan.role.Main? {
      if plan.proc.victim == s.procs[p].victim { VictimStable(s, s', p, plan.proc.victim); }
    } else {
      if plan.proc.pc == s.procs[p].pc { MainStable(s, s', p, plan.proc.pc); }
    }
  }

  lemma OtherInv(s: State, s': State, q: Pid)
    requires q in s.procs && ProcInv(s, q, s.procs[q]) == true
    requires Stable(s, s', Fd(q, Main)) == true && Stable(s, s', Fd(q, Victim)) == true
    ensures ProcInv(s', q, s.procs[q]) == true
  {
    MainStable(s, s', q, s.procs[q].pc);
    VictimStable(s, s', q, s.procs[q].victim);
  }

  lemma MovesInv(s: State, p: Pid, act: Act, s': State)
    requires Inv(s) && Moves(s, p, act, s')
    ensures Inv(s')
  {
    assert Acting(s, p);
    hide DirInv, ProcInv, PlanOf, Exec;
    MovesDisk(s, p, act, s');
    forall q | q in s'.procs ensures ProcInv(s', q, s'.procs[q]) == true {
      if q == p { OwnInv(s, p, act, s'); } else { OtherInv(s, s', q); }
    }
  }

  lemma CrashStable(s: State, p: Pid, s': State, g: Fd)
    requires DirInv(s) && Crash(s, p, s') && g.pid != p
    ensures Stable(s, s', g) == true
  {
    hide InfoInv, UserInv, NamesInv;
  }

  lemma CrashNames(s: State, p: Pid, s': State)
    requires DirInv(s) && Crash(s, p, s')
    ensures NamesInv(s') == true && LocksInv(s') == true
  {
    hide EntriesInv;
  }

  lemma CrashEntries(s: State, p: Pid, s': State)
    requires DirInv(s) && Crash(s, p, s')
    ensures InfoInv(s') == true && UserInv(s') == true
  {
    hide LocksInv;
  }

  lemma CrashBreakers(s: State, p: Pid, s': State)
    requires DirInv(s) && Crash(s, p, s')
    ensures BreakerInv(s') == true
  {
    hide InfoInv, UserInv, NamesInv;
  }

  lemma CrashDir(s: State, p: Pid, s': State)
    requires DirInv(s) == true && Crash(s, p, s') == true
    ensures DirInv(s') == true
  {
    CrashNames(s, p, s');
    CrashEntries(s, p, s');
    CrashBreakers(s, p, s');
  }

  lemma CrashInv(s: State, p: Pid, s': State)
    requires Inv(s) && Crash(s, p, s')
    ensures Inv(s')
  {
    CrashDir(s, p, s');
    forall q | q in s'.procs ensures ProcInv(s', q, s'.procs[q]) == true {
      CrashStable(s, p, s', Fd(q, Main));
      CrashStable(s, p, s', Fd(q, Victim));
      OtherInv(s, s', q);
    }
  }

  lemma StartInv(s: State, p: Pid, s': State)
    requires Inv(s) && Start(s, p, s')
    ensures Inv(s')
  {
    DirReads(s, s');
    forall q | q in s'.procs ensures ProcInv(s', q, s'.procs[q]) == true {
      if q == p {
        assert Fd(p, Main) !in s.locks && Fd(p, Victim) !in s.locks && Unbroken(s, p);
      } else {
        MainReads(s, s', q, s.procs[q].pc);
        VictimReads(s, s', q, s.procs[q].victim);
      }
    }
  }

  /** Every action of every process, and every crash, keeps the invariant. */
  lemma StepInv(s: State, s': State)
    requires Inv(s) && Step(s, s')
    ensures Inv(s')
  {
    var p :| StepOf(s, p, s');
    if Start(s, p, s') {
      StartInv(s, p, s');
    } else if Crash(s, p, s') {
      CrashInv(s, p, s');
    } else {
      var act :| Moves(s, p, act, s');
      MovesInv(s, p, act, s');
    }
  }

  lemma {:induction false} RunInv(run: seq<State>, i: nat)
    requires Run(run) && i < |run|
    ensures Inv(run[i])
  {
    if i > 0 {
      RunInv(run, i - 1);
      assert Step(run[i - 1], run[i - 1 + 1]);
      StepInv(run[i - 1], run[i]);
    }
  }

  lemma RunStep(run: seq<State>, i: nat)
    requires Run(run) && i + 1 < |run|
    ensures Inv(run[i]) == true && Step(run[i], run[i + 1]) == true
  {
    RunInv(run, i);
  }
}
