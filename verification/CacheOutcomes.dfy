/** How stores, loads and evictions end, and that each decision on the way there is right when it is taken. */
module CacheOutcomes {
  import opened CacheEntries
  import opened CacheSafety
  import opened CacheGuarantees

  // ---- who holds a lock ----

  /** In every reachable state a process has its main descriptor locked just from the locking of its lock file to
      the closing of it, and the other one just while it deals with the entry to evict. */
  lemma LocksAreHeld(run: seq<State>, i: nat, p: Pid)
    requires Run(run) && i < |run|
    ensures Fd(p, Main) in run[i].locks <==>
      p in run[i].procs && var pc := run[i].procs[p].pc; !pc.Idle? && !pc.Starting? && !pc.LoadOpen? && !pc.LoadLock?
    ensures Fd(p, Victim) in run[i].locks <==>
      p in run[i].procs && var v := run[i].procs[p].victim; !v.Off? && !v.Pick? && !v.VOpen? && !v.VLock?
  {
    RunInv(run, i);
    var s := run[i];
    if p in s.procs { HoldsHere(s, p); }
  }

  lemma HoldsHere(s: State, p: Pid)
    requires Acting(s, p)
    ensures Fd(p, Main) in s.locks <==>
      var pc := s.procs[p].pc; !pc.Idle? && !pc.Starting? && !pc.LoadOpen? && !pc.LoadLock?
    ensures Fd(p, Victim) in s.locks <==>
      var v := s.procs[p].victim; !v.Off? && !v.Pick? && !v.VOpen? && !v.VLock?
  {
    hide DirInv;
  }

  // ---- a store ----

  /** The store has made its entry, and has not yet come to its end. */
  predicate HasEntry(pc: Pc) {
    || pc.LinkLock? || pc.MakeData? || pc.Filling? || pc.Measured? || pc.Evicting? || pc.Retrying? || pc.PutInfo?
    || pc.Commit? || pc.Check? || pc.DropInfo? || pc.Refund? || pc.Cleaning?
  }

  /** A store ends with its random name gone, by the rename or by the cleanup, or, where it lost the name to another,
      after it has unlinked the info file of what it leaves behind and taken back its amount. */
  lemma StoreEnds(s: State, p: Pid, act: Act, s': State)
    requires p in s.procs && Acting(s, p) == true && Moves(s, p, act, s') == true && HasEntry(s.procs[p].pc)
    ensures HasEntry(s'.procs[p].pc) || s'.procs[p].pc.Closing? || s'.procs[p].pc.Starting?
    ensures s'.procs[p].pc.Closing? ==> Anon(s.procs[p].pc.uuid) !in s'.names || s.procs[p].pc.Refund?
    ensures s'.procs[p].pc.Starting? ==> Anon(s.procs[p].pc.uuid) !in s.names
    ensures s'.procs[p].pc.Refund? && !s.procs[p].pc.Refund? ==>
      var name := Anon(s.procs[p].pc.uuid);
      s'.procs[p].pc.uuid == name.uuid && Present(s', name) && DirAt(s', name).info.None?
    ensures s.procs[p].pc.Refund? ==> s'.size == if s.size < s.procs[p].pc.size then 0 else s.size - s.procs[p].pc.size
  {
    hide Acting, StorePlan, CommitPlan, PlanOf, Exec;
    if StorePlan(s, p, s.procs[p], act).Some? { StoreMoves(s, p, act, s'); StoreGoes(s, p, act); }
    else if CommitPlan(s, p, s.procs[p], act).Some? { CommitGoes(s, p, act, s'); }
    else { OthersGo(s, p, act, s'); }
  }

  lemma StoreGoes(s: State, p: Pid, act: Act)
    requires p in s.procs && StorePlan(s, p, s.procs[p], act).Some? && HasEntry(s.procs[p].pc)
    ensures var pc, to := s.procs[p].pc, StorePlan(s, p, s.procs[p], act).value.proc.pc;
            && (HasEntry(to) || to.Starting?) && !to.Refund? && !pc.Refund?
            && (to.Starting? ==> Anon(pc.uuid) !in s.names)
  {
    hide Present, FreeIno, Accepts, Apply;
  }

  lemma StoreMoves(s: State, p: Pid, act: Act, s': State)
    requires p in s.procs && Moves(s, p, act, s') && StorePlan(s, p, s.procs[p], act).Some?
    ensures var plan := StorePlan(s, p, s.procs[p], act).value;
      s'.procs == s.procs[p := plan.proc] && s'.size == plan.size
  {
    hide Exec, StorePlan, CommitPlan, LoadPlan, VictimPlan;
  }

  lemma CommitMoves(s: State, p: Pid, act: Act, s': State)
    requires p in s.procs && Moves(s, p, act, s')
    requires StorePlan(s, p, s.procs[p], act).None? && CommitPlan(s, p, s.procs[p], act).Some?
    ensures s' == Do(s, p, CommitPlan(s, p, s.procs[p], act).value)
  {
    hide Do, StorePlan, CommitPlan, LoadPlan, VictimPlan;
  }

  lemma CommitGoes(s: State, p: Pid, act: Act, s': State)
    requires Acting(s, p) && Moves(s, p, act, s') && HasEntry(s.procs[p].pc)
    requires StorePlan(s, p, s.procs[p], act).None? && CommitPlan(s, p, s.procs[p], act).Some?
    ensures var pc, to := s.procs[p].pc, s'.procs[p].pc;
            && (HasEntry(to) || to.Closing?)
            && (to.Closing? ==> Anon(pc.uuid) !in s'.names || pc.Refund?)
            && (to.Refund? && !pc.Refund? ==>
                  to.uuid == pc.uuid && Present(s', Anon(pc.uuid)) && DirAt(s', Anon(pc.uuid)).info.None?)
            && (pc.Refund? ==> s'.size == if s.size < pc.size then 0 else s.size - pc.size)
  {
    hide Moves, StorePlan, DirInv, VictimInv;
    CommitMoves(s, p, act, s');
  }

  lemma OthersGo(s: State, p: Pid, act: Act, s': State)
    requires p in s.procs && Moves(s, p, act, s') && HasEntry(s.procs[p].pc)
    requires StorePlan(s, p, s.procs[p], act).None? && CommitPlan(s, p, s.procs[p], act).None?
    ensures HasEntry(s'.procs[p].pc) && !s.procs[p].pc.Refund? && !s'.procs[p].pc.Refund?
  {
    hide Moves, StorePlan, CommitPlan, Exec;
    OthersMove(s, p, act, s');
  }

  lemma OthersMove(s: State, p: Pid, act: Act, s': State)
    requires p in s.procs && Moves(s, p, act, s') && InStore(s.procs[p].pc)
    requires StorePlan(s, p, s.procs[p], act).None? && CommitPlan(s, p, s.procs[p], act).None?
    ensures s.procs[p].pc.Evicting?
    ensures VictimPlan(s, p, s.procs[p], act).Some? && s' == Do(s, p, VictimPlan(s, p, s.procs[p], act).value)
  {
    hide Do, StorePlan, CommitPlan, LoadPlan, VictimPlan;
    NoLoadPlan(s, p, act);
    EvictsOnly(s, p, act);
  }

  lemma NoLoadPlan(s: State, p: Pid, act: Act)
    requires p in s.procs && InStore(s.procs[p].pc)
    ensures LoadPlan(s, p, s.procs[p], act).None?
  {
    hide MainTo;
  }

  lemma EvictsOnly(s: State, p: Pid, act: Act)
    requires p in s.procs && VictimPlan(s, p, s.procs[p], act).Some?
    ensures s.procs[p].pc.Evicting?
  {}

  /** Calls are about the name they are given. */
  lemma CallsName(s: State, p: Pid, act: Act, s': State)
    requires Moves(s, p, act, s')
    ensures act.StoreCall? ==> s'.procs[p].pc.Starting? && s'.procs[p].pc.title == act.title
    ensures act.LoadCall? ==> s'.procs[p].pc.LoadOpen? && s'.procs[p].pc.key == act.key
  {
    hide Exec;
  }

  predicate InStore(pc: Pc) { pc.Starting? || pc.MakeDir? || HasEntry(pc) }

  predicate Sized(pc: Pc) {
    pc.Measured? || pc.Evicting? || pc.Retrying? || pc.PutInfo? || pc.Commit? || pc.Check? || pc.DropInfo? || pc.Refund?
  }

  /** From its call to its end a store is about one name, one entry and one amount. */
  lemma StoreStays(s: State, p: Pid, act: Act, s': State)
    requires Moves(s, p, act, s') == true && p in s.procs && InStore(s.procs[p].pc)
    ensures Same(s.procs[p].pc, s'.procs[p].pc)
  {
    hide Moves, StorePlan, CommitPlan, Exec;
    if StorePlan(s, p, s.procs[p], act).Some? { StoreMoves(s, p, act, s'); FirstStays(s, p, act); }
    else if CommitPlan(s, p, s.procs[p], act).Some? { CommitStays(s, p, act, s'); }
    else { EvictionStays(s, p, act, s'); }
  }

  predicate Same(pc: Pc, to: Pc)
    requires InStore(pc)
  {
    && (InStore(to) ==> to.title == pc.title)
    && (HasEntry(pc) && HasEntry(to) ==> to.uuid == pc.uuid)
    && (Sized(pc) && Sized(to) ==> to.size == pc.size)
  }

  lemma FirstStays(s: State, p: Pid, act: Act)
    requires p in s.procs && InStore(s.procs[p].pc) && StorePlan(s, p, s.procs[p], act).Some?
    ensures Same(s.procs[p].pc, StorePlan(s, p, s.procs[p], act).value.proc.pc)
  {
    hide Present, FreeIno, Accepts, Apply;
  }

  lemma CommitStays(s: State, p: Pid, act: Act, s': State)
    requires p in s.procs && InStore(s.procs[p].pc) && Moves(s, p, act, s')
    requires StorePlan(s, p, s.procs[p], act).None? && CommitPlan(s, p, s.procs[p], act).Some?
    ensures Same(s.procs[p].pc, s'.procs[p].pc)
  {
    hide Moves, Exec, StorePlan;
    CommitMoves(s, p, act, s');
  }

  lemma EvictionStays(s: State, p: Pid, act: Act, s': State)
    requires p in s.procs && InStore(s.procs[p].pc) && Moves(s, p, act, s')
    requires StorePlan(s, p, s.procs[p], act).None? && CommitPlan(s, p, s.procs[p], act).None?
    ensures Same(s.procs[p].pc, s'.procs[p].pc)
  {
    hide Moves, StorePlan, CommitPlan, Exec;
    OthersMove(s, p, act, s');
  }

  /** The cache has no room for the amount. */
  predicate NoRoom(s: State, amount: nat) {
    0 <= s.maximum < s.size + amount
  }

  /** An entry is made room for only where it could fit but does not; it is accounted only where it fits, with just
      its amount; and it is given up only where the caller has failed, where it can never fit, where it does not fit
      after the eviction, or where that has failed. */
  lemma StoreDecides(s: State, p: Pid, act: Act, s': State)
    requires Moves(s, p, act, s') == true && p in s.procs
    ensures var pr, to := s.procs[p], s'.procs[p].pc;
      && (to.Evicting? && !pr.pc.Evicting? ==>
            pr.pc.Measured? && NoRoom(s, pr.pc.size) && pr.pc.size <= s.maximum && s'.size == s.size)
      && (to.PutInfo? && !pr.pc.PutInfo? ==>
            (pr.pc.Measured? || pr.pc.Retrying?) && !NoRoom(s, pr.pc.size) && s'.size == s.size + pr.pc.size)
      && (to.Cleaning? && !pr.pc.Cleaning? ==>
            || pr.pc.Filling?
            || (pr.pc.Measured? && 0 <= s.maximum < pr.pc.size)
            || (pr.pc.Retrying? && NoRoom(s, pr.pc.size))
            || (pr.pc.Evicting? && (LosesVictim(s, p) || (pr.victim.Release? && pr.victim.after.Abort?))))
  {
    hide Moves, StorePlan, CommitPlan, LoadPlan, Exec;
    if StorePlan(s, p, s.procs[p], act).Some? { StoreMoves(s, p, act, s'); FirstDecides(s, p, act); }
    else if CommitPlan(s, p, s.procs[p], act).Some? { CommitDecides(s, p, act, s'); }
    else if LoadPlan(s, p, s.procs[p], act).Some? { LoadDecides(s, p, act, s'); }
    else { VictimDecides(s, p, act, s'); }
  }

  lemma FirstDecides(s: State, p: Pid, act: Act)
    requires p in s.procs && StorePlan(s, p, s.procs[p], act).Some?
    ensures var pr, plan := s.procs[p], StorePlan(s, p, s.procs[p], act).value;
      && (plan.proc.pc.Evicting? && !pr.pc.Evicting? ==>
            pr.pc.Measured? && NoRoom(s, pr.pc.size) && pr.pc.size <= s.maximum && plan.size == s.size)
      && (plan.proc.pc.PutInfo? && !pr.pc.PutInfo? ==>
            (pr.pc.Measured? || pr.pc.Retrying?) && !NoRoom(s, pr.pc.size) && plan.size == s.size + pr.pc.size)
      && (plan.proc.pc.Cleaning? && !pr.pc.Cleaning? ==>
            || pr.pc.Filling?
            || (pr.pc.Measured? && 0 <= s.maximum < pr.pc.size)
            || (pr.pc.Retrying? && NoRoom(s, pr.pc.size)))
  {}

  lemma CommitDecides(s: State, p: Pid, act: Act, s': State)
    requires p in s.procs && StorePlan(s, p, s.procs[p], act).None? && CommitPlan(s, p, s.procs[p], act).Some?
    requires Moves(s, p, act, s')
    ensures var pc, to := s.procs[p].pc, s'.procs[p].pc;
      !to.Evicting? && !to.PutInfo? && (to.Cleaning? ==> pc.Cleaning?)
  {
    hide Exec, StorePlan, LoadPlan, VictimPlan;
  }

  lemma LoadDecides(s: State, p: Pid, act: Act, s': State)
    requires p in s.procs && StorePlan(s, p, s.procs[p], act).None? && CommitPlan(s, p, s.procs[p], act).None?
    requires LoadPlan(s, p, s.procs[p], act).Some? && Moves(s, p, act, s')
    ensures var to := s'.procs[p].pc; !to.Evicting? && !to.PutInfo? && !to.Cleaning?
  {
    hide Exec, StorePlan, CommitPlan, VictimPlan;
  }

  lemma VictimDecides(s: State, p: Pid, act: Act, s': State)
    requires p in s.procs && StorePlan(s, p, s.procs[p], act).None? && CommitPlan(s, p, s.procs[p], act).None?
    requires LoadPlan(s, p, s.procs[p], act).None? && Moves(s, p, act, s')
    ensures var pr, to := s.procs[p], s'.procs[p].pc;
      && pr.pc.Evicting? && !to.PutInfo?
      && (to.Cleaning? ==> LosesVictim(s, p) || (pr.victim.Release? && pr.victim.after.Abort?))
  {
    hide Exec, StorePlan, CommitPlan, LoadPlan;
  }

  // ---- a load ----

  predicate Loading(pc: Pc) {
    pc.LoadOpen? || pc.LoadLock? || pc.LoadStat? || pc.Touch?
  }

  function KeyOf(pc: Pc): string
    requires Loading(pc)
  {
    pc.key
  }

  /** A load ends in a miss only where there is no lock file, or where somebody else has it locked for writing. */
  lemma LoadEnds(s: State, p: Pid, act: Act, s': State)
    requires Moves(s, p, act, s') == true && p in s.procs && Loading(s.procs[p].pc)
    ensures var pc, to := s.procs[p].pc, s'.procs[p].pc;
      && (Loading(to) || to.Reading? || to.Idle?)
      && (Loading(to) ==> KeyOf(to) == KeyOf(pc)) && (to.Reading? ==> to.key == KeyOf(pc))
      && (to.Idle? ==>
            || (pc.LoadOpen? && NoLockFile(s, User(pc.key)))
            || (pc.LoadLock? && exists g <- s.locks :: g != Fd(p, Main) && s.locks[g] == Held(pc.ino, true)))
  {
    hide Moves, Exec;
    LoadMoves(s, p, act, s');
  }

  lemma LoadMoves(s: State, p: Pid, act: Act, s': State)
    requires Moves(s, p, act, s') && p in s.procs && Loading(s.procs[p].pc)
    ensures LoadPlan(s, p, s.procs[p], act).Some? && s' == Do(s, p, LoadPlan(s, p, s.procs[p], act).value)
  {
    hide Do, StorePlan, CommitPlan, LoadPlan;
    NoStorePlan(s, p, act);
    NoCommitPlan(s, p, act);
  }

  lemma NoStorePlan(s: State, p: Pid, act: Act)
    requires p in s.procs && (Loading(s.procs[p].pc) || s.procs[p].pc.Evicting?)
    ensures StorePlan(s, p, s.procs[p], act).None?
  {
    hide MainTo;
  }

  lemma NoCommitPlan(s: State, p: Pid, act: Act)
    requires p in s.procs && (Loading(s.procs[p].pc) || s.procs[p].pc.Evicting?)
    ensures CommitPlan(s, p, s.procs[p], act).None?
  {
    hide MainTo, RmStep, RmFails;
  }

  // ---- an eviction ----

  /** The list is walked in order.  A victim is passed over only where somebody else has it locked or its access time
      differs; after a removal the loop goes on iff less than twice the amount has been freed; and the store then tries
      again. */
  lemma EvictionGoesOn(s: State, p: Pid, act: Act, s': State)
    requires Moves(s, p, act, s') == true && p in s.procs && s.procs[p].pc.Evicting?
    ensures var v, to := s.procs[p].victim, s'.procs[p].victim;
      && (v.Pick? && to.VOpen? ==>
            v.loop.todo != [] && to.name == v.loop.todo[0] && to.loop == v.loop.(todo := v.loop.todo[1..]))
      && (s'.procs[p].pc.Retrying? ==> (v.Pick? && v.loop.todo == []) || (v.Release? && v.after.Stop?))
      && (v.VLock? && to.Pick? ==> to.loop == v.loop && !Compatible(s, Fd(p, Victim), Held(v.ino, true)))
      && (v.Deduct? ==>
            && to.Release? && to.loop == v.loop.(freed := v.loop.freed + v.size)
            && (to.after.Stop? <==> to.loop.freed >= 2 * to.loop.required) && !to.after.Abort?
            && s'.size == if s.size < v.size then 0 else s.size - v.size)
      && (v.Release? ==> if v.after.Next? then to == Pick(v.loop) else to.Off?)
      && (to.Pick? ==> v.VLock? || (v.Release? && v.after.Next?))
  {
    hide Moves, Exec;
    VictimMoves(s, p, act, s');
  }

  lemma VictimMoves(s: State, p: Pid, act: Act, s': State)
    requires Moves(s, p, act, s') && p in s.procs && s.procs[p].pc.Evicting?
    ensures VictimPlan(s, p, s.procs[p], act).Some? && s' == Do(s, p, VictimPlan(s, p, s.procs[p], act).value)
  {
    hide Do, StorePlan, CommitPlan, VictimPlan;
    NoStorePlan(s, p, act);
    NoCommitPlan(s, p, act);
  }

  function LoopOf(v: VictimPc): Loop
    requires !v.Off?
  {
    v.loop
  }

  predicate AsksRight(pr: Proc) {
    pr.pc.Evicting? ==> !pr.victim.Off? && LoopOf(pr.victim).required == pr.pc.size
  }

  lemma PlanAsks(s: State, p: Pid, act: Act, s': State)
    requires p in s.procs && Moves(s, p, act, s') && AsksRight(s.procs[p])
    ensures s'.procs == s.procs[p := s'.procs[p]] && AsksRight(s'.procs[p])
  {
    ExecKeeps(s, Fd(p, PlanOf(s, p, act).value.role), PlanOf(s, p, act).value.sys);
    if StorePlan(s, p, s.procs[p], act).Some? { StoreAsks(s, p, act); }
    else if CommitPlan(s, p, s.procs[p], act).Some? { CommitAsks(s, p, act); }
    else if LoadPlan(s, p, s.procs[p], act).Some? { LoadAsks(s, p, act); }
    else { VictimAsks(s, p, act); }
    hide StorePlan, CommitPlan, LoadPlan, VictimPlan, Exec, AsksRight;
  }

  lemma StoreAsks(s: State, p: Pid, act: Act)
    requires p in s.procs && StorePlan(s, p, s.procs[p], act).Some? && AsksRight(s.procs[p])
    ensures AsksRight(StorePlan(s, p, s.procs[p], act).value.proc)
  {}

  lemma CommitAsks(s: State, p: Pid, act: Act)
    requires p in s.procs && CommitPlan(s, p, s.procs[p], act).Some?
    ensures AsksRight(CommitPlan(s, p, s.procs[p], act).value.proc)
  {}

  lemma LoadAsks(s: State, p: Pid, act: Act)
    requires p in s.procs && LoadPlan(s, p, s.procs[p], act).Some?
    ensures AsksRight(LoadPlan(s, p, s.procs[p], act).value.proc)
  {}

  lemma VictimAsks(s: State, p: Pid, act: Act)
    requires p in s.procs && VictimPlan(s, p, s.procs[p], act).Some? && AsksRight(s.procs[p])
    ensures AsksRight(VictimPlan(s, p, s.procs[p], act).value.proc)
  {}

  lemma StepAsks(s: State, s': State, p: Pid)
    requires Step(s, s') && p in s'.procs && (p in s.procs ==> AsksRight(s.procs[p]))
    ensures AsksRight(s'.procs[p])
  {
    var q :| StepOf(s, q, s');
    hide AsksRight, PlanOf, Do;
    if act :| Moves(s, q, act, s') {
      if q == p { PlanAsks(s, p, act, s'); } else { OthersStay(s, q, act, s', p); }
    } else {
      StartAsks(s, q, s', p);
    }
  }

  lemma OthersStay(s: State, q: Pid, act: Act, s': State, p: Pid)
    requires Moves(s, q, act, s') && p != q && p in s'.procs
    ensures p in s.procs && s'.procs[p] == s.procs[p]
  {
    hide PlanOf, Exec;
  }

  lemma StartAsks(s: State, q: Pid, s': State, p: Pid)
    requires (Start(s, q, s') || Crash(s, q, s')) && p in s'.procs && (p in s.procs ==> AsksRight(s.procs[p]))
    ensures AsksRight(s'.procs[p])
  {}

  /** An eviction is asked for just the amount of the entry that is to be stored. */
  lemma {:induction false} EvictionAsks(run: seq<State>, i: nat, p: Pid)
    requires Run(run) == true && i < |run| && p in run[i].procs
    ensures AsksRight(run[i].procs[p])
  {
    hide Run, Step, AsksRight;
    if i == 0 {
      NobodyYet(run);
    } else {
      RunStep(run, i - 1);
      if p in run[i - 1].procs { EvictionAsks(run, i - 1, p); }
      StepAsks(run[i - 1], run[i], p);
    }
  }

  lemma NobodyYet(run: seq<State>)
    requires Run(run)
    ensures run[0].procs == map[]
  {}
}
