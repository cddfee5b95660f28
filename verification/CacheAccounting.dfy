/** What `cache.size` counts: never above a fixed maximum, and exactly the committed entries,
    the reservations under way and what crashes orphaned, until an eviction deducts another
    amount than its entry had accounted. */
module CacheAccounting {
  import opened CacheEntries
  import opened CacheSafety

  // ---- sums over finite maps ----

  function Total(m: map<nat, nat>): nat {
    if m == map[] then 0 else
      var k := Least(m.Keys);
      m[k] + Total(m - {k})
  }

  predicate IsLeast(k: nat, s: set<nat>) {
    k in s && forall x <- s :: k <= x
  }

  function Least(s: set<nat>): (k: nat)
    requires s != {}
    ensures IsLeast(k, s)
  {
    LeastExists(s);
    var k :| IsLeast(k, s);
    k
  }

  lemma {:induction false} LeastExists(s: set<nat>)
    requires s != {}
    ensures exists k :: IsLeast(k, s)
  {
    var y :| y in s;
    var rest := s - {y};
    if rest != {} {
      LeastExists(rest);
      var k :| IsLeast(k, rest);
      LeastWith(k, rest, y);
      assert rest + {y} == s;
    } else {
      assert IsLeast(y, s) by { assert s == {y}; }
    }
  }

  lemma LeastWith(k: nat, s: set<nat>, y: nat)
    requires IsLeast(k, s)
    ensures IsLeast(if k <= y then k else y, s + {y})
  {}

  lemma {:induction false} TotalTake(m: map<nat, nat>, k: nat)
    requires k in m
    ensures Total(m) == m[k] + Total(m - {k})
    decreases |m|
  {
    var l := Least(m.Keys);
    if l != k {
      var rest := m - {l};
      assert |rest.Keys| < |m.Keys| by { assert rest.Keys == m.Keys - {l}; }
      TotalTake(rest, k);
      assert rest - {k} == (m - {k}) - {l};
      var other := m - {k};
      assert l in other && forall x <- other.Keys :: x in m.Keys;
      assert Least(other.Keys) == l;
    }
  }

  lemma TotalPut(m: map<nat, nat>, k: nat, v: nat)
    ensures Total(m[k := v]) == Total(m) - (if k in m then m[k] else 0) + v
  {
    TotalTake(m[k := v], k);
    assert m[k := v] - {k} == m - {k};
    if k in m { TotalTake(m, k); } else { assert m - {k} == m; }
  }

  // ---- the ledger ----

  function CommittedBy(dirs: map<DirId, Dir>): map<nat, nat> {
    map d | d in dirs :: Accounted(dirs[d])
  }

  function PendingOf(procs: map<Pid, Proc>): map<nat, nat> {
    map p | p in procs :: Pending(procs[p])
  }

  /** The sizes in all info files. */
  function Committed(s: State): nat { Total(CommittedBy(s.dirs)) }

  /** What running processes have added without an info file yet, or have yet to take back. */
  function UnderWay(s: State): nat { Total(PendingOf(s.procs)) }

  predicate Ledger(s: State) {
    && (s.maximum >= 0 ==> s.size <= s.maximum)
    && s.size == Committed(s) + UnderWay(s) + s.leaked + s.drift
  }

  /** The change of the committed sum that a system call makes. */
  function Change(s: State, sys: Sys): int {
    if sys.Put? && Present(s, sys.name) then Accounted(sys.dir) - Accounted(DirAt(s, sys.name)) else 0
  }

  lemma ChangeIsRight(s: State, f: Fd, sys: Sys)
    requires sys.Mkdir? ==> sys.id !in s.dirs
    requires sys.Put? ==> Present(s, sys.name)
    ensures Committed(Exec(s, f, sys)) == Committed(s) + Change(s, sys)
  {
    var s' := Exec(s, f, sys);
    if sys.Put? {
      var d := s.names[sys.name];
      assert CommittedBy(s'.dirs) == CommittedBy(s.dirs)[d := Accounted(sys.dir)];
      TotalPut(CommittedBy(s.dirs), d, Accounted(sys.dir));
    } else if sys.Mkdir? {
      assert CommittedBy(s'.dirs) == CommittedBy(s.dirs)[sys.id := 0];
      TotalPut(CommittedBy(s.dirs), sys.id, 0);
    } else {
      assert s'.dirs == s.dirs;
    }
  }

  /** One plan keeps the books. */
  predicate Balanced(s: State, p: Pid, plan: Plan)
    requires p in s.procs
  {
    && (plan.sys.Put? ==> Present(s, plan.sys.name)) && (plan.sys.Mkdir? ==> plan.sys.id !in s.dirs)
    && (s.maximum >= 0 && s.size <= s.maximum ==> plan.size <= s.maximum)
    && plan.size - s.size
       == Change(s, plan.sys) + Pending(plan.proc) - Pending(s.procs[p]) + plan.leak + plan.drift - s.drift
  }

  lemma StoreBalanced(s: State, p: Pid, act: Act)
    requires Acting(s, p) == true && StorePlan(s, p, s.procs[p], act).Some?
    ensures Balanced(s, p, StorePlan(s, p, s.procs[p], act).value) == true
  {
    hide DirInv;
  }

  lemma CommitBalanced(s: State, p: Pid, act: Act)
    requires Acting(s, p) == true && CommitPlan(s, p, s.procs[p], act).Some?
    ensures Balanced(s, p, CommitPlan(s, p, s.procs[p], act).value) == true
  {
    hide DirInv;
  }

  lemma LoadBalanced(s: State, p: Pid, act: Act)
    requires Acting(s, p) == true && LoadPlan(s, p, s.procs[p], act).Some?
    ensures Balanced(s, p, LoadPlan(s, p, s.procs[p], act).value) == true
  {
    hide DirInv;
  }

  lemma VCleanBalanced(s: State, p: Pid, act: Act)
    requires act.VClean? && Acting(s, p) == true && VictimPlan(s, p, s.procs[p], act).Some?
    ensures Balanced(s, p, VictimPlan(s, p, s.procs[p], act).value) == true
  {
    hide DirInv;
  }

  lemma VictimBalanced(s: State, p: Pid, act: Act)
    requires Acting(s, p) == true && VictimPlan(s, p, s.procs[p], act).Some?
    ensures Balanced(s, p, VictimPlan(s, p, s.procs[p], act).value) == true
  {
    if act.VClean? { VCleanBalanced(s, p, act); }
    else if act.VMeasure? || act.VDirFull? || act.VDeduct? { AmountsBalanced(s, p, act); }
    else { OthersBalanced(s, p, act); }
  }

  /** The actions of an eviction that change an amount. */
  lemma AmountsBalanced(s: State, p: Pid, act: Act)
    requires act.VMeasure? || act.VDirFull? || act.VDeduct?
    requires Acting(s, p) == true && VictimPlan(s, p, s.procs[p], act).Some?
    ensures Balanced(s, p, VictimPlan(s, p, s.procs[p], act).value) == true
  {
    hide DirInv, ProcInv;
  }

  lemma OthersBalanced(s: State, p: Pid, act: Act)
    requires !act.VClean? && !act.VMeasure? && !act.VDirFull? && !act.VDeduct?
    requires Acting(s, p) == true && VictimPlan(s, p, s.procs[p], act).Some?
    ensures Balanced(s, p, VictimPlan(s, p, s.procs[p], act).value) == true
  {
    hide DirInv, ProcInv;
  }

  lemma PlanBalanced(s: State, p: Pid, act: Act)
    requires Acting(s, p) == true && PlanOf(s, p, act).Some?
    ensures Balanced(s, p, PlanOf(s, p, act).value) == true
  {
    if StorePlan(s, p, s.procs[p], act).Some? { StoreBalanced(s, p, act); }
    else if CommitPlan(s, p, s.procs[p], act).Some? { CommitBalanced(s, p, act); }
    else if LoadPlan(s, p, s.procs[p], act).Some? { LoadBalanced(s, p, act); }
    else { VictimBalanced(s, p, act); }
  }

  lemma UnderWayPut(s: State, p: Pid, pr: Proc)
    ensures Total(PendingOf(s.procs[p := pr]))
            == UnderWay(s) - (if p in s.procs then Pending(s.procs[p]) else 0) + Pending(pr)
  {
    assert PendingOf(s.procs[p := pr]) == PendingOf(s.procs)[p := Pending(pr)];
    TotalPut(PendingOf(s.procs), p, Pending(pr));
  }

  lemma DoLedger(s: State, p: Pid, plan: Plan)
    requires p in s.procs && Balanced(s, p, plan)
    requires s.maximum >= 0 ==> s.size <= s.maximum
    requires s.size == Committed(s) + UnderWay(s) + s.leaked + s.drift
    ensures var s' := Do(s, p, plan);
            && (s'.maximum >= 0 ==> s'.size <= s'.maximum)
            && s'.size == Committed(s') + UnderWay(s') + s'.leaked + s'.drift
  {
    DoSums(s, p, plan);
    DoAmounts(s, p, plan);
    hide Do, Committed, UnderWay, Pending, Change, Present;
  }

  lemma DoAmounts(s: State, p: Pid, plan: Plan)
    ensures var s' := Do(s, p, plan);
            && s'.maximum == s.maximum && s'.size == plan.size && s'.drift == plan.drift
            && s'.leaked == s.leaked + plan.leak
  {
    ExecKeepsMaximum(s, Fd(p, plan.role), plan.sys);
    hide Exec;
  }

  lemma ExecKeepsMaximum(s: State, f: Fd, sys: Sys)
    ensures Exec(s, f, sys).maximum == s.maximum
  {}

  lemma DoSums(s: State, p: Pid, plan: Plan)
    requires p in s.procs && Balanced(s, p, plan)
    ensures Committed(Do(s, p, plan)) == Committed(s) + Change(s, plan.sys)
    ensures UnderWay(Do(s, p, plan)) == UnderWay(s) - Pending(s.procs[p]) + Pending(plan.proc)
  {
    UnderWayPut(s, p, plan.proc);
    ChangeIsRight(s, Fd(p, plan.role), plan.sys);
  }

  lemma MovesLedger(s: State, p: Pid, act: Act, s': State)
    requires Inv(s) == true && Ledger(s) && Moves(s, p, act, s')
    ensures Ledger(s') == true
  {
    assert Acting(s, p);
    PlanBalanced(s, p, act);
    hide PlanOf, Balanced, Committed, UnderWay, Do;
    DoLedger(s, p, PlanOf(s, p, act).value);
  }

  lemma CrashLedger(s: State, p: Pid, s': State)
    requires Inv(s) == true && Ledger(s) && Crash(s, p, s')
    ensures Ledger(s')
  {
    assert PendingOf(s'.procs) == PendingOf(s.procs) - {p};
    TotalTake(PendingOf(s.procs), p);
  }

  lemma StartLedger(s: State, p: Pid, s': State)
    requires Ledger(s) && Start(s, p, s')
    ensures Ledger(s')
  {
    UnderWayPut(s, p, Proc(Idle, Off));
  }

  lemma StepLedger(s: State, s': State)
    requires Inv(s) == true && Ledger(s) == true && Step(s, s') == true
    ensures Ledger(s') == true
  {
    var p :| StepOf(s, p, s');
    if Start(s, p, s') {
      StartLedger(s, p, s');
    } else if Crash(s, p, s') {
      CrashLedger(s, p, s');
    } else {
      var act :| Moves(s, p, act, s');
      MovesLedger(s, p, act, s');
    }
  }

  lemma InitLedger(s: State)
    requires Init(s)
    ensures Ledger(s) == true
  {}

  lemma {:induction false} RunLedger(run: seq<State>, i: nat)
    requires Run(run) && i < |run|
    ensures Ledger(run[i]) == true
  {
    if i == 0 {
      InitLedger(run[0]);
    } else {
      hide Run, Step, Inv, Ledger;
      RunLedger(run, i - 1);
      RunStep(run, i - 1);
      StepLedger(run[i - 1], run[i]);
    }
  }

  /** In every reachable state the size respects the limit, and is the committed sum, plus what is under way,
      plus what crashes and failed evictions orphaned, plus the drift: what evictions have deducted too little. */
  lemma AccountingIsExact(run: seq<State>, i: nat)
    requires Run(run) && i < |run|
    ensures var s := run[i];
            && (s.maximum >= 0 ==> s.size <= s.maximum)
            && s.size == Committed(s) + UnderWay(s) + s.leaked + s.drift
  {
    RunLedger(run, i);
  }

  // ---- what the drift is ----

  /** A step of an eviction, which removes an entry that accounts `d` more than has been measured. */
  ghost predicate Removes(s: State, s': State, d: int) {
    exists p, item: Item :: RemovalBy(s, p, item, s', d)
  }

  ghost predicate RemovalBy(s: State, p: Pid, item: Item, s': State, d: int) {
    Moves(s, p, VClean(item), s') && d == Mismatch(s, s.procs[p].victim)
  }

  /** What the step removes was accounted as it was measured. */
  ghost predicate RemovesExactly(s: State, s': State) {
    forall d: int :: Removes(s, s', d) ==> d == 0
  }

  /** What the step removes was measured as no less than it was accounted. */
  ghost predicate RemovesEnough(s: State, s': State) {
    forall d: int :: Removes(s, s', d) ==> d <= 0
  }

  /** A deduction stops at 0 only where nothing is left above the drift. */
  lemma MovesDrift(s: State, p: Pid, act: Act, s': State)
    requires Ledger(s') && Moves(s, p, act, s')
    ensures act.VClean? ==> s'.drift == s.drift + Mismatch(s, s.procs[p].victim)
    ensures !act.VClean? ==> s'.drift == s.drift || s.drift < s'.drift <= 0
    ensures !act.VDirFull? ==> s'.leaked == s.leaked
  {
    PlanShape(s, p, act);
    hide PlanOf, Exec, Committed, UnderWay, Mismatch;
  }

  lemma StepDrift(s: State, s': State) returns (d: int)
    requires Ledger(s') == true && Step(s, s') == true
    ensures RemovesExactly(s, s') ==> d == 0
    ensures RemovesEnough(s, s') ==> d <= 0
    ensures s'.drift == s.drift + d || s.drift < s'.drift <= 0
  {
    d := 0;
    var p :| StepOf(s, p, s');
    if act :| Moves(s, p, act, s') {
      MovesDrift(s, p, act, s');
      if act.VClean? {
        d := Mismatch(s, s.procs[p].victim);
        assert RemovalBy(s, p, act.item, s', d);
        assert Removes(s, s', d);
      }
    }
  }

  /** While every eviction has measured what its entry accounted, there is no drift; while each has measured
      at least that, the size is at most what it should be.  (A measured entry has more in it than `data/`.) */
  lemma {:induction false} DriftIs(run: seq<State>, i: nat)
    requires Run(run) == true && i < |run|
    ensures (forall m :: 0 <= m < i ==> RemovesExactly(run[m], run[m + 1])) ==> run[i].drift == 0
    ensures (forall m :: 0 <= m < i ==> RemovesEnough(run[m], run[m + 1])) ==> run[i].drift <= 0
  {
    hide Run, Step, RemovesExactly, RemovesEnough, Ledger;
    if i == 0 {
      StartsEmpty(run);
    } else {
      DriftIs(run, i - 1);
      RunStep(run, i - 1);
      RunLedger(run, i);
      var d := StepDrift(run[i - 1], run[i]);
      assert run[i - 1 + 1] == run[i];
    }
  }

  /** Process `p` takes an entry apart, or fails at the end of it. */
  ghost predicate EvictionMove(s: State, p: Pid, s': State) {
    Moves(s, p, VDirFull, s') || exists item :: Moves(s, p, VClean(item), s')
  }

  ghost predicate EvictionStep(s: State, s': State) {
    exists p :: EvictionMove(s, p, s')
  }

  ghost predicate CrashStep(s: State, s': State) {
    exists p :: Crash(s, p, s')
  }

  lemma OnlyCrashesLeak(s: State, s': State)
    requires Ledger(s') == true && Step(s, s') == true && EvictionStep(s, s') == false && CrashStep(s, s') == false
    ensures s'.leaked == s.leaked
  {
    var p :| StepOf(s, p, s');
    if act :| Moves(s, p, act, s') {
      assert !EvictionMove(s, p, s');
      MovesDrift(s, p, act, s');
    }
  }

  lemma StartsEmpty(run: seq<State>)
    requires Run(run)
    ensures run[0].drift == 0 && run[0].leaked == 0
  {}

  lemma NothingRemoved(s: State, s': State)
    ensures RemovesExactly(s, s') || EvictionStep(s, s')
  {
    if d: int :| Removes(s, s', d) {
      var p, item: Item :| RemovalBy(s, p, item, s', d);
      assert EvictionMove(s, p, s');
    }
  }

  /** Runs without evictions are exact; without crashes as well, nothing is orphaned. */
  lemma EvictionFreeIsExact(run: seq<State>, i: nat)
    requires Run(run) == true && i < |run|
    requires forall m :: 0 <= m < i ==> EvictionStep(run[m], run[m + 1]) == false
    ensures run[i].size == Committed(run[i]) + UnderWay(run[i]) + run[i].leaked
    ensures (forall m :: 0 <= m < i ==> CrashStep(run[m], run[m + 1]) == false) ==> run[i].leaked == 0
  {
    AccountingIsExact(run, i);
    hide Run, EvictionStep, CrashStep, RemovesExactly, Committed, UnderWay;
    forall m | 0 <= m < i ensures RemovesExactly(run[m], run[m + 1]) {
      assert EvictionStep(run[m], run[m + 1]) == false;
      NothingRemoved(run[m], run[m + 1]);
    }
    DriftIs(run, i);
    if forall m :: 0 <= m < i ==> CrashStep(run[m], run[m + 1]) == false { NothingLeaks(run, i); }
  }

  lemma {:induction false} NothingLeaks(run: seq<State>, i: nat)
    requires Run(run) == true && i < |run|
    requires forall m :: 0 <= m < i ==> EvictionStep(run[m], run[m + 1]) == false
    requires forall m :: 0 <= m < i ==> CrashStep(run[m], run[m + 1]) == false
    ensures run[i].leaked == 0
  {
    hide Run, Step, EvictionStep, CrashStep, Ledger;
    if i == 0 {
      StartsEmpty(run);
    } else {
      NothingLeaks(run, i - 1);
      RunStep(run, i - 1);
      RunLedger(run, i);
      assert EvictionStep(run[i - 1], run[i - 1 + 1]) == false && CrashStep(run[i - 1], run[i - 1 + 1]) == false;
      OnlyCrashesLeak(run[i - 1], run[i]);
    }
  }
}
