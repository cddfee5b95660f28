/** The `cache.size` protocol: any number of processes share one counter file.  A process
    opens the file, locks what it opened, checks that the path still names the locked file,
    and only then reads it; the new value goes into a private file which is renamed over the
    old one.  One action below is one system call; `Crash` may happen between any two. */
module CacheSize {

  type Pid = nat
  type Ino = nat
  type Call = nat

  datatype Path = SizeFile | Temp(uuid: nat)

  /** A file is `Partial` from its creation until its one value has been flushed to it. */
  datatype Content = Partial | Number(n: nat)

  /** A process has at most two open file descriptions: one of `cache.size`, one of its private file. */
  datatype Fd = Outer(pid: Pid) | Inner(pid: Pid)

  /** What a private file is being prepared for. */
  datatype Job = Setup | Replace(call: Call, outer: Ino, value: nat)

  datatype Pc =
    | Entering                                       // before `_create_scaffolding`
    | Creating(job: Job, uuid: nat)                  // name chosen, open(O_CREAT|O_EXCL) next
    | TempOpened(job: Job, uuid: nat, ino: Ino)
    | TempLocked(job: Job, uuid: nat, ino: Ino)
    | TempReady(job: Job, uuid: nat, ino: Ino)       // stat agreed, write next
    | TempWritten(job: Job, uuid: nat, ino: Ino)     // flushed, link or rename next
    | Published(job: Job, uuid: nat, ino: Ino)       // unlock and close the private file next
    | TempClosed(job: Job, uuid: nat)                // unlink the private name next
    | Ready
    | Opening(call: Call)
    | Opened(call: Call, ino: Ino)
    | Locked(call: Call, ino: Ino)
    | Valid(call: Call, ino: Ino)                    // path and descriptor agreed, read next
    | Loaded(call: Call, ino: Ino, size: nat)        // decide next
    | Closing(call: Call, ino: Ino, ok: bool)        // unlock the counter file and return next

  /** `log` lists the calls in the order of their renames and `results` what the finished
      calls returned; both are bookkeeping that no action consults. */
  datatype State = State(
    paths: map<Path, Ino>,
    content: map<Ino, Content>,
    locks: map<Ino, Fd>,
    procs: map<Pid, Pc>,
    diffs: seq<int>,
    log: seq<Call>,
    results: map<Call, bool>,
    maximum: int)

  const EMPTY := State(map[], map[], map[], map[], [], [], map[], 0)

  predicate Init(s: State) {
    s == EMPTY.(maximum := s.maximum)
  }

  // ---- the sequential meaning of an update ----

  /** The value one accepted update leaves behind: a negative total is capped at 0. */
  function Apply(size: nat, diff: int): nat {
    if size + diff < 0 then 0 else size + diff
  }

  predicate Accepts(maximum: int, size: nat, diff: int) {
    size + diff < 0 || maximum < 0 || size + diff <= maximum
  }

  /** All updates of `log`, one at a time, starting from the 0 of a new cache. */
  function Replay(diffs: seq<int>, log: seq<Call>): nat
    requires forall i :: 0 <= i < |log| ==> log[i] < |diffs|
  {
    if log == [] then 0 else Apply(Replay(diffs, log[..|log| - 1]), diffs[log[|log| - 1]])
  }

  // ---- actions ----

  /** The inode a process holds open through its private descriptor. */
  function InnerIno(pc: Pc): set<Ino> {
    if pc.TempOpened? || pc.TempLocked? || pc.TempReady? || pc.TempWritten? || pc.Published? then {pc.ino} else {}
  }

  function JobOf(pc: Pc): Job {
    if pc.Creating? || pc.TempOpened? || pc.TempLocked? || pc.TempReady? || pc.TempWritten? || pc.Published?
      || pc.TempClosed?
    then pc.job else Setup
  }

  function OuterIno(pc: Pc): set<Ino> {
    if pc.Opened? || pc.Locked? || pc.Valid? || pc.Loaded? || pc.Closing? then {pc.ino}
    else if JobOf(pc).Replace? then {JobOf(pc).outer} else {}
  }

  /** The kernel may hand out an inode number again once nothing names it and nobody has it open. */
  predicate Free(s: State, ino: Ino) {
    && ino !in s.paths.Values
    && forall p <- s.procs :: ino !in InnerIno(s.procs[p]) && ino !in OuterIno(s.procs[p])
  }

  /** Random names are taken to be unique: nothing names it and nobody remembers it. */
  predicate FreshName(s: State, uuid: nat) {
    && Temp(uuid) !in s.paths
    && forall p <- s.procs :: uuid !in NameOf(s.procs[p])
  }

  function NameOf(pc: Pc): set<nat> {
    if pc.Creating? || pc.TempOpened? || pc.TempLocked? || pc.TempReady? || pc.TempWritten? || pc.Published?
      || pc.TempClosed?
    then {pc.uuid} else {}
  }

  function Goto(s: State, p: Pid, pc: Pc): State {
    s.(procs := s.procs[p := pc])
  }

  predicate Start(s: State, p: Pid, s': State) {
    p !in s.procs && s' == Goto(s, p, Entering)
  }

  predicate BeginSetup(s: State, p: Pid, uuid: nat, s': State) {
    p in s.procs && s.procs[p].Entering? && FreshName(s, uuid) && s' == Goto(s, p, Creating(Setup, uuid))
  }

  predicate CreateTemp(s: State, p: Pid, ino: Ino, s': State) {
    && p in s.procs && s.procs[p].Creating? && Temp(s.procs[p].uuid) !in s.paths && Free(s, ino)
    && var pc := s.procs[p];
       s' == Goto(s, p, TempOpened(pc.job, pc.uuid, ino)).(
               paths := s.paths[Temp(pc.uuid) := ino], content := s.content[ino := Partial])
  }

  predicate LockTemp(s: State, p: Pid, s': State) {
    && p in s.procs && s.procs[p].TempOpened? && s.procs[p].ino !in s.locks
    && var pc := s.procs[p];
       s' == Goto(s, p, TempLocked(pc.job, pc.uuid, pc.ino)).(locks := s.locks[pc.ino := Inner(p)])
  }

  predicate At(s: State, path: Path, ino: Ino) {
    path in s.paths && s.paths[path] == ino
  }

  predicate StatTemp(s: State, p: Pid, s': State) {
    && p in s.procs && s.procs[p].TempLocked? && At(s, Temp(s.procs[p].uuid), s.procs[p].ino)
    && var pc := s.procs[p];
       s' == Goto(s, p, TempReady(pc.job, pc.uuid, pc.ino))
  }

  predicate RetryTemp(s: State, p: Pid, s': State) {
    && p in s.procs && s.procs[p].TempLocked? && !At(s, Temp(s.procs[p].uuid), s.procs[p].ino)
    && var pc := s.procs[p];
       s' == Goto(s, p, Creating(pc.job, pc.uuid)).(locks := s.locks - {pc.ino})
  }

  predicate WriteTemp(s: State, p: Pid, s': State) {
    && p in s.procs && s.procs[p].TempReady?
    && var pc := s.procs[p];
       var value := if pc.job.Setup? then 0 else pc.job.value;
       s' == Goto(s, p, TempWritten(pc.job, pc.uuid, pc.ino)).(content := s.content[pc.ino := Number(value)])
  }

  /** `link`, where an existing target is ignored. */
  predicate LinkSetup(s: State, p: Pid, s': State) {
    && p in s.procs && s.procs[p].TempWritten? && s.procs[p].job.Setup?
    && var pc := s.procs[p];
       s' == Goto(s, p, Published(pc.job, pc.uuid, pc.ino)).(
               paths := if SizeFile in s.paths then s.paths else s.paths[SizeFile := pc.ino])
  }

  predicate RenameTemp(s: State, p: Pid, s': State) {
    && p in s.procs && s.procs[p].TempWritten? && s.procs[p].job.Replace? && Temp(s.procs[p].uuid) in s.paths
    && var pc := s.procs[p];
       s' == Goto(s, p, Published(pc.job, pc.uuid, pc.ino)).(
               paths := (s.paths - {Temp(pc.uuid)})[SizeFile := s.paths[Temp(pc.uuid)]],
               log := s.log + [pc.job.call])
  }

  predicate CloseTemp(s: State, p: Pid, s': State) {
    && p in s.procs && s.procs[p].Published?
    && var pc := s.procs[p];
       s' == Goto(s, p, TempClosed(pc.job, pc.uuid)).(locks := s.locks - {pc.ino})
  }

  predicate UnlinkTemp(s: State, p: Pid, s': State) {
    && p in s.procs && s.procs[p].TempClosed?
    && var pc := s.procs[p];
       s' == Goto(s, p, if pc.job.Setup? then Ready else Closing(pc.job.call, pc.job.outer, true)).(
               paths := s.paths - {Temp(pc.uuid)})
  }

  predicate CallUpdate(s: State, p: Pid, diff: int, s': State) {
    && p in s.procs && s.procs[p].Ready?
    && s' == Goto(s, p, Opening(|s.diffs|)).(diffs := s.diffs + [diff])
  }

  predicate OpenSize(s: State, p: Pid, s': State) {
    && p in s.procs && s.procs[p].Opening? && SizeFile in s.paths
    && s' == Goto(s, p, Opened(s.procs[p].call, s.paths[SizeFile]))
  }

  predicate LockSize(s: State, p: Pid, s': State) {
    && p in s.procs && s.procs[p].Opened? && s.procs[p].ino !in s.locks
    && var pc := s.procs[p];
       s' == Goto(s, p, Locked(pc.call, pc.ino)).(locks := s.locks[pc.ino := Outer(p)])
  }

  predicate StatSize(s: State, p: Pid, s': State) {
    && p in s.procs && s.procs[p].Locked? && At(s, SizeFile, s.procs[p].ino)
    && var pc := s.procs[p];
       s' == Goto(s, p, Valid(pc.call, pc.ino))
  }

  predicate RetrySize(s: State, p: Pid, s': State) {
    && p in s.procs && s.procs[p].Locked? && !At(s, SizeFile, s.procs[p].ino)
    && var pc := s.procs[p];
       s' == Goto(s, p, Opening(pc.call)).(locks := s.locks - {pc.ino})
  }

  predicate ReadSize(s: State, p: Pid, s': State) {
    && p in s.procs && s.procs[p].Valid?
    && s.procs[p].ino in s.content && s.content[s.procs[p].ino].Number?
    && var pc := s.procs[p];
       s' == Goto(s, p, Loaded(pc.call, pc.ino, s.content[pc.ino].n))
  }

  predicate Accept(s: State, p: Pid, uuid: nat, s': State) {
    && p in s.procs && s.procs[p].Loaded? && s.procs[p].call < |s.diffs| && FreshName(s, uuid)
    && Accepts(s.maximum, s.procs[p].size, s.diffs[s.procs[p].call])
    && var pc := s.procs[p];
       s' == Goto(s, p, Creating(Replace(pc.call, pc.ino, Apply(pc.size, s.diffs[pc.call])), uuid))
  }

  predicate Refuse(s: State, p: Pid, s': State) {
    && p in s.procs && s.procs[p].Loaded? && s.procs[p].call < |s.diffs|
    && !Accepts(s.maximum, s.procs[p].size, s.diffs[s.procs[p].call])
    && s' == Goto(s, p, Closing(s.procs[p].call, s.procs[p].ino, false))
  }

  predicate Return(s: State, p: Pid, s': State) {
    && p in s.procs && s.procs[p].Closing?
    && var pc := s.procs[p];
       s' == Goto(s, p, Ready).(locks := s.locks - {pc.ino}, results := s.results[pc.call := pc.ok])
  }

  /** The kernel closes the descriptors, which drops the locks; every file stays. */
  predicate Crash(s: State, p: Pid, s': State) {
    && p in s.procs
    && s' == s.(procs := s.procs - {p}, locks := map i | i in s.locks && s.locks[i].pid != p :: s.locks[i])
  }

  datatype Action =
    BeginSetupAct(u: nat) | CreateTempAct(i: Ino) | LockTempAct | StatTempAct | RetryTempAct |
    WriteTempAct | LinkSetupAct | RenameTempAct | CloseTempAct | UnlinkTempAct | CallUpdateAct(d:
    int) | OpenSizeAct | LockSizeAct | StatSizeAct | RetrySizeAct | ReadSizeAct | AcceptAct(u: nat)
    | RefuseAct | ReturnAct

  predicate Moves(s: State, p: Pid, act: Action, s': State) {
    match act
    case BeginSetupAct(u) => BeginSetup(s, p, u, s')
    case CreateTempAct(i) => CreateTemp(s, p, i, s')
    case LockTempAct => LockTemp(s, p, s')
    case StatTempAct => StatTemp(s, p, s')
    case RetryTempAct => RetryTemp(s, p, s')
    case WriteTempAct => WriteTemp(s, p, s')
    case LinkSetupAct => LinkSetup(s, p, s')
    case RenameTempAct => RenameTemp(s, p, s')
    case CloseTempAct => CloseTemp(s, p, s')
    case UnlinkTempAct => UnlinkTemp(s, p, s')
    case CallUpdateAct(d) => CallUpdate(s, p, d, s')
    case OpenSizeAct => OpenSize(s, p, s')
    case LockSizeAct => LockSize(s, p, s')
    case StatSizeAct => StatSize(s, p, s')
    case RetrySizeAct => RetrySize(s, p, s')
    case ReadSizeAct => ReadSize(s, p, s')
    case AcceptAct(u) => Accept(s, p, u, s')
    case RefuseAct => Refuse(s, p, s')
    case ReturnAct => Return(s, p, s')
  }

  ghost predicate StepOf(s: State, p: Pid, s': State) {
    Start(s, p, s') || Crash(s, p, s') || exists act :: Moves(s, p, act, s')
  }

  ghost predicate Step(s: State, s': State) {
    exists p :: StepOf(s, p, s')
  }

  /** A run: any finite interleaving of any number of processes, from an empty directory. */
  ghost predicate Run(run: seq<State>) {
    && |run| > 0 && Init(run[0])
    && forall i :: 0 <= i < |run| - 1 ==> Step(run[i], run[i + 1])
  }

  // ---- the invariant ----

  /** The update call a process is working on. */
  function CallOf(pc: Pc): set<Call> {
    if pc.Opening? || pc.Opened? || pc.Locked? || pc.Valid? || pc.Loaded? || pc.Closing? then {pc.call}
    else if JobOf(pc).Replace? then {JobOf(pc).call} else {}
  }

  predicate LockedBy(s: State, ino: Ino, f: Fd) {
    ino in s.locks && s.locks[ino] == f
  }

  predicate Private(s: State, uuid: nat, ino: Ino) {
    && !At(s, SizeFile, ino)
    && (Temp(uuid) in s.paths ==> s.paths[Temp(uuid)] == ino)
  }

  ghost predicate JobInv(s: State, p: Pid, job: Job, published: bool)
    requires CallsKnown(s)
  {
    && (SizeFile in s.paths || (job.Setup? && !published))
    && (job.Replace? ==>
      && job.call < |s.diffs| && job.call !in s.results
      && LockedBy(s, job.outer, Outer(p))
      && (job.call in s.log <==> published)
      && (!published ==>
           && At(s, SizeFile, job.outer)
           && Accepts(s.maximum, Replay(s.diffs, s.log), s.diffs[job.call])
           && job.value == Apply(Replay(s.diffs, s.log), s.diffs[job.call])))
  }

  predicate CallsKnown(s: State) {
    && (forall i :: 0 <= i < |s.log| ==> s.log[i] < |s.diffs|)
    && (forall c <- s.results :: c < |s.diffs|)
  }

  predicate CallOpen(s: State, call: Call) {
    call < |s.diffs| && call !in s.results && call !in s.log
  }

  ghost predicate PcInv(s: State, p: Pid, pc: Pc)
    requires CallsKnown(s)
  {
    match pc
    case Entering => true
    case Creating(job, uuid) => JobInv(s, p, job, false)
    case TempOpened(job, uuid, ino) => JobInv(s, p, job, false) && Private(s, uuid, ino)
    case TempLocked(job, uuid, ino) => JobInv(s, p, job, false) && Private(s, uuid, ino) && LockedBy(s, ino, Inner(p))
    case TempReady(job, uuid, ino) =>
      JobInv(s, p, job, false) && Private(s, uuid, ino) && LockedBy(s, ino, Inner(p)) && Temp(uuid) in s.paths
    case TempWritten(job, uuid, ino) =>
      && JobInv(s, p, job, false) && Private(s, uuid, ino) && LockedBy(s, ino, Inner(p)) && Temp(uuid) in s.paths
      && ino in s.content && s.content[ino] == Number(if job.Setup? then 0 else job.value)
    case Published(job, uuid, ino) => JobInv(s, p, job, true) && LockedBy(s, ino, Inner(p))
    case TempClosed(job, uuid) => JobInv(s, p, job, true)
    case Ready => SizeFile in s.paths
    case Opening(call) => SizeFile in s.paths && CallOpen(s, call)
    case Opened(call, ino) => SizeFile in s.paths && CallOpen(s, call)
    case Locked(call, ino) => SizeFile in s.paths && CallOpen(s, call) && LockedBy(s, ino, Outer(p))
    case Valid(call, ino) => CallOpen(s, call) && At(s, SizeFile, ino) && LockedBy(s, ino, Outer(p))
    case Loaded(call, ino, size) =>
      && CallOpen(s, call) && At(s, SizeFile, ino) && LockedBy(s, ino, Outer(p))
      && size == Replay(s.diffs, s.log)
    case Closing(call, ino, ok) =>
      && SizeFile in s.paths && LockedBy(s, ino, Outer(p))
      && call < |s.diffs| && call !in s.results && (call in s.log <==> ok)
      && (!ok ==> s.diffs[call] > 0)
  }

  predicate Distinct<T(==)>(q: seq<T>) {
    forall i, j :: 0 <= i < j < |q| ==> q[i] != q[j]
  }

  /** What holds of the directory alone: the file at the counter's path is complete and
      holds exactly the accepted updates, and the results returned agree with them. */
  ghost predicate FileInv(s: State) {
    && CallsKnown(s) && Distinct(s.log)
    && (SizeFile !in s.paths ==> s.log == [])
    && (SizeFile in s.paths ==>
          s.paths[SizeFile] in s.content && s.content[s.paths[SizeFile]] == Number(Replay(s.diffs, s.log)))
    && (s.maximum >= 0 ==> Replay(s.diffs, s.log) <= s.maximum)
    && (forall c <- s.results :: s.results[c] <==> c in s.log)
    && (forall c <- s.results :: !s.results[c] ==> s.diffs[c] > 0)
  }

  /** Private files, their names and calls belong to one process alone. */
  predicate Apart(a: Pc, b: Pc) {
    InnerIno(a) !! InnerIno(b) && CallOf(a) !! CallOf(b) && NameOf(a) !! NameOf(b)
  }

  ghost predicate Inv(s: State) {
    && FileInv(s)
    && (forall p <- s.procs :: PcInv(s, p, s.procs[p]))
    && (forall p, q :: p in s.procs && q in s.procs && p != q ==> Apart(s.procs[p], s.procs[q]))
  }

  /** What process `q`, standing at `pc`, relies on while another process moves: its locks, its
      private file and its call are left alone, and while its own lock is on the file that the
      counter's path names, neither the path nor the counter's value changes. */
  ghost predicate Stable(s: State, s': State, q: Pid, pc: Pc)
    requires CallsKnown(s) && CallsKnown(s')
  {
    && s'.maximum == s.maximum && |s.diffs| <= |s'.diffs|
    && (SizeFile in s.paths ==> SizeFile in s'.paths)
    && (forall c <- CallOf(pc) :: c < |s.diffs| ==>
          s'.diffs[c] == s.diffs[c] && (c in s.log <==> c in s'.log) && (c in s.results <==> c in s'.results))
    && (forall i <- OuterIno(pc) :: LockedBy(s, i, Outer(q)) ==> LockedBy(s', i, Outer(q)))
    && (forall i <- OuterIno(pc) :: LockedBy(s, i, Outer(q)) && At(s, SizeFile, i) ==>
          At(s', SizeFile, i) && Replay(s'.diffs, s'.log) == Replay(s.diffs, s.log))
    && (forall i <- InnerIno(pc) :: LockedBy(s, i, Inner(q)) ==> LockedBy(s', i, Inner(q)))
    && (!pc.Published? ==> forall i <- InnerIno(pc) :: Private(s, pc.uuid, i) ==>
          && Private(s', pc.uuid, i)
          && (Temp(pc.uuid) in s.paths ==> Temp(pc.uuid) in s'.paths)
          && (i in s.content ==> i in s'.content && s'.content[i] == s.content[i]))
  }

  lemma PcStable(s: State, s': State, q: Pid, pc: Pc)
    requires CallsKnown(s) && CallsKnown(s') && PcInv(s, q, pc) && Stable(s, s', q, pc)
    ensures PcInv(s', q, pc)
  {}

  lemma {:induction false} ReplayKeeps(diffs: seq<int>, diff: int, log: seq<Call>)
    requires forall i :: 0 <= i < |log| ==> log[i] < |diffs|
    ensures Replay(diffs + [diff], log) == Replay(diffs, log)
  {
    if log != [] { ReplayKeeps(diffs, diff, log[..|log| - 1]); }
  }

  // Below, a predicate compared with `true` is one the verifier is asked not to unfold into its parts.

  /** Everything known about the acting process `p` before its step. */
  ghost predicate Acting(s: State, p: Pid) {
    CallsKnown(s) && FileInv(s) && p in s.procs && PcInv(s, p, s.procs[p])
  }

  /** What each action owes itself. */
  ghost predicate Done(s: State, p: Pid, s': State) {
    CallsKnown(s') && FileInv(s') && p in s'.procs && s'.procs == s.procs[p := s'.procs[p]] && PcInv(s', p, s'.procs[p])
  }

  /** The pair facts about the acting process `p` and a bystander `q`. */
  ghost predicate Pair(s: State, p: Pid, q: Pid) {
    && Acting(s, p) && q in s.procs && q != p && PcInv(s, q, s.procs[q])
    && Apart(s.procs[p], s.procs[q])
  }

  /** What each action owes a bystander. */
  ghost predicate Kept(s: State, p: Pid, q: Pid, s': State) {
    && CallsKnown(s) && CallsKnown(s') && q in s.procs && q in s'.procs && p in s'.procs
    && Stable(s, s', q, s.procs[q])
    && Apart(s'.procs[p], s.procs[q])
  }

  lemma BeginSetupDone(s: State, p: Pid, u: nat, s': State)
    requires Acting(s, p) == true && BeginSetup(s, p, u, s')
    ensures Done(s, p, s') == true
  {}

  lemma BeginSetupKept(s: State, p: Pid, q: Pid, u: nat, s': State)
    requires Pair(s, p, q) == true && BeginSetup(s, p, u, s') && Done(s, p, s') == true
    ensures Kept(s, p, q, s') == true
  {
    hide FileInv, Replay, Distinct;
  }

  lemma CreateTempDone(s: State, p: Pid, i: Ino, s': State)
    requires Acting(s, p) == true && CreateTemp(s, p, i, s')
    ensures Done(s, p, s') == true
  {}

  lemma CreateTempKept(s: State, p: Pid, q: Pid, i: Ino, s': State)
    requires Pair(s, p, q) == true && CreateTemp(s, p, i, s') && Done(s, p, s') == true
    ensures Kept(s, p, q, s') == true
  {
    hide FileInv, Replay, Distinct;
  }

  lemma LockTempDone(s: State, p: Pid, s': State)
    requires Acting(s, p) == true && LockTemp(s, p, s')
    ensures Done(s, p, s') == true
  {}

  lemma LockTempKept(s: State, p: Pid, q: Pid, s': State)
    requires Pair(s, p, q) == true && LockTemp(s, p, s') && Done(s, p, s') == true
    ensures Kept(s, p, q, s') == true
  {
    hide FileInv, Replay, Distinct;
  }

  lemma StatTempDone(s: State, p: Pid, s': State)
    requires Acting(s, p) == true && StatTemp(s, p, s')
    ensures Done(s, p, s') == true
  {}

  lemma StatTempKept(s: State, p: Pid, q: Pid, s': State)
    requires Pair(s, p, q) == true && StatTemp(s, p, s') && Done(s, p, s') == true
    ensures Kept(s, p, q, s') == true
  {
    hide FileInv, Replay, Distinct;
  }

  lemma RetryTempDone(s: State, p: Pid, s': State)
    requires Acting(s, p) == true && RetryTemp(s, p, s')
    ensures Done(s, p, s') == true
  {}

  lemma RetryTempKept(s: State, p: Pid, q: Pid, s': State)
    requires Pair(s, p, q) == true && RetryTemp(s, p, s') && Done(s, p, s') == true
    ensures Kept(s, p, q, s') == true
  {
    hide FileInv, Replay, Distinct;
  }

  lemma WriteTempDone(s: State, p: Pid, s': State)
    requires Acting(s, p) == true && WriteTemp(s, p, s')
    ensures Done(s, p, s') == true
  {}

  lemma WriteTempKept(s: State, p: Pid, q: Pid, s': State)
    requires Pair(s, p, q) == true && WriteTemp(s, p, s') && Done(s, p, s') == true
    ensures Kept(s, p, q, s') == true
  {
    hide FileInv, Replay, Distinct;
  }

  lemma LinkSetupDone(s: State, p: Pid, s': State)
    requires Acting(s, p) == true && LinkSetup(s, p, s')
    ensures Done(s, p, s') == true
  {}

  lemma LinkSetupKept(s: State, p: Pid, q: Pid, s': State)
    requires Pair(s, p, q) == true && LinkSetup(s, p, s') && Done(s, p, s') == true
    ensures Kept(s, p, q, s') == true
  {
    hide FileInv, Replay, Distinct;
  }

  lemma RenameTempDone(s: State, p: Pid, s': State)
    requires Acting(s, p) == true && RenameTemp(s, p, s')
    ensures Done(s, p, s') == true
  {}

  lemma RenameTempKept(s: State, p: Pid, q: Pid, s': State)
    requires Pair(s, p, q) == true && RenameTemp(s, p, s') && Done(s, p, s') == true
    ensures Kept(s, p, q, s') == true
  {
    hide FileInv, Replay, Distinct;
  }

  lemma CloseTempDone(s: State, p: Pid, s': State)
    requires Acting(s, p) == true && CloseTemp(s, p, s')
    ensures Done(s, p, s') == true
  {}

  lemma CloseTempKept(s: State, p: Pid, q: Pid, s': State)
    requires Pair(s, p, q) == true && CloseTemp(s, p, s') && Done(s, p, s') == true
    ensures Kept(s, p, q, s') == true
  {
    hide FileInv, Replay, Distinct;
  }

  lemma UnlinkTempDone(s: State, p: Pid, s': State)
    requires Acting(s, p) == true && UnlinkTemp(s, p, s')
    ensures Done(s, p, s') == true
  {}

  lemma UnlinkTempKept(s: State, p: Pid, q: Pid, s': State)
    requires Pair(s, p, q) == true && UnlinkTemp(s, p, s') && Done(s, p, s') == true
    ensures Kept(s, p, q, s') == true
  {
    hide FileInv, Replay, Distinct;
  }

  lemma CallUpdateDone(s: State, p: Pid, d: int, s': State)
    requires Acting(s, p) == true && CallUpdate(s, p, d, s')
    ensures Done(s, p, s') == true
  { ReplayKeeps(s.diffs, d, s.log); }

  lemma CallUpdateKept(s: State, p: Pid, q: Pid, d: int, s': State)
    requires Pair(s, p, q) == true && CallUpdate(s, p, d, s') && Done(s, p, s') == true
    ensures Kept(s, p, q, s') == true
  { ReplayKeeps(s.diffs, d, s.log); }

  lemma OpenSizeDone(s: State, p: Pid, s': State)
    requires Acting(s, p) == true && OpenSize(s, p, s')
    ensures Done(s, p, s') == true
  {}

  lemma OpenSizeKept(s: State, p: Pid, q: Pid, s': State)
    requires Pair(s, p, q) == true && OpenSize(s, p, s') && Done(s, p, s') == true
    ensures Kept(s, p, q, s') == true
  {
    hide FileInv, Replay, Distinct;
  }

  lemma LockSizeDone(s: State, p: Pid, s': State)
    requires Acting(s, p) == true && LockSize(s, p, s')
    ensures Done(s, p, s') == true
  {}

  lemma LockSizeKept(s: State, p: Pid, q: Pid, s': State)
    requires Pair(s, p, q) == true && LockSize(s, p, s') && Done(s, p, s') == true
    ensures Kept(s, p, q, s') == true
  {
    hide FileInv, Replay, Distinct;
  }

  lemma StatSizeDone(s: State, p: Pid, s': State)
    requires Acting(s, p) == true && StatSize(s, p, s')
    ensures Done(s, p, s') == true
  {}

  lemma StatSizeKept(s: State, p: Pid, q: Pid, s': State)
    requires Pair(s, p, q) == true && StatSize(s, p, s') && Done(s, p, s') == true
    ensures Kept(s, p, q, s') == true
  {
    hide FileInv, Replay, Distinct;
  }

  lemma RetrySizeDone(s: State, p: Pid, s': State)
    requires Acting(s, p) == true && RetrySize(s, p, s')
    ensures Done(s, p, s') == true
  {}

  lemma RetrySizeKept(s: State, p: Pid, q: Pid, s': State)
    requires Pair(s, p, q) == true && RetrySize(s, p, s') && Done(s, p, s') == true
    ensures Kept(s, p, q, s') == true
  {
    hide FileInv, Replay, Distinct;
  }

  lemma ReadSizeDone(s: State, p: Pid, s': State)
    requires Acting(s, p) == true && ReadSize(s, p, s')
    ensures Done(s, p, s') == true
  {}

  lemma ReadSizeKept(s: State, p: Pid, q: Pid, s': State)
    requires Pair(s, p, q) == true && ReadSize(s, p, s') && Done(s, p, s') == true
    ensures Kept(s, p, q, s') == true
  {
    hide FileInv, Replay, Distinct;
  }

  lemma AcceptDone(s: State, p: Pid, u: nat, s': State)
    requires Acting(s, p) == true && Accept(s, p, u, s')
    ensures Done(s, p, s') == true
  {}

  lemma AcceptKept(s: State, p: Pid, q: Pid, u: nat, s': State)
    requires Pair(s, p, q) == true && Accept(s, p, u, s') && Done(s, p, s') == true
    ensures Kept(s, p, q, s') == true
  {
    hide FileInv, Replay, Distinct;
  }

  lemma RefuseDone(s: State, p: Pid, s': State)
    requires Acting(s, p) == true && Refuse(s, p, s')
    ensures Done(s, p, s') == true
  {}

  lemma RefuseKept(s: State, p: Pid, q: Pid, s': State)
    requires Pair(s, p, q) == true && Refuse(s, p, s') && Done(s, p, s') == true
    ensures Kept(s, p, q, s') == true
  {
    hide FileInv, Replay, Distinct;
  }

  lemma ReturnDone(s: State, p: Pid, s': State)
    requires Acting(s, p) == true && Return(s, p, s')
    ensures Done(s, p, s') == true
  {}

  lemma ReturnKept(s: State, p: Pid, q: Pid, s': State)
    requires Pair(s, p, q) == true && Return(s, p, s') && Done(s, p, s') == true
    ensures Kept(s, p, q, s') == true
  {
    hide FileInv, Replay, Distinct;
  }


  lemma CrashKept(s: State, p: Pid, q: Pid, s': State)
    requires FileInv(s) && p in s.procs && q in s.procs && q != p && PcInv(s, q, s.procs[q]) && Crash(s, p, s')
    ensures FileInv(s') && Stable(s, s', q, s.procs[q])
  {}

  lemma DoneKeptInv(s: State, p: Pid, s': State)
    requires Inv(s) && p in s.procs && Done(s, p, s') == true
    requires forall q :: q in s.procs && q != p ==> Kept(s, p, q, s') == true
    ensures Inv(s')
  {
    forall q | q in s'.procs ensures PcInv(s', q, s'.procs[q]) {
      if q != p { PcStable(s, s', q, s.procs[q]); }
    }
    forall a, b | a in s'.procs && b in s'.procs && a != b ensures Apart(s'.procs[a], s'.procs[b]) {
      if a == p { assert Kept(s, p, b, s'); } else if b == p { assert Kept(s, p, a, s'); }
    }
  }

  lemma CrashInv(s: State, p: Pid, s': State)
    requires Inv(s) && Crash(s, p, s')
    ensures Inv(s')
  {
    assert FileInv(s');
    forall q | q in s'.procs ensures PcInv(s', q, s'.procs[q]) {
      CrashKept(s, p, q, s');
      PcStable(s, s', q, s.procs[q]);
    }
  }

  lemma StartKept(s: State, p: Pid, q: Pid, s': State)
    requires FileInv(s) && q in s.procs && PcInv(s, q, s.procs[q]) && Start(s, p, s')
    ensures FileInv(s') && PcInv(s', q, s.procs[q])
    ensures Apart(Entering, s.procs[q])
  {
    PcStable(s, s', q, s.procs[q]);
  }

  lemma StartInv(s: State, p: Pid, s': State)
    requires Inv(s) && Start(s, p, s')
    ensures Inv(s')
  {
    assert FileInv(s');
    forall q | q in s.procs ensures PcInv(s', q, s.procs[q]) && Apart(Entering, s.procs[q]) {
      StartKept(s, p, q, s');
    }
  }

  lemma MovesDone(s: State, p: Pid, act: Action, s': State)
    requires Acting(s, p) == true && Moves(s, p, act, s')
    ensures Done(s, p, s') == true
    ensures !act.RenameTempAct? ==> s'.log == s.log && s.diffs <= s'.diffs && |s'.diffs| <= |s.diffs| + 1
  {
    match act
    case BeginSetupAct(u) => BeginSetupDone(s, p, u, s');
    case CreateTempAct(i) => CreateTempDone(s, p, i, s');
    case LockTempAct => LockTempDone(s, p, s');
    case StatTempAct => StatTempDone(s, p, s');
    case RetryTempAct => RetryTempDone(s, p, s');
    case WriteTempAct => WriteTempDone(s, p, s');
    case LinkSetupAct => LinkSetupDone(s, p, s');
    case RenameTempAct => RenameTempDone(s, p, s');
    case CloseTempAct => CloseTempDone(s, p, s');
    case UnlinkTempAct => UnlinkTempDone(s, p, s');
    case CallUpdateAct(d) => CallUpdateDone(s, p, d, s');
    case OpenSizeAct => OpenSizeDone(s, p, s');
    case LockSizeAct => LockSizeDone(s, p, s');
    case StatSizeAct => StatSizeDone(s, p, s');
    case RetrySizeAct => RetrySizeDone(s, p, s');
    case ReadSizeAct => ReadSizeDone(s, p, s');
    case AcceptAct(u) => AcceptDone(s, p, u, s');
    case RefuseAct => RefuseDone(s, p, s');
    case ReturnAct => ReturnDone(s, p, s');
  }

  lemma MovesKept(s: State, p: Pid, q: Pid, act: Action, s': State)
    requires Pair(s, p, q) == true && Done(s, p, s') == true && Moves(s, p, act, s')
    ensures Kept(s, p, q, s') == true
  {
    match act
    case BeginSetupAct(u) => BeginSetupKept(s, p, q, u, s');
    case CreateTempAct(i) => CreateTempKept(s, p, q, i, s');
    case LockTempAct => LockTempKept(s, p, q, s');
    case StatTempAct => StatTempKept(s, p, q, s');
    case RetryTempAct => RetryTempKept(s, p, q, s');
    case WriteTempAct => WriteTempKept(s, p, q, s');
    case LinkSetupAct => LinkSetupKept(s, p, q, s');
    case RenameTempAct => RenameTempKept(s, p, q, s');
    case CloseTempAct => CloseTempKept(s, p, q, s');
    case UnlinkTempAct => UnlinkTempKept(s, p, q, s');
    case CallUpdateAct(d) => CallUpdateKept(s, p, q, d, s');
    case OpenSizeAct => OpenSizeKept(s, p, q, s');
    case LockSizeAct => LockSizeKept(s, p, q, s');
    case StatSizeAct => StatSizeKept(s, p, q, s');
    case RetrySizeAct => RetrySizeKept(s, p, q, s');
    case ReadSizeAct => ReadSizeKept(s, p, q, s');
    case AcceptAct(u) => AcceptKept(s, p, q, u, s');
    case RefuseAct => RefuseKept(s, p, q, s');
    case ReturnAct => ReturnKept(s, p, q, s');
  }

  lemma MovesInv(s: State, p: Pid, act: Action, s': State)
    requires Inv(s) && p in s.procs && Moves(s, p, act, s')
    ensures Inv(s')
  {
    assert Acting(s, p);
    MovesDone(s, p, act, s');
    forall q | q in s.procs && q != p ensures Kept(s, p, q, s') == true {
      assert Pair(s, p, q);
      MovesKept(s, p, q, act, s');
    }
    DoneKeptInv(s, p, s');
  }

  /** Every action keeps the invariant. */
  lemma StepInv(s: State, s': State)
    requires Inv(s) && Step(s, s')
    ensures Inv(s')
  {
    var p :| StepOf(s, p, s');
    if p !in s.procs {
      StartInv(s, p, s');
    } else if Crash(s, p, s') {
      CrashInv(s, p, s');
    } else {
      var act :| Moves(s, p, act, s');
      MovesInv(s, p, act, s');
    }
  }

  // ---- what the protocol promises ----

  lemma {:induction false} RunInv(run: seq<State>, i: nat)
    requires Run(run) && i < |run|
    ensures Inv(run[i])
  {
    if i == 0 {
    } else {
      RunInv(run, i - 1);
      assert Step(run[i - 1], run[i - 1 + 1]);
      StepInv(run[i - 1], run[i]);
    }
  }

  /** In every reachable state the file at the counter's path is complete and holds exactly the
      accepted updates, each counted once, in the order of their renames, whatever crashed;
      a finished call returned True exactly when it is among them; the limit is respected; and
      only a positive update is ever refused. */
  lemma NoLostUpdates(run: seq<State>, i: nat)
    requires Run(run) && i < |run| && SizeFile in run[i].paths
    ensures var s := run[i];
            && s.paths[SizeFile] in s.content
            && (forall k :: 0 <= k < |s.log| ==> s.log[k] < |s.diffs|)
            && s.content[s.paths[SizeFile]] == Number(Replay(s.diffs, s.log))
            && Distinct(s.log)
            && (forall c <- s.results ::
               c < |s.diffs| && (s.results[c] <==> c in s.log) && (!s.results[c] ==> s.diffs[c] > 0))
            && (s.maximum >= 0 ==> Replay(s.diffs, s.log) <= s.maximum)
  {
    RunInv(run, i);
  }

  /** A process that has locked the file and seen the path agree. */
  predicate Validated(pc: Pc) {
    || pc.Valid? || pc.Loaded?
    || ((pc.Creating? || pc.TempOpened? || pc.TempLocked? || pc.TempReady? || pc.TempWritten?) && pc.job.Replace?)
  }

  lemma OneWriter(run: seq<State>, i: nat, p: Pid, q: Pid)
    requires Run(run) && i < |run| && p in run[i].procs && q in run[i].procs
    requires Validated(run[i].procs[p]) && Validated(run[i].procs[q])
    ensures p == q
  {
    RunInv(run, i);
    var s := run[i];
    assert PcInv(s, p, s.procs[p]) && PcInv(s, q, s.procs[q]);
    assert At(s, SizeFile, s.paths[SizeFile]);
  }

  /** No process that has validated its lock can find the counter unreadable, or find its
      private file gone when it is about to rename it. */
  lemma NeverStuck(run: seq<State>, i: nat, p: Pid)
    requires Run(run) && i < |run| && p in run[i].procs
    ensures var s := run[i]; var pc := s.procs[p];
            && (pc.Valid? ==> exists s' :: ReadSize(s, p, s'))
            && (pc.TempWritten? && pc.job.Replace? ==> exists s' :: RenameTemp(s, p, s'))
            && (pc.Opening? ==> exists s' :: OpenSize(s, p, s'))
  {
    RunInv(run, i);
    var s := run[i];
    var pc := s.procs[p];
    assert PcInv(s, p, pc);
    if pc.Valid? {
      assert ReadSize(s, p, Goto(s, p, Loaded(pc.call, pc.ino, s.content[pc.ino].n)));
    } else if pc.TempWritten? && pc.job.Replace? {
      assert RenameTemp(s, p, Goto(s, p, Published(pc.job, pc.uuid, pc.ino)).(
               paths := (s.paths - {Temp(pc.uuid)})[SizeFile := s.paths[Temp(pc.uuid)]],
               log := s.log + [pc.job.call]));
    } else if pc.Opening? {
      assert OpenSize(s, p, Goto(s, p, Opened(pc.call, s.paths[SizeFile])));
    }
  }

  /** The counter as its users see it. */
  function Value(s: State): nat
    requires CallsKnown(s)
  {
    Replay(s.diffs, s.log)
  }

  /** The whole effect of the unfinished call `c` of process `p`, at once. */
  predicate Commits(s: State, p: Pid, c: Call, s': State)
    requires CallsKnown(s) && CallsKnown(s')
  {
    && p in s.procs && c in CallOf(s.procs[p]) && c < |s.diffs| && c !in s.log && c !in s.results
    && s'.log == s.log + [c]
    && var sum := Value(s) + s.diffs[c];
       && Value(s') == (if sum < 0 then 0 else sum)
       && (s.maximum < 0 || sum <= s.maximum)
  }

  lemma RenameCommits(s: State, p: Pid, s': State)
    requires FileInv(s) && FileInv(s') && p in s.procs && PcInv(s, p, s.procs[p]) && RenameTemp(s, p, s')
    ensures Commits(s, p, s.procs[p].job.call, s')
  {
    var c := s.procs[p].job.call;
    assert s'.log[..|s'.log| - 1] == s.log;
    assert Value(s') == Apply(Value(s), s.diffs[c]);
  }

  /** Refinement to an atomic counter: each system call either leaves the counter alone or is
      the commit of one call of the acting process, which adds that call's amount at once and
      only where the limit admits it. */
  lemma AtomicUpdate(s: State, p: Pid, s': State)
    requires Inv(s) && StepOf(s, p, s')
    ensures Inv(s')
    ensures (s'.log == s.log && Value(s') == Value(s)) || (exists c :: Commits(s, p, c, s'))
  {
    assert Step(s, s');
    StepInv(s, s');
    if act :| Moves(s, p, act, s') {
      assert Acting(s, p);
      MovesDone(s, p, act, s');
      if act.RenameTempAct? {
        RenameCommits(s, p, s');
      } else {
        ReplayKeepsAll(s, s');
      }
    }
  }

  lemma ReplayKeepsAll(s: State, s': State)
    requires CallsKnown(s) && s'.log == s.log && s.diffs <= s'.diffs && |s'.diffs| <= |s.diffs| + 1
    ensures Replay(s'.diffs, s'.log) == Replay(s.diffs, s.log)
  {
    if |s'.diffs| > |s.diffs| {
      assert s'.diffs == s.diffs + [s'.diffs[|s.diffs|]];
      ReplayKeeps(s.diffs, s'.diffs[|s.diffs|], s.log);
    } else {
      assert s'.diffs == s.diffs;
    }
  }

  /** A refusal is right: at the moment of the decision the limit did not admit the update. */
  lemma RefusalIsRight(s: State, p: Pid, s': State)
    requires Inv(s) && Refuse(s, p, s')
    ensures var d := s.diffs[s.procs[p].call];
            s.maximum >= 0 && Value(s) + d > s.maximum && d > 0
  {
    assert PcInv(s, p, s.procs[p]);
  }
}
