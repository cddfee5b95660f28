/** The `objects/` directory of the cache: any number of processes store, load and evict
    entries, coordinated only by locks on files that may have been replaced since they were
    opened.  One action is one system call on shared state; `Crash` may come between any two.
    `_update_cache_size` is one action here: `CacheSize.AtomicUpdate` shows that it may be. */
module CacheEntries {
  import opened Options
  import Counter = CacheSize

  type Pid = nat
  type Ino = nat
  type DirId = nat

  /** Entries carry the caller's name or, while being built, a random one. */
  datatype Name = User(key: string) | Anon(uuid: nat)

  /** A process can have two lock files open: that of the entry it stores or loads, and that
      of the entry it is about to evict. */
  datatype Role = Main | Victim
  datatype Fd = Fd(pid: Pid, role: Role)
  datatype Held = Held(ino: Ino, write: bool)

  datatype Item = Item(path: string, content: string)

  /** An entry directory: `linked` says whether `object.lock` is there and `key` is the inode of
      the lock file made for this directory; `data` and `info` are `data/` and `object.info`.
      `title` records which name the entry was built for. */
  datatype Dir = Dir(key: Ino, title: string, linked: bool, data: Option<set<Item>>, info: Option<nat>) {
    predicate Empty() { !linked && data.None? && info.None? }
  }

  /** The phases of `_rm_r_object`. */
  datatype Rm = RmCheck | RmInfo | RmData | RmLock | RmDir

  datatype Pc =
    | Idle
    | Starting(title: string)                                        // make a locked lock file next
    | MakeDir(title: string, ino: Ino)
    | LinkLock(title: string, ino: Ino, uuid: nat)
    | MakeData(title: string, ino: Ino, uuid: nat)
    | Filling(title: string, ino: Ino, uuid: nat)                    // the caller has control
    | Measured(title: string, ino: Ino, uuid: nat, size: nat)        // first reservation next
    | Evicting(title: string, ino: Ino, uuid: nat, size: nat)        // inside `_remove_lru`
    | Retrying(title: string, ino: Ino, uuid: nat, size: nat)        // second reservation next
    | PutInfo(title: string, ino: Ino, uuid: nat, size: nat)
    | Commit(title: string, ino: Ino, uuid: nat, size: nat)          // rename next
    | Check(title: string, ino: Ino, uuid: nat, size: nat)           // does the anonymous path remain?
    | DropInfo(title: string, ino: Ino, uuid: nat, size: nat)
    | Refund(title: string, ino: Ino, uuid: nat, size: nat)
    | Cleaning(title: string, ino: Ino, uuid: nat, step: Rm)
    | Closing(ino: Ino)
    | LoadOpen(key: string)
    | LoadLock(key: string, ino: Ino)
    | LoadStat(key: string, ino: Ino)
    | Touch(key: string, ino: Ino)
    | Reading(key: string, ino: Ino)                                 // the caller has control

  datatype After = Next | Stop | Abort
  datatype Loop = Loop(required: nat, freed: nat, todo: seq<Name>)

  datatype VictimPc =
    | Off
    | Pick(loop: Loop)
    | VOpen(loop: Loop, name: Name)
    | VLock(loop: Loop, name: Name, ino: Ino)
    | VStat(loop: Loop, name: Name, ino: Ino)
    | Atime(loop: Loop, name: Name, ino: Ino)
    | Measure(loop: Loop, name: Name, ino: Ino)
    | Removing(loop: Loop, name: Name, ino: Ino, size: nat, step: Rm)
    | Deduct(loop: Loop, ino: Ino, size: nat)
    | Release(loop: Loop, ino: Ino, after: After)

  datatype Proc = Proc(pc: Pc, victim: VictimPc)

  /** The last six fields are bookkeeping that no action consults: the contents each finished
      store wrote, the evictor that has begun to take an entry apart, the entries whose evictor
      died doing so, random names already drawn, accounted bytes orphaned by a crash or an
      error, and by how much evictions have deducted less than their entries had accounted
      (less than nothing where they deducted more). */
  datatype State = State(
    names: map<Name, DirId>,
    dirs: map<DirId, Dir>,
    locks: map<Fd, Held>,
    procs: map<Pid, Proc>,
    size: nat,
    maximum: int,
    written: map<DirId, set<Item>>,
    breaker: map<DirId, Pid>,
    damaged: set<DirId>,
    used: set<nat>,
    leaked: nat,
    drift: int)

  predicate Init(s: State) {
    s == State(map[], map[], map[], map[], 0, s.maximum, map[], map[], {}, {}, 0, 0)
  }

  // ---- system calls ----

  /** `Put` rewrites the content of one directory; its flags say what to note about it. */
  datatype Sys =
    | Nop
    | Acquire(h: Held)
    | Drop
    | Mkdir(uuid: nat, id: DirId, key: Ino, title: string)
    | Put(name: Name, dir: Dir, wrote: bool, breaks: bool)
    | Rename(uuid: nat, target: string)
    | Rmdir(name: Name)

  function Exec(s: State, f: Fd, sys: Sys): State {
    match sys
    case Nop => s
    case Acquire(h) => s.(locks := s.locks[f := h])
    case Drop => s.(locks := s.locks - {f})
    case Mkdir(uuid, id, key, title) =>
      s.(names := s.names[Anon(uuid) := id], dirs := s.dirs[id := Dir(key, title, false, None, None)],
         used := s.used + {uuid})
    case Put(name, dir, wrote, breaks) =>
      if name !in s.names then s else
      var d := s.names[name];
      s.(dirs := s.dirs[d := dir],
         written := if wrote && dir.data.Some? then s.written[d := dir.data.value] else s.written,
         breaker := if breaks then s.breaker[d := f.pid] else if dir.linked then s.breaker else s.breaker - {d})
    case Rename(uuid, target) =>
      if Anon(uuid) !in s.names then s else
      s.(names := (s.names - {Anon(uuid)})[User(target) := s.names[Anon(uuid)]])
    case Rmdir(name) => s.(names := s.names - {name})
  }

  /** Locks belong to open file descriptions, so two of one process conflict as well. */
  predicate Compatible(s: State, f: Fd, h: Held) {
    forall g <- s.locks :: g != f && s.locks[g].ino == h.ino ==> !h.write && !s.locks[g].write
  }

  /** Opening `<name>/object.lock`, or asking for its inode, by path. */
  predicate LockFileAt(s: State, name: Name, ino: Ino) {
    name in s.names && s.names[name] in s.dirs && s.dirs[s.names[name]].linked && s.dirs[s.names[name]].key == ino
  }

  predicate NoLockFile(s: State, name: Name) {
    name in s.names && s.names[name] in s.dirs ==> !s.dirs[s.names[name]].linked
  }

  predicate Present(s: State, name: Name) {
    name in s.names && s.names[name] in s.dirs
  }

  function DirAt(s: State, name: Name): Dir
    requires Present(s, name)
  {
    s.dirs[s.names[name]]
  }

  /** An inode number can be handed out once no directory names it and nobody has it open. */
  predicate FreeIno(s: State, ino: Ino) {
    && (forall d <- s.dirs :: s.dirs[d].linked ==> s.dirs[d].key != ino)
    && (forall f <- s.locks :: s.locks[f].ino != ino)
    && (forall p <- s.procs ::
          && !(s.procs[p].pc.LoadLock? && s.procs[p].pc.ino == ino)
          && !(s.procs[p].victim.VLock? && s.procs[p].victim.ino == ino))
  }

  /** `_update_cache_size`, as `CacheSize` has it. */
  predicate Accepts(s: State, diff: int) {
    Counter.Accepts(s.maximum, s.size, diff)
  }

  function Apply(size: nat, diff: int): nat {
    Counter.Apply(size, diff)
  }

  /** What an entry stands for in `cache.size`. */
  function Accounted(dir: Dir): nat {
    if dir.info.Some? then dir.info.value else 0
  }

  /** What a deduction from a size that is too small leaves undone, because the size stays at 0. */
  function Clamped(size: nat, amount: nat): nat {
    if size < amount then amount - size else 0
  }

  // ---- actions ----

  datatype Act =
    | StoreCall(title: string) | MakeLock(ino: Ino) | MakeDirectory(uuid: nat, id: DirId) | Link | LinkAgain
    | MakeDataDir | Fill(data: set<Item>) | FillFails | FillDone(size: nat)
    | TooBig | Reserve | Full(todo: seq<Name>) | GiveUp
    | WriteInfo | RenameWins | RenameLoses | CheckGone | CheckLeft | UnlinkInfo | Refunded
    | Clean(item: Item) | Close
    | LoadCall(key: string) | LoadOpens(ino: Ino) | LoadMiss | LoadLocks | LoadBusy | LoadSame | LoadRetry | Touched
    | PickNext | PickEnd | VOpens(ino: Ino) | VGone | VLocks | VBusy | VSame | VRetry | VSkip | VProceed
    | VMeasure(size: nat) | VClean(item: Item) | VDirFull | VDeduct | VRelease

  /** What an action does: the descriptor it works through, its system call, where the process
      goes, and the bookkeeping of amounts. */
  datatype Plan = Plan(role: Role, sys: Sys, proc: Proc, size: nat, leak: nat, drift: int)

  /** One step of `_rm_r_object` on the path `name`: the system call and the next phase, `None`
      once it returns.  Directory entries other than the lock file go one at a time, in any order. */
  function RmStep(s: State, name: Name, step: Rm, item: Item, breaks: bool): (Sys, Option<Rm>) {
    if !Present(s, name) then
      (Nop, match step case RmCheck => None case RmInfo => Some(RmData) case RmData => Some(RmLock)
                       case RmLock => Some(RmDir) case RmDir => None)
    else
      var dir := DirAt(s, name);
      match step
      case RmCheck => (Nop, Some(RmInfo))
      case RmInfo => (Put(name, dir.(info := None), false, breaks), Some(RmData))
      case RmData =>
        if dir.data.None? then (Nop, Some(RmLock))
        else if dir.data.value == {} then (Put(name, dir.(data := None), false, false), Some(RmLock))
        else (Put(name, dir.(data := Some(dir.data.value - {item})), false, false), Some(RmData))
      case RmLock => (Put(name, dir.(linked := false), false, false), Some(RmDir))
      case RmDir => (Rmdir(name), None)
  }

  /** `rmdir` of a directory that is not empty fails with an error nobody suppresses. */
  predicate RmFails(s: State, name: Name, step: Rm) {
    step.RmDir? && Present(s, name) && !DirAt(s, name).Empty()
  }

  /** By how much what the entry accounts is more than what its eviction has measured, once the info file goes. */
  function Mismatch(s: State, v: VictimPc): int {
    if !v.Removing? || !v.step.RmInfo? then 0
    else (if Present(s, v.name) then Accounted(DirAt(s, v.name)) else 0) - v.size
  }

  function MainTo(s: State, pr: Proc, sys: Sys, pc: Pc): Option<Plan> {
    Some(Plan(Main, sys, pr.(pc := pc), s.size, 0, s.drift))
  }

  function VictimTo(s: State, pr: Proc, sys: Sys, v: VictimPc): Option<Plan> {
    Some(Plan(Victim, sys, pr.(victim := v), s.size, 0, s.drift))
  }

  /** `store`, from the call to the commit. */
  function StorePlan(s: State, p: Pid, pr: Proc, act: Act): Option<Plan> {
    var pc := pr.pc;
    match act
    case StoreCall(title) => if pc.Idle? then MainTo(s, pr, Nop, Starting(title)) else None
    case MakeLock(ino) =>
      if pc.Starting? && FreeIno(s, ino) then MainTo(s, pr, Acquire(Held(ino, true)), MakeDir(pc.title, ino)) else None
    case MakeDirectory(uuid, id) =>
      if pc.MakeDir? && uuid !in s.used && id !in s.dirs then
        MainTo(s, pr, Mkdir(uuid, id, pc.ino, pc.title), LinkLock(pc.title, pc.ino, uuid))
      else None
    case Link =>
      if pc.LinkLock? && Present(s, Anon(pc.uuid)) && !DirAt(s, Anon(pc.uuid)).linked then
        MainTo(s, pr, Put(Anon(pc.uuid), DirAt(s, Anon(pc.uuid)).(linked := true), false, false),
               MakeData(pc.title, pc.ino, pc.uuid))
      else None
    case LinkAgain =>
      if pc.LinkLock? && Anon(pc.uuid) !in s.names then MainTo(s, pr, Drop, Starting(pc.title)) else None
    case MakeDataDir =>
      if pc.MakeData? && Present(s, Anon(pc.uuid)) then
        MainTo(s, pr, Put(Anon(pc.uuid), DirAt(s, Anon(pc.uuid)).(data := Some({})), false, false),
               Filling(pc.title, pc.ino, pc.uuid))
      else None
    case Fill(data) =>
      if pc.Filling? && Present(s, Anon(pc.uuid)) then
        MainTo(s, pr, Put(Anon(pc.uuid), DirAt(s, Anon(pc.uuid)).(data := Some(data)), false, false), pc)
      else None
    case FillFails => if pc.Filling? then MainTo(s, pr, Nop, Cleaning(pc.title, pc.ino, pc.uuid, RmCheck)) else None
    case FillDone(size) =>
      if pc.Filling? && Present(s, Anon(pc.uuid)) then
        MainTo(s, pr, Put(Anon(pc.uuid), DirAt(s, Anon(pc.uuid)), true, false),
               Measured(pc.title, pc.ino, pc.uuid, size))
      else None
    case TooBig =>
      if pc.Measured? && s.maximum > -1 && pc.size > s.maximum then
        MainTo(s, pr, Nop, Cleaning(pc.title, pc.ino, pc.uuid, RmCheck))
      else None
    case Reserve =>
      if ((pc.Measured? && !(s.maximum > -1 && pc.size > s.maximum)) || pc.Retrying?) && Accepts(s, pc.size) then
        Some(Plan(Main, Nop, pr.(pc := PutInfo(pc.title, pc.ino, pc.uuid, pc.size)), Apply(s.size, pc.size), 0,
                  s.drift))
      else None
    case Full(todo) =>
      if pc.Measured? && !(s.maximum > -1 && pc.size > s.maximum) && !Accepts(s, pc.size) then
        MainTo(s, pr.(victim := Pick(Loop(pc.size, 0, todo))), Nop, Evicting(pc.title, pc.ino, pc.uuid, pc.size))
      else None
    case GiveUp =>
      if pc.Retrying? && !Accepts(s, pc.size) then MainTo(s, pr, Nop, Cleaning(pc.title, pc.ino, pc.uuid, RmCheck))
        else None
    case WriteInfo =>
      if pc.PutInfo? && Present(s, Anon(pc.uuid)) && DirAt(s, Anon(pc.uuid)).info.None? then
        MainTo(s, pr, Put(Anon(pc.uuid), DirAt(s, Anon(pc.uuid)).(info := Some(pc.size)), false, false),
               Commit(pc.title, pc.ino, pc.uuid, pc.size))
      else None
    case _ => None
  }

  /** `store`, from the commit to the end, and the closing of the entry's lock file. */
  function CommitPlan(s: State, p: Pid, pr: Proc, act: Act): Option<Plan> {
    var pc := pr.pc;
    match act
    case RenameWins =>
      if pc.Commit? && Present(s, Anon(pc.uuid))
        && (User(pc.title) !in s.names || (Present(s, User(pc.title)) && DirAt(s, User(pc.title)).Empty())) then
        MainTo(s, pr, Rename(pc.uuid, pc.title), Check(pc.title, pc.ino, pc.uuid, pc.size))
      else None
    case RenameLoses =>
      if pc.Commit? && Present(s, Anon(pc.uuid)) && Present(s, User(pc.title)) && !DirAt(s, User(pc.title)).Empty() then
        MainTo(s, pr, Nop, Check(pc.title, pc.ino, pc.uuid, pc.size))
      else None
    case CheckGone => if pc.Check? && Anon(pc.uuid) !in s.names then MainTo(s, pr, Nop, Closing(pc.ino)) else None
    case CheckLeft =>
      if pc.Check? && Anon(pc.uuid) in s.names then MainTo(s, pr, Nop, DropInfo(pc.title, pc.ino, pc.uuid, pc.size))
        else None
    case UnlinkInfo =>
      if pc.DropInfo? && Present(s, Anon(pc.uuid)) then
        MainTo(s, pr, Put(Anon(pc.uuid), DirAt(s, Anon(pc.uuid)).(info := None), false, false),
               Refund(pc.title, pc.ino, pc.uuid, pc.size))
      else None
    case Refunded =>
      if pc.Refund? then
        Some(Plan(Main, Nop, pr.(pc := Closing(pc.ino)), Apply(s.size, 0 - pc.size), 0,
                  s.drift + Clamped(s.size, pc.size)))
      else None
    case Clean(item) =>
      if pc.Cleaning? && !RmFails(s, Anon(pc.uuid), pc.step) then
        var (sys, next) := RmStep(s, Anon(pc.uuid), pc.step, item, false);
        MainTo(s, pr, sys, if next.None? then Closing(pc.ino) else Cleaning(pc.title, pc.ino, pc.uuid, next.value))
      else None
    case Close =>
      if pc.Closing? || pc.Reading? then MainTo(s, pr, Drop, Idle) else None
    case _ => None
  }

  function LoadPlan(s: State, p: Pid, pr: Proc, act: Act): Option<Plan> {
    var pc := pr.pc;
    var f := Fd(p, Main);
    match act
    case LoadCall(key) => if pc.Idle? then MainTo(s, pr, Nop, LoadOpen(key)) else None
    case LoadOpens(ino) =>
      if pc.LoadOpen? && LockFileAt(s, User(pc.key), ino) then MainTo(s, pr, Nop, LoadLock(pc.key, ino)) else None
    case LoadMiss => if pc.LoadOpen? && NoLockFile(s, User(pc.key)) then MainTo(s, pr, Nop, Idle) else None
    case LoadLocks =>
      if pc.LoadLock? && Compatible(s, f, Held(pc.ino, false)) then
        MainTo(s, pr, Acquire(Held(pc.ino, false)), LoadStat(pc.key, pc.ino))
      else None
    case LoadBusy =>
      if pc.LoadLock? && !Compatible(s, f, Held(pc.ino, false)) then MainTo(s, pr, Nop, Idle) else None
    case LoadSame =>
      if pc.LoadStat? && LockFileAt(s, User(pc.key), pc.ino) then MainTo(s, pr, Nop, Touch(pc.key, pc.ino)) else None
    case LoadRetry =>
      if pc.LoadStat? && !LockFileAt(s, User(pc.key), pc.ino) then MainTo(s, pr, Drop, LoadOpen(pc.key)) else None
    case Touched => if pc.Touch? then MainTo(s, pr, Nop, Reading(pc.key, pc.ino)) else None
    case _ => None
  }

  /** `_remove_lru`.  The list it walks is any list of names: it was read without a lock.  Whether
      the access time still agrees is left open as well. */
  function VictimPlan(s: State, p: Pid, pr: Proc, act: Act): Option<Plan> {
    var v := pr.victim;
    var f := Fd(p, Victim);
    if !pr.pc.Evicting? then None else
    match act
    case PickNext =>
      if v.Pick? && v.loop.todo != [] then
        VictimTo(s, pr, Nop, VOpen(v.loop.(todo := v.loop.todo[1..]), v.loop.todo[0]))
      else None
    case PickEnd =>
      if v.Pick? && v.loop.todo == [] then
        VictimTo(s, pr.(pc := Retrying(pr.pc.title, pr.pc.ino, pr.pc.uuid, pr.pc.size)), Nop, Off)
      else None
    case VOpens(ino) => if v.VOpen? && LockFileAt(s, v.name, ino) then VictimTo(s, pr, Nop, VLock(v.loop, v.name, ino))
        else None
    case VGone =>
      if v.VOpen? && NoLockFile(s, v.name) then
        VictimTo(s, pr.(pc := Cleaning(pr.pc.title, pr.pc.ino, pr.pc.uuid, RmCheck)), Nop, Off)
      else None
    case VLocks =>
      if v.VLock? && Compatible(s, f, Held(v.ino, true)) then
        VictimTo(s, pr, Acquire(Held(v.ino, true)), VStat(v.loop, v.name, v.ino))
      else None
    case VBusy => if v.VLock? && !Compatible(s, f, Held(v.ino, true)) then VictimTo(s, pr, Nop, Pick(v.loop)) else None
    case VSame =>
      if v.VStat? && LockFileAt(s, v.name, v.ino) then VictimTo(s, pr, Nop, Atime(v.loop, v.name, v.ino)) else None
    case VRetry =>
      if v.VStat? && !LockFileAt(s, v.name, v.ino) then VictimTo(s, pr, Drop, VOpen(v.loop, v.name)) else None
    case VSkip => if v.Atime? then VictimTo(s, pr, Nop, Release(v.loop, v.ino, Next)) else None
    case VProceed => if v.Atime? then VictimTo(s, pr, Nop, Measure(v.loop, v.name, v.ino)) else None
    case VMeasure(size) =>
      if v.Measure? && Present(s, v.name) then
        VictimTo(s, pr, Nop, Removing(v.loop, v.name, v.ino, size, RmCheck))
      else None
    case VClean(item) =>
      if v.Removing? && !RmFails(s, v.name, v.step) then
        var (sys, next) := RmStep(s, v.name, v.step, item, true);
        var to := if next.None? then Deduct(v.loop, v.ino, v.size)
                  else Removing(v.loop, v.name, v.ino, v.size, next.value);
        Some(Plan(Victim, sys, pr.(victim := to), s.size, 0, s.drift + Mismatch(s, v)))
      else None
    case VDirFull =>
      if v.Removing? && RmFails(s, v.name, v.step) then
        Some(Plan(Victim, Nop, pr.(victim := Release(v.loop, v.ino, Abort)), s.size, v.size, s.drift))
      else None
    case VDeduct =>
      if v.Deduct? then
        var loop := v.loop.(freed := v.loop.freed + v.size);
        Some(Plan(Victim, Nop,
                  pr.(victim := Release(loop, v.ino, if loop.freed >= 2 * loop.required then Stop else Next)),
                  Apply(s.size, 0 - v.size), 0, s.drift + Clamped(s.size, v.size)))
      else None
    case VRelease =>
      if v.Release? then
        match v.after
        case Next => VictimTo(s, pr, Drop, Pick(v.loop))
        case Stop => VictimTo(s, pr.(pc := Retrying(pr.pc.title, pr.pc.ino, pr.pc.uuid, pr.pc.size)), Drop, Off)
        case Abort => VictimTo(s, pr.(pc := Cleaning(pr.pc.title, pr.pc.ino, pr.pc.uuid, RmCheck)), Drop, Off)
      else None
    case _ => None
  }

  function PlanOf(s: State, p: Pid, act: Act): Option<Plan> {
    if p !in s.procs then None else
    var pr := s.procs[p];
    if StorePlan(s, p, pr, act).Some? then StorePlan(s, p, pr, act)
    else if CommitPlan(s, p, pr, act).Some? then CommitPlan(s, p, pr, act)
    else if LoadPlan(s, p, pr, act).Some? then LoadPlan(s, p, pr, act)
    else VictimPlan(s, p, pr, act)
  }

  function Do(s: State, p: Pid, plan: Plan): State {
    Exec(s, Fd(p, plan.role), plan.sys).(
      procs := s.procs[p := plan.proc], size := plan.size, leaked := s.leaked + plan.leak, drift := plan.drift)
  }

  predicate Moves(s: State, p: Pid, act: Act, s': State) {
    PlanOf(s, p, act).Some? && s' == Do(s, p, PlanOf(s, p, act).value)
  }

  predicate Start(s: State, p: Pid, s': State) {
    p !in s.procs && s' == s.(procs := s.procs[p := Proc(Idle, Off)])
  }

  /** What a process has accounted without an `object.info` to show for it. */
  function Pending(pr: Proc): nat {
    (if pr.pc.PutInfo? || pr.pc.Refund? then pr.pc.size else 0) +
    (if pr.victim.Deduct?
     || (pr.victim.Removing? && (pr.victim.step.RmData? || pr.victim.step.RmLock? || pr.victim.step.RmDir?))
     then pr.victim.size else 0)
  }

  /** The kernel drops the locks; directories stay as they are. */
  predicate Crash(s: State, p: Pid, s': State) {
    && p in s.procs
    && s' == s.(procs := s.procs - {p},
                locks := map f | f in s.locks && f.pid != p :: s.locks[f],
                breaker := map d | d in s.breaker && s.breaker[d] != p :: s.breaker[d],
                damaged := s.damaged + (set d | d in s.breaker && s.breaker[d] == p),
                leaked := s.leaked + Pending(s.procs[p]))
  }

  ghost predicate StepOf(s: State, p: Pid, s': State) {
    Start(s, p, s') || Crash(s, p, s') || exists act :: Moves(s, p, act, s')
  }

  ghost predicate Step(s: State, s': State) {
    exists p :: StepOf(s, p, s')
  }

  ghost predicate Run(run: seq<State>) {
    && |run| > 0 && Init(run[0])
    && forall i :: 0 <= i < |run| - 1 ==> Step(run[i], run[i + 1])
  }
}
