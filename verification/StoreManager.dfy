/**
  The Windows store lifecycle: launch, close, crash and quit-all calls interleaved step by step.

  A task is one call of `LaunchAsync`, `CloseAsync`, `QuitAllAsync` or `HandleUnexpectedExit`; its
  program counter names the next shared-memory access it will make. One action of a schedule runs one
  task over one access. A task that is waiting (for the gate, a slot's completion or a record's cleanup)
  stays as it is when it is scheduled too early, so every sequence of actions is a schedule and the
  theorems are about all of them.

  Whoever wants a running record gone asks `TryClaimCleanup` for it and, having won, walks through
  `CleanupRecord` at its own program counter; nothing in the model keeps a second task out of it.
*/
module StoreManager {
  import opened Common

  type Store = string
  /** Identifies a running call, and with it the slot object or the running record that the call creates. */
  type Id = nat

  datatype RuntimeState = Idle | StartingAgent | VerifyingEgress | LaunchingBrowser | Running | Failed

  datatype Record = Record(store: Store, registered: bool, polling: bool, claimed: bool, completed: bool)

  /** The next thing a task does in `CleanupRecord`. */
  datatype Stage = DropLatency | WriteState | Unregister | Complete {
    function Rank(): nat {
      match this case DropLatency => 0 case WriteState => 1 case Unregister => 2 case Complete => 3
    }
    function Next(): Stage {
      match this case DropLatency => WriteState case WriteState => Unregister case _ => Complete
    }
  }

  /** A task's stay in `CleanupRecord(record, final)`. */
  datatype Job = Job(record: Id, stage: Stage, final: RuntimeState)

  datatype LaunchPc =
    | ReadGeneration | CheckDraining | Scan | AwaitCleanup(existing: Id)
    | WantGate | InGate | Admitted | WonSlot | LostSlot(slot: Id) | AwaitSlot(slot: Id)
    | SettingUp | Preparing | Constructed | Registered | Published
    | Failing | OwnCleanup(stage: Stage) | AwaitOwnCleanup
    | Unwinding | SlotDropped | LaunchEnded
  {
    predicate IsEntry() {
      ReadGeneration? || CheckDraining? || Scan? || AwaitCleanup? || WantGate? || InGate? || Admitted?
      || WonSlot? || LostSlot? || AwaitSlot?
    }
  }

  datatype ClosePc =
    | TakeSlot | CancelOther(slot: Id) | AwaitOther(slot: Id)
    | Holding | Found(record: Id) | CloseCleanup(record: Id, stage: Stage) | AwaitRecord(record: Id)
    | Releasing(ok: bool) | CloseSlotDropped(ok: bool) | CloseEnded(ok: bool)

  datatype QuitPc =
    | QuitWantGate | Bump | Drain | SnapStarting | SnapRunning(ids: set<Store>)
    | Closing(ids: set<Store>) | AwaitClose(ids: set<Store>, closer: Id)
    | Reset(ok: bool) | ReleaseGate(ok: bool) | QuitEnded(ok: bool)

  datatype ExitPc = ExitStart | ExitCleanup(stage: Stage) | ExitEnded

  datatype Task =
    | Launch(store: Store, observed: nat, pc: LaunchPc)
    | Close(store: Store, cpc: ClosePc)
    | Quit(qpc: QuitPc)
    | Exit(record: Id, epc: ExitPc)
  {
    /** Its own slot is the value `_starting` holds for its store. */
    predicate HoldsSlot() {
      match this
      case Launch(_, _, pc) =>
        pc.WonSlot? || pc.SettingUp? || pc.Preparing? || pc.Constructed? || pc.Registered? || pc.Published?
        || pc.Failing? || pc.OwnCleanup? || pc.AwaitOwnCleanup? || pc.Unwinding?
      case Close(_, pc) => pc.Holding? || pc.Found? || pc.CloseCleanup? || pc.AwaitRecord? || pc.Releasing?
      case Quit(_) => false
      case Exit(_, _) => false
    }
    /** A launch that owns its store's slot: the only kind of task that may still register a record. */
    predicate IsOwner() { Launch? && HoldsSlot() }
    predicate InsideGate() {
      match this
      case Launch(_, _, pc) => pc.InGate? || pc.Admitted? || pc.WonSlot? || pc.LostSlot?
      case Close(_, _) => false
      case Quit(pc) => !pc.QuitWantGate? && !pc.QuitEnded?
      case Exit(_, _) => false
    }
    /** Its slot is completed: whoever awaits it may go on. */
    predicate IsOver() {
      match this
      case Launch(_, _, pc) => pc.LaunchEnded?
      case Close(_, pc) => pc.CloseEnded?
      case Quit(pc) => pc.QuitEnded?
      case Exit(_, pc) => pc.ExitEnded?
    }
    predicate HasStore() { Launch? || Close? }

    /** The record that the task, known as `self`, is about to claim the cleanup of. */
    function Wants(self: Id): Option<Id> {
      match this
      case Launch(_, _, Failing) => Some(self)
      case Close(_, Found(r)) => Some(r)
      case Exit(r, ExitStart) => Some(r)
      case _ => None
    }

    /** Where the task is in `CleanupRecord`, if it is there. */
    function Cleans(self: Id): Option<Job> {
      match this
      case Launch(_, _, OwnCleanup(stage)) => Some(Job(self, stage, Failed))
      case Close(_, CloseCleanup(r, stage)) => Some(Job(r, stage, Idle))
      case Exit(r, ExitCleanup(stage)) => Some(Job(r, stage, Failed))
      case _ => None
    }

    /** What `TryClaimCleanup` sends the task on to. */
    function AfterClaim(won: bool): Task {
      match this
      case Launch(x, g, _) => Launch(x, g, if won then OwnCleanup(DropLatency) else AwaitOwnCleanup)
      case Close(x, Found(r)) => Close(x, if won then CloseCleanup(r, DropLatency) else AwaitRecord(r))
      case Exit(r, _) => Exit(r, if won then ExitCleanup(DropLatency) else ExitEnded)
      case _ => this
    }

    /** The task has done `stage` of `CleanupRecord`; a close then reports how stopping the processes went. */
    function AfterStage(stage: Stage, ok: bool): Task {
      match this
      case Launch(x, g, _) => Launch(x, g, if stage.Complete? then Unwinding else OwnCleanup(stage.Next()))
      case Close(x, CloseCleanup(r, _)) =>
        Close(x, if stage.Complete? then Releasing(ok) else CloseCleanup(r, stage.Next()))
      case Exit(r, _) => Exit(r, if stage.Complete? then ExitEnded else ExitCleanup(stage.Next()))
      case _ => this
    }
  }

  datatype State = State(
    generation: nat,
    draining: bool,
    gate: Option<Id>,
    starting: map<Store, Id>,
    running: map<Store, Id>,
    states: map<Store, RuntimeState>,
    latencies: map<Store, Option<int>>,
    cancelled: set<Id>,
    records: map<Id, Record>,
    tasks: map<Id, Task>)
  {
    function With(t: Id, task: Task): State { this.(tasks := tasks[t := task]) }
    function WithRecord(r: Id, record: Record): State { this.(records := records[r := record]) }
    predicate IsLaunch(t: Id) { t in tasks && tasks[t].Launch? }
    predicate IsClaimed(r: Id) { r in records && records[r].claimed }
    predicate IsClean(r: Id) { r in records && records[r].completed }
    predicate IsOver(t: Id) { t in tasks && tasks[t].IsOver() }
    /** The record is the value `_running` holds for its store. */
    predicate IsListed(r: Id) { r in records && records[r].store in running && running[records[r].store] == r }
    function JobOf(t: Id): Option<Job> { if t in tasks then tasks[t].Cleans(t) else None }
    /** Task `t` is inside `CleanupRecord` for `r`. */
    predicate IsCleaning(t: Id, r: Id) { JobOf(t).Some? && JobOf(t).value.record == r }
  }

  const INITIAL := State(0, false, None, map[], map[], map[], map[], {}, map[], map[])

  /** `ok` resolves what the model does not compute: a living process, a successful foreign call. */
  datatype Action =
    | StartLaunch(t: Id, store: Store)
    | StartClose(t: Id, store: Store)
    | StartQuit(t: Id)
    | StepLaunch(t: Id, ok: bool, spawned: Id)
    | ShowProgress(t: Id, shown: RuntimeState)
    | StepClose(t: Id, ok: bool)
    | StepQuit(t: Id, next: Store, closer: Id)
    | CancelLaunch(t: Id)
    | ProcessExited(t: Id, record: Id)
    | TryClaim(t: Id)
    | StepCleanup(t: Id, ok: bool)
    | PublishLatency(record: Id, latency: Option<int>)

  // ---- LaunchAsync and LaunchOwnedAsync ----

  /** The loop over an existing record: activate it, wait for its cleanup, or report its exit first. */
  function ScanStep(s: State, t: Id, ok: bool, spawned: Id): State
    requires s.IsLaunch(t)
  {
    var me := s.tasks[t];
    if me.store !in s.running then s.With(t, me.(pc := WantGate))
    else
      var r := s.running[me.store];
      if s.IsClaimed(r) then s.With(t, me.(pc := AwaitCleanup(r)))
      else if ok then s.With(t, me.(pc := LaunchEnded))
      else if spawned in s.tasks then s
      else s.With(spawned, Exit(r, ExitStart)).With(t, me.(pc := AwaitCleanup(r)))
  }

  /** `LaunchAsync` up to the point where the call owns its store's slot or gives up. */
  function EntryStep(s: State, t: Id, ok: bool): State
    requires s.IsLaunch(t)
  {
    var me := s.tasks[t];
    var x := me.store;
    match me.pc
    case ReadGeneration => s.With(t, me.(observed := s.generation, pc := CheckDraining))
    case CheckDraining => s.With(t, me.(pc := if s.draining then LaunchEnded else Scan))
    case AwaitCleanup(r) =>
      if !ok then s.With(t, me.(pc := LaunchEnded))
      else if s.IsClean(r) then s.With(t, me.(pc := Scan)) else s
    case WantGate =>
      if !ok then s.With(t, me.(pc := LaunchEnded))
      else if s.gate.None? then s.With(t, me.(pc := InGate)).(gate := Some(t)) else s
    case InGate =>
      if s.draining || s.generation != me.observed
      then s.With(t, me.(pc := LaunchEnded)).(gate := None)
      else s.With(t, me.(pc := Admitted))
    case Admitted =>
      if x in s.starting then s.With(t, me.(pc := LostSlot(s.starting[x])))
      else s.With(t, me.(pc := WonSlot)).(starting := s.starting[x := t])
    case WonSlot => s.With(t, me.(pc := SettingUp)).(gate := None)
    case LostSlot(o) => s.With(t, me.(pc := AwaitSlot(o))).(gate := None)
    case AwaitSlot(o) =>
      if !ok || s.IsOver(o) then s.With(t, me.(pc := LaunchEnded)) else s
    case _ => s
  }

  /** `LaunchOwnedAsync`, but for the cleanup of its record, and the `finally` that gives the slot back. */
  function OwnedStep(s: State, t: Id, ok: bool): State
    requires s.IsLaunch(t)
  {
    var me := s.tasks[t];
    var x := me.store;
    match me.pc
    case SettingUp => s.With(t, me.(pc := if ok && t !in s.cancelled then Preparing else Unwinding))
    case Preparing =>
      if ok && t !in s.cancelled
      then s.With(t, me.(pc := Constructed)).WithRecord(t, Record(x, false, false, false, false))
      else s.With(t, me.(pc := Unwinding)).(states := s.states[x := Failed])
    case Constructed =>
      if ok && t !in s.cancelled && x !in s.running && t in s.records
      then s.With(t, me.(pc := Registered)).WithRecord(t, s.records[t].(registered := true))
            .(running := s.running[x := t])
      else s.With(t, me.(pc := Failing))
    case Registered =>
      if ok && t !in s.cancelled && x in s.running && s.running[x] == t && !s.IsClaimed(t)
      then s.With(t, me.(pc := Published)).(states := s.states[x := Running])
      else s.With(t, me.(pc := Failing))
    case Published =>
      if ok && t in s.records
      then s.With(t, me.(pc := Unwinding)).WithRecord(t, s.records[t].(polling := true))
      else s.With(t, me.(pc := Failing))
    case AwaitOwnCleanup => if s.IsClean(t) then s.With(t, me.(pc := Unwinding)) else s
    case Unwinding => s.With(t, me.(pc := SlotDropped)).(starting := DropSlot(s, x, t))
    case SlotDropped => s.With(t, me.(pc := LaunchEnded))
    case _ => s
  }

  function LaunchStep(s: State, t: Id, ok: bool, spawned: Id): State
    requires s.IsLaunch(t)
  {
    var pc := s.tasks[t].pc;
    if pc.Scan? then ScanStep(s, t, ok, spawned)
    else if pc.IsEntry() then EntryStep(s, t, ok)
    else OwnedStep(s, t, ok)
  }

  /** Removing a (store, slot) pair from `_starting` removes it only while it is that very slot. */
  function DropSlot(s: State, x: Store, t: Id): map<Store, Id> {
    if x in s.starting && s.starting[x] == t then s.starting - {x} else s.starting
  }

  // ---- CloseAsync and CloseRunningAsync, but for the cleanup ----

  function CloseStep(s: State, c: Id, ok: bool): State
    requires c in s.tasks && s.tasks[c].Close?
  {
    var me := s.tasks[c];
    var x := me.store;
    match me.cpc
    case TakeSlot =>
      if x in s.starting then s.With(c, me.(cpc := CancelOther(s.starting[x])))
      else s.With(c, me.(cpc := Holding)).(starting := s.starting[x := c])
    case CancelOther(o) => s.With(c, me.(cpc := AwaitOther(o))).(cancelled := s.cancelled + {o})
    case AwaitOther(o) => if s.IsOver(o) then s.With(c, me.(cpc := TakeSlot)) else s
    case Holding =>
      if x in s.running then s.With(c, me.(cpc := Found(s.running[x])))
      else s.With(c, me.(cpc := Releasing(ok))).(states := s.states[x := Idle])
    case AwaitRecord(r) => if s.IsClean(r) then s.With(c, me.(cpc := Releasing(true))) else s
    case Releasing(good) =>
      s.With(c, me.(cpc := CloseSlotDropped(good))).(starting := DropSlot(s, x, c))
    case CloseSlotDropped(good) => s.With(c, me.(cpc := CloseEnded(good)))
    case _ => s
  }

  // ---- QuitAllAsync ----

  function QuitStep(s: State, q: Id, next: Store, closer: Id): State
    requires q in s.tasks && s.tasks[q].Quit?
  {
    match s.tasks[q].qpc
    case QuitWantGate => if s.gate.None? then s.With(q, Quit(Bump)).(gate := Some(q)) else s
    case Bump => s.With(q, Quit(Drain)).(generation := s.generation + 1)
    case Drain => s.With(q, Quit(SnapStarting)).(draining := true)
    case SnapStarting => s.With(q, Quit(SnapRunning(s.starting.Keys)))
    case SnapRunning(ids) => s.With(q, Quit(Closing(ids + s.running.Keys)))
    case Closing(ids) =>
      if ids == {} then s.With(q, Quit(Reset(true)))
      else if next in ids && closer !in s.tasks
      then s.With(closer, Close(next, TakeSlot)).With(q, Quit(AwaitClose(ids - {next}, closer)))
      else s
    case AwaitClose(ids, c) =>
      if !s.IsOver(c) || !s.tasks[c].Close? then s
      else if s.tasks[c].cpc.ok then s.With(q, Quit(Closing(ids)))
      else s.With(q, Quit(Reset(false)))
    case Reset(ok) => s.With(q, Quit(ReleaseGate(ok))).(draining := false)
    case ReleaseGate(ok) => s.With(q, Quit(QuitEnded(ok))).(gate := None)
    case QuitEnded(_) => s
  }

  // ---- TryClaimCleanup and CleanupRecord, by whichever task comes there ----

  /** A compare-and-swap: the task that finds the record unclaimed goes on into `CleanupRecord`. */
  function ClaimStep(s: State, t: Id): State
    requires t in s.tasks && s.tasks[t].Wants(t).Some? && s.tasks[t].Wants(t).value in s.records
  {
    var r := s.tasks[t].Wants(t).value;
    s.WithRecord(r, s.records[r].(claimed := true)).With(t, s.tasks[t].AfterClaim(!s.records[r].claimed))
  }

  /** One access of `CleanupRecord`, by the task that is there. */
  function CleanStep(s: State, t: Id, ok: bool): State
    requires s.JobOf(t).Some? && s.JobOf(t).value.record in s.records
  {
    var job := s.JobOf(t).value;
    Access(s, job).With(t, s.tasks[t].AfterStage(job.stage, ok))
  }

  /** What it does to the dictionaries and the record. */
  function Access(s: State, job: Job): State
    requires job.record in s.records
  {
    var r := job.record;
    var x := s.records[r].store;
    s.(latencies := if job.stage.DropLatency? then s.latencies - {x} else s.latencies,
       states := if job.stage.WriteState? then s.states[x := job.final] else s.states,
       running := if job.stage.Unregister? && x in s.running && s.running[x] == r then s.running - {x} else s.running,
       records := if job.stage.Complete? then s.records[r := s.records[r].(completed := true)] else s.records)
  }

  function Step(s: State, a: Action): State {
    match a
    case StartLaunch(t, x) => if t in s.tasks then s else s.With(t, Launch(x, 0, ReadGeneration))
    case StartClose(t, x) => if t in s.tasks then s else s.With(t, Close(x, TakeSlot))
    case StartQuit(t) => if t in s.tasks then s else s.With(t, Quit(QuitWantGate))
    case StepLaunch(t, ok, spawned) => if s.IsLaunch(t) then LaunchStep(s, t, ok, spawned) else s
    case ShowProgress(t, shown) =>
      if s.IsLaunch(t) && s.tasks[t].pc.Preparing? && !shown.Running?
      then s.(states := s.states[s.tasks[t].store := shown]) else s
    case StepClose(t, ok) => if t in s.tasks && s.tasks[t].Close? then CloseStep(s, t, ok) else s
    case StepQuit(t, next, closer) =>
      if t in s.tasks && s.tasks[t].Quit? then QuitStep(s, t, next, closer) else s
    case CancelLaunch(t) => s.(cancelled := s.cancelled + {t})
    case ProcessExited(t, r) =>
      if t !in s.tasks && r in s.records && s.records[r].registered then s.With(t, Exit(r, ExitStart)) else s
    case TryClaim(t) =>
      if t in s.tasks && s.tasks[t].Wants(t).Some? && s.tasks[t].Wants(t).value in s.records
      then ClaimStep(s, t) else s
    case StepCleanup(t, ok) =>
      if s.JobOf(t).Some? && s.JobOf(t).value.record in s.records then CleanStep(s, t, ok) else s
    case PublishLatency(r, latency) =>
      if MayPublish(s, r) && s.records[r].polling
      then s.(latencies := s.latencies[s.records[r].store := latency]) else s
  }

  /** The guard of `PublishEdgeLatency`, evaluated under the record's lifecycle lock. */
  predicate MayPublish(s: State, r: Id) { s.IsListed(r) && !s.IsClaimed(r) }

  /** The state a schedule leads to from `s`. */
  function Run(s: State, schedule: seq<Action>): State
    decreases |schedule|
  {
    if schedule == [] then s else Run(Step(s, schedule[0]), schedule[1..])
  }
}
