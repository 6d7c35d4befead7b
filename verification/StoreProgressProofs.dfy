/** Nobody waits in vain: from every state that a schedule leads to, every call can be brought to its end. */
module StoreProgressProofs {
  import opened Common
  import opened StoreManager
  import opened StoreManagerProofs

  // ---- What a waiting task waits for is on its way ----

  /** A call that holds its store's slot, has just given it back, or is over. */
  predicate WillEnd(task: Task) {
    || task.HoldsSlot() || task.IsOver()
    || (task.Launch? && task.pc.SlotDropped?) || (task.Close? && task.cpc.CloseSlotDropped?)
  }

  predicate Slotted(s: State, o: Id) { o in s.tasks && s.tasks[o].HasStore() && WillEnd(s.tasks[o]) }

  predicate IsReported(s: State, r: Id) { exists e :: e in s.tasks && s.tasks[e] == Exit(r, ExitStart) }

  ghost predicate Waits(s: State, t: Id, task: Task) {
    && (task.Launch? && (task.pc.LostSlot? || task.pc.AwaitSlot?) ==> Slotted(s, task.pc.slot))
    && (task.Launch? && task.pc.AwaitCleanup? ==>
          task.pc.existing in s.records && (s.IsClaimed(task.pc.existing) || IsReported(s, task.pc.existing)))
    && (task.Launch? && task.pc.AwaitOwnCleanup? ==> s.IsClaimed(t))
    && (task.Close? && (task.cpc.CancelOther? || task.cpc.AwaitOther?) ==> Slotted(s, task.cpc.slot))
    && (task.Close? && task.cpc.AwaitRecord? ==> s.IsClaimed(task.cpc.record))
  }

  ghost predicate WaitInv(s: State) { forall t :: t in s.tasks ==> Waits(s, t, s.tasks[t]) }

  ghost predicate Good(s: State) { Inv(s) && WaitInv(s) }

  /** What waiting tasks rely on stays. */
  ghost predicate Kept(s: State, s': State) {
    && (forall o :: Slotted(s, o) ==> Slotted(s', o))
    && (forall r :: IsReported(s, r) ==> IsReported(s', r) || s'.IsClaimed(r))
    && RecordsGrow(s.records, s'.records)
  }

  lemma WaitsStay(s: State, s': State, t: Id, task: Task)
    requires Kept(s, s') && Waits(s, t, task)
    ensures Waits(s', t, task)
  {
  }

  /** How the step of one task keeps what the others rely on. */
  lemma KeptByMove(s: State, s': State, t: Id)
    requires OnlyTask(s, s', t) && RecordsGrow(s.records, s'.records)
    requires WillEnd(s.tasks[t]) ==> WillEnd(s'.tasks[t])
    requires s.tasks[t].Exit? && s.tasks[t].epc.ExitStart? ==> s'.IsClaimed(s.tasks[t].record)
    ensures Kept(s, s')
  {
    forall r | IsReported(s, r) ensures IsReported(s', r) || s'.IsClaimed(r) {
      var e :| e in s.tasks && s.tasks[e] == Exit(r, ExitStart);
      if e != t { assert s'.tasks[e] == s.tasks[e]; }
    }
  }

  lemma WaitFrame(s: State, s': State, t: Id)
    requires WaitInv(s) && Kept(s, s') && OnlyTask(s, s', t) && Waits(s', t, s'.tasks[t])
    ensures WaitInv(s')
  {
    forall k | k in s'.tasks ensures Waits(s', k, s'.tasks[k]) {
      if k != t { WaitsStay(s, s', k, s.tasks[k]); }
    }
  }

  /** The task, with something to wait for already now, if it has to wait. */
  ghost predicate GoesOn(s: State, s': State, t: Id) {
    t in s.tasks && t in s'.tasks && (WillEnd(s.tasks[t]) ==> WillEnd(s'.tasks[t])) && Waits(s, t, s'.tasks[t])
  }

  /** The step of a launch or a close that has, afterwards, something to wait for already now. */
  lemma MoveKeepsWaits(s: State, s': State, t: Id)
    requires WaitInv(s) && OnlyTask(s, s', t) && RecordsGrow(s.records, s'.records) && !s.tasks[t].Exit?
    requires GoesOn(s, s', t)
    ensures WaitInv(s')
  {
    KeptByMove(s, s', t);
    WaitsStay(s, s', t, s'.tasks[t]);
    WaitFrame(s, s', t);
  }

  lemma SpawnKeepsWaits(s: State, u: Id, task: Task)
    requires WaitInv(s) && u !in s.tasks && Waits(s.With(u, task), u, task)
    ensures WaitInv(s.With(u, task)) && Kept(s, s.With(u, task))
  {
    var s' := s.With(u, task);
    forall r | IsReported(s, r) ensures IsReported(s', r) {
      var e :| e in s.tasks && s.tasks[e] == Exit(r, ExitStart);
      assert e in s'.tasks && s'.tasks[e] == s.tasks[e];
    }
    forall k | k in s'.tasks ensures Waits(s', k, s'.tasks[k]) {
      if k != u { WaitsStay(s, s', k, s.tasks[k]); }
    }
  }

  // ---- Every action keeps it so ----

  /** How a launch goes on, scanning and cleaning up aside. */
  predicate LaunchOn(s: State, s': State, t: Id) {
    && s.IsLaunch(t) && s'.IsLaunch(t)
    && var x, a, b := s.tasks[t].store, s.tasks[t].pc, s'.tasks[t].pc;
    match a
    case ReadGeneration => b.CheckDraining?
    case CheckDraining => b.LaunchEnded? || b.Scan?
    case AwaitCleanup(r) => b.LaunchEnded? || (if s.IsClean(r) then b.Scan? else b == a)
    case WantGate => b.LaunchEnded? || (if s.gate.None? then b.InGate? else b == a)
    case InGate => b.LaunchEnded? || b.Admitted?
    case Admitted => if x in s.starting then b == LostSlot(s.starting[x]) else b.WonSlot?
    case WonSlot => b.SettingUp?
    case LostSlot(o) => b == AwaitSlot(o)
    case AwaitSlot(o) => b.LaunchEnded? || (b == a && !s.IsOver(o))
    case SettingUp => b.Preparing? || b.Unwinding?
    case Preparing => b.Constructed? || b.Unwinding?
    case Constructed => b.Registered? || b.Failing?
    case Registered => b.Published? || b.Failing?
    case Published => b.Unwinding? || b.Failing?
    case AwaitOwnCleanup => if s.IsClean(t) then b.Unwinding? else b == a
    case Unwinding => b.SlotDropped?
    case SlotDropped => b.LaunchEnded?
    case _ => b == a
  }

  lemma BeginsOn(s: State, t: Id, ok: bool)
    requires s.IsLaunch(t) && (s.tasks[t].pc.ReadGeneration? || s.tasks[t].pc.CheckDraining?)
    ensures LaunchOn(s, EntryStep(s, t, ok), t)
  {
  }

  lemma PassesGateOn(s: State, t: Id, ok: bool)
    requires s.IsLaunch(t) && (s.tasks[t].pc.WantGate? || s.tasks[t].pc.InGate?)
    ensures LaunchOn(s, EntryStep(s, t, ok), t)
  {
  }

  lemma AdmittedOn(s: State, t: Id, ok: bool)
    requires s.IsLaunch(t) && (s.tasks[t].pc.Admitted? || s.tasks[t].pc.WonSlot? || s.tasks[t].pc.LostSlot?)
    ensures LaunchOn(s, EntryStep(s, t, ok), t)
  {
  }

  lemma AwaitsOn(s: State, t: Id, ok: bool)
    requires s.IsLaunch(t) && (s.tasks[t].pc.AwaitCleanup? || s.tasks[t].pc.AwaitSlot?)
    ensures LaunchOn(s, EntryStep(s, t, ok), t)
  {
  }

  lemma EntryOn(s: State, t: Id, ok: bool)
    requires s.IsLaunch(t) && s.tasks[t].pc.IsEntry() && !s.tasks[t].pc.Scan?
    ensures LaunchOn(s, EntryStep(s, t, ok), t)
  {
    match s.tasks[t].pc
    case ReadGeneration | CheckDraining => BeginsOn(s, t, ok);
    case WantGate | InGate => PassesGateOn(s, t, ok);
    case AwaitCleanup(_) => AwaitsOn(s, t, ok);
    case AwaitSlot(_) => AwaitsOn(s, t, ok);
    case _ => AdmittedOn(s, t, ok);
  }

  lemma PreparesOn(s: State, t: Id, ok: bool)
    requires s.IsLaunch(t) && (s.tasks[t].pc.SettingUp? || s.tasks[t].pc.Preparing? || s.tasks[t].pc.Constructed?)
    ensures LaunchOn(s, OwnedStep(s, t, ok), t)
  {
  }

  lemma PublishesOn(s: State, t: Id, ok: bool)
    requires s.IsLaunch(t) && (s.tasks[t].pc.Registered? || s.tasks[t].pc.Published?)
    ensures LaunchOn(s, OwnedStep(s, t, ok), t)
  {
  }

  lemma UnwindsOn(s: State, t: Id, ok: bool)
    requires s.IsLaunch(t) && (s.tasks[t].pc.AwaitOwnCleanup? || s.tasks[t].pc.Unwinding? || s.tasks[t].pc.SlotDropped?)
    ensures LaunchOn(s, OwnedStep(s, t, ok), t)
  {
  }

  lemma OwnedOn(s: State, t: Id, ok: bool)
    requires s.IsLaunch(t) && !s.tasks[t].pc.IsEntry()
    ensures LaunchOn(s, OwnedStep(s, t, ok), t)
  {
    match s.tasks[t].pc
    case SettingUp | Preparing | Constructed => PreparesOn(s, t, ok);
    case Registered | Published => PublishesOn(s, t, ok);
    case AwaitOwnCleanup | Unwinding | SlotDropped => UnwindsOn(s, t, ok);
    case Failing | LaunchEnded => assert OwnedStep(s, t, ok) == s;
    case OwnCleanup(_) => assert OwnedStep(s, t, ok) == s;
  }

  lemma LaunchGoesOn(s: State, s': State, t: Id)
    requires SlotInv(s) && WaitInv(s) && LaunchOn(s, s', t)
    ensures GoesOn(s, s', t)
  {
    assert Waits(s, t, s.tasks[t]);
  }

  lemma ReportKeepsWaits(s: State, t: Id, spawned: Id, r: Id)
    requires WaitInv(s) && s.IsLaunch(t) && s.tasks[t].pc.Scan? && spawned !in s.tasks && r in s.records
    ensures WaitInv(s.With(spawned, Exit(r, ExitStart)).With(t, s.tasks[t].(pc := AwaitCleanup(r))))
  {
    var s1 := s.With(spawned, Exit(r, ExitStart));
    SpawnKeepsWaits(s, spawned, Exit(r, ExitStart));
    assert s1.tasks[spawned] == Exit(r, ExitStart);
    MoveKeepsWaits(s1, s1.With(t, s.tasks[t].(pc := AwaitCleanup(r))), t);
  }

  lemma ScanKeepsWaits(s: State, t: Id, ok: bool, spawned: Id)
    requires Good(s) && s.IsLaunch(t) && s.tasks[t].pc.Scan?
    ensures WaitInv(ScanStep(s, t, ok, spawned))
  {
    var s', me := ScanStep(s, t, ok, spawned), s.tasks[t];
    if me.store in s.running && !s.IsClaimed(s.running[me.store]) && !ok {
      if spawned !in s.tasks { ReportKeepsWaits(s, t, spawned, s.running[me.store]); }
    } else {
      MoveKeepsWaits(s, s', t);
    }
  }

  lemma LaunchKeepsWaits(s: State, t: Id, ok: bool, spawned: Id)
    requires Good(s) && s.IsLaunch(t) && Evolves(s, LaunchStep(s, t, ok, spawned))
    ensures WaitInv(LaunchStep(s, t, ok, spawned))
  {
    var pc := s.tasks[t].pc;
    if pc.Scan? {
      ScanKeepsWaits(s, t, ok, spawned);
    } else if pc.IsEntry() {
      EntryIsPlain(s, t, ok);
      EntryOn(s, t, ok);
      LaunchGoesOn(s, EntryStep(s, t, ok), t);
      MoveKeepsWaits(s, EntryStep(s, t, ok), t);
    } else if !pc.OwnCleanup? {
      OwnedIsPlain(s, t, ok);
      OwnedOn(s, t, ok);
      LaunchGoesOn(s, OwnedStep(s, t, ok), t);
      MoveKeepsWaits(s, OwnedStep(s, t, ok), t);
    }
  }

  /** How a close goes on, cleaning up aside. */
  predicate CloseOn(s: State, s': State, c: Id) {
    && c in s.tasks && s.tasks[c].Close? && c in s'.tasks && s'.tasks[c].Close?
    && var x, a, b := s.tasks[c].store, s.tasks[c].cpc, s'.tasks[c].cpc;
    match a
    case TakeSlot => if x in s.starting then b == CancelOther(s.starting[x]) else b.Holding?
    case CancelOther(o) => b == AwaitOther(o)
    case AwaitOther(o) => if s.IsOver(o) then b.TakeSlot? else b == a
    case Holding => b.Found? || b.Releasing?
    case AwaitRecord(r) => if s.IsClean(r) then b.Releasing? else b == a
    case Releasing(_) => b.CloseSlotDropped?
    case CloseSlotDropped(_) => b.CloseEnded?
    case _ => b == a
  }

  lemma TakesSlotOn(s: State, c: Id, ok: bool)
    requires c in s.tasks && s.tasks[c].Close?
    requires s.tasks[c].cpc.TakeSlot? || s.tasks[c].cpc.CancelOther? || s.tasks[c].cpc.AwaitOther?
    ensures CloseOn(s, CloseStep(s, c, ok), c)
  {
  }

  lemma HoldsOn(s: State, c: Id, ok: bool)
    requires c in s.tasks && s.tasks[c].Close? && (s.tasks[c].cpc.Holding? || s.tasks[c].cpc.AwaitRecord?)
    ensures CloseOn(s, CloseStep(s, c, ok), c)
  {
  }

  lemma ReleasesOn(s: State, c: Id, ok: bool)
    requires c in s.tasks && s.tasks[c].Close? && (s.tasks[c].cpc.Releasing? || s.tasks[c].cpc.CloseSlotDropped?)
    ensures CloseOn(s, CloseStep(s, c, ok), c)
  {
  }

  lemma CloseStepOn(s: State, c: Id, ok: bool)
    requires c in s.tasks && s.tasks[c].Close?
    ensures CloseOn(s, CloseStep(s, c, ok), c)
  {
    match s.tasks[c].cpc
    case TakeSlot => TakesSlotOn(s, c, ok);
    case CancelOther(_) => TakesSlotOn(s, c, ok);
    case AwaitOther(_) => TakesSlotOn(s, c, ok);
    case Holding => HoldsOn(s, c, ok);
    case AwaitRecord(_) => HoldsOn(s, c, ok);
    case Releasing(_) => ReleasesOn(s, c, ok);
    case CloseSlotDropped(_) => ReleasesOn(s, c, ok);
    case _ => assert CloseStep(s, c, ok) == s;
  }

  lemma CloseGoesOn(s: State, s': State, c: Id)
    requires SlotInv(s) && WaitInv(s) && CloseOn(s, s', c)
    ensures GoesOn(s, s', c)
  {
    assert Waits(s, c, s.tasks[c]);
  }

  lemma CloseKeepsWaits(s: State, c: Id, ok: bool)
    requires Good(s) && c in s.tasks && s.tasks[c].Close? && Evolves(s, CloseStep(s, c, ok))
    ensures WaitInv(CloseStep(s, c, ok))
  {
    if !s.tasks[c].cpc.CloseCleanup? {
      CloseIsPlain(s, c, ok);
      CloseStepOn(s, c, ok);
      CloseGoesOn(s, CloseStep(s, c, ok), c);
      MoveKeepsWaits(s, CloseStep(s, c, ok), c);
    }
  }

  lemma QuitKeepsWaits(s: State, q: Id, next: Store, closer: Id)
    requires Good(s) && q in s.tasks && s.tasks[q].Quit?
    ensures WaitInv(QuitStep(s, q, next, closer))
  {
    var s' := QuitStep(s, q, next, closer);
    if s.tasks[q].qpc.Closing? && s.tasks[q].qpc.ids != {} {
      var ids := s.tasks[q].qpc.ids;
      if next in ids && closer !in s.tasks {
        var s1 := s.With(closer, Close(next, TakeSlot));
        SpawnKeepsWaits(s, closer, Close(next, TakeSlot));
        assert s' == s1.With(q, Quit(AwaitClose(ids - {next}, closer)));
        MoveKeepsWaits(s1, s', q);
      }
    } else {
      QuitMovesAlone(s, q, next, closer);
      MoveKeepsWaits(s, s', q);
    }
  }

  /** The quit-all moves, and nobody else. */
  ghost predicate QuitOn(s: State, s': State, q: Id) {
    OnlyTask(s, s', q) && s'.records == s.records && (s.tasks[q].IsOver() ==> s'.tasks[q].IsOver())
  }

  lemma QuitBeginsOn(s: State, q: Id, next: Store, closer: Id)
    requires q in s.tasks && s.tasks[q].Quit?
    requires s.tasks[q].qpc.QuitWantGate? || s.tasks[q].qpc.Bump? || s.tasks[q].qpc.Drain?
    ensures QuitOn(s, QuitStep(s, q, next, closer), q)
  {
  }

  lemma QuitSnapsOn(s: State, q: Id, next: Store, closer: Id)
    requires q in s.tasks && s.tasks[q].Quit?
    requires s.tasks[q].qpc.SnapStarting? || s.tasks[q].qpc.SnapRunning? || s.tasks[q].qpc == Closing({})
    ensures QuitOn(s, QuitStep(s, q, next, closer), q)
  {
  }

  lemma QuitAwaitsOn(s: State, q: Id, next: Store, closer: Id)
    requires q in s.tasks && s.tasks[q].Quit? && s.tasks[q].qpc.AwaitClose?
    ensures QuitOn(s, QuitStep(s, q, next, closer), q)
  {
  }

  lemma QuitFinishesOn(s: State, q: Id, next: Store, closer: Id)
    requires q in s.tasks && s.tasks[q].Quit?
    requires s.tasks[q].qpc.Reset? || s.tasks[q].qpc.ReleaseGate? || s.tasks[q].qpc.QuitEnded?
    ensures QuitOn(s, QuitStep(s, q, next, closer), q)
  {
  }

  lemma QuitMovesAlone(s: State, q: Id, next: Store, closer: Id)
    requires q in s.tasks && s.tasks[q].Quit? && (s.tasks[q].qpc.Closing? ==> s.tasks[q].qpc.ids == {})
    ensures QuitOn(s, QuitStep(s, q, next, closer), q)
  {
    match s.tasks[q].qpc
    case QuitWantGate | Bump | Drain => QuitBeginsOn(s, q, next, closer);
    case SnapStarting => QuitSnapsOn(s, q, next, closer);
    case SnapRunning(_) => QuitSnapsOn(s, q, next, closer);
    case Closing(_) => QuitSnapsOn(s, q, next, closer);
    case AwaitClose(_, _) => QuitAwaitsOn(s, q, next, closer);
    case _ => QuitFinishesOn(s, q, next, closer);
  }

  lemma ClaimKeepsWaits(s: State, t: Id)
    requires Good(s) && t in s.tasks && s.tasks[t].Wants(t).Some? && s.tasks[t].Wants(t).value in s.records
    requires Evolves(s, ClaimStep(s, t))
    ensures WaitInv(ClaimStep(s, t))
  {
    KeptByMove(s, ClaimStep(s, t), t);
    WaitFrame(s, ClaimStep(s, t), t);
  }

  lemma CleanKeepsWaits(s: State, t: Id, ok: bool)
    requires Good(s) && s.JobOf(t).Some? && s.JobOf(t).value.record in s.records && Evolves(s, CleanStep(s, t, ok))
    ensures WaitInv(CleanStep(s, t, ok))
  {
    CleanEffect(s, CleanStep(s, t, ok), t, s.JobOf(t).value, ok);
    AfterStageIs(s.tasks[t], t, s.JobOf(t).value, ok);
    KeptByMove(s, CleanStep(s, t, ok), t);
    WaitFrame(s, CleanStep(s, t, ok), t);
  }

  lemma StartKeepsWaits(s: State, a: Action)
    requires Good(s) && (a.StartLaunch? || a.StartClose? || a.StartQuit? || a.ProcessExited?)
    requires Evolves(s, Step(s, a))
    ensures WaitInv(Step(s, a))
  {
    if a.t !in s.tasks && a.t in Step(s, a).tasks {
      SpawnKeepsWaits(s, a.t, Step(s, a).tasks[a.t]);
    }
  }

  lemma StepKeepsWaits(s: State, a: Action)
    requires Good(s)
    ensures Good(Step(s, a)) && Evolves(s, Step(s, a))
  {
    StepKeeps(s, a);
    match a
    case StartLaunch(_, _) => StartKeepsWaits(s, a);
    case StartClose(_, _) => StartKeepsWaits(s, a);
    case StartQuit(_) => StartKeepsWaits(s, a);
    case ProcessExited(_, _) => StartKeepsWaits(s, a);
    case StepLaunch(_, _, _) => TaskKeepsWaits(s, a);
    case StepClose(_, _) => TaskKeepsWaits(s, a);
    case StepQuit(_, _, _) => TaskKeepsWaits(s, a);
    case TryClaim(t) => TryClaimKeepsWaits(s, t);
    case StepCleanup(t, ok) => CleanupKeepsWaits(s, t, ok);
    case _ => DisplayKeepsWaits(s, a);
  }

  lemma TaskKeepsWaits(s: State, a: Action)
    requires Good(s) && (a.StepLaunch? || a.StepClose? || a.StepQuit?) && Evolves(s, Step(s, a))
    ensures WaitInv(Step(s, a))
  {
    match a
    case StepLaunch(t, ok, spawned) => if s.IsLaunch(t) { LaunchKeepsWaits(s, t, ok, spawned); }
    case StepClose(t, ok) => if t in s.tasks && s.tasks[t].Close? { CloseKeepsWaits(s, t, ok); }
    case StepQuit(t, next, closer) => if t in s.tasks && s.tasks[t].Quit? { QuitKeepsWaits(s, t, next, closer); }
  }

  lemma TryClaimKeepsWaits(s: State, t: Id)
    requires Good(s) && Evolves(s, Step(s, TryClaim(t)))
    ensures WaitInv(Step(s, TryClaim(t)))
  {
    if t in s.tasks && s.tasks[t].Wants(t).Some? && s.tasks[t].Wants(t).value in s.records {
      assert Step(s, TryClaim(t)) == ClaimStep(s, t);
      ClaimKeepsWaits(s, t);
    } else {
      assert Step(s, TryClaim(t)) == s;
    }
  }

  lemma CleanupKeepsWaits(s: State, t: Id, ok: bool)
    requires Good(s) && Evolves(s, Step(s, StepCleanup(t, ok)))
    ensures WaitInv(Step(s, StepCleanup(t, ok)))
  {
    if s.JobOf(t).Some? && s.JobOf(t).value.record in s.records {
      assert Step(s, StepCleanup(t, ok)) == CleanStep(s, t, ok);
      CleanKeepsWaits(s, t, ok);
    } else {
      assert Step(s, StepCleanup(t, ok)) == s;
    }
  }

  lemma DisplayKeepsWaits(s: State, a: Action)
    requires WaitInv(s) && (a.ShowProgress? || a.CancelLaunch? || a.PublishLatency?)
    ensures WaitInv(Step(s, a))
  {
    var s' := Step(s, a);
    assert s'.tasks == s.tasks && s'.records == s.records;
    assert Kept(s, s') by {
      forall r | IsReported(s, r) ensures IsReported(s', r) {
        var e :| e in s.tasks && s.tasks[e] == Exit(r, ExitStart);
        assert e in s'.tasks;
      }
    }
    forall k | k in s'.tasks ensures Waits(s', k, s'.tasks[k]) { WaitsStay(s, s', k, s.tasks[k]); }
  }

  lemma {:induction false} RunIsGood(s: State, schedule: seq<Action>)
    requires Good(s)
    ensures Good(Run(s, schedule))
    decreases |schedule|
  {
    if schedule == [] {
      assert Run(s, schedule) == s;
    } else {
      StepKeepsWaits(s, schedule[0]);
      RunIsGood(Step(s, schedule[0]), schedule[1..]);
    }
  }

  lemma ReachableIsGood(s: State)
    requires Reachable(s)
    ensures Good(s)
  {
    var schedule :| s == Run(INITIAL, schedule);
    RunIsGood(INITIAL, schedule);
  }

  // ---- Scheduling against any outcome of foreign calls ----

  /** The scheduler's choice: who goes on, a free identifier for whom it may create, the store to close next. */
  datatype Move = Move(t: Id, spare: Id, next: Store)

  /** The next access of the chosen task; `ok` is how the foreign call in it turns out. */
  function Turn(s: State, m: Move, ok: bool): State {
    if m.t !in s.tasks then s
    else if s.tasks[m.t].Wants(m.t).Some? then Step(s, TryClaim(m.t))
    else if s.JobOf(m.t).Some? then Step(s, StepCleanup(m.t, ok))
    else
      match s.tasks[m.t]
      case Launch(_, _, _) => Step(s, StepLaunch(m.t, ok, m.spare))
      case Close(_, _) => Step(s, StepClose(m.t, ok))
      case Quit(_) => Step(s, StepQuit(m.t, m.next, m.spare))
      case Exit(_, _) => s
  }

  /** Within `n` turns the scheduler reaches the goal, whatever the foreign calls answer. */
  ghost predicate Forces(s: State, goal: State -> bool, n: nat)
    decreases n, 1
  {
    goal(s) || (n > 0 && exists m :: Leads(s, m, goal, n))
  }

  ghost predicate Leads(s: State, m: Move, goal: State -> bool, n: nat)
    requires n > 0
    decreases n, 0
  {
    Forces(Turn(s, m, true), goal, n - 1) && Forces(Turn(s, m, false), goal, n - 1)
  }

  ghost predicate Wins(s: State, goal: State -> bool) { exists n: nat :: Forces(s, goal, n) }

  lemma Now(s: State, goal: State -> bool)
    requires goal(s)
    ensures Wins(s, goal)
  {
    assert Forces(s, goal, 0);
  }

  lemma {:induction false} Longer(s: State, goal: State -> bool, n: nat, more: nat)
    requires Forces(s, goal, n) && n <= more
    ensures Forces(s, goal, more)
    decreases n
  {
    if !goal(s) {
      var m :| Leads(s, m, goal, n);
      Longer(Turn(s, m, true), goal, n - 1, more - 1);
      Longer(Turn(s, m, false), goal, n - 1, more - 1);
      assert Leads(s, m, goal, more);
    }
  }

  lemma ByMove(s: State, m: Move, goal: State -> bool)
    requires Wins(Turn(s, m, true), goal) && Wins(Turn(s, m, false), goal)
    ensures Wins(s, goal)
  {
    var a: nat :| Forces(Turn(s, m, true), goal, a);
    var b: nat :| Forces(Turn(s, m, false), goal, b);
    var n := a + b;
    Longer(Turn(s, m, true), goal, a, n);
    Longer(Turn(s, m, false), goal, b, n);
    assert Leads(s, m, goal, n + 1) && Forces(s, goal, n + 1);
  }

  lemma {:induction false} ThenWithin(s: State, mid: State -> bool, goal: State -> bool, n: nat)
    requires Forces(s, mid, n) && forall s' :: mid(s') ==> Wins(s', goal)
    ensures Wins(s, goal)
    decreases n
  {
    if !mid(s) {
      var m :| Leads(s, m, mid, n);
      ThenWithin(Turn(s, m, true), mid, goal, n - 1);
      ThenWithin(Turn(s, m, false), mid, goal, n - 1);
      ByMove(s, m, goal);
    }
  }

  /** One goal after another. */
  lemma Then(s: State, mid: State -> bool, goal: State -> bool)
    requires Wins(s, mid) && forall s' :: mid(s') ==> Wins(s', goal)
    ensures Wins(s, goal)
  {
    var n: nat :| Forces(s, mid, n);
    ThenWithin(s, mid, goal, n);
  }

  lemma TurnIsGood(s: State, m: Move, ok: bool)
    requires Good(s)
    ensures Good(Turn(s, m, ok))
  {
    if m.t in s.tasks {
      if s.tasks[m.t].Wants(m.t).Some? {
        StepKeepsWaits(s, TryClaim(m.t));
      } else if s.JobOf(m.t).Some? {
        StepKeepsWaits(s, StepCleanup(m.t, ok));
      } else if s.tasks[m.t].Launch? {
        StepKeepsWaits(s, StepLaunch(m.t, ok, m.spare));
      } else if s.tasks[m.t].Close? {
        StepKeepsWaits(s, StepClose(m.t, ok));
      } else if s.tasks[m.t].Quit? {
        StepKeepsWaits(s, StepQuit(m.t, m.next, m.spare));
      }
    }
  }

  // ---- What the others do meanwhile: nothing ----

  /** Nobody moved but `d`, calls that hold a slot and calls that are in a cleanup. */
  ghost predicate Rest(s: State, s': State, d: Id) {
    forall u :: u in s.tasks && u != d && !Slotted(s, u) && s.JobOf(u).None? ==>
      u in s'.tasks && s'.tasks[u] == s.tasks[u]
  }

  lemma RestTransitively(s: State, s1: State, s': State, d: Id)
    requires Rest(s, s1, d) && Rest(s1, s', d)
    ensures Rest(s, s', d)
  {
  }

  lemma CleanerIsAt(s: State, t: Id, r: Id)
    requires CleanerInv(s) && s.IsCleaning(t, r)
    ensures t in s.tasks && s.tasks[t].Wants(t).None? && r in s.records
  {
    assert JobFits(s, s.JobOf(t).value);
  }

  /** The record is clean, and only whoever cleaned it up has moved. */
  ghost predicate Cleaned(s: State, s': State, r: Id) {
    && Good(s') && s'.IsClean(r) && s'.starting == s.starting && s'.gate == s.gate && Shrinks(s.running, s'.running)
    && (forall u :: u in s.tasks && s.JobOf(u).None? ==> u in s'.tasks && s'.tasks[u] == s.tasks[u])
  }

  lemma CleanTurn(s: State, t: Id, r: Id, ok: bool)
    requires Good(s) && s.IsCleaning(t, r)
    ensures var s' := Turn(s, Move(t, t, ""), ok); Good(s') && CleansUp(s, s', t, s.JobOf(t).value, ok)
  {
    TurnIsGood(s, Move(t, t, ""), ok);
    CleanerIsAt(s, t, r);
  }

  lemma CleanComesCloser(s: State, s': State, t: Id, job: Job, ok: bool)
    requires CleansUp(s, s', t, job, ok) && Good(s')
    ensures job.stage.Complete? ==> Cleaned(s, s', job.record)
    ensures !job.stage.Complete? ==>
              s'.IsCleaning(t, job.record) && s'.JobOf(t).value.stage.Rank() == job.stage.Rank() + 1
  {
    CleanEffect(s, s', t, job, ok);
    CleanJobs(s, s', t, job, ok, t);
  }

  lemma CleanedLater(s: State, s1: State, s': State, t: Id, job: Job, ok: bool)
    requires CleansUp(s, s1, t, job, ok) && !job.stage.Complete? && Cleaned(s1, s', job.record)
    ensures Cleaned(s, s', job.record)
  {
    CleanEffect(s, s1, t, job, ok);
    forall u | u in s.tasks && s.JobOf(u).None? ensures u in s'.tasks && s'.tasks[u] == s.tasks[u] {
      CleanJobs(s, s1, t, job, ok, u);
    }
  }

  /** Whoever is in the cleanup of a record completes it, by its own steps alone. */
  lemma {:induction false} CleanerFinishes(s: State, t: Id, r: Id)
    requires Good(s) && s.IsCleaning(t, r)
    ensures Wins(s, s' => Cleaned(s, s', r))
    decreases 3 - s.JobOf(t).value.stage.Rank()
  {
    var goal := s' => Cleaned(s, s', r);
    forall ok ensures Wins(Turn(s, Move(t, t, ""), ok), goal) {
      var s1 := Turn(s, Move(t, t, ""), ok);
      CleanTurn(s, t, r, ok);
      CleanComesCloser(s, s1, t, s.JobOf(t).value, ok);
      if s.JobOf(t).value.stage.Complete? {
        Now(s1, goal);
      } else {
        CleanerFinishes(s1, t, r);
        forall s' | Cleaned(s1, s', r) ensures Wins(s', goal) {
          CleanedLater(s, s1, s', t, s.JobOf(t).value, ok);
          Now(s', goal);
        }
        Then(s1, s' => Cleaned(s1, s', r), goal);
      }
    }
    ByMove(s, Move(t, t, ""), goal);
  }

  lemma ClaimedGetsClean(s: State, r: Id)
    requires Good(s) && s.IsClaimed(r)
    ensures Wins(s, s' => Cleaned(s, s', r))
  {
    if s.IsClean(r) {
      Now(s, s' => Cleaned(s, s', r));
    } else {
      var t :| s.IsCleaning(t, r);
      CleanerFinishes(s, t, r);
    }
  }

  // ---- Calls that hold a slot ----

  /** How far the holder of a slot is from its end. */
  function Rank(task: Task): nat {
    match task
    case Launch(_, _, pc) => LaunchRank(pc)
    case Close(_, pc) => CloseRank(pc)
    case _ => 0
  }

  function LaunchRank(pc: LaunchPc): nat {
    match pc
    case WonSlot => 13 case SettingUp => 12 case Preparing => 11 case Constructed => 10 case Registered => 9
    case Published => 8 case Failing => 7 case OwnCleanup(stage) => 6 - stage.Rank() case AwaitOwnCleanup => 6
    case Unwinding => 2 case SlotDropped => 1 case _ => 0
  }

  function CloseRank(pc: ClosePc): nat {
    match pc
    case Holding => 8 case Found(_) => 7 case CloseCleanup(_, stage) => 6 - stage.Rank() case AwaitRecord(_) => 6
    case Releasing(_) => 2 case CloseSlotDropped(_) => 1 case _ => 0
  }

  /** It waits for the cleanup of a record that is not yet clean. */
  ghost predicate IsBlocked(s: State, h: Id)
    requires h in s.tasks
  {
    || (s.tasks[h].Launch? && s.tasks[h].pc.AwaitOwnCleanup? && !s.IsClean(h))
    || (s.tasks[h].Close? && s.tasks[h].cpc.AwaitRecord? && !s.IsClean(s.tasks[h].cpc.record))
  }

  lemma WantsFits(records: map<Id, Record>, t: Id, task: Task)
    requires Fits(records, t, task) && task.Wants(t).Some?
    ensures task.Wants(t).value in records
  {
  }

  /** The step of a holder that is not in a cleanup. */
  lemma PlainMoves(s: State, h: Id, ok: bool)
    requires Inv(s) && Slotted(s, h) && s.tasks[h].Wants(h).None? && s.JobOf(h).None?
    ensures Moves(s, Turn(s, Move(h, h, ""), ok), h)
  {
    if s.tasks[h].Close? {
      CloseIsPlain(s, h, ok);
    } else if s.tasks[h].pc.WonSlot? {
      EntryIsPlain(s, h, ok);
    } else {
      OwnedIsPlain(s, h, ok);
    }
  }

  lemma ClaimerMoves(s: State, h: Id, ok: bool)
    requires Inv(s) && h in s.tasks && s.tasks[h].Wants(h).Some?
    ensures Moves(s, Turn(s, Move(h, h, ""), ok), h)
  {
    WantsFits(s.records, h, s.tasks[h]);
    ClaimMoves(s, Turn(s, Move(h, h, ""), ok), h, s.tasks[h].Wants(h).value);
  }

  lemma CleanerMoves(s: State, h: Id, ok: bool)
    requires Inv(s) && h in s.tasks && s.JobOf(h).Some?
    ensures Moves(s, Turn(s, Move(h, h, ""), ok), h)
  {
    CleanerIsAt(s, h, s.JobOf(h).value.record);
    CleanMoves(s, Turn(s, Move(h, h, ""), ok), h, s.JobOf(h).value, ok);
  }

  lemma HolderMoves(s: State, h: Id, ok: bool)
    requires Good(s) && Slotted(s, h)
    ensures Moves(s, Turn(s, Move(h, h, ""), ok), h)
  {
    if s.tasks[h].Wants(h).Some? {
      ClaimerMoves(s, h, ok);
    } else if s.JobOf(h).Some? {
      CleanerMoves(s, h, ok);
    } else {
      PlainMoves(s, h, ok);
    }
  }

  /** The step of a holder that is neither to claim nor to clean up a record. */
  lemma HolderOn(s: State, h: Id, ok: bool)
    requires Slotted(s, h) && s.tasks[h].Wants(h).None? && s.JobOf(h).None?
    ensures var s' := Turn(s, Move(h, h, ""), ok);
            if s.tasks[h].Launch? then LaunchOn(s, s', h) else CloseOn(s, s', h)
  {
    if s.tasks[h].Close? {
      CloseStepOn(s, h, ok);
    } else if s.tasks[h].pc.WonSlot? {
      EntryOn(s, h, ok);
    } else {
      OwnedOn(s, h, ok);
    }
  }

  lemma ClaimComesCloser(task: Task, h: Id, won: bool)
    requires task.Wants(h).Some? && task.HasStore()
    ensures var next := task.AfterClaim(won); next.HasStore() && WillEnd(next) && Rank(next) < Rank(task)
  {
  }

  lemma StageComesCloser(task: Task, h: Id, ok: bool)
    requires task.Cleans(h).Some? && task.HasStore()
    ensures var next := task.AfterStage(task.Cleans(h).value.stage, ok);
            next.HasStore() && WillEnd(next) && Rank(next) < Rank(task)
  {
  }

  lemma LaunchOnCloser(s: State, s': State, h: Id)
    requires Slotted(s, h) && LaunchOn(s, s', h) && !s.IsOver(h) && !IsBlocked(s, h)
    requires s.tasks[h].Wants(h).None? && s.JobOf(h).None?
    ensures Slotted(s', h) && Rank(s'.tasks[h]) < Rank(s.tasks[h])
  {
  }

  lemma CloseOnCloser(s: State, s': State, h: Id)
    requires Slotted(s, h) && CloseOn(s, s', h) && !s.IsOver(h) && !IsBlocked(s, h)
    requires s.tasks[h].Wants(h).None? && s.JobOf(h).None?
    ensures Slotted(s', h) && Rank(s'.tasks[h]) < Rank(s.tasks[h])
  {
  }

  lemma ClaimerComesCloser(s: State, h: Id, ok: bool)
    requires RecordInv(s) && Slotted(s, h) && s.tasks[h].Wants(h).Some?
    ensures var s' := Turn(s, Move(h, h, ""), ok);
            Slotted(s', h) && Rank(s'.tasks[h]) < Rank(s.tasks[h])
  {
    var me := s.tasks[h];
    WantsFits(s.records, h, me);
    assert Turn(s, Move(h, h, ""), ok) == ClaimStep(s, h);
    ClaimComesCloser(me, h, !s.records[me.Wants(h).value].claimed);
  }

  lemma CleanerComesCloser(s: State, h: Id, ok: bool)
    requires CleanerInv(s) && Slotted(s, h) && s.JobOf(h).Some?
    ensures var s' := Turn(s, Move(h, h, ""), ok);
            Slotted(s', h) && Rank(s'.tasks[h]) < Rank(s.tasks[h])
  {
    CleanerIsAt(s, h, s.JobOf(h).value.record);
    assert Turn(s, Move(h, h, ""), ok) == CleanStep(s, h, ok);
    StageComesCloser(s.tasks[h], h, ok);
  }

  lemma ComesCloser(s: State, h: Id, ok: bool)
    requires Good(s) && Slotted(s, h) && !s.IsOver(h) && !IsBlocked(s, h)
    ensures var s' := Turn(s, Move(h, h, ""), ok);
            Slotted(s', h) && Rank(s'.tasks[h]) < Rank(s.tasks[h])
  {
    if s.tasks[h].Wants(h).Some? {
      ClaimerComesCloser(s, h, ok);
    } else if s.JobOf(h).Some? {
      CleanerComesCloser(s, h, ok);
    } else {
      HolderOn(s, h, ok);
      if s.tasks[h].Launch? {
        LaunchOnCloser(s, Turn(s, Move(h, h, ""), ok), h);
      } else {
        CloseOnCloser(s, Turn(s, Move(h, h, ""), ok), h);
      }
    }
  }

  /** The call is over, and nobody but slot holders and cleaners has moved. */
  ghost predicate Ended(s: State, s': State, h: Id) { Good(s') && s'.IsOver(h) && Beside(s, s', h) }

  ghost predicate Beside(s: State, s': State, h: Id) {
    && h in s'.tasks && Shrinks(s.starting, s'.starting) && (s'.gate == s.gate || s.gate == Some(h))
    && Rest(s, s', h)
  }

  lemma BesideTransitively(s: State, s1: State, s': State, h: Id)
    requires Beside(s, s1, h) && Beside(s1, s', h) && GateInv(s1) && (s1.gate.None? ==> s'.gate.None?)
    ensures Beside(s, s', h)
  {
    RestTransitively(s, s1, s', h);
  }

  lemma MovesBeside(s: State, s': State, h: Id)
    requires Moves(s, s', h) && Slotted(s, h) && Slotted(s', h) && Rank(s'.tasks[h]) < Rank(s.tasks[h]) && GateInv(s)
    ensures Beside(s, s', h)
  {
  }

  lemma HolderTurn(s: State, h: Id, ok: bool)
    requires Good(s) && Slotted(s, h) && !s.IsOver(h) && !IsBlocked(s, h)
    ensures var s' := Turn(s, Move(h, h, ""), ok);
            Good(s') && Slotted(s', h) && Rank(s'.tasks[h]) < Rank(s.tasks[h]) && Beside(s, s', h)
  {
    TurnIsGood(s, Move(h, h, ""), ok);
    HolderMoves(s, h, ok);
    ComesCloser(s, h, ok);
    MovesBeside(s, Turn(s, Move(h, h, ""), ok), h);
  }

  lemma CleanedIsBeside(s: State, s': State, r: Id, h: Id)
    requires Cleaned(s, s', r) && h in s.tasks && s.JobOf(h).None?
    ensures Beside(s, s', h) && s'.tasks[h] == s.tasks[h]
  {
  }

  /** A call that holds its store's slot comes to its end. */
  lemma {:induction false} HolderEnds(s: State, h: Id)
    requires Good(s) && Slotted(s, h)
    ensures Wins(s, s' => Ended(s, s', h))
    decreases Rank(s.tasks[h]), if IsBlocked(s, h) then 1 else 0
  {
    var goal := s' => Ended(s, s', h);
    if s.IsOver(h) {
      Now(s, goal);
    } else if IsBlocked(s, h) {
      var r := if s.tasks[h].Launch? then h else s.tasks[h].cpc.record;
      assert Waits(s, h, s.tasks[h]);
      ClaimedGetsClean(s, r);
      forall s1 | Cleaned(s, s1, r) ensures Wins(s1, goal) {
        CleanedIsBeside(s, s1, r, h);
        HolderEnds(s1, h);
        EndedLater(s, s1, h);
      }
      Then(s, s1 => Cleaned(s, s1, r), goal);
    } else {
      forall ok ensures Wins(Turn(s, Move(h, h, ""), ok), goal) {
        HolderTurn(s, h, ok);
        HolderEnds(Turn(s, Move(h, h, ""), ok), h);
        EndedLater(s, Turn(s, Move(h, h, ""), ok), h);
      }
      ByMove(s, Move(h, h, ""), goal);
    }
  }

  lemma EndedLater(s: State, s1: State, h: Id)
    requires Beside(s, s1, h) && GateInv(s1) && Wins(s1, s' => Ended(s1, s', h))
    ensures Wins(s1, s' => Ended(s, s', h))
  {
    forall s' | Ended(s1, s', h) ensures Wins(s', s' => Ended(s, s', h)) {
      BesideTransitively(s, s1, s', h);
      Now(s', s' => Ended(s, s', h));
    }
    Then(s1, s' => Ended(s1, s', h), s' => Ended(s, s', h));
  }

  // ---- Close calls ----

  /** Close `c` moves alone, and gate and slots are as before or lose some. */
  lemma CloseTurn(s: State, c: Id, ok: bool)
    requires Good(s) && c in s.tasks && s.tasks[c].Close? && s.tasks[c].Wants(c).None? && s.JobOf(c).None?
    ensures var s' := Turn(s, Move(c, c, ""), ok);
            Good(s') && Moves(s, s', c) && CloseOn(s, s', c) && s' == CloseStep(s, c, ok)
  {
    TurnIsGood(s, Move(c, c, ""), ok);
    CloseIsPlain(s, c, ok);
    CloseStepOn(s, c, ok);
  }

  /** Nobody moved but `d`, close calls, calls that hold a slot and calls that are in a cleanup. */
  ghost predicate Calm(s: State, s': State, d: Id) {
    forall u :: u in s.tasks && u != d && !s.tasks[u].Close? && !Slotted(s, u) && s.JobOf(u).None? ==>
      u in s'.tasks && s'.tasks[u] == s.tasks[u]
  }

  lemma CalmTransitively(s: State, s1: State, s': State, d: Id)
    requires Calm(s, s1, d) && Calm(s1, s', d)
    ensures Calm(s, s', d)
  {
  }

  /** The close is over, and of all others only closes, slot holders and cleaners have moved. */
  ghost predicate Closed(s: State, s': State, c: Id) { Good(s') && s'.IsOver(c) && Aside(s, s', c) }

  /** A quit-all that holds the gate still does. */
  ghost predicate SameQuitGate(s: State, s': State) {
    s.gate.Some? && s.gate.value in s.tasks && s.tasks[s.gate.value].Quit? ==> s'.gate == s.gate
  }

  /** Slot holder `h` or close `c` has moved. */
  ghost predicate Aside(s: State, s': State, c: Id) { Calm(s, s', c) && SameQuitGate(s, s') }

  lemma AsideTransitively(s: State, s1: State, s': State, c: Id)
    requires Aside(s, s1, c) && Aside(s1, s', c) && GateInv(s) && c in s.tasks && !s.tasks[c].Quit?
    ensures Aside(s, s', c)
  {
    CalmTransitively(s, s1, s', c);
    if s.gate.Some? && s.tasks[s.gate.value].Quit? {
      assert s1.gate == s.gate && s1.tasks[s.gate.value] == s.tasks[s.gate.value];
    }
  }

  lemma EndedIsAside(s: State, s': State, h: Id, c: Id)
    requires Slotted(s, h) && Ended(s, s', h)
    ensures Aside(s, s', c)
  {
  }

  lemma MoveIsAside(s: State, s': State, c: Id)
    requires OnlyTask(s, s', c) && s'.gate == s.gate
    ensures Aside(s, s', c)
  {
  }

  lemma ClosedLater(s: State, s1: State, c: Id)
    requires Aside(s, s1, c) && GateInv(s) && c in s.tasks && !s.tasks[c].Quit? && Wins(s1, s' => Closed(s1, s', c))
    ensures Wins(s1, s' => Closed(s, s', c))
  {
    forall s' | Closed(s1, s', c) ensures Wins(s', s' => Closed(s, s', c)) {
      AsideTransitively(s, s1, s', c);
      Now(s', s' => Closed(s, s', c));
    }
    Then(s1, s' => Closed(s1, s', c), s' => Closed(s, s', c));
  }

  lemma HolderCloses(s: State, c: Id)
    requires Good(s) && Slotted(s, c)
    ensures Wins(s, s' => Closed(s, s', c))
  {
    HolderEnds(s, c);
    forall s' | Ended(s, s', c) ensures Wins(s', s' => Closed(s, s', c)) {
      EndedIsAside(s, s', c, c);
      Now(s', s' => Closed(s, s', c));
    }
    Then(s, s' => Ended(s, s', c), s' => Closed(s, s', c));
  }

  /** The slot is free: the close takes it and goes on to its end. */
  lemma FreeSlotCloses(s: State, c: Id)
    requires Good(s) && c in s.tasks && s.tasks[c].Close? && s.tasks[c].cpc.TakeSlot? && s.tasks[c].store !in s.starting
    ensures Wins(s, s' => Closed(s, s', c))
  {
    forall ok ensures Wins(Turn(s, Move(c, c, ""), ok), s' => Closed(s, s', c)) {
      var s1 := Turn(s, Move(c, c, ""), ok);
      CloseTurn(s, c, ok);
      MoveIsAside(s, s1, c);
      HolderCloses(s1, c);
      ClosedLater(s, s1, c);
    }
    ByMove(s, Move(c, c, ""), s' => Closed(s, s', c));
  }

  /** Whoever the close waits for comes to its end, and the close tries again. */
  lemma AwaitedEnds(s: State, c: Id, o: Id)
    requires Good(s) && c in s.tasks && s.tasks[c].Close? && s.tasks[c].cpc == AwaitOther(o)
    ensures Wins(s, s' => TriesAgain(s, s', c, o))
  {
    var goal := s' => TriesAgain(s, s', c, o);
    assert Waits(s, c, s.tasks[c]);
    HolderEnds(s, o);
    forall s1 | Ended(s, s1, o) ensures Wins(s1, goal) {
      forall ok ensures Wins(Turn(s1, Move(c, c, ""), ok), goal) {
        OtherIsOver(s, s1, c, o, ok);
        Now(Turn(s1, Move(c, c, ""), ok), goal);
      }
      ByMove(s1, Move(c, c, ""), goal);
    }
    Then(s, s1 => Ended(s, s1, o), goal);
  }

  ghost predicate TriesAgain(s: State, s': State, c: Id, o: Id) {
    && Good(s') && c in s'.tasks && c in s.tasks && s.tasks[c].Close? && s'.tasks[c] == s.tasks[c].(cpc := TakeSlot)
    && Aside(s, s', c)
    && Shrinks(s.starting, s'.starting) && s'.IsOver(o)
  }

  lemma OtherIsOver(s: State, s1: State, c: Id, o: Id, ok: bool)
    requires Good(s) && c in s.tasks && s.tasks[c].Close? && s.tasks[c].cpc == AwaitOther(o) && Slotted(s, o)
    requires Ended(s, s1, o)
    ensures TriesAgain(s, Turn(s1, Move(c, c, ""), ok), c, o)
  {
    var s' := Turn(s1, Move(c, c, ""), ok);
    assert !Slotted(s, c) && s.JobOf(c).None? && c != o;
    CloseTurn(s1, c, ok);
    EndedIsAside(s, s1, o, c);
    MoveIsAside(s1, s', c);
    AsideTransitively(s, s1, s', c);
  }

  /** From the attempt to take the slot on: if it is taken, its holder comes to its end first. */
  lemma TakerCloses(s: State, c: Id)
    requires Good(s) && c in s.tasks && s.tasks[c].Close? && s.tasks[c].cpc.TakeSlot?
    ensures Wins(s, s' => Closed(s, s', c))
  {
    var x := s.tasks[c].store;
    if x !in s.starting {
      FreeSlotCloses(s, c);
    } else {
      forall ok ensures Wins(Turn(s, Move(c, c, ""), ok), s' => Closed(s, s', c)) {
        var s1 := Turn(s, Move(c, c, ""), ok);
        CloseTurn(s, c, ok);
        MoveIsAside(s, s1, c);
        CancellerCloses(s1, c, s.starting[x]);
        ClosedLater(s, s1, c);
      }
      ByMove(s, Move(c, c, ""), s' => Closed(s, s', c));
    }
  }

  lemma CancellerCloses(s: State, c: Id, o: Id)
    requires Good(s) && c in s.tasks && s.tasks[c].Close? && s.tasks[c].cpc == CancelOther(o)
    requires s.tasks[c].store in s.starting && s.starting[s.tasks[c].store] == o
    ensures Wins(s, s' => Closed(s, s', c))
  {
    forall ok ensures Wins(Turn(s, Move(c, c, ""), ok), s' => Closed(s, s', c)) {
      var s1 := Turn(s, Move(c, c, ""), ok);
      CloseTurn(s, c, ok);
      MoveIsAside(s, s1, c);
      AwaiterCloses(s1, c, o);
      ClosedLater(s, s1, c);
    }
    ByMove(s, Move(c, c, ""), s' => Closed(s, s', c));
  }

  lemma AwaiterCloses(s: State, c: Id, o: Id)
    requires Good(s) && c in s.tasks && s.tasks[c].Close? && s.tasks[c].cpc == AwaitOther(o)
    requires s.tasks[c].store in s.starting && s.starting[s.tasks[c].store] == o
    ensures Wins(s, s' => Closed(s, s', c))
  {
    AwaitedEnds(s, c, o);
    forall s1 | TriesAgain(s, s1, c, o) ensures Wins(s1, s' => Closed(s, s', c)) {
      assert !s1.tasks[o].HoldsSlot();
      FreeSlotCloses(s1, c);
      ClosedLater(s, s1, c);
    }
    Then(s, s1 => TriesAgain(s, s1, c, o), s' => Closed(s, s', c));
  }

  /** Every close call can be brought to its end. */
  lemma CloseEnds(s: State, c: Id)
    requires Good(s) && c in s.tasks && s.tasks[c].Close?
    ensures Wins(s, s' => Closed(s, s', c))
  {
    var goal := s' => Closed(s, s', c);
    match s.tasks[c].cpc
    case TakeSlot => TakerCloses(s, c);
    case CancelOther(o) =>
      forall ok ensures Wins(Turn(s, Move(c, c, ""), ok), goal) {
        var s1 := Turn(s, Move(c, c, ""), ok);
        CloseTurn(s, c, ok);
        MoveIsAside(s, s1, c);
        RetrierCloses(s1, c, o);
        ClosedLater(s, s1, c);
      }
      ByMove(s, Move(c, c, ""), goal);
    case AwaitOther(o) => RetrierCloses(s, c, o);
    case _ => HolderCloses(s, c);
  }

  lemma RetrierCloses(s: State, c: Id, o: Id)
    requires Good(s) && c in s.tasks && s.tasks[c].Close? && s.tasks[c].cpc == AwaitOther(o)
    ensures Wins(s, s' => Closed(s, s', c))
  {
    AwaitedEnds(s, c, o);
    forall s1 | TriesAgain(s, s1, c, o) ensures Wins(s1, s' => Closed(s, s', c)) {
      TakerCloses(s1, c);
      ClosedLater(s, s1, c);
    }
    Then(s, s1 => TriesAgain(s, s1, c, o), s' => Closed(s, s', c));
  }

  // ---- Quit-all calls ----

  /** The quit-all is over and the gate free; of all others only closes, slot holders and cleaners have moved. */
  ghost predicate Drained(s: State, s': State, q: Id) { Good(s') && s'.IsOver(q) && s'.gate.None? && Calm(s, s', q) }

  lemma DrainedLater(s: State, s1: State, q: Id)
    requires Calm(s, s1, q) && Wins(s1, s' => Drained(s1, s', q))
    ensures Wins(s1, s' => Drained(s, s', q))
  {
    forall s' | Drained(s1, s', q) ensures Wins(s', s' => Drained(s, s', q)) {
      CalmTransitively(s, s1, s', q);
      Now(s', s' => Drained(s, s', q));
    }
    Then(s1, s' => Drained(s1, s', q), s' => Drained(s, s', q));
  }

  lemma IsQuit(s: State, q: Id)
    requires q in s.tasks && s.tasks[q].Quit?
    ensures s.tasks[q].Wants(q).None? && s.JobOf(q).None? && !Slotted(s, q)
  {
  }

  lemma QuitTurn(s: State, q: Id, ok: bool)
    requires Good(s) && q in s.tasks && s.tasks[q].Quit? && (s.tasks[q].qpc.Closing? ==> s.tasks[q].qpc.ids == {})
    ensures var s' := Turn(s, Move(q, q, ""), ok); Good(s') && s' == QuitStep(s, q, "", q) && Calm(s, s', q)
  {
    TurnIsGood(s, Move(q, q, ""), ok);
    IsQuit(s, q);
    QuitMovesAlone(s, q, "", q);
  }

  lemma ResetEnds(s: State, q: Id)
    requires Good(s) && q in s.tasks && s.tasks[q].Quit? && (s.tasks[q].qpc.Reset? || s.tasks[q].qpc.ReleaseGate?)
    ensures Wins(s, s' => Drained(s, s', q))
    decreases s.tasks[q].qpc.Reset?
  {
    forall ok ensures Wins(Turn(s, Move(q, q, ""), ok), s' => Drained(s, s', q)) {
      var s1 := Turn(s, Move(q, q, ""), ok);
      QuitTurn(s, q, ok);
      if s.tasks[q].qpc.Reset? {
        ResetEnds(s1, q);
        DrainedLater(s, s1, q);
      } else {
        Now(s1, s' => Drained(s, s', q));
      }
    }
    ByMove(s, Move(q, q, ""), s' => Drained(s, s', q));
  }

  /** There is always a free identifier. */
  lemma {:induction false} Above(ids: set<Id>) returns (n: Id)
    ensures forall i :: i in ids ==> i < n
    decreases |ids|
  {
    if ids == {} {
      n := 0;
    } else {
      var i :| i in ids;
      var m := Above(ids - {i});
      n := m + i + 1;
      forall k | k in ids ensures k < n { assert k == i || k in ids - {i}; }
    }
  }

  lemma ClosingTurn(s: State, q: Id, ids: set<Store>, next: Store, closer: Id, ok: bool)
    requires Good(s) && q in s.tasks && s.tasks[q] == Quit(Closing(ids)) && next in ids && closer !in s.tasks
    ensures var s' := Turn(s, Move(q, closer, next), ok);
            && Good(s') && q in s'.tasks && s'.tasks[q] == Quit(AwaitClose(ids - {next}, closer)) && Calm(s, s', q)
  {
    TurnIsGood(s, Move(q, closer, next), ok);
    IsQuit(s, q);
  }

  /** The stores that are left are closed one after the other. */
  lemma {:induction false} ClosingEnds(s: State, q: Id, ids: set<Store>)
    requires Good(s) && q in s.tasks && s.tasks[q] == Quit(Closing(ids))
    ensures Wins(s, s' => Drained(s, s', q))
    decreases |ids|, 1
  {
    var goal := s' => Drained(s, s', q);
    if ids == {} {
      forall ok ensures Wins(Turn(s, Move(q, q, ""), ok), goal) {
        QuitTurn(s, q, ok);
        ResetEnds(Turn(s, Move(q, q, ""), ok), q);
        DrainedLater(s, Turn(s, Move(q, q, ""), ok), q);
      }
      ByMove(s, Move(q, q, ""), goal);
    } else {
      var next :| next in ids;
      var closer := Above(s.tasks.Keys);
      forall ok ensures Wins(Turn(s, Move(q, closer, next), ok), goal) {
        var s1 := Turn(s, Move(q, closer, next), ok);
        ClosingTurn(s, q, ids, next, closer, ok);
        AwaitCloseEnds(s1, q, ids - {next}, closer);
        DrainedLater(s, s1, q);
      }
      ByMove(s, Move(q, closer, next), goal);
    }
  }

  lemma {:induction false} AwaitCloseEnds(s: State, q: Id, ids: set<Store>, c: Id)
    requires Good(s) && q in s.tasks && s.tasks[q] == Quit(AwaitClose(ids, c))
    ensures Wins(s, s' => Drained(s, s', q))
    decreases |ids|, 2
  {
    var goal := s' => Drained(s, s', q);
    assert QuitFact(s, s.tasks[q].qpc);
    CloseEnds(s, c);
    forall s1 | Closed(s, s1, c) ensures Wins(s1, goal) {
      IsQuit(s, q);
      assert Calm(s, s1, q) && s1.tasks[q] == s.tasks[q];
      forall ok ensures Wins(Turn(s1, Move(q, q, ""), ok), goal) {
        var s2 := Turn(s1, Move(q, q, ""), ok);
        QuitTurn(s1, q, ok);
        assert QuitFact(s1, s1.tasks[q].qpc);
        if s1.tasks[c].cpc.ok { ClosingEnds(s2, q, ids); } else { ResetEnds(s2, q); }
        CalmTransitively(s, s1, s2, q);
        DrainedLater(s, s2, q);
      }
      ByMove(s1, Move(q, q, ""), goal);
    }
    Then(s, s1 => Closed(s, s1, c), goal);
  }

  function QuitRank(pc: QuitPc): nat {
    match pc case Bump => 4 case Drain => 3 case SnapStarting => 2 case SnapRunning(_) => 1 case _ => 0
  }

  ghost predicate Starts(s: State, s': State, q: Id)
    requires q in s.tasks && s.tasks[q].Quit?
  {
    && q in s'.tasks && s'.tasks[q].Quit? && s'.tasks[q].InsideGate()
    && QuitRank(s'.tasks[q].qpc) < QuitRank(s.tasks[q].qpc)
  }

  lemma BumpStarts(s: State, q: Id)
    requires q in s.tasks && s.tasks[q].Quit? && (s.tasks[q].qpc.Bump? || s.tasks[q].qpc.Drain?)
    ensures Starts(s, QuitStep(s, q, "", q), q)
  {
  }

  lemma SnapStarts(s: State, q: Id)
    requires q in s.tasks && s.tasks[q].Quit? && (s.tasks[q].qpc.SnapStarting? || s.tasks[q].qpc.SnapRunning?)
    ensures Starts(s, QuitStep(s, q, "", q), q)
  {
  }

  lemma StartTurn(s: State, q: Id, ok: bool)
    requires Good(s) && q in s.tasks && s.tasks[q].Quit? && QuitRank(s.tasks[q].qpc) > 0
    ensures var s' := Turn(s, Move(q, q, ""), ok); Good(s') && Calm(s, s', q) && Starts(s, s', q)
  {
    QuitTurn(s, q, ok);
    if s.tasks[q].qpc.Bump? || s.tasks[q].qpc.Drain? { BumpStarts(s, q); } else { SnapStarts(s, q); }
  }

  /** A quit-all inside the gate comes to its end. */
  lemma {:induction false} InsideEnds(s: State, q: Id)
    requires Good(s) && q in s.tasks && s.tasks[q].Quit? && s.tasks[q].InsideGate()
    ensures Wins(s, s' => Drained(s, s', q))
    decreases QuitRank(s.tasks[q].qpc)
  {
    if QuitRank(s.tasks[q].qpc) > 0 {
      forall ok ensures Wins(Turn(s, Move(q, q, ""), ok), s' => Drained(s, s', q)) {
        var s1 := Turn(s, Move(q, q, ""), ok);
        StartTurn(s, q, ok);
        InsideEnds(s1, q);
        DrainedLater(s, s1, q);
      }
      ByMove(s, Move(q, q, ""), s' => Drained(s, s', q));
    } else if s.tasks[q].qpc.Closing? {
      ClosingEnds(s, q, s.tasks[q].qpc.ids);
    } else if s.tasks[q].qpc.AwaitClose? {
      AwaitCloseEnds(s, q, s.tasks[q].qpc.ids, s.tasks[q].qpc.closer);
    } else {
      ResetEnds(s, q);
    }
  }

  // ---- The gate ----

  /** The gate is free; whoever is neither closing, nor holding a slot, nor cleaning up, nor was in it has not moved. */
  ghost predicate Freed(s: State, s': State, g: Id) { Good(s') && s'.gate.None? && Calm(s, s', g) }

  function GateRank(pc: LaunchPc): nat {
    match pc case InGate => 3 case Admitted => 2 case WonSlot => 1 case LostSlot(_) => 1 case _ => 0
  }

  lemma GateOn(s: State, s': State, g: Id)
    requires LaunchOn(s, s', g) && s.tasks[g].InsideGate()
    ensures s'.tasks[g].InsideGate() ==> GateRank(s'.tasks[g].pc) < GateRank(s.tasks[g].pc)
  {
  }

  lemma GateTurn(s: State, g: Id, ok: bool)
    requires Good(s) && s.IsLaunch(g) && s.tasks[g].InsideGate()
    ensures var s' := Turn(s, Move(g, g, ""), ok);
            && Good(s') && s'.IsLaunch(g) && Calm(s, s', g)
            && (s'.tasks[g].InsideGate() ==> GateRank(s'.tasks[g].pc) < GateRank(s.tasks[g].pc))
            && (!s'.tasks[g].InsideGate() ==> s'.gate.None?)
  {
    var s' := Turn(s, Move(g, g, ""), ok);
    TurnIsGood(s, Move(g, g, ""), ok);
    assert s' == EntryStep(s, g, ok);
    EntryIsPlain(s, g, ok);
    EntryOn(s, g, ok);
    GateOn(s, s', g);
  }

  lemma {:induction false} LaunchLeavesGate(s: State, g: Id)
    requires Good(s) && s.IsLaunch(g) && s.tasks[g].InsideGate()
    ensures Wins(s, s' => Freed(s, s', g))
    decreases GateRank(s.tasks[g].pc)
  {
    forall ok ensures Wins(Turn(s, Move(g, g, ""), ok), s' => Freed(s, s', g)) {
      var s1 := Turn(s, Move(g, g, ""), ok);
      GateTurn(s, g, ok);
      if s1.tasks[g].InsideGate() {
        LaunchLeavesGate(s1, g);
        FreedLater(s, s1, g);
      } else {
        Now(s1, s' => Freed(s, s', g));
      }
    }
    ByMove(s, Move(g, g, ""), s' => Freed(s, s', g));
  }

  lemma FreedLater(s: State, s1: State, g: Id)
    requires Calm(s, s1, g) && Wins(s1, s' => Freed(s1, s', g))
    ensures Wins(s1, s' => Freed(s, s', g))
  {
    forall s' | Freed(s1, s', g) ensures Wins(s', s' => Freed(s, s', g)) {
      CalmTransitively(s, s1, s', g);
      Now(s', s' => Freed(s, s', g));
    }
    Then(s1, s' => Freed(s1, s', g), s' => Freed(s, s', g));
  }

  /** Whoever holds the gate leaves it. */
  lemma GateGetsFree(s: State, g: Id)
    requires Good(s) && s.gate == Some(g)
    ensures Wins(s, s' => Freed(s, s', g))
  {
    if s.tasks[g].Quit? {
      InsideEnds(s, g);
      forall s' | Drained(s, s', g) ensures Wins(s', s' => Freed(s, s', g)) { Now(s', s' => Freed(s, s', g)); }
      Then(s, s' => Drained(s, s', g), s' => Freed(s, s', g));
    } else {
      LaunchLeavesGate(s, g);
    }
  }

  /** The goal of it all. */
  ghost predicate Over(s: State, t: Id) { Good(s) && s.IsOver(t) }

  lemma QuitEntersAndEnds(s: State, q: Id)
    requires Good(s) && q in s.tasks && s.tasks[q] == Quit(QuitWantGate) && s.gate.None?
    ensures Wins(s, s' => Over(s', q))
  {
    forall ok ensures Wins(Turn(s, Move(q, q, ""), ok), s' => Over(s', q)) {
      var s1 := Turn(s, Move(q, q, ""), ok);
      QuitTurn(s, q, ok);
      InsideQuitEnds(s1, q);
    }
    ByMove(s, Move(q, q, ""), s' => Over(s', q));
  }

  lemma InsideQuitEnds(s: State, q: Id)
    requires Good(s) && q in s.tasks && s.tasks[q].Quit? && s.tasks[q].InsideGate()
    ensures Wins(s, s' => Over(s', q))
  {
    InsideEnds(s, q);
    forall s' | Drained(s, s', q) ensures Wins(s', s' => Over(s', q)) { Now(s', s' => Over(s', q)); }
    Then(s, s' => Drained(s, s', q), s' => Over(s', q));
  }

  /** Every quit-all can be brought to its end. */
  lemma QuitEnds(s: State, q: Id)
    requires Good(s) && q in s.tasks && s.tasks[q].Quit?
    ensures Wins(s, s' => Over(s', q))
  {
    if s.IsOver(q) {
      Now(s, s' => Over(s', q));
    } else if s.tasks[q].InsideGate() {
      InsideQuitEnds(s, q);
    } else if s.gate.None? {
      QuitEntersAndEnds(s, q);
    } else {
      var g := s.gate.value;
      GateGetsFree(s, g);
      IsQuit(s, q);
      forall s1 | Freed(s, s1, g) ensures Wins(s1, s' => Over(s', q)) {
        assert s1.tasks[q] == s.tasks[q];
        QuitEntersAndEnds(s1, q);
      }
      Then(s, s1 => Freed(s, s1, g), s' => Over(s', q));
    }
  }

  // ---- Launches ----

  lemma SlottedEnds(s: State, t: Id)
    requires Good(s) && Slotted(s, t)
    ensures Wins(s, s' => Over(s', t))
  {
    HolderEnds(s, t);
    forall s' | Ended(s, s', t) ensures Wins(s', s' => Over(s', t)) { Now(s', s' => Over(s', t)); }
    Then(s, s' => Ended(s, s', t), s' => Over(s', t));
  }

  /** A launch before its slot goes on; nobody else moves. */
  lemma EntryTurn(s: State, t: Id, ok: bool)
    requires Good(s) && s.IsLaunch(t) && s.tasks[t].pc.IsEntry() && !s.tasks[t].pc.Scan?
    ensures var s' := Turn(s, Move(t, t, ""), ok);
            Good(s') && LaunchOn(s, s', t) && s' == EntryStep(s, t, ok)
  {
    TurnIsGood(s, Move(t, t, ""), ok);
    EntryOn(s, t, ok);
  }

  lemma AwaitSlotEnds(s: State, t: Id, o: Id)
    requires Good(s) && s.IsLaunch(t) && s.tasks[t].pc == AwaitSlot(o)
    ensures Wins(s, s' => Over(s', t))
  {
    var goal := s' => Over(s', t);
    assert Waits(s, t, s.tasks[t]);
    HolderEnds(s, o);
    forall s1 | Ended(s, s1, o) ensures Wins(s1, goal) {
      assert s1.tasks[t] == s.tasks[t];
      forall ok ensures Wins(Turn(s1, Move(t, t, ""), ok), goal) {
        EntryTurn(s1, t, ok);
        Now(Turn(s1, Move(t, t, ""), ok), goal);
      }
      ByMove(s1, Move(t, t, ""), goal);
    }
    Then(s, s1 => Ended(s, s1, o), goal);
  }

  /** From the gate on: a slot of its own, or somebody else's to wait for. */
  lemma {:induction false} InGateEnds(s: State, t: Id)
    requires Good(s) && s.IsLaunch(t)
    requires var pc := s.tasks[t].pc; pc.InGate? || pc.Admitted? || pc.LostSlot? || pc.AwaitSlot? || WillEnd(s.tasks[t])
    ensures Wins(s, s' => Over(s', t))
    decreases GateRank(s.tasks[t].pc)
  {
    var pc := s.tasks[t].pc;
    if WillEnd(s.tasks[t]) {
      SlottedEnds(s, t);
    } else if pc.AwaitSlot? {
      AwaitSlotEnds(s, t, pc.slot);
    } else {
      forall ok ensures Wins(Turn(s, Move(t, t, ""), ok), s' => Over(s', t)) {
        var s1 := Turn(s, Move(t, t, ""), ok);
        EntryTurn(s, t, ok);
        InGateEnds(s1, t);
      }
      ByMove(s, Move(t, t, ""), s' => Over(s', t));
    }
  }

  lemma EntersGateAndEnds(s: State, t: Id)
    requires Good(s) && s.IsLaunch(t) && s.tasks[t].pc.WantGate? && s.gate.None?
    ensures Wins(s, s' => Over(s', t))
  {
    forall ok ensures Wins(Turn(s, Move(t, t, ""), ok), s' => Over(s', t)) {
      EntryTurn(s, t, ok);
      InGateEnds(Turn(s, Move(t, t, ""), ok), t);
    }
    ByMove(s, Move(t, t, ""), s' => Over(s', t));
  }

  lemma WantGateEnds(s: State, t: Id)
    requires Good(s) && s.IsLaunch(t) && s.tasks[t].pc.WantGate?
    ensures Wins(s, s' => Over(s', t))
  {
    if s.gate.None? {
      EntersGateAndEnds(s, t);
    } else {
      var g := s.gate.value;
      GateGetsFree(s, g);
      forall s1 | Freed(s, s1, g) ensures Wins(s1, s' => Over(s', t)) {
        assert s1.tasks[t] == s.tasks[t];
        EntersGateAndEnds(s1, t);
      }
      Then(s, s1 => Freed(s, s1, g), s' => Over(s', t));
    }
  }

  /** What a launch that looked for a running record does next. */
  ghost predicate Looked(s: State, s': State, t: Id)
    requires s.IsLaunch(t)
  {
    var x := s.tasks[t].store;
    && s'.IsLaunch(t) && s'.tasks[t].store == x && s'.running == s.running
    && (if x !in s.running then s'.tasks[t].pc.WantGate?
        else s'.tasks[t].pc.LaunchEnded? || s'.tasks[t].pc == AwaitCleanup(s.running[x]))
  }

  lemma ScanFindsNone(s: State, t: Id, e: Id, ok: bool)
    requires s.IsLaunch(t) && e !in s.tasks && s.tasks[t].store !in s.running
    ensures Looked(s, ScanStep(s, t, ok, e), t)
  {
  }

  lemma ScanFinds(s: State, t: Id, e: Id, ok: bool)
    requires s.IsLaunch(t) && e !in s.tasks && s.tasks[t].store in s.running
    ensures Looked(s, ScanStep(s, t, ok, e), t)
  {
    var x := s.tasks[t].store;
    if !s.IsClaimed(s.running[x]) && !ok {
      assert ScanStep(s, t, ok, e).tasks[t] == s.tasks[t].(pc := AwaitCleanup(s.running[x]));
    }
  }

  lemma ScanTurn(s: State, t: Id, e: Id, ok: bool)
    requires Good(s) && s.IsLaunch(t) && s.tasks[t].pc.Scan? && e !in s.tasks
    ensures var s' := Turn(s, Move(t, e, ""), ok); Good(s') && Looked(s, s', t)
  {
    TurnIsGood(s, Move(t, e, ""), ok);
    assert Turn(s, Move(t, e, ""), ok) == ScanStep(s, t, ok, e);
    if s.tasks[t].store in s.running { ScanFinds(s, t, e, ok); } else { ScanFindsNone(s, t, e, ok); }
  }

  /** What the launch waits for, until it can look again. */
  ghost predicate Cleared(s: State, s': State, t: Id, r: Id) {
    && Good(s') && s'.IsClean(r) && t in s.tasks && t in s'.tasks && s'.tasks[t] == s.tasks[t]
    && Shrinks(s.running, s'.running)
  }

  lemma ClaimedClears(s: State, t: Id, r: Id)
    requires Good(s) && s.IsLaunch(t) && s.tasks[t].pc.AwaitCleanup? && s.IsClaimed(r)
    ensures Wins(s, s' => Cleared(s, s', t, r))
  {
    ClaimedGetsClean(s, r);
    forall s' | Cleaned(s, s', r) ensures Wins(s', s' => Cleared(s, s', t, r)) { Now(s', s' => Cleared(s, s', t, r)); }
    Then(s, s' => Cleaned(s, s', r), s' => Cleared(s, s', t, r));
  }

  lemma ExitTurn(s: State, e: Id, r: Id, ok: bool)
    requires Good(s) && e in s.tasks && s.tasks[e] == Exit(r, ExitStart)
    ensures var s' := Turn(s, Move(e, e, ""), ok);
            && Good(s') && s'.IsClaimed(r) && s'.running == s.running && OnlyTask(s, s', e)
            && (s'.IsOver(e) || s'.IsCleaning(e, r))
  {
    TurnIsGood(s, Move(e, e, ""), ok);
    assert Fits(s.records, e, s.tasks[e]);
  }

  lemma ReportedClears(s: State, t: Id, r: Id, e: Id)
    requires Good(s) && s.IsLaunch(t) && s.tasks[t].pc.AwaitCleanup? && e in s.tasks && s.tasks[e] == Exit(r, ExitStart)
    ensures Wins(s, s' => Cleared(s, s', t, r))
  {
    forall ok ensures Wins(Turn(s, Move(e, e, ""), ok), s' => Cleared(s, s', t, r)) {
      var s1 := Turn(s, Move(e, e, ""), ok);
      ExitTurn(s, e, r, ok);
      ClaimedClears(s1, t, r);
      forall s' | Cleared(s1, s', t, r) ensures Wins(s', s' => Cleared(s, s', t, r)) {
        Now(s', s' => Cleared(s, s', t, r));
      }
      Then(s1, s' => Cleared(s1, s', t, r), s' => Cleared(s, s', t, r));
    }
    ByMove(s, Move(e, e, ""), s' => Cleared(s, s', t, r));
  }

  /** The launch looks again, having seen the record cleaned up, or gives up. */
  ghost predicate LooksAgain(s: State, s': State, t: Id, r: Id) {
    && Good(s') && s'.IsLaunch(t) && s.IsLaunch(t) && s'.tasks[t].store == s.tasks[t].store && s'.IsClean(r)
    && Shrinks(s.running, s'.running) && (s'.tasks[t].pc.Scan? || s'.tasks[t].pc.LaunchEnded?)
  }

  lemma AwaitTurn(s: State, s1: State, t: Id, r: Id, ok: bool)
    requires s.IsLaunch(t) && s.tasks[t].pc == AwaitCleanup(r) && Cleared(s, s1, t, r)
    ensures LooksAgain(s, Turn(s1, Move(t, t, ""), ok), t, r)
  {
    EntryTurn(s1, t, ok);
  }

  lemma AwaitCleanupLooksAgain(s: State, t: Id, r: Id)
    requires Good(s) && s.IsLaunch(t) && s.tasks[t].pc == AwaitCleanup(r)
    ensures Wins(s, s' => LooksAgain(s, s', t, r))
  {
    var goal := s' => LooksAgain(s, s', t, r);
    assert Waits(s, t, s.tasks[t]);
    if s.IsClaimed(r) {
      ClaimedClears(s, t, r);
    } else {
      var e :| e in s.tasks && s.tasks[e] == Exit(r, ExitStart);
      ReportedClears(s, t, r, e);
    }
    forall s1 | Cleared(s, s1, t, r) ensures Wins(s1, goal) {
      forall ok ensures Wins(Turn(s1, Move(t, t, ""), ok), goal) {
        AwaitTurn(s, s1, t, r, ok);
        Now(Turn(s1, Move(t, t, ""), ok), goal);
      }
      ByMove(s1, Move(t, t, ""), goal);
    }
    Then(s, s1 => Cleared(s, s1, t, r), goal);
  }

  lemma EmptyScanEnds(s: State, t: Id)
    requires Good(s) && s.IsLaunch(t)
    requires s.tasks[t].pc.LaunchEnded? || (s.tasks[t].pc.Scan? && s.tasks[t].store !in s.running)
    ensures Wins(s, s' => Over(s', t))
  {
    if s.tasks[t].pc.LaunchEnded? {
      Now(s, s' => Over(s', t));
    } else {
      var e := Above(s.tasks.Keys);
      forall ok ensures Wins(Turn(s, Move(t, e, ""), ok), s' => Over(s', t)) {
        ScanTurn(s, t, e, ok);
        WantGateEnds(Turn(s, Move(t, e, ""), ok), t);
      }
      ByMove(s, Move(t, e, ""), s' => Over(s', t));
    }
  }

  /** The record that it waits for is the one it found registered, so next time it finds none. */
  lemma AwaitListedEnds(s: State, t: Id, r: Id)
    requires Good(s) && s.IsLaunch(t) && s.tasks[t].pc == AwaitCleanup(r)
    requires s.tasks[t].store in s.running && s.running[s.tasks[t].store] == r
    ensures Wins(s, s' => Over(s', t))
  {
    AwaitCleanupLooksAgain(s, t, r);
    forall s1 | LooksAgain(s, s1, t, r) ensures Wins(s1, s' => Over(s', t)) { EmptyScanEnds(s1, t); }
    Then(s, s1 => LooksAgain(s, s1, t, r), s' => Over(s', t));
  }

  lemma ScanEnds(s: State, t: Id)
    requires Good(s) && s.IsLaunch(t) && (s.tasks[t].pc.Scan? || s.tasks[t].pc.LaunchEnded?)
    ensures Wins(s, s' => Over(s', t))
  {
    if s.tasks[t].pc.LaunchEnded? || s.tasks[t].store !in s.running {
      EmptyScanEnds(s, t);
    } else {
      var r := s.running[s.tasks[t].store];
      var e := Above(s.tasks.Keys);
      forall ok ensures Wins(Turn(s, Move(t, e, ""), ok), s' => Over(s', t)) {
        var s1 := Turn(s, Move(t, e, ""), ok);
        ScanTurn(s, t, e, ok);
        if s1.tasks[t].pc.LaunchEnded? { Now(s1, s' => Over(s', t)); } else { AwaitListedEnds(s1, t, r); }
      }
      ByMove(s, Move(t, e, ""), s' => Over(s', t));
    }
  }

  lemma AwaitCleanupEnds(s: State, t: Id, r: Id)
    requires Good(s) && s.IsLaunch(t) && s.tasks[t].pc == AwaitCleanup(r)
    ensures Wins(s, s' => Over(s', t))
  {
    AwaitCleanupLooksAgain(s, t, r);
    forall s1 | LooksAgain(s, s1, t, r) ensures Wins(s1, s' => Over(s', t)) { ScanEnds(s1, t); }
    Then(s, s1 => LooksAgain(s, s1, t, r), s' => Over(s', t));
  }

  lemma {:induction false} BeginEnds(s: State, t: Id)
    requires Good(s) && s.IsLaunch(t) && (s.tasks[t].pc.ReadGeneration? || s.tasks[t].pc.CheckDraining?)
    ensures Wins(s, s' => Over(s', t))
    decreases s.tasks[t].pc.ReadGeneration?
  {
    forall ok ensures Wins(Turn(s, Move(t, t, ""), ok), s' => Over(s', t)) {
      var s1 := Turn(s, Move(t, t, ""), ok);
      EntryTurn(s, t, ok);
      if s1.tasks[t].pc.CheckDraining? { BeginEnds(s1, t); } else { ScanEnds(s1, t); }
    }
    ByMove(s, Move(t, t, ""), s' => Over(s', t));
  }

  lemma LaunchEnds(s: State, t: Id)
    requires Good(s) && s.IsLaunch(t)
    ensures Wins(s, s' => Over(s', t))
  {
    var pc := s.tasks[t].pc;
    if pc.ReadGeneration? || pc.CheckDraining? {
      BeginEnds(s, t);
    } else if pc.Scan? || pc.LaunchEnded? {
      ScanEnds(s, t);
    } else if pc.AwaitCleanup? {
      AwaitCleanupEnds(s, t, pc.existing);
    } else if pc.WantGate? {
      WantGateEnds(s, t);
    } else {
      InGateEnds(s, t);
    }
  }

  // ---- Exit handlers, and all together ----

  lemma CleaningExitEnds(s: State, e: Id, r: Id)
    requires Good(s) && e in s.tasks && s.tasks[e].Exit? && s.IsCleaning(e, r)
    ensures Wins(s, s' => Over(s', e))
    decreases 3 - s.JobOf(e).value.stage.Rank()
  {
    forall ok ensures Wins(Turn(s, Move(e, e, ""), ok), s' => Over(s', e)) {
      var s1 := Turn(s, Move(e, e, ""), ok);
      CleanTurn(s, e, r, ok);
      CleanComesCloser(s, s1, e, s.JobOf(e).value, ok);
      if s.JobOf(e).value.stage.Complete? { Now(s1, s' => Over(s', e)); } else { CleaningExitEnds(s1, e, r); }
    }
    ByMove(s, Move(e, e, ""), s' => Over(s', e));
  }

  lemma ExitEnds(s: State, e: Id)
    requires Good(s) && e in s.tasks && s.tasks[e].Exit?
    ensures Wins(s, s' => Over(s', e))
  {
    var r := s.tasks[e].record;
    if s.IsOver(e) {
      Now(s, s' => Over(s', e));
    } else if s.tasks[e].epc.ExitStart? {
      forall ok ensures Wins(Turn(s, Move(e, e, ""), ok), s' => Over(s', e)) {
        var s1 := Turn(s, Move(e, e, ""), ok);
        ExitTurn(s, e, r, ok);
        if s1.IsOver(e) { Now(s1, s' => Over(s', e)); } else { CleaningExitEnds(s1, e, r); }
      }
      ByMove(s, Move(e, e, ""), s' => Over(s', e));
    } else {
      CleaningExitEnds(s, e, r);
    }
  }

  /**
    No deadlock: from every state that a schedule leads to, every launch, close, quit-all and exit handler
    can be brought to its end in finitely many turns, whatever the foreign calls on the way answer. The
    scheduler only lets existing calls, and those they make, go on; it cancels nothing.
  */
  lemma EveryCallCanEnd(s: State, t: Id) returns (n: nat)
    requires Reachable(s) && t in s.tasks
    ensures Forces(s, (s': State) => s'.IsOver(t), n)
  {
    ReachableIsGood(s);
    if s.tasks[t].Launch? {
      LaunchEnds(s, t);
    } else if s.tasks[t].Close? {
      CloseEnds(s, t);
      forall s' | Closed(s, s', t) ensures Wins(s', s' => Over(s', t)) { Now(s', s' => Over(s', t)); }
      Then(s, s' => Closed(s, s', t), s' => Over(s', t));
    } else if s.tasks[t].Quit? {
      QuitEnds(s, t);
    } else {
      ExitEnds(s, t);
    }
    var goal := (s': State) => s'.IsOver(t);
    forall s' | Over(s', t) ensures Wins(s', goal) { Now(s', goal); }
    Then(s, s' => Over(s', t), goal);
    n :| Forces(s, goal, n);
  }
}
