/** What every schedule of launch, close, crash and quit-all tasks keeps. */
module StoreManagerProofs {
  import opened Common
  import opened StoreManager

  // ---- The invariant, one concern at a time ----

  /** `_starting` and the slots that tasks hold are two views of one matching. */
  ghost predicate SlotInv(s: State) {
    && (forall x :: x in s.starting ==>
          && s.starting[x] in s.tasks && s.tasks[s.starting[x]].HoldsSlot()
          && s.tasks[s.starting[x]].HasStore() && s.tasks[s.starting[x]].store == x)
    && (forall t :: t in s.tasks && s.tasks[t].HoldsSlot() ==>
          s.tasks[t].HasStore() && s.tasks[t].store in s.starting && s.starting[s.tasks[t].store] == t)
  }

  /** The registration gate is a mutex. */
  ghost predicate GateInv(s: State) {
    && (forall t :: t in s.tasks && s.tasks[t].InsideGate() ==> s.gate == Some(t))
    && (s.gate.Some? ==> s.gate.value in s.tasks && s.tasks[s.gate.value].InsideGate())
  }

  /** A record belongs to the launch that made it, and tasks refer to records that exist. */
  ghost predicate RecordInv(s: State) {
    && (forall r :: r in s.records ==>
          && s.IsLaunch(r) && s.records[r].store == s.tasks[r].store
          && (s.records[r].completed ==> s.records[r].claimed))
    && (forall t :: t in s.tasks ==> Fits(s.records, t, s.tasks[t]))
  }

  ghost predicate Fits(records: map<Id, Record>, t: Id, task: Task) {
    match task
    case Launch(_, _, pc) => LaunchFits(records, t, pc)
    case Close(_, Found(r)) => r in records && records[r].registered
    case Close(_, CloseCleanup(r, _)) => r in records
    case Close(_, AwaitRecord(r)) => r in records
    case Close(_, _) => true
    case Quit(_) => true
    case Exit(r, _) => r in records && records[r].registered
  }

  ghost predicate LaunchFits(records: map<Id, Record>, t: Id, pc: LaunchPc) {
    match pc
    case Constructed => t in records && !records[t].registered && !records[t].claimed
    case Registered | Published => t in records && records[t].registered
    case Failing | AwaitOwnCleanup => t in records
    case OwnCleanup(_) => t in records
    case Unwinding | SlotDropped | LaunchEnded => true
    case _ => t !in records
  }

  /** `_running` lists registered records whose cleanup is not over. */
  ghost predicate RegistryInv(s: State) {
    forall x :: x in s.running ==>
      && s.running[x] in s.records && s.records[s.running[x]].store == x
      && s.records[s.running[x]].registered && !s.records[s.running[x]].completed
  }

  /** Whoever is inside `CleanupRecord` holds the record's claim, alone. */
  ghost predicate CleanerInv(s: State) {
    && (forall t :: s.JobOf(t).Some? ==> JobFits(s, s.JobOf(t).value))
    && (forall t, u :: s.JobOf(t).Some? && s.JobOf(u).Some? ==>
          s.JobOf(t).value.record == s.JobOf(u).value.record ==> t == u)
  }

  ghost predicate JobFits(s: State, job: Job) {
    && s.IsClaimed(job.record) && !s.IsClean(job.record)
    && (job.stage.Complete? ==> !s.IsListed(job.record))
  }

  /** A latency is shown only for a registered record whose cleanup has not yet removed it. */
  ghost predicate LatencyInv(s: State) {
    forall x :: x in s.latencies ==> x in s.running && NotBegun(s, s.running[x])
  }

  ghost predicate NotBegun(s: State, r: Id) {
    forall t :: s.JobOf(t).Some? && s.JobOf(t).value.record == r ==> s.JobOf(t).value.stage.DropLatency?
  }

  /** A claimed record is cleaned up already, or somebody is at it. */
  ghost predicate AttendedInv(s: State) {
    forall r :: s.IsClaimed(r) && !s.IsClean(r) ==> exists t :: s.IsCleaning(t, r)
  }

  /** What a close task knows about its store while it holds the store's slot. */
  ghost predicate CloseInv(s: State) {
    forall c :: c in s.tasks && s.tasks[c].Close? ==> CloseFact(s, s.tasks[c])
  }

  ghost predicate CloseFact(s: State, close: Task)
    requires close.Close?
  {
    match close.cpc
    case Found(r) => OnlyRecord(s, close.store, r)
    case CloseCleanup(r, _) => OnlyRecord(s, close.store, r)
    case AwaitRecord(r) => OnlyRecord(s, close.store, r)
    case Releasing(_) => close.store !in s.running
    case _ => true
  }

  ghost predicate OnlyRecord(s: State, x: Store, r: Id) { x in s.running ==> s.running[x] == r }

  /** Every store that may still be, or become, registered is one of `ids`. */
  ghost predicate Covered(s: State, ids: set<Store>) {
    && (forall x :: x in s.running ==> x in ids)
    && OwnersCovered(s, ids)
  }

  ghost predicate OwnersCovered(s: State, ids: set<Store>) {
    forall t :: t in s.tasks && s.tasks[t].IsOwner() ==> s.tasks[t].store in ids
  }

  /** What a quit-all has achieved so far. */
  ghost predicate QuitInv(s: State) {
    forall q :: q in s.tasks && s.tasks[q].Quit? ==> QuitFact(s, s.tasks[q].qpc)
  }

  ghost predicate QuitFact(s: State, pc: QuitPc) {
    match pc
    case SnapRunning(ids) => OwnersCovered(s, ids)
    case Closing(ids) => Covered(s, ids)
    case AwaitClose(ids, c) =>
      && c in s.tasks && s.tasks[c].Close?
      && Covered(s, ids + {s.tasks[c].store})
      && (PastSlot(s.tasks[c]) ==> Covered(s, ids))
    case Reset(ok) => ok ==> Covered(s, {})
    case ReleaseGate(ok) => ok ==> Covered(s, {})
    case _ => true
  }

  ghost predicate PastSlot(close: Task) {
    close.Close? && (close.cpc.CloseSlotDropped? || close.cpc.CloseEnded?)
  }

  /** The tables that only tasks and records determine. */
  ghost predicate TableInv(s: State) {
    RecordInv(s) && RegistryInv(s) && CleanerInv(s) && LatencyInv(s) && AttendedInv(s)
  }

  ghost predicate Inv(s: State) { SlotInv(s) && GateInv(s) && TableInv(s) && CloseInv(s) && QuitInv(s) }

  // ---- What can never be undone between two states of a run ----

  /** The launch has passed the generation check, or got as far as standing registered. */
  predicate PastCheck(s: State, t: Id) {
    s.IsLaunch(t) && (s.tasks[t].pc.Admitted? || s.tasks[t].HoldsSlot() || s.IsListed(t))
  }

  ghost predicate Evolves(s: State, s': State) {
    && s.generation <= s'.generation
    && RecordsGrow(s.records, s'.records)
    && (forall t :: PastCheck(s', t) ==>
          || s'.tasks[t].observed >= s.generation
          || (PastCheck(s, t) && s'.tasks[t].observed == s.tasks[t].observed))
    && (forall t :: s'.JobOf(t).Some? ==> JobContinues(s, t, s'.JobOf(t).value))
  }

  ghost predicate RecordsGrow(a: map<Id, Record>, b: map<Id, Record>) {
    forall r :: r in a ==> r in b && (a[r].claimed ==> b[r].claimed) && (a[r].completed ==> b[r].completed)
  }

  /** Whoever cleans up a record that was claimed already was at it then, and no further. */
  ghost predicate JobContinues(s: State, t: Id, job: Job) {
    s.IsClaimed(job.record) ==>
      s.IsCleaning(t, job.record) && s.JobOf(t).value.stage.Rank() <= job.stage.Rank()
  }

  lemma EvolvesTransitively(s: State, s': State, s'': State)
    requires Evolves(s, s') && Evolves(s', s'')
    ensures Evolves(s, s'')
  {
    forall t | s''.JobOf(t).Some? ensures JobContinues(s, t, s''.JobOf(t).value) {
      var job := s''.JobOf(t).value;
      if s.IsClaimed(job.record) {
        assert JobContinues(s', t, job) && JobContinues(s, t, s'.JobOf(t).value);
      }
    }
  }

  lemma EvolvesFromItself(s: State)
    ensures Evolves(s, s)
  {
  }

  // ---- One task moves ----

  /** Only task `t` moved, and it is still the same call. */
  ghost predicate OnlyTask(s: State, s': State, t: Id) {
    && t in s.tasks && t in s'.tasks && s'.tasks == s.tasks[t := s'.tasks[t]]
    && SameCall(s.tasks[t], s'.tasks[t])
  }

  ghost predicate SameCall(a: Task, b: Task) {
    match a
    case Launch(x, _, _) => b.Launch? && b.store == x
    case Close(x, _) => b.Close? && b.store == x
    case Quit(_) => b.Quit?
    case Exit(r, _) => b.Exit? && b.record == r
  }

  ghost predicate SlotChange(s: State, s': State, t: Id)
    requires OnlyTask(s, s', t)
  {
    var before, after := s.tasks[t].HoldsSlot(), s'.tasks[t].HoldsSlot();
    || (before == after && s'.starting == s.starting)
    || (!before && after && s.tasks[t].store !in s.starting && s'.starting == s.starting[s.tasks[t].store := t])
    || (before && !after && s'.starting == s.starting - {s.tasks[t].store})
  }

  lemma SlotFrame(s: State, s': State, t: Id)
    requires SlotInv(s) && OnlyTask(s, s', t) && SlotChange(s, s', t)
    ensures SlotInv(s')
  {
  }

  ghost predicate GateChange(s: State, s': State, t: Id)
    requires OnlyTask(s, s', t)
  {
    var before, after := s.tasks[t].InsideGate(), s'.tasks[t].InsideGate();
    || (before == after && s'.gate == s.gate)
    || (!before && after && s.gate.None? && s'.gate == Some(t))
    || (before && !after && s'.gate.None?)
  }

  lemma GateFrame(s: State, s': State, t: Id)
    requires GateInv(s) && OnlyTask(s, s', t) && GateChange(s, s', t)
    ensures GateInv(s')
  {
  }

  /** Registrations go away, or the owner of a slot registers its store. */
  ghost predicate RunningChange(s: State, s': State, t: Id)
    requires OnlyTask(s, s', t)
  {
    || Shrinks(s.running, s'.running)
    || (s.tasks[t].IsOwner() && s.tasks[t].store !in s.running && s'.running == s.running[s.tasks[t].store := t])
  }

  ghost predicate Shrinks(a: map<Store, Id>, b: map<Store, Id>) { forall x :: x in b ==> x in a && b[x] == a[x] }

  lemma CloseFrame(s: State, s': State, t: Id)
    requires SlotInv(s) && CloseInv(s) && OnlyTask(s, s', t) && RunningChange(s, s', t)
    requires s'.tasks[t].Close? ==> CloseFact(s', s'.tasks[t])
    ensures CloseInv(s')
  {
    forall c | c in s'.tasks && s'.tasks[c].Close? ensures CloseFact(s', s'.tasks[c]) {
      if c != t {
        assert CloseFact(s, s.tasks[c]);
        assert s.tasks[c].HoldsSlot() && s.tasks[t].IsOwner() ==> s.tasks[c].store != s.tasks[t].store;
      }
    }
  }

  /** The step of `t` lets no store appear that a quit-all would have to close. */
  ghost predicate QuitChange(s: State, s': State, t: Id)
    requires OnlyTask(s, s', t)
  {
    && (s'.tasks[t].IsOwner() ==> s.tasks[t].IsOwner())
    && (PastSlot(s'.tasks[t]) ==> PastSlot(s.tasks[t]))
  }

  lemma CoveredFrame(s: State, s': State, t: Id, ids: set<Store>)
    requires OnlyTask(s, s', t) && RunningChange(s, s', t)
    requires s'.tasks[t].IsOwner() ==> s.tasks[t].IsOwner()
    ensures OwnersCovered(s, ids) ==> OwnersCovered(s', ids)
    ensures Covered(s, ids) ==> Covered(s', ids)
  {
  }

  lemma QuitFactFrame(s: State, s': State, t: Id, pc: QuitPc)
    requires OnlyTask(s, s', t) && RunningChange(s, s', t) && QuitChange(s, s', t) && QuitFact(s, pc)
    ensures QuitFact(s', pc)
  {
    match pc
    case SnapRunning(ids) => CoveredFrame(s, s', t, ids);
    case Closing(ids) => CoveredFrame(s, s', t, ids);
    case AwaitClose(ids, c) =>
      CoveredFrame(s, s', t, ids);
      CoveredFrame(s, s', t, ids + {s.tasks[c].store});
    case Reset(_) => CoveredFrame(s, s', t, {});
    case ReleaseGate(_) => CoveredFrame(s, s', t, {});
    case _ =>
  }

  lemma QuitFrame(s: State, s': State, t: Id)
    requires QuitInv(s) && OnlyTask(s, s', t) && RunningChange(s, s', t) && QuitChange(s, s', t)
    requires s'.tasks[t].Quit? ==> QuitFact(s', s'.tasks[t].qpc)
    ensures QuitInv(s')
  {
    forall q | q in s'.tasks && s'.tasks[q].Quit? ensures QuitFact(s', s'.tasks[q].qpc) {
      if q != t {
        assert QuitFact(s, s.tasks[q].qpc);
        QuitFactFrame(s, s', t, s.tasks[q].qpc);
      }
    }
  }

  /** While a launch is inside the gate no quit-all has anything to keep. */
  lemma QuitWaits(s: State, s': State, t: Id)
    requires GateInv(s) && OnlyTask(s, s', t) && s.tasks[t].Launch? && s.tasks[t].InsideGate()
    ensures QuitInv(s')
  {
    forall q | q in s'.tasks && s'.tasks[q].Quit? ensures QuitFact(s', s'.tasks[q].qpc) {
      assert q != t && !s.tasks[q].InsideGate();
    }
  }

  /** A close that gives its slot back leaves its store neither registered nor owned. */
  lemma ReleaseFact(s: State, s': State, c: Id, pc: QuitPc)
    requires SlotInv(s) && CloseInv(s) && OnlyTask(s, s', c) && s'.running == s.running && QuitFact(s, pc)
    requires s.tasks[c].Close? && s.tasks[c].cpc.Releasing?
    ensures QuitFact(s', pc)
  {
    var x := s.tasks[c].store;
    assert x !in s.running by { assert CloseFact(s, s.tasks[c]); }
    assert forall t :: t in s.tasks && s.tasks[t].IsOwner() ==> s.tasks[t].store != x;
    match pc
    case SnapRunning(ids) => CoveredFrame(s, s', c, ids);
    case Closing(ids) => CoveredFrame(s, s', c, ids);
    case AwaitClose(ids, d) =>
      CoveredFrame(s, s', c, ids);
      CoveredFrame(s, s', c, ids + {s.tasks[d].store});
      assert d == c ==> Covered(s, ids);
    case Reset(_) => CoveredFrame(s, s', c, {});
    case ReleaseGate(_) => CoveredFrame(s, s', c, {});
    case _ =>
  }

  lemma QuitAfterRelease(s: State, s': State, c: Id)
    requires SlotInv(s) && CloseInv(s) && QuitInv(s) && OnlyTask(s, s', c) && s'.running == s.running
    requires s.tasks[c].Close? && s.tasks[c].cpc.Releasing?
    ensures QuitInv(s')
  {
    forall q | q in s'.tasks && s'.tasks[q].Quit? ensures QuitFact(s', s'.tasks[q].qpc) {
      assert QuitFact(s, s.tasks[q].qpc);
      ReleaseFact(s, s', c, s.tasks[q].qpc);
    }
  }

  /** What a step must say about the drain generation. */
  ghost predicate GenerationChange(s: State, s': State, t: Id)
    requires OnlyTask(s, s', t)
  {
    && s.generation <= s'.generation && (s'.draining == s.draining || s.tasks[t].Quit?)
    && (PastCheck(s', t) ==>
          || s'.tasks[t].observed >= s.generation
          || (PastCheck(s, t) && s'.tasks[t].observed == s.tasks[t].observed))
  }

  /** The frames around slots, gate, registrations and generation, whatever kind of step it is. */
  ghost predicate Moves(s: State, s': State, t: Id) {
    && OnlyTask(s, s', t) && SlotChange(s, s', t) && GateChange(s, s', t) && RunningChange(s, s', t)
    && GenerationChange(s, s', t)
    && (s'.tasks[t].Close? ==> CloseFact(s', s'.tasks[t]))
  }

  // ---- A plain step: no claim and no cleanup ----

  /** At most the launch's own record changed, and nothing about its cleanup. */
  ghost predicate PlainRecords(s: State, s': State, t: Id) {
    || s'.records == s.records
    || (s.IsLaunch(t) && t in s'.records && s'.records == s.records[t := s'.records[t]]
        && s'.records[t].store == s.tasks[t].store
        && (if t in s.records
            then s'.records[t].claimed == s.records[t].claimed && s'.records[t].completed == s.records[t].completed
                 && (s.records[t].registered ==> s'.records[t].registered)
            else !s'.records[t].claimed && !s'.records[t].completed))
  }

  ghost predicate Plain(s: State, s': State, t: Id)
    requires OnlyTask(s, s', t)
  {
    && PlainRecords(s, s', t) && Fits(s'.records, t, s'.tasks[t])
    && s.JobOf(t).None? && s'.JobOf(t).None? && s'.latencies == s.latencies
    && (s'.running == s.running || Registers(s, s', t))
  }

  ghost predicate Registers(s: State, s': State, t: Id) {
    && s.IsLaunch(t) && s.tasks[t].store !in s.running && s'.running == s.running[s.tasks[t].store := t]
    && t in s.records && t in s'.records
    && s'.records[t].registered && !s'.records[t].claimed && !s'.records[t].completed
  }

  lemma PlainKeepsRecords(s: State, s': State, t: Id)
    requires RecordInv(s) && OnlyTask(s, s', t) && Plain(s, s', t)
    ensures RecordInv(s')
  {
  }

  lemma PlainKeepsRegistry(s: State, s': State, t: Id)
    requires RecordInv(s) && RegistryInv(s) && OnlyTask(s, s', t) && Plain(s, s', t)
    ensures RegistryInv(s')
  {
  }

  lemma PlainKeepsCleaners(s: State, s': State, t: Id)
    requires RecordInv(s) && CleanerInv(s) && OnlyTask(s, s', t) && Plain(s, s', t)
    ensures CleanerInv(s')
  {
    forall u | s'.JobOf(u).Some? ensures s'.JobOf(u) == s.JobOf(u) && JobFits(s', s'.JobOf(u).value) {
      assert u != t && JobFits(s, s.JobOf(u).value);
    }
  }

  lemma PlainKeepsLatencies(s: State, s': State, t: Id)
    requires LatencyInv(s) && OnlyTask(s, s', t) && Plain(s, s', t)
    ensures LatencyInv(s')
  {
    forall x | x in s'.latencies ensures x in s'.running && NotBegun(s', s'.running[x]) {
      assert NotBegun(s, s.running[x]);
      forall u | s'.JobOf(u).Some? ensures s'.JobOf(u) == s.JobOf(u) {
        assert u != t;
      }
    }
  }

  lemma PlainKeepsAttended(s: State, s': State, t: Id)
    requires AttendedInv(s) && OnlyTask(s, s', t) && Plain(s, s', t)
    ensures AttendedInv(s')
  {
    forall r | s'.IsClaimed(r) && !s'.IsClean(r) ensures exists u :: s'.IsCleaning(u, r) {
      assert s.IsClaimed(r) && !s.IsClean(r);
      var u :| s.IsCleaning(u, r);
      assert u != t && s'.IsCleaning(u, r);
    }
  }

  lemma PlainEvolves(s: State, s': State, t: Id)
    requires OnlyTask(s, s', t) && GenerationChange(s, s', t) && Plain(s, s', t)
    ensures Evolves(s, s')
  {
    forall u | PastCheck(s', u)
      ensures s'.tasks[u].observed >= s.generation || (PastCheck(s, u) && s'.tasks[u].observed == s.tasks[u].observed)
    {
      assert u != t ==> s'.tasks[u] == s.tasks[u] && (s'.IsListed(u) ==> s.IsListed(u));
    }
    forall u | s'.JobOf(u).Some? ensures JobContinues(s, u, s'.JobOf(u).value) {
      assert u != t && s'.JobOf(u) == s.JobOf(u);
    }
  }

  lemma PlainKeepsTables(s: State, s': State, t: Id)
    requires TableInv(s) && OnlyTask(s, s', t) && Plain(s, s', t)
    ensures TableInv(s')
  {
    PlainKeepsRecords(s, s', t);
    PlainKeepsRegistry(s, s', t);
    PlainKeepsCleaners(s, s', t);
    PlainKeepsLatencies(s, s', t);
    PlainKeepsAttended(s, s', t);
  }

  /** A plain step keeps everything, given what it does to quit-alls. */
  lemma PlainKeeps(s: State, s': State, t: Id)
    requires Inv(s) && Moves(s, s', t) && Plain(s, s', t) && QuitInv(s')
    ensures Inv(s') && Evolves(s, s')
  {
    SlotFrame(s, s', t);
    GateFrame(s, s', t);
    CloseFrame(s, s', t);
    PlainKeepsTables(s, s', t);
    PlainEvolves(s, s', t);
  }

  lemma PlainKeepsAll(s: State, s': State, t: Id)
    requires Inv(s) && Moves(s, s', t) && Plain(s, s', t) && QuitChange(s, s', t)
    requires s'.tasks[t].Quit? ==> QuitFact(s', s'.tasks[t].qpc)
    ensures Inv(s') && Evolves(s, s')
  {
    QuitFrame(s, s', t);
    PlainKeeps(s, s', t);
  }

  // ---- TryClaimCleanup ----

  /** `t` asked for the claim of `r`, and won it exactly if nobody had. */
  ghost predicate Claims(s: State, s': State, t: Id, r: Id) {
    && t in s.tasks && s.tasks[t].Wants(t) == Some(r) && r in s.records && s' == ClaimStep(s, t)
  }

  lemma ClaimMoves(s: State, s': State, t: Id, r: Id)
    requires CloseInv(s) && Claims(s, s', t, r)
    ensures Moves(s, s', t) && QuitChange(s, s', t) && !s'.tasks[t].Quit?
  {
    if s.tasks[t].Close? { assert CloseFact(s, s.tasks[t]); }
  }

  /** Who is inside `CleanupRecord` after a claim: whoever was, and the winner. */
  lemma ClaimJobs(s: State, s': State, t: Id, r: Id, u: Id)
    requires Claims(s, s', t, r)
    ensures u != t ==> s'.JobOf(u) == s.JobOf(u)
    ensures s.JobOf(t).None?
    ensures !s.records[r].claimed ==>
              s'.JobOf(t).Some? && s'.JobOf(t).value.record == r && s'.JobOf(t).value.stage.DropLatency?
    ensures s.records[r].claimed ==> s'.JobOf(t).None?
  {
  }

  lemma ClaimKeepsRecords(s: State, s': State, t: Id, r: Id)
    requires RecordInv(s) && Claims(s, s', t, r)
    ensures RecordInv(s')
  {
    assert Fits(s.records, t, s.tasks[t]) && Fits(s.records, r, s.tasks[r]);
    forall u | u in s'.tasks ensures Fits(s'.records, u, s'.tasks[u]) {
      assert Fits(s.records, u, s.tasks[u]);
    }
  }

  lemma ClaimKeepsCleaners(s: State, s': State, t: Id, r: Id)
    requires RecordInv(s) && CleanerInv(s) && Claims(s, s', t, r)
    ensures CleanerInv(s')
  {
    forall u | s'.JobOf(u).Some? ensures JobFits(s', s'.JobOf(u).value) {
      ClaimJobs(s, s', t, r, u);
      if u != t { assert JobFits(s, s.JobOf(u).value); }
    }
    forall u, v | s'.JobOf(u).Some? && s'.JobOf(v).Some? && s'.JobOf(u).value.record == s'.JobOf(v).value.record
      ensures u == v
    {
      ClaimJobs(s, s', t, r, u);
      ClaimJobs(s, s', t, r, v);
      if u != t { assert JobFits(s, s.JobOf(u).value); }
      if v != t { assert JobFits(s, s.JobOf(v).value); }
    }
  }

  lemma ClaimKeepsRest(s: State, s': State, t: Id, r: Id)
    requires RegistryInv(s) && LatencyInv(s) && AttendedInv(s) && Claims(s, s', t, r)
    ensures RegistryInv(s') && LatencyInv(s') && AttendedInv(s')
  {
    forall x | x in s'.latencies ensures x in s'.running && NotBegun(s', s'.running[x]) {
      assert NotBegun(s, s.running[x]);
      forall u | s'.JobOf(u).Some? && s'.JobOf(u).value.record == s'.running[x]
        ensures s'.JobOf(u).value.stage.DropLatency?
      {
        ClaimJobs(s, s', t, r, u);
      }
    }
    forall q | s'.IsClaimed(q) && !s'.IsClean(q) ensures exists u :: s'.IsCleaning(u, q) {
      ClaimAttended(s, s', t, r, q);
    }
  }

  lemma ClaimAttended(s: State, s': State, t: Id, r: Id, q: Id)
    requires AttendedInv(s) && Claims(s, s', t, r) && s'.IsClaimed(q) && !s'.IsClean(q)
    ensures exists u :: s'.IsCleaning(u, q)
  {
    ClaimJobs(s, s', t, r, t);
    if s.IsClaimed(q) {
      assert !s.IsClean(q);
      var u :| s.IsCleaning(u, q);
      ClaimJobs(s, s', t, r, u);
      assert s'.IsCleaning(u, q);
    } else {
      assert s'.IsCleaning(t, q);
    }
  }

  lemma ClaimEvolves(s: State, s': State, t: Id, r: Id)
    requires Claims(s, s', t, r) && OnlyTask(s, s', t) && GenerationChange(s, s', t)
    ensures Evolves(s, s')
  {
    forall u | PastCheck(s', u)
      ensures s'.tasks[u].observed >= s.generation || (PastCheck(s, u) && s'.tasks[u].observed == s.tasks[u].observed)
    {
      assert u != t ==> s'.tasks[u] == s.tasks[u] && (s'.IsListed(u) ==> s.IsListed(u));
    }
    forall u | s'.JobOf(u).Some? ensures JobContinues(s, u, s'.JobOf(u).value) {
      ClaimJobs(s, s', t, r, u);
    }
  }

  lemma ClaimKeeps(s: State, t: Id)
    requires Inv(s) && t in s.tasks && s.tasks[t].Wants(t).Some? && s.tasks[t].Wants(t).value in s.records
    ensures Inv(ClaimStep(s, t)) && Evolves(s, ClaimStep(s, t))
  {
    var s', r := ClaimStep(s, t), s.tasks[t].Wants(t).value;
    ClaimMoves(s, s', t, r);
    SlotFrame(s, s', t);
    GateFrame(s, s', t);
    CloseFrame(s, s', t);
    QuitFrame(s, s', t);
    ClaimKeepsRecords(s, s', t, r);
    ClaimKeepsCleaners(s, s', t, r);
    ClaimKeepsRest(s, s', t, r);
    ClaimEvolves(s, s', t, r);
  }

  // ---- CleanupRecord ----

  /** `t` took one step in `CleanupRecord`, from the given job on. */
  ghost predicate CleansUp(s: State, s': State, t: Id, job: Job, ok: bool) {
    s.JobOf(t) == Some(job) && job.record in s.records && s' == CleanStep(s, t, ok)
  }

  lemma AfterStageIs(task: Task, self: Id, job: Job, ok: bool)
    requires task.Cleans(self) == Some(job)
    ensures var next := task.AfterStage(job.stage, ok);
            && SameCall(task, next) && task.HoldsSlot() == next.HoldsSlot() && !task.InsideGate() && !next.InsideGate()
            && !PastSlot(next) && (task.Launch? ==> next.observed == task.observed)
            && next.Cleans(self) == if job.stage.Complete? then None else Some(job.(stage := job.stage.Next()))
  {
  }

  /** What the step did to the registry and the records. */
  lemma CleanEffect(s: State, s': State, t: Id, job: Job, ok: bool)
    requires CleansUp(s, s', t, job, ok)
    ensures s'.tasks == s.tasks[t := s.tasks[t].AfterStage(job.stage, ok)]
    ensures s'.starting == s.starting && s'.gate == s.gate && s'.generation == s.generation
    ensures Shrinks(s.running, s'.running)
    ensures job.stage.Unregister? ==> !s'.IsListed(job.record)
    ensures s'.records == if job.stage.Complete?
                          then s.records[job.record := s.records[job.record].(completed := true)]
                          else s.records
    ensures forall x :: x in s'.latencies ==> x in s.latencies
    ensures job.stage.DropLatency? ==> s.records[job.record].store !in s'.latencies
    ensures forall x :: x in s.running && x !in s'.running ==> job.stage.Unregister? && s.running[x] == job.record
  {
  }

  lemma CleanJobs(s: State, s': State, t: Id, job: Job, ok: bool, u: Id)
    requires CleansUp(s, s', t, job, ok)
    ensures u != t ==> s'.JobOf(u) == s.JobOf(u)
    ensures s'.JobOf(t) == if job.stage.Complete? then None else Some(job.(stage := job.stage.Next()))
  {
    AfterStageIs(s.tasks[t], t, job, ok);
  }

  /** A close that has completed the cleanup finds its store unregistered. */
  lemma CleanCloses(s: State, s': State, t: Id, job: Job, ok: bool)
    requires RecordInv(s) && RegistryInv(s) && CleanerInv(s) && CloseInv(s) && CleansUp(s, s', t, job, ok)
    requires s.tasks[t].Close?
    ensures s'.tasks[t].Close? && CloseFact(s', s'.tasks[t])
  {
    CleanEffect(s, s', t, job, ok);
    assert JobFits(s, job) && CloseFact(s, s.tasks[t]);
  }

  lemma CleanMoves(s: State, s': State, t: Id, job: Job, ok: bool)
    requires RecordInv(s) && RegistryInv(s) && CleanerInv(s) && CloseInv(s) && CleansUp(s, s', t, job, ok)
    ensures Moves(s, s', t) && QuitChange(s, s', t) && !s'.tasks[t].Quit?
  {
    CleanEffect(s, s', t, job, ok);
    AfterStageIs(s.tasks[t], t, job, ok);
    if s.tasks[t].Close? { CleanCloses(s, s', t, job, ok); }
  }

  lemma FitsAfterStage(records: map<Id, Record>, t: Id, task: Task, job: Job, ok: bool)
    requires task.Cleans(t) == Some(job) && Fits(records, t, task)
    ensures Fits(records, t, task.AfterStage(job.stage, ok))
  {
  }

  lemma FitsWhenCompleted(records: map<Id, Record>, r: Id, t: Id, task: Task)
    requires Fits(records, t, task) && r in records && records[r].claimed
    ensures Fits(records[r := records[r].(completed := true)], t, task)
  {
  }

  lemma CleanKeepsRecords(s: State, s': State, t: Id, job: Job, ok: bool)
    requires RecordInv(s) && CleanerInv(s) && CleansUp(s, s', t, job, ok)
    ensures RecordInv(s')
  {
    CleanEffect(s, s', t, job, ok);
    AfterStageIs(s.tasks[t], t, job, ok);
    assert JobFits(s, job);
    forall u | u in s'.tasks ensures Fits(s'.records, u, s'.tasks[u]) {
      assert Fits(s.records, u, s.tasks[u]);
      if u == t { FitsAfterStage(s.records, t, s.tasks[t], job, ok); }
      FitsWhenCompleted(s.records, job.record, u, s'.tasks[u]);
    }
  }

  lemma CleanKeepsRegistry(s: State, s': State, t: Id, job: Job, ok: bool)
    requires RegistryInv(s) && CleanerInv(s) && CleansUp(s, s', t, job, ok)
    ensures RegistryInv(s')
  {
    CleanEffect(s, s', t, job, ok);
    assert JobFits(s, job);
  }

  lemma CleanKeepsCleaners(s: State, s': State, t: Id, job: Job, ok: bool)
    requires CleanerInv(s) && CleansUp(s, s', t, job, ok)
    ensures CleanerInv(s')
  {
    CleanEffect(s, s', t, job, ok);
    CleanJobs(s, s', t, job, ok, t);
    assert JobFits(s, job);
    forall u | s'.JobOf(u).Some?
      ensures s.JobOf(u).Some? && s'.JobOf(u).value.record == s.JobOf(u).value.record && JobFits(s', s'.JobOf(u).value)
    {
      CleanJobs(s, s', t, job, ok, u);
      assert JobFits(s, s.JobOf(u).value);
    }
  }

  lemma CleanKeepsLatencies(s: State, s': State, t: Id, job: Job, ok: bool)
    requires RegistryInv(s) && LatencyInv(s) && CleansUp(s, s', t, job, ok)
    ensures LatencyInv(s')
  {
    CleanEffect(s, s', t, job, ok);
    CleanJobs(s, s', t, job, ok, t);
    forall x | x in s'.latencies ensures x in s'.running && NotBegun(s', s'.running[x]) {
      assert NotBegun(s, s.running[x]);
      forall u | s'.JobOf(u).Some? && s'.JobOf(u).value.record == s'.running[x]
        ensures s'.JobOf(u).value.stage.DropLatency?
      {
        CleanJobs(s, s', t, job, ok, u);
      }
    }
  }

  lemma CleanKeepsAttended(s: State, s': State, t: Id, job: Job, ok: bool)
    requires AttendedInv(s) && CleansUp(s, s', t, job, ok)
    ensures AttendedInv(s')
  {
    CleanEffect(s, s', t, job, ok);
    forall r | s'.IsClaimed(r) && !s'.IsClean(r) ensures exists u :: s'.IsCleaning(u, r) {
      assert s.IsClaimed(r) && !s.IsClean(r);
      var u :| s.IsCleaning(u, r);
      CleanJobs(s, s', t, job, ok, u);
      CleanJobs(s, s', t, job, ok, t);
      assert s'.IsCleaning(u, r);
    }
  }

  lemma CleanEvolves(s: State, s': State, t: Id, job: Job, ok: bool)
    requires CleansUp(s, s', t, job, ok) && OnlyTask(s, s', t) && GenerationChange(s, s', t)
    ensures Evolves(s, s')
  {
    CleanEffect(s, s', t, job, ok);
    forall u | PastCheck(s', u)
      ensures s'.tasks[u].observed >= s.generation || (PastCheck(s, u) && s'.tasks[u].observed == s.tasks[u].observed)
    {
      assert u != t ==> s'.tasks[u] == s.tasks[u] && (s'.IsListed(u) ==> s.IsListed(u));
    }
    forall u | s'.JobOf(u).Some? ensures JobContinues(s, u, s'.JobOf(u).value) {
      CleanJobs(s, s', t, job, ok, u);
    }
  }

  lemma CleanKeeps(s: State, t: Id, ok: bool)
    requires Inv(s) && s.JobOf(t).Some? && s.JobOf(t).value.record in s.records
    ensures Inv(CleanStep(s, t, ok)) && Evolves(s, CleanStep(s, t, ok))
  {
    var s', job := CleanStep(s, t, ok), s.JobOf(t).value;
    CleanMoves(s, s', t, job, ok);
    SlotFrame(s, s', t);
    GateFrame(s, s', t);
    CloseFrame(s, s', t);
    QuitFrame(s, s', t);
    CleanKeepsRecords(s, s', t, job, ok);
    CleanKeepsRegistry(s, s', t, job, ok);
    CleanKeepsCleaners(s, s', t, job, ok);
    CleanKeepsLatencies(s, s', t, job, ok);
    CleanKeepsAttended(s, s', t, job, ok);
    CleanEvolves(s, s', t, job, ok);
  }

  // ---- The steps of a launch ----

  /** A task that moves on without touching anything shared but the displayed states and the cancellations. */
  ghost predicate Quiet(s: State, t: Id, next: Task) {
    && t in s.tasks && SameCall(s.tasks[t], next)
    && s.tasks[t].HoldsSlot() == next.HoldsSlot() && s.tasks[t].InsideGate() == next.InsideGate()
    && s.tasks[t].Cleans(t).None? && next.Cleans(t).None? && Fits(s.records, t, next)
    && (next.Launch? ==> !next.pc.Admitted? && next.observed == s.tasks[t].observed)
    && (next.Close? ==> CloseFact(s, next))
  }

  lemma QuietMove(s: State, s': State, t: Id, next: Task)
    requires Quiet(s, t, next) && s' == s.With(t, next).(states := s'.states, cancelled := s'.cancelled)
    ensures Moves(s, s', t) && Plain(s, s', t)
  {
  }

  lemma StayIsPlain(s: State, t: Id)
    requires RecordInv(s) && CloseInv(s) && t in s.tasks && s.tasks[t].Cleans(t).None?
    ensures Moves(s, s, t) && Plain(s, s, t) && QuitChange(s, s, t)
  {
    assert s.tasks == s.tasks[t := s.tasks[t]];
    if s.tasks[t].Close? { assert CloseFact(s, s.tasks[t]); }
  }

  /** The step of launch `t` is one of the plain ones. */
  ghost predicate PlainStep(s: State, s': State, t: Id) { Moves(s, s', t) && Plain(s, s', t) }

  lemma BeginIsPlain(s: State, t: Id, ok: bool)
    requires RecordInv(s) && s.IsLaunch(t) && (s.tasks[t].pc.ReadGeneration? || s.tasks[t].pc.CheckDraining?)
    ensures PlainStep(s, EntryStep(s, t, ok), t)
  {
    var s' := EntryStep(s, t, ok);
    assert Fits(s.records, t, s.tasks[t]);
    if s.tasks[t].pc.CheckDraining? { QuietMove(s, s', t, s'.tasks[t]); }
  }

  lemma AwaitIsPlain(s: State, t: Id, ok: bool)
    requires RecordInv(s) && CloseInv(s) && s.IsLaunch(t)
    requires s.tasks[t].pc.AwaitCleanup? || s.tasks[t].pc.AwaitSlot?
    ensures PlainStep(s, EntryStep(s, t, ok), t)
  {
    var s' := EntryStep(s, t, ok);
    assert Fits(s.records, t, s.tasks[t]);
    if s' == s {
      StayIsPlain(s, t);
    } else {
      QuietMove(s, s', t, s'.tasks[t]);
    }
  }

  /** A launch without a record that takes or leaves the gate. */
  lemma GateMove(s: State, s': State, t: Id, next: Task)
    requires s.IsLaunch(t) && s' == s.With(t, next).(gate := s'.gate) && next.Launch? && t !in s.records
    requires next.(pc := s.tasks[t].pc) == s.tasks[t] && s.tasks[t].Cleans(t).None? && next.Cleans(t).None?
    requires LaunchFits(s.records, t, next.pc) && s.tasks[t].HoldsSlot() == next.HoldsSlot()
    requires next.pc.Admitted? ==> next.observed >= s.generation
    requires OnlyTask(s, s', t) && GateChange(s, s', t)
    ensures PlainStep(s, s', t)
  {
  }

  lemma WantGateIsPlain(s: State, t: Id, ok: bool)
    requires RecordInv(s) && CloseInv(s) && s.IsLaunch(t) && s.tasks[t].pc.WantGate?
    ensures PlainStep(s, EntryStep(s, t, ok), t)
  {
    var me := s.tasks[t];
    assert Fits(s.records, t, me);
    if !ok {
      QuietMove(s, s.With(t, me.(pc := LaunchEnded)), t, me.(pc := LaunchEnded));
    } else if s.gate.Some? {
      StayIsPlain(s, t);
    } else {
      GateMove(s, s.With(t, me.(pc := InGate)).(gate := Some(t)), t, me.(pc := InGate));
    }
  }

  lemma InGateIsPlain(s: State, t: Id, ok: bool)
    requires RecordInv(s) && s.IsLaunch(t) && s.tasks[t].pc.InGate?
    ensures PlainStep(s, EntryStep(s, t, ok), t)
  {
    var me := s.tasks[t];
    assert Fits(s.records, t, me);
    if s.draining || s.generation != me.observed {
      GateMove(s, s.With(t, me.(pc := LaunchEnded)).(gate := None), t, me.(pc := LaunchEnded));
    } else {
      GateMove(s, s.With(t, me.(pc := Admitted)), t, me.(pc := Admitted));
    }
  }

  lemma AdmittedIsPlain(s: State, t: Id, ok: bool)
    requires RecordInv(s) && s.IsLaunch(t) && s.tasks[t].pc.Admitted?
    ensures PlainStep(s, EntryStep(s, t, ok), t)
  {
    var s' := EntryStep(s, t, ok);
    assert Fits(s.records, t, s.tasks[t]);
    if s.tasks[t].store in s.starting { QuietMove(s, s', t, s'.tasks[t]); }
  }

  lemma LeaveGateIsPlain(s: State, t: Id, ok: bool)
    requires RecordInv(s) && s.IsLaunch(t) && (s.tasks[t].pc.WonSlot? || s.tasks[t].pc.LostSlot?)
    ensures PlainStep(s, EntryStep(s, t, ok), t)
  {
    assert Fits(s.records, t, s.tasks[t]);
  }

  lemma EntryIsPlain(s: State, t: Id, ok: bool)
    requires RecordInv(s) && CloseInv(s) && s.IsLaunch(t) && s.tasks[t].pc.IsEntry() && !s.tasks[t].pc.Scan?
    ensures PlainStep(s, EntryStep(s, t, ok), t)
  {
    match s.tasks[t].pc
    case ReadGeneration | CheckDraining => BeginIsPlain(s, t, ok);
    case AwaitCleanup(_) => AwaitIsPlain(s, t, ok);
    case AwaitSlot(_) => AwaitIsPlain(s, t, ok);
    case WantGate => WantGateIsPlain(s, t, ok);
    case InGate => InGateIsPlain(s, t, ok);
    case Admitted => AdmittedIsPlain(s, t, ok);
    case WonSlot => LeaveGateIsPlain(s, t, ok);
    case LostSlot(_) => LeaveGateIsPlain(s, t, ok);
  }

  lemma NewRecordIsPlain(s: State, t: Id, record: Record)
    requires s.IsLaunch(t) && s.tasks[t].pc.Preparing? && t !in s.records
    requires record == Record(s.tasks[t].store, false, false, false, false)
    ensures PlainStep(s, s.With(t, s.tasks[t].(pc := Constructed)).WithRecord(t, record), t)
  {
  }

  lemma SetUpIsPlain(s: State, t: Id, ok: bool)
    requires RecordInv(s) && s.IsLaunch(t) && s.tasks[t].pc.SettingUp?
    ensures PlainStep(s, OwnedStep(s, t, ok), t)
  {
    assert Fits(s.records, t, s.tasks[t]);
    QuietMove(s, OwnedStep(s, t, ok), t, OwnedStep(s, t, ok).tasks[t]);
  }

  lemma ConstructIsPlain(s: State, t: Id, ok: bool)
    requires RecordInv(s) && s.IsLaunch(t) && s.tasks[t].pc.Preparing?
    ensures PlainStep(s, OwnedStep(s, t, ok), t)
  {
    var me := s.tasks[t];
    assert Fits(s.records, t, me);
    if ok && t !in s.cancelled {
      NewRecordIsPlain(s, t, Record(me.store, false, false, false, false));
    } else {
      QuietMove(s, OwnedStep(s, t, ok), t, me.(pc := Unwinding));
    }
  }

  lemma RegisterIsPlain(s: State, t: Id, ok: bool)
    requires RecordInv(s) && s.IsLaunch(t) && s.tasks[t].pc.Constructed?
    ensures PlainStep(s, OwnedStep(s, t, ok), t)
  {
    var s' := OwnedStep(s, t, ok);
    assert Fits(s.records, t, s.tasks[t]);
    if s'.tasks[t].pc.Failing? { QuietMove(s, s', t, s'.tasks[t]); }
  }

  lemma PublishIsPlain(s: State, t: Id, ok: bool)
    requires RecordInv(s) && s.IsLaunch(t) && (s.tasks[t].pc.Registered? || s.tasks[t].pc.Published?)
    ensures PlainStep(s, OwnedStep(s, t, ok), t)
  {
    var s' := OwnedStep(s, t, ok);
    assert Fits(s.records, t, s.tasks[t]);
    if !s'.tasks[t].pc.Unwinding? { QuietMove(s, s', t, s'.tasks[t]); }
  }

  lemma UnwindIsPlain(s: State, t: Id, ok: bool)
    requires SlotInv(s) && RecordInv(s) && s.IsLaunch(t) && s.tasks[t].pc.Unwinding?
    ensures PlainStep(s, OwnedStep(s, t, ok), t)
  {
    assert Fits(s.records, t, s.tasks[t]);
  }

  lemma EndIsPlain(s: State, t: Id, ok: bool)
    requires RecordInv(s) && CloseInv(s) && s.IsLaunch(t)
    requires var pc := s.tasks[t].pc; pc.AwaitOwnCleanup? || pc.SlotDropped? || pc.LaunchEnded? || pc.Failing?
    ensures PlainStep(s, OwnedStep(s, t, ok), t)
  {
    var me := s.tasks[t];
    assert Fits(s.records, t, me);
    if me.pc.AwaitOwnCleanup? && s.IsClean(t) {
      QuietMove(s, s.With(t, me.(pc := Unwinding)), t, me.(pc := Unwinding));
    } else if me.pc.SlotDropped? {
      QuietMove(s, s.With(t, me.(pc := LaunchEnded)), t, me.(pc := LaunchEnded));
    } else {
      StayIsPlain(s, t);
    }
  }

  lemma OwnedIsPlain(s: State, t: Id, ok: bool)
    requires SlotInv(s) && RecordInv(s) && CloseInv(s) && s.IsLaunch(t)
    requires !s.tasks[t].pc.IsEntry() && !s.tasks[t].pc.OwnCleanup?
    ensures PlainStep(s, OwnedStep(s, t, ok), t)
  {
    match s.tasks[t].pc
    case SettingUp => SetUpIsPlain(s, t, ok);
    case Preparing => ConstructIsPlain(s, t, ok);
    case Constructed => RegisterIsPlain(s, t, ok);
    case Registered | Published => PublishIsPlain(s, t, ok);
    case Unwinding => UnwindIsPlain(s, t, ok);
    case _ => EndIsPlain(s, t, ok);
  }

  lemma OwnedQuits(s: State, t: Id, ok: bool)
    requires s.IsLaunch(t) && !s.tasks[t].pc.IsEntry() && OnlyTask(s, OwnedStep(s, t, ok), t)
    ensures QuitChange(s, OwnedStep(s, t, ok), t)
  {
  }

  lemma EntryQuits(s: State, t: Id, ok: bool)
    requires s.IsLaunch(t) && s.tasks[t].pc.IsEntry() && !s.tasks[t].InsideGate()
    requires OnlyTask(s, EntryStep(s, t, ok), t)
    ensures QuitChange(s, EntryStep(s, t, ok), t)
  {
  }

  lemma LaunchKeeps(s: State, t: Id, ok: bool, spawned: Id)
    requires Inv(s) && s.IsLaunch(t) && !s.tasks[t].pc.Scan?
    ensures var s' := LaunchStep(s, t, ok, spawned); Inv(s') && Evolves(s, s')
  {
    var pc := s.tasks[t].pc;
    if pc.OwnCleanup? {
      EvolvesFromItself(s);
    } else if !pc.IsEntry() {
      OwnedIsPlain(s, t, ok);
      OwnedQuits(s, t, ok);
      PlainKeepsAll(s, OwnedStep(s, t, ok), t);
    } else {
      EntryKeeps(s, t, ok);
    }
  }

  lemma EntryKeeps(s: State, t: Id, ok: bool)
    requires Inv(s) && s.IsLaunch(t) && s.tasks[t].pc.IsEntry() && !s.tasks[t].pc.Scan?
    ensures var s' := EntryStep(s, t, ok); Inv(s') && Evolves(s, s')
  {
    var s' := EntryStep(s, t, ok);
    EntryIsPlain(s, t, ok);
    if s.tasks[t].InsideGate() {
      QuitWaits(s, s', t);
      PlainKeeps(s, s', t);
    } else {
      EntryQuits(s, t, ok);
      PlainKeepsAll(s, s', t);
    }
  }

  /** A task that has just been created holds nothing. */
  ghost predicate IsNew(s: State, task: Task) {
    || task == Quit(QuitWantGate)
    || (task.Close? && task.cpc.TakeSlot?)
    || (task.Launch? && task.pc.ReadGeneration?)
    || (task.Exit? && task.epc.ExitStart? && task.record in s.records && s.records[task.record].registered)
  }

  lemma SpawnKeepsSlots(s: State, t: Id, task: Task)
    requires SlotInv(s) && GateInv(s) && t !in s.tasks && IsNew(s, task)
    ensures SlotInv(s.With(t, task)) && GateInv(s.With(t, task))
  {
  }

  lemma SpawnJobs(s: State, t: Id, task: Task, u: Id)
    requires t !in s.tasks && IsNew(s, task)
    ensures s.With(t, task).JobOf(u) == s.JobOf(u)
  {
  }

  lemma SpawnKeepsRecords(s: State, t: Id, task: Task)
    requires RecordInv(s) && t !in s.tasks && IsNew(s, task)
    ensures RecordInv(s.With(t, task))
  {
  }

  lemma SpawnKeepsCleaners(s: State, t: Id, task: Task)
    requires CleanerInv(s) && LatencyInv(s) && AttendedInv(s) && t !in s.tasks && IsNew(s, task)
    ensures var s' := s.With(t, task); CleanerInv(s') && LatencyInv(s') && AttendedInv(s')
  {
    var s' := s.With(t, task);
    forall u ensures s'.JobOf(u) == s.JobOf(u) { SpawnJobs(s, t, task, u); }
    forall u | s'.JobOf(u).Some? ensures JobFits(s', s'.JobOf(u).value) {
      assert JobFits(s, s.JobOf(u).value);
    }
    forall x | x in s'.latencies ensures x in s'.running && NotBegun(s', s'.running[x]) {
      assert NotBegun(s, s.running[x]);
    }
    forall r | s'.IsClaimed(r) && !s'.IsClean(r) ensures exists u :: s'.IsCleaning(u, r) {
      assert s.IsClaimed(r) && !s.IsClean(r);
      var u :| s.IsCleaning(u, r);
      assert s'.IsCleaning(u, r);
    }
  }

  lemma SpawnKeepsFacts(s: State, t: Id, task: Task)
    requires CloseInv(s) && QuitInv(s) && t !in s.tasks && IsNew(s, task)
    ensures CloseInv(s.With(t, task)) && QuitInv(s.With(t, task))
  {
    var s' := s.With(t, task);
    forall c | c in s'.tasks && s'.tasks[c].Close? ensures CloseFact(s', s'.tasks[c]) {
      assert c != t ==> CloseFact(s, s.tasks[c]);
    }
    forall q | q in s'.tasks && s'.tasks[q].Quit? ensures QuitFact(s', s'.tasks[q].qpc) {
      assert q != t ==> QuitFact(s, s.tasks[q].qpc);
    }
  }

  lemma SpawnEvolves(s: State, t: Id, task: Task)
    requires RecordInv(s) && t !in s.tasks && IsNew(s, task)
    ensures Evolves(s, s.With(t, task))
  {
    var s' := s.With(t, task);
    forall u ensures s'.JobOf(u) == s.JobOf(u) { SpawnJobs(s, t, task, u); }
  }

  lemma SpawnKeeps(s: State, t: Id, task: Task)
    requires Inv(s) && t !in s.tasks && IsNew(s, task)
    ensures var s' := s.With(t, task); Inv(s') && Evolves(s, s')
  {
    SpawnKeepsSlots(s, t, task);
    SpawnKeepsRecords(s, t, task);
    SpawnKeepsCleaners(s, t, task);
    SpawnKeepsFacts(s, t, task);
    SpawnEvolves(s, t, task);
  }

  lemma QuietKeeps(s: State, t: Id, next: Task)
    requires Inv(s) && Quiet(s, t, next) && !next.Quit? && !PastSlot(next)
    ensures Inv(s.With(t, next)) && Evolves(s, s.With(t, next))
  {
    var s' := s.With(t, next);
    QuietMove(s, s', t, next);
    PlainKeepsAll(s, s', t);
  }

  lemma ScanIsQuiet(s: State, t: Id, pc: LaunchPc)
    requires RecordInv(s) && s.IsLaunch(t) && s.tasks[t].pc.Scan?
    requires pc.WantGate? || pc.AwaitCleanup? || pc.LaunchEnded?
    ensures Quiet(s, t, s.tasks[t].(pc := pc))
  {
    assert Fits(s.records, t, s.tasks[t]);
  }

  lemma ScanKeeps(s: State, t: Id, ok: bool, spawned: Id)
    requires Inv(s) && s.IsLaunch(t) && s.tasks[t].pc.Scan?
    ensures var s' := ScanStep(s, t, ok, spawned); Inv(s') && Evolves(s, s')
  {
    var me := s.tasks[t];
    EvolvesFromItself(s);
    if me.store !in s.running {
      ScanIsQuiet(s, t, WantGate);
      QuietKeeps(s, t, me.(pc := WantGate));
    } else if s.IsClaimed(s.running[me.store]) {
      ScanIsQuiet(s, t, AwaitCleanup(s.running[me.store]));
      QuietKeeps(s, t, me.(pc := AwaitCleanup(s.running[me.store])));
    } else if ok {
      ScanIsQuiet(s, t, LaunchEnded);
      QuietKeeps(s, t, me.(pc := LaunchEnded));
    } else if spawned !in s.tasks {
      ScanReports(s, t, spawned, s.running[me.store]);
    }
  }

  /** The launch found a record whose process is gone, and hands it to the exit handler. */
  lemma ScanReports(s: State, t: Id, spawned: Id, r: Id)
    requires Inv(s) && s.IsLaunch(t) && s.tasks[t].pc.Scan? && spawned !in s.tasks
    requires r in s.records && s.records[r].registered
    ensures var s' := s.With(spawned, Exit(r, ExitStart)).With(t, s.tasks[t].(pc := AwaitCleanup(r)));
            Inv(s') && Evolves(s, s')
  {
    var s1 := s.With(spawned, Exit(r, ExitStart));
    var next := s.tasks[t].(pc := AwaitCleanup(r));
    SpawnKeeps(s, spawned, Exit(r, ExitStart));
    ScanIsQuiet(s1, t, AwaitCleanup(r));
    QuietKeeps(s1, t, next);
    EvolvesTransitively(s, s1, s1.With(t, next));
  }

  // ---- The steps of a close ----

  lemma TakeSlotIsPlain(s: State, c: Id, ok: bool)
    requires RecordInv(s) && c in s.tasks && s.tasks[c].Close? && s.tasks[c].cpc.TakeSlot?
    ensures PlainStep(s, CloseStep(s, c, ok), c) && QuitChange(s, CloseStep(s, c, ok), c)
  {
    var s' := CloseStep(s, c, ok);
    if s.tasks[c].store in s.starting { QuietMove(s, s', c, s'.tasks[c]); }
  }

  lemma AwaitOtherIsPlain(s: State, c: Id, ok: bool)
    requires RecordInv(s) && CloseInv(s) && c in s.tasks && s.tasks[c].Close?
    requires s.tasks[c].cpc.CancelOther? || s.tasks[c].cpc.AwaitOther?
    ensures PlainStep(s, CloseStep(s, c, ok), c) && QuitChange(s, CloseStep(s, c, ok), c)
  {
    var s' := CloseStep(s, c, ok);
    if s' == s {
      StayIsPlain(s, c);
    } else {
      QuietMove(s, s', c, s'.tasks[c]);
    }
  }

  lemma LookUpIsPlain(s: State, c: Id, ok: bool)
    requires RecordInv(s) && RegistryInv(s) && c in s.tasks && s.tasks[c].Close? && s.tasks[c].cpc.Holding?
    ensures PlainStep(s, CloseStep(s, c, ok), c) && QuitChange(s, CloseStep(s, c, ok), c)
  {
    var me := s.tasks[c];
    if me.store in s.running {
      QuietMove(s, CloseStep(s, c, ok), c, me.(cpc := Found(s.running[me.store])));
    } else {
      QuietMove(s, CloseStep(s, c, ok), c, me.(cpc := Releasing(ok)));
    }
  }

  lemma AwaitRecordIsPlain(s: State, c: Id, ok: bool)
    requires RecordInv(s) && RegistryInv(s) && CloseInv(s)
    requires c in s.tasks && s.tasks[c].Close? && s.tasks[c].cpc.AwaitRecord?
    ensures PlainStep(s, CloseStep(s, c, ok), c) && QuitChange(s, CloseStep(s, c, ok), c)
  {
    var s' := CloseStep(s, c, ok);
    assert CloseFact(s, s.tasks[c]);
    if s.IsClean(s.tasks[c].cpc.record) {
      QuietMove(s, s', c, s'.tasks[c]);
    } else {
      StayIsPlain(s, c);
    }
  }

  lemma ReleaseIsPlain(s: State, c: Id, ok: bool)
    requires SlotInv(s) && c in s.tasks && s.tasks[c].Close? && s.tasks[c].cpc.Releasing?
    ensures PlainStep(s, CloseStep(s, c, ok), c)
  {
  }

  lemma EndCloseIsPlain(s: State, c: Id, ok: bool)
    requires RecordInv(s) && CloseInv(s) && c in s.tasks && s.tasks[c].Close?
    requires var pc := s.tasks[c].cpc; pc.CloseSlotDropped? || pc.CloseEnded? || pc.Found?
    ensures PlainStep(s, CloseStep(s, c, ok), c) && QuitChange(s, CloseStep(s, c, ok), c)
  {
    if s.tasks[c].cpc.CloseSlotDropped? {
      QuietMove(s, CloseStep(s, c, ok), c, s.tasks[c].(cpc := CloseEnded(s.tasks[c].cpc.ok)));
    } else {
      StayIsPlain(s, c);
    }
  }

  lemma CloseIsPlain(s: State, c: Id, ok: bool)
    requires Inv(s) && c in s.tasks && s.tasks[c].Close? && !s.tasks[c].cpc.CloseCleanup?
    ensures PlainStep(s, CloseStep(s, c, ok), c)
    ensures !s.tasks[c].cpc.Releasing? ==> QuitChange(s, CloseStep(s, c, ok), c)
  {
    match s.tasks[c].cpc
    case TakeSlot => TakeSlotIsPlain(s, c, ok);
    case CancelOther(_) => AwaitOtherIsPlain(s, c, ok);
    case AwaitOther(_) => AwaitOtherIsPlain(s, c, ok);
    case Holding => LookUpIsPlain(s, c, ok);
    case AwaitRecord(_) => AwaitRecordIsPlain(s, c, ok);
    case Releasing(_) => ReleaseIsPlain(s, c, ok);
    case _ => EndCloseIsPlain(s, c, ok);
  }

  lemma CloseKeeps(s: State, c: Id, ok: bool)
    requires Inv(s) && c in s.tasks && s.tasks[c].Close?
    ensures var s' := CloseStep(s, c, ok); Inv(s') && Evolves(s, s')
  {
    var s' := CloseStep(s, c, ok);
    if s.tasks[c].cpc.CloseCleanup? {
      EvolvesFromItself(s);
    } else {
      CloseIsPlain(s, c, ok);
      if s.tasks[c].cpc.Releasing? {
        QuitAfterRelease(s, s', c);
        PlainKeeps(s, s', c);
      } else {
        PlainKeepsAll(s, s', c);
      }
    }
  }

  // ---- The steps of a quit-all ----

  /** A quit-all that moves on, with what it will then have achieved true already. */
  lemma QuitMoves(s: State, s': State, q: Id)
    requires Inv(s) && PlainStep(s, s', q) && s.tasks[q].Quit? && s'.running == s.running
    requires QuitFact(s, s'.tasks[q].qpc)
    ensures Inv(s') && Evolves(s, s')
  {
    QuitFactFrame(s, s', q, s'.tasks[q].qpc);
    PlainKeepsAll(s, s', q);
  }

  lemma QuitShifts(s: State, s': State, q: Id, pc: QuitPc)
    requires q in s.tasks && s.tasks[q].Quit? && s.generation <= s'.generation
    requires s' == s.With(q, Quit(pc)).(gate := s'.gate, draining := s'.draining, generation := s'.generation)
    requires if s.tasks[q].InsideGate() == Quit(pc).InsideGate() then s'.gate == s.gate
             else if Quit(pc).InsideGate() then s.gate.None? && s'.gate == Some(q) else s'.gate.None?
    ensures PlainStep(s, s', q)
  {
  }

  lemma QuitBegins(s: State, q: Id, next: Store, closer: Id)
    requires Inv(s) && q in s.tasks && s.tasks[q].Quit?
    requires var pc := s.tasks[q].qpc; pc.QuitWantGate? || pc.Bump? || pc.Drain?
    ensures var s' := QuitStep(s, q, next, closer); Inv(s') && Evolves(s, s')
  {
    var s' := QuitStep(s, q, next, closer);
    EvolvesFromItself(s);
    if s.tasks[q].qpc.Bump? {
      QuitShifts(s, s', q, Drain);
      QuitMoves(s, s', q);
    } else if s.tasks[q].qpc.Drain? {
      QuitShifts(s, s', q, SnapStarting);
      QuitMoves(s, s', q);
    } else if s.gate.None? {
      QuitShifts(s, s', q, Bump);
      QuitMoves(s, s', q);
    }
  }

  lemma QuitSnaps(s: State, q: Id, next: Store, closer: Id)
    requires Inv(s) && q in s.tasks && s.tasks[q].Quit? && (s.tasks[q].qpc.SnapStarting? || s.tasks[q].qpc.SnapRunning?)
    ensures var s' := QuitStep(s, q, next, closer); Inv(s') && Evolves(s, s')
  {
    var s' := QuitStep(s, q, next, closer);
    assert QuitFact(s, s.tasks[q].qpc);
    QuitShifts(s, s', q, s'.tasks[q].qpc);
    QuitMoves(s, s', q);
  }

  lemma QuitAwaits(s: State, q: Id, next: Store, closer: Id)
    requires Inv(s) && q in s.tasks && s.tasks[q].Quit? && s.tasks[q].qpc.AwaitClose?
    ensures var s' := QuitStep(s, q, next, closer); Inv(s') && Evolves(s, s')
  {
    var s' := QuitStep(s, q, next, closer);
    var ids, c := s.tasks[q].qpc.ids, s.tasks[q].qpc.closer;
    assert QuitFact(s, s.tasks[q].qpc);
    EvolvesFromItself(s);
    if s.IsOver(c) {
      var pc := if s.tasks[c].cpc.ok then Closing(ids) else Reset(false);
      QuitShifts(s, s', q, pc);
      QuitMoves(s, s', q);
    }
  }

  lemma QuitFinishes(s: State, q: Id, next: Store, closer: Id)
    requires Inv(s) && q in s.tasks && s.tasks[q].Quit?
    requires var pc := s.tasks[q].qpc; pc.Reset? || pc.ReleaseGate? || pc.QuitEnded?
    ensures var s' := QuitStep(s, q, next, closer); Inv(s') && Evolves(s, s')
  {
    var s' := QuitStep(s, q, next, closer);
    assert QuitFact(s, s.tasks[q].qpc);
    EvolvesFromItself(s);
    if !s.tasks[q].qpc.QuitEnded? {
      QuitShifts(s, s', q, s'.tasks[q].qpc);
      QuitMoves(s, s', q);
    }
  }

  lemma QuitClosesNext(s: State, q: Id, next: Store, closer: Id)
    requires Inv(s) && q in s.tasks && s.tasks[q].Quit? && s.tasks[q].qpc.Closing?
    ensures var s' := QuitStep(s, q, next, closer); Inv(s') && Evolves(s, s')
  {
    var ids := s.tasks[q].qpc.ids;
    assert Covered(s, ids) by { assert QuitFact(s, s.tasks[q].qpc); }
    EvolvesFromItself(s);
    if ids == {} {
      var s' := s.With(q, Quit(Reset(true)));
      QuitShifts(s, s', q, Reset(true));
      QuitMoves(s, s', q);
    } else if next in ids && closer !in s.tasks {
      QuitSpawns(s, q, ids, next, closer);
    }
  }

  lemma QuitSpawns(s: State, q: Id, ids: set<Store>, next: Store, closer: Id)
    requires Inv(s) && q in s.tasks && s.tasks[q] == Quit(Closing(ids)) && Covered(s, ids)
    requires next in ids && closer !in s.tasks
    ensures var s' := s.With(closer, Close(next, TakeSlot)).With(q, Quit(AwaitClose(ids - {next}, closer)));
            Inv(s') && Evolves(s, s')
  {
    var s1 := s.With(closer, Close(next, TakeSlot));
    var s' := s1.With(q, Quit(AwaitClose(ids - {next}, closer)));
    SpawnKeeps(s, closer, Close(next, TakeSlot));
    assert ids - {next} + {next} == ids;
    assert Covered(s1, ids);
    QuitShifts(s1, s', q, AwaitClose(ids - {next}, closer));
    QuitMoves(s1, s', q);
    EvolvesTransitively(s, s1, s');
  }

  lemma QuitKeeps(s: State, q: Id, next: Store, closer: Id)
    requires Inv(s) && q in s.tasks && s.tasks[q].Quit?
    ensures var s' := QuitStep(s, q, next, closer); Inv(s') && Evolves(s, s')
  {
    match s.tasks[q].qpc
    case QuitWantGate | Bump | Drain => QuitBegins(s, q, next, closer);
    case SnapStarting => QuitSnaps(s, q, next, closer);
    case SnapRunning(_) => QuitSnaps(s, q, next, closer);
    case Closing(_) => QuitClosesNext(s, q, next, closer);
    case AwaitClose(_, _) => QuitAwaits(s, q, next, closer);
    case _ => QuitFinishes(s, q, next, closer);
  }

  // ---- What touches no task ----

  /** Nothing but displayed states, cancellations and latencies differ. */
  ghost predicate SameTasks(s: State, s': State) {
    s' == s.(states := s'.states, cancelled := s'.cancelled, latencies := s'.latencies)
  }

  lemma DisplayKeepsFacts(s: State, s': State)
    requires CloseInv(s) && QuitInv(s) && SameTasks(s, s')
    ensures CloseInv(s') && QuitInv(s')
  {
    forall c | c in s'.tasks && s'.tasks[c].Close? ensures CloseFact(s', s'.tasks[c]) {
      assert CloseFact(s, s.tasks[c]);
    }
    forall q | q in s'.tasks && s'.tasks[q].Quit? ensures QuitFact(s', s'.tasks[q].qpc) {
      assert QuitFact(s, s.tasks[q].qpc);
    }
  }

  lemma DisplayKeepsCleaners(s: State, s': State)
    requires CleanerInv(s) && AttendedInv(s) && SameTasks(s, s')
    ensures CleanerInv(s') && AttendedInv(s')
  {
    forall u ensures s'.JobOf(u) == s.JobOf(u) {}
    forall u | s'.JobOf(u).Some? ensures JobFits(s', s'.JobOf(u).value) {
      assert JobFits(s, s.JobOf(u).value);
    }
    forall r | s'.IsClaimed(r) && !s'.IsClean(r) ensures exists u :: s'.IsCleaning(u, r) {
      assert s.IsClaimed(r) && !s.IsClean(r);
      var u :| s.IsCleaning(u, r);
      assert s'.IsCleaning(u, r);
    }
  }

  lemma DisplayEvolves(s: State, s': State)
    requires SameTasks(s, s')
    ensures Evolves(s, s')
  {
    forall u ensures s'.JobOf(u) == s.JobOf(u) {}
  }

  lemma SlotsOnly(s: State, s': State)
    requires SlotInv(s) && GateInv(s) && RecordInv(s) && RegistryInv(s) && SameTasks(s, s')
    ensures SlotInv(s') && GateInv(s') && RecordInv(s') && RegistryInv(s')
  {
  }

  lemma DisplayKeeps(s: State, s': State)
    requires Inv(s) && SameTasks(s, s') && LatencyInv(s')
    ensures Inv(s') && Evolves(s, s')
  {
    SlotsOnly(s, s');
    DisplayKeepsFacts(s, s');
    DisplayKeepsCleaners(s, s');
    DisplayEvolves(s, s');
  }

  lemma SameLatencies(s: State, s': State)
    requires LatencyInv(s) && SameTasks(s, s') && s'.latencies == s.latencies
    ensures LatencyInv(s')
  {
    forall x | x in s'.latencies ensures x in s'.running && NotBegun(s', s'.running[x]) {
      assert NotBegun(s, s.running[x]);
      forall u ensures s'.JobOf(u) == s.JobOf(u) {}
    }
  }

  lemma PublishLatencies(s: State, s': State, r: Id, latency: Option<int>)
    requires LatencyInv(s) && CleanerInv(s) && MayPublish(s, r)
    requires s' == s.(latencies := s.latencies[s.records[r].store := latency])
    ensures LatencyInv(s')
  {
    forall u ensures s'.JobOf(u) == s.JobOf(u) {}
    forall u | s.JobOf(u).Some? ensures s.JobOf(u).value.record != r {
      assert JobFits(s, s.JobOf(u).value);
    }
    forall x | x in s'.latencies ensures x in s'.running && NotBegun(s', s'.running[x]) {
      if x != s.records[r].store { assert NotBegun(s, s.running[x]); }
    }
  }

  lemma PublishKeeps(s: State, r: Id, latency: Option<int>)
    requires Inv(s) && MayPublish(s, r)
    ensures var s' := s.(latencies := s.latencies[s.records[r].store := latency]); Inv(s') && Evolves(s, s')
  {
    var s' := s.(latencies := s.latencies[s.records[r].store := latency]);
    PublishLatencies(s, s', r, latency);
    DisplayKeeps(s, s');
  }

  // ---- Every action keeps the invariant ----

  lemma StartKeeps(s: State, a: Action)
    requires Inv(s) && (a.StartLaunch? || a.StartClose? || a.StartQuit? || a.ProcessExited?)
    ensures Inv(Step(s, a)) && Evolves(s, Step(s, a))
  {
    EvolvesFromItself(s);
    match a
    case StartLaunch(t, x) => if t !in s.tasks { SpawnKeeps(s, t, Launch(x, 0, ReadGeneration)); }
    case StartClose(t, x) => if t !in s.tasks { SpawnKeeps(s, t, Close(x, TakeSlot)); }
    case StartQuit(t) => if t !in s.tasks { SpawnKeeps(s, t, Quit(QuitWantGate)); }
    case ProcessExited(t, r) =>
      if t !in s.tasks && r in s.records && s.records[r].registered { SpawnKeeps(s, t, Exit(r, ExitStart)); }
  }

  lemma ShowsOnly(s: State, a: Action)
    requires a.ShowProgress? || a.CancelLaunch?
    ensures SameTasks(s, Step(s, a)) && Step(s, a).latencies == s.latencies
  {
  }

  lemma ShowKeeps(s: State, a: Action)
    requires Inv(s) && (a.ShowProgress? || a.CancelLaunch? || a.PublishLatency?)
    ensures Inv(Step(s, a)) && Evolves(s, Step(s, a))
  {
    if a.PublishLatency? {
      EvolvesFromItself(s);
      if MayPublish(s, a.record) { PublishKeeps(s, a.record, a.latency); }
    } else {
      ShowsOnly(s, a);
      SameLatencies(s, Step(s, a));
      DisplayKeeps(s, Step(s, a));
    }
  }

  lemma TaskKeeps(s: State, a: Action)
    requires Inv(s) && (a.StepLaunch? || a.StepClose? || a.StepQuit?)
    ensures Inv(Step(s, a)) && Evolves(s, Step(s, a))
  {
    EvolvesFromItself(s);
    match a
    case StepLaunch(t, ok, spawned) =>
      if s.IsLaunch(t) {
        if s.tasks[t].pc.Scan? { ScanKeeps(s, t, ok, spawned); } else { LaunchKeeps(s, t, ok, spawned); }
      }
    case StepClose(t, ok) => if t in s.tasks && s.tasks[t].Close? { CloseKeeps(s, t, ok); }
    case StepQuit(t, next, closer) => if t in s.tasks && s.tasks[t].Quit? { QuitKeeps(s, t, next, closer); }
  }

  lemma TryClaimKeeps(s: State, t: Id)
    requires Inv(s)
    ensures Inv(Step(s, TryClaim(t))) && Evolves(s, Step(s, TryClaim(t)))
  {
    if t in s.tasks && s.tasks[t].Wants(t).Some? && s.tasks[t].Wants(t).value in s.records {
      ClaimKeeps(s, t);
      assert Step(s, TryClaim(t)) == ClaimStep(s, t);
    } else {
      EvolvesFromItself(s);
      assert Step(s, TryClaim(t)) == s;
    }
  }

  lemma CleanupKeeps(s: State, t: Id, ok: bool)
    requires Inv(s)
    ensures Inv(Step(s, StepCleanup(t, ok))) && Evolves(s, Step(s, StepCleanup(t, ok)))
  {
    if s.JobOf(t).Some? && s.JobOf(t).value.record in s.records {
      CleanKeeps(s, t, ok);
      assert Step(s, StepCleanup(t, ok)) == CleanStep(s, t, ok);
    } else {
      EvolvesFromItself(s);
      assert Step(s, StepCleanup(t, ok)) == s;
    }
  }

  lemma StepKeeps(s: State, a: Action)
    requires Inv(s)
    ensures Inv(Step(s, a)) && Evolves(s, Step(s, a))
  {
    match a
    case StartLaunch(_, _) => StartKeeps(s, a);
    case StartClose(_, _) => StartKeeps(s, a);
    case StartQuit(_) => StartKeeps(s, a);
    case ProcessExited(_, _) => StartKeeps(s, a);
    case StepLaunch(_, _, _) => TaskKeeps(s, a);
    case StepClose(_, _) => TaskKeeps(s, a);
    case StepQuit(_, _, _) => TaskKeeps(s, a);
    case TryClaim(t) => TryClaimKeeps(s, t);
    case StepCleanup(t, ok) => CleanupKeeps(s, t, ok);
    case _ => ShowKeeps(s, a);
  }

  lemma {:induction false} EveryScheduleKeepsInv(s: State, schedule: seq<Action>)
    requires Inv(s)
    ensures Inv(Run(s, schedule)) && Evolves(s, Run(s, schedule))
    decreases |schedule|
  {
    if schedule == [] {
      EvolvesFromItself(s);
    } else {
      var s1 := Step(s, schedule[0]);
      StepKeeps(s, schedule[0]);
      EveryScheduleKeepsInv(s1, schedule[1..]);
      EvolvesTransitively(s, s1, Run(s1, schedule[1..]));
    }
  }

  /** The state after the first `i` actions of a schedule. */
  function After(schedule: seq<Action>, i: nat): State
    requires i <= |schedule|
  {
    Run(INITIAL, schedule[..i])
  }

  lemma {:induction false} RunAppend(s: State, schedule: seq<Action>, more: seq<Action>)
    ensures Run(s, schedule + more) == Run(Run(s, schedule), more)
    decreases |schedule|
  {
    if schedule == [] {
      assert schedule + more == more;
    } else {
      assert (schedule + more)[1..] == schedule[1..] + more;
      RunAppend(Step(s, schedule[0]), schedule[1..], more);
    }
  }

  lemma AfterEvolves(schedule: seq<Action>, i: nat, j: nat)
    requires i <= j <= |schedule|
    ensures Inv(After(schedule, i)) && Evolves(After(schedule, i), After(schedule, j))
  {
    assert Inv(INITIAL);
    EveryScheduleKeepsInv(INITIAL, schedule[..i]);
    EveryScheduleKeepsInv(After(schedule, i), schedule[i..j]);
    assert schedule[..j] == schedule[..i] + schedule[i..j];
    RunAppend(INITIAL, schedule[..i], schedule[i..j]);
  }

  /** A state that some schedule leads to. */
  ghost predicate Reachable(s: State) { exists schedule :: s == Run(INITIAL, schedule) }

  lemma ReachableInv(s: State)
    requires Reachable(s)
    ensures Inv(s)
  {
    var schedule :| s == Run(INITIAL, schedule);
    EveryScheduleKeepsInv(INITIAL, schedule);
  }

  // ---- Quit-all really drains ----

  /**
    When a quit-all is about to release the gate without an error, no store is registered as running
    and no launch owns a slot.
  */
  lemma QuitAllDrains(s: State, q: Id)
    requires Reachable(s) && q in s.tasks && s.tasks[q] == Quit(ReleaseGate(true))
    ensures s.running == map[]
    ensures forall t :: t in s.tasks ==> !s.tasks[t].IsOwner()
  {
    ReachableInv(s);
    assert QuitFact(s, s.tasks[q].qpc);
    assert s.running == map[];
  }

  /**
    After a quit-all that ended without an error, a launch that read the drain generation before that
    quit-all's bump never owns a slot or stands registered again, however the run goes on.
  */
  lemma LateLaunchesNeverRegister(s: State, q: Id, more: seq<Action>, t: Id)
    requires Reachable(s) && q in s.tasks && s.tasks[q] == Quit(ReleaseGate(true))
    requires PastCheck(Run(s, more), t)
    ensures Run(s, more).tasks[t].observed >= s.generation
  {
    QuitAllDrains(s, q);
    ReachableInv(s);
    EveryScheduleKeepsInv(s, more);
    assert s.tasks[q].InsideGate() && s.gate == Some(q);
    assert t in s.tasks && s.tasks[t].InsideGate() ==> t == q;
  }

  // ---- Cleanup races ----

  /** Action `i` takes task `t` into `CleanupRecord` for record `r`. */
  ghost predicate Enters(schedule: seq<Action>, i: nat, t: Id, r: Id)
    requires i < |schedule|
  {
    !After(schedule, i).IsCleaning(t, r) && After(schedule, i + 1).IsCleaning(t, r)
  }

  /** Whoever enters found the record unclaimed, and leaves it claimed. */
  lemma EntersByClaim(schedule: seq<Action>, i: nat, t: Id, r: Id)
    requires i < |schedule| && Enters(schedule, i, t, r)
    ensures !After(schedule, i).IsClaimed(r) && After(schedule, i + 1).IsClaimed(r)
  {
    AfterEvolves(schedule, i, i + 1);
    AfterEvolves(schedule, i + 1, i + 1);
    var s' := After(schedule, i + 1);
    assert JobContinues(After(schedule, i), t, s'.JobOf(t).value) && JobFits(s', s'.JobOf(t).value);
  }

  /**
    Whichever of close calls, exit handlers and the failed launch race for a record, at most one of them
    ever enters `CleanupRecord` for it, and does so once, in every schedule.
  */
  lemma CleanedUpAtMostOnce(schedule: seq<Action>, i: nat, j: nat, t: Id, u: Id, r: Id)
    requires i < |schedule| && j < |schedule| && Enters(schedule, i, t, r) && Enters(schedule, j, u, r)
    ensures i == j && t == u
  {
    EntersByClaim(schedule, i, t, r);
    EntersByClaim(schedule, j, u, r);
    if i < j {
      AfterEvolves(schedule, i + 1, j);
    } else if j < i {
      AfterEvolves(schedule, j + 1, i);
    } else {
      AfterEvolves(schedule, i + 1, i + 1);
    }
  }

  /** Action `i` is the one by which task `t` does `stage` of the cleanup of `r`. */
  ghost predicate Performs(schedule: seq<Action>, i: nat, t: Id, r: Id, stage: Stage)
    requires i < |schedule|
  {
    var s, s' := After(schedule, i), After(schedule, i + 1);
    && s.IsCleaning(t, r) && s.JobOf(t).value.stage == stage
    && !(s'.IsCleaning(t, r) && s'.JobOf(t).value.stage == stage)
  }

  /** From then on whoever is at the record is past that stage. */
  lemma StageIsPast(schedule: seq<Action>, i: nat, j: nat, t: Id, u: Id, r: Id, stage: Stage)
    requires i < j <= |schedule| && Performs(schedule, i, t, r, stage) && After(schedule, j).IsCleaning(u, r)
    ensures After(schedule, j).JobOf(u).value.stage.Rank() > stage.Rank()
  {
    var s, s', later := After(schedule, i), After(schedule, i + 1), After(schedule, j);
    AfterEvolves(schedule, i, i + 1);
    AfterEvolves(schedule, i + 1, j);
    assert JobFits(s, s.JobOf(t).value);
    assert JobContinues(s', u, later.JobOf(u).value) && JobContinues(s, u, s'.JobOf(u).value);
    assert u == t && stage.Rank() <= s'.JobOf(u).value.stage.Rank() <= later.JobOf(u).value.stage.Rank();
  }

  /** So each step of the cleanup (latency, state, registration, completion) happens at most once per record. */
  lemma EachStageOnce(schedule: seq<Action>, i: nat, j: nat, t: Id, u: Id, r: Id, stage: Stage)
    requires i < |schedule| && j < |schedule|
    requires Performs(schedule, i, t, r, stage) && Performs(schedule, j, u, r, stage)
    ensures i == j && t == u
  {
    AfterEvolves(schedule, i, i);
    if i < j {
      StageIsPast(schedule, i, j, t, u, r, stage);
    } else if j < i {
      StageIsPast(schedule, j, i, u, t, r, stage);
    }
  }

  /** The steps of task `t` in `CleanupRecord`, with the outcomes of its foreign calls. */
  function CleanupSteps(t: Id, oks: seq<bool>): seq<Action> {
    if oks == [] then [] else [StepCleanup(t, oks[0])] + CleanupSteps(t, oks[1..])
  }

  lemma {:induction false} CleanerCompletes(s: State, t: Id, r: Id, oks: seq<bool>)
    requires Inv(s) && s.IsCleaning(t, r) && |oks| == 4 - s.JobOf(t).value.stage.Rank()
    ensures Run(s, CleanupSteps(t, oks)).IsClean(r)
    decreases |oks|
  {
    var job, s1 := s.JobOf(t).value, Step(s, StepCleanup(t, oks[0]));
    StepKeeps(s, StepCleanup(t, oks[0]));
    assert CleanupSteps(t, oks)[1..] == CleanupSteps(t, oks[1..]);
    assert Run(s, CleanupSteps(t, oks)) == Run(s1, CleanupSteps(t, oks[1..]));
    CleanerGoesOn(s, t, job, oks[0]);
    if job.stage.Complete? {
      assert Run(s1, CleanupSteps(t, oks[1..])) == s1;
    } else {
      CleanerCompletes(s1, t, r, oks[1..]);
    }
  }

  lemma CleanerGoesOn(s: State, t: Id, job: Job, ok: bool)
    requires CleanerInv(s) && s.JobOf(t) == Some(job)
    ensures var s' := Step(s, StepCleanup(t, ok));
            if job.stage.Complete? then s'.IsClean(job.record)
            else s'.JobOf(t) == Some(job.(stage := job.stage.Next()))
  {
    assert JobFits(s, job);
    CleanEffect(s, Step(s, StepCleanup(t, ok)), t, job, ok);
    CleanJobs(s, Step(s, StepCleanup(t, ok)), t, job, ok, t);
  }

  /**
    A claimed record is cleaned up already, or exactly one task is at it, and the at most four steps which that
    task has left complete the cleanup, whatever its foreign calls answer.
  */
  lemma ClaimIsHonoured(s: State, r: Id) returns (t: Id)
    requires Reachable(s) && s.IsClaimed(r) && !s.IsClean(r)
    ensures s.IsCleaning(t, r) && forall u :: s.IsCleaning(u, r) ==> u == t
    ensures forall oks :: |oks| == 4 - s.JobOf(t).value.stage.Rank() ==> Run(s, CleanupSteps(t, oks)).IsClean(r)
  {
    ReachableInv(s);
    t :| s.IsCleaning(t, r);
    forall oks | |oks| == 4 - s.JobOf(t).value.stage.Rank() ensures Run(s, CleanupSteps(t, oks)).IsClean(r) {
      CleanerCompletes(s, t, r, oks);
    }
  }

  lemma ClaimedIsSilent(s: State, r: Id, latency: Option<int>, ok: bool, spawned: Id)
    requires RecordInv(s) && s.IsClaimed(r)
    ensures Step(s, PublishLatency(r, latency)) == s
    ensures s.IsLaunch(r) && (s.tasks[r].pc.Registered? ==> Step(s, StepLaunch(r, ok, spawned)).states == s.states)
  {
  }

  /** Once the cleanup of `r` is claimed, `r` never again publishes a latency or the Running state. */
  lemma ClaimedRecordStaysSilent(s: State, more: seq<Action>, r: Id, latency: Option<int>, ok: bool, spawned: Id)
    requires Reachable(s) && s.IsClaimed(r)
    ensures var later := Run(s, more);
            && later.IsClaimed(r) && later.IsLaunch(r)
            && Step(later, PublishLatency(r, latency)) == later
            && (later.tasks[r].pc.Registered? ==> Step(later, StepLaunch(r, ok, spawned)).states == later.states)
  {
    ReachableInv(s);
    EveryScheduleKeepsInv(s, more);
    ClaimedIsSilent(Run(s, more), r, latency, ok, spawned);
  }

  /** A store with no registered record has no latency entry, and a cleaned-up record is not registered. */
  lemma NoLatencyWithoutRecord(s: State, x: Store, r: Id)
    requires Reachable(s)
    ensures x !in s.running ==> x !in s.latencies
    ensures s.IsClean(r) ==> !s.IsListed(r)
  {
    ReachableInv(s);
  }

  // ---- An undisturbed launch succeeds ----

  /** The launch goes on, and every foreign call it makes succeeds. */
  function Next(s: State, t: Id): State { Step(s, StepLaunch(t, true, t)) }

  /** Launch `t` of store `x` stands at `pc`; nobody cancelled it, drains, or uses the store. */
  ghost predicate Stands(s: State, t: Id, x: Store, pc: LaunchPc) {
    && t in s.tasks && s.tasks[t] == Launch(x, s.generation, pc)
    && t !in s.cancelled && !s.draining
  }

  lemma Scans(s: State, t: Id, x: Store)
    requires s.IsLaunch(t) && s.tasks[t].pc.ReadGeneration?
    requires s.tasks[t].store == x && t !in s.cancelled && !s.draining && x !in s.running
    ensures var s' := Next(Next(Next(s, t), t), t);
            && Stands(s', t, x, WantGate) && s'.gate == s.gate && s'.starting == s.starting
            && s'.running == s.running && s'.records == s.records
  {
    var s1 := Next(s, t);
    assert Stands(s1, t, x, CheckDraining);
    var s2 := Next(s1, t);
    assert Stands(s2, t, x, Scan);
  }

  lemma PassesGate(s: State, t: Id, x: Store)
    requires Stands(s, t, x, WantGate) && s.gate.None? && x !in s.starting
    ensures var s' := Next(Next(s, t), t);
            && Stands(s', t, x, Admitted) && s'.gate == Some(t) && s'.starting == s.starting
            && s'.running == s.running && s'.records == s.records
  {
    var s1 := Next(s, t);
    assert Stands(s1, t, x, InGate);
  }

  lemma TakesSlot(s: State, t: Id, x: Store)
    requires Stands(s, t, x, Admitted) && x !in s.starting
    ensures var s' := Next(Next(s, t), t);
            && Stands(s', t, x, SettingUp) && s'.gate.None? && s'.starting == s.starting[x := t]
            && s'.running == s.running && s'.records == s.records
  {
    var s1 := Next(s, t);
    assert Stands(s1, t, x, WonSlot) && s1.starting == s.starting[x := t];
  }

  /** The record that `t` registered for `x` is listed, and nobody claimed it. */
  ghost predicate IsUp(s: State, t: Id, x: Store, polling: bool) {
    t in s.records && s.records[t] == Record(x, true, polling, false, false) && x in s.running && s.running[x] == t
  }

  lemma GetsRegistered(s: State, t: Id, x: Store)
    requires Stands(s, t, x, Preparing) && x !in s.running
    ensures var s' := Next(Next(s, t), t);
            Stands(s', t, x, Registered) && IsUp(s', t, x, false) && s'.gate == s.gate && s'.starting == s.starting
  {
    var s1 := Next(s, t);
    assert Stands(s1, t, x, Constructed) && t in s1.records;
  }

  lemma Publishes(s: State, t: Id, x: Store)
    requires Stands(s, t, x, Registered) && IsUp(s, t, x, false)
    ensures var s' := Next(Next(s, t), t);
            && Stands(s', t, x, Unwinding) && IsUp(s', t, x, true)
            && x in s'.states && s'.states[x].Running? && s'.gate == s.gate && s'.starting == s.starting
  {
    var s1 := Next(s, t);
    assert Stands(s1, t, x, Published) && IsUp(s1, t, x, false);
  }

  lemma Finishes(s: State, t: Id, x: Store)
    requires Stands(s, t, x, Unwinding) && x in s.starting && s.starting[x] == t
    ensures var s' := Next(Next(s, t), t);
            && s'.IsOver(t) && x !in s'.starting && s'.running == s.running && s'.records == s.records
            && s'.states == s.states && s'.gate == s.gate
  {
    var s1 := Next(s, t);
    assert Stands(s1, t, x, SlotDropped) && s1.running == s.running;
  }

  function Steps(t: Id, n: nat): seq<Action> { if n == 0 then [] else [StepLaunch(t, true, t)] + Steps(t, n - 1) }

  lemma {:induction false} TwoSteps(s: State, t: Id, n: nat)
    requires n >= 2
    ensures Run(s, Steps(t, n)) == Run(Next(Next(s, t), t), Steps(t, n - 2))
  {
    assert Steps(t, n)[1..] == Steps(t, n - 1) && Steps(t, n - 1)[1..] == Steps(t, n - 2);
  }

  /**
    From any state in which nothing drains, the gate is free and the store is neither running nor being
    started, a new launch that runs on undisturbed registers its store, shows it as running and gives
    slot and gate back.
  */
  lemma UndisturbedLaunch(s: State, t: Id, x: Store)
    requires t !in s.tasks && t !in s.cancelled && !s.draining && s.gate.None?
    requires x !in s.running && x !in s.starting
    ensures var s' := Run(Step(s, StartLaunch(t, x)), Steps(t, 14));
            && IsUp(s', t, x, true) && x in s'.states && s'.states[x].Running?
            && s'.IsOver(t) && x !in s'.starting && s'.gate.None?
  {
    var s0 := Step(s, StartLaunch(t, x));
    assert Steps(t, 14)[1..] == Steps(t, 13);
    var s1 := Next(s0, t);
    assert Run(s0, Steps(t, 14)) == Run(s1, Steps(t, 13));
    Scans(s0, t, x);
    var s3 := Next(Next(s1, t), t);
    TwoSteps(s1, t, 13);
    PassesGate(s3, t, x);
    TwoSteps(s3, t, 11);
    var s5 := Next(Next(s3, t), t);
    TakesSlot(s5, t, x);
    TwoSteps(s5, t, 9);
    LaunchSetsUp(Next(Next(s5, t), t), t, x);
  }

  lemma LaunchSetsUp(s: State, t: Id, x: Store)
    requires Stands(s, t, x, SettingUp) && x !in s.running && s.gate.None? && x in s.starting && s.starting[x] == t
    ensures var s' := Run(s, Steps(t, 7));
            && IsUp(s', t, x, true) && x in s'.states && s'.states[x].Running?
            && s'.IsOver(t) && x !in s'.starting && s'.gate.None?
  {
    var s1 := Next(s, t);
    assert Stands(s1, t, x, Preparing) && Steps(t, 7)[1..] == Steps(t, 6);
    LaunchGoesOn(s1, t, x);
  }

  lemma LaunchGoesOn(s: State, t: Id, x: Store)
    requires Stands(s, t, x, Preparing) && x !in s.running && s.gate.None? && x in s.starting && s.starting[x] == t
    ensures var s' := Run(s, Steps(t, 6));
            && IsUp(s', t, x, true) && x in s'.states && s'.states[x].Running?
            && s'.IsOver(t) && x !in s'.starting && s'.gate.None?
  {
    GetsRegistered(s, t, x);
    TwoSteps(s, t, 6);
    var s2 := Next(Next(s, t), t);
    Publishes(s2, t, x);
    TwoSteps(s2, t, 4);
    var s4 := Next(Next(s2, t), t);
    Finishes(s4, t, x);
    TwoSteps(s4, t, 2);
  }
}
