/** How calls that run on undisturbed end: what is shown, what is registered, and what is given back. */
module StoreOutcomesProofs {
  import opened Common
  import opened StoreManager
  import opened StoreManagerProofs
  import opened StoreProgressProofs

  /** The task goes on; `ok` is how its foreign calls turn out. */
  function Go(s: State, t: Id, ok: bool): State { Turn(s, Move(t, t, ""), ok) }

  function Turns(s: State, t: Id, ok: bool, n: nat): State
    decreases n
  {
    if n == 0 then s else Turns(Go(s, t, ok), t, ok, n - 1)
  }

  /** Every store but `x`, and the gate, are as they were. */
  ghost predicate OthersStay(s: State, s': State, x: Store) {
    && s'.gate == s.gate && s'.generation == s.generation && s'.draining == s.draining
    && (forall y :: y != x ==>
          && (y in s.running <==> y in s'.running) && (y in s.running ==> s'.running[y] == s.running[y])
          && (y in s.starting <==> y in s'.starting) && (y in s.starting ==> s'.starting[y] == s.starting[y])
          && (y in s.states <==> y in s'.states) && (y in s.states ==> s'.states[y] == s.states[y])
          && (y in s.latencies <==> y in s'.latencies) && (y in s.latencies ==> s'.latencies[y] == s.latencies[y]))
  }

  /** The store is registered no more, shows no latency, and is shown as `shown`. */
  ghost predicate IsDown(s: State, x: Store, r: Id, shown: RuntimeState) {
    && x !in s.running && x !in s.latencies && x in s.states && s.states[x] == shown
    && r in s.records && s.records[r].completed
  }

  /** Record `r` of store `x` is the registered one, and nobody has claimed its cleanup. */
  ghost predicate IsUnclaimed(s: State, x: Store, r: Id) {
    && x in s.running && s.running[x] == r && r in s.records && s.records[r].store == x
    && !s.records[r].claimed && !s.records[r].completed
  }

  // ---- The cleanup, by whoever does it ----

  /** Only `t` has moved, slots are as they were, and record `r` is claimed. */
  ghost predicate Claimed(s: State, s': State, t: Id, r: Id) {
    && t in s'.tasks && r in s.records && s'.records == s.records[r := s.records[r].(claimed := true)]
    && s' == s.(tasks := s'.tasks, records := s'.records) && s'.tasks == s.tasks[t := s'.tasks[t]]
  }

  lemma ClaimTurn(s: State, t: Id, r: Id, ok: bool)
    requires t in s.tasks && s.tasks[t].Wants(t) == Some(r) && r in s.records && !s.records[r].claimed
    ensures Claimed(s, Go(s, t, ok), t, r) && Go(s, t, ok).tasks[t] == s.tasks[t].AfterClaim(true)
  {
  }

  /** What the four steps of the cleanup make of the state. */
  ghost predicate CleanedUp(s: State, s': State, t: Id, r: Id, shown: RuntimeState) {
    && r in s.records && t in s'.tasks
    && var x := s.records[r].store;
    && s'.running == (if x in s.running && s.running[x] == r then s.running - {x} else s.running)
    && s'.records == s.records[r := s.records[r].(completed := true)]
    && s' == s.(latencies := s.latencies - {x}, states := s.states[x := shown], running := s'.running,
                records := s'.records, tasks := s.tasks[t := s'.tasks[t]])
  }

  lemma StageTurn(s: State, t: Id, job: Job, ok: bool)
    requires s.JobOf(t) == Some(job) && job.record in s.records && s.tasks[t].Wants(t).None?
    ensures Go(s, t, ok) == Access(s, job).With(t, s.tasks[t].AfterStage(job.stage, ok))
    ensures !job.stage.Complete? ==> Go(s, t, ok).JobOf(t) == Some(job.(stage := job.stage.Next()))
    ensures Go(s, t, ok).tasks[t].Wants(t).None?
  {
    AfterStageIs(s.tasks[t], t, job, ok);
  }

  lemma FourTurns(s: State, t: Id, ok: bool)
    ensures Turns(s, t, ok, 4) == Go(Go(Go(Go(s, t, ok), t, ok), t, ok), t, ok)
  {
    var s1 := Go(s, t, ok);
    var s2 := Go(s1, t, ok);
    assert Turns(s, t, ok, 4) == Turns(s1, t, ok, 3) == Turns(s2, t, ok, 2);
    assert Turns(s2, t, ok, 2) == Turns(Go(s2, t, ok), t, ok, 1);
  }

  lemma CleansUp(s: State, t: Id, r: Id, shown: RuntimeState, ok: bool)
    requires s.JobOf(t) == Some(Job(r, DropLatency, shown)) && r in s.records && s.tasks[t].Wants(t).None?
    ensures CleanedUp(s, Turns(s, t, ok, 4), t, r, shown)
    ensures Turns(s, t, ok, 4).tasks[t] == LastTask(s.tasks[t], ok)
  {
    var x := s.records[r].store;
    var s1 := Go(s, t, ok);
    StageTurn(s, t, Job(r, DropLatency, shown), ok);
    var s2 := Go(s1, t, ok);
    StageTurn(s1, t, Job(r, WriteState, shown), ok);
    assert s2 == s.(latencies := s.latencies - {x}, states := s.states[x := shown], tasks := s.tasks[t := s2.tasks[t]]);
    var s3 := Go(s2, t, ok);
    StageTurn(s2, t, Job(r, Unregister, shown), ok);
    StageTurn(s3, t, Job(r, Complete, shown), ok);
    FourTurns(s, t, ok);
    assert s3 == s2.(running := s3.running, tasks := s.tasks[t := s3.tasks[t]]);
  }

  /** Where the task is when it has done the cleanup. */
  function LastTask(task: Task, ok: bool): Task {
    task.AfterStage(DropLatency, ok).AfterStage(WriteState, ok).AfterStage(Unregister, ok).AfterStage(Complete, ok)
  }

  // ---- A close ----

  /** The first three turns: the close takes the free slot, finds the record and claims it. */
  lemma CloseBegins(s: State, c: Id, x: Store, r: Id, ok: bool)
    requires c in s.tasks && s.tasks[c] == Close(x, TakeSlot) && x !in s.starting && IsUnclaimed(s, x, r)
    ensures var s3 := Go(Go(Go(s, c, ok), c, ok), c, ok);
            && r in s3.records && c in s3.tasks && s3.tasks[c] == Close(x, CloseCleanup(r, DropLatency))
            && s3 == s.(starting := s.starting[x := c], records := s.records[r := s.records[r].(claimed := true)],
                        tasks := s.tasks[c := s3.tasks[c]])
  {
    var s1 := Go(s, c, ok);
    assert s1 == s.(starting := s.starting[x := c], tasks := s.tasks[c := Close(x, Holding)]);
    var s2 := Go(s1, c, ok);
    assert s2 == s1.(tasks := s.tasks[c := Close(x, Found(r))]);
    ClaimTurn(s2, c, r, ok);
  }

  lemma CloseLeaves(s: State, c: Id, x: Store, ok: bool)
    requires c in s.tasks && s.tasks[c] == Close(x, Releasing(ok)) && x in s.starting && s.starting[x] == c
    ensures Go(Go(s, c, ok), c, ok)
            == s.(starting := s.starting - {x}, tasks := s.tasks[c := Close(x, CloseEnded(ok))])
  {
    var s1 := Go(s, c, ok);
    assert s1 == s.(starting := s.starting - {x}, tasks := s.tasks[c := Close(x, CloseSlotDropped(ok))]);
  }

  /**
    From any state in which the store runs, with an unclaimed record and nobody at its slot, a close that runs on
    undisturbed leaves the store unregistered, without a latency and shown as idle, and gives the slot back. It
    reports an error exactly if stopping the processes failed.
  */
  lemma UndisturbedClose(s: State, c: Id, x: Store, r: Id, ok: bool)
    requires c !in s.tasks && x !in s.starting && IsUnclaimed(s, x, r)
    ensures var s' := Turns(Step(s, StartClose(c, x)), c, ok, 9);
            && IsDown(s', x, r, Idle) && x !in s'.starting && OthersStay(s, s', x)
            && c in s'.tasks && s'.tasks[c] == Close(x, CloseEnded(ok))
  {
    CloseRuns(Step(s, StartClose(c, x)), c, x, r, ok);
  }

  lemma CloseRuns(s: State, c: Id, x: Store, r: Id, ok: bool)
    requires c in s.tasks && s.tasks[c] == Close(x, TakeSlot) && x !in s.starting && IsUnclaimed(s, x, r)
    ensures var s' := Turns(s, c, ok, 9);
            && IsDown(s', x, r, Idle) && x !in s'.starting && OthersStay(s, s', x)
            && c in s'.tasks && s'.tasks[c] == Close(x, CloseEnded(ok))
  {
    var s3 := Go(Go(Go(s, c, ok), c, ok), c, ok);
    var s7 := Turns(s3, c, ok, 4);
    CloseCleans(s, c, x, r, ok);
    CloseLeaves(s7, c, x, ok);
    var s9 := Go(Go(s7, c, ok), c, ok);
    NineTurns(s, c, ok);
    IsDownAfter(s, s3, s7, s9, c, x, r, Idle);
  }

  lemma CloseCleans(s: State, c: Id, x: Store, r: Id, ok: bool)
    requires c in s.tasks && s.tasks[c] == Close(x, TakeSlot) && x !in s.starting && IsUnclaimed(s, x, r)
    ensures var s3 := Go(Go(Go(s, c, ok), c, ok), c, ok);
            var s7 := Turns(s3, c, ok, 4);
            && s3 == s.(starting := s.starting[x := c], records := s.records[r := s.records[r].(claimed := true)],
                        tasks := s3.tasks)
            && CleanedUp(s3, s7, c, r, Idle) && s7.tasks[c] == Close(x, Releasing(ok)) && s7.starting == s3.starting
  {
    CloseBegins(s, c, x, r, ok);
    CleansUp(Go(Go(Go(s, c, ok), c, ok), c, ok), c, r, Idle, ok);
  }

  /** The claim, the cleanup and the release of the slot, put together. */
  lemma IsDownAfter(s: State, s3: State, s7: State, s9: State, t: Id, x: Store, r: Id, shown: RuntimeState)
    requires IsUnclaimed(s, x, r) && CleanedUp(s3, s7, t, r, shown)
    requires s3 == s.(starting := s3.starting, records := s.records[r := s.records[r].(claimed := true)],
                      tasks := s3.tasks)
    requires forall y :: y != x ==> (y in s.starting <==> y in s3.starting)
    requires forall y :: y != x && y in s.starting ==> s3.starting[y] == s.starting[y]
    requires s9 == s7.(starting := s7.starting - {x}, tasks := s9.tasks)
    ensures IsDown(s9, x, r, shown) && x !in s9.starting && OthersStay(s, s9, x)
  {
  }

  lemma NineTurns(s: State, t: Id, ok: bool)
    ensures var s3 := Go(Go(Go(s, t, ok), t, ok), t, ok);
            Turns(s, t, ok, 9) == Go(Go(Turns(s3, t, ok, 4), t, ok), t, ok)
  {
    var s3 := Go(Go(Go(s, t, ok), t, ok), t, ok);
    assert Turns(s, t, ok, 9) == Turns(s3, t, ok, 6) by {
      assert Turns(s, t, ok, 9) == Turns(Go(s, t, ok), t, ok, 8);
      assert Turns(Go(s, t, ok), t, ok, 8) == Turns(Go(Go(s, t, ok), t, ok), t, ok, 7);
    }
    TurnsAdd(s3, t, ok, 4, 2);
    var s7 := Turns(s3, t, ok, 4);
    assert Turns(s7, t, ok, 2) == Turns(Go(s7, t, ok), t, ok, 1);
  }

  lemma {:induction false} TurnsAdd(s: State, t: Id, ok: bool, m: nat, n: nat)
    ensures Turns(s, t, ok, m + n) == Turns(Turns(s, t, ok, m), t, ok, n)
    decreases m
  {
    if m > 0 { TurnsAdd(Go(s, t, ok), t, ok, m - 1, n); }
  }

  // ---- An exit ----

  /**
    When a process of a running store exits, the handler that runs on undisturbed leaves the store unregistered,
    without a latency and shown as failed. Nobody's slot is touched.
  */
  lemma UndisturbedExit(s: State, e: Id, x: Store, r: Id, ok: bool)
    requires e !in s.tasks && IsUnclaimed(s, x, r) && s.records[r].registered
    ensures var s' := Turns(Step(s, ProcessExited(e, r)), e, ok, 5);
            && IsDown(s', x, r, Failed) && s'.starting == s.starting && OthersStay(s, s', x)
            && e in s'.tasks && s'.tasks[e] == Exit(r, ExitEnded)
  {
    ExitRuns(Step(s, ProcessExited(e, r)), e, x, r, ok);
  }

  lemma ExitRuns(s: State, e: Id, x: Store, r: Id, ok: bool)
    requires e in s.tasks && s.tasks[e] == Exit(r, ExitStart) && IsUnclaimed(s, x, r)
    ensures var s' := Turns(s, e, ok, 5);
            && IsDown(s', x, r, Failed) && s'.starting == s.starting && OthersStay(s, s', x)
            && e in s'.tasks && s'.tasks[e] == Exit(r, ExitEnded)
  {
    var s1 := Go(s, e, ok);
    ClaimTurn(s, e, r, ok);
    CleansUp(s1, e, r, Failed, ok);
    assert Turns(s, e, ok, 5) == Turns(s1, e, ok, 4);
  }

  /** A second handler, or one that comes after a close, finds the record claimed and does nothing. */
  lemma LateExit(s: State, e: Id, r: Id, ok: bool)
    requires e in s.tasks && s.tasks[e] == Exit(r, ExitStart) && r in s.records && s.records[r].claimed
    ensures Go(s, e, ok) == s.(tasks := s.tasks[e := Exit(r, ExitEnded)])
  {
    assert s.records[r := s.records[r].(claimed := true)] == s.records;
  }

  // ---- A launch that fails ----

  /** The launch gives its slot back. */
  lemma LaunchLeaves(s: State, t: Id, ok: bool)
    requires s.IsLaunch(t) && s.tasks[t].pc.Unwinding? && s.tasks[t].store in s.starting
    requires s.starting[s.tasks[t].store] == t
    ensures var x := s.tasks[t].store;
            Go(Go(s, t, ok), t, ok)
            == s.(starting := s.starting - {x}, tasks := s.tasks[t := s.tasks[t].(pc := LaunchEnded)])
  {
    var s1 := Go(s, t, ok);
    assert s1 == s.(starting := s.starting - {s.tasks[t].store}, tasks := s.tasks[t := s.tasks[t].(pc := SlotDropped)]);
  }

  /** A launch that fails before it built its record leaves the store shown as failed, and its slot free. */
  lemma PreparationFails(s: State, t: Id)
    requires s.IsLaunch(t) && s.tasks[t].pc.Preparing? && s.tasks[t].store in s.starting
    requires s.starting[s.tasks[t].store] == t
    ensures var x, s' := s.tasks[t].store, Turns(s, t, false, 3);
            && x in s'.states && s'.states[x] == Failed && x !in s'.starting && OthersStay(s, s', x)
            && s'.running == s.running && s'.records == s.records && s'.latencies == s.latencies
            && t in s'.tasks && s'.tasks[t] == s.tasks[t].(pc := LaunchEnded)
  {
    var s1 := Go(s, t, false);
    PreparationGivesUp(s, t);
    LaunchLeaves(s1, t, false);
    assert Turns(s, t, false, 3) == Turns(s1, t, false, 2) == Turns(Go(s1, t, false), t, false, 1);
  }

  /** A launch that fails while it sets up the store's directories frees its slot and shows nothing. */
  lemma SetUpFails(s: State, t: Id)
    requires s.IsLaunch(t) && s.tasks[t].pc.SettingUp? && s.tasks[t].store in s.starting
    requires s.starting[s.tasks[t].store] == t
    ensures var x := s.tasks[t].store;
            Turns(s, t, false, 3)
            == s.(starting := s.starting - {x}, tasks := s.tasks[t := s.tasks[t].(pc := LaunchEnded)])
  {
    var s1 := Go(s, t, false);
    assert s1 == s.(tasks := s.tasks[t := s.tasks[t].(pc := Unwinding)]);
    LaunchLeaves(s1, t, false);
    assert Turns(s, t, false, 3) == Turns(s1, t, false, 2) == Turns(Go(s1, t, false), t, false, 1);
  }

  lemma PreparationGivesUp(s: State, t: Id)
    requires s.IsLaunch(t) && s.tasks[t].pc.Preparing?
    ensures Go(s, t, false)
            == s.(states := s.states[s.tasks[t].store := Failed], tasks := s.tasks[t := s.tasks[t].(pc := Unwinding)])
  {
  }

  /**
    A launch that fails after it built its record, registered or not, cleans the record up: the store is shown as
    failed, has no latency, is not registered for that record, and its slot is free.
  */
  lemma LaunchFails(s: State, t: Id)
    requires s.IsLaunch(t) && (s.tasks[t].pc.Constructed? || s.tasks[t].pc.Registered? || s.tasks[t].pc.Published?)
    requires var x := s.tasks[t].store;
             && x in s.starting && s.starting[x] == t && t in s.records && s.records[t].store == x
             && !s.records[t].claimed
    ensures var x, s' := s.tasks[t].store, Turns(s, t, false, 8);
            && x in s'.states && s'.states[x] == Failed && x !in s'.latencies && x !in s'.starting
            && s'.running == (if x in s.running && s.running[x] == t then s.running - {x} else s.running)
            && t in s'.records && s'.records[t].completed
            && t in s'.tasks && s'.tasks[t] == s.tasks[t].(pc := LaunchEnded)
  {
    var s1 := Go(s, t, false);
    LaunchGivesUp(s, t);
    var s2 := Go(s1, t, false);
    ClaimTurn(s1, t, t, false);
    CleansUp(s2, t, t, Failed, false);
    LaunchLeaves(Turns(s2, t, false, 4), t, false);
    EightTurns(s, t, false);
  }

  lemma LaunchGivesUp(s: State, t: Id)
    requires s.IsLaunch(t) && (s.tasks[t].pc.Constructed? || s.tasks[t].pc.Registered? || s.tasks[t].pc.Published?)
    ensures Go(s, t, false) == s.(tasks := s.tasks[t := s.tasks[t].(pc := Failing)])
  {
  }

  lemma EightTurns(s: State, t: Id, ok: bool)
    ensures var s2 := Go(Go(s, t, ok), t, ok);
            Turns(s, t, ok, 8) == Go(Go(Turns(s2, t, ok, 4), t, ok), t, ok)
  {
    var s2 := Go(Go(s, t, ok), t, ok);
    assert Turns(s, t, ok, 8) == Turns(s2, t, ok, 6) by {
      assert Turns(s, t, ok, 8) == Turns(Go(s, t, ok), t, ok, 7);
    }
    TurnsAdd(s2, t, ok, 4, 2);
    var s6 := Turns(s2, t, ok, 4);
    assert Turns(s6, t, ok, 2) == Turns(Go(s6, t, ok), t, ok, 1);
  }

  // ---- The other ways a call can go ----

  /** A close that finds nothing registered shows the store as idle and gives the slot back. */
  lemma IdleClose(s: State, c: Id, x: Store, ok: bool)
    requires c !in s.tasks && x !in s.starting && x !in s.running
    ensures var s' := Turns(Step(s, StartClose(c, x)), c, ok, 4);
            && x in s'.states && s'.states[x] == Idle && x !in s'.starting && OthersStay(s, s', x)
            && s'.running == s.running && s'.records == s.records
            && c in s'.tasks && s'.tasks[c] == Close(x, CloseEnded(ok))
  {
    IdleCloseRuns(Step(s, StartClose(c, x)), c, x, ok);
  }

  lemma IdleCloseRuns(s: State, c: Id, x: Store, ok: bool)
    requires c in s.tasks && s.tasks[c] == Close(x, TakeSlot) && x !in s.starting && x !in s.running
    ensures var s' := Turns(s, c, ok, 4);
            && x in s'.states && s'.states[x] == Idle && x !in s'.starting && OthersStay(s, s', x)
            && s'.running == s.running && s'.records == s.records
            && c in s'.tasks && s'.tasks[c] == Close(x, CloseEnded(ok))
  {
    var s2 := Go(Go(s, c, ok), c, ok);
    var s4 := Go(Go(s2, c, ok), c, ok);
    IdleCloseBegins(s, c, x, ok);
    CloseLeaves(s2, c, x, ok);
    FourTurns(s, c, ok);
    assert s4.starting == s.starting[x := c] - {x};
  }

  lemma IdleCloseBegins(s: State, c: Id, x: Store, ok: bool)
    requires c in s.tasks && s.tasks[c] == Close(x, TakeSlot) && x !in s.starting && x !in s.running
    ensures Go(Go(s, c, ok), c, ok)
            == s.(starting := s.starting[x := c], states := s.states[x := Idle],
                  tasks := s.tasks[c := Close(x, Releasing(ok))])
  {
    var s1 := Go(s, c, ok);
    assert s1 == s.(starting := s.starting[x := c], tasks := s.tasks[c := Close(x, Holding)]);
    var s2 := Go(s1, c, ok);
    assert s2 == s1.(states := s.states[x := Idle], tasks := s.tasks[c := Close(x, Releasing(ok))]);
  }

  /** A launch of a store that runs already ends at once and changes nothing, if its processes are alive. */
  lemma LaunchOfRunning(s: State, t: Id, x: Store, r: Id)
    requires t !in s.tasks && !s.draining && IsUnclaimed(s, x, r)
    ensures Turns(Step(s, StartLaunch(t, x)), t, true, 3)
            == s.(tasks := s.tasks[t := Launch(x, s.generation, LaunchEnded)])
  {
    var s0 := Step(s, StartLaunch(t, x));
    var s1 := Go(s0, t, true);
    assert s1 == s.(tasks := s.tasks[t := Launch(x, s.generation, CheckDraining)]);
    var s2 := Go(s1, t, true);
    assert s2 == s.(tasks := s.tasks[t := Launch(x, s.generation, Scan)]);
    assert Turns(s0, t, true, 3) == Turns(s1, t, true, 2) == Turns(s2, t, true, 1);
  }

  /** While a quit-all drains, no launch begins. */
  lemma LaunchWhileDraining(s: State, t: Id, x: Store, ok: bool)
    requires t !in s.tasks && s.draining
    ensures Turns(Step(s, StartLaunch(t, x)), t, ok, 2)
            == s.(tasks := s.tasks[t := Launch(x, s.generation, LaunchEnded)])
  {
    var s0 := Step(s, StartLaunch(t, x));
    var s1 := Go(s0, t, ok);
    assert s1 == s.(tasks := s.tasks[t := Launch(x, s.generation, CheckDraining)]);
    assert Turns(s0, t, ok, 2) == Turns(s1, t, ok, 1);
  }

  /** The poll of a registered record nobody has claimed shows what it measured; any other poll shows nothing. */
  lemma PollShows(s: State, x: Store, r: Id, latency: Option<int>)
    requires r in s.records && s.records[r].store == x && s.records[r].polling
    ensures Step(s, PublishLatency(r, latency))
            == if IsUnclaimedRecord(s, x, r) then s.(latencies := s.latencies[x := latency]) else s
  {
  }

  predicate IsUnclaimedRecord(s: State, x: Store, r: Id) {
    x in s.running && s.running[x] == r && r in s.records && !s.records[r].claimed
  }

  /** While a launch prepares, it shows whatever progress it reports but running; nobody else shows progress. */
  lemma ProgressShows(s: State, t: Id, x: Store, shown: RuntimeState)
    requires t in s.tasks && s.tasks[t].Launch? && s.tasks[t].store == x
    ensures s.tasks[t].pc == Preparing && shown != Running ==>
              Step(s, ShowProgress(t, shown)) == s.(states := s.states[x := shown])
    ensures s.tasks[t].pc != Preparing || shown == Running ==> Step(s, ShowProgress(t, shown)) == s
  {
  }

  /** A launch behind another call waits until that call has ended, and then ends without launching anything. */
  lemma FollowerWaits(s: State, t: Id, x: Store, g: nat, o: Id)
    requires t in s.tasks && s.tasks[t] == Launch(x, g, AwaitSlot(o))
    ensures var over := o in s.tasks && match s.tasks[o]
                                        case Launch(_, _, pc) => pc == LaunchEnded
                                        case Close(_, pc) => pc.CloseEnded?
                                        case Quit(pc) => pc.QuitEnded?
                                        case Exit(_, pc) => pc == ExitEnded;
            Go(s, t, true) == if over then s.(tasks := s.tasks[t := Launch(x, g, LaunchEnded)]) else s
  {
  }

  /** A launch that found a record in cleanup waits until the cleanup is complete, and then looks again. */
  lemma ScannerWaits(s: State, t: Id, x: Store, g: nat, r: Id)
    requires t in s.tasks && s.tasks[t] == Launch(x, g, AwaitCleanup(r))
    ensures Go(s, t, true) == if r in s.records && s.records[r].completed
                              then s.(tasks := s.tasks[t := Launch(x, g, Scan)]) else s
  {
  }

  /** A close that lost the claim waits until the cleanup is complete; it gives its slot back and reports no error. */
  lemma LosingClose(s: State, c: Id, x: Store, r: Id, ok: bool)
    requires c in s.tasks && s.tasks[c] == Close(x, AwaitRecord(r)) && x in s.starting && s.starting[x] == c
    requires r in s.records
    ensures !s.records[r].completed ==> Go(s, c, ok) == s
    ensures s.records[r].completed ==>
              Go(Go(Go(s, c, ok), c, ok), c, ok)
              == s.(starting := s.starting - {x}, tasks := s.tasks[c := Close(x, CloseEnded(true))])
  {
    if s.records[r].completed {
      var s1 := Go(s, c, ok);
      assert s1 == s.(tasks := s.tasks[c := Close(x, Releasing(true))]);
      var s2 := Go(s1, c, ok);
      assert s2 == s1.(starting := s.starting - {x}, tasks := s.tasks[c := Close(x, CloseSlotDropped(true))]);
    }
  }

  // ---- Cancellation ----

  predicate IsRegistered(s: State, t: Id) { t in s.records && s.records[t].registered }

  /** A close that finds the store's slot taken by a launch cancels it before it waits for it. */
  lemma CloseCancels(s: State, c: Id, x: Store, o: Id, ok: bool)
    requires c in s.tasks && s.tasks[c] == Close(x, TakeSlot) && x in s.starting && s.starting[x] == o
    ensures var s' := Turns(s, c, ok, 2);
            s'.cancelled == s.cancelled + {o} && c in s'.tasks && s'.tasks[c] == Close(x, AwaitOther(o))
  {
    var s1 := Go(s, c, ok);
    assert Turns(s, c, ok, 2) == Turns(s1, c, ok, 1);
  }

  lemma CancelledLaunchStep(s: State, t: Id, u: Id, ok: bool)
    requires t in s.cancelled && !IsRegistered(s, t) && s.IsLaunch(u) && !s.tasks[u].pc.IsEntry()
    requires LaunchFits(s.records, u, s.tasks[u].pc)
    ensures !IsRegistered(OwnedStep(s, u, ok), t) && OwnedStep(s, u, ok).cancelled == s.cancelled
  {
    match s.tasks[u].pc
    case SettingUp =>
    case Preparing =>
    case Constructed =>
    case Registered =>
    case Published =>
    case _ =>
  }

  /** The step registers no record and takes no cancellation back. */
  ghost predicate RegistersNone(s: State, s': State) { s'.records == s.records && s.cancelled <= s'.cancelled }

  lemma BeginRegistersNone(s: State, t: Id, ok: bool)
    requires s.IsLaunch(t)
    requires var pc := s.tasks[t].pc; pc.ReadGeneration? || pc.CheckDraining? || pc.Scan? || pc.AwaitCleanup?
    ensures RegistersNone(s, EntryStep(s, t, ok))
  {
  }

  lemma GateRegistersNone(s: State, t: Id, ok: bool)
    requires s.IsLaunch(t)
    requires var pc := s.tasks[t].pc; pc.WantGate? || pc.InGate? || pc.Admitted?
    ensures RegistersNone(s, EntryStep(s, t, ok))
  {
  }

  lemma SlotRegistersNone(s: State, t: Id, ok: bool)
    requires s.IsLaunch(t)
    requires var pc := s.tasks[t].pc; pc.WonSlot? || pc.LostSlot? || pc.AwaitSlot?
    ensures RegistersNone(s, EntryStep(s, t, ok))
  {
  }

  lemma EntryRegistersNone(s: State, t: Id, ok: bool)
    requires s.IsLaunch(t) && s.tasks[t].pc.IsEntry()
    ensures RegistersNone(s, EntryStep(s, t, ok))
  {
    var pc := s.tasks[t].pc;
    if pc.WantGate? || pc.InGate? || pc.Admitted? {
      GateRegistersNone(s, t, ok);
    } else if pc.WonSlot? || pc.LostSlot? || pc.AwaitSlot? {
      SlotRegistersNone(s, t, ok);
    } else {
      BeginRegistersNone(s, t, ok);
    }
  }

  lemma ScanRegistersNone(s: State, t: Id, ok: bool, spawned: Id)
    requires s.IsLaunch(t)
    ensures RegistersNone(s, ScanStep(s, t, ok, spawned))
  {
  }

  lemma TakingRegistersNone(s: State, c: Id, ok: bool)
    requires c in s.tasks && s.tasks[c].Close?
    requires s.tasks[c].cpc.TakeSlot? || s.tasks[c].cpc.CancelOther? || s.tasks[c].cpc.AwaitOther?
    ensures RegistersNone(s, CloseStep(s, c, ok))
  {
  }

  lemma HoldingRegistersNone(s: State, c: Id, ok: bool)
    requires c in s.tasks && s.tasks[c].Close?
    requires !(s.tasks[c].cpc.TakeSlot? || s.tasks[c].cpc.CancelOther? || s.tasks[c].cpc.AwaitOther?)
    ensures RegistersNone(s, CloseStep(s, c, ok))
  {
  }

  lemma CloseRegistersNone(s: State, c: Id, ok: bool)
    requires c in s.tasks && s.tasks[c].Close?
    ensures RegistersNone(s, CloseStep(s, c, ok))
  {
    if s.tasks[c].cpc.TakeSlot? || s.tasks[c].cpc.CancelOther? || s.tasks[c].cpc.AwaitOther? {
      TakingRegistersNone(s, c, ok);
    } else {
      HoldingRegistersNone(s, c, ok);
    }
  }

  lemma DrainRegistersNone(s: State, q: Id, next: Store, closer: Id)
    requires q in s.tasks && s.tasks[q].Quit?
    requires var pc := s.tasks[q].qpc; pc.QuitWantGate? || pc.Bump? || pc.Drain? || pc.SnapStarting? || pc.SnapRunning?
    ensures RegistersNone(s, QuitStep(s, q, next, closer))
  {
  }

  lemma QuitRegistersNone(s: State, q: Id, next: Store, closer: Id)
    requires q in s.tasks && s.tasks[q].Quit?
    ensures RegistersNone(s, QuitStep(s, q, next, closer))
  {
    var pc := s.tasks[q].qpc;
    if pc.QuitWantGate? || pc.Bump? || pc.Drain? || pc.SnapStarting? || pc.SnapRunning? {
      DrainRegistersNone(s, q, next, closer);
    } else if pc.Closing? || pc.AwaitClose? {
      ClosingRegistersNone(s, q, next, closer);
    } else {
      ResetRegistersNone(s, q, next, closer);
    }
  }

  lemma ClosingRegistersNone(s: State, q: Id, next: Store, closer: Id)
    requires q in s.tasks && s.tasks[q].Quit? && (s.tasks[q].qpc.Closing? || s.tasks[q].qpc.AwaitClose?)
    ensures RegistersNone(s, QuitStep(s, q, next, closer))
  {
  }

  lemma ResetRegistersNone(s: State, q: Id, next: Store, closer: Id)
    requires q in s.tasks && s.tasks[q].Quit?
    requires s.tasks[q].qpc.Reset? || s.tasks[q].qpc.ReleaseGate? || s.tasks[q].qpc.QuitEnded?
    ensures RegistersNone(s, QuitStep(s, q, next, closer))
  {
  }

  lemma CancelledTaskStep(s: State, a: Action, t: Id)
    requires RecordInv(s) && t in s.cancelled && !IsRegistered(s, t) && (a.StepLaunch? || a.StepClose? || a.StepQuit?)
    ensures t in Step(s, a).cancelled && !IsRegistered(Step(s, a), t)
  {
    if a.StepLaunch? {
      if s.IsLaunch(a.t) {
        if s.tasks[a.t].pc.Scan? {
          ScanRegistersNone(s, a.t, a.ok, a.spawned);
        } else if s.tasks[a.t].pc.IsEntry() {
          EntryRegistersNone(s, a.t, a.ok);
        } else {
          assert Fits(s.records, a.t, s.tasks[a.t]);
          CancelledLaunchStep(s, t, a.t, a.ok);
        }
      }
    } else if a.StepClose? {
      if a.t in s.tasks && s.tasks[a.t].Close? { CloseRegistersNone(s, a.t, a.ok); }
    } else if a.t in s.tasks && s.tasks[a.t].Quit? {
      QuitRegistersNone(s, a.t, a.next, a.closer);
    }
  }

  lemma CancelledRaceStep(s: State, a: Action, t: Id)
    requires t in s.cancelled && !IsRegistered(s, t) && !a.StepLaunch? && !a.StepClose? && !a.StepQuit?
    ensures t in Step(s, a).cancelled && !IsRegistered(Step(s, a), t)
  {
    if a.StepCleanup? && s.JobOf(a.t).Some? && s.JobOf(a.t).value.record in s.records {
      CleanEffect(s, CleanStep(s, a.t, a.ok), a.t, s.JobOf(a.t).value, a.ok);
    }
  }

  lemma CancelledStep(s: State, a: Action, t: Id)
    requires RecordInv(s) && t in s.cancelled && !IsRegistered(s, t)
    ensures t in Step(s, a).cancelled && !IsRegistered(Step(s, a), t)
  {
    if a.StepLaunch? || a.StepClose? || a.StepQuit? { CancelledTaskStep(s, a, t); } else { CancelledRaceStep(s, a, t); }
  }

  /** A launch that was cancelled before it registered its store never does, however the run goes on. */
  lemma {:induction false} CancelledNeverRegisters(s: State, more: seq<Action>, t: Id)
    requires Inv(s) && t in s.cancelled && !IsRegistered(s, t)
    ensures t in Run(s, more).cancelled && !IsRegistered(Run(s, more), t)
    decreases |more|
  {
    if more == [] {
      assert Run(s, more) == s;
    } else {
      StepKeeps(s, more[0]);
      CancelledStep(s, more[0], t);
      CancelledNeverRegisters(Step(s, more[0]), more[1..], t);
    }
  }

  /** Once its caller cancels a launch that has not registered its store, it never does. */
  lemma CancelledByCaller(s: State, more: seq<Action>, t: Id)
    requires Inv(s) && !IsRegistered(s, t)
    ensures !IsRegistered(Run(Step(s, CancelLaunch(t)), more), t)
  {
    StepKeeps(s, CancelLaunch(t));
    CancelledNeverRegisters(Step(s, CancelLaunch(t)), more, t);
  }

  // ---- While a quit-all drains ----

  /** The quit-all is between its raising of the draining flag and its lowering of it. */
  predicate Drains(s: State, q: Id) {
    && q in s.tasks && s.tasks[q].Quit?
    && match s.tasks[q].qpc
       case QuitWantGate => false
       case Bump => false
       case Drain => false
       case ReleaseGate(_) => false
       case QuitEnded(_) => false
       case _ => true
  }

  ghost predicate DrainInv(s: State) { s.draining <==> s.gate.Some? && Drains(s, s.gate.value) }

  /** No other task has moved, and nobody has taken the gate from anybody. */
  ghost predicate QuitsStay(s: State, s': State, t: Id) {
    && s'.draining == s.draining && t in s'.tasks && !s'.tasks[t].Quit?
    && (forall k :: k in s.tasks && k != t ==> k in s'.tasks && s'.tasks[k] == s.tasks[k])
    && (s'.gate == s.gate || (s.gate.None? && s'.gate == Some(t)) || (s.gate == Some(t) && s'.gate.None?))
  }

  lemma StayingKeepsDrain(s: State, s': State, t: Id)
    requires GateInv(s) && DrainInv(s) && QuitsStay(s, s', t) && t in s.tasks && !s.tasks[t].Quit?
    ensures DrainInv(s')
  {
  }

  lemma PlainStays(s: State, s': State, t: Id)
    requires GateInv(s) && PlainStep(s, s', t) && !s.tasks[t].Quit?
    ensures QuitsStay(s, s', t)
  {
  }

  lemma EntryStays(s: State, t: Id, ok: bool)
    requires Inv(s) && s.IsLaunch(t) && s.tasks[t].pc.IsEntry() && !s.tasks[t].pc.Scan?
    ensures QuitsStay(s, EntryStep(s, t, ok), t)
  {
    EntryIsPlain(s, t, ok);
    PlainStays(s, EntryStep(s, t, ok), t);
  }

  lemma ScanStays(s: State, t: Id, ok: bool, spawned: Id)
    requires s.IsLaunch(t)
    ensures QuitsStay(s, ScanStep(s, t, ok, spawned), t)
  {
  }

  lemma OwnedStays(s: State, t: Id, ok: bool)
    requires Inv(s) && s.IsLaunch(t) && !s.tasks[t].pc.IsEntry()
    ensures QuitsStay(s, OwnedStep(s, t, ok), t)
  {
    if s.tasks[t].pc.OwnCleanup? {
      assert OwnedStep(s, t, ok) == s;
    } else {
      OwnedIsPlain(s, t, ok);
      PlainStays(s, OwnedStep(s, t, ok), t);
    }
  }

  lemma LaunchStays(s: State, t: Id, ok: bool, spawned: Id)
    requires Inv(s) && s.IsLaunch(t)
    ensures QuitsStay(s, LaunchStep(s, t, ok, spawned), t)
  {
    if s.tasks[t].pc.Scan? {
      ScanStays(s, t, ok, spawned);
    } else if s.tasks[t].pc.IsEntry() {
      EntryStays(s, t, ok);
    } else {
      OwnedStays(s, t, ok);
    }
  }

  lemma CloseStays(s: State, c: Id, ok: bool)
    requires Inv(s) && c in s.tasks && s.tasks[c].Close?
    ensures QuitsStay(s, CloseStep(s, c, ok), c)
  {
    if s.tasks[c].cpc.CloseCleanup? {
      assert CloseStep(s, c, ok) == s;
    } else {
      CloseIsPlain(s, c, ok);
      PlainStays(s, CloseStep(s, c, ok), c);
    }
  }

  lemma ClaimStays(s: State, t: Id)
    requires t in s.tasks && s.tasks[t].Wants(t).Some? && s.tasks[t].Wants(t).value in s.records
    ensures QuitsStay(s, ClaimStep(s, t), t) && !s.tasks[t].Quit?
  {
  }

  lemma CleanStays(s: State, t: Id, ok: bool)
    requires s.JobOf(t).Some? && s.JobOf(t).value.record in s.records
    ensures QuitsStay(s, CleanStep(s, t, ok), t) && !s.tasks[t].Quit?
  {
  }

  lemma QuitBeginsDrain(s: State, q: Id, next: Store, closer: Id)
    requires GateInv(s) && DrainInv(s) && q in s.tasks && s.tasks[q].Quit?
    requires var pc := s.tasks[q].qpc; pc.QuitWantGate? || pc.Bump? || pc.Drain? || pc.SnapStarting? || pc.SnapRunning?
    ensures DrainInv(QuitStep(s, q, next, closer))
  {
  }

  lemma QuitEndsDrain(s: State, q: Id, next: Store, closer: Id)
    requires GateInv(s) && DrainInv(s) && q in s.tasks && s.tasks[q].Quit?
    requires var pc := s.tasks[q].qpc;
             pc.Closing? || pc.AwaitClose? || pc.Reset? || pc.ReleaseGate? || pc.QuitEnded?
    ensures DrainInv(QuitStep(s, q, next, closer))
  {
  }

  lemma QuitKeepsDrain(s: State, q: Id, next: Store, closer: Id)
    requires GateInv(s) && DrainInv(s) && q in s.tasks && s.tasks[q].Quit?
    ensures DrainInv(QuitStep(s, q, next, closer))
  {
    var pc := s.tasks[q].qpc;
    if pc.QuitWantGate? || pc.Bump? || pc.Drain? || pc.SnapStarting? || pc.SnapRunning? {
      QuitBeginsDrain(s, q, next, closer);
    } else {
      QuitEndsDrain(s, q, next, closer);
    }
  }

  lemma StepKeepsDrain(s: State, a: Action)
    requires Inv(s) && DrainInv(s)
    ensures DrainInv(Step(s, a))
  {
    match a
    case StepLaunch(t, ok, spawned) =>
      if s.IsLaunch(t) {
        LaunchStays(s, t, ok, spawned);
        StayingKeepsDrain(s, LaunchStep(s, t, ok, spawned), t);
      }
    case StepClose(t, ok) =>
      if t in s.tasks && s.tasks[t].Close? {
        CloseStays(s, t, ok);
        StayingKeepsDrain(s, CloseStep(s, t, ok), t);
      }
    case StepQuit(t, next, closer) => if t in s.tasks && s.tasks[t].Quit? { QuitKeepsDrain(s, t, next, closer); }
    case TryClaim(t) =>
      if t in s.tasks && s.tasks[t].Wants(t).Some? && s.tasks[t].Wants(t).value in s.records {
        ClaimStays(s, t);
        StayingKeepsDrain(s, ClaimStep(s, t), t);
      }
    case StepCleanup(t, ok) =>
      if s.JobOf(t).Some? && s.JobOf(t).value.record in s.records {
        CleanStays(s, t, ok);
        StayingKeepsDrain(s, CleanStep(s, t, ok), t);
      }
    case _ => OtherKeepsDrain(s, a);
  }

  lemma OtherKeepsDrain(s: State, a: Action)
    requires GateInv(s) && DrainInv(s)
    requires !a.StepLaunch? && !a.StepClose? && !a.StepQuit? && !a.TryClaim? && !a.StepCleanup?
    ensures DrainInv(Step(s, a))
  {
  }

  lemma {:induction false} RunKeepsDrain(s: State, schedule: seq<Action>)
    requires Inv(s) && DrainInv(s)
    ensures DrainInv(Run(s, schedule))
    decreases |schedule|
  {
    if schedule == [] {
      assert Run(s, schedule) == s;
    } else {
      StepKeeps(s, schedule[0]);
      StepKeepsDrain(s, schedule[0]);
      RunKeepsDrain(Step(s, schedule[0]), schedule[1..]);
    }
  }

  /** Launches are turned away as draining exactly while a quit-all that holds the gate has raised the flag. */
  lemma DrainingExactly(schedule: seq<Action>)
    ensures var s := Run(INITIAL, schedule); s.draining <==> s.gate.Some? && Drains(s, s.gate.value)
  {
    assert Inv(INITIAL);
    RunKeepsDrain(INITIAL, schedule);
  }

  /** A quit-all that has ended has left neither the flag nor the gate to itself. */
  lemma QuitLeaves(s: State, q: Id, ok: bool, next: Store, closer: Id)
    requires q in s.tasks && s.tasks[q] == Quit(Reset(ok))
    ensures Step(Step(s, StepQuit(q, next, closer)), StepQuit(q, next, closer))
            == s.(draining := false, gate := None, tasks := s.tasks[q := Quit(QuitEnded(ok))])
  {
    var s1 := Step(s, StepQuit(q, next, closer));
    assert s1 == s.(draining := false, tasks := s.tasks[q := Quit(ReleaseGate(ok))]);
  }
}
