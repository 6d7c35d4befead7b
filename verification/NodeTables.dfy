/**
  The handlers of the node lifecycle, on the rows that they update in place. Beside the rows the class
  keeps the world they belong to, which some run of events has led to: whatever is proved of reachable
  worlds holds of the rows.
*/
module NodeTables {
  import opened Common
  import opened NodeLifecycle
  import opened NodeLifecycleProofs

  class Tables {
    var regs: map<RequestId, Registration>
    var enrs: map<EnrollmentId, Enrollment>
    var nodes: map<NodeId, bool>
    ghost var world: World

    ghost predicate Valid()
      reads this
    {
      regs == world.regs && enrs == world.enrs && nodes == world.nodes && Reachable(world)
    }

    constructor ()
      ensures Valid() && world == EMPTY
    {
      regs, enrs, nodes, world := map[], map[], map[], EMPTY;
      new;
      assert EMPTY == Run(EMPTY, []);
    }

    /** The conditional update of prove: a challenge works once, and only for a request that is undecided. */
    method Prove(ghost h: Handle, q: RequestId, challenge: Secret, readAt: nat, ghost now: nat) returns (ok: bool)
      requires Valid() && h in world.open && world.open[h] == Proving(q, challenge, readAt) && world.now <= now
      modifies this
      ensures Valid() && world == Step(old(world), Commit(h, 0, 0, now))
      ensures ok ==> q !in world.accepted && q !in world.rejected
      ensures ok ==> q in regs && regs[q].proved && regs[q].challenge != Some(challenge)
      ensures q in regs && regs[q].challenge == Some(challenge) ==> !regs[q].status.PendingProof?
      ensures ok <==> q in old(regs) && old(regs)[q].status == PendingProof && old(regs)[q].challenge == Some(challenge)
      ensures enrs == old(enrs) && nodes == old(nodes)
      ensures regs == if ok
                      then old(regs)[q := old(regs)[q].(status := PendingApproval, challenge := None, proved := true,
                                                        expiresAt := readAt + 24 * 3600 * 1_000_000,
                                                        updatedAt := readAt)]
                      else old(regs)
    {
      ProveStep(world, h, q, challenge, readAt, now);
      ok := q in regs && regs[q].status.PendingProof? && regs[q].challenge == Some(challenge);
      if ok {
        regs := regs[q := regs[q].(status := PendingApproval, challenge := None, proved := true,
                                   expiresAt := readAt + 24 * 60 * MINUTES, updatedAt := readAt)];
      }
      world := Step(world, Commit(h, 0, 0, now));
    }

    /** The conditional update of accept: it takes effect once, never after a rejection, on a node of its own. */
    method Accept(ghost h: Handle, q: RequestId, n: NodeId, x: EnrollmentId, secret: nat, now: nat) returns (ok: bool)
      requires Valid() && h in world.open && world.open[h] == Accepting(q) && world.now <= now
      requires secret == world.nextSecret && n !in nodes && x !in world.knownEnrollments
      modifies this
      ensures Valid() && world == Step(old(world), Commit(h, n, x, now))
      ensures ok <==> q !in old(world).accepted && q in world.accepted
      ensures q in old(world).accepted || q in old(world).rejected ==> !ok
      ensures ok ==> AloneOn(world, n, x, q)
      ensures ok <==> q in old(regs) && old(regs)[q].status == PendingApproval && old(regs)[q].proved
      ensures !ok ==> regs == old(regs) && enrs == old(enrs) && nodes == old(nodes)
      ensures ok ==>
                && regs == old(regs)[q := old(regs)[q].(
                             status := Approved, challenge := Some(ClaimChallenge(q, old(regs)[q].token)),
                             node := Some(n), expiresAt := now + 15 * 60 * 1_000_000, updatedAt := now)]
                && enrs == old(enrs)[x := Enrollment(n, Drawn(secret), Some(ReportToken(old(regs)[q].token, x)),
                                                     Claimed, now + 2 * 3600 * 1_000_000, true)]
                && nodes == old(nodes)[n := false]
    {
      AcceptStep(world, h, q, n, x, now);
      ok := q in regs && regs[q].status.PendingApproval? && regs[q].proved;
      if ok {
        enrs := enrs[x := Enrollment(n, Drawn(secret), Some(ReportToken(regs[q].token, x)), Claimed,
                                     now + 120 * MINUTES, true)];
        regs := regs[q := regs[q].(status := Approved, challenge := Some(ClaimChallenge(q, regs[q].token)),
                                   node := Some(n), expiresAt := now + 15 * MINUTES, updatedAt := now)];
        nodes := nodes[n := false];
      }
      world := Step(world, Commit(h, n, x, now));
    }

    /** Claim-approved works at most once per request; the enrollment is saved over whatever it is by now. */
    method ClaimApproved(ghost h: Handle, q: RequestId, token: Secret, challenge: Secret, x: EnrollmentId, r: EnrWrite,
                         readAt: nat, ghost now: nat) returns (ok: bool)
      requires Valid() && h in world.open && world.open[h] == Claiming(q, token, challenge, x, r, readAt)
      requires world.now <= now
      modifies this
      ensures Valid() && world == Step(old(world), Commit(h, 0, 0, now))
      ensures ok <==> world.claims[q] == old(world).claims[q] + 1
      ensures old(world).claims[q] > 0 ==> !ok
      ensures ok ==> q in world.accepted && q in regs && regs[q].token.None?
      ensures nodes == old(nodes) && (!ok ==> regs == old(regs) && enrs == old(enrs))
      ensures ok ==>
                && q in old(regs) && x in old(enrs)
                && regs == old(regs)[q := old(regs)[q].(status := RegInstalling, token := None, challenge := None,
                                                        updatedAt := readAt)]
                && enrs == old(enrs)[x := r.Onto(old(enrs)[x])]
    {
      ClaimStep(world, h, q, now);
      ok := q in regs && regs[q].status.Approved? && regs[q].token == Some(token)
            && regs[q].challenge == Some(challenge) && x in enrs;
      if ok {
        regs := regs[q := regs[q].(status := RegInstalling, token := None, challenge := None, updatedAt := readAt)];
        enrs := enrs[x := r.Onto(enrs[x])];
      }
      world := Step(world, Commit(h, 0, 0, now));
    }

    /** An enrollment token works once: what is spent is refused, and spending it puts another in its place. */
    method ClaimEnrollment(ghost h: Handle, x: EnrollmentId, token: Secret, secret: nat, readAt: nat, ghost now: nat)
      returns (ok: bool)
      requires Valid() && h in world.open && world.open[h] == Enrolling(x, token, readAt) && world.now <= now
      requires secret == world.nextSecret
      modifies this
      ensures Valid() && world == Step(old(world), Commit(h, 0, 0, now))
      ensures token in old(world).consumed ==> !ok
      ensures ok ==> world.consumed[token] == 1 && IsGone(world, token)
      ensures ok <==> && x in old(enrs) && old(enrs)[x].status == Pending && !old(enrs)[x].claimed
                      && old(enrs)[x].token == token
      ensures regs == old(regs) && nodes == old(nodes)
      ensures enrs == if ok then old(enrs)[x := old(enrs)[x].(
                                   status := Claimed, claimed := true, expiresAt := readAt + 30 * 60 * 1_000_000,
                                   token := Drawn(secret), report := Some(Drawn(secret + 1)))]
                      else old(enrs)
    {
      EnrollStep(world, h, x, token, readAt, now);
      ok := x in enrs && enrs[x].status.Pending? && !enrs[x].claimed && enrs[x].token == token;
      if ok {
        enrs := enrs[x := enrs[x].(status := Claimed, claimed := true, expiresAt := readAt + 30 * MINUTES,
                                   token := Drawn(secret), report := Some(Drawn(secret + 1)))];
      }
      world := Step(world, Commit(h, 0, 0, now));
    }

    /** The first half of a report; the registration is looked up by the node, which has at most one. */
    method ReadReport(ghost h: Handle, x: EnrollmentId, token: Secret, phase: Phase, now: nat)
      returns (work: Option<Work>)
      requires Valid() && h !in world.open && world.now <= now
      modifies this`world
      ensures Valid() && world == Step(old(world), ReportRead(h, x, token, phase, now))
      ensures work.Some? ==> h in world.open && world.open[h] == Saving(work.value)
      ensures work.None? ==> world.open == old(world).open
    {
      ReportStep(world, h, x, token, phase, now);
      if x !in enrs || enrs[x].report != Some(token) || enrs[x].expiresAt <= now
         || enrs[x].status.Revoked? || enrs[x].status.Expired? || enrs[x].status.Online? {
        work := None;
      } else {
        var row := enrs[x];
        var regWrites := LookUp(row.node, phase, now);
        work := Some(Work(map[x := EnrWrite(row, row.(status := EnrStatusOf(phase)))], regWrites,
                          if phase.PhaseReady? then Switch(nodes, row.node, true) else map[], {}));
      }
      world := Step(world, ReportRead(h, x, token, phase, now));
    }

    /** The registration of the node, if it has one, and what a report makes of it. */
    method LookUp(n: NodeId, phase: Phase, now: nat) returns (writes: map<RequestId, RegWrite>)
      requires Valid()
      ensures writes == ReportedRegs(regs, n, phase, now)
    {
      BindingFact(world);
      writes := map[];
      if exists q :: q in regs && regs[q].node == Some(n) {
        var q :| q in regs && regs[q].node == Some(n);
        writes := map[q := RegWrite(regs[q], regs[q].(status := RegStatusOf(phase), updatedAt := now))];
      }
    }

    /** The nodes that a pass of the monitor will probe: those enabled when it begins. */
    method ListNodes(ghost h: Handle, now: nat) returns (left: set<NodeId>)
      requires Valid() && h !in world.open && world.now <= now
      modifies this`world
      ensures Valid() && world == Step(old(world), MonitorRead(h, now)) && left == EnabledNodes(nodes)
      ensures world.open == old(world).open[h := Watching(left, NO_WORK)]
    {
      PassStep(world, h, now);
      left := set n | n in nodes && nodes[n];
      world := Step(world, MonitorRead(h, now));
    }

    /** A node has been probed: its rows are looked up, and what the pass will save grows by them. */
    method ReadMonitor(ghost h: Handle, ghost left: set<NodeId>, work: Work, n: NodeId, health: Health, now: nat)
      returns (more: Work)
      requires Valid() && h in world.open && world.open[h] == Watching(left, work) && n in left && world.now <= now
      modifies this`world
      ensures Valid() && world == Step(old(world), MonitorProbe(h, n, health, now))
      ensures world.open == old(world).open[h := Watching(left - {n}, more)]
      ensures more == work.And(NodeWork(enrs, regs, n, health, now))
    {
      ProbeStep(world, h, n, health, now);
      var enrWrites := WatchedEnrollment(n, health);
      var regWrites := WatchedRegistration(n, health, now);
      more := work.And(NO_WORK.(enrs := enrWrites, regs := regWrites));
      world := Step(world, MonitorProbe(h, n, health, now));
    }

    method WatchedEnrollment(n: NodeId, health: Health) returns (writes: map<EnrollmentId, EnrWrite>)
      requires Valid()
      ensures writes == MonitoredEnrs(enrs, n, health)
    {
      BindingFact(world);
      writes := map[];
      if exists x :: x in enrs && enrs[x].node == n && Watched(enrs[x].status) {
        var x :| x in enrs && enrs[x].node == n && Watched(enrs[x].status);
        writes := map[x := EnrWrite(enrs[x], MonitorEnr(enrs[x], health))];
      }
    }

    method WatchedRegistration(n: NodeId, health: Health, now: nat) returns (writes: map<RequestId, RegWrite>)
      requires Valid()
      ensures writes == MonitoredRegs(regs, n, health, now)
    {
      BindingFact(world);
      writes := map[];
      if exists q :: q in regs && regs[q].node == Some(n) && WatchedReg(regs[q].status) {
        var q :| q in regs && regs[q].node == Some(n) && WatchedReg(regs[q].status);
        writes := map[q := RegWrite(regs[q], MonitorReg(regs[q], health, now))];
      }
    }

    /** The commit of a handler that saves rows: all of them or none. */
    method Flush(ghost h: Handle, work: Work, now: nat) returns (ok: bool)
      requires Valid() && h in world.open && world.now <= now
      requires world.open[h] == Saving(work) || world.open[h] == Watching({}, work)
      modifies this
      ensures Valid() && world == Step(old(world), Commit(h, 0, 0, now)) && world.open == old(world).open - {h}
      ensures ok <==> MaySave(old(world), work)
      ensures enrs == (if ok then SavedEnrs(old(enrs), work) else old(enrs))
      ensures regs == (if ok then SavedRegs(old(regs), work) else old(regs))
      ensures nodes == (if ok then old(nodes) + work.nodes else old(nodes))
    {
      SaveStep(world, h, work, now);
      ok := work.enrs.Keys <= enrs.Keys && work.regs.Keys <= regs.Keys && work.nodes.Keys <= nodes.Keys;
      if ok {
        SaveEnrollments(work);
        SaveRegistrations(work);
        nodes := nodes + work.nodes;
      }
      world := Step(world, Commit(h, 0, 0, now));
    }

    /**
      In each row only the columns that the handler set are written. A status it did not set stays, a token or
      report token it did not set stays.
    */
    method SaveAll(ghost h: Handle, work: Work, now: nat) returns (ok: bool)
      requires Valid() && h in world.open && world.now <= now
      requires world.open[h] == Saving(work) || world.open[h] == Watching({}, work)
      modifies this
      ensures Valid() && world == Step(old(world), Commit(h, 0, 0, now))
      ensures ok <==> MaySave(old(world), work)
      ensures !ok ==> regs == old(regs) && enrs == old(enrs) && nodes == old(nodes)
      ensures forall x :: x in old(enrs) && (x !in work.enrs || !work.enrs[x].SetsStatus()) ==>
                enrs[x].status == old(enrs)[x].status
      ensures forall x :: x in old(enrs) && (x !in work.enrs || !work.enrs[x].SetsToken()) ==>
                enrs[x].token == old(enrs)[x].token
    {
      ok := Flush(h, work, now);
    }

    /** The pass behind `h` has yet to probe `left` of the nodes listed, and is going to save `work`. */
    ghost predicate Passing(h: Handle, before: map<Handle, Operation>, listed: set<NodeId>, left: set<NodeId>,
                            work: Work, health: map<NodeId, Health>, now: nat)
      reads this
    {
      && Valid() && world.now == now && left <= listed <= health.Keys && world.open == before[h := Watching(left, work)]
      && IsPassWork(work, enrs, regs, listed - left, health, now)
    }

    method Probed(ghost h: Handle, ghost left: set<NodeId>, work: Work, n: NodeId, health: Health, now: nat)
      returns (more: Work)
      requires Valid() && h in world.open && world.open[h] == Watching(left, work) && n in left && world.now == now
      modifies this`world
      ensures Valid() && world.now == now && world.open == old(world).open[h := Watching(left - {n}, more)]
      ensures more == work.And(NodeWork(enrs, regs, n, health, now))
    {
      ProbeStep(world, h, n, health, now);
      more := ReadMonitor(h, left, work, n, health, now);
    }

    method ProbeNext(ghost h: Handle, ghost before: map<Handle, Operation>, ghost listed: set<NodeId>,
                     left: set<NodeId>, work: Work, health: map<NodeId, Health>, now: nat)
      returns (rest: set<NodeId>, more: Work)
      requires Passing(h, before, listed, left, work, health, now) && left != {}
      modifies this`world
      ensures Passing(h, before, listed, rest, more, health, now) && |rest| < |left|
    {
      var n :| n in left;
      more := Probed(h, left, work, n, health[n], now);
      rest := left - {n};
      OneLess(work, enrs, regs, listed, left, n, health, now);
      SameHandle(before, h, Watching(left, work), Watching(rest, more));
    }

    /** A pass up to its commit: the enabled nodes are listed once, each is probed and its rows are read. */
    method ProbeAll(ghost h: Handle, health: map<NodeId, Health>, now: nat) returns (work: Work)
      requires Valid() && h !in world.open && world.now <= now
      requires forall n :: n in nodes && nodes[n] ==> n in health
      modifies this`world
      ensures Passing(h, old(world).open, EnabledNodes(nodes), {}, work, health, now)
    {
      var listed := ListNodes(h, now);
      var left := listed;
      work := NO_WORK;
      NothingDone(enrs, regs, listed, health, now);
      while left != {}
        invariant Passing(h, old(world).open, listed, left, work, health, now)
        decreases |left|
      {
        var rest;
        rest, work := ProbeNext(h, old(world).open, listed, left, work, health, now);
        left := rest;
      }
    }

    /** The commit of a pass. */
    method SavePass(ghost h: Handle, ghost before: map<Handle, Operation>, work: Work,
                    ghost health: map<NodeId, Health>, now: nat) returns (ok: bool)
      requires h !in before && Passing(h, before, EnabledNodes(nodes), {}, work, health, now)
      modifies this
      ensures Valid() && ok && nodes == old(nodes) && world.open == before
      ensures enrs == SavedEnrs(old(enrs), work) && regs == SavedRegs(old(regs), work)
    {
      ClosesPass(before, h, work);
      PassFits(work, enrs, regs, EnabledNodes(nodes), health, now);
      ok := Flush(h, work, now);
      assert nodes == old(nodes) + map[];
    }

    /**
      `run_once`: a pass and its commit. With nothing in between, the watched rows of the enabled nodes move as
      the health of their node says, all in one commit, and nothing else does.
    */
    method RunOnce(ghost h: Handle, health: map<NodeId, Health>, now: nat) returns (ok: bool)
      requires Valid() && h !in world.open && world.now <= now
      requires forall n :: n in nodes && nodes[n] ==> n in health
      modifies this
      ensures Valid() && ok && nodes == old(nodes) && world.open == old(world).open
      ensures enrs.Keys == old(enrs).Keys && forall x :: x in enrs ==> EnrPassed(old(enrs)[x], enrs[x], nodes, health)
      ensures regs.Keys == old(regs).Keys
      ensures forall q :: q in regs ==> RegPassed(old(regs)[q], regs[q], nodes, health, now)
    {
      var work := ProbeAll(h, health, now);
      PassSaves(work, enrs, regs, nodes, health, now);
      ok := SavePass(h, old(world).open, work, health, now);
    }

    /** Row after row. */
    method SaveEnrollments(work: Work)
      requires work.enrs.Keys <= enrs.Keys
      modifies this`enrs
      ensures enrs == SavedEnrs(old(enrs), work)
    {
      ghost var before := enrs;
      var todo := work.enrs.Keys;
      while todo != {}
        invariant todo <= work.enrs.Keys && enrs.Keys == before.Keys
        invariant forall x :: x in enrs ==>
          enrs[x] == if x in work.enrs && x !in todo then work.enrs[x].Onto(before[x]) else before[x]
        decreases |todo|
      {
        var x :| x in todo;
        todo := todo - {x};
        enrs := enrs[x := work.enrs[x].Onto(enrs[x])];
      }
    }

    method SaveRegistrations(work: Work)
      requires work.regs.Keys <= regs.Keys
      modifies this`regs
      ensures regs == SavedRegs(old(regs), work)
    {
      ghost var before := regs;
      var todo := work.regs.Keys;
      while todo != {}
        invariant todo <= work.regs.Keys && regs.Keys == before.Keys
        invariant forall q :: q in regs ==>
          regs[q] == if q in work.regs && q !in todo then work.regs[q].Onto(before[q]) else before[q]
        decreases |todo|
      {
        var q :| q in todo;
        todo := todo - {q};
        regs := regs[q := work.regs[q].Onto(regs[q])];
      }
      regs := regs - work.gone;
    }
  }

  // ---- A pass of the monitor ----

  predicate OnNode(r: Registration, done: set<NodeId>) { r.node.Some? && r.node.value in done }

  /** What a pass over the nodes in `done` makes of an enrollment. */
  function PassedEnr(row: Enrollment, done: set<NodeId>, health: map<NodeId, Health>): Enrollment
    requires done <= health.Keys
  {
    if row.node in done && Watched(row.status) then MonitorEnr(row, health[row.node]) else row
  }

  function PassedReg(row: Registration, done: set<NodeId>, health: map<NodeId, Health>, now: nat): Registration
    requires done <= health.Keys
  {
    if OnNode(row, done) && WatchedReg(row.status) then MonitorReg(row, health[row.node.value], now) else row
  }

  /** What a pass that has probed the nodes in `done` is going to save. */
  ghost predicate IsPassWork(work: Work, enrs: map<EnrollmentId, Enrollment>, regs: map<RequestId, Registration>,
                             done: set<NodeId>, health: map<NodeId, Health>, now: nat) {
    && done <= health.Keys && work.nodes == map[] && work.gone == {}
    && (forall x :: x in work.enrs <==> x in enrs && enrs[x].node in done && Watched(enrs[x].status))
    && (forall x :: x in work.enrs ==> work.enrs[x] == EnrWrite(enrs[x], PassedEnr(enrs[x], done, health)))
    && (forall q :: q in work.regs <==> q in regs && OnNode(regs[q], done) && WatchedReg(regs[q].status))
    && (forall q :: q in work.regs ==> work.regs[q] == RegWrite(regs[q], PassedReg(regs[q], done, health, now)))
  }

  lemma OneMore(work: Work, enrs: map<EnrollmentId, Enrollment>, regs: map<RequestId, Registration>,
                done: set<NodeId>, n: NodeId, health: map<NodeId, Health>, now: nat)
    requires IsPassWork(work, enrs, regs, done, health, now) && n in health
    ensures IsPassWork(work.And(NodeWork(enrs, regs, n, health[n], now)), enrs, regs, done + {n}, health, now)
  {
  }

  lemma NothingDone(enrs: map<EnrollmentId, Enrollment>, regs: map<RequestId, Registration>, listed: set<NodeId>,
                    health: map<NodeId, Health>, now: nat)
    ensures IsPassWork(NO_WORK, enrs, regs, listed - listed, health, now)
  {
    assert listed - listed == {};
  }

  lemma OneLess(work: Work, enrs: map<EnrollmentId, Enrollment>, regs: map<RequestId, Registration>,
                listed: set<NodeId>, left: set<NodeId>, n: NodeId, health: map<NodeId, Health>, now: nat)
    requires IsPassWork(work, enrs, regs, listed - left, health, now) && n in left && left <= listed && n in health
    ensures var more := work.And(NodeWork(enrs, regs, n, health[n], now));
            IsPassWork(more, enrs, regs, listed - (left - {n}), health, now)
  {
    OneMore(work, enrs, regs, listed - left, n, health, now);
    assert (listed - left) + {n} == listed - (left - {n});
  }

  lemma SameHandle(before: map<Handle, Operation>, h: Handle, a: Operation, b: Operation)
    ensures before[h := a][h := b] == before[h := b]
  {
  }

  /** An enrollment after a pass: if its node was enabled and it was on its way, it is what the node's health says. */
  ghost predicate EnrPassed(row: Enrollment, row': Enrollment, nodes: map<NodeId, bool>, health: map<NodeId, Health>) {
    if row.node in nodes && nodes[row.node] && row.status in {Ready, Installing, Claimed, EnrStatus.Failed}
    then
      && row.node in health
      && (health[row.node] == HealthOnline ==> row' == row.(status := Online, report := None))
      && (health[row.node] == HealthDown ==> row' == row.(status := EnrStatus.Failed))
      && (health[row.node] == HealthOther ==> row' == row)
    else row' == row
  }

  /** The same of a registration; one that is online already is left as it is by good health. */
  ghost predicate RegPassed(row: Registration, row': Registration, nodes: map<NodeId, bool>,
                            health: map<NodeId, Health>, now: nat) {
    if row.node.Some? && row.node.value in nodes && nodes[row.node.value]
       && row.status in {RegInstalling, RegReady, RegFailed, RegOnline}
    then
      && row.node.value in health
      && (health[row.node.value] == HealthOnline ==>
            row' == if row.status == RegOnline then row else row.(status := RegOnline, updatedAt := now))
      && (health[row.node.value] == HealthDown ==> row' == row.(status := RegFailed, updatedAt := now))
      && (health[row.node.value] == HealthOther ==> row' == row)
    else row' == row
  }

  lemma PassSaves(work: Work, enrs: map<EnrollmentId, Enrollment>, regs: map<RequestId, Registration>,
                  nodes: map<NodeId, bool>, health: map<NodeId, Health>, now: nat)
    requires IsPassWork(work, enrs, regs, EnabledNodes(nodes) - {}, health, now)
    ensures SavedEnrs(enrs, work).Keys == enrs.Keys && SavedRegs(regs, work).Keys == regs.Keys
    ensures forall x :: x in enrs ==> EnrPassed(enrs[x], SavedEnrs(enrs, work)[x], nodes, health)
    ensures forall q :: q in regs ==> RegPassed(regs[q], SavedRegs(regs, work)[q], nodes, health, now)
  {
    var done := EnabledNodes(nodes) - {};
    forall x | x in enrs ensures EnrPassed(enrs[x], SavedEnrs(enrs, work)[x], nodes, health) {
      assert SavedEnrs(enrs, work)[x] == PassedEnr(enrs[x], done, health);
    }
    forall q | q in regs ensures RegPassed(regs[q], SavedRegs(regs, work)[q], nodes, health, now) {
      assert SavedRegs(regs, work)[q] == PassedReg(regs[q], done, health, now);
    }
  }

  lemma PassFits(work: Work, enrs: map<EnrollmentId, Enrollment>, regs: map<RequestId, Registration>,
                 done: set<NodeId>, health: map<NodeId, Health>, now: nat)
    requires IsPassWork(work, enrs, regs, done - {}, health, now)
    ensures work.enrs.Keys <= enrs.Keys && work.regs.Keys <= regs.Keys && work.nodes == map[]
  {
  }

  lemma ClosesPass(before: map<Handle, Operation>, h: Handle, work: Work)
    requires h !in before
    ensures before[h := Watching({}, work)] - {h} == before
  {
  }

  // ---- What the commits make of a reachable world ----

  ghost predicate AloneOn(w: World, n: NodeId, x: EnrollmentId, q: RequestId) {
    && (forall y :: y in w.enrs && w.enrs[y].node == n ==> y == x)
    && (forall p :: p in w.regs && w.regs[p].node == Some(n) ==> p == q)
  }

  ghost predicate IsGone(w: World, token: Secret) { forall y :: y in w.enrs ==> w.enrs[y].token != token }

  // What is needed of the invariant, piece by piece.

  lemma RequestFact(w: World, q: RequestId)
    requires Reachable(w) && q in w.regs
    ensures RegFact(w.regs[q], q in w.accepted, q in w.rejected, w.claims[q])
  {
    ReachableInv(w);
  }

  lemma BindingFact(w: World)
    requires Reachable(w)
    ensures NodeInv(w)
  {
    ReachableInv(w);
  }

  lemma TokenFact(w: World, x: EnrollmentId)
    requires Reachable(w) && x in w.enrs
    ensures IsUnspent(w, w.enrs[x].token)
  {
    ReachableInv(w);
  }

  lemma SpentFact(w: World, token: Secret)
    requires Reachable(w) && token in w.consumed
    ensures w.consumed[token] == 1 && IsGone(w, token)
  {
    ReachableInv(w);
    forall y | y in w.enrs ensures w.enrs[y].token != token { TokenFact(w, y); }
  }

  lemma CommitStep(w: World, h: Handle, n: NodeId, x: EnrollmentId, now: nat)
    requires Reachable(w) && h in w.open && w.now <= now
    ensures var done := w.(now := now, open := w.open - {h});
            && Reachable(Step(w, Commit(h, n, x, now)))
            && Step(w, Commit(h, n, x, now))
               == if Succeeds(done, w.open[h], n, x) then Committed(done, w.open[h], n, x) else done
  {
    ReachableStep(w, Commit(h, n, x, now));
    var w0 := w.(now := now);
    assert w0.(open := w0.open - {h}) == w.(now := now, open := w.open - {h});
  }

  lemma ProveStep(w: World, h: Handle, q: RequestId, challenge: Secret, readAt: nat, now: nat)
    requires Reachable(w) && h in w.open && w.open[h] == Proving(q, challenge, readAt) && w.now <= now
    ensures var w' := Step(w, Commit(h, 0, 0, now));
            var ok := q in w.regs && w.regs[q].status.PendingProof? && w.regs[q].challenge == Some(challenge);
            && Reachable(w') && w'.enrs == w.enrs && w'.nodes == w.nodes
            && w'.regs == (if ok then CommitProof(w.(now := now), q, readAt).regs else w.regs)
            && (ok ==> q !in w'.accepted && q !in w'.rejected)
  {
    CommitStep(w, h, 0, 0, now);
    if q in w.regs { RequestFact(w, q); }
  }

  lemma AcceptRows(w: World, h: Handle, q: RequestId, n: NodeId, x: EnrollmentId, now: nat)
    requires Reachable(w) && h in w.open && w.open[h] == Accepting(q) && w.now <= now
    requires n !in w.nodes && x !in w.knownEnrollments
    ensures var w' := Step(w, Commit(h, n, x, now));
            var ok := q in w.regs && w.regs[q].status.PendingApproval? && w.regs[q].proved;
            && Reachable(w')
            && (!ok ==> w'.regs == w.regs && w'.enrs == w.enrs && w'.nodes == w.nodes && w'.accepted == w.accepted)
            && (ok ==> var a := CommitAccept(w.(now := now), q, n, x);
                       w'.regs == a.regs && w'.enrs == a.enrs && w'.nodes == a.nodes && w'.accepted == w.accepted + {q})
  {
    CommitStep(w, h, n, x, now);
  }

  lemma AcceptIsAlone(w: World, q: RequestId, n: NodeId, x: EnrollmentId)
    requires Reachable(w) && q in w.regs && w.regs[q].node == Some(n) && x in w.enrs && w.enrs[x].node == n
    ensures AloneOn(w, n, x, q)
  {
    BindingFact(w);
  }

  lemma AcceptStep(w: World, h: Handle, q: RequestId, n: NodeId, x: EnrollmentId, now: nat)
    requires Reachable(w) && h in w.open && w.open[h] == Accepting(q) && w.now <= now
    requires n !in w.nodes && x !in w.knownEnrollments
    ensures var w' := Step(w, Commit(h, n, x, now));
            var ok := q in w.regs && w.regs[q].status.PendingApproval? && w.regs[q].proved;
            && Reachable(w')
            && (!ok ==> w'.regs == w.regs && w'.enrs == w.enrs && w'.nodes == w.nodes && w'.accepted == w.accepted)
            && (ok ==>
                  && w'.regs == w.regs[q := w.regs[q].(
                                  status := Approved, challenge := Some(ClaimChallenge(q, w.regs[q].token)),
                                  node := Some(n), expiresAt := now + 15 * 60 * 1_000_000, updatedAt := now)]
                  && w'.enrs == w.enrs[x := Enrollment(n, Drawn(w.nextSecret), Some(ReportToken(w.regs[q].token, x)),
                                                       Claimed, now + 2 * 3600 * 1_000_000, true)]
                  && w'.nodes == w.nodes[n := false] && w'.accepted == w.accepted + {q})
            && (ok ==> q !in w.accepted && q !in w.rejected && AloneOn(w', n, x, q))
  {
    AcceptRows(w, h, q, n, x, now);
    if q in w.regs && w.regs[q].status.PendingApproval? && w.regs[q].proved {
      RequestFact(w, q);
      AcceptIsAlone(Step(w, Commit(h, n, x, now)), q, n, x);
    }
  }

  lemma SaveOne(w: World, x: EnrollmentId, r: EnrWrite)
    ensures x in w.enrs ==>
              SavedEnrs(w.enrs, NO_WORK.(enrs := map[x := r])) == w.enrs[x := r.Onto(w.enrs[x])]
    ensures SavedRegs(w.regs, NO_WORK.(enrs := map[x := r])) == w.regs && w.nodes + map[] == w.nodes
  {
  }

  lemma ClaimStep(w: World, h: Handle, q: RequestId, now: nat)
    requires Reachable(w) && h in w.open && w.open[h].Claiming? && w.open[h].request == q && w.now <= now
    ensures var w', op := Step(w, Commit(h, 0, 0, now)), w.open[h];
            var ok := q in w.regs && w.regs[q].status.Approved? && w.regs[q].token == Some(op.token)
                      && w.regs[q].challenge == Some(op.challenge) && op.enrollment in w.enrs;
            && Reachable(w') && w'.nodes == w.nodes
            && w'.regs == (if ok then CommitClaim(w.(now := now), q, op.readAt).regs else w.regs)
            && w'.enrs == (if ok then w.enrs[op.enrollment := op.write.Onto(w.enrs[op.enrollment])] else w.enrs)
            && w'.claims == (if ok then w.claims + multiset{q} else w.claims)
            && (ok ==> w.claims[q] == 0 && q in w'.accepted)
  {
    CommitStep(w, h, 0, 0, now);
    SaveOne(w, w.open[h].enrollment, w.open[h].write);
    if q in w.regs { RequestFact(w, q); }
  }

  lemma EnrollStep(w: World, h: Handle, x: EnrollmentId, token: Secret, readAt: nat, now: nat)
    requires Reachable(w) && h in w.open && w.open[h] == Enrolling(x, token, readAt) && w.now <= now
    ensures var w' := Step(w, Commit(h, 0, 0, now));
            var ok := x in w.enrs && w.enrs[x].status.Pending? && !w.enrs[x].claimed && w.enrs[x].token == token;
            && Reachable(w') && w'.nodes == w.nodes && w'.regs == w.regs
            && w'.enrs == (if ok then CommitEnroll(w.(now := now), x, readAt).enrs else w.enrs)
            && (ok ==> token !in w.consumed && w'.consumed[token] == 1 && IsGone(w', token))
  {
    CommitStep(w, h, 0, 0, now);
    var w' := Step(w, Commit(h, 0, 0, now));
    if x in w.enrs { TokenFact(w, x); }
    if token in w'.consumed { SpentFact(w', token); }
  }

  lemma SaveStep(w: World, h: Handle, work: Work, now: nat)
    requires Reachable(w) && h in w.open && w.now <= now
    requires w.open[h] == Saving(work) || w.open[h] == Watching({}, work)
    ensures var w', ok := Step(w, Commit(h, 0, 0, now)), MaySave(w, work);
            && Reachable(w') && w'.open == w.open - {h}
            && w'.enrs == (if ok then SavedEnrs(w.enrs, work) else w.enrs)
            && w'.regs == (if ok then SavedRegs(w.regs, work) else w.regs)
            && w'.nodes == (if ok then w.nodes + work.nodes else w.nodes)
  {
    CommitStep(w, h, 0, 0, now);
  }

  lemma ReportStep(w: World, h: Handle, x: EnrollmentId, token: Secret, phase: Phase, now: nat)
    requires Reachable(w) && h !in w.open && w.now <= now
    ensures var w', w0 := Step(w, ReportRead(h, x, token, phase, now)), w.(now := now);
            && Reachable(w') && w'.regs == w.regs && w'.enrs == w.enrs && w'.nodes == w.nodes
            && w'.open == if MayReport(w0, x, token) then w.open[h := Saving(ReportWork(w0, x, phase))] else w.open
  {
    ReachableStep(w, ReportRead(h, x, token, phase, now));
  }

  lemma PassStep(w: World, h: Handle, now: nat)
    requires Reachable(w) && h !in w.open && w.now <= now
    ensures var w' := Step(w, MonitorRead(h, now));
            && Reachable(w') && w'.now == now && w'.regs == w.regs && w'.enrs == w.enrs && w'.nodes == w.nodes
            && w'.open == w.open[h := Watching(EnabledNodes(w.nodes), NO_WORK)]
  {
    ReachableStep(w, MonitorRead(h, now));
  }

  lemma ProbeStep(w: World, h: Handle, n: NodeId, health: Health, now: nat)
    requires Reachable(w) && h in w.open && w.open[h].Watching? && n in w.open[h].left && w.now <= now
    ensures var w', w0 := Step(w, MonitorProbe(h, n, health, now)), w.(now := now);
            && Reachable(w') && w'.now == now && w'.regs == w.regs && w'.enrs == w.enrs && w'.nodes == w.nodes
            && w'.open == w.open[h := Watching(w.open[h].left - {n}, w.open[h].work.And(MonitorWork(w0, n, health)))]
  {
    ReachableStep(w, MonitorProbe(h, n, health, now));
  }
}
