/** What each handler of the node lifecycle leaves behind, whatever happens between its read and its commit. */
module NodeEffects {
  import opened Common
  import opened NodeLifecycle
  import opened NodeLifecycleProofs

  /** The handler behind `h` does not complete among the events. */
  ghost predicate Between(events: seq<Event>, h: Handle) {
    forall i :: 0 <= i < |events| ==> !((events[i].Commit? || events[i].MonitorProbe?) && events[i].handle == h)
  }

  /** `w3` is what the commit of `h` makes of what the events between it and the read have led to. */
  ghost predicate Completes(w: World, e: Event, h: Handle, events: seq<Event>, later: nat, w2: World, w3: World) {
    && w2 == Run(Step(w, e), events) && w2.now <= later && w3 == Step(w2, Commit(h, 0, 0, later)) && Between(events, h)
  }

  // ---- A handle until its commit ----

  lemma StepKeepsHandle(w: World, e: Event, h: Handle)
    requires h in w.open && !((e.Commit? || e.MonitorProbe?) && e.handle == h)
    ensures h in Step(w, e).open && Step(w, e).open[h] == w.open[h]
  {
    if w.now <= e.at {
      var w0 := w.(now := e.at);
      if IsRead(e) {
        if e.handle !in w.open { ReadKeepsHandle(w0, e, h); }
      } else if e.Commit? {
        if e.handle in w.open { CommitCloses(w0, e.handle, e.node, e.enrollment); }
      }
    }
  }

  lemma ReadKeepsHandle(w: World, e: Event, h: Handle)
    requires IsRead(e) && e.handle !in w.open && h in w.open
    ensures h in Read(w, e).open && Read(w, e).open[h] == w.open[h]
  {
  }

  lemma {:induction false} HandleStays(w: World, events: seq<Event>, h: Handle)
    requires h in w.open && Between(events, h)
    ensures h in Run(w, events).open && Run(w, events).open[h] == w.open[h]
    decreases |events|
  {
    if events == [] {
      assert Run(w, events) == w;
    } else {
      StepKeepsHandle(w, events[0], h);
      HandleStays(Step(w, events[0]), events[1..], h);
    }
  }

  /** All rows to be saved are still there. */
  ghost predicate RowsThere(w2: World, enrs: set<EnrollmentId>, regs: set<RequestId>, nodes: set<NodeId>) {
    enrs <= w2.enrs.Keys && regs <= w2.regs.Keys && nodes <= w2.nodes.Keys
  }

  ghost predicate SameTables(w2: World, w3: World) { w3.enrs == w2.enrs && w3.regs == w2.regs && w3.nodes == w2.nodes }

  /** What the commit of `u` makes of the tables. */
  ghost predicate Saved(w2: World, w3: World, u: Work) {
    if RowsThere(w2, u.enrs.Keys, u.regs.Keys, u.nodes.Keys)
    then w3.enrs == SavedEnrs(w2.enrs, u) && w3.regs == SavedRegs(w2.regs, u) && w3.nodes == w2.nodes + u.nodes
    else SameTables(w2, w3)
  }

  lemma SavingCommits(w: World, e: Event, h: Handle, u: Work, events: seq<Event>, later: nat, w2: World, w3: World)
    requires Completes(w, e, h, events, later, w2, w3) && h in Step(w, e).open && Step(w, e).open[h] == Saving(u)
    ensures Saved(w2, w3, u)
  {
    HandleStays(Step(w, e), events, h);
    SaveCommits(w2.(now := later), h, u);
  }

  lemma SaveCommits(w: World, h: Handle, u: Work)
    requires h in w.open && w.open[h] == Saving(u)
    ensures Saved(w, CommitOperation(w, h, 0, 0), u)
  {
  }

  /** A handler that saves one enrollment, and perhaps switches a node. */
  lemma OneRowSaved(w2: World, w3: World, u: Work, x: EnrollmentId, r: EnrWrite)
    requires Saved(w2, w3, u) && u.enrs == map[x := r] && u.regs == map[] && u.gone == {}
    ensures if x in w2.enrs && u.nodes.Keys <= w2.nodes.Keys
            then && w3.enrs == w2.enrs[x := r.Onto(w2.enrs[x])] && w3.regs == w2.regs
                 && w3.nodes == w2.nodes + u.nodes
            else SameTables(w2, w3)
  {
    assert u.enrs.Keys == {x};
  }

  // ---- Reports ----

  /** A column that is written only if the handler set it to something else than it had read. */
  function Column<T(==)>(read: T, wanted: T, present: T): T { if wanted == read then present else wanted }

  /**
    A report that is accepted says what the enrollment and the node's registration become: installing, ready or
    failed. When the node is ready it is switched on. If a row is gone by then, nothing is saved.
  */
  lemma ReportMoves(w: World, h: Handle, x: EnrollmentId, token: Secret, phase: Phase, at: nat,
                    events: seq<Event>, later: nat, w2: World, w3: World)
    requires h !in w.open && w.now <= at && x in w.enrs && w.enrs[x].report == Some(token) && w.enrs[x].expiresAt > at
    requires !w.enrs[x].status.Revoked? && !w.enrs[x].status.Expired? && !w.enrs[x].status.Online?
    requires Completes(w, ReportRead(h, x, token, phase, at), h, events, later, w2, w3)
    ensures Reported(w, w2, w3, x, phase, at)
  {
    var u := ReportWork(w.(now := at), x, phase);
    assert Step(w, ReportRead(h, x, token, phase, at)).open[h] == Saving(u);
    SavingCommits(w, ReportRead(h, x, token, phase, at), h, u, events, later, w2, w3);
    ReportSaved(w, w2, w3, u, x, phase, at);
  }

  ghost predicate Reported(w: World, w2: World, w3: World, x: EnrollmentId, phase: Phase, at: nat)
    requires x in w.enrs
  {
    var n := w.enrs[x].node;
    var bound := set q | q in w.regs && w.regs[q].node == Some(n);
    var switched := phase.PhaseReady? && n in w.nodes && !w.nodes[n];
    if RowsThere(w2, {x}, bound, if switched then {n} else {})
    then && ReportedEnrs(w.enrs[x], w2.enrs, w3.enrs, x, phase)
         && ReportedRows(w.regs, w2.regs, w3.regs, bound, phase, at)
         && w3.nodes == (if switched then w2.nodes[n := true] else w2.nodes)
    else SameTables(w2, w3)
  }

  lemma ReportSaved(w: World, w2: World, w3: World, u: Work, x: EnrollmentId, phase: Phase, at: nat)
    requires x in w.enrs && u == ReportWork(w.(now := at), x, phase) && Saved(w2, w3, u)
    ensures Reported(w, w2, w3, x, phase, at)
  {
    var n := w.enrs[x].node;
    var bound := set q | q in w.regs && w.regs[q].node == Some(n);
    ReportKeys(w, u, x, phase, at);
    if RowsThere(w2, {x}, bound, u.nodes.Keys) {
      ReportedEnrollment(w.enrs[x], w2.enrs, u, x, phase);
      ReportedRegistrations(w.regs, w2.regs, u, n, phase, at);
    }
  }

  lemma ReportKeys(w: World, u: Work, x: EnrollmentId, phase: Phase, at: nat)
    requires x in w.enrs && u == ReportWork(w.(now := at), x, phase)
    ensures var n := w.enrs[x].node;
            var switched := phase.PhaseReady? && n in w.nodes && !w.nodes[n];
            && u.enrs.Keys == {x} && (u.regs.Keys == set q | q in w.regs && w.regs[q].node == Some(n))
            && (u.nodes.Keys == if switched then {n} else {})
            && (forall nodes: map<NodeId, bool> :: nodes + u.nodes == if switched then nodes[n := true] else nodes)
  {
    forall nodes: map<NodeId, bool> ensures nodes + map[] == nodes {}
  }

  lemma ReportedEnrollment(read: Enrollment, enrs: map<EnrollmentId, Enrollment>, u: Work, x: EnrollmentId,
                           phase: Phase)
    requires x in enrs && u.enrs == map[x := EnrWrite(read, read.(status := EnrStatusOf(phase)))]
    ensures ReportedEnrs(read, enrs, SavedEnrs(enrs, u), x, phase)
  {
  }

  lemma ReportedRegistrations(read: map<RequestId, Registration>, regs: map<RequestId, Registration>, u: Work,
                              n: NodeId, phase: Phase, at: nat)
    requires u.regs == ReportedRegs(read, n, phase, at) && u.gone == {}
    ensures ReportedRows(read, regs, SavedRegs(regs, u), (set q | q in read && read[q].node == Some(n)), phase, at)
  {
  }

  ghost predicate ReportedEnrs(read: Enrollment, enrs: map<EnrollmentId, Enrollment>,
                               enrs': map<EnrollmentId, Enrollment>, x: EnrollmentId, phase: Phase) {
    && enrs'.Keys == enrs.Keys && x in enrs && (forall y :: y in enrs && y != x ==> enrs'[y] == enrs[y])
    && (phase == PhaseInstalling ==> enrs'[x] == enrs[x].(status := Column(read.status, Installing, enrs[x].status)))
    && (phase == PhaseReady ==> enrs'[x] == enrs[x].(status := Column(read.status, Ready, enrs[x].status)))
    && (phase == PhaseFailed ==> enrs'[x] == enrs[x].(status := Column(read.status, EnrStatus.Failed, enrs[x].status)))
  }

  ghost predicate ReportedRows(read: map<RequestId, Registration>, regs: map<RequestId, Registration>,
                               regs': map<RequestId, Registration>, bound: set<RequestId>, phase: Phase, at: nat) {
    && regs'.Keys == regs.Keys && bound <= read.Keys
    && (forall q :: q in regs && q !in bound ==> regs'[q] == regs[q])
    && (forall q :: q in regs && q in bound ==>
          && (phase == PhaseInstalling ==> regs'[q] == Dated(read[q], regs[q], RegInstalling, at))
          && (phase == PhaseReady ==> regs'[q] == Dated(read[q], regs[q], RegReady, at))
          && (phase == PhaseFailed ==> regs'[q] == Dated(read[q], regs[q], RegFailed, at)))
  }

  function Dated(read: Registration, present: Registration, status: RegStatus, at: nat): Registration {
    present.(status := Column(read.status, status, present.status),
             updatedAt := Column(read.updatedAt, at, present.updatedAt))
  }

  /** Any other report is refused. */
  lemma ReportRefused(w: World, h: Handle, x: EnrollmentId, token: Secret, phase: Phase, at: nat)
    requires h !in w.open && w.now <= at
    requires x in w.enrs ==>
               || w.enrs[x].report != Some(token) || w.enrs[x].expiresAt <= at
               || w.enrs[x].status == Revoked || w.enrs[x].status == Expired || w.enrs[x].status == Online
    ensures Step(w, ReportRead(h, x, token, phase, at)) == w.(now := at)
  {
  }

  // ---- Revocation, regeneration, expiry ----

  /** A revocation sets the status, a fresh token and no report token, and switches the node off. */
  lemma RevocationRevokes(w: World, h: Handle, x: EnrollmentId, at: nat, events: seq<Event>, later: nat,
                          w2: World, w3: World)
    requires Reachable(w) && h !in w.open && w.now <= at
    requires x in w.enrs && w.enrs[x].status != Revoked && w.enrs[x].status != Online
    requires Completes(w, RevokeRead(h, x, at), h, events, later, w2, w3)
    ensures var n := w.enrs[x].node;
            var switched := n in w.nodes && w.nodes[n];
            if RowsThere(w2, {x}, {}, if switched then {n} else {})
            then && w3.enrs == w2.enrs[x := w2.enrs[x].(status := Revoked, token := Drawn(w.nextSecret),
                                                         report := Column(w.enrs[x].report, None, w2.enrs[x].report))]
                 && w3.regs == w2.regs && w3.nodes == (if switched then w2.nodes[n := false] else w2.nodes)
            else SameTables(w2, w3)
  {
    var u := RevokeWork(w.(now := at), x);
    FreshToken(w, x);
    assert Step(w, RevokeRead(h, x, at)).open[h] == Saving(u);
    SavingCommits(w, RevokeRead(h, x, at), h, u, events, later, w2, w3);
    RevocationSaved(w, w2, w3, u, x, at);
  }

  lemma RevocationSaved(w: World, w2: World, w3: World, u: Work, x: EnrollmentId, at: nat)
    requires x in w.enrs && w.enrs[x].status != Revoked && u == RevokeWork(w.(now := at), x) && Saved(w2, w3, u)
    requires w.enrs[x].token != Drawn(w.nextSecret)
    ensures var n := w.enrs[x].node;
            var switched := n in w.nodes && w.nodes[n];
            if RowsThere(w2, {x}, {}, if switched then {n} else {})
            then && w3.enrs == w2.enrs[x := w2.enrs[x].(status := Revoked, token := Drawn(w.nextSecret),
                                                         report := Column(w.enrs[x].report, None, w2.enrs[x].report))]
                 && w3.regs == w2.regs && w3.nodes == (if switched then w2.nodes[n := false] else w2.nodes)
            else SameTables(w2, w3)
  {
    OneRowSaved(w2, w3, u, x, u.enrs[x]);
    assert w2.nodes + map[] == w2.nodes;
  }

  /** A regeneration makes the enrollment pending for 15 minutes, unclaimed, with a fresh token and no report token. */
  lemma RegenerationRenews(w: World, h: Handle, x: EnrollmentId, at: nat, events: seq<Event>, later: nat,
                           w2: World, w3: World)
    requires Reachable(w) && h !in w.open && w.now <= at
    requires x in w.enrs && w.enrs[x].status in {Pending, Expired, Revoked}
    requires Completes(w, RegenerateRead(h, x, at), h, events, later, w2, w3)
    ensures if x in w2.enrs
            then var read, row := w.enrs[x], w2.enrs[x];
                 && w3.enrs == w2.enrs[x := row.(
                                 status := Column(read.status, Pending, row.status), token := Drawn(w.nextSecret),
                                 report := Column(read.report, None, row.report),
                                 claimed := Column(read.claimed, false, row.claimed),
                                 expiresAt := Column(read.expiresAt, at + 15 * 60 * 1_000_000, row.expiresAt))]
                 && w3.regs == w2.regs && w3.nodes == w2.nodes
            else SameTables(w2, w3)
  {
    var u := RegenerateWork(w.(now := at), x);
    FreshToken(w, x);
    assert Step(w, RegenerateRead(h, x, at)).open[h] == Saving(u);
    SavingCommits(w, RegenerateRead(h, x, at), h, u, events, later, w2, w3);
    RegenerationSaved(w, w2, w3, u, x, at);
  }

  lemma RegenerationSaved(w: World, w2: World, w3: World, u: Work, x: EnrollmentId, at: nat)
    requires x in w.enrs && u == RegenerateWork(w.(now := at), x) && Saved(w2, w3, u)
    requires w.enrs[x].token != Drawn(w.nextSecret)
    ensures if x in w2.enrs
            then var read, row := w.enrs[x], w2.enrs[x];
                 && w3.enrs == w2.enrs[x := row.(
                                 status := Column(read.status, Pending, row.status), token := Drawn(w.nextSecret),
                                 report := Column(read.report, None, row.report),
                                 claimed := Column(read.claimed, false, row.claimed),
                                 expiresAt := Column(read.expiresAt, at + 15 * 60 * 1_000_000, row.expiresAt))]
                 && w3.regs == w2.regs && w3.nodes == w2.nodes
            else SameTables(w2, w3)
  {
    OneRowSaved(w2, w3, u, x, u.enrs[x]);
    assert w2.nodes + map[] == w2.nodes;
  }

  lemma FreshToken(w: World, x: EnrollmentId)
    requires Reachable(w) && x in w.enrs
    ensures w.enrs[x].token != Drawn(w.nextSecret)
  {
    ReachableInv(w);
    assert IsUnspent(w, w.enrs[x].token);
  }

  /** Revoked and online enrollments are not revoked again; what has been claimed is not regenerated. */
  lemma AdministrationRefused(w: World, h: Handle, x: EnrollmentId, at: nat)
    requires h !in w.open && w.now <= at
    ensures (x in w.enrs ==> w.enrs[x].status in {Revoked, Online}) ==> Step(w, RevokeRead(h, x, at)) == w.(now := at)
    ensures (x in w.enrs ==> w.enrs[x].status !in {Pending, Expired, Revoked}) ==>
              Step(w, RegenerateRead(h, x, at)) == w.(now := at)
  {
  }

  /** The listing expires exactly the pending enrollments whose time is over. */
  lemma ListingExpires(w: World, h: Handle, at: nat, events: seq<Event>, later: nat, w2: World, w3: World)
    requires h !in w.open && w.now <= at && Completes(w, ListEnrollmentsRead(h, at), h, events, later, w2, w3)
    ensures var overdue := set x | x in w.enrs && w.enrs[x].status == Pending && w.enrs[x].expiresAt <= at;
            if overdue <= w2.enrs.Keys
            then && w3.enrs.Keys == w2.enrs.Keys && w3.regs == w2.regs && w3.nodes == w2.nodes
                 && forall x :: x in w2.enrs ==>
                      w3.enrs[x] == if x in overdue then w2.enrs[x].(status := Expired) else w2.enrs[x]
            else SameTables(w2, w3)
  {
    var u := OverdueWork(w.enrs, at);
    assert Step(w, ListEnrollmentsRead(h, at)).open[h] == Saving(u);
    SavingCommits(w, ListEnrollmentsRead(h, at), h, u, events, later, w2, w3);
    OverdueSaved(w, w2, w3, u, at);
  }

  lemma OverdueSaved(w: World, w2: World, w3: World, u: Work, at: nat)
    requires u == OverdueWork(w.enrs, at) && Saved(w2, w3, u)
    ensures var overdue := set x | x in w.enrs && w.enrs[x].status == Pending && w.enrs[x].expiresAt <= at;
            if overdue <= w2.enrs.Keys
            then && w3.enrs.Keys == w2.enrs.Keys && w3.regs == w2.regs && w3.nodes == w2.nodes
                 && forall x :: x in w2.enrs ==>
                      w3.enrs[x] == if x in overdue then w2.enrs[x].(status := Expired) else w2.enrs[x]
            else SameTables(w2, w3)
  {
    assert u.enrs.Keys == set x | x in w.enrs && w.enrs[x].status == Pending && w.enrs[x].expiresAt <= at;
    assert SavedRegs(w2.regs, u) == w2.regs && w2.nodes + map[] == w2.nodes;
  }

  /**
    The listing of requests expires those that are pending beyond their time, and forgets those that have been
    expired for seven days.
  */
  lemma ListingForgets(w: World, h: Handle, at: nat, events: seq<Event>, later: nat, w2: World, w3: World)
    requires h !in w.open && w.now <= at && Completes(w, ListRead(h, at), h, events, later, w2, w3)
    ensures var overdue := set q | q in w.regs && w.regs[q].status in {PendingProof, PendingApproval}
                                   && w.regs[q].expiresAt <= at;
            var gone := set q | q in w.regs && w.regs[q].status == RegExpired
                               && w.regs[q].updatedAt + 7 * 86_400 * 1_000_000 <= at;
            if overdue <= w2.regs.Keys
            then && w3.regs.Keys == w2.regs.Keys - gone && w3.enrs == w2.enrs && w3.nodes == w2.nodes
                 && forall q :: q in w3.regs ==>
                      w3.regs[q]
                      == if q in overdue
                         then w2.regs[q].(status := RegExpired,
                                          challenge := Column(w.regs[q].challenge, None, w2.regs[q].challenge),
                                          updatedAt := Column(w.regs[q].updatedAt, at, w2.regs[q].updatedAt))
                         else w2.regs[q]
            else SameTables(w2, w3)
  {
    var u := ListWork(w.regs, at);
    assert Step(w, ListRead(h, at)).open[h] == Saving(u);
    SavingCommits(w, ListRead(h, at), h, u, events, later, w2, w3);
    ListingSaved(w, w2, u, at);
    NoEnrollmentSaved(w2, w3, u);
  }

  lemma NoEnrollmentSaved(w2: World, w3: World, u: Work)
    requires Saved(w2, w3, u) && u.enrs == map[] && u.nodes == map[]
    ensures w3.enrs == w2.enrs && w3.nodes == w2.nodes
    ensures w3.regs == if u.regs.Keys <= w2.regs.Keys then SavedRegs(w2.regs, u) else w2.regs
  {
    assert SavedEnrs(w2.enrs, u) == w2.enrs && w2.nodes + map[] == w2.nodes;
  }

  lemma ListingSaved(w: World, w2: World, u: Work, at: nat)
    requires u == ListWork(w.regs, at)
    ensures var overdue := set q | q in w.regs && w.regs[q].status in {PendingProof, PendingApproval}
                                   && w.regs[q].expiresAt <= at;
            var gone := set q | q in w.regs && w.regs[q].status == RegExpired
                                && w.regs[q].updatedAt + 7 * 86_400 * 1_000_000 <= at;
            && u.regs.Keys == overdue && SavedRegs(w2.regs, u).Keys == w2.regs.Keys - gone
            && forall q :: q in SavedRegs(w2.regs, u) ==>
                 SavedRegs(w2.regs, u)[q]
                 == if q in overdue
                    then w2.regs[q].(status := RegExpired,
                                     challenge := Column(w.regs[q].challenge, None, w2.regs[q].challenge),
                                     updatedAt := Column(w.regs[q].updatedAt, at, w2.regs[q].updatedAt))
                    else w2.regs[q]
  {
  }

  // ---- New rows ----

  /** A registration is pending for 15 minutes, unproved, on no node, with a token and a challenge of its own. */
  lemma RegistrationBegins(w: World, q: RequestId, at: nat)
    requires w.now <= at && q !in w.knownRequests
    ensures Step(w, Register(q, true, at)).regs
            == w.regs[q := Registration(PendingProof, Some(Drawn(w.nextSecret)), Some(Drawn(w.nextSecret + 1)),
                                        at + 15 * 60 * 1_000_000, false, None, at)]
    ensures Step(w, Register(q, true, at)).nextSecret == w.nextSecret + 2
    ensures Step(w, Register(q, false, at)) == w.(now := at)
  {
  }

  /** A new enrollment is pending for 15 minutes on a node of its own that is off. */
  lemma EnrollmentBegins(w: World, n: NodeId, x: EnrollmentId, at: nat)
    requires w.now <= at && n !in w.nodes && x !in w.knownEnrollments
    ensures var w' := Step(w, CreateEnrollment(n, x, at));
            && w'.enrs
               == w.enrs[x := Enrollment(n, Drawn(w.nextSecret), None, Pending, at + 15 * 60 * 1_000_000, false)]
            && w'.nodes == w.nodes[n := false] && w'.regs == w.regs && w'.nextSecret == w.nextSecret + 1
  {
  }

  /** Exactly a proved request that awaits approval is rejected, and loses its challenge. */
  lemma RejectionRejects(w: World, q: RequestId, at: nat)
    requires w.now <= at
    ensures Step(w, Reject(q, at)).regs
            == if q in w.regs && w.regs[q].status == PendingApproval
               then w.regs[q := w.regs[q].(status := Rejected, challenge := None, updatedAt := at)] else w.regs
  {
  }

  /** The deletion of a node takes its enrollments along and leaves its registration without a node. */
  lemma DeletionForgets(w: World, n: NodeId, at: nat)
    requires w.now <= at && n in w.nodes
    ensures var w' := Step(w, DeleteNode(n, at));
            && n !in w'.nodes && w'.regs.Keys == w.regs.Keys
            && (forall m :: m != n ==>
                  (m in w'.nodes <==> m in w.nodes) && (m in w.nodes ==> w'.nodes[m] == w.nodes[m]))
            && (forall x :: x in w'.enrs <==> x in w.enrs && w.enrs[x].node != n)
            && (forall x :: x in w'.enrs ==> w'.enrs[x] == w.enrs[x])
            && (forall q :: q in w.regs ==>
                  w'.regs[q] == if w.regs[q].node == Some(n) then w.regs[q].(node := None) else w.regs[q])
  {
  }

  // ---- What opens a conditional update ----

  /** A proof is taken up with the request's token and present challenge, while it is pending and in time. */
  lemma ProofOpens(w: World, h: Handle, q: RequestId, token: Secret, challenge: Secret, at: nat)
    requires h !in w.open && w.now <= at
    ensures h in Step(w, ProveRead(h, q, token, challenge, true, at)).open
            && Step(w, ProveRead(h, q, token, challenge, true, at)).open[h] == Proving(q, challenge, at) <==>
              && q in w.regs && w.regs[q].token == Some(token) && w.regs[q].challenge == Some(challenge)
              && w.regs[q].status == PendingProof && at < w.regs[q].expiresAt
  {
  }

  /** A proof that comes too late, with the request's token, expires the request. */
  lemma LateProofExpires(w: World, h: Handle, q: RequestId, token: Secret, challenge: Secret, ok: bool, at: nat,
                         events: seq<Event>, later: nat, w2: World, w3: World)
    requires h !in w.open && w.now <= at && q in w.regs && w.regs[q].token == Some(token)
    requires w.regs[q].status == PendingProof && w.regs[q].expiresAt <= at
    requires Completes(w, ProveRead(h, q, token, challenge, ok, at), h, events, later, w2, w3)
    ensures if q in w2.regs
            then && w3.enrs == w2.enrs && w3.nodes == w2.nodes
                 && w3.regs == w2.regs[q := w2.regs[q].(
                                 status := RegExpired,
                                 challenge := Column(w.regs[q].challenge, None, w2.regs[q].challenge),
                                 updatedAt := Column(w.regs[q].updatedAt, at, w2.regs[q].updatedAt))]
            else SameTables(w2, w3)
  {
    var u := NO_WORK.(regs := map[q := Overdue(w.regs[q], at)]);
    assert Step(w, ProveRead(h, q, token, challenge, ok, at)).open[h] == Saving(u);
    SavingCommits(w, ProveRead(h, q, token, challenge, ok, at), h, u, events, later, w2, w3);
    assert u.regs.Keys == {q};
    SameEnrs(w2.enrs, u);
    assert w2.nodes + map[] == w2.nodes;
  }

  lemma SameEnrs(enrs: map<EnrollmentId, Enrollment>, u: Work)
    requires u.enrs == map[]
    ensures SavedEnrs(enrs, u) == enrs
  {
  }

  /** A claim that comes too late, with whatever token, expires the enrollment. */
  lemma LateClaimExpires(w: World, h: Handle, x: EnrollmentId, token: Secret, ok: bool, at: nat,
                         events: seq<Event>, later: nat, w2: World, w3: World)
    requires h !in w.open && w.now <= at && x in w.enrs && w.enrs[x].status == Pending && w.enrs[x].expiresAt <= at
    requires Completes(w, EnrollRead(h, x, token, ok, at), h, events, later, w2, w3)
    ensures if x in w2.enrs
            then && w3.enrs == w2.enrs[x := w2.enrs[x].(status := Expired)] && w3.regs == w2.regs
                 && w3.nodes == w2.nodes
            else SameTables(w2, w3)
  {
    var u := ExpireWork(w.enrs[x], x);
    assert Step(w, EnrollRead(h, x, token, ok, at)).open[h] == Saving(u);
    SavingCommits(w, EnrollRead(h, x, token, ok, at), h, u, events, later, w2, w3);
    OneRowSaved(w2, w3, u, x, u.enrs[x]);
    assert w2.nodes + map[] == w2.nodes;
  }

  /** An acceptance is taken up for a proved request that awaits approval. */
  lemma AcceptanceOpens(w: World, h: Handle, q: RequestId, at: nat)
    requires h !in w.open && w.now <= at
    ensures h in Step(w, AcceptRead(h, q, true, at)).open <==>
              q in w.regs && w.regs[q].status == PendingApproval && w.regs[q].proved
    ensures h in Step(w, AcceptRead(h, q, true, at)).open ==>
              Step(w, AcceptRead(h, q, true, at)).open[h] == Accepting(q)
  {
  }

  /** A claim is taken up with the token and the claim challenge of an approved request, in time, for its enrollment. */
  lemma ApprovedClaimOpens(w: World, h: Handle, q: RequestId, token: Secret, challenge: Secret, x: EnrollmentId,
                           at: nat)
    requires h !in w.open && w.now <= at
    ensures h in Step(w, ClaimRead(h, q, token, challenge, x, true, at)).open <==>
              && q in w.regs && w.regs[q].status == Approved && w.regs[q].proved && at < w.regs[q].expiresAt
              && w.regs[q].token == Some(token) && w.regs[q].challenge == Some(challenge)
              && x in w.enrs && w.regs[q].node == Some(w.enrs[x].node) && w.enrs[x].status == Claimed
    ensures h in Step(w, ClaimRead(h, q, token, challenge, x, true, at)).open ==>
              Step(w, ClaimRead(h, q, token, challenge, x, true, at)).open[h]
              == Claiming(q, token, challenge, x,
                          EnrWrite(w.enrs[x],
                                   w.enrs[x].(status := Installing, expiresAt := at + 2 * 3600 * 1_000_000)), at)
  {
  }

  /** A claim of an enrollment is taken up with its token while it is pending, unclaimed and in time. */
  lemma EnrollmentClaimOpens(w: World, h: Handle, x: EnrollmentId, token: Secret, at: nat)
    requires h !in w.open && w.now <= at
    ensures h in Step(w, EnrollRead(h, x, token, true, at)).open
            && Step(w, EnrollRead(h, x, token, true, at)).open[h] == Enrolling(x, token, at) <==>
              && x in w.enrs && w.enrs[x].token == token && w.enrs[x].status == Pending && !w.enrs[x].claimed
              && at < w.enrs[x].expiresAt
  {
  }

  /** A pass of the monitor that has not yet probed all its nodes saves nothing if it ends. */
  lemma UnfinishedPass(w: World, h: Handle, n: NodeId, at: nat)
    requires w.now <= at && h in w.open && w.open[h].Watching? && n in w.open[h].left
    ensures SameTables(w, Step(w, Commit(h, 0, 0, at)))
  {
  }
}
