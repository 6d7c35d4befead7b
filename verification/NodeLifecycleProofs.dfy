/** What every run of the registration and enrollment machines keeps. */
module NodeLifecycleProofs {
  import opened Common
  import opened NodeLifecycle

  // ---- The invariant ----

  /** The statuses an accepted request goes through. */
  predicate Earned(s: RegStatus) { s.Approved? || s.RegInstalling? || s.RegReady? || s.RegFailed? || s.RegOnline? }

  /** How a request's row fits what has happened to it. */
  predicate RegFact(r: Registration, accepted: bool, rejected: bool, claims: nat) {
    && (Earned(r.status) ==> accepted) && (accepted ==> r.proved) && (r.node.Some? ==> accepted)
    && (accepted || rejected ==> !r.status.IsPending()) && (claims > 0 ==> r.token.None?)
  }

  ghost predicate RegInv(w: World) {
    && (forall q :: q in w.regs ==>
          q in w.knownRequests && RegFact(w.regs[q], q in w.accepted, q in w.rejected, w.claims[q]))
    && w.accepted !! w.rejected && w.accepted <= w.knownRequests && w.rejected <= w.knownRequests
    && (forall q :: w.claims[q] <= 1 && (w.claims[q] > 0 ==> q in w.accepted))
  }

  /** What handlers between read and commit are going to save. */
  ghost predicate OpenInv(w: World) {
    && w.enrs.Keys <= w.knownEnrollments
    && (forall h :: h in w.open ==> WorkFits(w, w.open[h].Unit()))
  }

  ghost predicate WorkFits(w: World, u: Work) {
    && (forall q :: q in u.regs ==> RegWriteFits(u.regs[q], q in w.accepted))
    && (forall x :: x in u.enrs ==> EnrWriteFits(u.enrs[x]) && x in w.knownEnrollments)
  }

  /** A save makes no request pending, and earns nothing for one that was not accepted. */
  predicate RegWriteFits(r: RegWrite, accepted: bool) {
    r.SetsStatus() ==> !r.after.status.IsPending() && (Earned(r.after.status) ==> accepted)
  }

  /** A save of an enrollment never stores a report token. */
  predicate EnrWriteFits(r: EnrWrite) { r.after.report == r.before.report || r.after.report.None? }

  predicate IsUnspent(w: World, t: Secret) { t.Drawn? && t.n < w.nextSecret && t !in w.consumed }

  /** The handler behind `h` is going to store a new token for `x`. */
  ghost predicate Draws(w: World, h: Handle, x: EnrollmentId) {
    h in w.open && x in w.open[h].Unit().enrs && w.open[h].Unit().enrs[x].SetsToken()
  }

  ghost function NewToken(w: World, h: Handle, x: EnrollmentId): Secret
    requires Draws(w, h, x)
  {
    w.open[h].Unit().enrs[x].after.token
  }

  /** Stored tokens, and those about to be stored, are unspent and all different. */
  ghost predicate TokenInv(w: World) {
    && (forall x :: x in w.enrs ==> IsUnspent(w, w.enrs[x].token))
    && (forall x, y :: x in w.enrs && y in w.enrs && w.enrs[x].token == w.enrs[y].token ==> x == y)
    && (forall t :: t in w.consumed ==> t.Drawn? && t.n < w.nextSecret && w.consumed[t] == 1)
    && (forall h, x :: Draws(w, h, x) ==> IsUnspent(w, NewToken(w, h, x)))
    && (forall h, x, y :: Draws(w, h, x) && y in w.enrs ==> w.enrs[y].token != NewToken(w, h, x))
    && (forall h, x, k, y :: Draws(w, h, x) && Draws(w, k, y) ==>
          NewToken(w, h, x) == NewToken(w, k, y) ==> h == k && x == y)
  }

  /** A node has at most one enrollment and at most one registration, so the queries by node are unambiguous. */
  ghost predicate NodeInv(w: World) {
    && (forall x :: x in w.enrs ==> w.enrs[x].node in w.nodes)
    && (forall q :: q in w.regs && w.regs[q].node.Some? ==> w.regs[q].node.value in w.nodes)
    && (forall x, y :: x in w.enrs && y in w.enrs && w.enrs[x].node == w.enrs[y].node ==> x == y)
    && (forall p, q :: p in w.regs && q in w.regs && w.regs[p].node.Some? ==>
          w.regs[p].node == w.regs[q].node ==> p == q)
  }

  ghost predicate Inv(w: World) { RegInv(w) && OpenInv(w) && TokenInv(w) && NodeInv(w) }

  // ---- Reads change no row ----

  /** A handler opened `h`, and nothing else happened but the drawing of secrets. */
  ghost predicate Opened(w: World, w': World, h: Handle) {
    && h !in w.open && h in w'.open && w.nextSecret <= w'.nextSecret
    && w' == w.(open := w.open[h := w'.open[h]], nextSecret := w'.nextSecret)
  }

  /** A new token, if the handler stores one, was drawn just now, for the only row it saves. */
  ghost predicate DrawsFresh(w: World, w': World, u: Work) {
    forall x :: x in u.enrs && u.enrs[x].SetsToken() ==>
      u.enrs.Keys == {x} && u.enrs[x].after.token == Drawn(w.nextSecret) && w'.nextSecret == w.nextSecret + 1
  }

  lemma OpenKeepsTokens(w: World, w': World, h: Handle)
    requires TokenInv(w) && Opened(w, w', h) && DrawsFresh(w, w', w'.open[h].Unit())
    ensures TokenInv(w')
  {
    forall k, x | Draws(w', k, x)
      ensures k == h ==> NewToken(w', k, x) == Drawn(w.nextSecret)
      ensures k != h ==> Draws(w, k, x) && NewToken(w', k, x) == NewToken(w, k, x)
    {
    }
  }

  lemma OpenKeepsRest(w: World, w': World, h: Handle)
    requires RegInv(w) && OpenInv(w) && NodeInv(w) && Opened(w, w', h) && WorkFits(w, w'.open[h].Unit())
    ensures RegInv(w') && OpenInv(w') && NodeInv(w')
  {
    forall k | k in w'.open ensures WorkFits(w', w'.open[k].Unit()) {
      if k != h { assert WorkFits(w, w.open[k].Unit()); }
    }
  }

  /** What the handler's read makes of the world: nothing, or a handle that fits. */
  ghost predicate GoodRead(w: World, w': World, h: Handle) {
    w' == w || (Opened(w, w', h) && WorkFits(w, w'.open[h].Unit()) && DrawsFresh(w, w', w'.open[h].Unit()))
  }

  lemma NoWorkFits(w: World)
    ensures WorkFits(w, NO_WORK)
  {
  }

  /** A handler that only opens a conditional update. */
  lemma OpensIsGood(w: World, h: Handle, op: Operation)
    requires h !in w.open && op.Unit() == NO_WORK
    ensures GoodRead(w, w.Opens(h, op), h)
  {
    NoWorkFits(w);
  }

  lemma SavesIsGood(w: World, h: Handle, u: Work, drawn: nat)
    requires h !in w.open && WorkFits(w, u) && DrawsFresh(w, w.(nextSecret := w.nextSecret + drawn), u)
    ensures GoodRead(w, w.Saves(h, u, drawn), h)
  {
    assert w.Saves(h, u, drawn).open[h].Unit() == u;
  }

  lemma ProveReadIsGood(w: World, e: Event)
    requires RegInv(w) && e.ProveRead? && e.handle !in w.open
    ensures GoodRead(w, Read(w, e), e.handle)
  {
    var q := e.request;
    OpensIsGood(w, e.handle, Proving(q, e.challenge, w.now));
    if q in w.regs {
      SavesIsGood(w, e.handle, NO_WORK.(regs := map[q := Overdue(w.regs[q], w.now)]), 0);
    }
  }

  lemma ListReadIsGood(w: World, e: Event)
    requires e.ListRead? && e.handle !in w.open
    ensures GoodRead(w, Read(w, e), e.handle)
  {
    SavesIsGood(w, e.handle, ListWork(w.regs, w.now), 0);
  }

  lemma ClaimReadIsGood(w: World, e: Event)
    requires OpenInv(w) && e.ClaimRead? && e.handle !in w.open
    ensures GoodRead(w, Read(w, e), e.handle)
  {
    var x := e.enrollment;
    if e.ok && MayClaim(w, e.request, e.token, e.challenge, x) {
      var op := Claiming(e.request, e.token, e.challenge, x, ClaimWrite(w.enrs[x], w.now), w.now);
      assert WorkFits(w, op.Unit());
    }
  }

  lemma ExpireIsGood(w: World, h: Handle, x: EnrollmentId)
    requires OpenInv(w) && h !in w.open && x in w.enrs
    ensures GoodRead(w, w.Saves(h, ExpireWork(w.enrs[x], x), 0), h)
  {
    SavesIsGood(w, h, ExpireWork(w.enrs[x], x), 0);
  }

  lemma EnrollReadIsGood(w: World, e: Event)
    requires OpenInv(w) && e.EnrollRead? && e.handle !in w.open
    ensures GoodRead(w, Read(w, e), e.handle)
  {
    if e.enrollment in w.enrs { ExpireIsGood(w, e.handle, e.enrollment); }
    OpensIsGood(w, e.handle, Enrolling(e.enrollment, e.token, w.now));
  }

  lemma AdminReadIsGood(w: World, e: Event)
    requires OpenInv(w) && (e.RevokeRead? || e.RegenerateRead?) && e.handle !in w.open
    ensures GoodRead(w, Read(w, e), e.handle)
  {
    var x := e.enrollment;
    if x in w.enrs {
      SavesIsGood(w, e.handle, RevokeWork(w, x), 1);
      SavesIsGood(w, e.handle, RegenerateWork(w, x), 1);
    }
  }

  lemma RowsOfNode(w: World, n: NodeId, q: RequestId)
    requires RegInv(w) && q in w.regs && w.regs[q].node == Some(n)
    ensures q in w.accepted
  {
    assert RegFact(w.regs[q], q in w.accepted, q in w.rejected, w.claims[q]);
  }

  lemma ReportReadIsGood(w: World, e: Event)
    requires RegInv(w) && OpenInv(w) && e.ReportRead? && e.handle !in w.open
    ensures GoodRead(w, Read(w, e), e.handle)
  {
    if MayReport(w, e.enrollment, e.token) {
      forall q | q in w.regs && w.regs[q].node == Some(w.enrs[e.enrollment].node) ensures q in w.accepted {
        RowsOfNode(w, w.enrs[e.enrollment].node, q);
      }
      SavesIsGood(w, e.handle, ReportWork(w, e.enrollment, e.phase), 0);
    }
  }

  lemma OverdueReadIsGood(w: World, e: Event)
    requires OpenInv(w) && e.ListEnrollmentsRead? && e.handle !in w.open
    ensures GoodRead(w, Read(w, e), e.handle)
  {
    SavesIsGood(w, e.handle, OverdueWork(w.enrs, w.now), 0);
  }

  lemma ReadIsGood(w: World, e: Event)
    requires RegInv(w) && OpenInv(w) && IsRead(e) && e.handle !in w.open
    ensures GoodRead(w, Read(w, e), e.handle)
  {
    match e
    case ProveRead(_, _, _, _, _, _) => ProveReadIsGood(w, e);
    case AcceptRead(h, q, _, _) => OpensIsGood(w, h, Accepting(q));
    case ClaimRead(_, _, _, _, _, _, _) => ClaimReadIsGood(w, e);
    case EnrollRead(_, _, _, _, _) => EnrollReadIsGood(w, e);
    case ListRead(_, _) => ListReadIsGood(w, e);
    case ReportRead(_, _, _, _, _) => ReportReadIsGood(w, e);
    case ListEnrollmentsRead(_, _) => OverdueReadIsGood(w, e);
    case MonitorRead(h, _) => OpensIsGood(w, h, Watching(EnabledNodes(w.nodes), NO_WORK));
    case RevokeRead(_, _, _) => AdminReadIsGood(w, e);
    case RegenerateRead(_, _, _) => AdminReadIsGood(w, e);
  }

  lemma ReadKeeps(w: World, e: Event)
    requires Inv(w) && IsRead(e) && e.handle !in w.open
    ensures Inv(Read(w, e)) && GoodRead(w, Read(w, e), e.handle)
  {
    ReadIsGood(w, e);
    var w' := Read(w, e);
    if w' != w {
      OpenKeepsTokens(w, w', e.handle);
      OpenKeepsRest(w, w', e.handle);
    }
  }

  // ---- The monitor reads node after node ----

  /** The pass behind `h` goes on, and will save `more` besides. */
  ghost predicate Extended(w: World, w': World, h: Handle, more: Work) {
    && h in w.open && w.open[h].Watching? && h in w'.open && w'.open[h].Watching?
    && w'.open[h].work == w.open[h].work.And(more) && w' == w.(open := w.open[h := w'.open[h]])
  }

  lemma ProbeExtends(w: World, h: Handle, n: NodeId, health: Health)
    requires RegInv(w) && OpenInv(w) && h in w.open && w.open[h].Watching?
    ensures Extended(w, Probe(w, h, n, health), h, MonitorWork(w, n, health))
    ensures WorkFits(w, MonitorWork(w, n, health))
    ensures forall x :: x in MonitorWork(w, n, health).enrs ==> !MonitorWork(w, n, health).enrs[x].SetsToken()
  {
    forall q | q in w.regs && w.regs[q].node == Some(n) ensures q in w.accepted { RowsOfNode(w, n, q); }
  }

  lemma ExtendKeepsTokens(w: World, w': World, h: Handle, more: Work)
    requires TokenInv(w) && Extended(w, w', h, more) && forall x :: x in more.enrs ==> !more.enrs[x].SetsToken()
    ensures TokenInv(w')
  {
    forall k, x | Draws(w', k, x) ensures Draws(w, k, x) && NewToken(w', k, x) == NewToken(w, k, x) {}
  }

  lemma ExtendKeepsOpen(w: World, w': World, h: Handle, more: Work)
    requires OpenInv(w) && Extended(w, w', h, more) && WorkFits(w, more)
    ensures OpenInv(w')
  {
    forall k | k in w'.open ensures WorkFits(w', w'.open[k].Unit()) {
      assert WorkFits(w, w.open[k].Unit());
    }
  }

  lemma ProbeKeeps(w: World, h: Handle, n: NodeId, health: Health)
    requires Inv(w) && h in w.open && w.open[h].Watching?
    ensures Inv(Probe(w, h, n, health))
  {
    var w', more := Probe(w, h, n, health), MonitorWork(w, n, health);
    ProbeExtends(w, h, n, health);
    ExtendKeepsTokens(w, w', h, more);
    ExtendKeepsOpen(w, w', h, more);
    SameRows(w, w');
  }

  // ---- Commits ----

  /** Handle `h` is closed, whatever else happens. */
  ghost predicate Closed(w: World, w': World, h: Handle) {
    h in w.open && w'.open == w.open - {h}
  }

  lemma CloseKeepsOpen(w: World, w': World, h: Handle)
    requires OpenInv(w) && Closed(w, w', h) && w.accepted <= w'.accepted && w.knownEnrollments <= w'.knownEnrollments
    requires w'.enrs.Keys <= w'.knownEnrollments
    ensures OpenInv(w')
  {
    forall k | k in w'.open ensures WorkFits(w', w'.open[k].Unit()) {
      assert WorkFits(w, w.open[k].Unit());
    }
  }

  lemma DropKeepsTokens(w: World, w': World, h: Handle)
    requires TokenInv(w) && h in w.open && w' == w.(open := w.open - {h})
    ensures TokenInv(w')
  {
    forall k, x | Draws(w', k, x) ensures Draws(w, k, x) && NewToken(w', k, x) == NewToken(w, k, x) {}
  }

  lemma DropKeeps(w: World, w': World, h: Handle)
    requires Inv(w) && h in w.open && w' == w.(open := w.open - {h})
    ensures Inv(w')
  {
    CloseKeepsOpen(w, w', h);
    DropKeepsTokens(w, w', h);
    SameRows(w, w');
  }

  /** Registrations and bindings depend on the rows and their history only. */
  lemma SameRows(w: World, w': World)
    requires RegInv(w) && NodeInv(w) && w'.regs == w.regs && w'.enrs == w.enrs && w'.nodes == w.nodes
    requires w'.knownRequests == w.knownRequests && w'.accepted == w.accepted && w'.rejected == w.rejected
    requires w'.claims == w.claims
    ensures RegInv(w') && NodeInv(w')
  {
  }

  lemma SameOpen(w: World, w': World)
    requires OpenInv(w) && w'.open == w.open && w.accepted <= w'.accepted && w.knownEnrollments <= w'.knownEnrollments
    requires w'.enrs.Keys <= w'.knownEnrollments
    ensures OpenInv(w')
  {
    forall k | k in w'.open ensures WorkFits(w', w'.open[k].Unit()) {
      assert WorkFits(w, w.open[k].Unit());
    }
  }

  lemma SaveKeepsRegs(w: World, u: Work)
    requires RegInv(w) && WorkFits(w, u)
    ensures RegInv(Save(w, u))
  {
    var w' := Save(w, u);
    forall q | q in w'.regs ensures RegFact(w'.regs[q], q in w'.accepted, q in w'.rejected, w'.claims[q]) {
      assert RegFact(w.regs[q], q in w.accepted, q in w.rejected, w.claims[q]);
      if q in u.regs { assert RegWriteFits(u.regs[q], q in w.accepted); }
    }
  }

  lemma SaveKeepsNodes(w: World, u: Work)
    requires NodeInv(w)
    ensures NodeInv(Save(w, u))
  {
  }

  /** Where the stored token of `x` comes from. */
  lemma SavedToken(w: World, w': World, h: Handle, x: EnrollmentId)
    requires h in w.open && w'.enrs == SavedEnrs(w.enrs, w.open[h].Unit()) && x in w'.enrs
    ensures x in w.enrs
    ensures Draws(w, h, x) ==> w'.enrs[x].token == NewToken(w, h, x)
    ensures !Draws(w, h, x) ==> w'.enrs[x].token == w.enrs[x].token
  {
  }

  lemma SaveKeepsTokens(w: World, w': World, h: Handle)
    requires TokenInv(w) && Closed(w, w', h) && w'.enrs == SavedEnrs(w.enrs, w.open[h].Unit())
    requires w'.consumed == w.consumed && w'.nextSecret == w.nextSecret
    ensures TokenInv(w')
  {
    forall k, x | Draws(w', k, x) ensures k != h && Draws(w, k, x) && NewToken(w', k, x) == NewToken(w, k, x) {}
    forall x | x in w'.enrs ensures IsUnspent(w', w'.enrs[x].token) { SavedToken(w, w', h, x); }
    forall x, y | x in w'.enrs && y in w'.enrs && w'.enrs[x].token == w'.enrs[y].token ensures x == y {
      SavedToken(w, w', h, x);
      SavedToken(w, w', h, y);
    }
    forall k, x, y | Draws(w', k, x) && y in w'.enrs ensures w'.enrs[y].token != NewToken(w', k, x) {
      SavedToken(w, w', h, y);
    }
  }

  lemma SaveKeeps(w: World, h: Handle, w': World)
    requires Inv(w) && h in w.open && w' == Save(w.(open := w.open - {h}), w.open[h].Unit())
    ensures Inv(w')
  {
    var done := w.(open := w.open - {h});
    assert WorkFits(w, w.open[h].Unit());
    SaveKeepsRegs(done, w.open[h].Unit());
    SaveKeepsNodes(done, w.open[h].Unit());
    SaveKeepsTokens(w, w', h);
    CloseKeepsOpen(w, w', h);
  }

  /** One registration moves, and with it what has happened to it. */
  ghost predicate OneReg(w: World, w': World, q: RequestId) {
    && q in w.regs && q in w'.regs && w'.regs == w.regs[q := w'.regs[q]] && w'.knownRequests == w.knownRequests
    && w.accepted <= w'.accepted <= w.accepted + {q} && w.rejected <= w'.rejected <= w.rejected + {q}
    && !(q in w'.accepted && q in w'.rejected)
    && w'.claims[q] <= 1 && (w'.claims[q] > 0 ==> q in w'.accepted)
    && (forall p :: p != q ==> w'.claims[p] == w.claims[p])
    && RegFact(w'.regs[q], q in w'.accepted, q in w'.rejected, w'.claims[q])
  }

  lemma OneRegKeeps(w: World, w': World, q: RequestId)
    requires RegInv(w) && OneReg(w, w', q)
    ensures RegInv(w')
  {
  }

  lemma SameTokens(w: World, w': World)
    requires TokenInv(w) && w'.enrs == w.enrs && w'.consumed == w.consumed && w.nextSecret <= w'.nextSecret
    requires w'.open == w.open
    ensures TokenInv(w')
  {
    forall k, x | Draws(w', k, x) ensures Draws(w, k, x) && NewToken(w', k, x) == NewToken(w, k, x) {}
  }

  lemma ProofKeeps(w: World, q: RequestId, readAt: nat)
    requires Inv(w) && q in w.regs && w.regs[q].status.PendingProof?
    ensures Inv(CommitProof(w, q, readAt))
  {
    var w' := CommitProof(w, q, readAt);
    assert RegFact(w.regs[q], q in w.accepted, q in w.rejected, w.claims[q]);
    OneRegKeeps(w, w', q);
    SameTokens(w, w');
    SameOpen(w, w');
  }

  lemma ClaimKeeps(w: World, q: RequestId, readAt: nat)
    requires Inv(w) && q in w.regs && w.regs[q].status.Approved? && w.regs[q].token.Some?
    ensures Inv(CommitClaim(w, q, readAt))
  {
    var w' := CommitClaim(w, q, readAt);
    assert RegFact(w.regs[q], q in w.accepted, q in w.rejected, w.claims[q]);
    OneRegKeeps(w, w', q);
    SameTokens(w, w');
    SameOpen(w, w');
  }

  lemma RejectKeeps(w: World, q: RequestId)
    requires Inv(w) && q in w.regs && w.regs[q].status.PendingApproval?
    ensures Inv(RejectRequest(w, q))
  {
    var w' := RejectRequest(w, q);
    assert RegFact(w.regs[q], q in w.accepted, q in w.rejected, w.claims[q]);
    OneRegKeeps(w, w', q);
    SameTokens(w, w');
    SameOpen(w, w');
  }

  /** A new row, with a token drawn just now. */
  ghost predicate AddsEnr(w: World, w': World, x: EnrollmentId) {
    && x !in w.enrs && x in w'.enrs && w'.enrs == w.enrs[x := w'.enrs[x]] && w'.open == w.open
    && w'.enrs[x].token == Drawn(w.nextSecret) && w'.nextSecret == w.nextSecret + 1 && w'.consumed == w.consumed
  }

  lemma AddKeepsTokens(w: World, w': World, x: EnrollmentId)
    requires TokenInv(w) && AddsEnr(w, w', x)
    ensures TokenInv(w')
  {
    forall k, y | Draws(w', k, y) ensures Draws(w, k, y) && NewToken(w', k, y) == NewToken(w, k, y) {}
  }

  lemma AcceptKeepsNodes(w: World, q: RequestId, n: NodeId, x: EnrollmentId)
    requires NodeInv(w) && q in w.regs && n !in w.nodes && x !in w.enrs
    ensures NodeInv(CommitAccept(w, q, n, x))
  {
  }

  lemma AcceptKeeps(w: World, q: RequestId, n: NodeId, x: EnrollmentId)
    requires Inv(w) && q in w.regs && w.regs[q].status.PendingApproval? && w.regs[q].proved
    requires n !in w.nodes && x !in w.knownEnrollments
    ensures Inv(CommitAccept(w, q, n, x))
  {
    var w' := CommitAccept(w, q, n, x);
    assert RegFact(w.regs[q], q in w.accepted, q in w.rejected, w.claims[q]);
    OneRegKeeps(w, w', q);
    AddKeepsTokens(w, w', x);
    AcceptKeepsNodes(w, q, n, x);
    SameOpen(w, w');
  }

  lemma EnrollKeepsTokens(w: World, x: EnrollmentId, readAt: nat)
    requires TokenInv(w) && x in w.enrs
    ensures TokenInv(CommitEnroll(w, x, readAt))
  {
    var w' := CommitEnroll(w, x, readAt);
    assert IsUnspent(w, w.enrs[x].token);
    forall k, y | Draws(w', k, y) ensures Draws(w, k, y) && NewToken(w', k, y) == NewToken(w, k, y) {}
    forall y | y in w'.enrs ensures IsUnspent(w', w'.enrs[y].token) { assert IsUnspent(w, w.enrs[y].token); }
  }

  lemma EnrollKeeps(w: World, x: EnrollmentId, readAt: nat)
    requires Inv(w) && x in w.enrs
    ensures Inv(CommitEnroll(w, x, readAt))
  {
    var w' := CommitEnroll(w, x, readAt);
    EnrollKeepsTokens(w, x, readAt);
    SameOpen(w, w');
  }

  lemma CommittedKeeps(w: World, op: Operation, n: NodeId, x: EnrollmentId)
    requires Inv(w) && Succeeds(w, op, n, x) && (op.Proving? || op.Accepting? || op.Enrolling?)
    ensures Inv(Committed(w, op, n, x))
  {
    match op
    case Proving(q, _, readAt) => ProofKeeps(w, q, readAt);
    case Accepting(q) => AcceptKeeps(w, q, n, x);
    case Enrolling(e, _, readAt) => EnrollKeeps(w, e, readAt);
  }

  lemma CommitKeeps(w: World, h: Handle, n: NodeId, x: EnrollmentId)
    requires Inv(w) && h in w.open
    ensures Inv(CommitOperation(w, h, n, x))
  {
    var done := w.(open := w.open - {h});
    var op := w.open[h];
    DropKeeps(w, done, h);
    if Succeeds(w, op, n, x) {
      if op.Claiming? {
        SaveKeeps(w, h, Save(done, op.Unit()));
        ClaimKeeps(Save(done, op.Unit()), op.request, op.readAt);
      } else if op.IsSave() {
        SaveKeeps(w, h, Save(done, op.work));
      } else {
        CommittedKeeps(done, op, n, x);
      }
    }
  }

  // ---- The other events ----

  lemma RegisterKeeps(w: World, q: RequestId)
    requires Inv(w) && q !in w.knownRequests
    ensures Inv(RegisterRequest(w, q))
  {
    var w' := RegisterRequest(w, q);
    SameTokens(w, w');
    SameOpen(w, w');
  }

  lemma NewEnrollmentKeeps(w: World, n: NodeId, x: EnrollmentId)
    requires Inv(w) && n !in w.nodes && x !in w.knownEnrollments
    ensures Inv(NewEnrollment(w, n, x))
  {
    var w' := NewEnrollment(w, n, x);
    AddKeepsTokens(w, w', x);
    SameOpen(w, w');
  }

  lemma RemoveKeepsTokens(w: World, n: NodeId)
    requires TokenInv(w)
    ensures TokenInv(RemoveNode(w, n))
  {
    var w' := RemoveNode(w, n);
    forall k, y | Draws(w', k, y) ensures Draws(w, k, y) && NewToken(w', k, y) == NewToken(w, k, y) {}
  }

  lemma RemoveKeepsRegs(w: World, n: NodeId)
    requires RegInv(w)
    ensures RegInv(RemoveNode(w, n))
  {
    var w' := RemoveNode(w, n);
    forall q | q in w'.regs ensures RegFact(w'.regs[q], q in w'.accepted, q in w'.rejected, w'.claims[q]) {
      assert RegFact(w.regs[q], q in w.accepted, q in w.rejected, w.claims[q]);
    }
  }

  lemma RemoveKeepsNodes(w: World, n: NodeId)
    requires NodeInv(w)
    ensures NodeInv(RemoveNode(w, n))
  {
  }

  lemma RemoveKeeps(w: World, n: NodeId)
    requires Inv(w)
    ensures Inv(RemoveNode(w, n))
  {
    RemoveKeepsTokens(w, n);
    RemoveKeepsRegs(w, n);
    RemoveKeepsNodes(w, n);
    SameOpen(w, RemoveNode(w, n));
  }

  lemma SwitchKeeps(w: World, n: NodeId, enabled: bool)
    requires Inv(w) && n in w.nodes
    ensures Inv(w.(nodes := w.nodes[n := enabled]))
  {
    var w' := w.(nodes := w.nodes[n := enabled]);
    SameTokens(w, w');
    SameOpen(w, w');
  }

  lemma TickKeeps(w: World, at: nat)
    requires Inv(w)
    ensures Inv(w.(now := at))
  {
    var w' := w.(now := at);
    SameTokens(w, w');
    SameOpen(w, w');
  }

  lemma ApplyKeeps(w: World, e: Event)
    requires Inv(w)
    ensures Inv(Apply(w, e))
  {
    if IsRead(e) {
      if e.handle !in w.open { ReadKeeps(w, e); }
    } else {
      match e
      case Commit(h, n, x, _) => if h in w.open { CommitKeeps(w, h, n, x); }
      case Register(q, ok, _) => if q !in w.knownRequests { RegisterKeeps(w, q); }
      case Reject(q, _) => if q in w.regs && w.regs[q].status.PendingApproval? { RejectKeeps(w, q); }
      case CreateEnrollment(n, x, _) => if n !in w.nodes && x !in w.knownEnrollments { NewEnrollmentKeeps(w, n, x); }
      case MonitorProbe(h, n, health, _) =>
        if h in w.open && w.open[h].Watching? && n in w.open[h].left { ProbeKeeps(w, h, n, health); }
      case SetNodeEnabled(n, enabled, _) => if n in w.nodes { SwitchKeeps(w, n, enabled); }
      case DeleteNode(n, _) => RemoveKeeps(w, n);
    }
  }

  lemma StepKeeps(w: World, e: Event)
    requires Inv(w)
    ensures Inv(Step(w, e))
  {
    if w.now <= e.at {
      TickKeeps(w, e.at);
      ApplyKeeps(w.(now := e.at), e);
    }
  }

  lemma {:induction false} EveryRunKeepsInv(w: World, events: seq<Event>)
    requires Inv(w)
    ensures Inv(Run(w, events))
    decreases |events|
  {
    if events == [] {
      assert Run(w, events) == w;
    } else {
      StepKeeps(w, events[0]);
      EveryRunKeepsInv(Step(w, events[0]), events[1..]);
    }
  }

  ghost predicate Reachable(w: World) { exists events :: w == Run(EMPTY, events) }

  lemma EmptyInv()
    ensures Inv(EMPTY)
  {
  }

  lemma ReachableInv(w: World)
    requires Reachable(w)
    ensures Inv(w)
  {
    EmptyInv();
    var events :| w == Run(EMPTY, events);
    EveryRunKeepsInv(EMPTY, events);
  }

  lemma OpenFits(w: World)
    requires Reachable(w)
    ensures OpenInv(w)
  {
    ReachableInv(w);
  }

  // ---- Registration safety ----

  /** A request in approved, installing, ready, failed or online was proved and accepted before. */
  lemma EarnedMeansAccepted(w: World, q: RequestId)
    requires Reachable(w) && q in w.regs && Earned(w.regs[q].status)
    ensures w.regs[q].proved && q in w.accepted
  {
    ReachableInv(w);
    assert RegFact(w.regs[q], q in w.accepted, q in w.rejected, w.claims[q]);
  }

  /** Accept and reject never both take effect. */
  lemma DecidedOnce(w: World)
    requires Reachable(w)
    ensures w.accepted !! w.rejected
  {
    ReachableInv(w);
  }

  /** Claim-approved succeeds at most once per request, and only for an accepted one. */
  lemma ClaimedOnce(w: World, q: RequestId)
    requires Reachable(w)
    ensures w.claims[q] <= 1 && (w.claims[q] > 0 ==> q in w.accepted)
  {
    ReachableInv(w);
  }

  // ---- Enrollments ----

  /** An enrollment token is consumed at most once, however claims, regenerations and revocations interleave. */
  lemma TokenConsumedOnce(w: World, t: Secret)
    requires Reachable(w)
    ensures w.consumed[t] <= 1
  {
    ReachableInv(w);
  }

  /** A spent token is never stored again. */
  lemma SpentStaysSpent(w: World, x: EnrollmentId)
    requires Reachable(w) && x in w.enrs
    ensures w.enrs[x].token !in w.consumed
  {
    ReachableInv(w);
    assert IsUnspent(w, w.enrs[x].token);
  }

  lemma OnePerNode(w: World, x: EnrollmentId, y: EnrollmentId, p: RequestId, q: RequestId)
    requires Reachable(w)
    ensures x in w.enrs && y in w.enrs && w.enrs[x].node == w.enrs[y].node ==> x == y
    ensures p in w.regs && q in w.regs && w.regs[p].node.Some? && w.regs[p].node == w.regs[q].node ==> p == q
  {
    ReachableInv(w);
  }

  predicate HoldsReport(s: EnrStatus) { s.Claimed? || s.Installing? || s.Ready? || s.Failed? }

  // ---- When an enrollment leaves a status ----

  /** The event completes a handler that had read `x` and now sets another status. */
  ghost predicate Overwrites(w: World, e: Event, x: EnrollmentId)
    requires x in w.enrs
  {
    && e.Commit? && e.handle in w.open
    && var op := w.open[e.handle];
    && x in op.Unit().enrs && op.Unit().enrs[x].SetsStatus() && op.Unit().enrs[x].after.status != w.enrs[x].status
    && Succeeds(w, op, e.node, e.enrollment)
  }

  lemma CommitLeaves(w: World, e: Event, x: EnrollmentId)
    requires OpenInv(w) && e.Commit? && e.handle in w.open && x in w.enrs && !w.enrs[x].status.Pending?
    ensures var w' := CommitOperation(w, e.handle, e.node, e.enrollment);
            x in w'.enrs && (w'.enrs[x].status != w.enrs[x].status <==> Overwrites(w, e, x))
  {
    var op := w.open[e.handle];
    var done := w.(open := w.open - {e.handle});
    if Succeeds(w, op, e.node, e.enrollment) {
      if op.Claiming? || op.IsSave() {
        assert Save(done, op.Unit()).enrs == SavedEnrs(w.enrs, op.Unit());
      }
    }
  }

  lemma OtherLeaves(w: World, e: Event, x: EnrollmentId)
    requires OpenInv(w) && !e.Commit? && x in w.enrs && x in Apply(w, e).enrs
    ensures Apply(w, e).enrs[x] == w.enrs[x]
  {
    if IsRead(e) && e.handle !in w.open { ReadRows(w, e); }
  }

  lemma ReadRows(w: World, e: Event)
    requires IsRead(e)
    ensures Read(w, e).enrs == w.enrs
  {
  }

  /** The guards do not look at the clock. */
  lemma AnyTime(w: World, now: nat, e: Event, x: EnrollmentId)
    requires x in w.enrs
    ensures Overwrites(w.(now := now), e, x) == Overwrites(w, e, x)
  {
  }

  /**
    Outside of pending, the status of an enrollment changes exactly when a handler completes that had
    read the enrollment earlier and sets another status.
  */
  lemma StatusIsLeft(w: World, e: Event, x: EnrollmentId)
    requires Reachable(w) && x in w.enrs && !w.enrs[x].status.Pending? && x in Step(w, e).enrs && w.now <= e.at
    ensures Step(w, e).enrs[x].status != w.enrs[x].status <==> Overwrites(w, e, x)
  {
    var w0 := w.(now := e.at);
    OpenFits(w);
    SameOpen(w, w0);
    if e.Commit? {
      if e.handle in w.open {
        CommitLeaves(w0, e, x);
        AnyTime(w, e.at, e, x);
      }
    } else {
      OtherLeaves(w0, e, x);
    }
  }

  /** No handler between read and commit is going to save `x`. */
  ghost predicate Untouched(w: World, x: EnrollmentId) {
    forall h :: h in w.open ==> x !in w.open[h].Unit().enrs
  }

  /** Revoked, unless it is being regenerated, and online have no handler that reads them to write them. */
  ghost predicate Leaves(e: Event, x: EnrollmentId, row: Enrollment) {
    (e.DeleteNode? && e.node == row.node) || (row.status.Revoked? && e.RegenerateRead? && e.enrollment == x)
  }

  lemma OpenAlone(w: World, w': World, h: Handle, x: EnrollmentId)
    requires Untouched(w, x) && (w' == w || (Opened(w, w', h) && x !in w'.open[h].Unit().enrs))
    ensures Untouched(w', x)
  {
  }

  /** What a handler that has just read row `row` of `x` may be going to save. */
  ghost predicate Planned(e: Event, x: EnrollmentId, row: Enrollment, r: EnrWrite) {
    && r.before == row
    && (|| (row.status.Claimed? && r.after.status.Installing? && r.after.report == row.report)
        || (row.status.Pending? && r.after.report == row.report)
        || (!row.status.Revoked? && !row.status.Online? && r.after.report.None?)
        || (e.RegenerateRead? && e.enrollment == x && !HoldsReport(row.status) && !row.status.Online?)
        || (row.report.Some? && !row.status.Revoked? && !row.status.Online? && HoldsReport(r.after.status))
        || (Watched(row.status) && (HoldsReport(r.after.status) || r.after.report.None?)))
  }

  /** The read of `e` plans nothing for `x`, or something that fits the row. */
  ghost predicate PlansWell(w: World, w': World, h: Handle, e: Event, x: EnrollmentId)
    requires x in w.enrs
  {
    h in w'.open && x in w'.open[h].Unit().enrs ==> Planned(e, x, w.enrs[x], w'.open[h].Unit().enrs[x])
  }

  lemma NodePlans(w: World, e: Event, x: EnrollmentId)
    requires (e.ReportRead? || e.MonitorRead? || e.ListEnrollmentsRead?) && e.handle !in w.open && x in w.enrs
    ensures PlansWell(w, Read(w, e), e.handle, e, x)
  {
  }

  /** What the monitor plans for a row it has just read. */
  lemma ProbePlans(w: World, n: NodeId, health: Health, e: Event, x: EnrollmentId)
    requires x in w.enrs && x in MonitorWork(w, n, health).enrs
    ensures Planned(e, x, w.enrs[x], MonitorWork(w, n, health).enrs[x]) && Watched(w.enrs[x].status)
  {
  }

  lemma AdminPlans(w: World, e: Event, x: EnrollmentId)
    requires (e.RevokeRead? || e.RegenerateRead? || e.ListRead?) && e.handle !in w.open && x in w.enrs
    ensures PlansWell(w, Read(w, e), e.handle, e, x)
  {
  }

  lemma RequestPlans(w: World, e: Event, x: EnrollmentId)
    requires (e.ProveRead? || e.AcceptRead? || e.ClaimRead? || e.EnrollRead?) && e.handle !in w.open && x in w.enrs
    ensures PlansWell(w, Read(w, e), e.handle, e, x)
  {
  }

  lemma ReadPlans(w: World, e: Event, x: EnrollmentId)
    requires IsRead(e) && e.handle !in w.open && x in w.enrs
    ensures PlansWell(w, Read(w, e), e.handle, e, x)
  {
    if e.ReportRead? || e.MonitorRead? || e.ListEnrollmentsRead? {
      NodePlans(w, e, x);
    } else if e.RevokeRead? || e.RegenerateRead? || e.ListRead? {
      AdminPlans(w, e, x);
    } else {
      RequestPlans(w, e, x);
    }
  }

  lemma NothingPlanned(e: Event, x: EnrollmentId, row: Enrollment, r: EnrWrite)
    requires (row.status.Revoked? || row.status.Online?) && !Leaves(e, x, row)
    ensures !Planned(e, x, row, r)
  {
  }

  lemma ReadsLeaveAlone(w: World, e: Event, x: EnrollmentId)
    requires Inv(w) && x in w.enrs && (w.enrs[x].status.Revoked? || w.enrs[x].status.Online?)
    requires !Leaves(e, x, w.enrs[x])
    requires IsRead(e) && e.handle !in w.open && Untouched(w, x)
    ensures Untouched(Read(w, e), x)
  {
    var w', h := Read(w, e), e.handle;
    ReadPlans(w, e, x);
    ReadIsGood(w, e);
    if h in w'.open && x in w'.open[h].Unit().enrs { NothingPlanned(e, x, w.enrs[x], w'.open[h].Unit().enrs[x]); }
    OpenAlone(w, w', h, x);
  }

  lemma SettledStep(w: World, e: Event, x: EnrollmentId)
    requires Inv(w) && x in w.enrs && (w.enrs[x].status.Revoked? || w.enrs[x].status.Online?)
    requires Untouched(w, x) && !Leaves(e, x, w.enrs[x])
    ensures var w' := Apply(w, e);
            && x in w'.enrs && w'.enrs[x].status == w.enrs[x].status && w'.enrs[x].node == w.enrs[x].node
            && Untouched(w', x)
  {
    if e.Commit? {
      if e.handle in w.open {
        CommitLeaves(w, e, x);
        CommitKeepsNode(w, e, x);
      }
    } else if IsRead(e) {
      if e.handle !in w.open {
        ReadRows(w, e);
        ReadsLeaveAlone(w, e, x);
      }
    } else if e.MonitorProbe? {
      ProbeLeavesAlone(w, e, x);
    } else {
      PlainEventLeaves(w, e, x);
    }
  }

  lemma ProbeLeavesAlone(w: World, e: Event, x: EnrollmentId)
    requires x in w.enrs && (w.enrs[x].status.Revoked? || w.enrs[x].status.Online?)
    requires Untouched(w, x) && e.MonitorProbe?
    ensures Apply(w, e).enrs == w.enrs && Untouched(Apply(w, e), x)
  {
    assert x !in MonitorWork(w, e.node, e.health).enrs;
  }

  lemma PlainEventLeaves(w: World, e: Event, x: EnrollmentId)
    requires OpenInv(w) && !e.Commit? && !IsRead(e) && !e.MonitorProbe?
    requires x in w.enrs && !(e.DeleteNode? && e.node == w.enrs[x].node)
    ensures var w' := Apply(w, e); x in w'.enrs && w'.enrs[x] == w.enrs[x] && w'.open == w.open
  {
  }

  lemma CommitKeepsNode(w: World, e: Event, x: EnrollmentId)
    requires OpenInv(w) && e.Commit? && e.handle in w.open && x in w.enrs && Untouched(w, x)
    ensures var w' := CommitOperation(w, e.handle, e.node, e.enrollment);
            x in w'.enrs && w'.enrs[x].node == w.enrs[x].node && Untouched(w', x)
  {
  }

  ghost predicate IsSettled(w: World, x: EnrollmentId, row: Enrollment) {
    && x in w.enrs && w.enrs[x].status == row.status && w.enrs[x].node == row.node && Untouched(w, x)
    && (row.status.Revoked? || row.status.Online?)
  }

  lemma SettledNext(w: World, e: Event, x: EnrollmentId, row: Enrollment)
    requires Inv(w) && IsSettled(w, x, row) && !Leaves(e, x, row)
    ensures Inv(Step(w, e)) && IsSettled(Step(w, e), x, row)
  {
    StepKeeps(w, e);
    if w.now <= e.at {
      TickKeeps(w, e.at);
      SettledStep(w.(now := e.at), e, x);
    }
  }

  /**
    Revoked and online over whole runs: if no handler has read the enrollment when it is revoked or goes
    online, it stays so in every continuation that neither deletes its node nor regenerates it; an
    online one cannot be regenerated in the first place.
  */
  lemma {:induction false} SettledForGood(w: World, events: seq<Event>, x: EnrollmentId, row: Enrollment)
    requires Inv(w) && IsSettled(w, x, row)
    requires forall i :: 0 <= i < |events| ==> !Leaves(events[i], x, row)
    ensures IsSettled(Run(w, events), x, row)
    decreases |events|
  {
    if events == [] {
      assert Run(w, events) == w;
    } else {
      SettledNext(w, events[0], x, row);
      SettledForGood(Step(w, events[0]), events[1..], x, row);
    }
  }

  lemma RevokedStays(w: World, events: seq<Event>, x: EnrollmentId)
    requires Reachable(w) && x in w.enrs && w.enrs[x].status.Revoked? && Untouched(w, x)
    requires forall i :: 0 <= i < |events| ==>
      && !(events[i].DeleteNode? && events[i].node == w.enrs[x].node)
      && !(events[i].RegenerateRead? && events[i].enrollment == x)
    ensures x in Run(w, events).enrs && Run(w, events).enrs[x].status.Revoked?
  {
    ReachableInv(w);
    SettledForGood(w, events, x, w.enrs[x]);
  }

  lemma OnlineStays(w: World, events: seq<Event>, x: EnrollmentId)
    requires Reachable(w) && x in w.enrs && w.enrs[x].status.Online? && Untouched(w, x)
    requires forall i :: 0 <= i < |events| ==> !(events[i].DeleteNode? && events[i].node == w.enrs[x].node)
    ensures x in Run(w, events).enrs && Run(w, events).enrs[x].status.Online?
  {
    ReachableInv(w);
    SettledForGood(w, events, x, w.enrs[x]);
  }

  // ---- Report tokens ----

  /** A stored report token implies claimed, installing, ready or failed. */
  predicate IsSound(row: Enrollment) { row.report.Some? ==> HoldsReport(row.status) }

  /** The save sets a status that goes with no report token, and leaves the report token alone. */
  predicate Strands(r: EnrWrite) {
    r.SetsStatus() && !HoldsReport(r.after.status) && r.after.report == r.before.report
  }

  ghost predicate StrandsToken(w: World, e: Event, x: EnrollmentId)
    requires x in w.enrs
  {
    && e.Commit? && e.handle in w.open
    && var op := w.open[e.handle];
    && x in op.Unit().enrs && Strands(op.Unit().enrs[x]) && w.enrs[x].report.Some?
    && Succeeds(w, op, e.node, e.enrollment)
  }

  lemma AnyTimeStrands(w: World, now: nat, e: Event, x: EnrollmentId)
    requires x in w.enrs
    ensures StrandsToken(w.(now := now), e, x) == StrandsToken(w, e, x)
  {
  }

  lemma OntoIsSound(r: EnrWrite, row: Enrollment)
    requires EnrWriteFits(r) && IsSound(row)
    ensures IsSound(r.Onto(row)) <==> !(Strands(r) && row.report.Some?)
  {
  }

  lemma CommitStrands(w: World, e: Event, x: EnrollmentId)
    requires OpenInv(w) && e.Commit? && e.handle in w.open && x in w.enrs && IsSound(w.enrs[x])
    ensures var w' := CommitOperation(w, e.handle, e.node, e.enrollment);
            x in w'.enrs && (IsSound(w'.enrs[x]) <==> !StrandsToken(w, e, x))
  {
    var op := w.open[e.handle];
    assert WorkFits(w, op.Unit());
    if x in op.Unit().enrs { OntoIsSound(op.Unit().enrs[x], w.enrs[x]); }
    if Succeeds(w, op, e.node, e.enrollment) && (op.Claiming? || op.IsSave()) {
      assert Save(w.(open := w.open - {e.handle}), op.Unit()).enrs == SavedEnrs(w.enrs, op.Unit());
    }
  }

  /**
    A report token comes to be stored beside another status exactly when a handler completes that had
    read the row, sets such a status and does not write the token, and the row holds one by now.
  */
  lemma ReportTokenIsStranded(w: World, e: Event, x: EnrollmentId)
    requires Reachable(w) && x in w.enrs && IsSound(w.enrs[x]) && x in Step(w, e).enrs && w.now <= e.at
    ensures !IsSound(Step(w, e).enrs[x]) <==> StrandsToken(w, e, x)
  {
    var w0 := w.(now := e.at);
    OpenFits(w);
    SameOpen(w, w0);
    if e.Commit? {
      if e.handle in w.open {
        CommitStrands(w0, e, x);
        AnyTimeStrands(w, e.at, e, x);
      }
    } else {
      OtherLeaves(w0, e, x);
    }
  }

  /** Every row is sound, and no open handler threatens a stored report token. */
  ghost predicate SafeInv(w: World) {
    && (forall x :: x in w.enrs ==> IsSound(w.enrs[x]))
    && (forall h, x :: h in w.open && x in w.open[h].Unit().enrs && x in w.enrs && w.enrs[x].report.Some? ==>
          !Strands(w.open[h].Unit().enrs[x]))
  }

  /** The event does not complete an enrollment claim while a handler that strands its token has read the row. */
  ghost predicate IsCareful(w: World, e: Event) {
    e.Commit? && e.handle in w.open && w.open[e.handle].Enrolling? ==>
      forall h :: h in w.open && w.open[e.handle].enrollment in w.open[h].Unit().enrs ==>
        !Strands(w.open[h].Unit().enrs[w.open[e.handle].enrollment])
  }

  ghost predicate IsCarefulRun(w: World, events: seq<Event>)
    decreases |events|
  {
    events == [] || (IsCareful(w, events[0]) && IsCarefulRun(Step(w, events[0]), events[1..]))
  }

  lemma PlannedIsSafe(e: Event, x: EnrollmentId, row: Enrollment, r: EnrWrite)
    requires IsSound(row) && row.report.Some? && Planned(e, x, row, r)
    ensures !Strands(r)
  {
  }

  lemma OpenKeepsSafe(w: World, w': World, h: Handle)
    requires SafeInv(w) && Opened(w, w', h)
    requires forall x :: x in w'.open[h].Unit().enrs && x in w.enrs && w.enrs[x].report.Some? ==>
      !Strands(w'.open[h].Unit().enrs[x])
    ensures SafeInv(w')
  {
  }

  lemma ReadKeepsSafe(w: World, e: Event)
    requires Inv(w) && SafeInv(w) && IsRead(e) && e.handle !in w.open
    ensures SafeInv(Read(w, e))
  {
    var w', h := Read(w, e), e.handle;
    ReadIsGood(w, e);
    if w' != w {
      forall x | x in w'.open[h].Unit().enrs && x in w.enrs && w.enrs[x].report.Some?
        ensures !Strands(w'.open[h].Unit().enrs[x])
      {
        ReadPlans(w, e, x);
        PlannedIsSafe(e, x, w.enrs[x], w'.open[h].Unit().enrs[x]);
      }
      OpenKeepsSafe(w, w', h);
    }
  }

  lemma CommitCloses(w: World, h: Handle, n: NodeId, x: EnrollmentId)
    requires h in w.open
    ensures CommitOperation(w, h, n, x).open == w.open - {h}
  {
  }

  lemma CommitKeepsSound(w: World, e: Event, x: EnrollmentId)
    requires OpenInv(w) && SafeInv(w) && e.Commit? && e.handle in w.open
    requires x in CommitOperation(w, e.handle, e.node, e.enrollment).enrs
    ensures IsSound(CommitOperation(w, e.handle, e.node, e.enrollment).enrs[x])
  {
    if x in w.enrs { CommitStrands(w, e, x); }
  }

  lemma CommitKeepsUnthreatened(w: World, e: Event, h: Handle, x: EnrollmentId)
    requires OpenInv(w) && SafeInv(w) && e.Commit? && e.handle in w.open && IsCareful(w, e)
    requires h in w.open && h != e.handle && x in w.open[h].Unit().enrs
    requires var w' := CommitOperation(w, e.handle, e.node, e.enrollment); x in w'.enrs && w'.enrs[x].report.Some?
    ensures !Strands(w.open[h].Unit().enrs[x])
  {
    assert WorkFits(w, w.open[h].Unit());
    TokenComesFrom(w, e, x);
  }

  lemma CommitKeepsSafe(w: World, e: Event)
    requires OpenInv(w) && SafeInv(w) && e.Commit? && e.handle in w.open && IsCareful(w, e)
    ensures SafeInv(CommitOperation(w, e.handle, e.node, e.enrollment))
  {
    var w' := CommitOperation(w, e.handle, e.node, e.enrollment);
    CommitCloses(w, e.handle, e.node, e.enrollment);
    forall x | x in w'.enrs ensures IsSound(w'.enrs[x]) { CommitKeepsSound(w, e, x); }
    forall h, x | h in w'.open && x in w'.open[h].Unit().enrs && x in w'.enrs && w'.enrs[x].report.Some?
      ensures !Strands(w'.open[h].Unit().enrs[x])
    {
      CommitKeepsUnthreatened(w, e, h, x);
    }
  }

  /** A row that holds a report token after a commit held one before, or was just claimed, or is new. */
  lemma TokenComesFrom(w: World, e: Event, x: EnrollmentId)
    requires OpenInv(w) && e.Commit? && e.handle in w.open
    requires var w' := CommitOperation(w, e.handle, e.node, e.enrollment); x in w'.enrs && w'.enrs[x].report.Some?
    ensures || (x in w.enrs && w.enrs[x].report.Some?)
            || (x in w.enrs && w.open[e.handle].Enrolling? && w.open[e.handle].enrollment == x)
            || x !in w.knownEnrollments
  {
    assert WorkFits(w, w.open[e.handle].Unit());
  }

  lemma OtherKeepsSafe(w: World, e: Event)
    requires OpenInv(w) && SafeInv(w) && !e.Commit? && !IsRead(e) && !e.MonitorProbe?
    ensures SafeInv(Apply(w, e))
  {
    forall h | h in w.open ensures WorkFits(w, w.open[h].Unit()) {}
  }

  lemma ProbeKeepsSafe(w: World, e: Event)
    requires SafeInv(w) && e.MonitorProbe?
    ensures SafeInv(Apply(w, e))
  {
    var w', more := Apply(w, e), MonitorWork(w, e.node, e.health);
    forall h, x | h in w'.open && x in w'.open[h].Unit().enrs && x in w.enrs && w.enrs[x].report.Some?
      ensures !Strands(w'.open[h].Unit().enrs[x])
    {
      if x in more.enrs {
        ProbePlans(w, e.node, e.health, e, x);
        PlannedIsSafe(e, x, w.enrs[x], more.enrs[x]);
      }
    }
  }

  lemma SafeStep(w: World, e: Event)
    requires Inv(w) && SafeInv(w) && IsCareful(w, e)
    ensures Inv(Step(w, e)) && SafeInv(Step(w, e))
  {
    StepKeeps(w, e);
    if w.now <= e.at {
      var w0 := w.(now := e.at);
      TickKeeps(w, e.at);
      if IsRead(e) {
        if e.handle !in w.open { ReadKeepsSafe(w0, e); }
      } else if e.Commit? {
        if e.handle in w.open { CommitKeepsSafe(w0, e); }
      } else if e.MonitorProbe? {
        ProbeKeepsSafe(w0, e);
      } else {
        OtherKeepsSafe(w0, e);
      }
    }
  }

  lemma {:induction false} SafeRun(w: World, events: seq<Event>)
    requires Inv(w) && SafeInv(w) && IsCarefulRun(w, events)
    ensures SafeInv(Run(w, events))
    decreases |events|
  {
    if events == [] {
      assert Run(w, events) == w;
    } else {
      SafeStep(w, events[0]);
      SafeRun(Step(w, events[0]), events[1..]);
    }
  }

  /**
    Over whole runs: if no enrollment claim completes while a handler that would strand its report token
    has read the row, then a stored report token always implies claimed, installing, ready or failed.
  */
  lemma ReportTokenMeansClaimed(events: seq<Event>, x: EnrollmentId)
    requires IsCarefulRun(EMPTY, events) && x in Run(EMPTY, events).enrs
    ensures IsSound(Run(EMPTY, events).enrs[x])
  {
    EmptyInv();
    SafeRun(EMPTY, events);
  }

  // ---- Runs that show what the saves can do ----

  lemma ReachableStep(w: World, e: Event)
    requires Reachable(w)
    ensures Reachable(Step(w, e))
  {
    var events :| w == Run(EMPTY, events);
    RunAppend(EMPTY, events, e);
  }

  lemma {:induction false} RunAppend(w: World, events: seq<Event>, e: Event)
    ensures Run(w, events + [e]) == Step(Run(w, events), e)
    decreases |events|
  {
    if events == [] {
      assert events + [e] == [e] && [e][1..] == [];
    } else {
      assert (events + [e])[1..] == events[1..] + [e];
      RunAppend(Step(w, events[0]), events[1..], e);
    }
  }

  /** Node 7 and its enrollment 9, without any registration. */
  ghost predicate IsScene(w: World, row: Enrollment, open: map<Handle, Operation>) {
    && Reachable(w) && w.now == 0 && 7 in w.nodes && w.regs == map[] && row.node == 7
    && w.enrs == map[9 := row] && w.open == open
  }

  const NEW_ROW := Enrollment(7, Drawn(0), None, Pending, 15 * MINUTES, false)

  lemma Created() returns (w: World)
    ensures IsScene(w, NEW_ROW, map[]) && w.nodes == map[7 := false]
  {
    assert Reachable(EMPTY) by { assert EMPTY == Run(EMPTY, []); }
    w := Step(EMPTY, CreateEnrollment(7, 9, 0));
    ReachableStep(EMPTY, CreateEnrollment(7, 9, 0));
  }

  /** A step of the scene that opens a handle. */
  lemma Opens(w: World, e: Event, row: Enrollment, open: map<Handle, Operation>, op: Operation) returns (w': World)
    requires IsScene(w, row, open) && IsRead(e) && e.handle !in open && e.at == 0
    requires Read(w, e).open == open[e.handle := op] && Read(w, e).regs == w.regs && Read(w, e).nodes == w.nodes
    requires Read(w, e).now == w.now
    ensures w' == Step(w, e) && IsScene(w', row, open[e.handle := op]) && w'.nodes == w.nodes
  {
    w' := Step(w, e);
    ReachableStep(w, e);
    ReadRows(w, e);
    assert w.(now := 0) == w;
  }

  /** A step of the scene that completes a claim of the enrollment. */
  lemma Claims(w: World, h: Handle, row: Enrollment, open: map<Handle, Operation>) returns (w': World, row': Enrollment)
    requires IsScene(w, row, open) && h in open && open[h] == Enrolling(9, row.token, 0)
    requires row.status.Pending? && !row.claimed
    ensures IsScene(w', row', open - {h}) && row'.status.Claimed? && row'.report.Some? && row'.expiresAt > 0
    ensures w'.nodes == w.nodes
  {
    var e := Commit(h, 0, 0, 0);
    w' := Step(w, e);
    ReachableStep(w, e);
    assert w.(now := 0) == w;
    row' := w'.enrs[9];
  }

  lemma SavedScene(row: Enrollment, r: EnrWrite)
    ensures var u := NO_WORK.(enrs := map[9 := r]);
            SavedEnrs(map[9 := row], u) == map[9 := r.Onto(row)] && SavedRegs(map[], u) == map[]
  {
  }

  /** A step of the scene that saves the enrollment and nothing else. */
  lemma Saves(w: World, h: Handle, row: Enrollment, open: map<Handle, Operation>, r: EnrWrite) returns (w': World)
    requires IsScene(w, row, open) && h in open && (open[h] == SavingOf(r) || open[h] == Watching({}, SavingOf(r).work))
    ensures w' == Step(w, Commit(h, 0, 0, 0)) && IsScene(w', r.Onto(row), open - {h}) && w'.nodes == w.nodes
  {
    var e := Commit(h, 0, 0, 0);
    w' := Step(w, e);
    ReachableStep(w, e);
    SavedScene(row, r);
    assert w.(now := 0) == w && w.nodes + map[] == w.nodes;
  }

  /** The operation of a handler that saves the enrollment and nothing else. */
  function SavingOf(r: EnrWrite): Operation { Saving(NO_WORK.(enrs := map[9 := r])) }

  lemma RevokeOpens(w: World, h: Handle, row: Enrollment, open: map<Handle, Operation>) returns (w': World, r: EnrWrite)
    requires IsScene(w, row, open) && w.nodes == map[7 := false] && h !in open
    requires !row.status.Revoked? && !row.status.Online?
    ensures IsScene(w', row, open[h := SavingOf(r)]) && w'.nodes == w.nodes
    ensures r.before == row && r.after.status.Revoked? && r.after.report.None?
  {
    r := RevokeWork(w, 9).enrs[9];
    assert RevokeWork(w, 9) == NO_WORK.(enrs := map[9 := r]);
    w' := Opens(w, RevokeRead(h, 9, 0), row, open, SavingOf(r));
  }

  lemma EnrollOpens(w: World, h: Handle, open: map<Handle, Operation>) returns (w': World)
    requires IsScene(w, NEW_ROW, open) && h !in open
    ensures IsScene(w', NEW_ROW, open[h := Enrolling(9, Drawn(0), 0)]) && w'.nodes == w.nodes
  {
    w' := Opens(w, EnrollRead(h, 9, Drawn(0), true, 0), NEW_ROW, open, Enrolling(9, Drawn(0), 0));
  }

  lemma ReportOpens(w: World, h: Handle, row: Enrollment, open: map<Handle, Operation>) returns (w': World, r: EnrWrite)
    requires IsScene(w, row, open) && h !in open && row.status.Claimed? && row.report.Some? && row.expiresAt > 0
    ensures IsScene(w', row, open[h := SavingOf(r)]) && w'.nodes == w.nodes
    ensures r.before == row && r.after.status.Installing?
  {
    r := EnrWrite(row, row.(status := Installing));
    assert ReportWork(w, 9, PhaseInstalling) == NO_WORK.(enrs := map[9 := r]);
    w' := Opens(w, ReportRead(h, 9, row.report.value, PhaseInstalling, 0), row, open, SavingOf(r));
  }

  lemma PassOpens(w: World, h: Handle, row: Enrollment, open: map<Handle, Operation>) returns (w': World)
    requires IsScene(w, row, open) && h !in open && w.nodes == map[7 := true]
    ensures IsScene(w', row, open[h := Watching({7}, NO_WORK)]) && w'.nodes == w.nodes
  {
    assert EnabledNodes(w.nodes) == {7};
    w' := Opens(w, MonitorRead(h, 0), row, open, Watching({7}, NO_WORK));
  }

  lemma ProbedScene(w: World, row: Enrollment, r: EnrWrite)
    requires w.enrs == map[9 := row] && w.regs == map[] && row.node == 7 && row.status.Claimed?
    requires r == EnrWrite(row, row.(status := Online, report := None))
    ensures NO_WORK.And(MonitorWork(w, 7, HealthOnline)) == SavingOf(r).work
  {
    assert MonitorWork(w, 7, HealthOnline).enrs == map[9 := r];
  }

  lemma PassProbes(w: World, h: Handle, row: Enrollment, open: map<Handle, Operation>) returns (w': World, r: EnrWrite)
    requires IsScene(w, row, open[h := Watching({7}, NO_WORK)]) && row.status.Claimed? && w.nodes == map[7 := true]
    ensures IsScene(w', row, open[h := Watching({}, SavingOf(r).work)]) && w'.nodes == w.nodes
    ensures r.before == row && r.after.status.Online?
  {
    r := EnrWrite(row, row.(status := Online, report := None));
    var e := MonitorProbe(h, 7, HealthOnline, 0);
    w' := Step(w, e);
    ReachableStep(w, e);
    assert w.(now := 0) == w && {7} - {7} == {};
    ProbedScene(w, row, r);
  }

  /** A pass of the monitor that has probed the node and found it online. */
  lemma MonitorOpens(w: World, h: Handle, row: Enrollment, open: map<Handle, Operation>)
    returns (w': World, r: EnrWrite)
    requires IsScene(w, row, open) && h !in open && row.status.Claimed? && w.nodes == map[7 := true]
    ensures IsScene(w', row, open[h := Watching({}, SavingOf(r).work)]) && r.before == row && r.after.status.Online?
  {
    var w1 := PassOpens(w, h, row, open);
    w', r := PassProbes(w1, h, row, open);
  }

  /** A revocation that read the enrollment before it was claimed completes after it: the report token stays. */
  lemma RevokedWithToken() returns (w: World)
    ensures Reachable(w) && 9 in w.enrs && w.enrs[9].status.Revoked? && w.enrs[9].report.Some?
  {
    w := Created();
    var r, row;
    w, r := RevokeOpens(w, 1, NEW_ROW, map[]);
    w := EnrollOpens(w, 2, map[1 := SavingOf(r)]);
    var open := map[1 := SavingOf(r), 2 := Enrolling(9, Drawn(0), 0)];
    assert open - {2} == map[1 := SavingOf(r)];
    w, row := Claims(w, 2, NEW_ROW, open);
    w := Saves(w, 1, row, map[1 := SavingOf(r)], r);
  }

  /** The enrollment is claimed, and a report on it has read its row. */
  lemma Reporting(enabled: bool) returns (w: World, row: Enrollment, r: EnrWrite)
    ensures IsScene(w, row, map[1 := SavingOf(r)]) && w.nodes == map[7 := enabled] && row.status.Claimed?
    ensures r.before == row && r.after.status.Installing?
  {
    w := Created();
    if enabled {
      ReachableStep(w, SetNodeEnabled(7, true, 0));
      w := Step(w, SetNodeEnabled(7, true, 0));
    }
    w := EnrollOpens(w, 2, map[]);
    w, row := Claims(w, 2, NEW_ROW, map[2 := Enrolling(9, Drawn(0), 0)]);
    assert map[2 := Enrolling(9, Drawn(0), 0)] - {2} == map[];
    w, r := ReportOpens(w, 1, row, map[]);
  }

  /** A report that read the enrollment before it was revoked brings it back. */
  lemma RevokedComesBack() returns (w: World, e: Event)
    ensures Reachable(w) && 9 in w.enrs && w.enrs[9].status.Revoked? && !e.RegenerateRead?
    ensures 9 in Step(w, e).enrs && Step(w, e).enrs[9].status.Installing?
  {
    var row, r, v;
    w, row, r := Reporting(false);
    w, v := RevokeOpens(w, 3, row, map[1 := SavingOf(r)]);
    var open := map[1 := SavingOf(r), 3 := SavingOf(v)];
    assert open - {3} == map[1 := SavingOf(r)];
    w := Saves(w, 3, row, open, v);
    var later := Saves(w, 1, v.Onto(row), map[1 := SavingOf(r)], r);
    e := Commit(1, 0, 0, 0);
  }

  /** A report that read the enrollment before the monitor put it online takes it back to installing. */
  lemma OnlineIsNotFinal() returns (w: World, e: Event)
    ensures Reachable(w) && 9 in w.enrs && w.enrs[9].status.Online?
    ensures 9 in Step(w, e).enrs && Step(w, e).enrs[9].status.Installing?
  {
    var row, r, v;
    w, row, r := Reporting(true);
    w, v := MonitorOpens(w, 3, row, map[1 := SavingOf(r)]);
    var open := map[1 := SavingOf(r), 3 := Watching({}, SavingOf(v).work)];
    assert open - {3} == map[1 := SavingOf(r)];
    w := Saves(w, 3, row, open, v);
    var later := Saves(w, 1, v.Onto(row), map[1 := SavingOf(r)], r);
    e := Commit(1, 0, 0, 0);
  }
}
