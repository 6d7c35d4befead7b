/**
  Node registration and enrollment: two coupled status machines driven by nodes, administrators and
  the health monitor.

  Every handler that reads rows and writes them later is two steps, the read and the commit. What a
  commit writes depends on how the handler writes. A conditional update compares the row again. An
  object-relational save does not: it writes the columns that the handler set to something else than
  it had read, over whatever the row holds by now.

  `ok` stands for the checks this model does not compute (addresses, signatures, names, the package
  file). A stored hash is modelled by the secret it was computed from.
*/
module NodeLifecycle {
  import opened Common

  type RequestId = nat
  type EnrollmentId = nat
  type NodeId = nat
  type Handle = nat  // a handler between its read and its commit

  datatype RegStatus = PendingProof | PendingApproval | Approved | Rejected | RegExpired
                     | RegInstalling | RegReady | RegFailed | RegOnline
  {
    predicate IsPending() { PendingProof? || PendingApproval? }
  }

  datatype EnrStatus = Pending | Claimed | Installing | Ready | Failed | Online | Revoked | Expired

  /** Secrets: drawn at random, or derived by HMAC from a registration's own secret. */
  datatype Secret =
    | Drawn(n: nat)
    | ClaimChallenge(request: RequestId, token: Option<Secret>)
    | ReportToken(token: Option<Secret>, enrollment: EnrollmentId)

  datatype Registration = Registration(
    status: RegStatus, token: Option<Secret>, challenge: Option<Secret>, expiresAt: nat,
    proved: bool, node: Option<NodeId>, updatedAt: nat)

  datatype Enrollment = Enrollment(
    node: NodeId, token: Secret, report: Option<Secret>, status: EnrStatus, expiresAt: nat, claimed: bool)

  /** A row as a handler read it, and as the handler wants it. */
  datatype EnrWrite = EnrWrite(before: Enrollment, after: Enrollment) {
    /** What saving it makes of the present row: columns that were set to something else are written. */
    function Onto(row: Enrollment): Enrollment {
      Enrollment(row.node,
                 if after.token != before.token then after.token else row.token,
                 if after.report != before.report then after.report else row.report,
                 if after.status != before.status then after.status else row.status,
                 if after.expiresAt != before.expiresAt then after.expiresAt else row.expiresAt,
                 if after.claimed != before.claimed then after.claimed else row.claimed)
    }
    predicate SetsStatus() { after.status != before.status }
    predicate SetsToken() { after.token != before.token }
  }

  datatype RegWrite = RegWrite(before: Registration, after: Registration) {
    function Onto(row: Registration): Registration {
      row.(status := if after.status != before.status then after.status else row.status,
           challenge := if after.challenge != before.challenge then after.challenge else row.challenge,
           updatedAt := if after.updatedAt != before.updatedAt then after.updatedAt else row.updatedAt)
    }
    predicate SetsStatus() { after.status != before.status }
  }

  /** The rows a handler will save together. */
  datatype Work = Work(
    enrs: map<EnrollmentId, EnrWrite>, regs: map<RequestId, RegWrite>, nodes: map<NodeId, bool>, gone: set<RequestId>)
  {
    function And(more: Work): Work {
      Work(enrs + more.enrs, regs + more.regs, nodes + more.nodes, gone + more.gone)
    }
  }

  datatype Operation =
    | Proving(request: RequestId, challenge: Secret, readAt: nat)
    | Accepting(request: RequestId)
    | Claiming(request: RequestId, token: Secret, challenge: Secret, enrollment: EnrollmentId, write: EnrWrite,
               readAt: nat)
    | Enrolling(enrollment: EnrollmentId, token: Secret, readAt: nat)
    | Saving(work: Work)
    | Watching(left: set<NodeId>, work: Work)  // a pass of the monitor, with the nodes that it has yet to probe
  {
    /** The handler saves rows and does nothing else. */
    predicate IsSave() { Saving? || Watching? }
    /** What the handler will save. */
    function Unit(): Work {
      if Saving? || Watching? then work else if Claiming? then NO_WORK.(enrs := map[enrollment := write]) else NO_WORK
    }
  }

  const NO_WORK := Work(map[], map[], map[], {})

  datatype Phase = PhaseInstalling | PhaseReady | PhaseFailed
  datatype Health = HealthOnline | HealthDown | HealthOther

  datatype World = World(
    now: nat,
    regs: map<RequestId, Registration>,
    enrs: map<EnrollmentId, Enrollment>,
    nodes: map<NodeId, bool>,                // enabled
    open: map<Handle, Operation>,
    knownRequests: set<RequestId>,           // identifiers are drawn at random and never used again
    knownEnrollments: set<EnrollmentId>,
    accepted: set<RequestId>,
    rejected: set<RequestId>,
    claims: multiset<RequestId>,             // successful claim-approved calls
    consumed: multiset<Secret>,              // enrollment tokens spent
    nextSecret: nat)
  {
    function Opens(h: Handle, op: Operation): World { this.(open := open[h := op]) }
    /** A handler has read its rows and will save `work`; it drew `drawn` secrets. */
    function Saves(h: Handle, work: Work, drawn: nat): World {
      this.(open := open[h := Saving(work)], nextSecret := nextSecret + drawn)
    }
  }

  const EMPTY := World(0, map[], map[], map[], map[], {}, {}, {}, {}, multiset{}, multiset{}, 0)

  const MINUTES: nat := 60 * 1_000_000
  const HISTORY: nat := 7 * 24 * 60 * 60 * 1_000_000

  /** Events that end in `Read` open a handle; `Commit` completes it. */
  datatype Event =
    | Register(request: RequestId, ok: bool, at: nat)
    | ProveRead(handle: Handle, request: RequestId, token: Secret, challenge: Secret, ok: bool, at: nat)
    | AcceptRead(handle: Handle, request: RequestId, ok: bool, at: nat)
    | Reject(request: RequestId, at: nat)
    | ClaimRead(handle: Handle, request: RequestId, token: Secret, challenge: Secret, enrollment: EnrollmentId,
                ok: bool, at: nat)
    | EnrollRead(handle: Handle, enrollment: EnrollmentId, token: Secret, ok: bool, at: nat)
    | ListRead(handle: Handle, at: nat)
    | ReportRead(handle: Handle, enrollment: EnrollmentId, token: Secret, phase: Phase, at: nat)
    | RevokeRead(handle: Handle, enrollment: EnrollmentId, at: nat)
    | RegenerateRead(handle: Handle, enrollment: EnrollmentId, at: nat)
    | ListEnrollmentsRead(handle: Handle, at: nat)
    | MonitorRead(handle: Handle, at: nat)
    | MonitorProbe(handle: Handle, node: NodeId, health: Health, at: nat)
    | Commit(handle: Handle, node: NodeId, enrollment: EnrollmentId, at: nat)
    | CreateEnrollment(node: NodeId, enrollment: EnrollmentId, at: nat)
    | SetNodeEnabled(node: NodeId, enabled: bool, at: nat)
    | DeleteNode(node: NodeId, at: nat)

  function Step(w: World, e: Event): World {
    if e.at < w.now then w else Apply(w.(now := e.at), e)
  }

  predicate IsRead(e: Event) {
    e.ProveRead? || e.AcceptRead? || e.ClaimRead? || e.EnrollRead? || e.ListRead? || e.ReportRead?
    || e.RevokeRead? || e.RegenerateRead? || e.ListEnrollmentsRead? || e.MonitorRead?
  }

  function Apply(w: World, e: Event): World {
    if IsRead(e) then (if e.handle in w.open then w else Read(w, e))
    else
      match e
      case Commit(h, n, x, _) => if h in w.open then CommitOperation(w, h, n, x) else w
      case Register(q, ok, _) => if !ok || q in w.knownRequests then w else RegisterRequest(w, q)
      case Reject(q, _) => if q in w.regs && w.regs[q].status.PendingApproval? then RejectRequest(w, q) else w
      case CreateEnrollment(n, x, _) => if n in w.nodes || x in w.knownEnrollments then w else NewEnrollment(w, n, x)
      case MonitorProbe(h, n, health, _) =>
        if h in w.open && w.open[h].Watching? && n in w.open[h].left then Probe(w, h, n, health) else w
      case SetNodeEnabled(n, enabled, _) => if n in w.nodes then w.(nodes := w.nodes[n := enabled]) else w
      case DeleteNode(n, _) => if n in w.nodes then RemoveNode(w, n) else w
      case _ => w
  }

  /** The handlers' first halves; the handle is free. */
  function Read(w: World, e: Event): World
    requires IsRead(e)
  {
    var h := e.handle;
    match e
    case ProveRead(_, q, token, challenge, ok, _) => ReadProof(w, h, q, token, challenge, ok)
    case AcceptRead(_, q, ok, _) =>
      if q in w.regs && w.regs[q].status.PendingApproval? && w.regs[q].proved && ok then w.Opens(h, Accepting(q)) else w
    case ClaimRead(_, q, token, challenge, x, ok, _) =>
      if ok && MayClaim(w, q, token, challenge, x)
      then w.Opens(h, Claiming(q, token, challenge, x, ClaimWrite(w.enrs[x], w.now), w.now)) else w
    case EnrollRead(_, x, token, ok, _) => ReadEnrollment(w, h, x, token, ok)
    case ListRead(_, _) => w.Saves(h, ListWork(w.regs, w.now), 0)
    case ReportRead(_, x, token, phase, _) =>
      if MayReport(w, x, token) then w.Saves(h, ReportWork(w, x, phase), 0) else w
    case RevokeRead(_, x, _) =>
      if x in w.enrs && !w.enrs[x].status.Revoked? && !w.enrs[x].status.Online?
      then w.Saves(h, RevokeWork(w, x), 1) else w
    case RegenerateRead(_, x, _) =>
      if x in w.enrs && (w.enrs[x].status.Pending? || w.enrs[x].status.Expired? || w.enrs[x].status.Revoked?)
      then w.Saves(h, RegenerateWork(w, x), 1) else w
    case ListEnrollmentsRead(_, _) => w.Saves(h, OverdueWork(w.enrs, w.now), 0)
    case MonitorRead(_, _) => w.Opens(h, Watching(EnabledNodes(w.nodes), NO_WORK))
  }

  // ---- Registration handlers ----

  function RegisterRequest(w: World, q: RequestId): World {
    var row := Registration(PendingProof, Some(Drawn(w.nextSecret)), Some(Drawn(w.nextSecret + 1)),
                            w.now + 15 * MINUTES, false, None, w.now);
    w.(regs := w.regs[q := row], knownRequests := w.knownRequests + {q}, nextSecret := w.nextSecret + 2)
  }

  /** A single conditional update. */
  function RejectRequest(w: World, q: RequestId): World
    requires q in w.regs
  {
    w.(regs := w.regs[q := w.regs[q].(status := Rejected, challenge := None, updatedAt := w.now)],
       rejected := w.rejected + {q})
  }

  function ReadProof(w: World, h: Handle, q: RequestId, token: Secret, challenge: Secret, ok: bool): World {
    if q !in w.regs || w.regs[q].token != Some(token) then w
    else if w.regs[q].expiresAt <= w.now then
      if w.regs[q].status.PendingProof? then w.Saves(h, NO_WORK.(regs := map[q := Overdue(w.regs[q], w.now)]), 0) else w
    else if ok && w.regs[q].status.PendingProof? && w.regs[q].challenge == Some(challenge)
    then w.Opens(h, Proving(q, challenge, w.now)) else w
  }

  function Overdue(r: Registration, now: nat): RegWrite {
    RegWrite(r, r.(status := RegExpired, challenge := None, updatedAt := now))
  }

  /** The listing expires overdue requests and forgets those that expired a week ago. */
  function ListWork(regs: map<RequestId, Registration>, now: nat): Work {
    NO_WORK.(regs := map q | q in regs && regs[q].status.IsPending() && regs[q].expiresAt <= now ::
                       Overdue(regs[q], now),
             gone := set q | q in regs && regs[q].status.RegExpired? && regs[q].updatedAt + HISTORY <= now)
  }

  predicate MayClaim(w: World, q: RequestId, token: Secret, challenge: Secret, x: EnrollmentId) {
    && q in w.regs && x in w.enrs
    && var r := w.regs[q];
    && r.token == Some(token) && r.status.Approved? && r.proved && r.expiresAt > w.now
    && r.challenge == Some(challenge) && r.node == Some(w.enrs[x].node) && w.enrs[x].status.Claimed?
  }

  function ClaimWrite(row: Enrollment, now: nat): EnrWrite {
    EnrWrite(row, row.(status := Installing, expiresAt := now + 120 * MINUTES))
  }

  // ---- Enrollment handlers ----

  function NewEnrollment(w: World, n: NodeId, x: EnrollmentId): World {
    w.(enrs := w.enrs[x := Enrollment(n, Drawn(w.nextSecret), None, Pending, w.now + 15 * MINUTES, false)],
       nodes := w.nodes[n := false], knownEnrollments := w.knownEnrollments + {x}, nextSecret := w.nextSecret + 1)
  }

  predicate IsOverdue(w: World, x: EnrollmentId) {
    x in w.enrs && w.enrs[x].status.Pending? && w.enrs[x].expiresAt <= w.now
  }

  function ExpireWork(row: Enrollment, x: EnrollmentId): Work {
    NO_WORK.(enrs := map[x := EnrWrite(row, row.(status := Expired))])
  }

  /** The listing of enrollments expires all that are overdue. */
  function OverdueWork(enrs: map<EnrollmentId, Enrollment>, now: nat): Work {
    NO_WORK.(enrs := map x | x in enrs && enrs[x].status.Pending? && enrs[x].expiresAt <= now ::
                       EnrWrite(enrs[x], enrs[x].(status := Expired)))
  }

  /** The node's switch is written only if it has to change. */
  function Switch(nodes: map<NodeId, bool>, n: NodeId, enabled: bool): map<NodeId, bool> {
    if n in nodes && nodes[n] != enabled then map[n := enabled] else map[]
  }

  function RevokeWork(w: World, x: EnrollmentId): Work
    requires x in w.enrs
  {
    var row := w.enrs[x];
    NO_WORK.(enrs := map[x := EnrWrite(row, row.(status := Revoked, token := Drawn(w.nextSecret), report := None))],
             nodes := Switch(w.nodes, row.node, false))
  }

  function RegenerateWork(w: World, x: EnrollmentId): Work
    requires x in w.enrs
  {
    var row := w.enrs[x];
    NO_WORK.(enrs := map[x := EnrWrite(row, row.(status := Pending, claimed := false, report := None,
                                                 expiresAt := w.now + 15 * MINUTES, token := Drawn(w.nextSecret)))])
  }

  function ReadEnrollment(w: World, h: Handle, x: EnrollmentId, token: Secret, ok: bool): World {
    if x !in w.enrs then w
    else
      var r := w.enrs[x];
      if r.token == token && r.status.Pending? && !r.claimed && r.expiresAt > w.now && ok
      then w.Opens(h, Enrolling(x, token, w.now))
      else if IsOverdue(w, x) then w.Saves(h, ExpireWork(r, x), 0)
      else w
  }

  function EnrStatusOf(phase: Phase): EnrStatus {
    match phase case PhaseInstalling => Installing case PhaseReady => Ready case PhaseFailed => Failed
  }

  function RegStatusOf(phase: Phase): RegStatus {
    match phase case PhaseInstalling => RegInstalling case PhaseReady => RegReady case PhaseFailed => RegFailed
  }

  predicate MayReport(w: World, x: EnrollmentId, token: Secret) {
    && x in w.enrs && w.enrs[x].report == Some(token) && w.enrs[x].expiresAt > w.now
    && !w.enrs[x].status.Revoked? && !w.enrs[x].status.Expired? && !w.enrs[x].status.Online?
  }

  function ReportedRegs(regs: map<RequestId, Registration>, n: NodeId, phase: Phase, now: nat)
    : map<RequestId, RegWrite>
  {
    map q | q in regs && regs[q].node == Some(n) ::
      RegWrite(regs[q], regs[q].(status := RegStatusOf(phase), updatedAt := now))
  }

  /** A report moves the enrollment and, without looking at its status, the node's registration. */
  function ReportWork(w: World, x: EnrollmentId, phase: Phase): Work
    requires x in w.enrs
  {
    var row := w.enrs[x];
    Work(map[x := EnrWrite(row, row.(status := EnrStatusOf(phase)))],
         ReportedRegs(w.regs, row.node, phase, w.now),
         if phase.PhaseReady? then Switch(w.nodes, row.node, true) else map[], {})
  }

  // ---- The monitor and the deletion of a node ----

  predicate Watched(s: EnrStatus) { s.Ready? || s.Installing? || s.Claimed? || s.Failed? }
  predicate WatchedReg(s: RegStatus) { s.RegInstalling? || s.RegReady? || s.RegFailed? || s.RegOnline? }

  function MonitorEnr(row: Enrollment, health: Health): Enrollment {
    match health
    case HealthOnline => row.(status := Online, report := None)
    case HealthDown => row.(status := Failed)
    case HealthOther => row
  }

  function MonitorReg(row: Registration, health: Health, now: nat): Registration {
    match health
    case HealthOnline => if row.status.RegOnline? then row else row.(status := RegOnline, updatedAt := now)
    case HealthDown => row.(status := RegFailed, updatedAt := now)
    case HealthOther => row
  }

  function MonitoredEnrs(enrs: map<EnrollmentId, Enrollment>, n: NodeId, health: Health): map<EnrollmentId, EnrWrite> {
    map x | x in enrs && enrs[x].node == n && Watched(enrs[x].status) :: EnrWrite(enrs[x], MonitorEnr(enrs[x], health))
  }

  function MonitoredRegs(regs: map<RequestId, Registration>, n: NodeId, health: Health, now: nat)
    : map<RequestId, RegWrite>
  {
    map q | q in regs && regs[q].node == Some(n) && WatchedReg(regs[q].status) ::
      RegWrite(regs[q], MonitorReg(regs[q], health, now))
  }

  function EnabledNodes(nodes: map<NodeId, bool>): set<NodeId> { set n | n in nodes && nodes[n] }

  /** The monitor has probed a node of its list and reads the rows of that node; all are saved when the pass ends. */
  function Probe(w: World, h: Handle, n: NodeId, health: Health): World
    requires h in w.open && w.open[h].Watching?
  {
    w.Opens(h, Watching(w.open[h].left - {n}, w.open[h].work.And(MonitorWork(w, n, health))))
  }

  function MonitorWork(w: World, n: NodeId, health: Health): Work { NodeWork(w.enrs, w.regs, n, health, w.now) }

  function NodeWork(enrs: map<EnrollmentId, Enrollment>, regs: map<RequestId, Registration>, n: NodeId, health: Health,
                    now: nat): Work
  {
    NO_WORK.(enrs := MonitoredEnrs(enrs, n, health), regs := MonitoredRegs(regs, n, health, now))
  }

  function RemoveNode(w: World, n: NodeId): World {
    w.(nodes := w.nodes - {n},
       enrs := map x | x in w.enrs && w.enrs[x].node != n :: w.enrs[x],
       regs := map q | q in w.regs :: if w.regs[q].node == Some(n) then w.regs[q].(node := None) else w.regs[q])
  }

  // ---- The commits ----

  /** Saving fails as a whole when a row to be updated is gone. */
  predicate MaySave(w: World, work: Work) {
    work.enrs.Keys <= w.enrs.Keys && work.regs.Keys <= w.regs.Keys && work.nodes.Keys <= w.nodes.Keys
  }

  function SavedEnrs(enrs: map<EnrollmentId, Enrollment>, work: Work): map<EnrollmentId, Enrollment> {
    map x | x in enrs :: if x in work.enrs then work.enrs[x].Onto(enrs[x]) else enrs[x]
  }

  function SavedRegs(regs: map<RequestId, Registration>, work: Work): map<RequestId, Registration> {
    map q | q in regs && q !in work.gone :: if q in work.regs then work.regs[q].Onto(regs[q]) else regs[q]
  }

  function Save(w: World, work: Work): World {
    w.(enrs := SavedEnrs(w.enrs, work), regs := SavedRegs(w.regs, work), nodes := w.nodes + work.nodes)
  }

  /** The guards of the conditional updates, and of the saves that go with them. */
  predicate Succeeds(w: World, op: Operation, n: NodeId, x: EnrollmentId) {
    match op
    case Proving(q, challenge, _) =>
      q in w.regs && w.regs[q].status.PendingProof? && w.regs[q].challenge == Some(challenge)
    case Accepting(q) =>
      && q in w.regs && w.regs[q].status.PendingApproval? && w.regs[q].proved
      && n !in w.nodes && x !in w.knownEnrollments
    case Claiming(q, token, challenge, _, _, _) =>
      && q in w.regs && w.regs[q].status.Approved? && w.regs[q].token == Some(token)
      && w.regs[q].challenge == Some(challenge) && MaySave(w, op.Unit())
    case Enrolling(e, token, _) =>
      e in w.enrs && w.enrs[e].status.Pending? && !w.enrs[e].claimed && w.enrs[e].token == token
    case Saving(work) => MaySave(w, work)
    case Watching(left, work) => left == {} && MaySave(w, work)
  }

  function CommitOperation(w: World, h: Handle, n: NodeId, x: EnrollmentId): World
    requires h in w.open
  {
    var done := w.(open := w.open - {h});
    if Succeeds(w, w.open[h], n, x) then Committed(done, w.open[h], n, x) else done
  }

  function Committed(w: World, op: Operation, n: NodeId, x: EnrollmentId): World
    requires Succeeds(w, op, n, x)
  {
    match op
    case Proving(q, _, readAt) => CommitProof(w, q, readAt)
    case Accepting(q) => CommitAccept(w, q, n, x)
    case Claiming(q, _, _, _, _, readAt) => CommitClaim(Save(w, op.Unit()), q, readAt)
    case Enrolling(e, _, readAt) => CommitEnroll(w, e, readAt)
    case Saving(work) => Save(w, work)
    case Watching(_, work) => Save(w, work)
  }

  function CommitProof(w: World, q: RequestId, readAt: nat): World
    requires q in w.regs
  {
    w.(regs := w.regs[q := w.regs[q].(status := PendingApproval, challenge := None, proved := true,
                                      expiresAt := readAt + 24 * 60 * MINUTES, updatedAt := readAt)])
  }

  function AcceptedReg(r: Registration, q: RequestId, n: NodeId, now: nat): Registration {
    r.(status := Approved, challenge := Some(ClaimChallenge(q, r.token)), node := Some(n),
       expiresAt := now + 15 * MINUTES, updatedAt := now)
  }

  function AcceptedEnr(r: Registration, n: NodeId, x: EnrollmentId, secret: nat, now: nat): Enrollment {
    Enrollment(n, Drawn(secret), Some(ReportToken(r.token, x)), Claimed, now + 120 * MINUTES, true)
  }

  function CommitAccept(w: World, q: RequestId, n: NodeId, x: EnrollmentId): World
    requires q in w.regs
  {
    var r := w.regs[q];
    w.(regs := w.regs[q := AcceptedReg(r, q, n, w.now)],
       enrs := w.enrs[x := AcceptedEnr(r, n, x, w.nextSecret, w.now)],
       nodes := w.nodes[n := false], knownEnrollments := w.knownEnrollments + {x},
       accepted := w.accepted + {q}, nextSecret := w.nextSecret + 1)
  }

  /** The conditional update of claim-approved; the enrollment is saved besides. */
  function CommitClaim(w: World, q: RequestId, readAt: nat): World
    requires q in w.regs
  {
    w.(regs := w.regs[q := w.regs[q].(status := RegInstalling, token := None, challenge := None, updatedAt := readAt)],
       claims := w.claims + multiset{q})
  }

  function CommitEnroll(w: World, x: EnrollmentId, readAt: nat): World
    requires x in w.enrs
  {
    w.(enrs := w.enrs[x := w.enrs[x].(status := Claimed, claimed := true, expiresAt := readAt + 30 * MINUTES,
                                      token := Drawn(w.nextSecret), report := Some(Drawn(w.nextSecret + 1)))],
       consumed := w.consumed + multiset{w.enrs[x].token}, nextSecret := w.nextSecret + 2)
  }

  function Run(w: World, events: seq<Event>): World
    decreases |events|
  {
    if events == [] then w else Run(Step(w, events[0]), events[1..])
  }
}
