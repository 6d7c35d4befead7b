/**
  Leases, tickets and Edges together: every way a request can reach a tunnel, on one shared clock.

  A handler is two steps, its check and its commit. Connect, preflight and heartbeat lock the store's row
  from the one to the other; tickets, disconnects and rebinds do not. A commit writes what the handler
  decided on at its check, and only those columns, over whatever the rows hold by then.
*/
module EdgeAccess {
  import opened Common
  import opened StoreLeases
  import ET = EdgeTickets

  type Handle = nat  // a handler between its check and its commit

  /**
    A ticket together with what was asked for, the lease and the node it was issued for, the moments of the
    check and of the issue, and what the check had read of the lease.
  */
  datatype Issued = Issued(
    token: ET.Token, store: StoreId, user: UserId, host: string, port: int, lease: LeaseId, node: NodeId,
    checked: nat, at: nat, heartbeat: nat, leaseExpiry: nat)

  /** A node with the secret it shares with the control plane and the ticket lifetime it is configured to accept. */
  datatype Node = Node(name: string, secret: string, maxTtl: int) {
    function Verifier(): ET.Verifier { ET.Verifier(secret, name, maxTtl, EDGE_SKEW) }
  }

  /** Every handler that looked at the leases of a store expires those it found stale. */
  datatype Operation =
    | Touching(store: StoreId, user: UserId, lease: LeaseId, stale: set<LeaseId>)
    | Opening(store: StoreId, user: UserId, device: string, stale: set<LeaseId>)
    | Ticketing(store: StoreId, user: UserId, lease: LeaseId, row: Lease, node: NodeId, host: string, port: int,
                readAt: nat, stale: set<LeaseId>)
    | Rebinding(store: StoreId, to: NodeId, stale: set<LeaseId>)
    | Ending(leases: set<LeaseId>, stale: set<LeaseId>)
  {
    /** The handler holds the store's row. */
    predicate Locks(x: StoreId) { (Touching? || Opening?) && store == x }
    predicate Touches(l: LeaseId) { Touching? && lease == l }
    predicate TicketsFor(l: LeaseId) { Ticketing? && lease == l }
  }

  datatype World = World(
    now: nat,
    stores: map<StoreId, NodeId>,
    nodes: map<NodeId, Node>,
    leases: Leases,
    open: map<Handle, Operation>,
    touched: map<LeaseId, nat>,    // every lease ever opened, with its last connect, preflight or heartbeat
    issued: set<Issued>,
    edges: map<NodeId, ET.Edge>)
  {
    function Opens(h: Handle, op: Operation): World { this.(open := open[h := op]) }
    predicate IsLocked(x: StoreId) { exists h :: h in open && open[h].Locks(x) }
  }

  const EDGE_SKEW := 5
  const MAX_TTL := 60

  function Initial(nodes: map<NodeId, Node>): World {
    World(0, map[], nodes, map[], map[], map[], {}, map n | n in nodes :: ET.NEW_EDGE)
  }

  /**
    `id` and the fields with it are what the handler's queries yield; `allowed` is every check made on
    users, grants and nodes. Events that end in `Read` open a handle; `Commit` completes it.
  */
  datatype Event =
    | CreateStore(store: StoreId, node: NodeId, at: nat)
    | ConnectRead(handle: Handle, store: StoreId, user: UserId, device: string, id: LeaseId, allowed: bool, at: nat)
    | HeartbeatRead(handle: Handle, store: StoreId, user: UserId, device: string, id: LeaseId, allowed: bool, at: nat)
    | TicketRead(handle: Handle, store: StoreId, user: UserId, named: Option<string>, id: LeaseId, allowed: bool,
                 host: string, port: int, at: nat)
    | DisconnectRead(handle: Handle, store: StoreId, user: UserId, named: Option<string>, id: LeaseId, allowed: bool,
                     at: nat)
    | RebindRead(handle: Handle, store: StoreId, node: NodeId, at: nat)
    | ForceStoreRead(handle: Handle, store: StoreId, at: nat)
    | ForceLeaseRead(handle: Handle, id: LeaseId, at: nat)
    | DropUserRead(handle: Handle, owner: UserId, at: nat)
    | Commit(handle: Handle, id: LeaseId, jti: string, at: nat)
    | ListStore(store: StoreId, at: nat)
    | DeleteStore(store: StoreId, at: nat)
    | PresentTicket(node: NodeId, token: ET.Token, at: nat)

  /** `requested_store_lease` finds `id`: named with its device, or the user's only live lease of the store. */
  predicate Requested(leases: Leases, x: StoreId, u: UserId, named: Option<string>, id: LeaseId, now: nat) {
    if named.Some? then id in LiveOf(leases, x, u, now) && leases[id].device == named.value
    else LiveOf(leases, x, u, now) == {id}
  }

  predicate IsRead(e: Event) {
    e.ConnectRead? || e.HeartbeatRead? || e.TicketRead? || e.DisconnectRead? || e.RebindRead? || e.ForceStoreRead?
    || e.ForceLeaseRead? || e.DropUserRead?
  }

  function Step(w: World, e: Event): World {
    if e.at < w.now then w else Apply(w.(now := e.at), e)
  }

  function Apply(w: World, e: Event): World {
    if IsRead(e) then (if e.handle in w.open then w else Read(w, e))
    else
      match e
      case CreateStore(x, n, _) =>
        if x in w.stores || n !in w.nodes then w else w.(stores := w.stores[x := n])
      case Commit(h, id, jti, _) => if h in w.open then CommitOperation(w, h, id, jti) else w
      case ListStore(x, _) => w.(leases := Expire(w.leases, x, w.now))
      case DeleteStore(x, _) =>
        if x !in w.stores || w.IsLocked(x) || LiveAt(w.leases, x, w.now) != {} then w
        else w.(stores := w.stores - {x}, leases := map l | l in w.leases && w.leases[l].store != x :: w.leases[l])
      case PresentTicket(n, token, at) =>
        if n in w.edges && n in w.nodes && Unforged(w, n, token)
        then w.(edges := w.edges[n := ET.Present(w.nodes[n].Verifier(), w.edges[n], ET.Presentation(token, at))])
        else w
      case _ => w
  }

  // ---- The checks ----

  /** The handlers' first halves; the handle is free. */
  function Read(w: World, e: Event): World
    requires IsRead(e)
  {
    var h := e.handle;
    match e
    case ConnectRead(_, x, u, d, id, allowed, _) =>
      if allowed && x in w.stores && !w.IsLocked(x) then ReadConnect(w, h, x, u, d, id) else w
    case HeartbeatRead(_, x, u, d, id, allowed, _) =>
      if allowed && x in w.stores && !w.IsLocked(x) && id in LiveOf(w.leases, x, u, w.now) && w.leases[id].device == d
      then w.Opens(h, Touching(x, u, id, StaleAt(w.leases, x, w.now))) else w
    case TicketRead(_, x, u, named, id, allowed, host, port, _) =>
      if x in w.stores && w.stores[x] in w.nodes then ReadTicket(w, h, x, u, named, id, allowed, host, port) else w
    case DisconnectRead(_, x, u, named, id, allowed, _) =>
      if allowed && x in w.stores && Requested(w.leases, x, u, named, id, w.now)
      then w.Opens(h, Ending({id}, StaleAt(w.leases, x, w.now))) else w
    case RebindRead(_, x, n, _) =>
      if x in w.stores && n in w.nodes && n != w.stores[x] && LiveAt(w.leases, x, w.now) == {}
      then w.Opens(h, Rebinding(x, n, StaleAt(w.leases, x, w.now))) else w
    case ForceStoreRead(_, x, _) =>
      if LiveAt(w.leases, x, w.now) == {} then w
      else w.Opens(h, Ending(LiveAt(w.leases, x, w.now), StaleAt(w.leases, x, w.now)))
    case ForceLeaseRead(_, id, _) =>
      if id in w.leases && w.leases[id].Live(w.now)
      then w.Opens(h, Ending({id}, StaleAt(w.leases, w.leases[id].store, w.now))) else w
    case DropUserRead(_, u, _) =>
      w.Opens(h, Ending(set l | l in w.leases && w.leases[l].owner == u && w.leases[l].status.Active?, {}))
  }

  function ReadConnect(w: World, h: Handle, x: StoreId, u: UserId, d: string, id: LeaseId): World {
    if id in LiveOf(w.leases, x, u, w.now) && w.leases[id].device == d
    then w.Opens(h, Touching(x, u, id, StaleAt(w.leases, x, w.now)))
    else if exists l :: l in LiveOf(w.leases, x, u, w.now) && w.leases[l].device == d
    then w  // not what the lookup yields
    else w.Opens(h, Opening(x, u, d, StaleAt(w.leases, x, w.now)))
  }

  function ReadTicket(w: World, h: Handle, x: StoreId, u: UserId, named: Option<string>, id: LeaseId, allowed: bool,
                      host: string, port: int): World
    requires x in w.stores && w.stores[x] in w.nodes
  {
    if !Requested(w.leases, x, u, named, id, w.now) then
      if named.Some? || LiveOf(w.leases, x, u, w.now) == {} then w.(leases := Expire(w.leases, x, w.now))
      else w  // several live leases and none named: refused, nothing is committed
    else if !allowed then w
    else
      assert id in LiveOf(w.leases, x, u, w.now);
      w.Opens(h, Ticketing(x, u, id, w.leases[id], w.stores[x], host, port, w.now, StaleAt(w.leases, x, w.now)))
  }

  // ---- The commits ----

  /** Saving fails as a whole when a row to be updated is gone. */
  predicate MaySave(leases: Leases, op: Operation) {
    op.stale <= leases.Keys && (op.Ending? ==> op.leases <= leases.Keys) && (op.Touching? ==> op.lease in leases)
  }

  function CommitOperation(w: World, h: Handle, id: LeaseId, jti: string): World
    requires h in w.open
  {
    var op := w.open[h];
    var done := w.(open := w.open - {h});
    if op.Rebinding? && w.IsLocked(op.store) then w  // waits for the connect
    else if op.Opening? && id in w.touched then w    // not what is drawn
    else if !MaySave(w.leases, op) then done
    else Committed(done.(leases := ExpireAll(w.leases, op.stale)), op, id, jti)
  }

  function Committed(w: World, op: Operation, id: LeaseId, jti: string): World
    requires op.Touching? ==> op.lease in w.leases
  {
    match op
    case Touching(_, _, l, _) => w.(leases := w.leases[l := w.leases[l].Touch(w.now)], touched := w.touched[l := w.now])
    case Opening(x, u, d, _) =>
      w.(leases := w.leases[id := NewLease(x, u, d, w.now)], touched := w.touched[id := w.now])
    case Ticketing(_, _, _, _, _, _, _, _, _) => IssueTicket(w, op, jti)
    case Rebinding(x, n, _) => if x in w.stores then w.(stores := w.stores[x := n]) else w
    case Ending(which, _) => w.(leases := DisconnectAll(w.leases, which))
  }

  /** What the check had read decides, whatever has become of the lease since. */
  function IssueTicket(w: World, op: Operation, jti: string): World
    requires op.Ticketing?
  {
    var remaining := (op.row.expiresAt - w.now) / SECOND;
    if remaining <= 0
    then w.(leases := ExpireAll(w.leases, {op.lease}))
    else w.(issued := w.issued + Tickets(w.nodes, op, remaining, jti, w.now))
  }

  /** The ticket with its record, for at most the seconds that remain; none if the issuer refuses. */
  function Tickets(nodes: map<NodeId, Node>, op: Operation, remaining: nat, jti: string, now: nat): set<Issued>
    requires op.Ticketing?
  {
    if op.node !in nodes then {}
    else
      var node := nodes[op.node];
      var ttl := if remaining < 60 then remaining else 60;
      var token := ET.Issuer(node.secret, node.name, MAX_TTL).Issue(Decimal(op.store), op.host, op.port, Some(ttl),
                                                                    jti, now);
      if token.Err? then {}
      else {Issued(token.value, op.store, op.user, op.host, op.port, op.lease, op.node, op.readAt, now,
                   op.row.heartbeat, op.row.expiresAt)}
  }

  predicate IsIssued(issued: set<Issued>, token: ET.Token) { exists i :: i in issued && i.token == token }

  /** Nobody but the control plane can sign for a node. */
  predicate Unforged(w: World, n: NodeId, token: ET.Token)
    requires n in w.nodes
  {
    token.Token? && token.signature.secret == w.nodes[n].secret ==> IsIssued(w.issued, token)
  }

  /** `str(store.id)`. */
  function Decimal(n: nat): string {
    var digit := ["0", "1", "2", "3", "4", "5", "6", "7", "8", "9"][n % 10];
    if n < 10 then digit else Decimal(n / 10) + digit
  }

  function Run(w: World, events: seq<Event>): World
    decreases |events|
  {
    if events == [] then w else Run(Step(w, events[0]), events[1..])
  }
}
