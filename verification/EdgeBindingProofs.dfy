/** Who can touch whose lease, and which node a lease gets its tickets for. */
module EdgeBindingProofs {
  import opened Common
  import opened StoreLeases
  import opened EdgeAccess
  import opened EdgeAccessProofs
  import ET = EdgeTickets

  // ---- A handle until its commit ----

  lemma CommitKeepsHandle(w: World, k: Handle, id: LeaseId, jti: string, h: Handle)
    requires k in w.open && h in w.open && k != h
    ensures var w' := CommitOperation(w, k, id, jti); h in w'.open && w'.open[h] == w.open[h]
  {
    CommitFrame(w, k, id, jti);
  }

  lemma StepKeepsHandle(w: World, e: Event, h: Handle)
    requires h in w.open && !(e.Commit? && e.handle == h)
    ensures h in Step(w, e).open && Step(w, e).open[h] == w.open[h]
  {
    if w.now <= e.at {
      var w0 := w.(now := e.at);
      if IsRead(e) {
        if e.handle !in w.open { ReadIsGood(w0, e); }
      } else if e.Commit? && e.handle in w.open {
        CommitKeepsHandle(w0, e.handle, e.id, e.jti, h);
      }
    }
  }

  lemma {:induction false} HandleStays(w: World, events: seq<Event>, h: Handle)
    requires h in w.open && forall i :: 0 <= i < |events| ==> !(events[i].Commit? && events[i].handle == h)
    ensures h in Run(w, events).open && Run(w, events).open[h] == w.open[h]
    decreases |events|
  {
    if events == [] {
      assert Run(w, events) == w;
    } else {
      StepKeepsHandle(w, events[0], h);
      HandleStays(Step(w, events[0]), events[1..], h);
    }
  }

  // ---- A connect at once ----

  lemma ConnectChecks(w: World, h: Handle, x: StoreId, u: UserId, d: string, id: LeaseId)
    requires h !in w.open && x in w.stores && !w.IsLocked(x)
    requires if id in LiveOf(w.leases, x, u, w.now) then w.leases[id].device == d
             else forall l :: l in LiveOf(w.leases, x, u, w.now) ==> w.leases[l].device != d
    ensures var stale, found := StaleAt(w.leases, x, w.now), id in LiveOf(w.leases, x, u, w.now);
            Step(w, ConnectRead(h, x, u, d, id, true, w.now))
            == w.Opens(h, if found then Touching(x, u, id, stale) else Opening(x, u, d, stale))
  {
    assert w.(now := w.now) == w;
  }

  /** With nothing between check and commit, a connect does to the table what `LeaseTable.Connect` does. */
  lemma ConnectAtOnce(w: World, h: Handle, x: StoreId, u: UserId, d: string, id: LeaseId)
    requires Reachable(w) && h !in w.open && x in w.stores && !w.IsLocked(x)
    requires if id in LiveOf(w.leases, x, u, w.now) then w.leases[id].device == d
             else id !in w.touched && forall l :: l in LiveOf(w.leases, x, u, w.now) ==> w.leases[l].device != d
    ensures var w' := Step(Step(w, ConnectRead(h, x, u, d, id, true, w.now)), Commit(h, id, "", w.now));
            && w'.open == w.open
            && w'.leases == Expire(w.leases, x, w.now)[id := if id in w.leases then w.leases[id].Touch(w.now)
                                                             else NewLease(x, u, d, w.now)]
  {
    ReachableInv(w);
    ConnectChecks(w, h, x, u, d, id);
    ConnectSaves(w, h, Step(w, ConnectRead(h, x, u, d, id, true, w.now)), x, id);
    ExpireIsExpireAll(w.leases, x, w.now);
  }

  lemma ConnectSaves(w: World, h: Handle, w1: World, x: StoreId, id: LeaseId)
    requires h !in w.open && h in w1.open && w1 == w.Opens(h, w1.open[h]) && w1.open[h].Locks(x)
    requires w1.open[h].stale == StaleAt(w.leases, x, w.now)
    requires if w1.open[h].Touching? then w1.open[h].lease == id && id in w.leases && w.leases[id].Live(w.now)
             else id !in w.touched
    ensures var w', op := Step(w1, Commit(h, id, "", w.now)), w1.open[h];
            && w'.open == w.open
            && w'.leases == ExpireAll(w.leases, op.stale)[id := if op.Touching? then w.leases[id].Touch(w.now)
                                                                else NewLease(x, op.user, op.device, w.now)]
  {
    assert w1.(now := w.now) == w1 && w1.open - {h} == w.open && MaySave(w1.leases, w1.open[h]);
  }

  // ---- Other people's leases ----

  /** The requests an ordinary user makes of a store. */
  predicate IsUserRead(e: Event) { e.ConnectRead? || e.HeartbeatRead? || e.TicketRead? || e.DisconnectRead? }

  /** The leases that a handler writes to, besides expiring the stale ones. */
  ghost predicate WritesTo(op: Operation, l: LeaseId) {
    (op.Touching? && op.lease == l) || (op.Ticketing? && op.lease == l) || (op.Ending? && l in op.leases)
  }

  /** Who makes a request of a lease. */
  lemma IsTheUsers(w: World, e: Event)
    requires IsUserRead(e) && !e.DisconnectRead? && e.handle !in w.open && e.handle in Read(w, e).open
    ensures var op := Read(w, e).open[e.handle]; !op.Ending? && !op.Rebinding? && op.user == e.user
  {
    if e.TicketRead? { TicketIsTheUsers(w, e); }
  }

  lemma TicketIsTheUsers(w: World, e: Event)
    requires e.TicketRead? && e.handle !in w.open && e.handle in Read(w, e).open
    ensures var op := Read(w, e).open[e.handle]; op.Ticketing? && op.user == e.user
  {
  }

  lemma UserWritesOwn(w: World, e: Event, l: LeaseId)
    requires IsUserRead(e) && e.handle !in w.open && e.handle in Read(w, e).open
    requires WritesTo(Read(w, e).open[e.handle], l)
    ensures l in w.leases && w.leases[l].owner == e.user
  {
    if e.DisconnectRead? {
      RequestedIsLive(w.leases, e.store, e.user, e.named, e.id, w.now);
    } else {
      ReadOpens(w, e);
      IsTheUsers(w, e);
    }
  }

  lemma FindsStale(w: World, op: Operation, l: LeaseId)
    requires Opened(w, op) && l in op.stale
    ensures l in w.leases && w.leases[l].status.Active? && !w.leases[l].Live(w.now)
  {
  }

  lemma CommitWrites(w: World, h: Handle, id: LeaseId, jti: string, l: LeaseId)
    requires h in w.open && l in w.leases && l in w.touched && !WritesTo(w.open[h], l)
    ensures var w' := CommitOperation(w, h, id, jti);
            && l in w'.leases
            && (|| w'.leases[l] == w.leases[l]
                || (l in w.open[h].stale && w'.leases[l] == w.leases[l].(status := Expired)))
  {
    if w.open[h].Ticketing? { IssueWrites(Cleared(w, h), w.open[h], jti, l); }
  }

  lemma IssueWrites(w: World, op: Operation, jti: string, l: LeaseId)
    requires op.Ticketing? && l in w.leases && l != op.lease
    ensures l in IssueTicket(w, op, jti).leases && IssueTicket(w, op, jti).leases[l] == w.leases[l]
  {
  }

  /**
    A user's request touches somebody else's lease only by expiring it, and only if the lease was stale
    when the request looked at it, whatever happens between its check and its commit.
  */
  lemma OthersLeasesOnlyExpire(w: World, e: Event, events: seq<Event>, id: LeaseId, jti: string, later: nat, l: LeaseId)
    requires Reachable(w) && IsUserRead(e) && e.handle !in w.open && w.now <= e.at && e.handle in Step(w, e).open
    requires forall i :: 0 <= i < |events| ==> !(events[i].Commit? && events[i].handle == e.handle)
    requires var w2 := Run(Step(w, e), events); w2.now <= later && l in w2.leases && w2.leases[l].owner != e.user
    ensures var w2 := Run(Step(w, e), events);
            var w3 := Step(w2, Commit(e.handle, id, jti, later));
            && l in w3.leases
            && (w3.leases[l] == w2.leases[l]
                || (l in w.leases && w.leases[l].status.Active? && !w.leases[l].Live(e.at)
                    && w3.leases[l] == w2.leases[l].(status := Expired)))
  {
    var w0, w1, w2 := w.(now := e.at), Step(w, e), Run(Step(w, e), events);
    HandleStays(w1, events, e.handle);
    LeftAlone(w, e, events, l);
    CommitWrites(w2.(now := later), e.handle, id, jti, l);
    if l in w1.open[e.handle].stale {
      ReadOpens(w0, e);
      FindsStale(w0, w1.open[e.handle], l);
    }
  }

  /** The handler's own leases are still its user's. */
  lemma LeftAlone(w: World, e: Event, events: seq<Event>, l: LeaseId)
    requires Reachable(w) && IsUserRead(e) && e.handle !in w.open && w.now <= e.at && e.handle in Step(w, e).open
    requires l in Run(Step(w, e), events).leases && Run(Step(w, e), events).leases[l].owner != e.user
    ensures !WritesTo(Step(w, e).open[e.handle], l) && l in Run(Step(w, e), events).touched
  {
    var w0, w1 := w.(now := e.at), Step(w, e);
    ReachableInv(w);
    StepKeeps(w, e);
    RowStays(w1, events, l);
    OpensOnly(w0, e);
    if WritesTo(w1.open[e.handle], l) { UserWritesOwn(w0, e, l); }
  }

  lemma RowStays(w: World, events: seq<Event>, l: LeaseId)
    requires Inv(w) && l in Run(w, events).leases
    ensures l in w.touched ==> l in w.leases && SameRow(w.leases[l], Run(w, events).leases[l])
    ensures l in Run(w, events).touched
  {
    EveryRunKeepsInv(w, events);
  }

  lemma OpensOnly(w: World, e: Event)
    requires IsRead(e) && e.handle !in w.open && e.handle in Read(w, e).open
    ensures Read(w, e).leases == w.leases && Read(w, e).touched == w.touched
  {
    ReadIsGood(w, e);
  }

  // ---- Rebinding ----

  /** The event completes a rebind of the store to another node. */
  ghost predicate Rebinds(w: World, e: Event, x: StoreId) {
    && e.Commit? && e.handle in w.open && w.open[e.handle].Rebinding? && w.open[e.handle].store == x && !w.IsLocked(x)
    && MaySave(w.leases, w.open[e.handle]) && x in w.stores && w.open[e.handle].to != w.stores[x]
  }

  lemma CommitRebinds(w: World, e: Event, x: StoreId)
    requires e.Commit? && e.handle in w.open && x in w.stores
    ensures var w' := CommitOperation(w, e.handle, e.id, e.jti);
            x in w'.stores && (w'.stores[x] != w.stores[x] <==> Rebinds(w, e, x))
  {
    var op := w.open[e.handle];
    if op.Ticketing? {
      assert Committed(Cleared(w, e.handle), op, e.id, e.jti) == IssueTicket(Cleared(w, e.handle), op, e.jti);
    }
  }

  lemma ReboundAt(w: World, e: Event, x: StoreId)
    requires x in w.stores && x in Apply(w, e).stores
    ensures Apply(w, e).stores[x] != w.stores[x] <==> Rebinds(w, e, x)
  {
    if IsRead(e) {
      if e.handle !in w.open { ReadIsGood(w, e); }
    } else if e.Commit? {
      if e.handle in w.open { CommitRebinds(w, e, x); }
    }
  }

  lemma LaterRebinds(w: World, at: nat, e: Event, x: StoreId)
    ensures Rebinds(w.(now := at), e, x) <==> Rebinds(w, e, x)
  {
    assert w.(now := at).IsLocked(x) <==> w.IsLocked(x);
  }

  /** A store changes its node exactly when a rebind completes. */
  lemma ReboundExactly(w: World, e: Event, x: StoreId)
    requires x in w.stores && x in Step(w, e).stores && w.now <= e.at
    ensures Step(w, e).stores[x] != w.stores[x] <==> Rebinds(w, e, x)
  {
    ReboundAt(w.(now := e.at), e, x);
    LaterRebinds(w, e.at, e, x);
  }

  /** Leases of the store that nobody is at are dead once a rebind's check has passed. */
  lemma RebindFindsDead(w: World, h: Handle, x: StoreId, n: NodeId, at: nat, l: LeaseId)
    requires h !in w.open && w.now <= at && h in Step(w, RebindRead(h, x, n, at)).open
    requires l in w.touched && !IsTouched(w, l) && (l in w.leases ==> w.leases[l].store == x)
    ensures Dead(Step(w, RebindRead(h, x, n, at)), l)
  {
    var w1 := Step(w, RebindRead(h, x, n, at));
    assert w1.leases == w.leases && l !in LiveAt(w.leases, x, at);
    forall k | k in w1.open ensures !w1.open[k].Touches(l) {
      if k != h { assert k in w.open && w1.open[k] == w.open[k]; }
    }
  }

  /**
    The live leases that a rebind can meet when it completes: only such as were opened after its check, or
    were being renewed at the time of it.
  */
  lemma RebindMeetsNewLeases(w: World, h: Handle, x: StoreId, n: NodeId, at: nat, events: seq<Event>, l: LeaseId)
    requires Reachable(w) && h !in w.open && w.now <= at && h in Step(w, RebindRead(h, x, n, at)).open
    requires var w' := Run(Step(w, RebindRead(h, x, n, at)), events); l in LiveAt(w'.leases, x, w'.now)
    ensures l !in w.touched || IsTouched(w, l)
  {
    var w1 := Step(w, RebindRead(h, x, n, at));
    ReachableInv(w);
    StepKeeps(w, RebindRead(h, x, n, at));
    EveryRunKeepsInv(w1, events);
    EvolvesTransitively(w, w1, Run(w1, events));
    if l in w.touched {
      assert SameRow(w.leases[l], Run(w1, events).leases[l]);
      if !IsTouched(w, l) { RebindFindsDead(w, h, x, n, at, l); }
    }
  }

  // ---- One node per lease ----

  /** A ticket was issued, or is about to be, under the lease for the node. */
  ghost predicate Uses(w: World, l: LeaseId, n: NodeId) {
    || (exists i :: i in w.issued && i.lease == l && i.node == n)
    || (exists h :: h in w.open && w.open[h].TicketsFor(l) && w.open[h].node == n)
  }

  ghost predicate IsHome(w: World, l: LeaseId, n: NodeId) {
    l in w.leases && w.leases[l].store in w.stores && w.stores[w.leases[l].store] == n
  }

  ghost predicate NodeInv(w: World) {
    && (forall l, m, n :: Uses(w, l, m) && Uses(w, l, n) ==> m == n)
    && (forall l, n :: Uses(w, l, n) && Alive(w, l) ==> IsHome(w, l, n))
  }

  lemma UsesIsTouched(w: World, l: LeaseId, n: NodeId)
    requires Inv(w) && Uses(w, l, n)
    ensures l in w.touched
  {
    if h :| h in w.open && w.open[h].TicketsFor(l) && w.open[h].node == n {
      assert OpFits(w, w.open[h]);
    } else {
      var i :| i in w.issued && i.lease == l && i.node == n;
      assert IssuedFits(w, i);
    }
  }

  lemma NodeStep(w: World, w': World)
    requires Inv(w) && NodeInv(w) && Evolves(w, w')
    requires forall l, n :: Uses(w', l, n) ==> Uses(w, l, n) || (Alive(w, l) && IsHome(w, l, n))
    requires forall l, n :: Alive(w, l) && Alive(w', l) && IsHome(w, l, n) ==> IsHome(w', l, n)
    ensures NodeInv(w')
  {
    forall l, n | Uses(w', l, n) && Alive(w', l) ensures IsHome(w', l, n) {
      if Uses(w, l, n) { UsesIsTouched(w, l, n); }
      assert l in w.touched && !Dead(w, l);
    }
  }

  /** No rebind completes while a lease of the store is live. */
  ghost predicate IsOrderly(w: World, e: Event) {
    forall x :: Rebinds(w, e, x) ==> LiveAt(w.leases, x, e.at) == {}
  }

  ghost predicate IsOrderlyRun(w: World, events: seq<Event>)
    decreases |events|
  {
    events == [] || (IsOrderly(w, events[0]) && IsOrderlyRun(Step(w, events[0]), events[1..]))
  }

  lemma ReadUses(w: World, e: Event, l: LeaseId, n: NodeId)
    requires IsRead(e) && e.handle !in w.open && Uses(Read(w, e), l, n)
    ensures Uses(w, l, n) || (Alive(w, l) && IsHome(w, l, n))
  {
    var w' := Read(w, e);
    ReadIsGood(w, e);
    if h :| h in w'.open && w'.open[h].TicketsFor(l) && w'.open[h].node == n {
      if h == e.handle { ReadOpens(w, e); } else { assert h in w.open; }
    }
  }

  lemma CommitUses(w: World, e: Event, l: LeaseId, n: NodeId)
    requires OpenInv(w) && e.Commit? && e.handle in w.open && Uses(CommitOperation(w, e.handle, e.id, e.jti), l, n)
    ensures Uses(w, l, n)
  {
    var w' := CommitOperation(w, e.handle, e.id, e.jti);
    if h :| h in w'.open && w'.open[h].TicketsFor(l) && w'.open[h].node == n {
      CommitFrame(w, e.handle, e.id, e.jti);
    } else {
      var i :| i in w'.issued && i.lease == l && i.node == n;
      if i !in w.issued {
        CommitIssues(w, e.handle, e.id, e.jti, i);
        assert w.open[e.handle].TicketsFor(l);
      }
    }
  }

  lemma ApplyUses(w: World, e: Event, l: LeaseId, n: NodeId)
    requires OpenInv(w) && Uses(Apply(w, e), l, n)
    ensures Uses(w, l, n) || (Alive(w, l) && IsHome(w, l, n))
  {
    if IsRead(e) {
      if e.handle !in w.open { ReadUses(w, e, l, n); }
    } else if e.Commit? {
      if e.handle in w.open { CommitUses(w, e, l, n); }
    }
  }

  /** A live lease is not being renewed while its store is unlocked. */
  lemma UnlockedIsLive(w: World, l: LeaseId)
    requires OpenInv(w) && Alive(w, l) && !w.IsLocked(w.leases[l].store)
    ensures l in LiveAt(w.leases, w.leases[l].store, w.now)
  {
    if h :| h in w.open && w.open[h].Touches(l) {
      assert OpFits(w, w.open[h]) && w.open[h].Locks(w.leases[l].store);
    }
  }

  lemma HomeStays(w: World, e: Event, l: LeaseId, n: NodeId)
    requires Inv(w) && IsOrderly(w, e) && e.at == w.now && Evolves(w, Apply(w, e)) && LeaseInv(Apply(w, e))
    requires Alive(w, l) && Alive(Apply(w, e), l) && IsHome(w, l, n)
    ensures IsHome(Apply(w, e), l, n)
  {
    var w' := Apply(w, e);
    assert SameRow(w.leases[l], w'.leases[l]);
    var x := w.leases[l].store;
    ReboundAt(w, e, x);
    if Rebinds(w, e, x) {
      UnlockedIsLive(w, l);
    }
  }

  lemma TickKeepsNodes(w: World, at: nat)
    requires Inv(w) && NodeInv(w) && w.now <= at
    ensures NodeInv(w.(now := at))
  {
    var w' := w.(now := at);
    TickKeeps(w, at);
    forall l, n | Uses(w', l, n) ensures Uses(w, l, n) {
      if h :| h in w'.open && w'.open[h].TicketsFor(l) && w'.open[h].node == n { assert h in w.open; }
    }
    NodeStep(w, w');
  }

  lemma ApplyKeepsNodes(w: World, e: Event)
    requires Inv(w) && NodeInv(w) && IsOrderly(w, e) && e.at == w.now
    ensures NodeInv(Apply(w, e))
  {
    var w' := Apply(w, e);
    ApplyKeepsTable(w, e);
    forall l, n | Uses(w', l, n) ensures Uses(w, l, n) || (Alive(w, l) && IsHome(w, l, n)) { ApplyUses(w, e, l, n); }
    forall l, n | Alive(w, l) && Alive(w', l) && IsHome(w, l, n) ensures IsHome(w', l, n) { HomeStays(w, e, l, n); }
    NodeStep(w, w');
  }

  lemma StepKeepsNodes(w: World, e: Event)
    requires Inv(w) && NodeInv(w) && IsOrderly(w, e)
    ensures NodeInv(Step(w, e))
  {
    if w.now <= e.at {
      TickKeeps(w, e.at);
      TickKeepsNodes(w, e.at);
      forall x | Rebinds(w.(now := e.at), e, x) ensures Rebinds(w, e, x) { LaterRebinds(w, e.at, e, x); }
      ApplyKeepsNodes(w.(now := e.at), e);
    }
  }

  lemma {:induction false} OrderlyRunKeepsNodes(w: World, events: seq<Event>)
    requires Inv(w) && NodeInv(w) && IsOrderlyRun(w, events)
    ensures NodeInv(Run(w, events))
    decreases |events|
  {
    if events == [] {
      assert Run(w, events) == w;
    } else {
      StepKeeps(w, events[0]);
      StepKeepsNodes(w, events[0]);
      OrderlyRunKeepsNodes(Step(w, events[0]), events[1..]);
    }
  }

  /** Unless a rebind completes while a lease is live, all tickets ever issued under one lease are for one node. */
  lemma OneNodePerLease(nodes: map<NodeId, Node>, events: seq<Event>, i: Issued, j: Issued)
    requires IsOrderlyRun(Initial(nodes), events) && i.lease == j.lease
    requires i in Run(Initial(nodes), events).issued && j in Run(Initial(nodes), events).issued
    ensures i.node == j.node
  {
    var w := Run(Initial(nodes), events);
    InitialInv(nodes);
    assert NodeInv(Initial(nodes));
    OrderlyRunKeepsNodes(Initial(nodes), events);
    assert Uses(w, i.lease, i.node) && Uses(w, i.lease, j.node);
  }

  // ---- Runs that show what time between a check and its commit can do ----

  const NODES := map[1 := Node("a", "s", 60), 2 := Node("b", "t", 60)]

  /** Store 3, with lease 5 of user 4 at most. */
  ghost predicate IsScene(w: World, node: NodeId, leases: Leases, open: map<Handle, Operation>) {
    && Reachable(w) && w.now == 0 && w.nodes == NODES && w.stores == map[3 := node] && node in NODES
    && w.leases == leases && w.open == open && w.touched.Keys == leases.Keys
  }

  const LEASE := NewLease(3, 4, "d", 0)

  /** What a ticket request of the lease has read. */
  function TicketFor(node: NodeId): Operation { Ticketing(3, 4, 5, LEASE, node, "h", 80, 0, {}) }

  lemma Created() returns (w: World)
    ensures IsScene(w, 1, map[], map[])
  {
    var w0 := Initial(NODES);
    assert Reachable(w0) by { assert w0 == Run(w0, []); }
    w := Step(w0, CreateStore(3, 1, 0));
    ReachableStep(w0, CreateStore(3, 1, 0));
  }

  /** A commit at once, with nothing stale. */
  lemma Commits(w: World, h: Handle, id: LeaseId, jti: string)
    requires h in w.open && MaySave(w.leases, w.open[h]) && w.open[h].stale == {}
    requires !(w.open[h].Rebinding? && w.IsLocked(w.open[h].store)) && !(w.open[h].Opening? && id in w.touched)
    ensures Step(w, Commit(h, id, jti, w.now)) == Committed(w.(open := w.open - {h}), w.open[h], id, jti)
  {
    assert w.(now := w.now) == w && ExpireAll(w.leases, {}) == w.leases;
    assert Cleared(w, h) == w.(open := w.open - {h});
  }

  lemma RebindReads(w: World) returns (w': World)
    requires IsScene(w, 1, map[], map[])
    ensures IsScene(w', 1, map[], map[7 := Rebinding(3, 2, {})])
  {
    w' := Step(w, RebindRead(7, 3, 2, 0));
    ReachableStep(w, RebindRead(7, 3, 2, 0));
    assert w.(now := 0) == w && LiveAt(map[], 3, 0) == {} && StaleAt(map[], 3, 0) == {};
  }

  lemma ConnectReads(w: World, node: NodeId, open: map<Handle, Operation>) returns (w': World)
    requires IsScene(w, node, map[], open) && 8 !in open && !w.IsLocked(3)
    ensures IsScene(w', node, map[], open[8 := Opening(3, 4, "d", {})])
  {
    var e := ConnectRead(8, 3, 4, "d", 5, true, 0);
    w' := Step(w, e);
    ReachableStep(w, e);
    assert w.(now := 0) == w && LiveOf(map[], 3, 4, 0) == {} && StaleAt(map[], 3, 0) == {};
  }

  lemma ConnectCommits(w: World, node: NodeId, open: map<Handle, Operation>) returns (w': World)
    requires IsScene(w, node, map[], open[8 := Opening(3, 4, "d", {})]) && 8 !in open
    ensures IsScene(w', node, map[5 := LEASE], open)
  {
    w' := Step(w, Commit(8, 5, "", 0));
    ReachableStep(w, Commit(8, 5, "", 0));
    assert w.open - {8} == open;
    Commits(w, 8, 5, "");
  }

  /** A connect opens the lease, with nothing in between. */
  lemma Connects(w: World, node: NodeId, open: map<Handle, Operation>) returns (w': World)
    requires IsScene(w, node, map[], open) && 8 !in open && !w.IsLocked(3)
    ensures IsScene(w', node, map[5 := LEASE], open)
  {
    var w1 := ConnectReads(w, node, open);
    w' := ConnectCommits(w1, node, open);
  }

  lemma TicketReads(w: World, h: Handle, node: NodeId, open: map<Handle, Operation>) returns (w': World)
    requires IsScene(w, node, map[5 := LEASE], open) && h !in open
    ensures IsScene(w', node, map[5 := LEASE], open[h := TicketFor(node)]) && w'.issued == w.issued
  {
    var e := TicketRead(h, 3, 4, Some("d"), 5, true, "h", 80, 0);
    w' := Step(w, e);
    ReachableStep(w, e);
    assert w.(now := 0) == w && StaleAt(map[5 := LEASE], 3, 0) == {};
  }

  /** The ticket is issued at any time while the lease, as it was read, has a second to go. */
  lemma TicketIssued(w: World, h: Handle, node: NodeId, jti: string, at: nat) returns (i: Issued)
    requires h in w.open && w.open[h] == TicketFor(node) && node in NODES && w.nodes == NODES && jti != ""
    requires w.now <= at && at + SECOND <= LEASE_LIFETIME
    ensures i.lease == 5 && i.node == node && i.checked == 0 && i.at == at
    ensures var w' := Step(w, Commit(h, 0, jti, at));
            w' == w.(now := at, open := w.open - {h}, issued := w'.issued) && i in w'.issued && w.issued <= w'.issued
    ensures NODES[node].Verifier().Verify(i.token, at).Ok?
  {
    var w1, op := w.(now := at), TicketFor(node);
    var w2 := Cleared(w1, h);
    var remaining := (LEASE_LIFETIME - at) / SECOND;
    assert ExpireAll(w.leases, {}) == w.leases && CommitOperation(w1, h, 0, jti) == IssueTicket(w2, op, jti);
    assert remaining > 0 && op.row.expiresAt == LEASE_LIFETIME;
    i := LiveLeaseGetsTicket(w2, op, jti);
  }

  /** A ticket is issued at once. */
  lemma Ticketed(w: World, node: NodeId, open: map<Handle, Operation>, jti: string) returns (w': World, i: Issued)
    requires IsScene(w, node, map[5 := LEASE], open) && 8 !in open && jti != ""
    ensures IsScene(w', node, map[5 := LEASE], open) && i in w'.issued && w.issued <= w'.issued
    ensures i.lease == 5 && i.node == node
  {
    var w1 := TicketReads(w, 8, node, open);
    w', i := TicketCommits(w1, node, open, jti);
  }

  lemma TicketCommits(w: World, node: NodeId, open: map<Handle, Operation>, jti: string)
    returns (w': World, i: Issued)
    requires IsScene(w, node, map[5 := LEASE], open[8 := TicketFor(node)]) && 8 !in open && jti != ""
    ensures IsScene(w', node, map[5 := LEASE], open) && i in w'.issued && w.issued <= w'.issued
    ensures i.lease == 5 && i.node == node
  {
    i := TicketIssued(w, 8, node, jti, 0);
    w' := Step(w, Commit(8, 0, jti, 0));
    ReachableStep(w, Commit(8, 0, jti, 0));
    assert open[8 := TicketFor(node)] - {8} == open;
  }

  lemma Rebound(w: World) returns (w': World)
    requires IsScene(w, 1, map[5 := LEASE], map[7 := Rebinding(3, 2, {})])
    ensures w' == Step(w, Commit(7, 0, "", 0)) && IsScene(w', 2, map[5 := LEASE], map[]) && w'.issued == w.issued
  {
    w' := Step(w, Commit(7, 0, "", 0));
    ReachableStep(w, Commit(7, 0, "", 0));
    assert w.open - {7} == map[];
    Commits(w, 7, 0, "");
  }

  /** A connect and a ticket for the old node, between the check and the commit of a rebind. */
  lemma ConnectedMeanwhile() returns (w: World, i: Issued)
    ensures IsScene(w, 1, map[5 := LEASE], map[7 := Rebinding(3, 2, {})])
    ensures i in w.issued && i.lease == 5 && i.node == 1
  {
    var w1 := Created();
    var w2 := RebindReads(w1);
    var w3 := Connects(w2, 1, map[7 := Rebinding(3, 2, {})]);
    w, i := Ticketed(w3, 1, map[7 := Rebinding(3, 2, {})], "j");
  }

  /**
    A rebind checks that no lease is live, a connect opens one and gets a ticket for the old node, and the
    rebind completes: the store has moved under a live lease, which gets its next ticket for the new node.
  */
  lemma ReboundWhileLive() returns (w: World, w': World, later: World, i: Issued, j: Issued)
    ensures Reachable(w) && w' == Step(w, Commit(7, 0, "", 0)) && 3 in w.stores && 3 in w'.stores
    ensures w'.stores[3] != w.stores[3] && 5 in LiveAt(w'.leases, 3, w'.now)
    ensures Reachable(later) && i in later.issued && j in later.issued && i.lease == j.lease && i.node != j.node
  {
    w, i := ConnectedMeanwhile();
    w' := Rebound(w);
    later, j := Ticketed(w', 2, map[], "k");
  }

  lemma DisconnectReads(w: World, open: map<Handle, Operation>) returns (w': World)
    requires IsScene(w, 1, map[5 := LEASE], open) && 8 !in open
    ensures IsScene(w', 1, map[5 := LEASE], open[8 := Ending({5}, {})])
  {
    var e := DisconnectRead(8, 3, 4, Some("d"), 5, true, 0);
    w' := Step(w, e);
    ReachableStep(w, e);
    assert w.(now := 0) == w && StaleAt(map[5 := LEASE], 3, 0) == {};
  }

  lemma LeaseEnds()
    ensures DisconnectAll(map[5 := LEASE], {5}) == map[5 := LEASE.(status := Disconnected)]
  {
  }

  lemma DisconnectCommits(w: World, open: map<Handle, Operation>) returns (w': World)
    requires IsScene(w, 1, map[5 := LEASE], open[8 := Ending({5}, {})]) && 8 !in open
    ensures IsScene(w', 1, map[5 := LEASE.(status := Disconnected)], open)
  {
    w' := Step(w, Commit(8, 0, "", 0));
    ReachableStep(w, Commit(8, 0, "", 0));
    assert w.open - {8} == open;
    Commits(w, 8, 0, "");
    LeaseEnds();
  }

  /**
    The time between the check and the issue of a ticket cannot be left out of the bound on revocation: for
    every delay within the lease's lifetime there is a lease that ends right after the check, and a ticket
    under it that is issued that much later and then verifies.
  */
  lemma LateTicket(delay: nat) returns (w: World, i: Issued)
    requires delay + SECOND <= LEASE_LIFETIME
    ensures Reachable(w) && Ended(w, i.lease) && w.now == 0 && 7 in w.open
    ensures i in Step(w, Commit(7, 0, "j", delay)).issued && i.at == delay
    ensures NODES[1].Verifier().Verify(i.token, delay).Ok?
  {
    w := Created();
    w := Connects(w, 1, map[]);
    w := TicketReads(w, 7, 1, map[]);
    w := DisconnectReads(w, map[7 := TicketFor(1)]);
    w := DisconnectCommits(w, map[7 := TicketFor(1)]);
    i := TicketIssued(w, 7, 1, "j", delay);
  }
}
