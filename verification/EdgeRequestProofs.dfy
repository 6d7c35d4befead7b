/** Every ticket answers a request, and every request does to the leases what it says. */
module EdgeRequestProofs {
  import opened Common
  import opened StoreLeases
  import opened EdgeAccess
  import opened EdgeAccessProofs
  import opened EdgeBindingProofs
  import ET = EdgeTickets

  // ---- The name of a store ----

  predicate IsDigit(c: char) { '0' <= c <= '9' }

  /** The number that a text of digits stands for. */
  function Read10(s: string): nat {
    if s == "" then 0
    else
      var c := s[|s| - 1];
      10 * Read10(s[..|s| - 1]) + if IsDigit(c) then c as nat - '0' as nat else 0
  }

  /** A ticket names its store in decimal: digits without a leading zero that stand for the store's number. */
  lemma {:induction false} DecimalReads(n: nat)
    ensures Decimal(n) != "" && Read10(Decimal(n)) == n
    ensures forall i :: 0 <= i < |Decimal(n)| ==> IsDigit(Decimal(n)[i])
    ensures n >= 10 ==> Decimal(n)[0] != '0'
    ensures n < 10 ==> |Decimal(n)| == 1
    ensures n > 0 ==> Decimal(n)[0] != '0'
  {
    var digit := ["0", "1", "2", "3", "4", "5", "6", "7", "8", "9"][n % 10];
    assert |digit| == 1 && IsDigit(digit[0]) && digit[0] as nat - '0' as nat == n % 10;
    if n < 10 {
      assert digit[..0] == "";
    } else {
      DecimalReads(n / 10);
      assert Decimal(n) == Decimal(n / 10) + digit && Decimal(n)[..|Decimal(n)| - 1] == Decimal(n / 10);
    }
  }

  lemma StoresHaveTheirNames(m: nat, n: nat)
    requires Decimal(m) == Decimal(n)
    ensures m == n
  {
    DecimalReads(m);
    DecimalReads(n);
  }

  // ---- Where a ticket comes from ----

  /** What a ticket was asked for, and what the check had found. */
  datatype Ask = Ask(store: StoreId, user: UserId, host: string, port: int, lease: LeaseId, node: NodeId, checked: nat)

  function AskOf(i: Issued): Ask { Ask(i.store, i.user, i.host, i.port, i.lease, i.node, i.checked) }

  function AskIn(op: Operation): Ask
    requires op.Ticketing?
  {
    Ask(op.store, op.user, op.host, op.port, op.lease, op.node, op.readAt)
  }

  /**
    In `w` the event is a ticket request for that store, host and port, of a user who may use the store. Its user
    has the lease there, live at that time, and has named its device or has no other one; the store is on the node.
  */
  ghost predicate Asks(w: World, e: Event, ask: Ask) {
    && e.TicketRead? && e.allowed && e.store == ask.store && e.user == ask.user && e.host == ask.host
    && e.port == ask.port && e.at == ask.checked && w.now <= e.at
    && ask.lease in w.leases && ask.store in w.stores && w.stores[ask.store] == ask.node
    && var row := w.leases[ask.lease];
    && row.store == ask.store && row.owner == ask.user && row.status.Active? && row.expiresAt > e.at
    && row.heartbeat + 90 * 1_000_000 >= e.at
    && match e.named
       case Some(device) => row.device == device
       case None => forall l :: l in LiveOf(w.leases, ask.store, ask.user, e.at) ==> l == ask.lease
  }

  ghost predicate Asked(w: World, events: seq<Event>, ask: Ask) {
    exists m :: 0 <= m < |events| && AskedAt(w, events, m, ask)
  }

  ghost predicate AskedAt(w: World, events: seq<Event>, m: nat, ask: Ask)
    requires m < |events|
  {
    Asks(Run(w, events[..m]), events[m], ask)
  }

  lemma AskedEarlier(w: World, events: seq<Event>, n: nat, ask: Ask)
    requires n <= |events| && Asked(w, events[..n], ask)
    ensures Asked(w, events, ask)
  {
    var m :| 0 <= m < n && AskedAt(w, events[..n], m, ask);
    assert events[..n][..m] == events[..m] && events[..n][m] == events[m];
    assert AskedAt(w, events, m, ask);
  }

  lemma CheckAsks(w: World, e: Event)
    requires e.TicketRead? && e.handle !in w.open && e.handle in Read(w, e).open && e.at == w.now
    ensures Read(w, e).open[e.handle].Ticketing? && Asks(w, e, AskIn(Read(w, e).open[e.handle]))
  {
    assert Requested(w.leases, e.store, e.user, e.named, e.id, w.now);
    RequestedIsLive(w.leases, e.store, e.user, e.named, e.id, w.now);
  }

  lemma OtherChecksAskNothing(w: World, e: Event)
    requires IsRead(e) && !e.TicketRead? && e.handle !in w.open && e.handle in Read(w, e).open
    ensures !Read(w, e).open[e.handle].Ticketing?
  {
  }

  /** Whatever is open or issued after one more event was asked for before or just now. */
  lemma StepAsks(w: World, e: Event, op: Operation)
    requires OpenInv(w) && op.Ticketing? && op in Step(w, e).open.Values
    ensures op in w.open.Values || Asks(w.(now := e.at), e, AskIn(op))
  {
    var h :| h in Step(w, e).open && Step(w, e).open[h] == op;
    if w.now <= e.at {
      var w0 := w.(now := e.at);
      if IsRead(e) && e.handle !in w.open {
        ReadIsGood(w0, e);
        if h == e.handle && h in Read(w0, e).open {
          if e.TicketRead? { CheckAsks(w0, e); } else { OtherChecksAskNothing(w0, e); }
        }
      } else if e.Commit? && e.handle in w.open {
        CommitFrame(w0, e.handle, e.id, e.jti);
      }
    }
  }

  lemma StepIssues(w: World, e: Event, i: Issued)
    requires OpenInv(w) && i in Step(w, e).issued && i !in w.issued
    ensures e.Commit? && e.handle in w.open && w.open[e.handle].Ticketing? && AskOf(i) == AskIn(w.open[e.handle])
  {
    var w0 := w.(now := e.at);
    if e.Commit? && e.handle in w.open {
      forall k | k in w0.open ensures OpFits(w0, w0.open[k]) { FitsFrame(w, w0, w.open[k]); }
      CommitIssues(w0, e.handle, e.id, e.jti, i);
    } else if !e.Commit? && !e.PresentTicket? {
      OtherEventsFrame(w0, e);
    }
  }

  ghost predicate AllAsked(w: World, events: seq<Event>) {
    var w' := Run(w, events);
    && (forall op :: op in w'.open.Values && op.Ticketing? ==> Asked(w, events, AskIn(op)))
    && (forall i :: i in w'.issued ==> Asked(w, events, AskOf(i)))
  }

  lemma LastStep(w: World, events: seq<Event>)
    requires events != []
    ensures Run(w, events) == Step(Run(w, events[..|events| - 1]), events[|events| - 1])
  {
    var n := |events| - 1;
    assert events == events[..n] + [events[n]];
    RunsAdd(w, events[..n], [events[n]]);
    var w1 := Run(w, events[..n]);
    assert Run(w1, [events[n]]) == Run(Step(w1, events[n]), []);
  }

  lemma JustAsked(w: World, events: seq<Event>, ask: Ask)
    requires events != []
    requires var n := |events| - 1; Asks(Run(w, events[..n]).(now := events[n].at), events[n], ask)
    requires Run(w, events[..|events| - 1]).now <= events[|events| - 1].at
    ensures Asked(w, events, ask)
  {
    assert AskedAt(w, events, |events| - 1, ask);
  }

  lemma {:induction false} EverythingIsAsked(w: World, events: seq<Event>)
    requires Inv(w) && w.open == map[] && w.issued == {}
    ensures AllAsked(w, events)
  {
    if events == [] {
      assert Run(w, events) == w;
    } else {
      var n := |events| - 1;
      var w1, e := Run(w, events[..n]), events[n];
      EverythingIsAsked(w, events[..n]);
      EveryRunKeepsInv(w, events[..n]);
      LastStep(w, events);
      forall op | op in Step(w1, e).open.Values && op.Ticketing? ensures Asked(w, events, AskIn(op)) {
        StepAsks(w1, e, op);
        if op in w1.open.Values { AskedEarlier(w, events, n, AskIn(op)); } else { JustAsked(w, events, AskIn(op)); }
      }
      forall i | i in Step(w1, e).issued ensures Asked(w, events, AskOf(i)) {
        if i !in w1.issued { StepIssues(w1, e, i); }
        AskedEarlier(w, events, n, AskOf(i));
      }
    }
  }

  /** Every ticket ever issued answers a request that was allowed, of the user who had the lease, for what it names. */
  lemma IssuedWasAsked(nodes: map<NodeId, Node>, events: seq<Event>, i: Issued)
    requires i in Run(Initial(nodes), events).issued
    ensures Asked(Initial(nodes), events, AskOf(i))
  {
    InitialInv(nodes);
    EverythingIsAsked(Initial(nodes), events);
  }

  // ---- What a lease is worth ----

  /** A lease that is opened or renewed is live for 90 seconds and no longer, and then only if it was not ended. */
  lemma LeaseLives(lease: Lease, x: StoreId, u: UserId, d: string, now: nat, t: nat)
    requires now <= t
    ensures NewLease(x, u, d, now).Live(t) <==> t <= now + 90 * 1_000_000
    ensures NewLease(x, u, d, now) == Lease(x, u, d, Active, now + 8 * 3600 * 1_000_000, now)
    ensures lease.Touch(now).Live(t) <==> lease.status.Active? && t <= now + 90 * 1_000_000
    ensures lease.Touch(now)
            == Lease(lease.store, lease.owner, lease.device, lease.status, now + 8 * 3600 * 1_000_000, now)
  {
  }

  /** The stale leases of a store: active ones past their end, or 90 seconds without a heartbeat. They expire. */
  lemma StaleExpire(leases: Leases, x: StoreId, now: nat, l: LeaseId)
    requires l in leases
    ensures var stale := && leases[l].store == x && leases[l].status.Active?
                         && (leases[l].expiresAt <= now || leases[l].heartbeat + 90 * 1_000_000 < now);
            && l in Expire(leases, x, now) && (l in StaleAt(leases, x, now) <==> stale)
            && Expire(leases, x, now)[l] == (if stale then leases[l].(status := Expired) else leases[l])
  {
  }

  /** The stale leases of the store have expired, and no other lease has changed. */
  ghost predicate StaleExpired(leases: Leases, leases': Leases, x: StoreId, now: nat) {
    && leases'.Keys == leases.Keys
    && forall l :: l in leases ==>
         leases'[l] == if leases[l].store == x && leases[l].status.Active?
                          && (leases[l].expiresAt <= now || leases[l].heartbeat + 90 * 1_000_000 < now)
                       then leases[l].(status := Expired) else leases[l]
  }

  /** Looking at a store expires its stale leases and does nothing else. */
  lemma ListingExpires(w: World, x: StoreId, at: nat)
    requires w.now <= at
    ensures var w' := Step(w, ListStore(x, at));
            w' == w.(now := at, leases := w'.leases) && StaleExpired(w.leases, w'.leases, x, at)
  {
  }

  /**
    A ticket request that finds no such lease is refused. It expires the stale leases of the store, unless the user
    has several live ones and named none.
  */
  lemma TicketRefused(w: World, h: Handle, x: StoreId, u: UserId, named: Option<string>, id: LeaseId, allowed: bool,
                      host: string, port: int, at: nat)
    requires h !in w.open && w.now <= at && x in w.stores && w.stores[x] in w.nodes
    requires !Requested(w.leases, x, u, named, id, at)
    ensures var w' := Step(w, TicketRead(h, x, u, named, id, allowed, host, port, at));
            && w' == w.(now := at, leases := w'.leases)
            && if named.Some? || LiveOf(w.leases, x, u, at) == {} then StaleExpired(w.leases, w'.leases, x, at)
               else w'.leases == w.leases
  {
  }

  /** A request whose lease has less than a second to go when the ticket is due gets none, and the lease expires. */
  lemma TicketTooLate(w: World, h: Handle, id: LeaseId, jti: string, at: nat)
    requires w.now <= at && h in w.open && w.open[h].Ticketing? && w.open[h].row.expiresAt < at + 1_000_000
    ensures var w', op := Step(w, Commit(h, id, jti, at)), w.open[h];
            && w'.issued == w.issued && w'.leases.Keys == w.leases.Keys
            && forall l :: l in w.leases ==>
                 w'.leases[l] == if op.stale <= w.leases.Keys && (l == op.lease || l in op.stale)
                                 then w.leases[l].(status := Expired) else w.leases[l]
  {
    assert (w.open[h].row.expiresAt - at) / SECOND <= 0;
  }

  // ---- Presenting a ticket ----

  /**
    A presented ticket is let through exactly when it verifies at that Edge, allowing its issuer's clock to be 5
    seconds ahead, and no unexpired ticket with its identifier has been presented there. Nothing else happens.
  */
  lemma TicketPresented(w: World, n: NodeId, token: ET.Token, at: nat)
    requires w.now <= at && n in w.nodes && n in w.edges && w.edges[n].now <= at && Unforged(w, n, token)
    ensures var w', node, edge := Step(w, PresentTicket(n, token, at)), w.nodes[n], w.edges[n];
            var verdict := ET.Verifier(node.secret, node.name, node.maxTtl, 5).Verify(token, at);
            var passes := verdict.Ok? && (verdict.value.jti in edge.cache ==>
                                            edge.cache[verdict.value.jti] <= at / 1_000_000);
            && w' == w.(now := at, edges := w.edges[n := w'.edges[n]])
            && w'.edges[n].accepted == edge.accepted + (if passes then [ET.Presentation(token, at)] else [])
            && (passes ==> ET.Remembers(w'.edges[n], verdict.value))
  {
  }

  // ---- Ending leases ----

  /** The handler behind `h` does not complete among the events. */
  ghost predicate Between(events: seq<Event>, h: Handle) {
    forall i :: 0 <= i < |events| ==> !(events[i].Commit? && events[i].handle == h)
  }

  /** `w3` is what the commit of `h` makes of what the events between it and its check have led to. */
  ghost predicate Completes(w: World, e: Event, h: Handle, events: seq<Event>, later: nat, w2: World, w3: World) {
    && w2 == Run(Step(w, e), events) && w2.now <= later && w3 == Step(w2, Commit(h, 0, "", later)) && Between(events, h)
  }

  /** All leases in `which` are disconnected and those in `stale` expired, or, if one of them is gone, none. */
  ghost predicate Ends(w2: World, w3: World, which: set<LeaseId>, stale: set<LeaseId>) {
    && w3.leases.Keys == w2.leases.Keys && w3.issued == w2.issued && w3.stores == w2.stores
    && forall l :: l in w2.leases ==>
         w3.leases[l] == if !(which + stale <= w2.leases.Keys) then w2.leases[l]
                         else if l in which then w2.leases[l].(status := Disconnected)
                         else if l in stale then w2.leases[l].(status := Expired)
                         else w2.leases[l]
  }

  lemma EndingCommits(w: World, e: Event, h: Handle, events: seq<Event>, later: nat, w2: World, w3: World)
    requires Completes(w, e, h, events, later, w2, w3) && h in Step(w, e).open && Step(w, e).open[h].Ending?
    ensures Ends(w2, w3, Step(w, e).open[h].leases, Step(w, e).open[h].stale)
  {
    HandleStays(Step(w, e), events, h);
    EndingSaves(w2, h, later);
  }

  lemma EndingSaves(w: World, h: Handle, later: nat)
    requires w.now <= later && h in w.open && w.open[h].Ending?
    ensures Ends(w, Step(w, Commit(h, 0, "", later)), w.open[h].leases, w.open[h].stale)
  {
  }

  /** A user's disconnect ends the lease that the request names, or the only one the user has at the store. */
  lemma UserDisconnects(w: World, h: Handle, x: StoreId, u: UserId, named: Option<string>, id: LeaseId, at: nat,
                        events: seq<Event>, later: nat, w2: World, w3: World)
    requires h !in w.open && w.now <= at && x in w.stores && id in LiveOf(w.leases, x, u, at)
    requires match named
             case Some(device) => w.leases[id].device == device
             case None => forall l :: l in LiveOf(w.leases, x, u, at) ==> l == id
    requires Completes(w, DisconnectRead(h, x, u, named, id, true, at), h, events, later, w2, w3)
    ensures Ends(w2, w3, {id}, StaleAt(w.leases, x, at))
  {
    assert named.None? ==> LiveOf(w.leases, x, u, at) == {id};
    EndingCommits(w, DisconnectRead(h, x, u, named, id, true, at), h, events, later, w2, w3);
  }

  /** Disconnecting a store by force ends all leases that were live there at the check. */
  lemma StoreDisconnected(w: World, h: Handle, x: StoreId, at: nat, events: seq<Event>, later: nat,
                          w2: World, w3: World)
    requires h !in w.open && w.now <= at && LiveAt(w.leases, x, at) != {}
    requires Completes(w, ForceStoreRead(h, x, at), h, events, later, w2, w3)
    ensures Ends(w2, w3, LiveAt(w.leases, x, at), StaleAt(w.leases, x, at))
  {
    EndingCommits(w, ForceStoreRead(h, x, at), h, events, later, w2, w3);
  }

  /** Disconnecting a live lease by force ends it. */
  lemma LeaseDisconnected(w: World, h: Handle, id: LeaseId, at: nat, events: seq<Event>, later: nat,
                          w2: World, w3: World)
    requires h !in w.open && w.now <= at && id in w.leases && w.leases[id].Live(at)
    requires Completes(w, ForceLeaseRead(h, id, at), h, events, later, w2, w3)
    ensures Ends(w2, w3, {id}, StaleAt(w.leases, w.leases[id].store, at))
  {
    EndingCommits(w, ForceLeaseRead(h, id, at), h, events, later, w2, w3);
  }

  /** A password change or a deletion ends all leases of the user that were active, live or not. */
  lemma UserDropped(w: World, h: Handle, u: UserId, at: nat, events: seq<Event>, later: nat, w2: World, w3: World)
    requires h !in w.open && w.now <= at && Completes(w, DropUserRead(h, u, at), h, events, later, w2, w3)
    ensures Ends(w2, w3, set l | l in w.leases && w.leases[l].owner == u && w.leases[l].status.Active?, {})
  {
    EndingCommits(w, DropUserRead(h, u, at), h, events, later, w2, w3);
  }

  // ---- Refusals, and the deletion of a store ----

  /** Without a live lease of that user at the store (and on the device named) nothing is renewed, ended or issued. */
  lemma NoLeaseNoEffect(w: World, h: Handle, x: StoreId, u: UserId, d: string, id: LeaseId, host: string, port: int,
                        at: nat)
    requires h !in w.open && w.now <= at
    requires id in LiveOf(w.leases, x, u, at) ==> w.leases[id].device != d
    ensures Step(w, HeartbeatRead(h, x, u, d, id, true, at)) == w.(now := at)
    ensures Step(w, DisconnectRead(h, x, u, Some(d), id, true, at)) == w.(now := at)
    ensures Step(w, TicketRead(h, x, u, Some(d), id, true, host, port, at)).open == w.open
  {
  }

  /** Whoever may not use the store gets nothing from it. */
  lemma NotAllowed(w: World, h: Handle, x: StoreId, u: UserId, named: Option<string>, d: string, id: LeaseId,
                   host: string, port: int, at: nat)
    requires h !in w.open && w.now <= at
    ensures Step(w, ConnectRead(h, x, u, d, id, false, at)) == w.(now := at)
    ensures Step(w, HeartbeatRead(h, x, u, d, id, false, at)) == w.(now := at)
    ensures Step(w, DisconnectRead(h, x, u, named, id, false, at)) == w.(now := at)
    ensures Step(w, TicketRead(h, x, u, named, id, false, host, port, at)).open == w.open
  {
  }

  /** A store disappears exactly when it is deleted with no live lease and nobody at it; its leases go with it. */
  lemma DeletedExactly(w: World, e: Event, x: StoreId)
    requires x in w.stores && w.now <= e.at
    ensures x !in Step(w, e).stores <==>
              e.DeleteStore? && e.store == x && !w.IsLocked(x) && LiveAt(w.leases, x, e.at) == {}
    ensures x !in Step(w, e).stores ==>
              forall l :: l in Step(w, e).leases <==> l in w.leases && w.leases[l].store != x
  {
    var w0 := w.(now := e.at);
    assert w0.IsLocked(x) <==> w.IsLocked(x);
    if IsRead(e) {
      if e.handle !in w.open { ReadIsGood(w0, e); }
    } else if e.Commit? {
      if e.handle in w.open { CommitRebinds(w0, e, x); }
    }
  }
}
