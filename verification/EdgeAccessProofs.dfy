/** What every run of lease, ticket and tunnel requests keeps. */
module EdgeAccessProofs {
  import opened Common
  import opened StoreLeases
  import opened EdgeAccess
  import ET = EdgeTickets

  // ---- Leases ----

  /** At most one active lease per (store, user, device), and every lease is on record with its last touch. */
  ghost predicate LeaseInv(w: World) {
    && (forall l :: l in w.leases ==> l in w.touched && w.leases[l].heartbeat == w.touched[l] <= w.now)
    && (forall l :: l in w.leases ==> w.leases[l].store in w.stores)
    && OneActive(w.leases)
  }

  ghost predicate OneActive(leases: Leases) {
    forall l, m :: l in leases && m in leases && SameClient(leases[l], leases[m]) ==> l == m
  }

  predicate SameClient(a: Lease, b: Lease) {
    a.status.Active? && b.status.Active? && a.Is(b.store, b.owner, b.device)
  }

  /** What an open handler relies on. */
  ghost predicate OpenInv(w: World) { forall h :: h in w.open ==> OpFits(w, w.open[h]) }

  ghost predicate OpFits(w: World, op: Operation) {
    match op
    case Touching(x, u, l, stale) =>
      StaleFits(w.leases, x, stale) && l in w.leases && w.leases[l].store == x && w.leases[l].owner == u && l !in stale
    case Opening(x, u, d, stale) =>
      StaleFits(w.leases, x, stale) && NoneActiveBut(w.leases, x, u, d, stale) && x in w.stores
    case Ticketing(x, u, l, row, _, _, _, readAt, _) =>
      && l in w.touched && row.Live(readAt) && row.heartbeat <= w.touched[l] && readAt <= w.now
    case Rebinding(_, _, _) => true
    case Ending(_, _) => true
  }

  /** The leases to be expired are leases of the store. */
  ghost predicate StaleFits(leases: Leases, x: StoreId, stale: set<LeaseId>) {
    forall l :: l in stale ==> l in leases && leases[l].store == x
  }

  /** All active leases of the client are going to be expired. */
  ghost predicate NoneActiveBut(leases: Leases, x: StoreId, u: UserId, d: string, stale: set<LeaseId>) {
    forall l :: l in leases && leases[l].status.Active? && leases[l].Is(x, u, d) ==> l in stale
  }

  predicate Locking(w: World, h: Handle, x: StoreId) { h in w.open && w.open[h].Locks(x) }

  /** A store's row is locked by one handler at a time. */
  ghost predicate LockInv(w: World) { forall h, k, x :: Locking(w, h, x) && Locking(w, k, x) ==> h == k }

  predicate IsTouched(w: World, l: LeaseId) { exists h :: h in w.open && w.open[h].Touches(l) }

  /** The lease is live, or active with a connect or heartbeat under way that found it live. */
  predicate Alive(w: World, l: LeaseId) {
    l in w.leases && w.leases[l].status.Active? && (w.leases[l].Live(w.now) || IsTouched(w, l))
  }

  /** The lease was opened once and can carry no request any more. */
  ghost predicate Dead(w: World, l: LeaseId) { l in w.touched && !Alive(w, l) }

  /** The lease has ended in the table: its status says so, or its row is gone. */
  ghost predicate Ended(w: World, l: LeaseId) { l in w.touched && !(l in w.leases && w.leases[l].status.Active?) }

  /** Time and records go on, dead leases stay dead, and no row comes back or is revived. */
  ghost predicate Evolves(w: World, w': World) {
    && w.now <= w'.now && w.issued <= w'.issued
    && (forall l :: l in w.touched ==> l in w'.touched && w.touched[l] <= w'.touched[l])
    && (forall l :: Dead(w, l) ==> Dead(w', l))
    && (forall l :: l in w.touched && l in w'.leases ==> l in w.leases && SameRow(w.leases[l], w'.leases[l]))
  }

  /** The same client's lease, not revived. */
  predicate SameRow(a: Lease, b: Lease) {
    a.Is(b.store, b.owner, b.device) && (b.status.Active? ==> a.status.Active?)
  }

  lemma EvolvesTransitively(a: World, b: World, c: World)
    requires Evolves(a, b) && Evolves(b, c)
    ensures Evolves(a, c)
  {
  }

  /** Leases only go away or stop being active. */
  ghost predicate Weakened(a: Leases, b: Leases) {
    forall l :: l in b ==> l in a && (b[l] == a[l] || IsEndOf(a[l], b[l]))
  }

  predicate IsEndOf(a: Lease, b: Lease) { b == a.(status := b.status) && !b.status.Active? }

  /** No connect or heartbeat comes to be under way for a lease that is not live. */
  ghost predicate TouchesOnlyLive(w: World, w': World) {
    forall l :: IsTouched(w', l) ==> IsTouched(w, l) || (l in w.leases && w.leases[l].Live(w.now))
  }

  lemma WeakenKeeps(w: World, w': World)
    requires LeaseInv(w) && Weakened(w.leases, w'.leases) && TouchesOnlyLive(w, w')
    requires w'.now == w.now && w'.touched == w.touched && w.issued <= w'.issued
    requires forall l :: l in w'.leases ==> w'.leases[l].store in w'.stores
    ensures LeaseInv(w') && Evolves(w, w')
  {
    forall l, m | l in w'.leases && m in w'.leases && SameClient(w'.leases[l], w'.leases[m]) ensures l == m {
      assert SameClient(w.leases[l], w.leases[m]);
    }
  }

  /** A lease is renewed by a handler that found it live; the handler is done. */
  lemma TouchKeeps(w: World, w': World, id: LeaseId)
    requires LeaseInv(w) && id in w.leases && IsTouched(w, id) && (forall l :: IsTouched(w', l) ==> IsTouched(w, l))
    requires w'.leases == w.leases[id := w.leases[id].Touch(w.now)] && w'.touched == w.touched[id := w.now]
    requires w'.now == w.now && w'.issued == w.issued && w'.stores == w.stores
    ensures LeaseInv(w') && Evolves(w, w')
  {
    forall l, m | l in w'.leases && m in w'.leases && SameClient(w'.leases[l], w'.leases[m]) ensures l == m {
      assert SameClient(w.leases[l], w.leases[m]);
    }
  }

  /** A lease is opened for a client that has no active one. */
  lemma OpenKeeps(w: World, w': World, x: StoreId, u: UserId, d: string, id: LeaseId)
    requires LeaseInv(w) && id !in w.touched && (forall l :: IsTouched(w', l) ==> IsTouched(w, l))
    requires NoneActiveBut(w.leases, x, u, d, {}) && x in w.stores
    requires w'.leases == w.leases[id := NewLease(x, u, d, w.now)] && w'.touched == w.touched[id := w.now]
    requires w'.now == w.now && w'.issued == w.issued && w'.stores == w.stores
    ensures LeaseInv(w') && Evolves(w, w')
  {
    forall l, m | l in w'.leases && m in w'.leases && SameClient(w'.leases[l], w'.leases[m]) ensures l == m {
      if l != id && m != id { assert SameClient(w.leases[l], w.leases[m]); }
    }
  }

  // ---- Checks ----

  lemma ExpireWeakens(leases: Leases, x: StoreId, now: nat, which: set<LeaseId>)
    ensures Weakened(leases, leases) && Weakened(leases, Expire(leases, x, now))
    ensures Weakened(leases, ExpireAll(leases, which)) && Weakened(leases, DisconnectAll(leases, which))
  {
  }

  /** A handler opened `h`, or some stale leases of a store were expired; nothing else happened. */
  ghost predicate GoodRead(w: World, w': World, h: Handle) {
    && Weakened(w.leases, w'.leases) && w'.leases.Keys == w.leases.Keys
    && (w'.open == w.open || (h in w'.open && w'.leases == w.leases && w'.open == w.open[h := w'.open[h]]))
    && w' == w.(leases := w'.leases, open := w'.open)
  }

  lemma TicketReadIsGood(w: World, e: Event)
    requires e.TicketRead? && e.handle !in w.open
    ensures GoodRead(w, Read(w, e), e.handle)
  {
    ExpireWeakens(w.leases, e.store, w.now, {});
  }

  lemma OtherReadIsGood(w: World, e: Event)
    requires IsRead(e) && !e.TicketRead? && e.handle !in w.open
    ensures var w' := Read(w, e); w' == w || (e.handle in w'.open && w' == w.Opens(e.handle, w'.open[e.handle]))
  {
  }

  lemma ReadIsGood(w: World, e: Event)
    requires IsRead(e) && e.handle !in w.open
    ensures GoodRead(w, Read(w, e), e.handle)
  {
    if e.TicketRead? {
      TicketReadIsGood(w, e);
    } else {
      ExpireWeakens(w.leases, 0, w.now, {});
      OtherReadIsGood(w, e);
    }
  }

  /** What the handle that a check opens stands for. */
  ghost predicate Opened(w: World, op: Operation) {
    match op
    case Touching(x, u, l, stale) =>
      !w.IsLocked(x) && l in LiveOf(w.leases, x, u, w.now) && stale == StaleAt(w.leases, x, w.now)
    case Opening(x, u, d, stale) =>
      && x in w.stores && !w.IsLocked(x) && stale == StaleAt(w.leases, x, w.now)
      && forall l :: l in LiveOf(w.leases, x, u, w.now) ==> w.leases[l].device != d
    case Ticketing(x, u, l, row, n, _, _, readAt, stale) =>
      && l in LiveOf(w.leases, x, u, w.now) && row == w.leases[l] && x in w.stores && n == w.stores[x]
      && readAt == w.now && stale == StaleAt(w.leases, x, w.now)
    case Rebinding(x, n, stale) =>
      && x in w.stores && n != w.stores[x] && LiveAt(w.leases, x, w.now) == {} && stale == StaleAt(w.leases, x, w.now)
    case Ending(which, stale) =>
      && (forall l :: l in which ==> l in w.leases && w.leases[l].status.Active?)
      && (forall l :: l in stale ==> l in w.leases && w.leases[l].status.Active? && !w.leases[l].Live(w.now))
  }

  lemma RequestedIsLive(leases: Leases, x: StoreId, u: UserId, named: Option<string>, id: LeaseId, now: nat)
    requires Requested(leases, x, u, named, id, now)
    ensures id in LiveOf(leases, x, u, now)
  {
  }

  lemma ConnectOpens(w: World, e: Event)
    requires e.ConnectRead? && e.handle !in w.open && e.handle in Read(w, e).open
    ensures Opened(w, Read(w, e).open[e.handle])
  {
    assert Read(w, e) == ReadConnect(w, e.handle, e.store, e.user, e.device, e.id);
    var op := ReadConnect(w, e.handle, e.store, e.user, e.device, e.id).open[e.handle];
    if e.id in LiveOf(w.leases, e.store, e.user, w.now) && w.leases[e.id].device == e.device {
      assert op.Touching?;
    } else {
      assert op.Opening?;
    }
  }

  lemma HeartbeatOpens(w: World, e: Event)
    requires e.HeartbeatRead? && e.handle !in w.open && e.handle in Read(w, e).open
    ensures Opened(w, Read(w, e).open[e.handle])
  {
  }

  lemma TicketOpens(w: World, e: Event)
    requires (e.TicketRead? || e.DisconnectRead?) && e.handle !in w.open && e.handle in Read(w, e).open
    ensures Opened(w, Read(w, e).open[e.handle])
  {
    if Requested(w.leases, e.store, e.user, e.named, e.id, w.now) {
      RequestedIsLive(w.leases, e.store, e.user, e.named, e.id, w.now);
    }
  }

  lemma AdminOpens(w: World, e: Event)
    requires e.RebindRead? || e.ForceStoreRead? || e.ForceLeaseRead? || e.DropUserRead?
    requires e.handle !in w.open && e.handle in Read(w, e).open
    ensures Opened(w, Read(w, e).open[e.handle])
  {
  }

  lemma ReadOpens(w: World, e: Event)
    requires IsRead(e) && e.handle !in w.open && e.handle in Read(w, e).open
    ensures Opened(w, Read(w, e).open[e.handle])
  {
    if e.ConnectRead? {
      ConnectOpens(w, e);
    } else if e.HeartbeatRead? {
      HeartbeatOpens(w, e);
    } else if e.TicketRead? || e.DisconnectRead? {
      TicketOpens(w, e);
    } else {
      AdminOpens(w, e);
    }
  }

  lemma OpenedFits(w: World, w': World, op: Operation)
    requires LeaseInv(w) && Opened(w, op) && w'.stores == w.stores
    requires w'.leases == w.leases && w'.touched == w.touched && w'.now == w.now
    ensures OpFits(w', op)
  {
    if op.Opening? {
      forall l | l in w.leases && w.leases[l].status.Active? && w.leases[l].Is(op.store, op.user, op.device)
        ensures l in op.stale
      {
        assert l in LiveOf(w.leases, op.store, op.user, w.now) <==> w.leases[l].Live(w.now);
      }
    }
  }

  /** The store and its leases are still there. */
  ghost predicate Stays(w: World, w': World, x: StoreId) {
    && (x in w.stores ==> x in w'.stores)
    && (forall l :: l in w.leases && w.leases[l].store == x ==> l in w'.leases)
  }

  /** What open handlers rely on survives leases that end, and touches. */
  lemma FitsFrame(w: World, w': World, op: Operation)
    requires OpFits(w, op) && w.now <= w'.now
    requires forall l :: l in w.touched ==> l in w'.touched && w.touched[l] <= w'.touched[l]
    requires forall l :: l in w'.leases ==> l in w.leases && SameRow(w.leases[l], w'.leases[l])
    requires op.Touching? || op.Opening? ==> Stays(w, w', op.store)
    ensures OpFits(w', op)
  {
  }

  lemma ReadKeepsOpen(w: World, e: Event)
    requires LeaseInv(w) && OpenInv(w) && IsRead(e) && e.handle !in w.open
    ensures OpenInv(Read(w, e))
  {
    var w' := Read(w, e);
    ReadIsGood(w, e);
    forall k | k in w'.open ensures OpFits(w', w'.open[k]) {
      if k == e.handle {
        ReadOpens(w, e);
        OpenedFits(w, w', w'.open[k]);
      } else {
        FitsFrame(w, w', w.open[k]);
      }
    }
  }

  lemma ReadKeepsLocks(w: World, e: Event)
    requires LockInv(w) && IsRead(e) && e.handle !in w.open
    ensures LockInv(Read(w, e))
  {
    var w' := Read(w, e);
    ReadIsGood(w, e);
    if e.handle in w'.open { ReadOpens(w, e); }
    forall h, k, x | Locking(w', h, x) && Locking(w', k, x) ensures h == k {
      if h != e.handle { assert Locking(w, h, x); }
      if k != e.handle { assert Locking(w, k, x); }
    }
  }

  lemma ReadTouchesOnlyLive(w: World, e: Event)
    requires IsRead(e) && e.handle !in w.open
    ensures TouchesOnlyLive(w, Read(w, e))
  {
    var w' := Read(w, e);
    ReadIsGood(w, e);
    if e.handle in w'.open { ReadOpens(w, e); }
    forall l | IsTouched(w', l) ensures IsTouched(w, l) || (l in w.leases && w.leases[l].Live(w.now)) {
      var h :| h in w'.open && w'.open[h].Touches(l);
      assert h != e.handle ==> h in w.open && w.open[h].Touches(l);
    }
  }

  ghost predicate TableInv(w: World) { LeaseInv(w) && OpenInv(w) && LockInv(w) }

  lemma ReadKeeps(w: World, e: Event)
    requires TableInv(w) && IsRead(e) && e.handle !in w.open
    ensures TableInv(Read(w, e)) && Evolves(w, Read(w, e))
  {
    ReadIsGood(w, e);
    ReadTouchesOnlyLive(w, e);
    WeakenKeeps(w, Read(w, e));
    ReadKeepsOpen(w, e);
    ReadKeepsLocks(w, e);
  }

  // ---- Commits ----

  /** Handles are closed, and none is opened. */
  ghost predicate Closes(w: World, w': World) { forall h :: h in w'.open ==> h in w.open && w'.open[h] == w.open[h] }

  lemma CloseKeepsLocks(w: World, w': World)
    requires LockInv(w) && Closes(w, w')
    ensures LockInv(w') && forall l :: IsTouched(w', l) ==> IsTouched(w, l)
  {
    forall h, k, x | Locking(w', h, x) && Locking(w', k, x) ensures h == k {
      assert Locking(w, h, x) && Locking(w, k, x);
    }
    forall l | IsTouched(w', l) ensures IsTouched(w, l) {
      var h :| h in w'.open && w'.open[h].Touches(l);
      assert h in w.open && w.open[h].Touches(l);
    }
  }

  /** A commit that only ends leases, whatever else it does to stores and tickets. */
  lemma EndKeeps(w: World, w': World)
    requires TableInv(w) && Closes(w, w') && Weakened(w.leases, w'.leases) && w'.leases.Keys == w.leases.Keys
    requires w.stores.Keys <= w'.stores.Keys
    requires w'.now == w.now && w'.touched == w.touched && w.issued <= w'.issued
    ensures TableInv(w') && Evolves(w, w')
  {
    CloseKeepsLocks(w, w');
    WeakenKeeps(w, w');
    forall h | h in w'.open ensures OpFits(w', w'.open[h]) { FitsFrame(w, w', w.open[h]); }
  }

  /** The step that all commits share: the leases found stale are expired. */
  function Cleared(w: World, h: Handle): World
    requires h in w.open
  {
    w.(open := w.open - {h}, leases := ExpireAll(w.leases, w.open[h].stale))
  }

  lemma WeakenedTransitively(a: Leases, b: Leases, c: Leases)
    requires Weakened(a, b) && Weakened(b, c)
    ensures Weakened(a, c)
  {
  }

  lemma IssueEnds(w: World, op: Operation, jti: string)
    requires op.Ticketing?
    ensures var w' := IssueTicket(w, op, jti);
            && Weakened(w.leases, w'.leases) && w'.leases.Keys == w.leases.Keys && w'.open == w.open
            && w'.now == w.now && w'.touched == w.touched && w.issued <= w'.issued && w'.stores.Keys == w.stores.Keys
  {
    ExpireWeakens(w.leases, 0, w.now, {op.lease});
    var remaining := (op.row.expiresAt - w.now) / SECOND;
    if remaining > 0 {
      assert IssueTicket(w, op, jti) == w.(issued := w.issued + Tickets(w.nodes, op, remaining, jti, w.now));
    } else {
      assert IssueTicket(w, op, jti) == w.(leases := ExpireAll(w.leases, {op.lease}));
    }
  }

  lemma CommittedEnds(w: World, op: Operation, id: LeaseId, jti: string)
    requires !op.Touching? && !op.Opening?
    ensures var w' := Committed(w, op, id, jti);
            && Weakened(w.leases, w'.leases) && w'.leases.Keys == w.leases.Keys && w'.open == w.open
            && w'.now == w.now && w'.touched == w.touched && w.issued <= w'.issued && w'.stores.Keys == w.stores.Keys
  {
    if op.Ticketing? {
      IssueEnds(w, op, jti);
    } else {
      ExpireWeakens(w.leases, 0, w.now, if op.Ending? then op.leases else {});
    }
  }

  lemma CommitEnds(w: World, h: Handle, id: LeaseId, jti: string)
    requires h in w.open && !w.open[h].Touching? && !w.open[h].Opening?
    ensures var w' := CommitOperation(w, h, id, jti);
            && Closes(w, w') && Weakened(w.leases, w'.leases) && w'.leases.Keys == w.leases.Keys
            && w'.now == w.now && w'.touched == w.touched && w.issued <= w'.issued && w'.stores.Keys == w.stores.Keys
  {
    var w', w1, op := CommitOperation(w, h, id, jti), Cleared(w, h), w.open[h];
    ExpireWeakens(w.leases, 0, w.now, op.stale);
    if !(op.Rebinding? && w.IsLocked(op.store)) && MaySave(w.leases, op) {
      assert w' == Committed(w1, op, id, jti);
      CommittedEnds(w1, op, id, jti);
      WeakenedTransitively(w.leases, w1.leases, w'.leases);
    } else {
      assert w'.leases == w.leases;
    }
  }

  lemma OpenKeepsFits(w: World, w': World, x: StoreId, u: UserId, d: string, id: LeaseId, op: Operation)
    requires OpFits(w, op) && id !in w.touched && LeaseInv(w)
    requires w'.leases == w.leases[id := NewLease(x, u, d, w.now)] && w'.touched == w.touched[id := w.now]
    requires w'.now == w.now && w'.stores == w.stores && (op.Opening? ==> op.store != x)
    ensures OpFits(w', op)
  {
  }

  lemma NothingKeeps(w: World, h: Handle)
    requires TableInv(w)
    ensures var w' := w.(open := w.open - {h}); TableInv(w') && Evolves(w, w')
  {
    ExpireWeakens(w.leases, 0, w.now, {});
    EndKeeps(w, w.(open := w.open - {h}));
  }

  /** The lease is opened, after the stale leases of its client were expired. */
  lemma OpeningSaves(w: World, h: Handle, w1: World, w': World, id: LeaseId, jti: string)
    requires TableInv(w) && h in w.open && w.open[h].Opening? && id !in w.touched
    requires w1 == Cleared(w, h) && w' == Committed(w1, w.open[h], id, jti)
    ensures TableInv(w1) && Evolves(w, w1) && LeaseInv(w') && Evolves(w1, w')
  {
    var op := w.open[h];
    assert OpFits(w, op);
    ExpireWeakens(w.leases, op.store, w.now, op.stale);
    EndKeeps(w, w1);
    CloseKeepsLocks(w1, w');
    OpenKeeps(w1, w', op.store, op.user, op.device, id);
  }

  lemma OpeningKeepsOpen(w: World, h: Handle, w1: World, w': World, id: LeaseId, jti: string)
    requires LockInv(w) && h in w.open && w.open[h].Opening? && id !in w.touched
    requires w1 == Cleared(w, h) && w' == Committed(w1, w.open[h], id, jti) && TableInv(w1)
    ensures OpenInv(w')
  {
    var op := w.open[h];
    forall k | k in w'.open ensures OpFits(w', w'.open[k]) {
      if w.open[k].Opening? && w.open[k].store == op.store {
        assert Locking(w, h, op.store) && Locking(w, k, op.store);
      }
      OpenKeepsFits(w1, w', op.store, op.user, op.device, id, w.open[k]);
    }
  }

  lemma OpeningKeeps(w: World, h: Handle, id: LeaseId, jti: string)
    requires TableInv(w) && h in w.open && w.open[h].Opening?
    ensures var w' := CommitOperation(w, h, id, jti); TableInv(w') && Evolves(w, w')
  {
    var w', w1 := CommitOperation(w, h, id, jti), Cleared(w, h);
    if id !in w.touched && MaySave(w.leases, w.open[h]) {
      OpeningSaves(w, h, w1, w', id, jti);
      OpeningKeepsOpen(w, h, w1, w', id, jti);
      CloseKeepsLocks(w1, w');
      EvolvesTransitively(w, w1, w');
    } else {
      NothingKeeps(w, h);
    }
  }

  /** The lease is renewed, after the stale ones of the store were expired. */
  lemma TouchingSaves(w: World, h: Handle, w1: World, w': World, id: LeaseId, jti: string)
    requires TableInv(w) && h in w.open && w.open[h].Touching? && w.open[h].lease in w.leases
    requires w1 == w.(leases := ExpireAll(w.leases, w.open[h].stale))
    requires w' == Committed(Cleared(w, h), w.open[h], id, jti)
    ensures TableInv(w1) && Evolves(w, w1) && LeaseInv(w') && Evolves(w1, w')
  {
    var op := w.open[h];
    ExpireWeakens(w.leases, op.store, w.now, op.stale);
    EndKeeps(w, w1);
    CloseKeepsLocks(w1, w');
    assert op.Touches(op.lease) && h in w1.open;
    TouchKeeps(w1, w', op.lease);
  }

  lemma TouchingKeepsOpen(w: World, w': World, l: LeaseId)
    requires OpenInv(w) && Closes(w, w') && l in w.leases && w'.now == w.now && w'.stores == w.stores
    requires w'.leases == w.leases[l := w.leases[l].Touch(w.now)] && w'.touched == w.touched[l := w.now]
    requires l in w.touched ==> w.touched[l] <= w.now
    ensures OpenInv(w')
  {
    forall k | k in w'.open ensures OpFits(w', w'.open[k]) {
      FitsFrame(w, w', w.open[k]);
    }
  }

  lemma TouchingKeeps(w: World, h: Handle, id: LeaseId, jti: string)
    requires TableInv(w) && h in w.open && w.open[h].Touching?
    ensures var w' := CommitOperation(w, h, id, jti); TableInv(w') && Evolves(w, w')
  {
    if MaySave(w.leases, w.open[h]) {
      var w' := Committed(Cleared(w, h), w.open[h], id, jti);
      assert CommitOperation(w, h, id, jti) == w';
      var w1 := w.(leases := ExpireAll(w.leases, w.open[h].stale));
      TouchingSaves(w, h, w1, w', id, jti);
      CloseKeepsLocks(w1, w');
      EvolvesTransitively(w, w1, w');
      TouchingKeepsOpen(w1, w', w.open[h].lease);
    } else {
      NothingKeeps(w, h);
    }
  }

  lemma CommitKeeps(w: World, h: Handle, id: LeaseId, jti: string)
    requires TableInv(w) && h in w.open
    ensures var w' := CommitOperation(w, h, id, jti); TableInv(w') && Evolves(w, w')
  {
    if w.open[h].Touching? {
      TouchingKeeps(w, h, id, jti);
    } else if w.open[h].Opening? {
      OpeningKeeps(w, h, id, jti);
    } else {
      CommitEnds(w, h, id, jti);
      EndKeeps(w, CommitOperation(w, h, id, jti));
    }
  }

  /** A store is deleted with its leases, none of which anybody is at. */
  lemma DeleteKeeps(w: World, x: StoreId)
    requires TableInv(w) && !w.IsLocked(x)
    ensures var w' := w.(stores := w.stores - {x},
                         leases := map l | l in w.leases && w.leases[l].store != x :: w.leases[l]);
            TableInv(w') && Evolves(w, w')
  {
    var w' := w.(stores := w.stores - {x}, leases := map l | l in w.leases && w.leases[l].store != x :: w.leases[l]);
    CloseKeepsLocks(w, w');
    WeakenKeeps(w, w');
    forall h | h in w'.open ensures OpFits(w', w'.open[h]) {
      assert OpFits(w, w.open[h]);
      assert w.open[h].Touching? || w.open[h].Opening? ==> w.open[h].Locks(w.open[h].store);
      FitsFrame(w, w', w.open[h]);
    }
  }

  lemma OtherEventsEnd(w: World, e: Event)
    requires !IsRead(e) && !e.Commit? && !e.DeleteStore?
    ensures var w' := Apply(w, e);
            && w'.open == w.open && Weakened(w.leases, w'.leases) && w'.leases.Keys == w.leases.Keys
            && w'.now == w.now && w'.touched == w.touched && w'.issued == w.issued && w.stores.Keys <= w'.stores.Keys
  {
    ExpireWeakens(w.leases, if e.ListStore? then e.store else 0, w.now, {});
  }

  lemma ApplyKeepsTable(w: World, e: Event)
    requires TableInv(w)
    ensures TableInv(Apply(w, e)) && Evolves(w, Apply(w, e))
  {
    if IsRead(e) {
      if e.handle !in w.open { ReadKeeps(w, e); }
    } else if e.Commit? {
      if e.handle in w.open { CommitKeeps(w, e.handle, e.id, e.jti); }
    } else if e.DeleteStore? {
      if !w.IsLocked(e.store) { DeleteKeeps(w, e.store); }
    } else {
      OtherEventsEnd(w, e);
      EndKeeps(w, Apply(w, e));
    }
  }

  lemma TickKeepsTable(w: World, at: nat)
    requires TableInv(w) && w.now <= at
    ensures TableInv(w.(now := at)) && Evolves(w, w.(now := at))
  {
    var w' := w.(now := at);
    CloseKeepsLocks(w, w');
    forall h | h in w'.open ensures OpFits(w', w'.open[h]) { FitsFrame(w, w', w.open[h]); }
  }

  // ---- Tickets and Edges ----

  /** What a ticket carries was bounded when it was issued, by what its request had read. */
  ghost predicate IssuedInv(i: Issued) {
    && i.checked <= i.heartbeat + STALE_AFTER && i.checked <= i.at
    && i.token.Token? && i.token.payload.Object? && ET.ExpiresAt in i.token.payload.fields
    && var exp := i.token.payload.fields[ET.ExpiresAt];
    && exp.Int? && exp.n <= WholeSecond(i.at) + MAX_TTL && exp.n <= WholeSecond(i.leaseExpiry)
  }

  ghost predicate IssuedFits(w: World, i: Issued) {
    && IssuedInv(i) && i.at <= w.now && i.lease in w.touched && i.heartbeat <= w.touched[i.lease]
    && i.node in w.nodes && Names(i.token, w.nodes[i.node].name, Decimal(i.store), i.host, i.port)
  }

  /** The ticket says for which node, store, host and port it is. */
  predicate Names(token: ET.Token, node: string, store: string, host: string, port: int) {
    && token.Token? && token.payload.Object?
    && var p := token.payload.fields;
    && {ET.ForNode, ET.ForStore, ET.ToHost, ET.ToPort} <= p.Keys && p[ET.ForNode] == ET.Str(node)
    && p[ET.ForStore] == ET.Str(store) && p[ET.ToHost] == ET.Str(host) && p[ET.ToPort] == ET.Int(port)
  }

  ghost predicate TunnelInv(w: World) {
    && (forall i :: i in w.issued ==> IssuedFits(w, i))
    && (forall n :: n in w.edges ==> n in w.nodes && EdgeFact(w, n))
  }

  ghost predicate EdgeFact(w: World, n: NodeId)
    requires n in w.edges && n in w.nodes
  {
    && ET.EdgeInv(w.nodes[n].Verifier(), w.edges[n])
    && (forall k :: 0 <= k < |w.edges[n].accepted| ==> IsIssued(w.issued, w.edges[n].accepted[k].token))
  }

  lemma LifetimeWithinLease(at: nat, expiry: nat, ttl: nat)
    requires at < expiry && ttl <= (expiry - at) / SECOND
    ensures WholeSecond(at) + ttl <= WholeSecond(expiry)
  {
  }

  /** The ticket is the one that the request asked for. */
  predicate IsFor(i: Issued, op: Operation) {
    && op.Ticketing? && i.lease == op.lease && i.node == op.node && i.checked == op.readAt
    && i.store == op.store && i.user == op.user && i.host == op.host && i.port == op.port
  }

  /** A new ticket comes from an open request and carries what that had read. */
  lemma IssuesFitting(w: World, op: Operation, jti: string, i: Issued)
    requires op.Ticketing? && OpFits(w, op) && i in IssueTicket(w, op, jti).issued && i !in w.issued
    ensures IsFor(i, op) && i.at == w.now && IssuedFits(w, i)
  {
    var remaining := (op.row.expiresAt - w.now) / SECOND;
    assert remaining > 0 && i in Tickets(w.nodes, op, remaining, jti, w.now);
    LifetimeWithinLease(w.now, op.row.expiresAt, if remaining < 60 then remaining else 60);
  }

  lemma CommitIssues(w: World, h: Handle, id: LeaseId, jti: string, i: Issued)
    requires OpenInv(w) && h in w.open && i in CommitOperation(w, h, id, jti).issued && i !in w.issued
    ensures IsFor(i, w.open[h]) && i.at == w.now && IssuedFits(w, i)
  {
    var op, w1 := w.open[h], Cleared(w, h);
    assert OpFits(w, op);
    if op.Ticketing? {
      assert OpFits(w1, op);
      assert MaySave(w.leases, op) && CommitOperation(w, h, id, jti) == IssueTicket(w1, op, jti);
      IssuesFitting(w1, op, jti, i);
    }
  }

  lemma TunnelFrame(w: World, w': World)
    requires TunnelInv(w) && w.issued <= w'.issued && w'.edges == w.edges && w'.nodes == w.nodes && w.now <= w'.now
    requires forall l :: l in w.touched ==> l in w'.touched && w.touched[l] <= w'.touched[l]
    requires forall i :: i in w'.issued && i !in w.issued ==> IssuedFits(w, i)
    ensures TunnelInv(w')
  {
    forall i | i in w'.issued ensures IssuedFits(w', i) { assert IssuedFits(w, i); }
    forall n | n in w'.edges ensures n in w'.nodes && EdgeFact(w', n) {
      assert EdgeFact(w, n);
      forall k | 0 <= k < |w'.edges[n].accepted| ensures IsIssued(w'.issued, w'.edges[n].accepted[k].token) {
        assert IsIssued(w.issued, w.edges[n].accepted[k].token);
      }
    }
  }

  /** What an Edge lets through was issued, since nobody else can sign for it. */
  lemma AcceptedIsIssued(w: World, n: NodeId, token: ET.Token, at: nat)
    requires n in w.edges && n in w.nodes && EdgeFact(w, n) && Unforged(w, n, token)
    ensures var edge := ET.Present(w.nodes[n].Verifier(), w.edges[n], ET.Presentation(token, at));
            && ET.EdgeInv(w.nodes[n].Verifier(), edge)
            && forall k :: 0 <= k < |edge.accepted| ==> IsIssued(w.issued, edge.accepted[k].token)
  {
    var v := w.nodes[n].Verifier();
    ET.PresentKeepsInv(v, w.edges[n], ET.Presentation(token, at));
    if v.Verify(token, at).Ok? { ET.VerifyBounds(v, token, at); }
  }

  lemma PresentKeepsTunnels(w: World, n: NodeId, token: ET.Token, at: nat)
    requires TunnelInv(w)
    ensures TunnelInv(Apply(w, PresentTicket(n, token, at)))
  {
    var w' := Apply(w, PresentTicket(n, token, at));
    if n in w.edges && n in w.nodes && Unforged(w, n, token) {
      assert EdgeFact(w, n);
      AcceptedIsIssued(w, n, token, at);
      forall i | i in w'.issued ensures IssuedFits(w', i) { assert IssuedFits(w, i); }
      forall m | m in w'.edges ensures m in w'.nodes && EdgeFact(w', m) {
        assert m != n ==> EdgeFact(w, m) && w'.edges[m] == w.edges[m];
      }
    }
  }

  lemma CommitFrame(w: World, h: Handle, id: LeaseId, jti: string)
    requires h in w.open
    ensures var w' := CommitOperation(w, h, id, jti);
            w'.edges == w.edges && w'.nodes == w.nodes && (w'.open == w.open || w'.open == w.open - {h})
  {
    var w1, op := Cleared(w, h), w.open[h];
    if op.Touching? ==> op.lease in w.leases { CommittedFrame(w1, op, id, jti); }
  }

  lemma CommittedFrame(w: World, op: Operation, id: LeaseId, jti: string)
    requires op.Touching? ==> op.lease in w.leases
    ensures var w' := Committed(w, op, id, jti); w'.edges == w.edges && w'.nodes == w.nodes && w'.open == w.open
  {
    if op.Ticketing? { assert Committed(w, op, id, jti) == IssueTicket(w, op, jti); }
  }

  lemma OtherEventsFrame(w: World, e: Event)
    requires !e.Commit? && !e.PresentTicket?
    ensures var w' := Apply(w, e); w'.issued == w.issued && w'.edges == w.edges && w'.nodes == w.nodes
  {
    if IsRead(e) && e.handle !in w.open { ReadIsGood(w, e); }
  }

  lemma ApplyKeepsTunnels(w: World, e: Event)
    requires TunnelInv(w) && OpenInv(w) && Evolves(w, Apply(w, e))
    ensures TunnelInv(Apply(w, e))
  {
    if e.PresentTicket? {
      PresentKeepsTunnels(w, e.node, e.token, e.at);
    } else if e.Commit? {
      if e.handle in w.open {
        CommitFrame(w, e.handle, e.id, e.jti);
        forall i | i in Apply(w, e).issued && i !in w.issued ensures IssuedFits(w, i) {
          CommitIssues(w, e.handle, e.id, e.jti, i);
        }
        TunnelFrame(w, Apply(w, e));
      }
    } else {
      OtherEventsFrame(w, e);
      TunnelFrame(w, Apply(w, e));
    }
  }

  ghost predicate Inv(w: World) { TableInv(w) && TunnelInv(w) }

  lemma TickKeeps(w: World, at: nat)
    requires Inv(w) && w.now <= at
    ensures Inv(w.(now := at)) && Evolves(w, w.(now := at))
  {
    TickKeepsTable(w, at);
    TunnelFrame(w, w.(now := at));
  }

  lemma StepKeeps(w: World, e: Event)
    requires Inv(w)
    ensures Inv(Step(w, e)) && Evolves(w, Step(w, e))
  {
    if w.now <= e.at {
      var w0 := w.(now := e.at);
      TickKeeps(w, e.at);
      ApplyKeepsTable(w0, e);
      ApplyKeepsTunnels(w0, e);
      EvolvesTransitively(w, w0, Apply(w0, e));
    }
  }

  lemma {:induction false} EveryRunKeepsInv(w: World, events: seq<Event>)
    requires Inv(w)
    ensures Inv(Run(w, events)) && Evolves(w, Run(w, events))
    decreases |events|
  {
    if events == [] {
      assert Run(w, events) == w;
    } else {
      var w1 := Step(w, events[0]);
      StepKeeps(w, events[0]);
      EveryRunKeepsInv(w1, events[1..]);
      EvolvesTransitively(w, w1, Run(w1, events[1..]));
    }
  }

  ghost predicate Reachable(w: World) { exists nodes, events :: w == Run(Initial(nodes), events) }

  lemma InitialInv(nodes: map<NodeId, Node>)
    ensures Inv(Initial(nodes))
  {
  }

  lemma ReachableInv(w: World)
    requires Reachable(w)
    ensures Inv(w)
  {
    var nodes, events :| w == Run(Initial(nodes), events);
    InitialInv(nodes);
    EveryRunKeepsInv(Initial(nodes), events);
  }

  // ---- Bounded revocation, end to end ----

  /**
    Whatever verifier a ticket passes: it is young enough, and at the check of its request the lease was
    live enough.
  */
  lemma VerifiedIsYoung(w: World, v: ET.Verifier, i: Issued, at: nat)
    requires Reachable(w) && i in w.issued && v.Verify(i.token, at).Ok?
    ensures i.checked <= i.at && i.lease in w.touched && i.heartbeat <= w.touched[i.lease]
    ensures i.node in w.nodes && v.node == w.nodes[i.node].name
    ensures var t := v.Verify(i.token, at).value; t.store == Decimal(i.store) && t.host == i.host && t.port == i.port
    ensures at < i.at + 60 * SECOND && at < i.heartbeat + 150 * SECOND + (i.at - i.checked) && at < i.leaseExpiry
  {
    ReachableInv(w);
    ET.VerifyBounds(v, i.token, at);
    assert IssuedFits(w, i);
  }

  /** Since `w` nobody has begun a ticket request under a lease that was dead in `w`. */
  ghost predicate CheckedBefore(w: World, w': World) {
    && (forall i :: i in w'.issued && Dead(w, i.lease) ==> i.checked <= w.now)
    && (forall h :: h in w'.open && w'.open[h].Ticketing? && Dead(w, w'.open[h].lease) ==> w'.open[h].readAt <= w.now)
  }

  lemma ReadIsCheckedBefore(w: World, w1: World, e: Event)
    requires Evolves(w, w1) && CheckedBefore(w, w1) && IsRead(e) && e.handle !in w1.open
    ensures CheckedBefore(w, Read(w1, e))
  {
    var w2 := Read(w1, e);
    ReadIsGood(w1, e);
    if e.handle in w2.open {
      ReadOpens(w1, e);
      assert w2.open[e.handle].Ticketing? ==> Alive(w1, w2.open[e.handle].lease) && !Dead(w, w2.open[e.handle].lease);
    }
    forall h | h in w2.open && w2.open[h].Ticketing? && Dead(w, w2.open[h].lease) ensures w2.open[h].readAt <= w.now {
      assert h != e.handle && w2.open[h] == w1.open[h];
    }
  }

  lemma CommitIsCheckedBefore(w: World, w1: World, e: Event)
    requires OpenInv(w1) && CheckedBefore(w, w1) && e.Commit? && e.handle in w1.open
    ensures CheckedBefore(w, CommitOperation(w1, e.handle, e.id, e.jti))
  {
    var w2 := CommitOperation(w1, e.handle, e.id, e.jti);
    forall i | i in w2.issued && Dead(w, i.lease) ensures i.checked <= w.now {
      if i !in w1.issued { CommitIssues(w1, e.handle, e.id, e.jti, i); }
    }
    CommitFrame(w1, e.handle, e.id, e.jti);
  }

  lemma ApplyIsCheckedBefore(w: World, w1: World, e: Event)
    requires OpenInv(w1) && Evolves(w, w1) && CheckedBefore(w, w1)
    ensures CheckedBefore(w, Apply(w1, e))
  {
    if IsRead(e) {
      if e.handle !in w1.open { ReadIsCheckedBefore(w, w1, e); }
    } else if e.Commit? {
      if e.handle in w1.open { CommitIsCheckedBefore(w, w1, e); }
    }
  }

  lemma StepIsCheckedBefore(w: World, w1: World, e: Event)
    requires Inv(w1) && Evolves(w, w1) && CheckedBefore(w, w1)
    ensures CheckedBefore(w, Step(w1, e))
  {
    if w1.now <= e.at {
      var w2 := w1.(now := e.at);
      TickKeeps(w1, e.at);
      EvolvesTransitively(w, w1, w2);
      ApplyIsCheckedBefore(w, w2, e);
    }
  }

  lemma {:induction false} RunIsCheckedBefore(w: World, w1: World, events: seq<Event>)
    requires Inv(w1) && Evolves(w, w1) && CheckedBefore(w, w1)
    ensures CheckedBefore(w, Run(w1, events))
    decreases |events|
  {
    if events == [] {
      assert Run(w1, events) == w1;
    } else {
      var w2 := Step(w1, events[0]);
      StepKeeps(w1, events[0]);
      StepIsCheckedBefore(w, w1, events[0]);
      EvolvesTransitively(w, w1, w2);
      RunIsCheckedBefore(w, w2, events[1..]);
    }
  }

  lemma Unchanged(w: World)
    requires Inv(w)
    ensures Evolves(w, w) && CheckedBefore(w, w)
  {
    forall i | i in w.issued ensures i.checked <= w.now { assert IssuedFits(w, i); }
    forall h | h in w.open && w.open[h].Ticketing? ensures w.open[h].readAt <= w.now { assert OpFits(w, w.open[h]); }
  }

  /**
    Bounded revocation. Once a lease is dead (disconnected, expired, stale or deleted), a ticket that was or
    ever will be issued under it belongs to a request that had checked the lease before. It verifies for less
    than 60 seconds after that, and less than 150 seconds after the lease's last connect, preflight or
    heartbeat, plus the time that its request took from the check to the issue.
  */
  lemma BoundedRevocation(w: World, events: seq<Event>, v: ET.Verifier, i: Issued, at: nat)
    requires Reachable(w) && Dead(w, i.lease) && i in Run(w, events).issued && v.Verify(i.token, at).Ok?
    ensures i.checked <= i.at && i.checked <= w.now && i.lease in Run(w, events).touched
    ensures at < w.now + 60 * SECOND + (i.at - i.checked)
    ensures at < Run(w, events).touched[i.lease] + 150 * SECOND + (i.at - i.checked)
  {
    ReachableInv(w);
    Unchanged(w);
    RunIsCheckedBefore(w, w, events);
    ReachableRun(w, events);
    VerifiedIsYoung(Run(w, events), v, i, at);
  }

  lemma {:induction false} RunsAdd(w: World, events: seq<Event>, more: seq<Event>)
    ensures Run(w, events + more) == Run(Run(w, events), more)
    decreases |events|
  {
    if events == [] {
      assert events + more == more;
    } else {
      assert (events + more)[1..] == events[1..] + more && (events + more)[0] == events[0];
      RunsAdd(Step(w, events[0]), events[1..], more);
    }
  }

  lemma ReachableRun(w: World, more: seq<Event>)
    requires Reachable(w)
    ensures Reachable(Run(w, more))
  {
    var nodes, events :| w == Run(Initial(nodes), events);
    RunsAdd(Initial(nodes), events, more);
  }

  lemma ReachableStep(w: World, e: Event)
    requires Reachable(w)
    ensures Reachable(Step(w, e))
  {
    ReachableRun(w, [e]);
    assert Run(w, [e]) == Run(Step(w, e), []);
  }

  /**
    Every tunnel was opened with a ticket the control plane issued, so the bounds hold for it, and it goes to the
    host and port that were asked for.
  */
  lemma TunnelsAreBounded(w: World, n: NodeId, k: nat) returns (i: Issued)
    requires Reachable(w) && n in w.edges && k < |w.edges[n].accepted|
    ensures i in w.issued && i.token == w.edges[n].accepted[k].token && i.checked <= i.at
    ensures n in w.nodes && i.node in w.nodes && w.nodes[n].name == w.nodes[i.node].name
    ensures var p := w.edges[n].accepted[k];
            var verdict := w.nodes[n].Verifier().Verify(p.token, p.at);
            && verdict.Ok? && verdict.value.store == Decimal(i.store)
            && verdict.value.host == i.host && verdict.value.port == i.port
    ensures var at := w.edges[n].accepted[k].at;
            at < i.at + 60 * SECOND && at < i.heartbeat + 150 * SECOND + (i.at - i.checked) && at < i.leaseExpiry
  {
    ReachableInv(w);
    assert EdgeFact(w, n);
    var p := w.edges[n].accepted[k];
    i :| i in w.issued && i.token == p.token;
    VerifiedIsYoung(w, w.nodes[n].Verifier(), i, p.at);
  }

  lemma AcceptedAtItsNode(w: World, n: NodeId, k: nat)
    requires Inv(w) && n in w.edges && k < |w.edges[n].accepted|
    ensures var token := w.edges[n].accepted[k].token;
            && token.Token? && token.payload.Object? && ET.ForNode in token.payload.fields
            && n in w.nodes && token.payload.fields[ET.ForNode] == ET.Str(w.nodes[n].name)
  {
    assert EdgeFact(w, n);
    var p := w.edges[n].accepted[k];
    assert w.nodes[n].Verifier().Verify(p.token, p.at).Ok?;
  }

  /** No ticket is let through twice, at whichever Edges, as long as nodes have different names. */
  lemma TicketsAreUsedOnce(w: World, m: NodeId, j: nat, n: NodeId, k: nat)
    requires Reachable(w)
    requires forall a, b :: a in w.nodes && b in w.nodes && w.nodes[a].name == w.nodes[b].name ==> a == b
    requires m in w.edges && j < |w.edges[m].accepted| && n in w.edges && k < |w.edges[n].accepted|
    requires w.edges[m].accepted[j].token == w.edges[n].accepted[k].token
    ensures m == n && j == k
  {
    ReachableInv(w);
    AcceptedAtItsNode(w, m, j);
    AcceptedAtItsNode(w, n, k);
    assert EdgeFact(w, n);
  }

  // ---- and what a live lease gets ----

  /**
    A connect or heartbeat that found the lease keeps it live for the next 90 seconds, exactly unless the
    lease was ended since the check.
  */
  lemma TouchKeepsAlive(w: World, h: Handle, at: nat, until: nat)
    requires Reachable(w) && h in w.open && w.open[h].Touching? && w.now <= at <= until <= at + STALE_AFTER
    ensures var w', l := Step(w, Commit(h, 0, "", at)), w.open[h].lease;
            && l in w.leases && l in w'.leases && l in w'.touched && w'.touched[l] == at
            && (w'.leases[l].Live(until) <==> w.leases[l].status.Active?)
  {
    ReachableInv(w);
    assert OpFits(w, w.open[h]);
  }

  lemma DecimalIsText(n: nat)
    ensures Decimal(n) != ""
  {
  }

  /**
    A ticket request whose lease had, when checked, a second or more to go beyond the moment of the issue
    gets a ticket, and it verifies at once at the node that the store had at the check.
  */
  lemma LiveLeaseGetsTicket(w: World, op: Operation, jti: string) returns (i: Issued)
    requires op.Ticketing? && op.node in w.nodes && op.row.expiresAt >= w.now + SECOND
    requires w.nodes[op.node].name != "" && w.nodes[op.node].maxTtl >= MAX_TTL
    requires op.host != "" && jti != "" && op.port in {80, 443}
    ensures i in IssueTicket(w, op, jti).issued && IsFor(i, op) && i.at == w.now
    ensures var second, remaining := WholeSecond(w.now), (op.row.expiresAt - w.now) / 1_000_000;
            w.nodes[op.node].Verifier().Verify(i.token, w.now)
            == ET.Ok(ET.Ticket(w.nodes[op.node].name, Decimal(op.store), op.host, op.port, second,
                               second + if remaining < 60 then remaining else 60, jti))
  {
    i := TicketGetsIssued(w, op, jti);
    DecimalIsText(op.store);
    var node, remaining := w.nodes[op.node], (op.row.expiresAt - w.now) / SECOND;
    ET.IssuedTicketVerifies(ET.Issuer(node.secret, node.name, MAX_TTL), node.Verifier(), Decimal(op.store), op.host,
                            op.port, Some(if remaining < 60 then remaining else 60), jti, w.now, w.now);
  }

  lemma TicketGetsIssued(w: World, op: Operation, jti: string) returns (i: Issued)
    requires op.Ticketing? && op.node in w.nodes && op.row.expiresAt >= w.now + SECOND
    requires w.nodes[op.node].name != "" && op.host != "" && jti != "" && op.port in {80, 443}
    ensures i in IssueTicket(w, op, jti).issued && IsFor(i, op) && i.at == w.now
    ensures var node, remaining := w.nodes[op.node], (op.row.expiresAt - w.now) / SECOND;
            var ttl := if remaining < 60 then remaining else 60;
            ET.Ok(i.token) == ET.Issuer(node.secret, node.name, MAX_TTL).Issue(Decimal(op.store), op.host, op.port,
                                                                               Some(ttl), jti, w.now)
  {
    var node, remaining := w.nodes[op.node], (op.row.expiresAt - w.now) / SECOND;
    var ttl := if remaining < 60 then remaining else 60;
    DecimalIsText(op.store);
    var issue := ET.Issuer(node.secret, node.name, MAX_TTL).Issue(Decimal(op.store), op.host, op.port, Some(ttl), jti,
                                                                  w.now);
    i := Issued(issue.value, op.store, op.user, op.host, op.port, op.lease, op.node, op.readAt, w.now, op.row.heartbeat,
                op.row.expiresAt);
    assert Tickets(w.nodes, op, remaining, jti, w.now) == {i};
  }

  // ---- Lease invariants ----

  /** At most one active lease per (store, user, device), without help from a database index. */
  lemma AtMostOneActiveLease(w: World, l: LeaseId, m: LeaseId)
    requires Reachable(w) && l in w.leases && m in w.leases && SameClient(w.leases[l], w.leases[m])
    ensures l == m
  {
    ReachableInv(w);
  }

  /** A lease that has ended never becomes active again. */
  lemma EndedLeasesStayEnded(w: World, events: seq<Event>, l: LeaseId)
    requires Reachable(w) && Ended(w, l)
    ensures Ended(Run(w, events), l)
  {
    ReachableInv(w);
    EveryRunKeepsInv(w, events);
  }
}
