/**
  Store connection leases: kept alive by connects and heartbeats, expired when stale, and the gate to
  every ticket. Times are microseconds on one clock.
*/
module StoreLeases {
  type StoreId = nat
  type UserId = nat
  type NodeId = nat
  type LeaseId = nat

  const STALE_AFTER: nat := 90 * 1_000_000
  const LEASE_LIFETIME: nat := 8 * 3600 * 1_000_000

  datatype Status = Active | Expired | Disconnected

  datatype Lease = Lease(
    store: StoreId, owner: UserId, device: string, status: Status, expiresAt: nat, heartbeat: nat)
  {
    predicate Live(now: nat) { status.Active? && expiresAt > now && heartbeat + STALE_AFTER >= now }
    predicate Is(x: StoreId, u: UserId, d: string) { store == x && owner == u && device == d }
    function Touch(now: nat): Lease { this.(heartbeat := now, expiresAt := now + LEASE_LIFETIME) }
  }

  type Leases = map<LeaseId, Lease>

  function NewLease(x: StoreId, u: UserId, d: string, now: nat): Lease {
    Lease(x, u, d, Active, now + LEASE_LIFETIME, now)
  }

  /** `active_store_leases` as an update: the store's active leases that are no longer live expire. */
  function Expire(leases: Leases, x: StoreId, now: nat): Leases {
    map l | l in leases ::
      if leases[l].store == x && leases[l].status.Active? && !leases[l].Live(now)
      then leases[l].(status := Expired) else leases[l]
  }

  /** The store's active leases that are no longer live. */
  function StaleAt(leases: Leases, x: StoreId, now: nat): set<LeaseId> {
    set l | l in leases && leases[l].store == x && leases[l].status.Active? && !leases[l].Live(now)
  }

  function ActiveOf(leases: Leases, x: StoreId): set<LeaseId> {
    set l | l in leases && leases[l].store == x && leases[l].status.Active?
  }

  ghost function LiveIn(leases: Leases, which: set<LeaseId>, now: nat): set<LeaseId> {
    set l | l in which && l in leases && leases[l].Live(now)
  }

  /** Of the leases in `which`, those no longer live expire. */
  ghost function ExpireIn(leases: Leases, which: set<LeaseId>, now: nat): Leases {
    map l | l in leases :: if l in which && !leases[l].Live(now) then leases[l].(status := Expired) else leases[l]
  }

  lemma ExpireNext(leases: Leases, which: set<LeaseId>, l: LeaseId, now: nat)
    requires l in leases && l !in which
    ensures var done := ExpireIn(leases, which, now);
            && done[l] == leases[l]
            && ExpireIn(leases, which + {l}, now)
               == (if leases[l].Live(now) then done else done[l := leases[l].(status := Expired)])
            && LiveIn(leases, which + {l}, now)
               == LiveIn(leases, which, now) + (if leases[l].Live(now) then {l} else {})
  {
  }

  lemma ExpireInAll(leases: Leases, x: StoreId, now: nat)
    ensures ExpireIn(leases, ActiveOf(leases, x), now) == Expire(leases, x, now)
    ensures LiveIn(leases, ActiveOf(leases, x), now) == LiveAt(leases, x, now) == LiveAt(Expire(leases, x, now), x, now)
  {
  }

  function LiveAt(leases: Leases, x: StoreId, now: nat): set<LeaseId> {
    set l | l in leases && leases[l].store == x && leases[l].Live(now)
  }

  function LiveOf(leases: Leases, x: StoreId, u: UserId, now: nat): set<LeaseId> {
    set l | l in LiveAt(leases, x, now) && leases[l].owner == u
  }

  function ExpireAll(leases: Leases, which: set<LeaseId>): Leases {
    map l | l in leases :: if l in which then leases[l].(status := Expired) else leases[l]
  }

  lemma ExpireIsExpireAll(leases: Leases, x: StoreId, now: nat)
    ensures Expire(leases, x, now) == ExpireAll(leases, StaleAt(leases, x, now))
  {
  }

  function DisconnectAll(leases: Leases, which: set<LeaseId>): Leases {
    map l | l in leases :: if l in which then leases[l].(status := Disconnected) else leases[l]
  }

  // ---- The table and the handlers that update it ----

  class LeaseTable {
    var leases: Leases

    constructor ()
      ensures leases == map[]
    {
      leases := map[];
    }

    method ActiveStoreLeases(x: StoreId, now: nat) returns (active: set<LeaseId>)
      modifies this
      ensures leases == Expire(old(leases), x, now)
      ensures active == LiveAt(old(leases), x, now) == LiveAt(leases, x, now)
    {
      ghost var before := leases;
      var rows := ActiveOf(leases, x);
      var todo := rows;
      active := {};
      while todo != {}
        invariant todo <= rows
        invariant leases == ExpireIn(before, rows - todo, now)
        invariant active == LiveIn(before, rows - todo, now)
        decreases |todo|
      {
        var l :| l in todo;
        ExpireNext(before, rows - todo, l, now);
        assert rows - (todo - {l}) == (rows - todo) + {l};
        todo := todo - {l};
        if leases[l].expiresAt <= now || leases[l].heartbeat + STALE_AFTER < now {
          leases := leases[l := leases[l].(status := Expired)];
        } else {
          active := active + {l};
        }
      }
      assert rows - todo == rows;
      ExpireInAll(before, x, now);
    }

    /** `connect_store` and `native_store_preflight`: renew the caller's live lease or open a new one. */
    method Connect(x: StoreId, u: UserId, d: string, newId: LeaseId, now: nat) returns (id: LeaseId, recovered: bool)
      requires newId !in leases
      modifies this
      ensures recovered <==> exists l :: l in LiveOf(old(leases), x, u, now) && old(leases)[l].device == d
      ensures recovered ==> id in LiveOf(old(leases), x, u, now) && old(leases)[id].device == d
                            && leases == Expire(old(leases), x, now)[id := old(leases)[id].Touch(now)]
      ensures !recovered ==> id == newId && leases == Expire(old(leases), x, now)[id := NewLease(x, u, d, now)]
    {
      var active := ActiveStoreLeases(x, now);
      if exists l :: l in active && leases[l].owner == u && leases[l].device == d {
        id :| id in active && leases[id].owner == u && leases[id].device == d;
        leases := leases[id := leases[id].(heartbeat := now, expiresAt := now + LEASE_LIFETIME)];
        recovered := true;
      } else {
        id := newId;
        leases := leases[id := Lease(x, u, d, Active, now + LEASE_LIFETIME, now)];
        recovered := false;
      }
    }

    method ForceDisconnect(x: StoreId, now: nat) returns (ended: set<LeaseId>)
      modifies this
      ensures ended == LiveAt(old(leases), x, now)
      ensures leases == if ended == {} then old(leases) else DisconnectAll(Expire(old(leases), x, now), ended)
    {
      ghost var before := leases;
      var saved := leases;
      ended := ActiveStoreLeases(x, now);
      if ended == {} {
        leases := saved;  // the request fails and its transaction is rolled back
        return;
      }
      var todo := ended;
      ghost var expired := leases;
      while todo != {}
        invariant todo <= ended
        invariant leases == DisconnectAll(expired, ended - todo)
        decreases |todo|
      {
        var l :| l in todo;
        todo := todo - {l};
        leases := leases[l := leases[l].(status := Disconnected)];
      }
      assert ended - todo == ended;
    }
  }
}
