/**
  The native login throttle: three keyed counters per attempt, a tumbling window, escalating blocks
  and a purge. Times are microseconds.
*/
module LoginThrottle {
  import opened Common

  const WINDOW: int := 600 * SECOND
  const PURGE_AGE: int := 86_400 * SECOND
  const SHORTEST_BLOCK: int := 300 * SECOND

  /** The HMAC of the tagged material stands for the material itself: the tags keep the kinds apart. */
  datatype Key =
    | AccountSource(username: string, source: string)
    | DeviceSource(device: string, source: string)
    | Source(source: string)
  {
    function Threshold(): nat { if Source? then 20 else 5 }
  }

  datatype Row = Row(failures: nat, penalty: nat, windowStart: int, blockedUntil: Option<int>, updatedAt: int) {
    predicate Blocks(t: int) { blockedUntil.Some? && blockedUntil.value > t }
  }

  type Table = map<Key, Row>

  /** A login request as far as the throttle sees it. */
  datatype Attempt = Attempt(username: string, device: string, source: string) {
    function Keys(): seq<Key> { [AccountSource(username, source), DeviceSource(device, source), Source(source)] }
  }

  // ---- What each transaction does to the table ----

  function Fresh(t: int): Row { Row(0, 0, t, None, t) }

  /** `INSERT ... ON CONFLICT DO NOTHING` for the keys of an attempt. */
  function Ensure(rows: Table, keys: seq<Key>, t: int): Table {
    (map k | k in keys :: Fresh(t)) + rows
  }

  function Purge(rows: Table, now: int): Table {
    map k | k in rows && rows[k].updatedAt > now - PURGE_AGE :: rows[k]
  }

  predicate AnyBlocked(rows: Table, keys: seq<Key>, t: int) {
    exists k :: k in keys && k in rows && rows[k].Blocks(t)
  }

  function Wait(penalty: nat): int {
    if penalty <= 1 then 300 * SECOND else if penalty == 2 then 900 * SECOND else 1800 * SECOND
  }

  /** The count that a failure at `t` reaches, before a full counter is emptied again. */
  function CountReached(row: Row, t: int): nat {
    if t - row.windowStart >= WINDOW then 1 else row.failures + 1
  }

  function WindowReached(row: Row, t: int): int {
    if t - row.windowStart >= WINDOW then t else row.windowStart
  }

  /** The row after one counted failure. */
  function Bump(row: Row, threshold: nat, t: int): Row {
    var n := CountReached(row, t);
    var w := WindowReached(row, t);
    if n >= threshold then
      var p := if row.penalty + 1 <= 3 then row.penalty + 1 else 3;
      Row(0, p, w, Some(t + Wait(p)), t)
    else Row(n, row.penalty, w, row.blockedUntil, t)
  }

  /** The row that a failure at `t` leaves for `k`, created if need be. */
  function EnsureThenBump(rows: Table, k: Key, t: int): Row {
    Bump(if k in rows then rows[k] else Fresh(t), k.Threshold(), t)
  }

  function BumpAll(rows: Table, keys: seq<Key>, t: int): Table {
    map k | k in rows :: if k in keys then Bump(rows[k], k.Threshold(), t) else rows[k]
  }

  lemma ClearedKeys(a: Attempt)
    ensures forall k :: k in a.Keys()[..2] <==> k == a.Keys()[0] || k == a.Keys()[1]
    ensures forall k :: k in a.Keys() <==> k in a.Keys()[..2] || k == Source(a.source)
  {
    assert a.Keys()[..2] == [a.Keys()[0], a.Keys()[1]];
  }

  lemma EnsureNext(rows: Table, keys: seq<Key>, i: nat, t: int)
    requires i < |keys|
    ensures var done := Ensure(rows, keys[..i], t);
            Ensure(rows, keys[..i + 1], t) == if keys[i] in done then done else done[keys[i] := Fresh(t)]
  {
    assert keys[..i + 1] == keys[..i] + [keys[i]];
    assert forall k :: k in keys[..i + 1] <==> k in keys[..i] || k == keys[i];
  }

  lemma BumpAllNext(rows: Table, keys: seq<Key>, i: nat, t: int)
    requires i < |keys| && keys[i] in rows && keys[i] !in keys[..i]
    ensures var done := BumpAll(rows, keys[..i], t);
            && done[keys[i]] == rows[keys[i]]
            && BumpAll(rows, keys[..i + 1], t) == done[keys[i] := Bump(rows[keys[i]], keys[i].Threshold(), t)]
  {
    assert keys[..i + 1] == keys[..i] + [keys[i]];
  }

  datatype Event =
    | Begin(attempt: Attempt, at: int)    // the transaction that opens every login request
    | Fail(attempt: Attempt, at: int)     // the transaction of a wrong password
    | Succeed(attempt: Attempt, at: int)  // the transaction of a right one

  function Step(rows: Table, e: Event): Table {
    match e
    case Begin(a, t) => Ensure(Purge(rows, t), a.Keys(), t)
    case Fail(a, t) =>
      var locked := Ensure(rows, a.Keys(), t);
      if AnyBlocked(locked, a.Keys(), t) then locked else BumpAll(locked, a.Keys(), t)
    case Succeed(a, t) => rows - {a.Keys()[0], a.Keys()[1]}
  }

  /** The failure is counted against `k`, rather than refused because some key is blocked. */
  predicate Counts(rows: Table, e: Event, k: Key) {
    e.Fail? && k in e.attempt.Keys()
    && !AnyBlocked(Ensure(rows, e.attempt.Keys(), e.at), e.attempt.Keys(), e.at)
  }

  predicate Clears(e: Event, k: Key) { e.Succeed? && k in e.attempt.Keys()[..2] }

  function Run(events: seq<Event>): Table {
    if events == [] then map[] else Step(Run(events[..|events| - 1]), events[|events| - 1])
  }

  // ---- The handlers, on the table they update ----

  class Throttles {
    var rows: Table

    constructor ()
      ensures rows == map[]
    {
      rows := map[];
    }

    method LockThrottles(keys: seq<Key>, t: int)
      modifies this
      ensures rows == Ensure(old(rows), keys, t)
      ensures rows.Keys == old(rows).Keys + (set k | k in keys)
      ensures forall k :: k in rows ==> rows[k] == if k in old(rows) then old(rows)[k] else Row(0, 0, t, None, t)
    {
      for i := 0 to |keys|
        invariant rows == Ensure(old(rows), keys[..i], t)
      {
        EnsureNext(old(rows), keys, i, t);
        if keys[i] !in rows {
          rows := rows[keys[i] := Fresh(t)];
        }
      }
      assert keys[..|keys|] == keys;
    }

    /**
      `active_retry_after`: zero exactly when no key is blocked; otherwise the least whole number of
      seconds after which none of the present blocks holds any more.
    */
    method ActiveRetryAfter(keys: seq<Key>, t: int) returns (retryAfter: nat)
      requires forall k :: k in keys ==> k in rows
      ensures retryAfter > 0 <==> AnyBlocked(rows, keys, t)
      ensures !AnyBlocked(rows, keys, t + retryAfter * SECOND)
      ensures retryAfter > 0 ==> AnyBlocked(rows, keys, t + (retryAfter - 1) * SECOND)
    {
      retryAfter := 0;
      for i := 0 to |keys|
        invariant forall j :: 0 <= j < i ==> !rows[keys[j]].Blocks(t + retryAfter * SECOND)
        invariant retryAfter == 0 ==> forall j :: 0 <= j < i ==> !rows[keys[j]].Blocks(t)
        invariant retryAfter > 0 ==> exists j :: 0 <= j < i && rows[keys[j]].Blocks(t + (retryAfter - 1) * SECOND)
      {
        var row := rows[keys[i]];
        if row.Blocks(t) {
          var wait := (row.blockedUntil.value - t + SECOND - 1) / SECOND;
          if wait > retryAfter {
            retryAfter := wait;
            assert rows[keys[i]].Blocks(t + (retryAfter - 1) * SECOND);
          }
        }
      }
      if retryAfter > 0 {
        var j :| 0 <= j < |keys| && rows[keys[j]].Blocks(t + (retryAfter - 1) * SECOND);
        assert keys[j] in keys && rows[keys[j]].Blocks(t);
      }
    }

    method BeginLogin(a: Attempt, now: int) returns (retryAfter: nat)
      modifies this
      ensures rows == Step(old(rows), Begin(a, now))
      ensures retryAfter > 0 <==> AnyBlocked(rows, a.Keys(), now)
      ensures !AnyBlocked(rows, a.Keys(), now + retryAfter * SECOND)
      ensures retryAfter > 0 ==> AnyBlocked(rows, a.Keys(), now + (retryAfter - 1) * SECOND)
      ensures forall k :: k in old(rows) && old(rows)[k].updatedAt > now - 24 * 3600 * 1_000_000 ==>
                k in rows && rows[k] == old(rows)[k]
      ensures forall k :: k in rows && (k !in old(rows) || old(rows)[k].updatedAt <= now - 24 * 3600 * 1_000_000) ==>
                k in a.Keys() && rows[k] == Row(0, 0, now, None, now)
    {
      rows := Purge(rows, now);
      LockThrottles(a.Keys(), now);
      retryAfter := ActiveRetryAfter(a.Keys(), now);
    }

    /** The loop body of the failure path: one throttle row, and the block it triggered (0 for none). */
    method CountFailure(k: Key, t: int) returns (wait: nat)
      requires k in rows && !rows[k].Blocks(t)
      modifies this
      ensures rows == old(rows)[k := Bump(old(rows)[k], k.Threshold(), t)]
      ensures wait > 0 <==> rows[k].Blocks(t)
      ensures wait > 0 ==> rows[k].blockedUntil == Some(t + wait * SECOND)
      ensures var row, opens := old(rows)[k], t - old(rows)[k].windowStart >= 600 * 1_000_000;
              var n := if opens then 1 else row.failures + 1;
              && rows[k].windowStart == (if opens then t else row.windowStart) && rows[k].updatedAt == t
              && if n >= (if k.Source? then 20 else 5)
                 then && rows[k].failures == 0 && rows[k].penalty == (if row.penalty >= 3 then 3 else row.penalty + 1)
                      && wait == [300, 900, 1800][rows[k].penalty - 1]
                 else wait == 0 && rows[k].failures == n && rows[k].penalty == row.penalty
    {
      var row := rows[k];
      var n, w := row.failures, row.windowStart;
      wait := 0;
      if t - w >= WINDOW {
        n, w := 0, t;
      }
      n := n + 1;
      if n >= k.Threshold() {
        var p := if row.penalty + 1 < 3 then row.penalty + 1 else 3;
        wait := if p == 1 then 300 else if p == 2 then 900 else 1800;
        rows := rows[k := Row(0, p, w, Some(t + wait * SECOND), t)];
      } else {
        rows := rows[k := Row(n, row.penalty, w, row.blockedUntil, t)];
      }
    }

    method CountFailures(keys: seq<Key>, t: int) returns (retryAfter: nat)
      requires forall i, j :: 0 <= i < j < |keys| ==> keys[i] != keys[j]
      requires forall i :: 0 <= i < |keys| ==> keys[i] in rows && !rows[keys[i]].Blocks(t)
      modifies this
      ensures rows == BumpAll(old(rows), keys, t)
      ensures retryAfter > 0 <==> AnyBlocked(rows, keys, t)
      ensures !AnyBlocked(rows, keys, t + retryAfter * SECOND)
      ensures retryAfter > 0 ==> AnyBlocked(rows, keys, t + (retryAfter - 1) * SECOND)
    {
      retryAfter := 0;
      for i := 0 to |keys|
        invariant rows == BumpAll(old(rows), keys[..i], t)
        invariant retryAfter > 0 ==> exists j :: 0 <= j < i && rows[keys[j]].Blocks(t + (retryAfter - 1) * SECOND)
        invariant forall j :: 0 <= j < i ==> !rows[keys[j]].Blocks(t + retryAfter * SECOND)
      {
        BumpAllNext(old(rows), keys, i, t);
        ghost var before := rows;
        var wait := CountFailure(keys[i], t);
        assert forall j :: 0 <= j < i ==> rows[keys[j]] == before[keys[j]];
        assert wait > 0 ==> rows[keys[i]].Blocks(t + (wait - 1) * SECOND);
        retryAfter := if retryAfter > wait then retryAfter else wait;
      }
      if retryAfter > 0 {
        var j :| 0 <= j < |keys| && rows[keys[j]].Blocks(t + (retryAfter - 1) * SECOND);
        assert keys[j] in keys && rows[keys[j]].Blocks(t);
      }
      assert keys[..|keys|] == keys;
    }

    method FailLogin(a: Attempt, t: int) returns (retryAfter: nat)
      modifies this
      ensures rows == Step(old(rows), Fail(a, t))
      ensures retryAfter > 0 <==> AnyBlocked(rows, a.Keys(), t)
      ensures !AnyBlocked(rows, a.Keys(), t + retryAfter * SECOND)
      ensures retryAfter > 0 ==> AnyBlocked(rows, a.Keys(), t + (retryAfter - 1) * SECOND)
    {
      LockThrottles(a.Keys(), t);
      retryAfter := ActiveRetryAfter(a.Keys(), t);
      if retryAfter == 0 {
        retryAfter := CountFailures(a.Keys(), t);
      }
    }

    /**
      The account and the device start afresh: neither blocks any more, and their next failure is their
      first again. The source keeps its count and its block, as does every other key.
    */
    method SucceedLogin(a: Attempt, t: int)
      modifies this
      ensures rows == Step(old(rows), Succeed(a, t))
      ensures forall at :: !AnyBlocked(rows, a.Keys()[..2], at)
      ensures forall k, at :: k in a.Keys()[..2] ==> EnsureThenBump(rows, k, at).failures == 1
      ensures forall at :: AnyBlocked(rows, a.Keys(), at) <==> AnyBlocked(old(rows), [Source(a.source)], at)
      ensures forall k :: k in old(rows) && k !in a.Keys()[..2] ==> k in rows && rows[k] == old(rows)[k]
    {
      rows := rows - {a.Keys()[0], a.Keys()[1]};
      ClearedKeys(a);
      assert a.Keys()[2] in a.Keys() && Source(a.source) in [Source(a.source)];
    }
  }
}
