/** What the throttle guarantees over whole runs of login requests. */
module LoginThrottleProofs {
  import opened Common
  import opened LoginThrottle

  ghost predicate Ordered(events: seq<Event>) {
    forall i, j :: 0 <= i < j < |events| ==> events[i].at <= events[j].at
  }

  /** One counted failure of a key: its time, the count it reached and the window it fell in. */
  datatype Entry = Entry(time: int, count: nat, windowStart: int)

  function EntryOf(rows: Table, e: Event, k: Key): Entry
    requires e.Fail?
  {
    var row := if k in rows then rows[k] else Fresh(e.at);
    Entry(e.at, CountReached(row, e.at), WindowReached(row, e.at))
  }

  /** All counted failures of a key, oldest first. */
  function Log(events: seq<Event>, k: Key): seq<Entry> {
    if events == [] then [] else
      var n := |events| - 1;
      var rows := Run(events[..n]);
      Log(events[..n], k) + if Counts(rows, events[n], k) then [EntryOf(rows, events[n], k)] else []
  }

  // ---- How consecutive counted failures are related ----

  ghost predicate Adjacent(threshold: nat, e: Entry, e': Entry) {
    && e.time <= e'.time
    && (e.count == threshold ==> e'.time >= e.time + SHORTEST_BLOCK)
    && (|| (e'.windowStart == e.windowStart && e'.count == (if e.count == threshold then 1 else e.count + 1))
        || (e'.windowStart == e'.time && e'.count == 1 && e'.time >= e.windowStart + WINDOW)
        || e'.time >= e.time + PURGE_AGE)
  }

  ghost predicate WellLogged(threshold: nat, log: seq<Entry>) {
    && (forall i :: 0 <= i < |log| ==> 1 <= log[i].count <= threshold && log[i].windowStart <= log[i].time)
    && (forall i :: 0 < i < |log| ==> Adjacent(threshold, log[i - 1], log[i]))
  }

  /** How the row of a key continues the log of its counted failures. */
  ghost predicate RowContinues(rows: Table, k: Key, log: seq<Entry>, now: int) {
    if log == [] then k in rows ==> rows[k].failures == 0 && rows[k].blockedUntil.None? && rows[k].windowStart <= now
    else
      var last := log[|log| - 1];
      && last.time <= now
      && (k !in rows ==> now >= last.time + PURGE_AGE)
      && (k in rows ==>
            || Renewed(rows[k], last, now)
            || Continued(rows[k], k.Threshold(), last))
  }

  ghost predicate Renewed(row: Row, last: Entry, now: int) {
    row.failures == 0 && row.blockedUntil.None? && last.time + PURGE_AGE <= row.windowStart <= now
  }

  ghost predicate Continued(row: Row, threshold: nat, last: Entry) {
    && row.windowStart == last.windowStart && row.updatedAt == last.time
    && row.failures == (if last.count == threshold then 0 else last.count)
    && (last.count == threshold ==> row.blockedUntil.Some? && row.blockedUntil.value >= last.time + SHORTEST_BLOCK)
  }

  lemma CountedContinues(rows: Table, e: Event, k: Key, log: seq<Entry>, now: int)
    requires WellLogged(k.Threshold(), log) && RowContinues(rows, k, log, now) && now <= e.at && Counts(rows, e, k)
    ensures var log' := log + [EntryOf(rows, e, k)];
            WellLogged(k.Threshold(), log') && RowContinues(Step(rows, e), k, log', e.at)
  {
    var log' := log + [EntryOf(rows, e, k)];
    assert !AnyBlocked(Ensure(rows, e.attempt.Keys(), e.at), e.attempt.Keys(), e.at);
    assert forall i :: 0 <= i < |log| ==> log'[i] == log[i];
  }

  lemma UncountedContinues(rows: Table, e: Event, k: Key, log: seq<Entry>, now: int)
    requires RowContinues(rows, k, log, now) && now <= e.at && !Counts(rows, e, k) && !Clears(e, k)
    ensures RowContinues(Step(rows, e), k, log, e.at)
  {
  }

  lemma StepContinues(rows: Table, e: Event, k: Key, log: seq<Entry>, now: int)
    requires WellLogged(k.Threshold(), log) && RowContinues(rows, k, log, now) && now <= e.at && !Clears(e, k)
    ensures var log' := log + if Counts(rows, e, k) then [EntryOf(rows, e, k)] else [];
            WellLogged(k.Threshold(), log') && RowContinues(Step(rows, e), k, log', e.at)
  {
    if Counts(rows, e, k) {
      CountedContinues(rows, e, k, log, now);
    } else {
      UncountedContinues(rows, e, k, log, now);
      assert log + [] == log;
    }
  }

  lemma LaterIsFine(rows: Table, k: Key, log: seq<Entry>, now: int, later: int)
    requires RowContinues(rows, k, log, now) && now <= later
    ensures RowContinues(rows, k, log, later)
  {
  }

  lemma {:induction false} RunContinues(events: seq<Event>, k: Key, now: int)
    requires Ordered(events) && forall i :: 0 <= i < |events| ==> events[i].at <= now && !Clears(events[i], k)
    ensures WellLogged(k.Threshold(), Log(events, k))
    ensures RowContinues(Run(events), k, Log(events, k), now)
  {
    if events == [] {
      assert Log(events, k) == [] && Run(events) == map[];
    } else {
      var n := |events| - 1;
      RunContinues(events[..n], k, events[n].at);
      StepContinues(Run(events[..n]), events[n], k, Log(events[..n], k), events[n].at);
      LaterIsFine(Run(events), k, Log(events, k), events[n].at, now);
    }
  }

  // ---- From a tumbling window to a sliding bound ----

  lemma {:induction false} TimesAscend(threshold: nat, log: seq<Entry>, i: nat, j: nat)
    requires WellLogged(threshold, log) && i <= j < |log|
    ensures log[i].time <= log[j].time
  {
    if i < j {
      TimesAscend(threshold, log, i, j - 1);
      assert Adjacent(threshold, log[j - 1], log[j]);
    }
  }

  /**
    Inside less than one shortest block after entry `i`, the counter only grows, or it has tumbled
    once, at some entry `r`, before it was full.
  */
  ghost predicate GrownOrTumbled(threshold: nat, log: seq<Entry>, i: nat, m: nat, r: nat)
    requires i <= m < |log|
  {
    || (r == i && log[m].windowStart == log[i].windowStart && log[m].count >= m - i + 1)
    || (i < r <= m && r - i < threshold && log[m].windowStart == log[r].time && log[m].count == m - r + 1)
  }

  lemma {:induction false} Growth(threshold: nat, log: seq<Entry>, i: nat, m: nat) returns (r: nat)
    requires WellLogged(threshold, log) && i <= m < |log| && log[m].time < log[i].time + SHORTEST_BLOCK
    ensures GrownOrTumbled(threshold, log, i, m, r)
  {
    if m == i {
      r := i;
    } else {
      assert Adjacent(threshold, log[m - 1], log[m]);
      r := Growth(threshold, log, i, m - 1);
      TimesAscend(threshold, log, i, m - 1);
      TimesAscend(threshold, log, i, r);
      if log[m].windowStart != log[m - 1].windowStart || log[m].count != log[m - 1].count + 1 {
        r := m;
      }
    }
  }

  /** Any 2T consecutive counted failures of a key with threshold T take at least 300 seconds. */
  lemma Span(threshold: nat, log: seq<Entry>, i: nat)
    requires threshold >= 1 && WellLogged(threshold, log) && i + 2 * threshold - 1 < |log|
    ensures log[i + 2 * threshold - 1].time >= log[i].time + SHORTEST_BLOCK
  {
    var end := i + 2 * threshold - 1;
    if log[end].time < log[i].time + SHORTEST_BLOCK {
      var r := Growth(threshold, log, i, end);
    }
  }

  /** How many entries fall in the half-open interval of 300 seconds that starts at `a`. */
  function CountIn(log: seq<Entry>, a: int): nat {
    if log == [] then 0 else
      var n := |log| - 1;
      CountIn(log[..n], a) + if a <= log[n].time < a + 300 * 1_000_000 then 1 else 0
  }

  /** The counted entries are consecutive. */
  lemma {:induction false} CountedBlock(threshold: nat, log: seq<Entry>, a: int) returns (first: nat, last: nat)
    requires WellLogged(threshold, log) && CountIn(log, a) > 0
    ensures first <= last < |log| && last - first + 1 == CountIn(log, a)
    ensures a <= log[first].time && log[last].time < a + SHORTEST_BLOCK
    ensures forall m :: last < m < |log| ==> log[m].time >= a + SHORTEST_BLOCK
  {
    var n := |log| - 1;
    if CountIn(log[..n], a) == 0 {
      first, last := n, n;
    } else {
      assert forall m :: 0 <= m < n ==> log[..n][m] == log[m];
      first, last := CountedBlock(threshold, log[..n], a);
      TimesAscend(threshold, log, n - 1, n);
      TimesAscend(threshold, log, last, n);
      TimesAscend(threshold, log, first, last);
      if a <= log[n].time < a + SHORTEST_BLOCK {
        last := n;
      }
    }
  }

  /**
    For each throttle key with threshold T, with non-decreasing transaction times and no successful
    login clearing the key, any half-open 300-second interval holds at most 2T - 1 counted failures.
  */
  lemma SlidingBound(events: seq<Event>, k: Key, a: int)
    requires Ordered(events) && forall i :: 0 <= i < |events| ==> !Clears(events[i], k)
    ensures CountIn(Log(events, k), a) <= 2 * k.Threshold() - 1
  {
    var log := Log(events, k);
    var now := if events == [] then 0 else events[|events| - 1].at;
    RunContinues(events, k, now);
    if CountIn(log, a) >= 2 * k.Threshold() {
      var first, last := CountedBlock(k.Threshold(), log, a);
      Span(k.Threshold(), log, first);
      TimesAscend(k.Threshold(), log, first + 2 * k.Threshold() - 1, last);
    }
  }

  // ---- The bound is reached, for every key ----

  /** The row of `k` after `n` counted failures in a window that opened at `w`. */
  ghost predicate Quiet(rows: Table, k: Key, n: nat, w: int) {
    k in rows && rows[k].failures == n && rows[k].penalty == 0 && rows[k].windowStart == w && rows[k].blockedUntil.None?
  }

  /** Counted failures of the key in the 300 seconds from second 599 on. */
  function Tally(events: seq<Event>, k: Key): nat { CountIn(Log(events, k), 599 * SECOND) }

  ghost predicate OrderedUpTo(events: seq<Event>, t: int) {
    Ordered(events) && forall i :: 0 <= i < |events| ==> events[i].at <= t
  }

  function Name(i: nat): (r: string)
    ensures |r| == i
  {
    if i == 0 then "" else Name(i - 1) + "x"
  }

  /** The attempts that fill `k`: its own account or device, and ever new ones besides. */
  function AttemptAt(k: Key, i: nat): Attempt {
    match k
    case AccountSource(u, s) => Attempt(u, Name(i), s)
    case DeviceSource(d, s) => Attempt(Name(i), d, s)
    case Source(s) => Attempt(Name(i), Name(i), s)
  }

  /** Before attempt `i`: `k` holds `n` failures, and nothing else stands in the way of this or a later attempt. */
  ghost predicate IsReady(rows: Table, k: Key, i: nat, n: nat, w: int) {
    && Quiet(rows, k, n, w)
    && (forall j, o :: i <= j && o in AttemptAt(k, j).Keys() && !o.Source? && o != k ==> o !in rows)
    && (Source(k.source) in rows && rows[Source(k.source)].blockedUntil.None?)
    && (k.Source? || rows[Source(k.source)].failures <= i)
  }

  lemma ReadyCounts(rows: Table, k: Key, i: nat, n: nat, w: int, t: int, o: Key)
    requires IsReady(rows, k, i, n, w) && o in AttemptAt(k, i).Keys()
    ensures Counts(rows, Fail(AttemptAt(k, i), t), o) && o in Step(rows, Fail(AttemptAt(k, i), t))
    ensures Step(rows, Fail(AttemptAt(k, i), t))[o] == Bump(if o in rows then rows[o] else Fresh(t), o.Threshold(), t)
  {
    var a := AttemptAt(k, i);
    assert k in a.Keys() && Source(k.source) in a.Keys();
    assert forall p :: p in a.Keys() && p in rows ==> rows[p].blockedUntil.None?;
  }

  lemma StaysReady(rows: Table, k: Key, i: nat, n: nat, w: int, t: int)
    requires IsReady(rows, k, i, n, w) && n < k.Threshold() && (k.Source? || i + 1 < 20)
    requires t - w >= WINDOW || n + 1 < k.Threshold()
    ensures var fills := t - w >= WINDOW;
            IsReady(Step(rows, Fail(AttemptAt(k, i), t)), k, i + 1, if fills then 1 else n + 1, if fills then t else w)
  {
    var rows' := Step(rows, Fail(AttemptAt(k, i), t));
    ReadyCounts(rows, k, i, n, w, t, k);
    ReadyCounts(rows, k, i, n, w, t, Source(k.source));
    forall j, o | i + 1 <= j && o in AttemptAt(k, j).Keys() && !o.Source? && o != k ensures o !in rows' {
      assert |Name(i)| != |Name(j)|;
    }
  }

  lemma CountsOne(events: seq<Event>, k: Key, i: nat, n: nat, w: int, t: int) returns (events': seq<Event>)
    requires IsReady(Run(events), k, i, n, w) && OrderedUpTo(events, t) && 599 * SECOND <= t < 899 * SECOND
    ensures Run(events') == Step(Run(events), Fail(AttemptAt(k, i), t))
    ensures OrderedUpTo(events', t) && Tally(events', k) == Tally(events, k) + 1
  {
    events' := events + [Fail(AttemptAt(k, i), t)];
    assert events'[..|events|] == events;
    assert k in AttemptAt(k, i).Keys();
    ReadyCounts(Run(events), k, i, n, w, t, k);
    var log := Log(events', k);
    assert log[..|log| - 1] == Log(events, k);
  }

  /** `n` more failures in one window, which they do not fill. */
  lemma {:induction false} CountsMore(events: seq<Event>, k: Key, i: nat, m: nat, n: nat, w: int, t: int)
    returns (events': seq<Event>)
    requires IsReady(Run(events), k, i, m, w) && m + n < k.Threshold() && t - w < WINDOW && (k.Source? || i + n < 20)
    requires OrderedUpTo(events, t) && 599 * SECOND <= t < 899 * SECOND
    ensures IsReady(Run(events'), k, i + n, m + n, w)
    ensures OrderedUpTo(events', t) && Tally(events', k) == Tally(events, k) + n
  {
    if n == 0 {
      events' := events;
    } else {
      var before := CountsMore(events, k, i, m, n - 1, w, t);
      events' := CountsOne(before, k, i + n - 1, m + n - 1, w, t);
      StaysReady(Run(before), k, i + n - 1, m + n - 1, w, t);
    }
  }

  lemma StartsReady(k: Key) returns (events: seq<Event>)
    ensures IsReady(Run(events), k, 1, 0, 0) && OrderedUpTo(events, 0) && Tally(events, k) == 0
  {
    var a := AttemptAt(k, 0);
    events := [Begin(a, 0)];
    assert events[..0] == [];
    assert Log(events, k) == [];
    assert k in a.Keys() && Source(k.source) in a.Keys();
    forall j, o | 1 <= j && o in AttemptAt(k, j).Keys() && !o.Source? && o != k ensures o !in Run(events) {
      assert |Name(0)| != |Name(j)|;
    }
  }

  /**
    The bound cannot be lowered for any key: T - 1 failures at the end of one window and T at the start
    of the next, 2T - 1 within two seconds.
  */
  lemma SlidingBoundIsReached(k: Key) returns (events: seq<Event>)
    ensures Ordered(events) && CountIn(Log(events, k), 599 * SECOND) == 2 * k.Threshold() - 1
  {
    var n := k.Threshold();
    var first, second := 599 * SECOND, 600 * SECOND;
    events := StartsReady(k);
    events := CountsMore(events, k, 1, 0, n - 1, 0, first);
    var tumbled := CountsOne(events, k, n, n - 1, 0, second);
    StaysReady(Run(events), k, n, n - 1, 0, second);
    events := CountsMore(tumbled, k, n + 1, 1, n - 2, second, second);
    events := CountsOne(events, k, 2 * n - 1, n - 1, second, second);
    assert Tally(events, k) == 2 * n - 1;
  }

  // ---- What every row satisfies ----

  ghost predicate RowInv(row: Row, threshold: nat) {
    && row.failures < threshold && row.penalty <= 3
    && (row.blockedUntil.None? <==> row.penalty == 0)
    && (row.blockedUntil.Some? ==> row.blockedUntil.value <= row.updatedAt + Wait(row.penalty))
  }

  lemma {:induction false} RunKeepsRowInv(events: seq<Event>, k: Key)
    requires k in Run(events)
    ensures RowInv(Run(events)[k], k.Threshold())
  {
    var n := |events| - 1;
    var rows := Run(events[..n]);
    if k in rows { RunKeepsRowInv(events[..n], k); }
  }

  /** In every run counts stay below the limit, and no block ends more than half an hour after the last update. */
  lemma EveryRowInv(events: seq<Event>, k: Key)
    requires k in Run(events)
    ensures var row := Run(events)[k];
            && row.failures < (if k.Source? then 20 else 5) && 0 <= row.penalty <= 3
            && (row.blockedUntil.None? <==> row.penalty == 0)
            && (row.blockedUntil.Some? ==> row.blockedUntil.value <= row.updatedAt + 1800 * 1_000_000)
  {
    RunKeepsRowInv(events, k);
  }

  /** The 24-hour purge never lifts an active block. */
  lemma PurgeKeepsBlocks(events: seq<Event>, k: Key, now: int)
    requires k in Run(events) && Run(events)[k].Blocks(now)
    ensures k in Purge(Run(events), now)
  {
    RunKeepsRowInv(events, k);
  }

  /** The event removes the row of `k`, even if it puts a fresh one in its place. */
  ghost predicate Removes(rows: Table, e: Event, k: Key) {
    Clears(e, k) || (e.Begin? && k !in Purge(rows, e.at))
  }

  lemma StepKeepsPenalty(rows: Table, e: Event, k: Key)
    requires k in rows && !Removes(rows, e, k) && RowInv(rows[k], k.Threshold())
    ensures k in Step(rows, e)
    ensures var row, row' := rows[k], Step(rows, e)[k];
            && row.penalty <= row'.penalty
            && (row'.blockedUntil != row.blockedUntil ==>
                  row'.blockedUntil == Some(e.at + Wait(row'.penalty)) && !row.Blocks(e.at))
  {
  }

  ghost predicate NoShorter(row: Row, row': Row) {
    && Wait(row.penalty) <= Wait(row'.penalty) && row.penalty <= row'.penalty
    && (row.blockedUntil.Some? ==> row'.blockedUntil.Some? && row.blockedUntil.value <= row'.blockedUntil.value)
  }

  lemma RunNext(events: seq<Event>, j: nat)
    requires j < |events|
    ensures Run(events[..j + 1]) == Step(Run(events[..j]), events[j])
  {
    assert events[..j + 1][..j] == events[..j];
  }

  lemma StepNoShorter(rows: Table, e: Event, k: Key, rows': Table)
    requires k in rows && !Removes(rows, e, k) && RowInv(rows[k], k.Threshold()) && rows' == Step(rows, e)
    ensures k in rows' && NoShorter(rows[k], rows'[k])
  {
    StepKeepsPenalty(rows, e, k);
  }

  /** How a step treats the block of a row that is there afterwards. */
  lemma BlockStep(rows: Table, e: Event, k: Key, rows': Table)
    requires rows' == Step(rows, e) && k in rows' && rows'[k].blockedUntil.Some?
    requires k in rows ==> RowInv(rows[k], k.Threshold())
    ensures || (k in rows && rows[k].blockedUntil == rows'[k].blockedUntil && rows[k].penalty == rows'[k].penalty)
            || (Counts(rows, e, k) && rows'[k].blockedUntil == Some(e.at + Wait(rows'[k].penalty)))
  {
  }

  /** Event `m` is a counted failure of the key, and set the block of the row. */
  ghost predicate IsSetBy(events: seq<Event>, k: Key, row: Row, m: nat) {
    && m < |events| && Counts(Run(events[..m]), events[m], k)
    && row.blockedUntil == Some(events[m].at + Wait(row.penalty))
  }

  lemma SetEarlier(events: seq<Event>, n: nat, k: Key, row: Row, m: nat)
    requires n <= |events| && IsSetBy(events[..n], k, row, m)
    ensures IsSetBy(events, k, row, m)
  {
    assert events[..n][..m] == events[..m] && events[..n][m] == events[m];
  }

  lemma SameBlock(events: seq<Event>, k: Key, row: Row, row': Row, m: nat)
    requires IsSetBy(events, k, row, m) && row.blockedUntil == row'.blockedUntil && row.penalty == row'.penalty
    ensures IsSetBy(events, k, row', m)
  {
  }

  /** Every block in the table was set by a counted failure of its key, and ends `Wait(penalty)` after it. */
  lemma {:induction false} BlockLastsItsWait(events: seq<Event>, k: Key, row: Row) returns (m: nat)
    requires k in Run(events) && Run(events)[k] == row && row.blockedUntil.Some?
    ensures IsSetBy(events, k, row, m)
  {
    assert events != [];
    var n := |events| - 1;
    var rows := Run(events[..n]);
    LastBlock(events, k);
    if k in rows && rows[k].blockedUntil == row.blockedUntil && rows[k].penalty == row.penalty {
      m := BlockLastsItsWait(events[..n], k, rows[k]);
      SetEarlier(events, n, k, rows[k], m);
      SameBlock(events, k, rows[k], row, m);
    } else {
      m := n;
    }
  }

  /** The block of a row is the one it had before the last event, or that event set it. */
  lemma LastBlock(events: seq<Event>, k: Key)
    requires events != [] && k in Run(events) && Run(events)[k].blockedUntil.Some?
    ensures var n, row := |events| - 1, Run(events)[k];
            var rows := Run(events[..n]);
            || (k in rows && rows[k].blockedUntil == row.blockedUntil && rows[k].penalty == row.penalty)
            || IsSetBy(events, k, row, n)
  {
    var n := |events| - 1;
    var rows := Run(events[..n]);
    if k in rows { RunKeepsRowInv(events[..n], k); }
    BlockStep(rows, events[n], k, Run(events));
  }

  /** Event `m` leaves the row of `k` in the table. */
  ghost predicate Survives(events: seq<Event>, k: Key, m: nat)
    requires m < |events|
  {
    !Removes(Run(events[..m]), events[m], k)
  }

  /** Until the row is removed, a later block of the key lasts at least as long as an earlier one and ends no sooner. */
  lemma {:induction false} RowsNeverShorten(events: seq<Event>, k: Key, i: nat, j: nat)
    requires i <= j <= |events| && k in Run(events[..i]) && forall m :: i <= m < j ==> Survives(events, k, m)
    ensures k in Run(events[..j])
    ensures NoShorter(Run(events[..i])[k], Run(events[..j])[k])
    decreases j - i
  {
    if i == j {
      assert events[..i] == events[..j];
    } else {
      assert Survives(events, k, i);
      RunNext(events, i);
      RunKeepsRowInv(events[..i], k);
      StepNoShorter(Run(events[..i]), events[i], k, Run(events[..i + 1]));
      RowsNeverShorten(events, k, i + 1, j);
      NoShorterJoins(Run(events[..i])[k], Run(events[..i + 1])[k], Run(events[..j])[k]);
    }
  }

  lemma NoShorterJoins(a: Row, b: Row, c: Row)
    requires NoShorter(a, b) && NoShorter(b, c)
    ensures NoShorter(a, c)
  {
  }

  /**
    Successive blocks never shorten until the row is removed: the block in force after `i` events was set
    by failure `m` of the key, the one after `j` events by failure `n` of the key, and the second lasts at
    least as long as the first and ends no sooner.
  */
  lemma BlocksNeverShorten(events: seq<Event>, k: Key, i: nat, j: nat) returns (m: nat, n: nat)
    requires i <= j <= |events| && k in Run(events[..i]) && Run(events[..i])[k].blockedUntil.Some?
    requires forall l :: i <= l < j ==> Survives(events, k, l)
    ensures m < i && n < j && k in Run(events[..j])
    ensures Counts(Run(events[..m]), events[m], k) && Counts(Run(events[..n]), events[n], k)
    ensures var first, second := Run(events[..i])[k].blockedUntil, Run(events[..j])[k].blockedUntil;
            && second.Some? && first.value <= second.value
            && 300 * 1_000_000 <= first.value - events[m].at <= second.value - events[n].at <= 1800 * 1_000_000
  {
    RowsNeverShorten(events, k, i, j);
    m := BlockLastsItsWait(events[..i], k, Run(events[..i])[k]);
    n := BlockLastsItsWait(events[..j], k, Run(events[..j])[k]);
    SetEarlier(events, i, k, Run(events[..i])[k], m);
    SetEarlier(events, j, k, Run(events[..j])[k], n);
  }
}
