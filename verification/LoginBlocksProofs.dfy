/**
  When a key is blocked, and for how long, told by the history of its counted failures alone. Every fifth one in
  a window of ten minutes blocks an account or a device, every twentieth a source.
*/
module LoginBlocksProofs {
  import opened Common
  import opened LoginThrottle
  import opened LoginThrottleProofs

  /** Event `i` puts a row for `k` in the table that was not there before. */
  ghost predicate Creates(events: seq<Event>, k: Key, i: nat)
    requires i < |events|
  {
    k in Run(events[..i + 1]) && (k !in Run(events[..i]) || Removes(Run(events[..i]), events[i], k))
  }

  /** It is still that row after `j` events. */
  ghost predicate LivesOn(events: seq<Event>, k: Key, i: nat, j: nat)
    requires i < j <= |events|
  {
    Creates(events, k, i) && forall m :: i < m < j ==> Survives(events, k, m)
  }

  predicate Counted(events: seq<Event>, k: Key, m: nat)
    requires m < |events|
  {
    Counts(Run(events[..m]), events[m], k)
  }

  /** The start of the window after `j` events: a counted failure ten minutes after it, or later, opens the next one. */
  function WindowAfter(events: seq<Event>, k: Key, i: nat, j: nat): int
    requires i < j <= |events|
    decreases j
  {
    if j == i + 1 then events[i].at
    else
      var w := WindowAfter(events, k, i, j - 1);
      if Counted(events, k, j - 1) && events[j - 1].at >= w + 600 * 1_000_000 then events[j - 1].at else w
  }

  /** How many counted failures from event `i` to before `j` fell in the window that started at `w`. */
  function FailuresIn(events: seq<Event>, k: Key, i: nat, j: nat, w: int): nat
    requires i <= j <= |events|
    decreases j
  {
    if j == i then 0
    else
      FailuresIn(events, k, i, j - 1, w)
      + if Counted(events, k, j - 1) && WindowAfter(events, k, i, j) == w then 1 else 0
  }

  /** Event `m` is a failure of the key, counted because nothing blocked it, and afterwards something does. */
  predicate Blocked(events: seq<Event>, k: Key, m: nat)
    requires m < |events|
  {
    Counted(events, k, m) && k in Run(events[..m + 1]) && Run(events[..m + 1])[k].Blocks(events[m].at)
  }

  function BlocksIn(events: seq<Event>, k: Key, i: nat, j: nat): nat
    requires i <= j <= |events|
    decreases j
  {
    if j == i then 0 else BlocksIn(events, k, i, j - 1) + if Blocked(events, k, j - 1) then 1 else 0
  }

  /** The failures since the last block, when every fifth one blocks, or every twentieth. */
  function Since(failures: nat, isSource: bool): nat { if isSource then failures % 20 else failures % 5 }

  // ---- One failure ----

  /** The row says so: a window, `failures` counted in it and `blocks` in all. */
  predicate IsRow(row: Row, window: int, failures: nat, blocks: nat, isSource: bool) {
    && row.windowStart == window && row.failures == Since(failures, isSource)
    && row.penalty == if blocks < 3 then blocks else 3
  }

  /** What a counted failure at time `t` makes of a row. */
  predicate Fails(row: Row, row': Row, t: int, isSource: bool) {
    var opens := t - row.windowStart >= 600 * 1_000_000;
    var n := if opens then 1 else row.failures + 1;
    && row'.windowStart == (if opens then t else row.windowStart)
    && if n >= (if isSource then 20 else 5)
       then && row'.failures == 0 && row'.penalty == (if row.penalty < 3 then row.penalty + 1 else 3)
            && row'.blockedUntil
               == Some(t + (if row'.penalty == 1 then 300 else if row'.penalty == 2 then 900 else 1800) * 1_000_000)
       else row'.failures == n && row'.penalty == row.penalty && row'.blockedUntil == row.blockedUntil
  }

  function FreshRow(t: int): Row { Row(0, 0, t, None, t) }

  lemma CountedRow(rows: Table, e: Event, k: Key)
    requires Counts(rows, e, k)
    ensures k in Step(rows, e)
    ensures var row := if k in rows then rows[k] else FreshRow(e.at);
            !row.Blocks(e.at) && Fails(row, Step(rows, e)[k], e.at, k.Source?)
  {
    var ready := Ensure(rows, e.attempt.Keys(), e.at);
    assert k in ready && !ready[k].Blocks(e.at);
  }

  lemma UncountedRow(rows: Table, e: Event, k: Key)
    requires k in rows && !Removes(rows, e, k) && !Counts(rows, e, k)
    ensures k in Step(rows, e) && Step(rows, e)[k] == rows[k]
  {
  }

  lemma NewRow(rows: Table, e: Event, k: Key)
    requires k in Step(rows, e) && (k !in rows || Removes(rows, e, k)) && !Counts(rows, e, k)
    ensures Step(rows, e)[k] == FreshRow(e.at)
  {
  }

  /** How many failures the window holds after one more at time `t`. */
  function NowIn(window: int, failures: nat, t: int): nat {
    if t >= window + 600 * 1_000_000 then 1 else failures + 1
  }

  function Duration(blocks: nat): int {
    (if blocks == 0 then 300 else if blocks == 1 then 900 else 1800) * 1_000_000
  }

  lemma SinceNext(failures: nat, isSource: bool)
    ensures Since(1, isSource) == 1
    ensures var n := Since(failures, isSource) + 1;
            Since(failures + 1, isSource) == if n >= (if isSource then 20 else 5) then 0 else n
  {
    if isSource { TwentiethNext(failures); } else { FifthNext(failures); }
  }

  lemma FifthNext(n: nat)
    ensures (n + 1) % 5 == if n % 5 + 1 >= 5 then 0 else n % 5 + 1
  {
  }

  lemma TwentiethNext(n: nat)
    ensures (n + 1) % 20 == if n % 20 + 1 >= 20 then 0 else n % 20 + 1
  {
  }

  lemma RowNext(row: Row, row': Row, t: int, window: int, failures: nat, blocks: nat, isSource: bool)
    requires IsRow(row, window, failures, blocks, isSource) && Fails(row, row', t, isSource) && !row.Blocks(t)
    ensures var n := NowIn(window, failures, t);
            && IsRow(row', if t >= window + 600 * 1_000_000 then t else window, n,
                     if Since(n, isSource) == 0 then blocks + 1 else blocks, isSource)
            && (row'.Blocks(t) <==> Since(n, isSource) == 0)
            && row'.blockedUntil == if Since(n, isSource) == 0 then Some(t + Duration(blocks)) else row.blockedUntil
  {
    SinceNext(failures, isSource);
  }

  // ---- The row tells the history ----

  ghost predicate Tells(events: seq<Event>, k: Key, i: nat, j: nat)
    requires i < j <= |events|
  {
    && k in Run(events[..j])
    && var w := WindowAfter(events, k, i, j);
    IsRow(Run(events[..j])[k], w, FailuresIn(events, k, i, j, w), BlocksIn(events, k, i, j), k.Source?)
  }

  lemma WindowGrows(events: seq<Event>, k: Key, i: nat, j: nat)
    requires i < j < |events|
    ensures WindowAfter(events, k, i, j) <= WindowAfter(events, k, i, j + 1)
  {
  }

  lemma NoneAdded(events: seq<Event>, k: Key, i: nat, j: nat, w: int)
    requires i <= j < |events| && WindowAfter(events, k, i, j + 1) != w
    ensures FailuresIn(events, k, i, j + 1, w) == FailuresIn(events, k, i, j, w)
  {
  }

  lemma {:induction false} NoneYet(events: seq<Event>, k: Key, i: nat, j: nat, w: int)
    requires i < j <= |events| && WindowAfter(events, k, i, j) < w
    ensures FailuresIn(events, k, i, j, w) == 0
    decreases j
  {
    NoneAdded(events, k, i, j - 1, w);
    if j > i + 1 {
      WindowGrows(events, k, i, j - 1);
      NoneYet(events, k, i, j - 1, w);
    } else {
      assert FailuresIn(events, k, i, i, w) == 0;
    }
  }

  /** What a counted failure adds to the history. */
  lemma NextFailures(events: seq<Event>, k: Key, i: nat, j: nat)
    requires i < j < |events| && Counted(events, k, j)
    ensures var w, t := WindowAfter(events, k, i, j), events[j].at;
            && WindowAfter(events, k, i, j + 1) == (if t >= w + 600 * 1_000_000 then t else w)
            && FailuresIn(events, k, i, j + 1, WindowAfter(events, k, i, j + 1))
               == NowIn(w, FailuresIn(events, k, i, j, w), t)
  {
    var w, w' := WindowAfter(events, k, i, j), WindowAfter(events, k, i, j + 1);
    if w' != w { NoneYet(events, k, i, j, w'); }
  }

  lemma UncountedHistory(events: seq<Event>, k: Key, i: nat, j: nat)
    requires i < j < |events| && !Counted(events, k, j)
    ensures WindowAfter(events, k, i, j + 1) == WindowAfter(events, k, i, j)
    ensures BlocksIn(events, k, i, j + 1) == BlocksIn(events, k, i, j)
    ensures forall w :: FailuresIn(events, k, i, j + 1, w) == FailuresIn(events, k, i, j, w)
  {
  }

  /** The row after the event that creates it; a failure that creates it blocks nothing. */
  lemma CreatedRow(events: seq<Event>, k: Key, i: nat)
    requires i < |events| && Creates(events, k, i)
    ensures Tells(events, k, i, i + 1) && !Blocked(events, k, i)
    ensures Run(events[..i + 1])[k].blockedUntil.None?
    ensures Counted(events, k, i) ==> FailuresIn(events, k, i, i + 1, events[i].at) == 1
  {
    RunNext(events, i);
    FirstRow(Run(events[..i]), events[i], k);
    FirstHistory(events, k, i);
  }

  lemma FirstRow(rows: Table, e: Event, k: Key)
    requires k in Step(rows, e) && (k !in rows || Removes(rows, e, k))
    ensures Step(rows, e)[k] == FreshRow(e.at).(failures := if Counts(rows, e, k) then 1 else 0)
  {
    if Counts(rows, e, k) {
      assert k !in rows;
    } else {
      NewRow(rows, e, k);
    }
  }

  lemma FirstHistory(events: seq<Event>, k: Key, i: nat)
    requires i < |events|
    ensures WindowAfter(events, k, i, i + 1) == events[i].at
    ensures FailuresIn(events, k, i, i + 1, events[i].at) == if Counted(events, k, i) then 1 else 0
    ensures BlocksIn(events, k, i, i + 1) == if Blocked(events, k, i) then 1 else 0
  {
  }

  lemma CountedTells(events: seq<Event>, k: Key, i: nat, j: nat)
    requires i < j < |events| && Tells(events, k, i, j) && Counted(events, k, j)
    ensures Tells(events, k, i, j + 1)
    ensures var n := FailuresIn(events, k, i, j + 1, WindowAfter(events, k, i, j + 1));
            var row' := Run(events[..j + 1])[k];
            && (Blocked(events, k, j) <==> Since(n, k.Source?) == 0)
            && row'.blockedUntil == if Since(n, k.Source?) == 0
                                    then Some(events[j].at + Duration(BlocksIn(events, k, i, j)))
                                    else Run(events[..j])[k].blockedUntil
  {
    RunNext(events, j);
    var rows, e, w := Run(events[..j]), events[j], WindowAfter(events, k, i, j);
    CountedRow(rows, e, k);
    NextFailures(events, k, i, j);
    RowNext(rows[k], Step(rows, e)[k], e.at, w, FailuresIn(events, k, i, j, w), BlocksIn(events, k, i, j), k.Source?);
  }

  lemma UncountedTells(events: seq<Event>, k: Key, i: nat, j: nat)
    requires i < j < |events| && Tells(events, k, i, j) && Survives(events, k, j) && !Counted(events, k, j)
    ensures Tells(events, k, i, j + 1)
  {
    RunNext(events, j);
    UncountedRow(Run(events[..j]), events[j], k);
    UncountedHistory(events, k, i, j);
  }

  lemma {:induction false} StaysTold(events: seq<Event>, k: Key, i: nat, j: nat, last: nat)
    requires i < j <= last <= |events| && Tells(events, k, i, j)
    requires forall m :: j <= m < last ==> Survives(events, k, m)
    ensures Tells(events, k, i, last)
    decreases last - j
  {
    if j < last {
      assert Survives(events, k, j);
      TellsNext(events, k, i, j);
      StaysTold(events, k, i, j + 1, last);
    }
  }

  /** In every run the row of a key tells the history of its counted failures. */
  lemma RowTellsHistory(events: seq<Event>, k: Key, i: nat, j: nat)
    requires i < j <= |events| && LivesOn(events, k, i, j)
    ensures Tells(events, k, i, j)
  {
    CreatedRow(events, k, i);
    StaysTold(events, k, i, i + 1, j);
  }

  lemma TellsNext(events: seq<Event>, k: Key, i: nat, j: nat)
    requires i < j < |events| && Tells(events, k, i, j) && Survives(events, k, j)
    ensures Tells(events, k, i, j + 1)
  {
    if Counted(events, k, j) { CountedTells(events, k, i, j); } else { UncountedTells(events, k, i, j); }
  }

  /**
    A failure blocks its key exactly when the number of counted failures in its window, itself included, is a
    multiple of 5, or of 20 for a source. The first block of a row lasts 300 seconds, the second 900, and every
    later one 1800. A failure that does not block leaves the last block as it is.
  */
  lemma BlocksEscalate(events: seq<Event>, k: Key, i: nat, m: nat)
    requires i <= m < |events| && LivesOn(events, k, i, m + 1) && Counted(events, k, m)
    ensures k in Run(events[..m + 1]) && (m > i ==> k in Run(events[..m]))
    ensures var inWindow := FailuresIn(events, k, i, m + 1, WindowAfter(events, k, i, m + 1));
            Blocked(events, k, m) <==> if k.Source? then inWindow % 20 == 0 else inWindow % 5 == 0
    ensures var before, until := BlocksIn(events, k, i, m), Run(events[..m + 1])[k].blockedUntil;
            if Blocked(events, k, m)
            then
              until == Some(events[m].at + (if before == 0 then 300 else if before == 1 then 900 else 1800) * 1_000_000)
            else until == (if m == i then None else Run(events[..m])[k].blockedUntil)
  {
    if m == i {
      CreatedRow(events, k, i);
    } else {
      RowTellsHistory(events, k, i, m);
      CountedTells(events, k, i, m);
    }
  }

  /** Nothing but a counted failure, a success, and the purge changes a row. */
  lemma OnlyFailuresChange(events: seq<Event>, k: Key, m: nat)
    requires m < |events| && k in Run(events[..m]) && Survives(events, k, m) && !Counted(events, k, m)
    ensures k in Run(events[..m + 1]) && Run(events[..m + 1])[k] == Run(events[..m])[k]
  {
    RunNext(events, m);
    UncountedRow(Run(events[..m]), events[m], k);
  }

  /** A failed attempt is counted against its account and its device from that source, and against the source. */
  lemma CountedAgainst(rows: Table, u: string, d: string, s: string, t: int, k: Key)
    requires forall o :: o in {AccountSource(u, s), DeviceSource(d, s), Source(s)} && o in rows ==> !rows[o].Blocks(t)
    ensures Counts(rows, Fail(Attempt(u, d, s), t), k) <==> k in {AccountSource(u, s), DeviceSource(d, s), Source(s)}
  {
  }

  /** While one of the three is blocked no failure is counted. */
  lemma BlockedCountsNothing(rows: Table, u: string, d: string, s: string, t: int, o: Key, k: Key)
    requires o in {AccountSource(u, s), DeviceSource(d, s), Source(s)} && o in rows && rows[o].Blocks(t)
    ensures !Counts(rows, Fail(Attempt(u, d, s), t), k)
  {
    assert o in Attempt(u, d, s).Keys();
  }
}
