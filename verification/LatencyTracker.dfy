/** The Edge latency tracker: relay leases, the single probe owner and the smoothed round-trip time. */
module LatencyTracker {
  import opened Common

  const U64: nat := 0x1_0000_0000_0000_0000
  const MAX: nat := U64 - 1
  /** Below this, three times a value plus another fits into 64 bits. */
  const SAFE: nat := 0x4000_0000_0000_0000
  const STALE_AFTER: nat := 30 * 1_000_000

  function Saturate(n: nat): nat { if n > MAX then MAX else n }

  function Ewma(current: nat, sample: nat): nat { Saturate(Saturate(current * 3) + sample) / 4 }

  /** `wrapping_add(1).max(1)`. */
  function NextId(n: nat): nat { if (n + 1) % U64 == 0 then 1 else (n + 1) % U64 }

  function Millis(duration: nat): nat { if Saturate(duration) < 1 then 1 else Saturate(duration) }

  function Min(a: nat, b: nat): nat { if a < b then a else b }
  function Max(a: nat, b: nat): nat { if a < b then b else a }

  function AbsDiff(a: nat, b: nat): nat { if a < b then b - a else a - b }

  function NextEwma(ewma: Option<nat>, sample: nat): nat { if ewma.Some? then Ewma(ewma.value, sample) else sample }

  function NextJitter(jitter: Option<nat>, previous: Option<nat>, sample: nat): nat {
    Ewma(if jitter.Some? then jitter.value else 0, if previous.Some? then AbsDiff(previous.value, sample) else 0)
  }

  datatype State = State(
    latest: Option<nat>, ewma: Option<nat>, jitter: Option<nat>, samples: nat,
    active: nat, failures: nat, updatedAt: Option<nat>, owner: Option<nat>, nextRelay: nat, nextNonce: nat)
  {
    function Started(): State { this.(nextRelay := NextId(nextRelay), active := Saturate(active + 1)) }
    function Claimed(id: nat): State { if owner.None? then this.(owner := Some(id)) else this }
    function Dropped(id: nat): State {
      this.(active := if active == 0 then 0 else active - 1, owner := if owner == Some(id) then None else owner)
    }
    function Drawn(): State { this.(nextNonce := NextId(nextNonce)) }
    function Succeeded(duration: nat, at: nat): State {
      var sample := Millis(duration);
      this.(latest := Some(sample),
            ewma := Some(NextEwma(ewma, sample)),
            jitter := Some(NextJitter(jitter, latest, sample)),
            samples := Saturate(samples + 1), failures := 0, updatedAt := Some(at))
    }
    function Failed(): State { this.(failures := Saturate(failures + 1)) }
  }

  const NEW := State(None, None, None, 0, 0, 0, None, None, 0, 0)

  datatype Shown = Warming | Fresh | Degraded | Stale | Unavailable

  function Snapshot(s: State, now: nat): Shown {
    if s.active == 0 then Unavailable
    else if s.samples == 0 && s.failures == 0 then Warming
    else if s.updatedAt.Some? && now > s.updatedAt.value + STALE_AFTER then Stale
    else if s.failures > 0 then Degraded
    else Fresh
  }

  // ---- Runs ----

  /** The tracker together with the leases that have been handed out and not dropped. */
  datatype World = World(state: State, live: set<nat>)

  datatype Event = Start | Claim(id: nat) | Drop(id: nat) | Nonce | Success(duration: nat, at: nat) | Failure

  /** Only a lease that is still held can claim or be dropped. */
  function Step(w: World, e: Event): World {
    match e
    case Start => var s := w.state.Started(); World(s, w.live + {s.nextRelay})
    case Claim(id) => if id in w.live then w.(state := w.state.Claimed(id)) else w
    case Drop(id) => if id in w.live then World(w.state.Dropped(id), w.live - {id}) else w
    case Nonce => w.(state := w.state.Drawn())
    case Success(d, at) => w.(state := w.state.Succeeded(d, at))
    case Failure => w.(state := w.state.Failed())
  }

  function Run(events: seq<Event>): World {
    if events == [] then World(NEW, {}) else Step(Run(events[..|events| - 1]), events[|events| - 1])
  }

  function Starts(events: seq<Event>): nat {
    if events == [] then 0
    else Starts(events[..|events| - 1]) + if events[|events| - 1].Start? then 1 else 0
  }

  ghost predicate Inv(w: World, starts: nat) {
    && w.state.nextRelay == starts && (forall id :: id in w.live ==> 1 <= id <= starts)
    && w.state.active == |w.live| <= starts
    && (w.state.owner.Some? ==> w.state.owner.value in w.live)
  }

  lemma NextIdIs(n: nat)
    requires n + 1 < U64
    ensures NextId(n) == n + 1
  {
  }

  lemma StepKeepsInv(w: World, e: Event, starts: nat)
    requires Inv(w, starts) && starts + (if e.Start? then 1 else 0) < U64
    ensures Inv(Step(w, e), starts + if e.Start? then 1 else 0)
  {
    if e.Start? {
      NextIdIs(starts);
      assert starts + 1 !in w.live;
    }
  }

  lemma {:induction false} EveryRunKeepsInv(events: seq<Event>)
    requires Starts(events) < U64
    ensures Inv(Run(events), Starts(events))
  {
    if events == [] {
      assert Run(events) == World(NEW, {});
    } else {
      var n := |events| - 1;
      EveryRunKeepsInv(events[..n]);
      StepKeepsInv(Run(events[..n]), events[n], Starts(events[..n]));
    }
  }

  // ---- The tracker, updated under its mutex ----

  class Tracker {
    var latest: Option<nat>
    var ewma: Option<nat>
    var jitter: Option<nat>
    var samples: nat
    var active: nat
    var failures: nat
    var updatedAt: Option<nat>
    var owner: Option<nat>
    var nextRelay: nat
    var nextNonce: nat
    ghost var live: set<nat>  // the leases handed out and not dropped
    ghost var starts: nat     // how many there have been

    function View(): State
      reads this
    {
      State(latest, ewma, jitter, samples, active, failures, updatedAt, owner, nextRelay, nextNonce)
    }

    /** As long as identifiers have not wrapped around, the counter and the owner are about the live leases. */
    ghost predicate Valid()
      reads this
    {
      starts < U64 ==> Inv(World(View(), live), starts)
    }

    constructor ()
      ensures View() == NEW && live == {} && starts == 0 && Valid()
    {
      latest, ewma, jitter, samples, active, failures := None, None, None, 0, 0, 0;
      updatedAt, owner, nextRelay, nextNonce := None, None, 0, 0;
      live, starts := {}, 0;
    }

    /** A lease that no other live one shares its identifier with; the counter is the number of live leases. */
    method RelayStarted() returns (id: nat)
      requires Valid()
      modifies this
      ensures Valid() && View() == old(View()).Started() && starts == old(starts) + 1 && live == old(live) + {id}
      ensures id != 0 && (starts < U64 ==> id !in old(live) && active == |live|)
    {
      nextRelay := NextId(nextRelay);
      active := Saturate(active + 1);
      id := nextRelay;
      StartKeepsInv(old(World(View(), live)), starts);
      starts := starts + 1;
      live := live + {id};
    }

    /** Of the live leases at most one is told that it has won, and it goes on winning. */
    method TryClaimProbe(id: nat) returns (won: bool)
      requires Valid() && id in live
      modifies this`owner
      ensures Valid() && View() == old(View()).Claimed(id)
      ensures won <==> owner == Some(id)
      ensures won <==> old(owner).None? || old(owner) == Some(id)
    {
      if owner.None? {
        owner := Some(id);
      }
      won := owner == Some(id);
    }

    method NextNonce() returns (nonce: nat)
      requires Valid()
      modifies this`nextNonce
      ensures Valid() && View() == old(View()).Drawn() && nonce == nextNonce && nonce != 0
    {
      nextNonce := NextId(nextNonce);
      nonce := nextNonce;
    }

    /** The lease is live no more; the probe is free for the next claim exactly if it owned it or nobody did. */
    method Drop(id: nat)
      requires Valid() && id in live
      modifies this
      ensures Valid() && View() == old(View()).Dropped(id) && starts == old(starts) && live == old(live) - {id}
      ensures starts < U64 ==> active == |live|
      ensures owner.None? <==> old(owner).None? || old(owner) == Some(id)
    {
      if active > 0 {
        active := active - 1;
      }
      if owner == Some(id) {
        owner := None;
      }
      live := live - {id};
    }

    /**
      The average stays between itself and the sample, and the tracker shows itself fresh for the next
      thirty seconds, as long as there is a relay.
    */
    method RecordSuccess(duration: nat, at: nat)
      requires Valid()
      modifies this`latest, this`ewma, this`jitter, this`samples, this`failures, this`updatedAt
      ensures Valid() && View() == old(View()).Succeeded(duration, at)
      ensures IsBetween(old(ewma), Millis(duration), ewma)
      ensures forall now :: active > 0 && at <= now <= at + STALE_AFTER ==> Snapshot(View(), now).Fresh?
      ensures latest == Some(Max(1, Min(duration, MAX))) && updatedAt == Some(at)
      ensures failures == 0 && samples == Min(old(samples) + 1, MAX)
      ensures jitter.Some? && IsSmoothed(if old(jitter).Some? then old(jitter).value else 0,
                                         if old(latest).Some? then AbsDiff(old(latest).value, latest.value) else 0,
                                         jitter.value)
    {
      var sample := Millis(duration);
      var previous := latest;
      latest := Some(sample);
      ewma := Some(NextEwma(ewma, sample));
      jitter := Some(NextJitter(jitter, previous, sample));
      samples := Saturate(samples + 1);
      failures := 0;
      updatedAt := Some(at);
      SuccessMeans(old(View()), duration, at);
      EwmaIsSmoothed(if old(jitter).Some? then old(jitter).value else 0,
                     if previous.Some? then AbsDiff(previous.value, sample) else 0);
    }

    /** Until the next success the tracker shows neither fresh nor warming, and no measurement is touched. */
    method RecordFailure()
      requires Valid()
      modifies this`failures
      ensures Valid() && View() == old(View()).Failed()
      ensures forall now :: !Snapshot(View(), now).Fresh? && !Snapshot(View(), now).Warming?
      ensures failures == Min(old(failures) + 1, MAX)
    {
      failures := Saturate(failures + 1);
    }
  }

  /** The new average is the first sample, or lies between the old average and the sample. */
  predicate IsBetween(before: Option<nat>, sample: nat, after: Option<nat>) {
    && after.Some?
    && (before.None? ==> after.value == sample)
    && (before.Some? && before.value < SAFE && sample < SAFE ==>
          Min(before.value, sample) <= after.value <= Max(before.value, sample))
  }

  /** A quarter of the way from the old value to the sample, rounded down, where nothing saturates. */
  predicate IsSmoothed(before: nat, sample: nat, after: nat) {
    before < SAFE && sample < SAFE ==> 4 * after <= 3 * before + sample < 4 * after + 4
  }

  lemma EwmaIsSmoothed(before: nat, sample: nat)
    ensures IsSmoothed(before, sample, Ewma(before, sample))
  {
  }

  lemma SuccessMeans(s: State, duration: nat, at: nat)
    ensures IsBetween(s.ewma, Millis(duration), s.Succeeded(duration, at).ewma)
    ensures s.Succeeded(duration, at).samples > 0
  {
    var sample := Millis(duration);
    if s.ewma.Some? && s.ewma.value < SAFE && sample < SAFE {
      EwmaIsBetween(s.ewma.value, sample, Min(s.ewma.value, sample), Max(s.ewma.value, sample));
    }
  }

  lemma StartKeepsInv(w: World, starts: nat)
    requires starts < U64 ==> Inv(w, starts)
    ensures starts + 1 < U64 ==> Inv(Step(w, Start), starts + 1) && w.state.Started().nextRelay !in w.live
  {
    if starts + 1 < U64 {
      NextIdIs(starts);
      StepKeepsInv(w, Start, starts);
    }
  }

  /**
    With fewer than 2^64 starts the relay counter is the number of leases in use, the probe's owner is
    one of them, and the tracker shows itself unavailable exactly while there is none.
  */
  lemma CountsLiveLeases(events: seq<Event>, now: nat)
    requires Starts(events) < U64
    ensures var w := Run(events);
            && w.state.active == |w.live|
            && (w.state.owner.Some? ==> w.state.owner.value in w.live)
            && (Snapshot(w.state, now).Unavailable? <==> w.live == {})
  {
    EveryRunKeepsInv(events);
  }

  // ---- What the tracker shows, from its history ----

  /** When the last success was. */
  function LastSuccess(events: seq<Event>): Option<nat> {
    if events == [] then None
    else
      var e := events[|events| - 1];
      if e.Success? then Some(e.at) else LastSuccess(events[..|events| - 1])
  }

  /** A failure has been recorded since the last success, or at all if there was none. */
  predicate FailedSince(events: seq<Event>) {
    events != []
    && var e := events[|events| - 1];
       !e.Success? && (e.Failure? || FailedSince(events[..|events| - 1]))
  }

  lemma {:induction false} StateTellsHistory(events: seq<Event>)
    ensures var s := Run(events).state;
            && s.updatedAt == LastSuccess(events) && (s.samples > 0 <==> LastSuccess(events).Some?)
            && (s.failures > 0 <==> FailedSince(events))
  {
    if events == [] {
      assert Run(events) == World(NEW, {});
    } else {
      StateTellsHistory(events[..|events| - 1]);
    }
  }

  /**
    Without a relay the tracker shows unavailable; before any result, warming; more than 30 seconds after the last
    success, stale; after a failure since, degraded; and otherwise fresh.
  */
  lemma ShownIs(events: seq<Event>, now: nat)
    requires Starts(events) < U64
    ensures var last := LastSuccess(events);
            Snapshot(Run(events).state, now)
            == if Run(events).live == {} then Unavailable
               else if last.None? && !FailedSince(events) then Warming
               else if last.Some? && now > last.value + 30_000_000 then Stale
               else if FailedSince(events) then Degraded
               else Fresh
  {
    EveryRunKeepsInv(events);
    StateTellsHistory(events);
  }

  // ---- The smoothed round-trip time ----

  lemma EwmaIsBetween(current: nat, sample: nat, lo: nat, hi: nat)
    requires lo <= current <= hi && lo <= sample <= hi < SAFE
    ensures lo <= Ewma(current, sample) <= hi
  {
  }

  /** A constant round-trip time is kept exactly when the sum fits into 64 bits. */
  lemma ConstantIsKept(r: nat)
    ensures Ewma(r, r) == r <==> r < SAFE
    ensures r >= SAFE ==> Ewma(r, r) == SAFE - 1
  {
  }

  ghost predicate SamplesWithin(events: seq<Event>, lo: nat, hi: nat) {
    forall i :: 0 <= i < |events| && events[i].Success? ==> lo <= Millis(events[i].duration) <= hi
  }

  ghost predicate AnySample(events: seq<Event>) { exists i :: 0 <= i < |events| && events[i].Success? }

  ghost predicate SmoothInv(s: State, lo: nat, hi: nat) {
    && (s.latest.Some? <==> s.ewma.Some?) && (s.jitter.Some? <==> s.ewma.Some?)
    && (s.ewma.Some? ==> lo <= s.ewma.value <= hi && lo <= s.latest.value <= hi && s.jitter.value <= hi - lo)
  }

  lemma StepKeepsSmooth(w: World, e: Event, lo: nat, hi: nat)
    requires SmoothInv(w.state, lo, hi) && lo <= hi < SAFE && (e.Success? ==> lo <= Millis(e.duration) <= hi)
    ensures SmoothInv(Step(w, e).state, lo, hi)
    ensures Step(w, e).state.ewma.Some? <==> w.state.ewma.Some? || e.Success?
  {
    if e.Success? {
      var sample := Millis(e.duration);
      if w.state.ewma.Some? {
        EwmaIsBetween(w.state.ewma.value, sample, lo, hi);
        EwmaIsBetween(w.state.jitter.value, AbsDiff(w.state.latest.value, sample), 0, hi - lo);
      }
    }
  }

  /** Over any run the smoothed time stays within its samples, and the jitter within their spread. */
  lemma {:induction false} EwmaStaysWithin(events: seq<Event>, lo: nat, hi: nat)
    requires lo <= hi < SAFE && SamplesWithin(events, lo, hi)
    ensures SmoothInv(Run(events).state, lo, hi)
    ensures Run(events).state.ewma.Some? <==> AnySample(events)
  {
    if events == [] {
      assert Run(events) == World(NEW, {});
    } else {
      var n := |events| - 1;
      var front := events[..n];
      EwmaStaysWithin(front, lo, hi);
      StepKeepsSmooth(Run(front), events[n], lo, hi);
      AnySampleNext(events);
    }
  }

  lemma AnySampleNext(events: seq<Event>)
    requires events != []
    ensures AnySample(events) <==> AnySample(events[..|events| - 1]) || events[|events| - 1].Success?
  {
    var n := |events| - 1;
    if i :| 0 <= i < n && events[i].Success? {
      assert events[..n][i].Success?;
    }
    if AnySample(events[..n]) {
      var i :| 0 <= i < n && events[..n][i].Success?;
      assert events[i].Success?;
    }
  }

  // ---- A constant round-trip time ----

  function Smoothed(current: nat, r: nat, n: nat): nat {
    if n == 0 then current else Ewma(Smoothed(current, r, n - 1), r)
  }

  /** Where a constant round-trip time `r` takes the average: all the way down, or up to three below. */
  function Limit(current: nat, r: nat): nat {
    if current >= r then r else if current + 3 >= r then current else r - 3
  }

  lemma EwmaApproaches(current: nat, r: nat)
    requires current <= MAX && r < SAFE
    ensures var next := Ewma(current, r);
            && next <= MAX && Limit(next, r) == Limit(current, r)
            && (current == Limit(current, r) ==> next == current)
            && (current != Limit(current, r) ==> AbsDiff(next, r) < AbsDiff(current, r))
  {
  }

  /** The average stands still exactly from three milliseconds below the round-trip time up to it. */
  lemma StandsStill(current: nat, r: nat)
    requires current <= MAX && r < SAFE
    ensures Ewma(current, r) == current <==> r - 3 <= current <= r
  {
  }

  lemma {:induction false} Approaches(current: nat, r: nat, n: nat)
    requires current <= MAX && r < SAFE
    ensures var c := Smoothed(current, r, n);
            && c <= MAX && Limit(c, r) == Limit(current, r)
            && (c == Limit(current, r) || AbsDiff(c, r) + n <= AbsDiff(current, r))
  {
    if n > 0 {
      Approaches(current, r, n - 1);
      EwmaApproaches(Smoothed(current, r, n - 1), r);
    }
  }

  /**
    Under a constant round-trip time the average settles after at most as many samples as it was
    milliseconds away: exactly on it from above, and three below it (or closer, where it started
    closer) from below.
  */
  lemma Settles(current: nat, r: nat, n: nat)
    requires current <= MAX && r < SAFE && n >= AbsDiff(current, r)
    ensures Smoothed(current, r, n) == Limit(current, r)
    ensures current >= r ==> Smoothed(current, r, n) == r
    ensures current < r ==> r - 3 <= Smoothed(current, r, n) < r
  {
    Approaches(current, r, n);
  }

  function Repeated(s: State, duration: nat, at: nat, n: nat): State {
    if n == 0 then s else Repeated(s, duration, at, n - 1).Succeeded(duration, at)
  }

  lemma {:induction false} RepeatedSmooths(s: State, duration: nat, at: nat, n: nat)
    requires s.ewma.Some?
    ensures Repeated(s, duration, at, n).ewma == Some(Smoothed(s.ewma.value, Millis(duration), n))
  {
    if n > 0 {
      RepeatedSmooths(s, duration, at, n - 1);
    }
  }

  /** The same of the tracker: enough equal samples take its displayed average to the limit. */
  lemma ConstantRttSettles(s: State, duration: nat, at: nat, n: nat)
    requires s.ewma.Some? && s.ewma.value <= MAX && Millis(duration) < SAFE
    requires n >= AbsDiff(s.ewma.value, Millis(duration))
    ensures Repeated(s, duration, at, n).ewma == Some(Limit(s.ewma.value, Millis(duration)))
  {
    RepeatedSmooths(s, duration, at, n);
    Settles(s.ewma.value, Millis(duration), n);
  }
}
