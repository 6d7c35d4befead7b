/**
  The Edge health probe: several samples of one node, a quorum, and a latency that one odd sample
  cannot move. Durations are real numbers of seconds.
*/
module EdgeHealth {
  import opened Common

  datatype Payload = Payload(publicIpv4: string, memoryAvailable: nat, diskFree: nat, active: nat, max: nat)

  /** What one `_probe_sample` returns. */
  datatype Sample = Good(payload: Payload, duration: real) | Bad(error: string, fatal: bool)

  datatype Health = Online | Degraded | Quarantined | Offline

  datatype Report = Report(status: Health, latencyMs: nat, payload: Payload) | Failure(status: Health, error: string)

  // ---- Latency ----

  function Sum(s: seq<real>): real { if s == [] then 0.0 else s[0] + Sum(s[1..]) }

  ghost predicate Ordered(s: seq<real>) { forall i, j :: 0 <= i < j < |s| ==> s[i] <= s[j] }

  ghost predicate Within(s: seq<real>, lo: real, hi: real) { forall i :: 0 <= i < |s| ==> lo <= s[i] <= hi }

  function Insert(x: real, s: seq<real>): (r: seq<real>)
    ensures |r| == |s| + 1
  {
    if s == [] || x <= s[0] then [x] + s else [s[0]] + Insert(x, s[1..])
  }

  function Sorted(s: seq<real>): (r: seq<real>)
    ensures |r| == |s|
  {
    if s == [] then [] else Insert(s[0], Sorted(s[1..]))
  }

  /** The mean of the sorted durations without the first and the last. */
  function TrimmedMean(durations: seq<real>): real
    requires |durations| >= 3
  {
    var trimmed := Sorted(durations)[1..|durations| - 1];
    Sum(trimmed) / |trimmed| as real
  }

  /** Python's `round`: to the nearest integer, and to the even one half way between two. */
  function Round(x: real): int {
    var n := x.Floor;
    var rest := x - n as real;
    if rest < 0.5 || (rest == 0.5 && n % 2 == 0) then n else n + 1
  }

  function LatencyMs(durations: seq<real>): nat
    requires |durations| >= 3
  {
    var ms := Round(TrimmedMean(durations) * 1000.0);
    if ms < 0 then 0 else ms
  }

  // ---- Status ----

  const MIN_MEMORY := 128 * 1024 * 1024
  const MIN_DISK := 2 * 1024 * 1024 * 1024

  /** `_health_status`; an empty expected address counts as none. */
  function HealthStatus(p: Payload, expected: Option<string>): Health {
    if expected.Some? && expected.value != "" && p.publicIpv4 != expected.value then Quarantined
    else if p.memoryAvailable < MIN_MEMORY || p.diskFree < MIN_DISK || p.active * 5 >= p.max * 4 then Degraded
    else Online
  }

  /** What the last payload says: a wrong address, too little memory or disk, too many connections, or good. */
  lemma StatusIs(p: Payload, expected: Option<string>)
    ensures var wrong := expected.Some? && |expected.value| > 0 && expected.value != p.publicIpv4;
            var short := p.memoryAvailable < 134_217_728 || p.diskFree < 2_147_483_648 || 5 * p.active >= 4 * p.max;
            && (HealthStatus(p, expected) == Quarantined <==> wrong)
            && (HealthStatus(p, expected) == Degraded <==> !wrong && short)
            && (HealthStatus(p, expected) == Online <==> !wrong && !short)
  {
  }

  function Goods(samples: seq<Sample>): (r: seq<Sample>)
    ensures |r| <= |samples| && forall i :: 0 <= i < |r| ==> r[i].Good?
  {
    if samples == [] then [] else
      var n := |samples| - 1;
      Goods(samples[..n]) + if samples[n].Good? then [samples[n]] else []
  }

  function Errors(samples: seq<Sample>, onlyFatal: bool): seq<string> {
    if samples == [] then [] else
      var n := |samples| - 1;
      Errors(samples[..n], onlyFatal)
      + if samples[n].Bad? && (samples[n].fatal || !onlyFatal) then [samples[n].error] else []
  }

  function Durations(goods: seq<Sample>): (r: seq<real>)
    requires forall i :: 0 <= i < |goods| ==> goods[i].Good?
    ensures |r| == |goods| && forall i :: 0 <= i < |goods| ==> r[i] == goods[i].duration
  {
    if goods == [] then [] else [goods[0].duration] + Durations(goods[1..])
  }

  ghost predicate AnyFatal(samples: seq<Sample>) {
    exists i :: 0 <= i < |samples| && samples[i].Bad? && samples[i].fatal
  }

  /** All samples that succeeded saw the same public address. */
  ghost predicate Agree(samples: seq<Sample>) {
    forall i, j :: 0 <= i < |samples| && 0 <= j < |samples| && samples[i].Good? && samples[j].Good? ==>
      samples[i].payload.publicIpv4 == samples[j].payload.publicIpv4
  }

  ghost predicate LastGood(samples: seq<Sample>, k: int) {
    0 <= k < |samples| && samples[k].Good? && forall i :: k < i < |samples| ==> samples[i].Bad?
  }

  /** The node answered without a fatal error, often enough, and always from one address. */
  ghost predicate Trusted(samples: seq<Sample>, minSuccess: nat) {
    !AnyFatal(samples) && |Goods(samples)| >= minSuccess && Agree(samples)
  }

  /** Sorting samples out keeps their order: one after the other, a success, an error, or a fatal error. */
  lemma {:induction false} SortedOut(a: seq<Sample>, b: seq<Sample>, onlyFatal: bool)
    ensures Goods(a + b) == Goods(a) + Goods(b)
    ensures Errors(a + b, onlyFatal) == Errors(a, onlyFatal) + Errors(b, onlyFatal)
    decreases |b|
  {
    if b == [] {
      assert a + b == a;
    } else {
      var n := |b| - 1;
      assert (a + b)[..|a| + n] == a + b[..n] && (a + b)[|a| + n] == b[n];
      SortedOut(a, b[..n], onlyFatal);
    }
  }

  lemma OneSample(s: Sample)
    ensures Goods([s]) == match s case Good(_, _) => [s] case Bad(_, _) => []
    ensures Errors([s], false) == match s case Good(_, _) => [] case Bad(error, _) => [error]
    ensures Errors([s], true) == match s case Good(_, _) => [] case Bad(error, fatal) => if fatal then [error] else []
  {
    assert [s][..0] == [];
  }

  lemma {:induction false} GoodsAre(samples: seq<Sample>)
    ensures forall s :: s in Goods(samples) <==> s in samples && s.Good?
  {
    if samples == [] {
      assert Goods(samples) == [];
    } else {
      var n := |samples| - 1;
      GoodsAre(samples[..n]);
      assert samples == samples[..n] + [samples[n]];
    }
  }

  lemma {:induction false} LastOfGoods(samples: seq<Sample>) returns (k: nat)
    requires Goods(samples) != []
    ensures LastGood(samples, k) && samples[k] == Goods(samples)[|Goods(samples)| - 1]
  {
    var n := |samples| - 1;
    if samples[n].Good? {
      k := n;
    } else {
      k := LastOfGoods(samples[..n]);
    }
  }

  lemma TheLastGood(samples: seq<Sample>) returns (k: nat)
    requires Goods(samples) != []
    ensures LastGood(samples, k) && samples[k] == Goods(samples)[|Goods(samples)| - 1]
    ensures forall j :: LastGood(samples, j) ==> j == k
  {
    k := LastOfGoods(samples);
  }

  lemma {:induction false} FatalErrors(samples: seq<Sample>)
    ensures Errors(samples, true) != [] <==> AnyFatal(samples)
  {
    if samples == [] {
      assert Errors(samples, true) == [];
    } else {
      var n := |samples| - 1;
      FatalErrors(samples[..n]);
      if AnyFatal(samples[..n]) {
        var i :| 0 <= i < n && samples[..n][i].Bad? && samples[..n][i].fatal;
        assert samples[i].Bad? && samples[i].fatal;
      }
      if AnyFatal(samples) && !(samples[n].Bad? && samples[n].fatal) {
        var i :| 0 <= i < |samples| && samples[i].Bad? && samples[i].fatal;
        assert samples[..n][i] == samples[i];
      }
    }
  }

  function Addresses(goods: seq<Sample>): set<string> { set s | s in goods && s.Good? :: s.payload.publicIpv4 }

  lemma OneAddress(samples: seq<Sample>)
    requires Goods(samples) != []
    ensures |Addresses(Goods(samples))| == 1 <==> Agree(samples)
  {
    GoodsAre(samples);
    var all := Addresses(Goods(samples));
    var first := Goods(samples)[0].payload.publicIpv4;
    assert first in all;
    if |all| == 1 {
      assert |all - {first}| == 0;
      forall i, j | 0 <= i < |samples| && 0 <= j < |samples| && samples[i].Good? && samples[j].Good?
        ensures samples[i].payload.publicIpv4 == samples[j].payload.publicIpv4
      {
        assert samples[i] in Goods(samples) && samples[j] in Goods(samples);
        assert samples[i].payload.publicIpv4 in all && samples[j].payload.publicIpv4 in all;
      }
    }
    if Agree(samples) {
      forall a | a in all ensures a == first {
        var s :| s in Goods(samples) && s.Good? && s.payload.publicIpv4 == a;
        assert s in samples && Goods(samples)[0] in samples;
      }
      assert all == {first};
    }
  }

  // ---- The probe ----

  /** The bookkeeping loop of `_probe`. */
  method Collect(samples: seq<Sample>) returns (goods: seq<Sample>, errors: seq<string>, fatals: seq<string>)
    ensures goods == Goods(samples) && errors == Errors(samples, false) && fatals == Errors(samples, true)
  {
    goods, errors, fatals := [], [], [];
    for i := 0 to |samples|
      invariant goods == Goods(samples[..i])
      invariant errors == Errors(samples[..i], false) && fatals == Errors(samples[..i], true)
    {
      var sample := samples[i];
      if sample.Bad? {
        errors := errors + [sample.error];
        if sample.fatal {
          fatals := fatals + [sample.error];
        }
      } else {
        goods := goods + [sample];
      }
      assert samples[..i + 1][..i] == samples[..i];
    }
    assert samples[..|samples|] == samples;
  }

  /** The report is about the last payload that arrived, with the latency of all of them. */
  ghost predicate IsFinalReport(r: Report, samples: seq<Sample>, expected: Option<string>) {
    && r.Report? && |Goods(samples)| >= 3 && r.latencyMs == LatencyMs(Durations(Goods(samples)))
    && r.status == HealthStatus(r.payload, expected)
    && exists k :: LastGood(samples, k) && r.payload == samples[k].payload
  }

  method FinalReport(samples: seq<Sample>, goods: seq<Sample>, expected: Option<string>) returns (r: Report)
    requires goods == Goods(samples) && |goods| >= 3
    ensures IsFinalReport(r, samples, expected)
    ensures !r.status.Offline?
    ensures r.status.Online? <==>
            exists k :: LastGood(samples, k) && HealthStatus(samples[k].payload, expected).Online?
  {
    var payload := goods[|goods| - 1].payload;
    ghost var k := TheLastGood(samples);
    return Report(HealthStatus(payload, expected), LatencyMs(Durations(goods)), payload);
  }

  /**
    `_probe`, given what its samples returned. The constructor has checked the quorum. The
    clauses say exactly when each kind of answer is given, and what it contains.
  */
  method Probe(samples: seq<Sample>, minSuccess: nat, expected: Option<string>) returns (r: Report)
    requires 3 <= minSuccess <= |samples|
    ensures r.status.Online? <==>
            Trusted(samples, minSuccess)
            && exists k :: LastGood(samples, k) && HealthStatus(samples[k].payload, expected).Online?
    ensures r.status.Offline? <==> AnyFatal(samples) || |Goods(samples)| < minSuccess
    ensures r.Report? <==> Trusted(samples, minSuccess)
    ensures r.Report? ==> IsFinalReport(r, samples, expected)
    ensures AnyFatal(samples) ==> Errors(samples, true) != [] && r == Failure(Offline, Errors(samples, true)[0])
    ensures !AnyFatal(samples) && |Goods(samples)| < minSuccess ==>
              var errors := Errors(samples, false);
              r == Failure(Offline, if errors == [] then "health probe request failed" else errors[|errors| - 1])
    ensures !AnyFatal(samples) && |Goods(samples)| >= minSuccess && !Agree(samples) ==>
              r == Failure(Quarantined, "health probe public IPv4 inconsistent between samples")
  {
    var goods, errors, fatals := Collect(samples);
    FatalErrors(samples);
    if fatals != [] {
      return Failure(Offline, fatals[0]);
    }
    if |goods| < minSuccess {
      return Failure(Offline, if errors != [] then errors[|errors| - 1] else "health probe request failed");
    }
    OneAddress(samples);
    var addresses := Addresses(goods);
    if |addresses| != 1 {
      return Failure(Quarantined, "health probe public IPv4 inconsistent between samples");
    }
    r := FinalReport(samples, goods, expected);
  }

  // ---- The latency does not depend on the order of the samples ----

  lemma {:induction false} InsertAdds(x: real, s: seq<real>)
    ensures multiset(Insert(x, s)) == multiset{x} + multiset(s)
  {
    if s != [] && x > s[0] {
      assert s == [s[0]] + s[1..];
      InsertAdds(x, s[1..]);
    }
  }

  lemma {:induction false} SortedIsPermutation(s: seq<real>)
    ensures multiset(Sorted(s)) == multiset(s)
  {
    if s == [] {
      assert Sorted(s) == [];
    } else {
      assert s == [s[0]] + s[1..];
      SortedIsPermutation(s[1..]);
      InsertAdds(s[0], Sorted(s[1..]));
    }
  }

  /** Where `Insert` puts `x`. */
  lemma {:induction false} InsertAt(x: real, s: seq<real>) returns (p: nat)
    requires Ordered(s)
    ensures p <= |s| && Insert(x, s)[p] == x
    ensures forall i :: 0 <= i < p ==> Insert(x, s)[i] == s[i]
    ensures forall i :: p < i <= |s| ==> Insert(x, s)[i] == s[i - 1]
    ensures (p > 0 ==> s[p - 1] <= x) && (p < |s| ==> x <= s[p])
  {
    if s == [] || x <= s[0] {
      p := 0;
    } else {
      var k := InsertAt(x, s[1..]);
      p := k + 1;
    }
  }

  lemma InsertIsOrdered(x: real, s: seq<real>)
    requires Ordered(s)
    ensures Ordered(Insert(x, s))
  {
    var p := InsertAt(x, s);
  }

  lemma {:induction false} SortedIsOrdered(s: seq<real>)
    ensures Ordered(Sorted(s))
  {
    if s == [] {
      assert Sorted(s) == [];
    } else {
      SortedIsOrdered(s[1..]);
      InsertIsOrdered(s[0], Sorted(s[1..]));
    }
  }

  lemma SameLength(a: seq<real>, b: seq<real>)
    requires multiset(a) == multiset(b)
    ensures |a| == |b|
  {
    assert |multiset(a)| == |a| && |multiset(b)| == |b|;
  }

  lemma FirstIsLeast(a: seq<real>, b: seq<real>)
    requires Ordered(a) && a != [] && b != [] && multiset(a) == multiset(b)
    ensures a[0] <= b[0]
  {
    assert b[0] in multiset(a);
    var i :| 0 <= i < |a| && a[i] == b[0];
  }

  lemma TailElements(a: seq<real>)
    requires a != []
    ensures multiset(a[1..]) == multiset(a) - multiset{a[0]}
  {
    assert a == [a[0]] + a[1..];
  }

  /** Ordered sequences with the same elements are the same. */
  lemma {:induction false} OrderedIsUnique(a: seq<real>, b: seq<real>)
    requires Ordered(a) && Ordered(b) && multiset(a) == multiset(b)
    ensures a == b
  {
    SameLength(a, b);
    if a == [] {
      assert b == [];
    } else {
      FirstIsLeast(a, b);
      FirstIsLeast(b, a);
      TailElements(a);
      TailElements(b);
      OrderedIsUnique(a[1..], b[1..]);
      assert a == [a[0]] + a[1..] && b == [b[0]] + b[1..];
    }
  }

  lemma OrderDoesNotMatter(a: seq<real>, b: seq<real>)
    requires multiset(a) == multiset(b) && |a| >= 3
    ensures |b| == |a| && TrimmedMean(a) == TrimmedMean(b) && LatencyMs(a) == LatencyMs(b)
  {
    assert |multiset(a)| == |a| && |multiset(b)| == |b|;
    SortedIsOrdered(a);
    SortedIsOrdered(b);
    SortedIsPermutation(a);
    SortedIsPermutation(b);
    OrderedIsUnique(Sorted(a), Sorted(b));
  }

  lemma {:induction false} SumInserts(x: real, s: seq<real>)
    ensures Sum(Insert(x, s)) == x + Sum(s)
  {
    if s == [] || x <= s[0] {
      assert ([x] + s)[1..] == s;
    } else {
      SumInserts(x, s[1..]);
      assert ([s[0]] + Insert(x, s[1..]))[1..] == Insert(x, s[1..]);
    }
  }

  lemma {:induction false} SumSorts(s: seq<real>)
    ensures Sum(Sorted(s)) == Sum(s)
  {
    if s == [] {
      assert Sorted(s) == [];
    } else {
      SumSorts(s[1..]);
      SumInserts(s[0], Sorted(s[1..]));
    }
  }

  lemma {:induction false} SumAppends(s: seq<real>, x: real)
    ensures Sum(s + [x]) == Sum(s) + x
  {
    if s == [] {
      assert [x][1..] == [] && Sum([x]) == x && s + [x] == [x];
    } else {
      SumAppends(s[1..], x);
      assert (s + [x])[1..] == s[1..] + [x] && (s + [x])[0] == s[0];
    }
  }

  lemma SumOfEnds(s: seq<real>, middle: seq<real>)
    requires |s| >= 2 && middle == s[1..|s| - 1]
    ensures Sum(s) == s[0] + Sum(middle) + s[|s| - 1]
  {
    SumAppends(middle, s[|s| - 1]);
    assert s[1..] == middle + [s[|s| - 1]];
  }

  lemma EndsOfSorted(s: seq<real>, least: real, greatest: real)
    requires s != [] && least in s && greatest in s && Within(s, least, greatest)
    ensures Sorted(s)[0] == least && Sorted(s)[|s| - 1] == greatest
  {
    SortedIsOrdered(s);
    SortedIsPermutation(s);
    SortedWithin(s, least, greatest);
    EndsOfOrdered(Sorted(s), least, greatest);
  }

  lemma EndsOfOrdered(s: seq<real>, least: real, greatest: real)
    requires s != [] && Ordered(s) && Within(s, least, greatest)
    requires least in multiset(s) && greatest in multiset(s)
    ensures s[0] == least && s[|s| - 1] == greatest
  {
    var i :| 0 <= i < |s| && s[i] == least;
    var j :| 0 <= j < |s| && s[j] == greatest;
  }

  lemma TrimmedSum(s: seq<real>, middle: seq<real>, least: real, greatest: real)
    requires |s| >= 3 && least in s && greatest in s && Within(s, least, greatest) && middle == Sorted(s)[1..|s| - 1]
    ensures Sum(middle) == Sum(s) - least - greatest
  {
    EndsOfSorted(s, least, greatest);
    SumSorts(s);
    SumOfEnds(Sorted(s), middle);
  }

  lemma MeanOfMiddle(s: seq<real>, middle: seq<real>, total: real)
    requires |s| >= 3 && middle == Sorted(s)[1..|s| - 1] && Sum(middle) == total
    ensures TrimmedMean(s) == total / (|s| - 2) as real
  {
    assert |middle| == |s| - 2;
  }

  /** The trimmed mean is the mean of all samples but one least and one greatest. */
  lemma TrimmedMeanIs(s: seq<real>, least: real, greatest: real, rest: real)
    requires |s| >= 3 && least in s && greatest in s && Within(s, least, greatest)
    requires Sum(s) == least + greatest + rest
    ensures TrimmedMean(s) == rest / (|s| - 2) as real
  {
    var middle := Sorted(s)[1..|s| - 1];
    assert Sum(middle) == rest by { TrimmedSum(s, middle, least, greatest); }
    MeanOfMiddle(s, middle, rest);
  }

  // ---- nor, by more than the others allow, on any one of them ----

  lemma {:induction false} SumWithin(s: seq<real>, lo: real, hi: real)
    requires Within(s, lo, hi)
    ensures |s| as real * lo <= Sum(s) <= |s| as real * hi
  {
    if s == [] {
      assert Sum(s) == 0.0;
    } else {
      SumWithin(s[1..], lo, hi);
      assert |s| as real == 1.0 + |s[1..]| as real;
      assert (1.0 + |s[1..]| as real) * lo == lo + |s[1..]| as real * lo;
      assert (1.0 + |s[1..]| as real) * hi == hi + |s[1..]| as real * hi;
    }
  }

  lemma MeanWithin(total: real, n: real, lo: real, hi: real)
    requires n > 0.0 && n * lo <= total <= n * hi
    ensures lo <= total / n <= hi
  {
    var mean := total / n;
    assert mean * n == total;
    assert n * (mean - lo) >= 0.0 && n * (hi - mean) >= 0.0;
  }

  lemma SortedWithin(s: seq<real>, lo: real, hi: real)
    requires Within(s, lo, hi)
    ensures Within(Sorted(s), lo, hi)
  {
    SortedIsPermutation(s);
    forall i | 0 <= i < |Sorted(s)| ensures lo <= Sorted(s)[i] <= hi {
      assert Sorted(s)[i] in multiset(s);
    }
  }

  lemma InsertWithin(d: real, u: seq<real>, lo: real, hi: real, i: nat)
    requires Ordered(u) && Within(u, lo, hi) && 1 <= i < |u|
    ensures lo <= Insert(d, u)[i] <= hi
  {
    var p := InsertAt(d, u);
  }

  lemma TrimmedWithin(d: real, others: seq<real>, lo: real, hi: real)
    requires |others| >= 2 && Within(others, lo, hi)
    ensures Within(Sorted([d] + others)[1..|others|], lo, hi)
  {
    assert ([d] + others)[1..] == others;
    SortedIsOrdered(others);
    SortedWithin(others, lo, hi);
    forall i | 1 <= i < |others| ensures lo <= Sorted([d] + others)[i] <= hi {
      InsertWithin(d, Sorted(others), lo, hi, i);
    }
  }

  lemma MovedToFront(s: seq<real>, i: nat, d: real)
    requires i < |s|
    ensures multiset([d] + (s[..i] + s[i + 1..])) == multiset(s[i := d])
  {
    assert s[i := d] == s[..i] + [d] + s[i + 1..];
  }

  lemma TrimmedMeanWithin(d: real, others: seq<real>, lo: real, hi: real)
    requires |others| >= 2 && Within(others, lo, hi)
    ensures lo <= TrimmedMean([d] + others) <= hi
  {
    TrimmedWithin(d, others, lo, hi);
    var trimmed := Sorted([d] + others)[1..|others|];
    SumWithin(trimmed, lo, hi);
    MeanWithin(Sum(trimmed), |trimmed| as real, lo, hi);
  }

  /**
    Whatever duration any one sample is replaced by, the trimmed mean stays between the least and the
    greatest of the others.
  */
  lemma OneSampleCannotMoveIt(s: seq<real>, i: nat, d: real, lo: real, hi: real)
    requires |s| >= 3 && i < |s| && forall j :: 0 <= j < |s| && j != i ==> lo <= s[j] <= hi
    ensures lo <= TrimmedMean(s[i := d]) <= hi
  {
    var others := s[..i] + s[i + 1..];
    MovedToFront(s, i, d);
    OrderDoesNotMatter([d] + others, s[i := d]);
    TrimmedMeanWithin(d, others, lo, hi);
  }

  // ---- Rounding ----

  lemma RoundIsNearest(x: real)
    ensures -0.5 <= Round(x) as real - x <= 0.5
    ensures (Round(x) as real - x == 0.5 || Round(x) as real - x == -0.5) ==> Round(x) % 2 == 0
  {
  }

  /** The reported latency is the nearest whole number of milliseconds to the trimmed mean, and never negative. */
  lemma LatencyIs(s: seq<real>)
    requires |s| >= 3
    ensures TrimmedMean(s) >= 0.0 ==> -0.5 <= LatencyMs(s) as real - TrimmedMean(s) * 1000.0 <= 0.5
    ensures TrimmedMean(s) < 0.0 ==> LatencyMs(s) == 0
  {
    RoundIsNearest(TrimmedMean(s) * 1000.0);
  }

  lemma RoundIsMonotone(x: real, y: real)
    requires x <= y
    ensures Round(x) <= Round(y)
  {
    RoundIsNearest(x);
    RoundIsNearest(y);
    assert x.Floor <= y.Floor;
  }

  /** The reported latency, in whole milliseconds, is as robust as the mean. */
  lemma LatencyIsRobust(s: seq<real>, i: nat, d: real, lo: real, hi: real)
    requires |s| >= 3 && i < |s| && 0.0 <= lo && forall j :: 0 <= j < |s| && j != i ==> lo <= s[j] <= hi
    ensures Round(lo * 1000.0) <= LatencyMs(s[i := d]) <= Round(hi * 1000.0)
  {
    OneSampleCannotMoveIt(s, i, d, lo, hi);
    var mean := TrimmedMean(s[i := d]);
    RoundIsMonotone(lo * 1000.0, mean * 1000.0);
    RoundIsMonotone(mean * 1000.0, hi * 1000.0);
  }
}
