/** Choosing a backend: a shared 64-bit counter, taken modulo the list, skipping unhealthy entries. */
module RoundRobin {
  import opened Wrappers

  datatype Backend = Backend(addr: string, conn: nat, healthy: bool, requestCount: nat)

  /** `size_t` counters wrap here. */
  const SIZE_RANGE: nat := 0x1_0000_0000_0000_0000

  predicate NoneHealthy(bs: seq<Backend>) { forall i :: 0 <= i < |bs| ==> !bs[i].healthy }

  predicate AllHealthy(bs: seq<Backend>) { forall i :: 0 <= i < |bs| ==> bs[i].healthy }

  /** At most `tries` further turns of the loop: the chosen index and the counter it leaves. */
  function Seek(bs: seq<Backend>, rr: nat, tries: nat): (r: (Option<nat>, nat))
    requires bs != []
    ensures r.0.Some? ==> r.0.value < |bs|
    decreases tries
  {
    if tries == 0 then (None, rr)
    else if bs[rr % |bs|].healthy then (Some(rr % |bs|), (rr + 1) % SIZE_RANGE)
    else Seek(bs, (rr + 1) % SIZE_RANGE, tries - 1)
  }

  function Pick(bs: seq<Backend>, rr: nat): (r: (Option<nat>, nat))
    ensures r.0.Some? ==> r.0.value < |bs|
  {
    if bs == [] then (None, rr) else Seek(bs, rr, |bs|)
  }

  function Charge(bs: seq<Backend>, i: nat): seq<Backend>
    requires i < |bs|
  {
    bs[i := bs[i].(requestCount := bs[i].requestCount + 1)]
  }

  /** The entry looked at `j` turns after the counter read `rr`. */
  function Visit(rr: nat, j: nat, n: nat): nat
    requires n > 0
  {
    ((rr + j) % SIZE_RANGE) % n
  }

  lemma ModOf(x: int, q: int, r: int, n: int)
    requires n > 0 && x == q * n + r && 0 <= r < n
    ensures x % n == r && x / n == q
  {
    var d := x / n - q;
    assert d * n == r - x % n;
    assert d >= 1 ==> d * n >= n;
    assert d <= -1 ==> d * n <= -n;
  }

  lemma AddMod(a: int, b: int, n: int)
    requires n > 0
    ensures (a + b) % n == (a % n + b) % n
  {
    var s := a % n + b;
    assert a + b == (a / n + s / n) * n + s % n by {
      assert a == (a / n) * n + a % n && s == (s / n) * n + s % n;
      assert (a / n + s / n) * n == (a / n) * n + (s / n) * n;
    }
    ModOf(a + b, a / n + s / n, s % n, n);
  }

  /** The next turn of the loop visits what a later turn of this one does. */
  lemma VisitNext(rr: nat, j: nat, n: nat)
    requires n > 0
    ensures Visit((rr + 1) % SIZE_RANGE, j, n) == Visit(rr, j + 1, n)
  {
    AddMod(rr + 1, j, SIZE_RANGE);
  }

  lemma CounterNext(rr: nat, j: nat)
    ensures ((rr + 1) % SIZE_RANGE + j) % SIZE_RANGE == (rr + 1 + j) % SIZE_RANGE
  {
    AddMod(rr + 1, j, SIZE_RANGE);
  }

  /** The choice is the first healthy entry among those visited; none, if none of them is healthy. The
      counter has moved on by the entries visited. */
  lemma {:induction false} SeekFirst(bs: seq<Backend>, rr: nat, tries: nat)
    requires bs != [] && rr < SIZE_RANGE
    ensures match Seek(bs, rr, tries).0
            case None =>
              && (forall j :: 0 <= j < tries ==> !bs[Visit(rr, j, |bs|)].healthy)
              && Seek(bs, rr, tries).1 == (rr + tries) % 0x1_0000_0000_0000_0000
            case Some(i) =>
              exists j :: 0 <= j < tries && i == Visit(rr, j, |bs|) && bs[i].healthy
                          && (forall l :: 0 <= l < j ==> !bs[Visit(rr, l, |bs|)].healthy)
                          && Seek(bs, rr, tries).1 == (rr + j + 1) % 0x1_0000_0000_0000_0000
    decreases tries
  {
    if tries == 0 {
      ModOf(rr, 0, rr, SIZE_RANGE);
    } else {
      var n, next := |bs|, (rr + 1) % SIZE_RANGE;
      assert Visit(rr, 0, n) == rr % n;
      if !bs[rr % n].healthy {
        SeekFirst(bs, next, tries - 1);
        forall j: nat ensures Visit(next, j, n) == Visit(rr, j + 1, n) { VisitNext(rr, j, n); }
        hide Visit;
        match Seek(bs, next, tries - 1).0
        case None =>
          CounterNext(rr, tries - 1);
          forall j | 0 <= j < tries ensures !bs[Visit(rr, j, n)].healthy {
            if j > 0 { assert Visit(next, j - 1, n) == Visit(rr, j, n); }
          }
        case Some(i) =>
          var j :| 0 <= j < tries - 1 && i == Visit(next, j, n) && bs[i].healthy
                   && (forall l :: 0 <= l < j ==> !bs[Visit(next, l, n)].healthy)
                   && Seek(bs, next, tries - 1).1 == (next + j + 1) % SIZE_RANGE;
          CounterNext(rr, j + 1);
          assert i == Visit(rr, j + 1, n);
          forall l | 0 <= l < j + 1 ensures !bs[Visit(rr, l, n)].healthy {
            if l > 0 { assert Visit(next, l - 1, n) == Visit(rr, l, n); }
          }
      }
    }
  }

  /** Where the wrap leaves no jump, entries follow the number of picks made, however often it wrapped. */
  lemma WrapFollows(v: nat, n: nat)
    requires n > 0 && (v < SIZE_RANGE || SIZE_RANGE % n == 0)
    ensures (v % SIZE_RANGE) % n == v % n
    ensures (v % SIZE_RANGE + 1) % SIZE_RANGE == (v + 1) % SIZE_RANGE
  {
    AddMod(v, 1, SIZE_RANGE);
    if v >= SIZE_RANGE {
      var q, x, m := v / SIZE_RANGE, v % SIZE_RANGE, SIZE_RANGE / n;
      assert v == (q * m) * n + x by {
        assert SIZE_RANGE == m * n;
        assert q * (m * n) == (q * m) * n;
      }
      assert ((q * m) * n) % n == 0 by { ModOf((q * m) * n, q * m, 0, n); }
      AddMod((q * m) * n, x, n);
    }
  }

  /** The scan covers the whole list if the counter does not wrap in it, or wraps without a jump. */
  lemma VisitsAll(rr: nat, n: nat, i: nat) returns (j: nat)
    requires i < n && rr < SIZE_RANGE && (rr + n <= SIZE_RANGE || SIZE_RANGE % n == 0)
    ensures j < n && Visit(rr, j, n) == i
  {
    j := StepsTo(rr, n, i);
    VisitWithin(rr, j, n);
  }

  lemma StepsTo(m: nat, n: nat, i: nat) returns (j: nat)
    requires i < n
    ensures j < n && (m + j) % n == i
  {
    var r := m % n;
    j := if i >= r then i - r else i - r + n;
    AddMod(m, j, n);
    if i >= r { ModOf(r + j, 0, i, n); } else { ModOf(r + j, 1, i, n); }
  }

  /** Without a jump, the entry visited is the one the counter would reach by counting on. */
  lemma VisitWithin(rr: nat, j: nat, n: nat)
    requires j < n && rr < SIZE_RANGE && (rr + n <= SIZE_RANGE || SIZE_RANGE % n == 0)
    ensures Visit(rr, j, n) == (rr + j) % n
  {
    if rr + j < SIZE_RANGE { ModOf(rr + j, 0, rr + j, SIZE_RANGE); } else { WrapFollows(rr + j, n); }
  }

  /** Otherwise the jump at the wrap leaves an entry out. */
  lemma VisitsMiss(rr: nat, n: nat) returns (i: nat)
    requires 0 < n < SIZE_RANGE && rr < SIZE_RANGE && !(rr + n <= SIZE_RANGE || SIZE_RANGE % n == 0)
    ensures i < n && forall j :: 0 <= j < n ==> Visit(rr, j, n) != i
  {
    var r, before := SIZE_RANGE % n, SIZE_RANGE - rr;
    i := if before <= r then n - 1 else if r >= n - before then r else n - before;
    forall j | 0 <= j < n ensures Visit(rr, j, n) != i {
      if j < before {
        // (SIZE_RANGE - d) mod n with d = before - j
        var d := before - j;
        AddMod(SIZE_RANGE, -d, n);
        if r >= d { ModOf(r - d, 0, r - d, n); } else { ModOf(r - d, -1, r - d + n, n); }
      } else {
        ModOf(rr + j, 1, j - before, SIZE_RANGE);
        ModOf(j - before, 0, j - before, n);
      }
    }
  }

  /** "No backend" is reported exactly when none is healthy, whatever the health of the list, if and
      only if the counter does not wrap during the scan or the list length divides its range. */
  lemma NullMeansNoneHealthy(n: nat, rr: nat)
    requires 0 < n < 0x1_0000_0000_0000_0000 && rr < 0x1_0000_0000_0000_0000
    ensures (forall bs: seq<Backend> :: |bs| == n ==> (Pick(bs, rr).0 == None <==> NoneHealthy(bs)))
            <==> rr + n <= 0x1_0000_0000_0000_0000 || 0x1_0000_0000_0000_0000 % n == 0
  {
    if rr + n <= SIZE_RANGE || SIZE_RANGE % n == 0 {
      forall bs: seq<Backend> | |bs| == n ensures Pick(bs, rr).0 == None <==> NoneHealthy(bs) {
        SeekFirst(bs, rr, n);
        if Pick(bs, rr).0 == None {
          forall i | 0 <= i < n ensures !bs[i].healthy { var j := VisitsAll(rr, n, i); }
        }
      }
    } else {
      var i := VisitsMiss(rr, n);
      var bs := seq(n, k => Backend("", 0, k == i, 0));
      SeekFirst(bs, rr, n);
      assert bs[i].healthy;
      assert Pick(bs, rr).0 == None;
    }
  }

  // ----- fairness -----

  /** The list after `k` picks in a row. */
  function AfterPicks(bs: seq<Backend>, rr: nat, k: nat): (r: (seq<Backend>, nat))
    ensures |r.0| == |bs|
    decreases k
  {
    if k == 0 then (bs, rr)
    else
      var (chosen, next) := Pick(bs, rr);
      AfterPicks(match chosen case None => bs case Some(i) => Charge(bs, i), next, k - 1)
  }

  /** How many of the counter values below `m` fall on entry `i`. */
  function Below(m: nat, n: nat, i: nat): int
    requires i < n
  {
    (m + n - 1 - i) / n
  }

  lemma BelowStep(m: nat, n: nat, i: nat)
    requires i < n
    ensures Below(m + 1, n, i) == Below(m, n, i) + if m % n == i then 1 else 0
  {
    var q, r := m / n, m % n;
    assert m == q * n + r;
    if r > i {
      ModOf(m + n - 1 - i, q + 1, r - 1 - i, n) by { assert (q + 1) * n == q * n + n; }
      ModOf(m + n - i, q + 1, r - i, n) by { assert (q + 1) * n == q * n + n; }
    } else if r == i {
      ModOf(m + n - 1 - i, q, n - 1, n);
      ModOf(m + n - i, q + 1, 0, n) by { assert (q + 1) * n == q * n + n; }
    } else {
      ModOf(m + n - 1 - i, q, r + n - 1 - i, n);
      ModOf(m + n - i, q, r + n - i, n);
    }
  }

  /** On an all-healthy list every pick takes the next counter value; `v` counts on past the wrap. */
  lemma {:induction false} PicksCount(bs: seq<Backend>, v: nat, k: nat, i: nat)
    requires i < |bs| && AllHealthy(bs) && (v + k <= SIZE_RANGE || SIZE_RANGE % |bs| == 0)
    ensures AfterPicks(bs, v % SIZE_RANGE, k).0[i].requestCount ==
            bs[i].requestCount + Below(v + k, |bs|, i) - Below(v, |bs|, i)
    decreases k
  {
    if k != 0 {
      var n := |bs|;
      WrapFollows(v, n);
      var chosen := v % n;
      assert Pick(bs, v % SIZE_RANGE) == (Some(chosen), (v + 1) % SIZE_RANGE);
      PicksCount(Charge(bs, chosen), v + 1, k - 1, i);
      BelowStep(v, n, i);
    }
  }

  lemma NoPicks(bs: seq<Backend>, rr: nat)
    ensures AfterPicks(bs, rr, 0) == (bs, rr)
  {
  }

  /** The first pick on an all-healthy list. */
  lemma PickNext(bs: seq<Backend>, rr: nat, k: nat)
    requires bs != [] && AllHealthy(bs) && rr < SIZE_RANGE && k > 0
    ensures AfterPicks(bs, rr, k) == AfterPicks(Charge(bs, rr % |bs|), (rr + 1) % SIZE_RANGE, k - 1)
    ensures AllHealthy(Charge(bs, rr % |bs|))
  {
    var chosen: nat := rr % |bs|;
    assert Pick(bs, rr) == (Some(chosen), (rr + 1) % SIZE_RANGE);
  }

  /** One pick past the wrap takes entry 0 again, wherever the round stood. */
  lemma {:induction false} PicksPastWrap(bs: seq<Backend>, rr: nat, k: nat)
    requires bs != [] && AllHealthy(bs) && rr <= SIZE_RANGE && rr + k == SIZE_RANGE + 1
    ensures AfterPicks(bs, rr % SIZE_RANGE, k).0[0].requestCount ==
            bs[0].requestCount + Below(SIZE_RANGE, |bs|, 0) - Below(rr, |bs|, 0) + 1
    decreases k
  {
    hide Below, Pick, AfterPicks;
    if rr == SIZE_RANGE {
      PickNext(bs, 0, 1);
      assert AfterPicks(Charge(bs, 0), 1, 0) == (Charge(bs, 0), 1) by { NoPicks(Charge(bs, 0), 1); }
    } else {
      PickNext(bs, rr, k);
      PicksPastWrap(Charge(bs, rr % |bs|), rr + 1, k - 1);
      BelowStep(rr, |bs|, 0);
    }
  }

  lemma SumOver(q: int, r: int, s: int, t: int, n: nat)
    requires 0 <= r < n && 0 <= t < n
    ensures (q * n + r + (s * n + t)) / n == q + s + if r + t < n then 0 else 1
  {
    var x := q * n + r + (s * n + t);
    assert (q + s) * n == q * n + s * n && (q + s + 1) * n == (q + s) * n + n;
    if r + t < n { ModOf(x, q + s, r + t, n); } else { ModOf(x, q + s + 1, r + t - n, n); }
  }

  lemma FloorOrCeiling(a: int, k: nat, n: nat)
    requires n > 0
    ensures var d := (a + k) / n - a / n;
            k / n <= d <= (k + n - 1) / n
  {
    var q, r, s, t := a / n, a % n, k / n, k % n;
    assert a == q * n + r && k == s * n + t;
    SumOver(q, r, s, t, n);
    SumOver(s, t, 0, n - 1, n);
    assert 0 * n == 0;
  }

  /** Backend `i` gets its floor(k/n) or ceil(k/n) of `k` picks. */
  predicate FairShare(bs: seq<Backend>, rr: nat, k: nat, i: nat)
    requires i < |bs|
  {
    var d := AfterPicks(bs, rr, k).0[i].requestCount - bs[i].requestCount;
    k / |bs| <= d <= (k + |bs| - 1) / |bs|
  }

  /** Over any `k` picks on an all-healthy list of `n`, every backend gets its share, if the counter does
      not wrap in them, or wraps without a jump. */
  lemma {:induction false} Fairness(bs: seq<Backend>, rr: nat, k: nat, i: nat)
    requires i < |bs| && AllHealthy(bs) && rr < 0x1_0000_0000_0000_0000 && (rr + k <= 0x1_0000_0000_0000_0000 || 0x1_0000_0000_0000_0000 % |bs| == 0)
    ensures FairShare(bs, rr, k, i)
  {
    assert rr % SIZE_RANGE == rr by { ModOf(rr, 0, rr, SIZE_RANGE); }
    PicksCount(bs, rr, k, i);
    BelowDifference(rr, k, |bs|, i);
    hide *;
  }

  lemma BelowDifference(m: nat, k: nat, n: nat, i: nat)
    requires i < n
    ensures k / n <= Below(m + k, n, i) - Below(m, n, i) <= (k + n - 1) / n
  {
    FloorOrCeiling(m + n - 1 - i, k, n);
  }

  ghost predicate AlwaysFair(n: nat) {
    forall bs: seq<Backend>, rr: nat, k: nat, i: nat ::
      |bs| == n && AllHealthy(bs) && rr < SIZE_RANGE && i < n ==> FairShare(bs, rr, k, i)
  }

  /** Between a multiple of the length and the next one, one counter value falls on entry 0. */
  lemma BelowRound(q: nat, r: nat, n: nat)
    requires 0 < r < n
    ensures Below(q * n, n, 0) == q && Below(q * n + r, n, 0) == q + 1
  {
    ModOf(q * n + n - 1, q, n - 1, n);
    ModOf(q * n + r + n - 1, q + 1, r - 1, n) by { assert (q + 1) * n == q * n + n; }
  }

  /** The picks from the last multiple of the length up to the wrap, and one more, take entry 0 twice. */
  lemma UnfairAtWrap(bs: seq<Backend>, q: nat, r: nat)
    requires AllHealthy(bs) && 0 < r < |bs| && SIZE_RANGE == q * |bs| + r
    ensures !FairShare(bs, SIZE_RANGE - r, r + 1, 0)
  {
    hide AfterPicks, AllHealthy, Below;
    var n, rr, k := |bs|, SIZE_RANGE - r, r + 1;
    assert rr == q * n;
    assert rr % SIZE_RANGE == rr by { ModOf(rr, 0, rr, SIZE_RANGE); }
    PicksPastWrap(bs, rr, k);
    BelowRound(q, r, n);
    assert (k + n - 1) / n == 1 by { ModOf(k + n - 1, 1, r, n); }
    assert AfterPicks(bs, rr, k).0[0].requestCount - bs[0].requestCount == 2;
  }

  lemma UnfairSomewhere(n: nat)
    requires n > 0 && SIZE_RANGE % n != 0
    ensures !AlwaysFair(n)
  {
    var bs := seq(n, _ => Backend("", 0, true, 0));
    var q, r := SIZE_RANGE / n, SIZE_RANGE % n;
    assert SIZE_RANGE == q * n + r && 0 < r < n;
    UnfairAtWrap(bs, q, r);
    assert q * n >= 0;
    hide FairShare;
  }

  /** Shares are fair from every state of the counter and for every number of picks, if and only if the
      list length divides the counter's range. */
  lemma {:induction false} AlwaysFairIff(n: nat)
    requires n > 0
    ensures AlwaysFair(n) <==> 0x1_0000_0000_0000_0000 % n == 0
  {
    if SIZE_RANGE % n == 0 {
      forall bs: seq<Backend>, rr: nat, k: nat, i: nat | |bs| == n && AllHealthy(bs) && rr < SIZE_RANGE && i < n
        ensures FairShare(bs, rr, k, i)
      {
        Fairness(bs, rr, k, i);
      }
    } else {
      UnfairSomewhere(n);
    }
  }

  /** The list and its counter. */
  class BackendList {
    var backends: seq<Backend>
    var rrIndex: nat

    constructor ()
      ensures backends == [] && rrIndex == 0
    {
      backends, rrIndex := [], 0;
    }

    method PickBackend() returns (conn: Option<nat>)
      modifies this
      ensures var (chosen, next) := Pick(old(backends), old(rrIndex));
              && rrIndex == next
              && match chosen
                 case None => conn == None && backends == old(backends)
                 case Some(i) => conn == Some(old(backends)[i].conn) && backends == Charge(old(backends), i)
    {
      if backends == [] { return None; }
      var n := |backends|;
      var i := 0;
      while i < n
        invariant 0 <= i <= n && backends == old(backends)
        invariant Seek(backends, rrIndex, n - i) == Pick(old(backends), old(rrIndex))
      {
        var idx := rrIndex % n;
        rrIndex := (rrIndex + 1) % SIZE_RANGE;
        if backends[idx].healthy {
          conn := Some(backends[idx].conn);
          backends := Charge(backends, idx);
          return;
        }
        i := i + 1;
      }
      conn := None;
    }
  }
}
