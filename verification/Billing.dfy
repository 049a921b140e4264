/** GPU-hour billing in exact integers: elapsed microseconds times GPUs against one GPU-hour. */
module Billing {
  import opened Types

  const SECOND: int := 1_000_000
  const HOUR: int := 3600 * SECOND

  function Max(a: int, b: int): int { if a < b then b else a }

  /** The least integer whose HOUR multiple covers a. */
  function CeilHours(a: int): (h: int)
    requires 0 <= a
    ensures 0 <= h && (h - 1) * HOUR < a <= h * HOUR
  {
    (a + HOUR - 1) / HOUR
  }

  function GpuTime(start: Time, end: Time, gpus: Gpus): (t: nat) {
    Max(0, end - start) * gpus
  }

  function Bill(start: Time, end: Time, gpus: Gpus): int {
    Max(1, CeilHours(GpuTime(start, end, gpus)))
  }

  /** What `max(0, credits - billed)` leaves. */
  function Spend(credits: int, billed: int): int { Max(0, credits - billed) }

  /** The comparison of `submit`: credits < gpu_count * max_duration_seconds / 3600, cleared of the fraction. */
  predicate Funded(credits: int, gpus: Gpus, maxSeconds: Seconds) {
    gpus * maxSeconds <= credits * 3600
  }

  /** A bill is the least whole number of GPU-hours, at least one, that covers the time used. */
  lemma BillIsLeastCover(start: Time, end: Time, gpus: Gpus)
    ensures 1 <= Bill(start, end, gpus)
    ensures GpuTime(start, end, gpus) <= Bill(start, end, gpus) * HOUR
    ensures forall h :: 1 <= h && GpuTime(start, end, gpus) <= h * HOUR ==> Bill(start, end, gpus) <= h
  {
    var t := GpuTime(start, end, gpus);
    forall h | 1 <= h && t <= h * HOUR
      ensures Bill(start, end, gpus) <= h
    {
      assert (CeilHours(t) - 1) * HOUR < h * HOUR;
    }
  }

  /** The same in the source's own quantities: h hours suffice exactly if they cover the elapsed microseconds times the GPUs. */
  lemma BillIff(start: Time, end: Time, gpus: Gpus)
    ensures 1 <= Bill(start, end, gpus)
    ensures forall h :: 1 <= h ==> (Bill(start, end, gpus) <= h <==> (end - start) * gpus <= h * 3_600_000_000)
  {
    BillIsLeastCover(start, end, gpus);
    var t := GpuTime(start, end, gpus);
    if end < start {
      MulMono(0, start - end, gpus);
      assert (end - start) * gpus == -((start - end) * gpus);
    }
    forall h | 1 <= h
      ensures Bill(start, end, gpus) <= h <==> (end - start) * gpus <= h * 3_600_000_000
    {
      assert t <= h * HOUR <==> (end - start) * gpus <= h * 3_600_000_000;
      if Bill(start, end, gpus) <= h { assert Bill(start, end, gpus) * HOUR <= h * HOUR; }
    }
  }

  lemma MulMono(a: nat, b: nat, c: nat)
    requires a <= b
    ensures a * c <= b * c
  {
    assert 0 <= (b - a) * c;
  }

  lemma GpuTimeSplits(start: Time, mid: Time, end: Time, gpus: Gpus)
    requires mid <= end
    ensures GpuTime(start, mid, gpus) <= GpuTime(start, end, gpus)
    ensures GpuTime(start, end, gpus) <= GpuTime(start, mid, gpus) + (end - mid) * gpus
  {
    var a, b := Max(0, mid - start), Max(0, end - start);
    MulMono(a, b, gpus);
    MulMono(b, a + (end - mid), gpus);
    assert (a + (end - mid)) * gpus == a * gpus + (end - mid) * gpus;
  }

  /** Billing reads the clock at t1, the row is stamped at t2: recomputing the bill from the row, as the
      dashboard does, never reports less, and reports at most ceil((t2 - t1) * gpus) more. */
  lemma DashboardGap(start: Time, t1: Time, t2: Time, gpus: Gpus)
    requires t1 <= t2
    ensures 0 <= (t2 - t1) * gpus
    ensures Bill(start, t1, gpus) <= Bill(start, t2, gpus) <= Bill(start, t1, gpus) + CeilHours((t2 - t1) * gpus)
  {
    GpuTimeSplits(start, t1, t2, gpus);
    MulMono(0, t2 - t1, gpus);
    var d: nat := (t2 - t1) * gpus;
    BillIsLeastCover(start, t2, gpus);
    BillIsLeastCover(start, t1, gpus);
    var b1, c := Bill(start, t1, gpus), CeilHours(d);
    assert GpuTime(start, t2, gpus) <= b1 * HOUR + c * HOUR == (b1 + c) * HOUR;
  }

  /** Runs within max_duration use at most gpus * max_duration. */
  lemma UseWithinDuration(gpus: Gpus, maxSeconds: Seconds, start: Time, end: Time)
    requires end - start <= maxSeconds * SECOND
    ensures GpuTime(start, end, gpus) <= gpus * maxSeconds * SECOND
  {
    MulMono(Max(0, end - start), maxSeconds * SECOND, gpus);
    assert maxSeconds * SECOND * gpus == gpus * maxSeconds * SECOND;
  }

  lemma AtLeastOneSecond(gpus: Gpus, maxSeconds: Seconds)
    ensures 1 <= gpus * maxSeconds
  {
    MulMono(1, gpus, maxSeconds);
  }

  /** Credits that passed the check of `submit` cover the bill of every run that ends within max_duration. */
  lemma FundedCoversBill(credits: int, gpus: Gpus, maxSeconds: Seconds, start: Time, end: Time)
    requires Funded(credits, gpus, maxSeconds)
    requires end - start <= maxSeconds * SECOND
    ensures Bill(start, end, gpus) <= credits
    ensures Spend(credits, Bill(start, end, gpus)) == credits - Bill(start, end, gpus)
  {
    UseWithinDuration(gpus, maxSeconds, start, end);
    AtLeastOneSecond(gpus, maxSeconds);
    BillIsLeastCover(start, end, gpus);
    assert GpuTime(start, end, gpus) <= credits * HOUR;
  }

  /** `submit` accepts exactly the users who own max(1, ceil(gpus * max_duration / 3600)) credits. */
  lemma FundedIffCeiling(credits: int, gpus: Gpus, maxSeconds: Seconds)
    ensures 0 <= gpus * maxSeconds * SECOND
    ensures Funded(credits, gpus, maxSeconds) <==> Max(1, CeilHours(gpus * maxSeconds * SECOND)) <= credits
  {
    AtLeastOneSecond(gpus, maxSeconds);
    var use: nat := gpus * maxSeconds;
    var c := CeilHours(use * SECOND);
    if use <= credits * 3600 {
      assert (c - 1) * HOUR < credits * HOUR;
    }
  }

  // ---------------------------------------------------------------- several bills

  function Sum(bills: seq<nat>): nat
    decreases |bills|
  {
    if bills == [] then 0 else bills[0] + Sum(bills[1..])
  }

  /** Paying one bill after the other, each clamped at zero. */
  function SpendAll(credits: nat, bills: seq<nat>): int
    decreases |bills|
  {
    if bills == [] then credits else SpendAll(Spend(credits, bills[0]), bills[1..])
  }

  lemma {:induction false} SpendAllIsSum(credits: nat, bills: seq<nat>)
    ensures SpendAll(credits, bills) == Max(0, credits - Sum(bills))
    decreases |bills|
  {
    if bills != [] { SpendAllIsSum(Spend(credits, bills[0]), bills[1..]); }
  }

  lemma {:induction false} SumWithout(bills: seq<nat>, i: nat)
    requires i < |bills|
    ensures Sum(bills) == bills[i] + Sum(bills[..i] + bills[i + 1..])
    decreases |bills|
  {
    if i > 0 {
      SumWithout(bills[1..], i - 1);
      var rest := bills[..i] + bills[i + 1..];
      assert rest[0] == bills[0] && rest[1..] == bills[1..][..i - 1] + bills[1..][i..];
    } else {
      assert bills[..0] + bills[1..] == bills[1..];
    }
  }

  /** Whatever the order in which the same bills are paid, the same credits are left. */
  lemma {:induction false} OrderIrrelevant(credits: nat, a: seq<nat>, b: seq<nat>)
    requires multiset(a) == multiset(b)
    ensures SpendAll(credits, a) == SpendAll(credits, b)
  {
    SpendAllIsSum(credits, a);
    SpendAllIsSum(credits, b);
    SumOfBag(a, b);
  }

  lemma BagWithout(a: seq<nat>, i: nat)
    requires i < |a|
    ensures multiset(a[..i] + a[i + 1..]) == multiset(a) - multiset{a[i]}
  {
    assert a == a[..i] + [a[i]] + a[i + 1..];
  }

  /** The position of an element that both bags hold. */
  lemma InBag(b: seq<nat>, x: nat) returns (i: nat)
    requires x in multiset(b)
    ensures i < |b| && b[i] == x
  {
    i :| 0 <= i < |b| && b[i] == x;
  }

  lemma {:induction false} SumOfBag(a: seq<nat>, b: seq<nat>)
    requires multiset(a) == multiset(b)
    ensures Sum(a) == Sum(b)
    decreases |a|
  {
    if a == [] {
      assert |multiset(b)| == 0;
    } else {
      assert a[0] in multiset(a);
      var i := InBag(b, a[0]);
      BagWithout(a, 0);
      BagWithout(b, i);
      assert a[..0] + a[1..] == a[1..];
      SumOfBag(a[1..], b[..i] + b[i + 1..]);
      SumWithout(b, i);
    }
  }
}
