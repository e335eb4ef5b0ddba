/** Batch sizing: the bounds, the starting size, the adaptive law and the row ceiling. */
module BatchSizing {
  import opened Options

  datatype Tuning = Tuning(
    initialSmall: int, initialMedium: int, initialLarge: int,
    minRows: int, maxRows: int, escalationCap: int,
    targetBatch: int, selfWait: int)

  /** What loading the configuration guarantees: defaults replace non-positive values, and a floor
      above the ceiling is refused. */
  predicate Configured(t: Tuning) {
    && 0 < t.initialSmall && 0 < t.initialMedium && 0 < t.initialLarge
    && 0 < t.minRows <= t.maxRows
    && 0 < t.escalationCap && 0 < t.targetBatch && 0 < t.selfWait
  }

  function Clamp(n: int, lo: int, hi: int): int {
    var floored := if n < lo then lo else n;
    if hi < floored then hi else floored
  }

  function InitialBatchRows(est: int, t: Tuning): int {
    if est < 100_000 then Clamp(t.initialSmall, t.minRows, t.maxRows)
    else if est <= 1_000_000 then Clamp(t.initialMedium, t.minRows, t.maxRows)
    else Clamp(t.initialLarge, t.minRows, t.maxRows)
  }

  function BatchCeiling(t: Tuning, rcsi: bool): int {
    if !rcsi && t.escalationCap > 0 && t.escalationCap < t.maxRows then t.escalationCap else t.maxRows
  }

  function InitialSize(override: Option<int>, est: int, t: Tuning, rcsi: bool): int {
    var size := if override.Some? then override.value else InitialBatchRows(est, t);
    Clamp(size, t.minRows, BatchCeiling(t, rcsi))
  }

  /** What the sizing law reads after a batch. Blocking seconds are never populated by the waits
      the driver reads, but the law has the clause. */
  datatype Feedback = Feedback(writeLogMs: real, pageLatchMs: real, blockingSeconds: int, elapsed: int)

  function AdjustBatchRows(size: int, f: Feedback, t: Tuning, hi: int): int {
    var reduce := f.writeLogMs > 10.0 || f.pageLatchMs > 20.0 || f.blockingSeconds > 30;
    var grow := f.writeLogMs < 5.0 && f.pageLatchMs < 5.0 && f.blockingSeconds == 0 && f.elapsed < t.targetBatch;
    // the source halves towards zero
    var next := if reduce then (if size >= 0 then size / 2 else -((-size) / 2))
                else if grow then size * 2 else size;
    Clamp(next, t.minRows, hi)
  }

  /** A size the driver may use: it takes at least one row, never more than the configured maximum,
      and with RCSI off never enough to escalate to a table lock. */
  predicate SafeSize(size: int, t: Tuning, rcsi: bool) {
    1 <= size <= t.maxRows && (!rcsi ==> size <= t.escalationCap)
  }

  function Sizes(start: int, fs: seq<Feedback>, t: Tuning, hi: int): int {
    if fs == [] then start
    else AdjustBatchRows(Sizes(start, fs[..|fs| - 1], t, hi), fs[|fs| - 1], t, hi)
  }

  lemma AdjustKeepsSafe(size: int, f: Feedback, t: Tuning, rcsi: bool)
    requires Configured(t)
    ensures SafeSize(AdjustBatchRows(size, f, t, BatchCeiling(t, rcsi)), t, rcsi)
  {
  }

  /** What a run that started with these counters has after the committed batches that reported this: the size of
      its next batch, the batches it counts, and the size of the last one. */
  datatype Counters = Counters(size: int, batches: nat, last: int)

  function CountersAfter(start: Counters, reports: seq<Feedback>, t: Tuning, hi: int): Counters {
    Counters(Sizes(start.size, reports, t, hi), start.batches + |reports|,
             if reports == [] then start.last else Sizes(start.size, reports[..|reports| - 1], t, hi))
  }

  lemma OneMoreReport(start: Counters, reports: seq<Feedback>, f: Feedback, t: Tuning, hi: int)
    ensures var before := CountersAfter(start, reports, t, hi);
      CountersAfter(start, reports + [f], t, hi)
      == Counters(AdjustBatchRows(before.size, f, t, hi), before.batches + 1, before.size)
  {
    assert (reports + [f])[..|reports|] == reports;
  }

  predicate UnderPressure(f: Feedback) {
    f.writeLogMs > 10.0 || f.pageLatchMs > 20.0 || f.blockingSeconds > 30
  }

  /** The law backs off exactly under pressure: a size in range never grows then and never shrinks
      otherwise, and it grows only after a batch that was quick and met no wait worth speaking of. */
  lemma AdjustFollowsPressure(size: int, f: Feedback, t: Tuning, hi: int)
    requires Configured(t) && t.minRows <= size <= hi
    ensures var next := AdjustBatchRows(size, f, t, hi);
      && t.minRows <= next <= hi
      && (if UnderPressure(f) then next <= size else next >= size)
      && (next > size ==> f.writeLogMs < 5.0 && f.pageLatchMs < 5.0 && f.blockingSeconds == 0 && f.elapsed < t.targetBatch)
      && (UnderPressure(f) && 2 * t.minRows <= size ==> next == size / 2)
  {
  }

  /** The value in [lo, hi] that lies nearest to n; where the bounds cross, the upper one holds. */
  predicate Nearest(size: int, n: int, lo: int, hi: int) {
    if lo <= hi then lo <= size <= hi && forall m | lo <= m <= hi :: Gap(n, size) <= Gap(n, m) else size == hi
  }

  function Gap(a: int, b: int): int {
    if a < b then b - a else a - b
  }

  lemma ClampIsNearest(n: int, lo: int, hi: int)
    ensures Nearest(Clamp(n, lo, hi), n, lo, hi)
    ensures forall size :: Nearest(size, n, lo, hi) ==> size == Clamp(n, lo, hi)
  {
    forall size | Nearest(size, n, lo, hi)
      ensures size == Clamp(n, lo, hi)
    {
      assert lo <= hi ==> lo <= Clamp(n, lo, hi) <= hi && Gap(n, size) <= Gap(n, Clamp(n, lo, hi));
    }
  }

  /** The first size is the nearest allowed one to what the operator asked for or, where nothing was asked, to
      the tier of the estimated row count. */
  lemma FirstSizeFollowsTheOperator(override: Option<int>, est: int, t: Tuning, rcsi: bool)
    requires Configured(t)
    ensures var asked := if override.Some? then override.value
                         else if est < 100_000 then t.initialSmall
                         else if est <= 1_000_000 then t.initialMedium
                         else t.initialLarge;
      Nearest(InitialSize(override, est, t, rcsi), asked, t.minRows, BatchCeiling(t, rcsi))
  {
    var lo, hi := t.minRows, BatchCeiling(t, rcsi);
    ClampIsNearest(if override.Some? then override.value else InitialBatchRows(est, t), lo, hi);
  }

  /** A batch that was quick and met no wait worth speaking of. */
  predicate Quick(f: Feedback, t: Tuning) {
    f.writeLogMs < 5.0 && f.pageLatchMs < 5.0 && f.blockingSeconds == 0 && f.elapsed < t.targetBatch
  }

  /** The next size is the nearest allowed one to half the last under pressure, to twice it after a quick batch,
      and to the same otherwise. */
  lemma NextSize(size: int, f: Feedback, t: Tuning, hi: int)
    requires 0 <= size
    ensures var aim := if UnderPressure(f) then size / 2 else if Quick(f, t) then 2 * size else size;
      Nearest(AdjustBatchRows(size, f, t, hi), aim, t.minRows, hi)
  {
    ClampIsNearest(if UnderPressure(f) then size / 2 else if Quick(f, t) then 2 * size else size, t.minRows, hi);
  }

  /** Whatever the operator asked for and whatever the server reports, every size of the run is
      safe. */
  lemma EverySizeIsSafe(override: Option<int>, est: int, fs: seq<Feedback>, t: Tuning, rcsi: bool)
    requires Configured(t)
    ensures SafeSize(Sizes(InitialSize(override, est, t, rcsi), fs, t, BatchCeiling(t, rcsi)), t, rcsi)
  {
    if fs != [] {
      AdjustKeepsSafe(Sizes(InitialSize(override, est, t, rcsi), fs[..|fs| - 1], t, BatchCeiling(t, rcsi)),
                      fs[|fs| - 1], t, rcsi);
    }
  }

  /** For a table of known size the ceiling is the least bound of at least 10000 rows and twice the estimate; where
      the size is unknown it is a million. */
  lemma CeilingIsTheLeast(est: int, n: int)
    ensures est > 0 ==> (RowCeiling(est) <= n <==> 10_000 <= n && 2 * est <= n)
    ensures est <= 0 ==> RowCeiling(est) == 1_000_000
  {
  }

  /** The cumulative bound on the rows of one predicate loop. */
  function RowCeiling(est: int): (ceiling: int)
    ensures ceiling >= 10_000 && ceiling >= 2 * est
  {
    if est <= 0 then 1_000_000 else if 2 * est > 10_000 then 2 * est else 10_000
  }
}
