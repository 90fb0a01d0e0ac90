/** The outcome of the sizing probe in `find_num_batches`.

    A probe with `n` batches loads batch 0 and, when correction is wanted,
    corrects it.  Which of these raises which error depends on memory and on
    the file, neither of which is modelled: the two stages are given as total
    functions from the batch count to an outcome.
 */
module Probing {
  import opened Batching

  /** What a probe stage can end in: success, one of the two errors the
      sizing loop catches, or any other error, which escapes the loop (for
      example h5py's `KeyError` for a missing dataset or conversion
      attribute, or an `OSError` from opening the file). */
  datatype ProbeResult = Ok | MemoryError | ValueError | Uncaught
  {
    /** The `except (ValueError, MemoryError)` clause of the sizing loop. */
    predicate Caught() {
      MemoryError? || ValueError?
    }
  }

  /** One probe: load batch 0, then (only if it loaded and `corr` is set) correct it.
      Without correction the probe is just the load; a caught load failure is
      caught whatever `corr` is; and a successful probe means the load succeeded. */
  function Probe(load: nat -> ProbeResult, correct: nat -> ProbeResult, corr: bool, n: nat): (r: ProbeResult)
    ensures !corr ==> r == load(n)
    ensures load(n).Caught() ==> r.Caught()
    ensures r == Ok ==> load(n) == Ok
  {
    match load(n)
    case Ok => if corr then correct(n) else Ok
    case other => other
  }

  /** The probe of the sizing loop as a function of the batch count. */
  function ProbeWith(load: nat -> ProbeResult, correct: nat -> ProbeResult, corr: bool): nat -> ProbeResult
  {
    (n: nat) => Probe(load, correct, corr, n)
  }

  /** `n` is where the sizing loop stops: the probe at `n` is not retried,
      and every smaller positive count was. */
  ghost predicate Settled(probe: nat -> ProbeResult, n: nat)
  {
    && n >= 1
    && !probe(n).Caught()
    && forall m :: 1 <= m < n ==> probe(m).Caught()
  }

  /** The stopping point is the first non-retried count, so it is unique. */
  lemma SettledUnique(probe: nat -> ProbeResult, a: nat, b: nat)
    requires Settled(probe, a) && Settled(probe, b)
    ensures a == b
  {
  }

  /** Correction can only add failures, so sizing with correction never
      settles on fewer batches than sizing without it. */
  lemma CorrectionNeedsAtLeastAsManyBatches(
    load: nat -> ProbeResult, correct: nat -> ProbeResult, plain: nat, corrected: nat)
    requires Settled(ProbeWith(load, correct, false), plain)
    requires Settled(ProbeWith(load, correct, true), corrected)
    ensures plain <= corrected
  {
    assert 1 <= corrected < plain ==> ProbeWith(load, correct, false)(corrected).Caught();
  }

  /** A load that fails with `MemoryError` exactly when batch 0 would hold
      more than `ceiling` rows of a dataset with `rows` rows. */
  function CeilingLoad(rows: nat, ceiling: nat): nat -> ProbeResult
  {
    (n: nat) => if n >= 1 && BatchEnd(0, n, rows) - BatchStart(0, n, rows) > ceiling then MemoryError else Ok
  }

  /** Batch 0 of `n` batches has `rows / n` rows. */
  lemma FirstBatchSize(n: nat, rows: nat)
    requires n >= 1
    ensures BatchEnd(0, n, rows) - BatchStart(0, n, rows) == rows / n
  {
  }

  /** Whatever the row ceiling, even zero rows, some batch count loads within
      it: with one batch more than there are rows, batch 0 is empty. */
  lemma CeilingEventuallyFits(rows: nat, ceiling: nat)
    ensures CeilingLoad(rows, ceiling)(rows + 1) == Ok
  {
  }

  /** Batch 0 is one of the smallest batches of a plan: a later batch may hold
      one row more than the batch the sizing loop probes. */
  lemma FirstBatchIsSmallest(b: nat, n: nat, rows: nat)
    requires n >= 1
    ensures BatchEnd(0, n, rows) - BatchStart(0, n, rows) <= BatchEnd(b, n, rows) - BatchStart(b, n, rows)
  {
    FirstBatchSize(n, rows);
    BatchSizeBounds(b, n, rows);
  }

  /** 100 rows under a 33-row ceiling, without correction: sizing settles on 3
      batches, yet the last of them holds 34 rows. */
  lemma LastBatchCanExceedProbe()
    ensures Settled(ProbeWith(CeilingLoad(100, 33), _ => Ok, false), 3)
    ensures BatchEnd(2, 3, 100) - BatchStart(2, 3, 100) == 34
  {
  }

  /** Under any row ceiling, when correction is not asked for or never fails
      in a way the loop retries, some batch count is not retried: the sizing
      loop stops (the precondition of `FindNumBatches`). */
  lemma CeilingSizingStops(rows: nat, ceiling: nat, correct: nat -> ProbeResult, corr: bool)
    requires corr ==> forall n: nat :: !correct(n).Caught()
    ensures exists k: nat :: k >= 1 && !Probe(CeilingLoad(rows, ceiling), correct, corr, k).Caught()
  {
    CeilingEventuallyFits(rows, ceiling);
    assert !Probe(CeilingLoad(rows, ceiling), correct, corr, rows + 1).Caught();
  }

  /** 100 rows, a memory ceiling of 34 rows, correction requested and always
      succeeding.  One batch (100 rows) and two batches
      (50 rows) fail; three batches (33 rows) fit, so sizing settles on 3. */
  lemma HundredRowsSettleOnThree()
    ensures Settled(ProbeWith(CeilingLoad(100, 34), _ => Ok, true), 3)
  {
  }
}
