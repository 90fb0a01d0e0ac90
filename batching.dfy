/** Row-range partitioning of a dataset into batches.

    A dataset with `rows` rows split into `n` batches gives batch `b` the rows
    `[BatchStart(b, n, rows), BatchEnd(b, n, rows))`, both bounds being
    `floor(b * rows / n)`-style integer quotients.  The lemmas below show that
    the batches are contiguous, cover every row exactly once, and differ in
    size by at most one row.
 */
module Batching {

  // ---------------------------------------------------------------------
  // Integer-division facts (Dafny's `/` on non-negative operands is floor)
  // ---------------------------------------------------------------------

  /** Multiplying by a non-negative factor keeps the order. */
  lemma MulMonotone(n: int, x: int, y: int)
    requires n >= 0
    ensures x <= y ==> n * x <= n * y
  {
  }

  /** The quotient is the unique q with n*q <= a < n*q + n. */
  lemma DivUnique(a: int, n: int, q: int)
    requires n >= 1 && n * q <= a < n * q + n
    ensures a / n == q
  {
    var d := a / n;
    assert a == n * d + a % n;
    MulMonotone(n, q + 1, d);
    MulMonotone(n, d + 1, q);
  }

  /** Division by a positive number keeps the order. */
  lemma DivMonotone(a: nat, c: nat, n: nat)
    requires n >= 1 && a <= c
    ensures a / n <= c / n
  {
    var qa, qc := a / n, c / n;
    assert a == n * qa + a % n;
    assert c == n * qc + c % n;
    MulMonotone(n, qc + 1, qa);
  }

  /** Adding a remainder r < n to u raises the quotient by at most one. */
  lemma DivStep(u: nat, r: nat, n: nat)
    requires n >= 1 && r < n
    ensures u / n <= (u + r) / n <= u / n + 1
  {
    DivMonotone(u, u + r, n);
    var q, d := u / n, (u + r) / n;
    assert u == n * q + u % n;
    assert u + r == n * d + (u + r) % n;
    assert n * (q + 2) == n * q + 2 * n;
    MulMonotone(n, q + 2, d);
  }

  /** (n*k + x) / n == k + x / n */
  lemma DivAddMultiple(n: nat, k: nat, x: nat)
    requires n >= 1
    ensures (n * k + x) / n == k + x / n
  {
    var q := x / n;
    assert x == n * q + x % n;
    assert n * k + x == n * (k + q) + x % n;
    DivUnique(n * k + x, n, k + q);
  }

  // ---------------------------------------------------------------------
  // The bounds of one batch
  // ---------------------------------------------------------------------

  /** First row of batch `b` out of `n`: the floor of b * rows / n. */
  function BatchStart(b: nat, n: nat, rows: nat): (s: nat)
    requires n >= 1
    ensures n * s <= b * rows < n * s + n
  {
    var s := (b * rows) / n;
    assert b * rows == n * s + (b * rows) % n;
    s
  }

  /** One past the last row of batch `b` out of `n`: the floor of (b + 1) * rows / n. */
  function BatchEnd(b: nat, n: nat, rows: nat): (e: nat)
    requires n >= 1
    ensures n * e <= (b + 1) * rows < n * e + n
  {
    var e := ((b + 1) * rows) / n;
    assert (b + 1) * rows == n * e + ((b + 1) * rows) % n;
    e
  }

  /** Starts grow with the batch index. */
  lemma StartMonotone(b: nat, c: nat, n: nat, rows: nat)
    requires n >= 1 && b <= c
    ensures BatchStart(b, n, rows) <= BatchStart(c, n, rows)
  {
    assert b * rows <= c * rows;
    DivMonotone(b * rows, c * rows, n);
  }

  /** Each batch ends where the next one starts: no gap and no overlap. */
  lemma BatchesContiguous(b: nat, n: nat, rows: nat)
    requires n >= 1
    ensures BatchEnd(b, n, rows) == BatchStart(b + 1, n, rows)
  {
  }

  /** Inside a batch plan (b < n) a batch is a well-formed range within the dataset. */
  lemma BatchWithinDataset(b: nat, n: nat, rows: nat)
    requires n >= 1 && b < n
    ensures BatchStart(b, n, rows) <= BatchEnd(b, n, rows) <= rows
  {
    StartMonotone(b, b + 1, n, rows);
    StartMonotone(b + 1, n, n, rows);
    DivUnique(n * rows, n, rows);
  }

  /** The first batch starts at row 0 and the last ends at the row count. */
  lemma BatchesSpanDataset(n: nat, rows: nat)
    requires n >= 1
    ensures BatchStart(0, n, rows) == 0
    ensures BatchEnd(n - 1, n, rows) == rows
  {
    DivUnique(n * rows, n, rows);
  }

  /** A single batch is the whole dataset. */
  lemma SingleBatchIsWhole(rows: nat)
    ensures BatchStart(0, 1, rows) == 0 && BatchEnd(0, 1, rows) == rows
  {
  }

  /** Every batch holds rows / n or rows / n + 1 rows. */
  lemma BatchSizeBounds(b: nat, n: nat, rows: nat)
    requires n >= 1
    ensures rows / n <= BatchEnd(b, n, rows) - BatchStart(b, n, rows) <= rows / n + 1
  {
    var q, r := rows / n, rows % n;
    assert rows == n * q + r;
    assert b * rows == n * (b * q) + b * r;
    assert (b + 1) * rows == n * ((b + 1) * q) + (b * r + r);
    DivAddMultiple(n, b * q, b * r);
    DivAddMultiple(n, (b + 1) * q, b * r + r);
    DivStep(b * r, r, n);
  }

  /** Any two batches of one plan differ in size by at most one row. */
  lemma BatchSizesBalanced(b: nat, c: nat, n: nat, rows: nat)
    requires n >= 1
    ensures -1 <= (BatchEnd(b, n, rows) - BatchStart(b, n, rows))
                  - (BatchEnd(c, n, rows) - BatchStart(c, n, rows)) <= 1
  {
    BatchSizeBounds(b, n, rows);
    BatchSizeBounds(c, n, rows);
  }

  /** An earlier batch ends no later than a later batch starts: batches never overlap. */
  lemma BatchesDisjoint(b: nat, c: nat, n: nat, rows: nat)
    requires n >= 1 && b < c
    ensures BatchEnd(b, n, rows) <= BatchStart(c, n, rows)
  {
    StartMonotone(b + 1, c, n, rows);
  }

  /** Every row below `BatchStart(k)` lies in one of the first k batches. */
  lemma {:induction false} RowCoveredBefore(row: nat, k: nat, n: nat, rows: nat)
    requires n >= 1 && row < BatchStart(k, n, rows)
    ensures exists b :: 0 <= b < k && BatchStart(b, n, rows) <= row < BatchEnd(b, n, rows)
  {
    if k > 0 && row < BatchStart(k - 1, n, rows) {
      RowCoveredBefore(row, k - 1, n, rows);
    }
  }

  /** Every row of the dataset lies in exactly one batch of a plan. */
  lemma RowInExactlyOneBatch(row: nat, n: nat, rows: nat)
    requires n >= 1 && row < rows
    ensures exists b :: 0 <= b < n && BatchStart(b, n, rows) <= row < BatchEnd(b, n, rows)
    ensures forall b, c :: 0 <= b < n && 0 <= c < n
                           && BatchStart(b, n, rows) <= row < BatchEnd(b, n, rows)
                           && BatchStart(c, n, rows) <= row < BatchEnd(c, n, rows)
                           ==> b == c
  {
    BatchesSpanDataset(n, rows);
    RowCoveredBefore(row, n, n, rows);
    forall b, c | 0 <= b < n && 0 <= c < n
                  && BatchStart(b, n, rows) <= row < BatchEnd(b, n, rows)
                  && BatchStart(c, n, rows) <= row < BatchEnd(c, n, rows)
      ensures b == c
    {
      if b < c {
        BatchesDisjoint(b, c, n, rows);
      } else if c < b {
        BatchesDisjoint(c, b, n, rows);
      }
    }
  }

  // ---------------------------------------------------------------------
  // Slicing the rows of a dataset
  // ---------------------------------------------------------------------

  function Min(a: nat, b: nat): nat { if a <= b then a else b }

  /** A slice `s[i:j]` with non-negative indices, clamped the way Python
      slices clamp: both ends are cut to the length, and a range that would
      run backwards is empty.  Within the plan no clamping is needed
      (`BatchRowsExact`). */
  function PySlice<T>(s: seq<T>, i: nat, j: nat): (r: seq<T>)
    ensures |r| == if i <= j && i <= |s| then Min(j, |s|) - i else 0
    ensures forall k :: 0 <= k < |r| ==> r[k] == s[i + k]
  {
    var lo := Min(i, |s|);
    var hi := Min(j, |s|);
    if lo <= hi then s[lo..hi] else []
  }

  /** On indices within the sequence, the slice is the plain subsequence. */
  lemma PySliceWithin<T>(s: seq<T>, i: nat, j: nat)
    requires i <= j <= |s|
    ensures PySlice(s, i, j) == s[i..j]
  {
  }

  /** The rows that `load_dataset_batch(b)` reads with `n` batches. */
  function BatchRows<T>(data: seq<T>, b: nat, n: nat): seq<T>
    requires n >= 1
  {
    PySlice(data, BatchStart(b, n, |data|), BatchEnd(b, n, |data|))
  }

  /** Inside the plan no clamping happens: the batch is exactly its row range. */
  lemma BatchRowsExact<T>(data: seq<T>, b: nat, n: nat)
    requires n >= 1 && b < n
    ensures BatchStart(b, n, |data|) <= BatchEnd(b, n, |data|) <= |data|
    ensures BatchRows(data, b, n) == data[BatchStart(b, n, |data|)..BatchEnd(b, n, |data|)]
  {
    BatchWithinDataset(b, n, |data|);
    PySliceWithin(data, BatchStart(b, n, |data|), BatchEnd(b, n, |data|));
  }

  /** Past the plan (b >= n) the clamped slice is empty.  The converter never
      asks for such a batch; this fixes what the model gives for one. */
  lemma BatchRowsPastPlan<T>(data: seq<T>, b: nat, n: nat)
    requires n >= 1 && b >= n
    ensures BatchRows(data, b, n) == []
  {
    StartMonotone(n, b, n, |data|);
    DivUnique(n * |data|, n, |data|);
  }

  /** The batches `0 .. k-1` laid end to end, in index order. */
  function JoinBatches<T>(data: seq<T>, n: nat, k: nat): seq<T>
    requires n >= 1
  {
    if k == 0 then [] else JoinBatches(data, n, k - 1) + BatchRows(data, k - 1, n)
  }

  /** The first k batches together are exactly the rows before `BatchStart(k)`. */
  lemma {:induction false} JoinBatchesPrefix<T>(data: seq<T>, n: nat, k: nat)
    requires n >= 1 && k <= n
    ensures BatchStart(k, n, |data|) <= |data|
    ensures JoinBatches(data, n, k) == data[..BatchStart(k, n, |data|)]
  {
    StartMonotone(k, n, n, |data|);
    DivUnique(n * |data|, n, |data|);
    if k > 0 {
      JoinBatchesPrefix(data, n, k - 1);
      BatchRowsExact(data, k - 1, n);
      var s, e := BatchStart(k - 1, n, |data|), BatchStart(k, n, |data|);
      BatchWithinDataset(k - 1, n, |data|);
      assert data[..s] + data[s..e] == data[..e];
    }
  }

  /** Concatenating all batches of a plan in index order reproduces the dataset. */
  lemma BatchesReassemble<T>(data: seq<T>, n: nat)
    requires n >= 1
    ensures JoinBatches(data, n, n) == data
  {
    JoinBatchesPrefix(data, n, n);
    DivUnique(n * |data|, n, |data|);
    assert data[..|data|] == data;
  }

  /** 100 rows in 3 batches: rows 0-32, 33-65 and 66-99. */
  lemma HundredRowsInThreeBatches()
    ensures BatchStart(0, 3, 100) == 0 && BatchEnd(0, 3, 100) == 33
    ensures BatchStart(1, 3, 100) == 33 && BatchEnd(1, 3, 100) == 66
    ensures BatchStart(2, 3, 100) == 66 && BatchEnd(2, 3, 100) == 100
  {
  }
}
