/** The converter's two stateful objects.

    `Data` holds the dataset key, the base save path, the batch count found by
    the sizing loop and the rows of the batch loaded last.  The file the rows
    come from and the memory behaviour of a probe are not part of the object:
    they are passed in as the dataset's rows and as the outcomes of the two
    probe stages.  `Gui` is reduced to the list of selected dataset keys.
 */
module Converter {
  import opened Wrappers
  import opened Batching
  import opened Probing
  import opened SavePaths
  import opened Selection

  class Data<Row> {
    /** Key of the dataset being converted. */
    var h5key: string
    /** Output path without suffixes and extension. */
    var savepath: string
    /** Number of row batches the dataset is processed in. */
    var numBatches: nat
    /** Rows of the batch loaded last (and corrected, when asked). */
    var dataset: seq<Row>

    /** The batch count is at least one: every sizing run starts it at one
        and only increments it. */
    ghost predicate Valid()
      reads this
    {
      numBatches >= 1
    }

    /** A fresh converter: no key, one batch, nothing loaded. */
    constructor ()
      ensures Valid()
      ensures h5key == "" && savepath == "" && numBatches == 1 && dataset == []
    {
      h5key := "";
      savepath := "";
      numBatches := 1;
      dataset := [];
    }

    /** `load_dataset_batch(batch)`: read batch `batch` of the current plan
        from `source`, the rows stored under `h5key`. */
    method LoadDatasetBatch(source: seq<Row>, batch: nat)
      requires Valid()
      modifies this`dataset
      ensures Valid()
      ensures dataset == BatchRows(source, batch, numBatches)
      ensures batch < numBatches ==>
                && BatchStart(batch, numBatches, |source|) <= BatchEnd(batch, numBatches, |source|) <= |source|
                && dataset == source[BatchStart(batch, numBatches, |source|)..BatchEnd(batch, numBatches, |source|)]
                && |source| / numBatches <= |dataset| <= |source| / numBatches + 1
      ensures batch >= numBatches ==> dataset == []
    {
      var datasetSize := |source|;
      var batchStart := (batch * datasetSize) / numBatches;
      var batchEnd := ((batch + 1) * datasetSize) / numBatches;
      dataset := PySlice(source, batchStart, batchEnd);
      if batch < numBatches {
        BatchRowsExact(source, batch, numBatches);
        BatchSizeBounds(batch, numBatches, datasetSize);
      } else {
        BatchRowsPastPlan(source, batch, numBatches);
      }
    }

    /** `find_num_batches(corr)`: starting from one batch, probe and add one
        batch after every caught `MemoryError` or `ValueError`.  On return the
        batch count is the first one whose probe was not caught; the outcome
        is `Ok`, or the uncaught error that ends the search. */
    method FindNumBatches(corr: bool, load: nat -> ProbeResult, correct: nat -> ProbeResult)
      returns (outcome: ProbeResult)
      requires exists k: nat :: k >= 1 && !Probe(load, correct, corr, k).Caught()
      modifies this`numBatches
      ensures Valid()
      ensures Settled(ProbeWith(load, correct, corr), numBatches)
      ensures outcome == Probe(load, correct, corr, numBatches) && !outcome.Caught()
    {
      ghost var k: nat :| k >= 1 && !Probe(load, correct, corr, k).Caught();
      numBatches := 1;
      outcome := Probe(load, correct, corr, numBatches);
      while outcome.Caught()
        invariant 1 <= numBatches <= k
        invariant outcome == Probe(load, correct, corr, numBatches)
        invariant forall m :: 1 <= m < numBatches ==> ProbeWith(load, correct, corr)(m).Caught()
        decreases k - numBatches
      {
        numBatches := numBatches + 1;
        outcome := Probe(load, correct, corr, numBatches);
      }
    }

    /** `full_savepath(corr, batch)`: the file name of one saved batch.  It
        reads `savepath` and `numBatches` and changes nothing; the name reads
        back as the `-corr` flag and, for a split dataset, the batch index. */
    function FullSavepath(corr: bool, batch: nat): (p: string)
      reads this`savepath, this`numBatches
      ensures p == SavePath(savepath, corr, numBatches, batch)
      ensures |p| >= |savepath| + |Extension| && p[..|savepath|] == savepath
      ensures ParseSavePath(savepath, p) == Some(Target(corr, if numBatches > 1 then Some(batch) else None))
    {
      SavePathRoundTrip(savepath, corr, numBatches, batch);
      SavePath(savepath, corr, numBatches, batch)
    }
  }

  class Gui {
    /** Keys picked in the dropdown, in the order they were picked. */
    var selectedH5keys: seq<string>

    ghost predicate Valid()
      reads this
    {
      NoDuplicates(selectedH5keys)
    }

    /** The window starts with nothing selected. */
    constructor ()
      ensures Valid() && selectedH5keys == []
    {
      selectedH5keys := [];
    }

    /** `select_h5key(menu_selection)`: append a key that is not selected,
        remove one that is; the selection stays duplicate-free. */
    method SelectH5key(menuSelection: string)
      modifies this`selectedH5keys
      ensures selectedH5keys == Toggle(old(selectedH5keys), menuSelection)
      ensures menuSelection !in old(selectedH5keys) ==>
                selectedH5keys == old(selectedH5keys) + [menuSelection]
      ensures menuSelection in old(selectedH5keys) ==>
                |selectedH5keys| == |old(selectedH5keys)| - 1
      ensures old(Valid()) ==> Valid()
      ensures old(Valid()) ==> menuSelection in old(selectedH5keys) ==> menuSelection !in selectedH5keys
    {
      ghost var before := selectedH5keys;
      if menuSelection !in selectedH5keys {
        selectedH5keys := selectedH5keys + [menuSelection];
      } else {
        selectedH5keys := RemoveFirst(selectedH5keys, menuSelection);
      }
      if NoDuplicates(before) {
        ToggleKeepsNoDuplicates(before, menuSelection);
        ToggleMembership(before, menuSelection, menuSelection);
      }
    }
  }
}
