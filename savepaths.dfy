/** Derivation of the output file name of one saved batch.

    The grammar is `<savepath>[-corr][_batch<i>].h5`: the `-corr` suffix is
    present exactly when correction was requested, the `_batch<i>` suffix
    exactly when the dataset is split into more than one batch, and the
    extension always comes last.  `ParseSavePath` reads a name back, and the
    round-trip lemma shows that a derived name determines its flag and, for a
    split dataset, its batch index.
 */
module SavePaths {
  import opened Wrappers

  const CorrSuffix: string := "-corr"
  const BatchTag: string := "_batch"
  const Extension: string := ".h5"

  // ---------------------------------------------------------------------
  // Decimal notation of a batch index (Python's f"{batch}")
  // ---------------------------------------------------------------------

  predicate IsDigit(c: char) { '0' <= c <= '9' }

  predicate IsDigits(s: string) { forall i :: 0 <= i < |s| ==> IsDigit(s[i]) }

  function DigitChar(d: nat): (c: char)
    requires d < 10
    ensures IsDigit(c) && c as int - '0' as int == d
  {
    ('0' as int + d) as char
  }

  function DigitValue(c: char): (d: nat)
    requires IsDigit(c)
    ensures d < 10
  {
    c as int - '0' as int
  }

  /** The decimal digits of `n`, most significant first, without leading zeros. */
  function DecimalString(n: nat): (s: string)
    ensures |s| >= 1 && IsDigits(s)
    ensures n >= 1 ==> s[0] != '0'
    ensures n < 10 <==> |s| == 1
  {
    if n < 10 then [DigitChar(n)] else DecimalString(n / 10) + [DigitChar(n % 10)]
  }

  /** The number a string of decimal digits denotes. */
  function ParseDecimal(s: string): nat
    requires IsDigits(s)
  {
    if s == [] then 0 else 10 * ParseDecimal(s[..|s| - 1]) + DigitValue(s[|s| - 1])
  }

  /** Reading the decimal notation of `n` gives `n` back. */
  lemma {:induction false} DecimalRoundTrip(n: nat)
    ensures ParseDecimal(DecimalString(n)) == n
  {
    var s := DecimalString(n);
    if n >= 10 {
      DecimalRoundTrip(n / 10);
      assert s[..|s| - 1] == DecimalString(n / 10);
    }
  }

  /** Distinct indices have distinct decimal notations. */
  lemma DecimalInjective(a: nat, b: nat)
    requires DecimalString(a) == DecimalString(b)
    ensures a == b
  {
    DecimalRoundTrip(a);
    DecimalRoundTrip(b);
  }

  // ---------------------------------------------------------------------
  // The save path and its reading
  // ---------------------------------------------------------------------

  /** The file name that `full_savepath(corr, batch)` builds from the base
      `savepath` and the batch count of the current plan. */
  function SavePath(base: string, corr: bool, numBatches: nat, batch: nat): (p: string)
    ensures |p| >= |base| + |Extension|
    ensures p[..|base|] == base
    ensures p[|p| - |Extension|..] == Extension
  {
    base
      + (if corr then CorrSuffix else "")
      + (if numBatches > 1 then BatchTag + DecimalString(batch) else "")
      + Extension
  }

  /** What a file name tells about how it was derived. */
  datatype Target = Target(corr: bool, batch: Option<nat>)

  /** The suffixes between the base and the extension: an optional `-corr`
      and then either nothing or `_batch` followed by decimal digits. */
  function ParseSuffixes(m: string): Option<Target>
  {
    var corr := |m| >= |CorrSuffix| && m[..|CorrSuffix|] == CorrSuffix;
    var rest := if corr then m[|CorrSuffix|..] else m;
    if rest == [] then
      Some(Target(corr, None))
    else if |rest| > |BatchTag| && rest[..|BatchTag|] == BatchTag && IsDigits(rest[|BatchTag|..]) then
      Some(Target(corr, Some(ParseDecimal(rest[|BatchTag|..]))))
    else
      None
  }

  /** Reads a file name derived from `base`, or `None` if it is not one. */
  function ParseSavePath(base: string, p: string): Option<Target>
  {
    if |p| < |base| + |Extension| || p[..|base|] != base || p[|p| - |Extension|..] != Extension then
      None
    else
      ParseSuffixes(p[|base|..|p| - |Extension|])
  }

  /** The suffixes `SavePath` puts between base and extension. */
  lemma SuffixesOf(base: string, corr: bool, numBatches: nat, batch: nat)
    ensures var p := SavePath(base, corr, numBatches, batch);
            p[|base|..|p| - |Extension|]
              == (if corr then CorrSuffix else "")
                 + (if numBatches > 1 then BatchTag + DecimalString(batch) else "")
  {
  }

  /** The suffixes of a derived name read back as its flag and batch index. */
  lemma {:induction false} SuffixesRoundTrip(corr: bool, numBatches: nat, batch: nat)
    ensures ParseSuffixes((if corr then CorrSuffix else "")
                          + (if numBatches > 1 then BatchTag + DecimalString(batch) else ""))
            == Some(Target(corr, if numBatches > 1 then Some(batch) else None))
  {
    var t := if numBatches > 1 then BatchTag + DecimalString(batch) else "";
    var m := (if corr then CorrSuffix else "") + t;
    if corr {
      assert m[..|CorrSuffix|] == CorrSuffix && m[|CorrSuffix|..] == t;
    } else {
      assert m == t;
      assert numBatches > 1 ==> m[0] == '_';
    }
    if numBatches > 1 {
      assert t[..|BatchTag|] == BatchTag && t[|BatchTag|..] == DecimalString(batch);
      DecimalRoundTrip(batch);
    }
  }

  /** A derived file name determines the `-corr` flag, and, when the dataset
      is split into several batches, the batch index; with a single batch the
      name carries no batch suffix at all. */
  lemma SavePathRoundTrip(base: string, corr: bool, numBatches: nat, batch: nat)
    ensures ParseSavePath(base, SavePath(base, corr, numBatches, batch))
            == Some(Target(corr, if numBatches > 1 then Some(batch) else None))
  {
    SuffixesOf(base, corr, numBatches, batch);
    SuffixesRoundTrip(corr, numBatches, batch);
  }

  /** Two derived names from the same base agree only if the flags agree and,
      for a split dataset, the batch indices agree: batches never overwrite
      each other, nor corrected output the uncorrected one. */
  lemma SavePathInjective(base: string, c1: bool, c2: bool, numBatches: nat, b1: nat, b2: nat)
    requires SavePath(base, c1, numBatches, b1) == SavePath(base, c2, numBatches, b2)
    ensures c1 == c2
    ensures numBatches > 1 ==> b1 == b2
  {
    SavePathRoundTrip(base, c1, numBatches, b1);
    SavePathRoundTrip(base, c2, numBatches, b2);
  }

  /** The names for base `/out/x` with each combination of the `-corr` flag
      and a single or a split dataset. */
  lemma SavePathExamples()
    ensures SavePath("/out/x", false, 1, 0) == "/out/x.h5"
    ensures SavePath("/out/x", true, 1, 0) == "/out/x-corr.h5"
    ensures SavePath("/out/x", false, 5, 2) == "/out/x_batch2.h5"
    ensures SavePath("/out/x", true, 5, 3) == "/out/x-corr_batch3.h5"
  {
  }

  /** The names of three corrected batches. */
  lemma ThreeCorrectedBatchNames(base: string)
    ensures SavePath(base, true, 3, 0) == base + "-corr_batch0.h5"
    ensures SavePath(base, true, 3, 1) == base + "-corr_batch1.h5"
    ensures SavePath(base, true, 3, 2) == base + "-corr_batch2.h5"
  {
  }
}
