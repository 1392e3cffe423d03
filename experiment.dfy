/**
 * The dataset glue of the experiment driver: turning one parsed CSV row into
 * a sample, splitting a dataset into a training prefix and a test suffix of a
 * shuffled index list, and turning samples into column matrices.
 */
module Experiment {
  import opened Matrices

  /** One row of a dataset: an input vector and a target vector. */
  datatype Sample = Sample(inputs: seq<real>, outputs: seq<real>)

  datatype Dataset = Dataset(samples: seq<Sample>, name: string, inputDim: int, outputDim: int)

  /** Every sample has inputDim inputs and outputDim outputs. */
  predicate Fits(ds: Dataset) {
    forall s :: 0 <= s < |ds.samples| ==>
      |ds.samples[s].inputs| == ds.inputDim && |ds.samples[s].outputs| == ds.outputDim
  }

  /** A row has as many values as the named dataset's layout reads. */
  predicate RowLongEnough(datasetName: string, values: seq<real>) {
    && (datasetName == "XOR" ==> |values| >= 3)
    && (datasetName == "Binary Adder" ==> |values| >= 8)
  }

  /**
   * What the loader does with one row of parsed values: XOR takes two inputs
   * and one output, the binary adder five inputs and three outputs, and any
   * other name gives an empty sample and leaves the dimensions as they were.
   */
  function AppendRow(ds: Dataset, values: seq<real>): (r: Dataset)
    requires RowLongEnough(ds.name, values)
    ensures r.name == ds.name && |r.samples| == |ds.samples| + 1 && r.samples[..|ds.samples|] == ds.samples
    ensures ds.name == "XOR" ==>
              && r.inputDim == 2 && r.outputDim == 1
              && r.samples[|ds.samples|] == Sample([values[0], values[1]], [values[2]])
    ensures ds.name == "Binary Adder" ==>
              && r.inputDim == 5 && r.outputDim == 3
              && r.samples[|ds.samples|] ==
                 Sample([values[0], values[1], values[2], values[3], values[4]], [values[5], values[6], values[7]])
    ensures ds.name != "XOR" && ds.name != "Binary Adder" ==>
              r.inputDim == ds.inputDim && r.outputDim == ds.outputDim && r.samples[|ds.samples|] == Sample([], [])
  {
    if ds.name == "XOR" then
      ds.(samples := ds.samples + [Sample(values[..2], [values[2]])], inputDim := 2, outputDim := 1)
    else if ds.name == "Binary Adder" then
      ds.(samples := ds.samples + [Sample(values[..5], values[5..8])], inputDim := 5, outputDim := 3)
    else
      ds.(samples := ds.samples + [Sample([], [])])
  }

  /** The dimensions the loader gives a dataset of a known name, and every sample fits them. */
  predicate Loaded(ds: Dataset) {
    && Fits(ds)
    && (ds.name == "XOR" ==> ds.inputDim == 2 && ds.outputDim == 1)
    && (ds.name == "Binary Adder" ==> ds.inputDim == 5 && ds.outputDim == 3)
  }

  /**
   * Reading one more row of a known dataset, starting from the empty dataset
   * or from one read so far, keeps every sample the size the dimensions say.
   */
  lemma AppendRowKeepsFit(ds: Dataset, values: seq<real>)
    requires ds.name == "XOR" || ds.name == "Binary Adder"
    requires RowLongEnough(ds.name, values)
    requires |ds.samples| == 0 || Loaded(ds)
    ensures Loaded(AppendRow(ds, values))
  {
    var r := AppendRow(ds, values);
    forall s | 0 <= s < |r.samples|
      ensures |r.samples[s].inputs| == r.inputDim && |r.samples[s].outputs| == r.outputDim
    {
      if s < |ds.samples| {
        assert r.samples[s] == r.samples[..|ds.samples|][s];
      }
    }
  }

  /** 0, 1, ..., n - 1: the index list before it is shuffled. */
  function Iota(n: nat): (r: seq<int>)
    ensures |r| == n && forall i :: 0 <= i < n ==> r[i] == i
  {
    seq(n, i => i)
  }

  /** The samples at the given positions, in the order of the positions. */
  function Pick(s: seq<Sample>, idx: seq<int>): (r: seq<Sample>)
    requires forall p :: 0 <= p < |idx| ==> 0 <= idx[p] < |s|
    ensures |r| == |idx| && forall p :: 0 <= p < |idx| ==> r[p] == s[idx[p]]
  {
    seq(|idx|, p requires 0 <= p < |idx| => s[idx[p]])
  }

  /** A reordering of 0 .. n - 1 has only entries in that range. */
  lemma PermutationInRange(idx: seq<int>, n: nat)
    requires multiset(idx) == multiset(Iota(n))
    ensures |idx| == n
    ensures forall p :: 0 <= p < |idx| ==> 0 <= idx[p] < n
  {
    assert |multiset(idx)| == |idx| && |multiset(Iota(n))| == n;
    forall p | 0 <= p < |idx|
      ensures 0 <= idx[p] < n
    {
      assert idx[p] in multiset(idx);
      assert idx[p] in Iota(n);
    }
  }

  lemma PickAppend(s: seq<Sample>, a: seq<int>, b: seq<int>)
    requires forall p :: 0 <= p < |a| ==> 0 <= a[p] < |s|
    requires forall p :: 0 <= p < |b| ==> 0 <= b[p] < |s|
    ensures Pick(s, a + b) == Pick(s, a) + Pick(s, b)
  {
  }

  lemma PickFront(s: seq<Sample>, idx: seq<int>, m: nat)
    requires m <= |s|
    requires forall p :: 0 <= p < |idx| ==> 0 <= idx[p] < m
    ensures Pick(s[..m], idx) == Pick(s, idx)
  {
  }

  lemma DropOne(idx: seq<int>, p: nat)
    requires p < |idx|
    ensures multiset(idx[..p] + idx[p + 1..]) == multiset(idx) - multiset{idx[p]}
  {
    assert idx == idx[..p] + [idx[p]] + idx[p + 1..];
  }

  lemma IotaLast(n: nat)
    requires n > 0
    ensures multiset(Iota(n)) == multiset(Iota(n - 1)) + multiset{n - 1}
  {
    assert Iota(n) == Iota(n - 1) + [n - 1];
  }

  /** Picking around position p: the picks before it, the sample at idx[p], the picks after it. */
  lemma PickAround(s: seq<Sample>, idx: seq<int>, p: nat)
    requires forall q :: 0 <= q < |idx| ==> 0 <= idx[q] < |s|
    requires p < |idx|
    ensures Pick(s, idx) == Pick(s, idx[..p]) + [s[idx[p]]] + Pick(s, idx[p + 1..])
  {
  }

  /** One step of the permutation argument: the last sample is picked at position p. */
  lemma PickWithout(s: seq<Sample>, idx: seq<int>, p: nat, rest: seq<int>)
    requires |s| > 0 && p < |idx| && idx[p] == |s| - 1
    requires forall q :: 0 <= q < |idx| ==> 0 <= idx[q] < |s|
    requires rest == idx[..p] + idx[p + 1..]
    requires forall q :: 0 <= q < |rest| ==> 0 <= rest[q] < |s| - 1
    requires multiset(Pick(s[..|s| - 1], rest)) == multiset(s[..|s| - 1])
    ensures multiset(Pick(s, idx)) == multiset(s)
  {
    var n := |s|;
    var front := s[..n - 1];
    assert s == front + [s[n - 1]];
    PickFront(s, rest, n - 1);
    PickAppend(s, idx[..p], idx[p + 1..]);
    PickAround(s, idx, p);
  }

  /** Taking n - 1 out of a reordering of 0 .. n - 1 leaves a reordering of 0 .. n - 2. */
  lemma DropLargest(idx: seq<int>, n: nat, p: nat)
    requires n > 0 && multiset(idx) == multiset(Iota(n))
    requires p < |idx| && idx[p] == n - 1
    ensures multiset(idx[..p] + idx[p + 1..]) == multiset(Iota(n - 1))
  {
    DropOne(idx, p);
    IotaLast(n);
  }

  /**
   * In a reordering of 0 .. n - 1, the largest index n - 1 sits at some
   * position p, and the other entries are a reordering of 0 .. n - 2.
   */
  lemma FindLargest(idx: seq<int>, n: nat) returns (p: nat, rest: seq<int>)
    requires n > 0 && multiset(idx) == multiset(Iota(n))
    ensures p < |idx| && idx[p] == n - 1 && rest == idx[..p] + idx[p + 1..]
    ensures multiset(rest) == multiset(Iota(n - 1))
    ensures forall q :: 0 <= q < |rest| ==> 0 <= rest[q] < n - 1
  {
    IotaLast(n);
    assert n - 1 in multiset(idx);
    p :| 0 <= p < |idx| && idx[p] == n - 1;
    rest := idx[..p] + idx[p + 1..];
    DropLargest(idx, n, p);
    PermutationInRange(rest, n - 1);
  }

  /** Picking along a reordering of all positions keeps every sample exactly once. */
  lemma {:induction false} PickPermutation(s: seq<Sample>, idx: seq<int>)
    requires multiset(idx) == multiset(Iota(|s|))
    requires forall p :: 0 <= p < |idx| ==> 0 <= idx[p] < |s|
    ensures multiset(Pick(s, idx)) == multiset(s)
  {
    if |s| > 0 {
      var p, rest := FindLargest(idx, |s|);
      PickPermutation(s[..|s| - 1], rest);
      PickWithout(s, idx, p, rest);
    }
  }

  /** One copying loop of `splitDataset`: the samples at positions from .. to - 1 of the index list. */
  method CopyPicked(samples: seq<Sample>, indices: seq<int>, from: nat, to: nat) returns (picked: seq<Sample>)
    requires from <= to <= |indices|
    requires forall p :: 0 <= p < |indices| ==> 0 <= indices[p] < |samples|
    ensures picked == Pick(samples, indices[from..to])
  {
    picked := [];
    for i := from to to
      invariant picked == Pick(samples, indices[from..i])
    {
      picked := picked + [samples[indices[i]]];
    }
  }

  /** The training prefix and the test suffix together pick every sample once, when the index list is a reordering. */
  lemma SplitKeepsSamples(samples: seq<Sample>, indices: seq<int>, trainSize: nat)
    requires trainSize <= |indices|
    requires forall p :: 0 <= p < |indices| ==> 0 <= indices[p] < |samples|
    requires multiset(indices) == multiset(Iota(|samples|))
    ensures multiset(Pick(samples, indices[..trainSize]) + Pick(samples, indices[trainSize..])) == multiset(samples)
  {
    assert indices[..trainSize] + indices[trainSize..] == indices;
    PickAppend(samples, indices[..trainSize], indices[trainSize..]);
    PickPermutation(samples, indices);
  }

  /**
   * `splitDataset` with the shuffled index list `indices` and the computed
   * training size as parameters: the first trainSize picked samples are the
   * training set and the rest the test set; both copy the dimensions and tag
   * the name.
   */
  method SplitDataset(original: Dataset, indices: seq<int>, trainSize: int) returns (train: Dataset, test: Dataset)
    requires |indices| == |original.samples|
    requires forall p :: 0 <= p < |indices| ==> 0 <= indices[p] < |indices|
    requires 0 <= trainSize <= |original.samples|
    ensures train.name == original.name + " (Train)" && test.name == original.name + " (Test)"
    ensures train.inputDim == original.inputDim && train.outputDim == original.outputDim
    ensures test.inputDim == original.inputDim && test.outputDim == original.outputDim
    ensures |train.samples| == trainSize && |train.samples| + |test.samples| == |original.samples|
    ensures forall p :: 0 <= p < trainSize ==> train.samples[p] == original.samples[indices[p]]
    ensures forall p :: 0 <= p < |test.samples| ==> test.samples[p] == original.samples[indices[trainSize + p]]
    ensures multiset(indices) == multiset(Iota(|indices|)) ==>
              multiset(train.samples + test.samples) == multiset(original.samples)
  {
    var trainSamples := CopyPicked(original.samples, indices, 0, trainSize);
    var testSamples := CopyPicked(original.samples, indices, trainSize, |indices|);
    assert indices[0..trainSize] == indices[..trainSize] && indices[trainSize..|indices|] == indices[trainSize..];
    if multiset(indices) == multiset(Iota(|indices|)) {
      SplitKeepsSamples(original.samples, indices, trainSize);
    }
    train := Dataset(trainSamples, original.name + " (Train)", original.inputDim, original.outputDim);
    test := Dataset(testSamples, original.name + " (Test)", original.inputDim, original.outputDim);
  }

  /** `datasetToMatrices`: sample i's inputs and outputs as column matrices. */
  method DatasetToMatrices(ds: Dataset) returns (inputs: seq<Mat>, outputs: seq<Mat>)
    ensures |inputs| == |ds.samples| && |outputs| == |ds.samples|
    ensures forall i :: 0 <= i < |ds.samples| ==>
              inputs[i] == Column(ds.samples[i].inputs) && outputs[i] == Column(ds.samples[i].outputs)
    ensures Fits(ds) && ds.inputDim >= 0 && ds.outputDim >= 0 ==>
              forall i :: 0 <= i < |ds.samples| ==>
                Shaped(inputs[i], ds.inputDim, 1) && Shaped(outputs[i], ds.outputDim, 1)
  {
    inputs, outputs := [], [];
    for s := 0 to |ds.samples|
      invariant |inputs| == s && |outputs| == s
      invariant forall i :: 0 <= i < s ==>
                  inputs[i] == Column(ds.samples[i].inputs) && outputs[i] == Column(ds.samples[i].outputs)
    {
      var sample := ds.samples[s];
      inputs := inputs + [Column(sample.inputs)];
      outputs := outputs + [Column(sample.outputs)];
    }
  }
}
