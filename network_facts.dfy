/**
 * What the network's arithmetic guarantees: `forward` fails exactly on a
 * badly shaped input, a network that fits its data exactly is a fixed point of
 * training, a zero learning rate changes nothing, `evaluate` is zero on a
 * perfect fit, and accuracy counts a sample only when every output is right.
 */
module NetworkFacts {
  import opened Failures
  import opened Matrices
  import opened NetworkSpec

  /** On a well-shaped input `forward` never throws and yields the cached activation. */
  lemma {:induction false} RunIsActAt(ws: seq<Mat>, bs: seq<Mat>, layers: seq<nat>, sig: real -> real, x: Mat, n: nat)
    requires NetShaped(ws, bs, layers) && Shaped(x, layers[0], 1) && n <= |ws|
    ensures Run(ws, bs, sig, x, n) == Ok(ActAt(ws, bs, layers, sig, x, n))
  {
    if n > 0 {
      RunIsActAt(ws, bs, layers, sig, x, n - 1);
    }
  }

  /** Once a layer has thrown, `forward` throws the same exception. */
  lemma {:induction false} RunStaysFailed(ws: seq<Mat>, bs: seq<Mat>, sig: real -> real, x: Mat, k: nat, n: nat)
    requires WellFormedNet(ws, bs) && WellFormed(x)
    requires k <= n <= |ws| && Run(ws, bs, sig, x, k).Err?
    ensures Run(ws, bs, sig, x, n) == Run(ws, bs, sig, x, k)
    decreases n
  {
    if n > k {
      RunStaysFailed(ws, bs, sig, x, k, n - 1);
    }
  }

  /**
   * `forward` on a well-shaped network throws exactly when there is a layer
   * and the input is not a layers[0] x 1 column; it then throws
   * `invalid_argument`. With no layers it returns the input.
   */
  lemma ForwardFailsIff(ws: seq<Mat>, bs: seq<Mat>, layers: seq<nat>, sig: real -> real, x: Mat)
    requires NetShaped(ws, bs, layers) && WellFormed(x)
    ensures Run(ws, bs, sig, x, |ws|).Err? <==> |ws| > 0 && !Shaped(x, layers[0], 1)
    ensures Run(ws, bs, sig, x, |ws|).Err? ==> Run(ws, bs, sig, x, |ws|).error == InvalidArgument
    ensures |ws| == 0 ==> Run(ws, bs, sig, x, |ws|) == Ok(x)
    ensures |ws| > 0 && Shaped(x, layers[0], 1) ==> Shaped(Run(ws, bs, sig, x, |ws|).value, Last(layers), 1)
  {
    if Shaped(x, layers[0], 1) {
      RunIsActAt(ws, bs, layers, sig, x, |ws|);
    } else if |ws| > 0 {
      assert Run(ws, bs, sig, x, 1) == Err(InvalidArgument);
      RunStaysFailed(ws, bs, sig, x, 1, |ws|);
    }
  }

  /** A layer whose weights and biases are all zero outputs sig(0) everywhere. */
  lemma StepOfZero(w: Mat, b: Mat, sig: real -> real, a: Mat)
    requires WellFormed(w) && WellFormed(a) && w.cols == a.rows && Shaped(b, w.rows, a.cols)
    requires IsZero(w) && IsZero(b)
    ensures forall j, k :: 0 <= j < w.rows && 0 <= k < a.cols ==> Step(w, b, sig, a).cells[j][k] == sig(0.0)
  {
    var z := Times(w, a);
    forall j, k | 0 <= j < w.rows && 0 <= k < a.cols
      ensures Step(w, b, sig, a).cells[j][k] == sig(0.0)
    {
      DotZeroLeft(w, a, j, k, w.cols);
      assert z.cells[j][k] == 0.0;
    }
  }

  /**
   * When the last layer's weights and biases are all zero, every output entry
   * is sig(0), whatever the input and the earlier layers.
   */
  lemma ForwardOfZeroLastLayer(ws: seq<Mat>, bs: seq<Mat>, layers: seq<nat>, sig: real -> real, x: Mat)
    requires NetShaped(ws, bs, layers) && |ws| >= 1 && Shaped(x, layers[0], 1)
    requires IsZero(ws[|ws| - 1]) && IsZero(bs[|ws| - 1])
    ensures forall j :: 0 <= j < Last(layers) ==> ActAt(ws, bs, layers, sig, x, |ws|).cells[j][0] == sig(0.0)
  {
    StepOfZero(ws[|ws| - 1], bs[|ws| - 1], sig, ActAt(ws, bs, layers, sig, x, |ws| - 1));
  }

  lemma {:induction false} BackSumOfZero(w: Mat, d: Mat, j: nat, n: nat)
    requires WellFormed(w) && Shaped(d, w.rows, 1) && j < w.cols && n <= w.rows
    requires IsZero(d)
    ensures BackSum(w, d, j, n) == 0.0
  {
    if n > 0 {
      BackSumOfZero(w, d, j, n - 1);
    }
  }

  /** A zero output delta propagates back as zero deltas in every layer. */
  lemma {:induction false} DeltasVanish(ws: seq<Mat>, layers: seq<nat>, acts: seq<Mat>, dOut: Mat, i: nat)
    requires WeightsShaped(ws, layers) && ColumnsFor(acts, layers)
    requires Shaped(dOut, Last(layers), 1) && i < |ws| && IsZero(dOut)
    ensures IsZero(DeltaAt(ws, layers, acts, dOut, i))
    decreases |ws| - i
  {
    if i < |ws| - 1 {
      DeltasVanish(ws, layers, acts, dOut, i + 1);
      var d := DeltaAt(ws, layers, acts, dOut, i + 1);
      var r := DeltaAt(ws, layers, acts, dOut, i);
      forall j | 0 <= j < layers[i + 1]
        ensures r.cells[j][0] == 0.0
      {
        BackSumOfZero(ws[i + 1], d, j, ws[i + 1].rows);
      }
      Ext(r, Zeros(r.rows, r.cols));
    }
  }

  /** A sample the network already fits exactly contributes zero deltas. */
  lemma ExactSampleHasZeroDeltas(ws: seq<Mat>, layers: seq<nat>, acts: seq<Mat>, t: Mat)
    requires WeightsShaped(ws, layers) && ColumnsFor(acts, layers) && |ws| >= 1
    requires Shaped(t, Last(layers), 1) && acts[|ws|] == t
    ensures forall i :: 0 <= i < |ws| ==> IsZero(Deltas(ws, layers, acts, t)[i])
  {
    var dOut := OutputDelta(OutputError(ws, layers, acts, t), acts[|ws|]);
    Ext(dOut, Zeros(dOut.rows, dOut.cols));
    forall i | 0 <= i < |ws|
      ensures IsZero(Deltas(ws, layers, acts, t)[i])
    {
      DeltasVanish(ws, layers, acts, dOut, i);
    }
  }

  /** Zero deltas leave the accumulators as they were. */
  lemma AccumulateZero(g: Grads, ds: seq<Mat>, acts: seq<Mat>, layers: seq<nat>)
    requires NetShaped(g.w, g.b, layers) && ColumnsFor(acts, layers)
    requires ColumnPerStep(ds, layers) && forall i :: 0 <= i < |ds| ==> IsZero(ds[i])
    ensures Accumulate(g, ds, acts, layers) == g
  {
    var r := Accumulate(g, ds, acts, layers);
    forall i | 0 <= i < |ds|
      ensures r.w[i] == g.w[i] && r.b[i] == g.b[i]
    {
      Ext(r.w[i], g.w[i]);
      Ext(r.b[i], g.b[i]);
    }
    assert r.w == g.w && r.b == g.b;
  }

  /** A sample whose output already equals its target adds nothing to the gradient. */
  lemma ExactSampleAddsNothing(g: Grads, ws: seq<Mat>, bs: seq<Mat>, layers: seq<nat>, sig: real -> real, x: Mat, t: Mat)
    requires NetShaped(ws, bs, layers) && |ws| >= 1 && NetShaped(g.w, g.b, layers)
    requires Shaped(x, layers[0], 1) && Shaped(t, Last(layers), 1)
    requires ActAt(ws, bs, layers, sig, x, |ws|) == t
    ensures AddSample(g, ws, bs, layers, sig, x, t) == g
  {
    var acts := Acts(ws, bs, layers, sig, x);
    ExactSampleHasZeroDeltas(ws, layers, acts, t);
    AccumulateZero(g, Deltas(ws, layers, acts, t), acts, layers);
  }

  /** One more exactly fitted sample keeps a zero gradient zero. */
  lemma GradSumStepAtExactFit(ws: seq<Mat>, bs: seq<Mat>, layers: seq<nat>, sig: real -> real,
                              xs: seq<Mat>, ts: seq<Mat>, m: nat)
    requires NetShaped(ws, bs, layers) && |ws| >= 1 && SamplesFit(xs, ts, layers) && m < |xs|
    requires ActAt(ws, bs, layers, sig, xs[m], |ws|) == ts[m]
    requires GradSum(ws, bs, layers, sig, xs, ts, m) == ZeroGrads(ws, bs, layers)
    ensures GradSum(ws, bs, layers, sig, xs, ts, m + 1) == ZeroGrads(ws, bs, layers)
  {
    ExactSampleAddsNothing(ZeroGrads(ws, bs, layers), ws, bs, layers, sig, xs[m], ts[m]);
  }

  /** When every training output equals its target, the gradient of the epoch stays zero. */
  lemma {:induction false} GradSumAtExactFit(ws: seq<Mat>, bs: seq<Mat>, layers: seq<nat>, sig: real -> real,
                                             xs: seq<Mat>, ts: seq<Mat>, n: nat)
    requires NetShaped(ws, bs, layers) && |ws| >= 1 && SamplesFit(xs, ts, layers) && n <= |xs|
    requires forall s :: 0 <= s < |xs| ==> ActAt(ws, bs, layers, sig, xs[s], |ws|) == ts[s]
    ensures GradSum(ws, bs, layers, sig, xs, ts, n) == ZeroGrads(ws, bs, layers)
  {
    if n > 0 {
      var m := n - 1;
      GradSumAtExactFit(ws, bs, layers, sig, xs, ts, m);
      GradSumStepAtExactFit(ws, bs, layers, sig, xs, ts, m);
    }
  }

  /** One more epoch of training is one more application of `Epoch`. */
  lemma TrainOneMore(p: Params, layers: seq<nat>, sig: real -> real, lr: real, xs: seq<Mat>, ts: seq<Mat>, e: nat)
    requires NetShaped(p.weights, p.biases, layers) && SamplesFit(xs, ts, layers)
    requires |xs| > 0 && |layers| >= 2
    ensures Train(p, layers, sig, lr, xs, ts, e + 1) == Epoch(Train(p, layers, sig, lr, xs, ts, e), layers, sig, lr, xs, ts)
  {
  }

  /** Moving against a zero gradient, or with a zero rate, leaves the parameters as they were. */
  lemma DescendAllStill(ps: seq<Mat>, gs: seq<Mat>, lr: real, count: real)
    requires Matching(ps, gs) && count != 0.0
    requires lr == 0.0 || forall i :: 0 <= i < |gs| ==> IsZero(gs[i])
    ensures DescendAll(ps, gs, lr, count) == ps
  {
    var r := DescendAll(ps, gs, lr, count);
    forall i | 0 <= i < |ps|
      ensures r[i] == ps[i]
    {
      Ext(r[i], ps[i]);
    }
  }

  /** A network that fits every training sample exactly is a fixed point of an epoch. */
  lemma ExactFitIsFixedPoint(p: Params, layers: seq<nat>, sig: real -> real, lr: real, xs: seq<Mat>, ts: seq<Mat>)
    requires NetShaped(p.weights, p.biases, layers) && |p.weights| >= 1
    requires SamplesFit(xs, ts, layers) && |xs| > 0
    requires forall s :: 0 <= s < |xs| ==> ActAt(p.weights, p.biases, layers, sig, xs[s], |p.weights|) == ts[s]
    ensures Epoch(p, layers, sig, lr, xs, ts) == p
  {
    GradSumAtExactFit(p.weights, p.biases, layers, sig, xs, ts, |xs|);
    EpochStill(p, layers, sig, lr, xs, ts);
  }

  /** An epoch whose gradient is zero, or whose rate is zero, changes nothing. */
  lemma EpochStill(p: Params, layers: seq<nat>, sig: real -> real, lr: real, xs: seq<Mat>, ts: seq<Mat>)
    requires NetShaped(p.weights, p.biases, layers) && |p.weights| >= 1
    requires SamplesFit(xs, ts, layers) && |xs| > 0
    requires lr == 0.0 || GradSum(p.weights, p.biases, layers, sig, xs, ts, |xs|) == ZeroGrads(p.weights, p.biases, layers)
    ensures Epoch(p, layers, sig, lr, xs, ts) == p
  {
    var g := GradSum(p.weights, p.biases, layers, sig, xs, ts, |xs|);
    DescendKeepsWeights(p.weights, g.w, layers, lr, |xs| as real);
    DescendKeepsColumns(p.biases, g.b, layers, lr, |xs| as real);
    DescendAllStill(p.weights, g.w, lr, |xs| as real);
    DescendAllStill(p.biases, g.b, lr, |xs| as real);
  }

  /** With a zero learning rate an epoch changes nothing. */
  lemma ZeroRateEpoch(p: Params, layers: seq<nat>, sig: real -> real, xs: seq<Mat>, ts: seq<Mat>)
    requires NetShaped(p.weights, p.biases, layers) && |p.weights| >= 1
    requires SamplesFit(xs, ts, layers) && |xs| > 0
    ensures Epoch(p, layers, sig, 0.0, xs, ts) == p
  {
    EpochStill(p, layers, sig, 0.0, xs, ts);
  }

  /** One more epoch at a zero rate keeps unchanged parameters unchanged. */
  lemma ZeroRateStep(p: Params, layers: seq<nat>, sig: real -> real, xs: seq<Mat>, ts: seq<Mat>, e: nat)
    requires NetShaped(p.weights, p.biases, layers) && SamplesFit(xs, ts, layers)
    requires |xs| > 0 && |layers| >= 2
    requires Train(p, layers, sig, 0.0, xs, ts, e) == p
    ensures Train(p, layers, sig, 0.0, xs, ts, e + 1) == p
  {
    ZeroRateEpoch(p, layers, sig, xs, ts);
  }

  /** With a zero learning rate training changes nothing, however many epochs it runs. */
  lemma {:induction false} ZeroRateChangesNothing(p: Params, layers: seq<nat>, sig: real -> real,
                                                  xs: seq<Mat>, ts: seq<Mat>, epochs: nat)
    requires NetShaped(p.weights, p.biases, layers) && SamplesFit(xs, ts, layers)
    requires epochs > 0 ==> |xs| > 0 && |layers| >= 2
    ensures Train(p, layers, sig, 0.0, xs, ts, epochs) == p
  {
    if epochs > 0 {
      var e := epochs - 1;
      ZeroRateChangesNothing(p, layers, sig, xs, ts, e);
      ZeroRateStep(p, layers, sig, xs, ts, e);
    }
  }

  /** One more epoch from a network that fits every training sample exactly keeps it unchanged. */
  lemma ExactFitStep(p: Params, layers: seq<nat>, sig: real -> real, lr: real, xs: seq<Mat>, ts: seq<Mat>, e: nat)
    requires NetShaped(p.weights, p.biases, layers) && SamplesFit(xs, ts, layers)
    requires |xs| > 0 && |layers| >= 2
    requires forall s :: 0 <= s < |xs| ==> ActAt(p.weights, p.biases, layers, sig, xs[s], |p.weights|) == ts[s]
    requires Train(p, layers, sig, lr, xs, ts, e) == p
    ensures Train(p, layers, sig, lr, xs, ts, e + 1) == p
  {
    ExactFitIsFixedPoint(p, layers, sig, lr, xs, ts);
  }

  /** Training a network that fits every training sample exactly changes nothing, however many epochs it runs. */
  lemma {:induction false} ExactFitStaysFixed(p: Params, layers: seq<nat>, sig: real -> real, lr: real,
                                              xs: seq<Mat>, ts: seq<Mat>, epochs: nat)
    requires NetShaped(p.weights, p.biases, layers) && SamplesFit(xs, ts, layers)
    requires epochs > 0 ==> |xs| > 0 && |layers| >= 2
    requires forall s :: 0 <= s < |xs| ==> ActAt(p.weights, p.biases, layers, sig, xs[s], |p.weights|) == ts[s]
    ensures Train(p, layers, sig, lr, xs, ts, epochs) == p
  {
    if epochs > 0 {
      var e := epochs - 1;
      ExactFitStaysFixed(p, layers, sig, lr, xs, ts, e);
      ExactFitStep(p, layers, sig, lr, xs, ts, e);
    }
  }

  /** A row of zeros has a zero sum of squares. */
  lemma {:induction false} RowSquaresOfZeros(row: seq<real>)
    requires forall k :: 0 <= k < |row| ==> row[k] == 0.0
    ensures RowSquares(row) == 0.0
  {
    if |row| > 0 {
      var m := |row| - 1;
      RowSquaresOfZeros(row[..m]);
    }
  }

  /** A grid of zeros has a zero sum of squares. */
  lemma {:induction false} SquareSumOfZeros(cells: seq<seq<real>>)
    requires forall i, k :: 0 <= i < |cells| && 0 <= k < |cells[i]| ==> cells[i][k] == 0.0
    ensures SquareSum(cells) == 0.0
  {
    if |cells| > 0 {
      var m := |cells| - 1;
      SquareSumOfZeros(cells[..m]);
      RowSquaresOfZeros(cells[m]);
    }
  }

  /** A sample whose `forward` output is its target has zero squared error. */
  lemma SampleLossAtExactFit(ws: seq<Mat>, bs: seq<Mat>, sig: real -> real, x: Mat, t: Mat)
    requires WellFormedNet(ws, bs) && WellFormed(x) && WellFormed(t)
    requires Run(ws, bs, sig, x, |ws|) == Ok(t)
    ensures SampleLoss(ws, bs, sig, x, t) == Ok(0.0)
  {
    SquareSumOfZeros(Minus(t, t).cells);
  }

  /** A zero sum so far plus a zero sample loss is a zero sum. */
  lemma LossStep(ws: seq<Mat>, bs: seq<Mat>, sig: real -> real, xs: seq<Mat>, ts: seq<Mat>, m: nat)
    requires WellFormedNet(ws, bs)
    requires m < |xs| && TestData(xs, ts)
    requires LossUpTo(ws, bs, sig, xs, ts, m) == Ok(0.0)
    requires SampleLoss(ws, bs, sig, xs[m], ts[m]) == Ok(0.0)
    ensures LossUpTo(ws, bs, sig, xs, ts, m + 1) == Ok(0.0)
  {
  }

  /** The summed loss of exactly fitted samples is zero. */
  lemma {:induction false} LossAtExactFit(ws: seq<Mat>, bs: seq<Mat>, sig: real -> real, xs: seq<Mat>, ts: seq<Mat>, n: nat)
    requires WellFormedNet(ws, bs)
    requires n <= |xs| && TestData(xs, ts)
    requires forall s :: 0 <= s < n ==> Run(ws, bs, sig, xs[s], |ws|) == Ok(ts[s])
    ensures LossUpTo(ws, bs, sig, xs, ts, n) == Ok(0.0)
  {
    if n > 0 {
      var m := n - 1;
      LossAtExactFit(ws, bs, sig, xs, ts, m);
      SampleLossAtExactFit(ws, bs, sig, xs[m], ts[m]);
      LossStep(ws, bs, sig, xs, ts, m);
    }
  }

  /** `evaluate` returns exactly 0 on a network that reproduces every target. */
  lemma EvaluateZeroAtExactFit(ws: seq<Mat>, bs: seq<Mat>, sig: real -> real, xs: seq<Mat>, ts: seq<Mat>)
    requires WellFormedNet(ws, bs)
    requires 0 < |xs| && TestData(xs, ts)
    requires forall s :: 0 <= s < |xs| ==> Run(ws, bs, sig, xs[s], |ws|) == Ok(ts[s])
    ensures MeanLoss(ws, bs, sig, xs, ts) == Ok(0.0)
  {
    var n := |xs|;
    LossAtExactFit(ws, bs, sig, xs, ts, n);
  }

  /**
   * One pass of `evaluate`'s sample loop: a sample that does not throw
   * extends the running total, and one that throws is what `evaluate` throws.
   */
  lemma EvaluateStep(ws: seq<Mat>, bs: seq<Mat>, sig: real -> real, xs: seq<Mat>, ts: seq<Mat>,
                     m: nat, total: real, step: Result<real>)
    requires WellFormedNet(ws, bs)
    requires m < |xs| && TestData(xs, ts)
    requires LossUpTo(ws, bs, sig, xs, ts, m) == Ok(total)
    requires step == AddLoss(total, SampleLoss(ws, bs, sig, xs[m], ts[m]))
    ensures step.Ok? ==> LossUpTo(ws, bs, sig, xs, ts, m + 1) == step
    ensures step.Err? ==> MeanLoss(ws, bs, sig, xs, ts) == step
  {
    assert LossUpTo(ws, bs, sig, xs, ts, m + 1) == step;
    if step.Err? {
      var k := m + 1;
      LossStaysFailed(ws, bs, sig, xs, ts, k, |xs|);
    }
  }

  /** `evaluate` divides the summed loss by the number of samples. */
  lemma MeanOfTotal(ws: seq<Mat>, bs: seq<Mat>, sig: real -> real, xs: seq<Mat>, ts: seq<Mat>, total: real)
    requires WellFormedNet(ws, bs)
    requires 0 < |xs| && TestData(xs, ts)
    requires LossUpTo(ws, bs, sig, xs, ts, |xs|) == Ok(total)
    ensures MeanLoss(ws, bs, sig, xs, ts) == Ok(Mean(total, |xs|))
  {
  }

  /** A thrown exception is passed on by the next sample of `evaluate`. */
  lemma LossFailStep(ws: seq<Mat>, bs: seq<Mat>, sig: real -> real, xs: seq<Mat>, ts: seq<Mat>, m: nat, n: nat)
    requires WellFormedNet(ws, bs)
    requires n == m + 1 && n <= |xs| && TestData(xs, ts)
    requires LossUpTo(ws, bs, sig, xs, ts, m).Err?
    ensures LossUpTo(ws, bs, sig, xs, ts, n) == LossUpTo(ws, bs, sig, xs, ts, m)
  {
  }

  /** Once a sample has thrown, `evaluate` throws the same exception. */
  lemma {:induction false} LossStaysFailed(ws: seq<Mat>, bs: seq<Mat>, sig: real -> real, xs: seq<Mat>, ts: seq<Mat>, k: nat, n: nat)
    requires WellFormedNet(ws, bs)
    requires k <= n <= |xs| && TestData(xs, ts)
    requires LossUpTo(ws, bs, sig, xs, ts, k).Err?
    ensures LossUpTo(ws, bs, sig, xs, ts, n) == LossUpTo(ws, bs, sig, xs, ts, k)
    decreases n
  {
    if n > k {
      var m := n - 1;
      LossStaysFailed(ws, bs, sig, xs, ts, k, m);
      LossFailStep(ws, bs, sig, xs, ts, m, n);
    }
  }

  /** A thrown exception is passed on by the next sample of `calculateAccuracy`. */
  lemma CorrectFailStep(ws: seq<Mat>, bs: seq<Mat>, sig: real -> real, xs: seq<Mat>, ts: seq<Mat>, threshold: real, m: nat, n: nat)
    requires WellFormedNet(ws, bs)
    requires n == m + 1 && n <= |xs| && TestData(xs, ts)
    requires CorrectUpTo(ws, bs, sig, xs, ts, threshold, m).Err?
    ensures CorrectUpTo(ws, bs, sig, xs, ts, threshold, n) == CorrectUpTo(ws, bs, sig, xs, ts, threshold, m)
  {
  }

  /** Once a sample has thrown, `calculateAccuracy` throws the same exception. */
  lemma {:induction false} CorrectStaysFailed(ws: seq<Mat>, bs: seq<Mat>, sig: real -> real, xs: seq<Mat>, ts: seq<Mat>,
                                             threshold: real, k: nat, n: nat)
    requires WellFormedNet(ws, bs)
    requires k <= n <= |xs| && TestData(xs, ts)
    requires CorrectUpTo(ws, bs, sig, xs, ts, threshold, k).Err?
    ensures CorrectUpTo(ws, bs, sig, xs, ts, threshold, n) == CorrectUpTo(ws, bs, sig, xs, ts, threshold, k)
    decreases n
  {
    if n > k {
      var m := n - 1;
      CorrectStaysFailed(ws, bs, sig, xs, ts, threshold, k, m);
      CorrectFailStep(ws, bs, sig, xs, ts, threshold, m, n);
    }
  }

  /**
   * One pass of `calculateAccuracy`'s sample loop: a sample that does not
   * throw updates the count, and one that throws is what `calculateAccuracy`
   * throws.
   */
  lemma AccuracyStep(ws: seq<Mat>, bs: seq<Mat>, sig: real -> real, xs: seq<Mat>, ts: seq<Mat>,
                     threshold: real, m: nat, c: nat, correct: Result<bool>)
    requires WellFormedNet(ws, bs)
    requires m < |xs| && TestData(xs, ts)
    requires CorrectUpTo(ws, bs, sig, xs, ts, threshold, m) == Ok(c)
    requires correct == SampleCorrect(ws, bs, sig, xs[m], ts[m], threshold)
    ensures correct.Ok? ==> CorrectUpTo(ws, bs, sig, xs, ts, threshold, m + 1) == Ok(if correct.value then c + 1 else c)
    ensures correct.Err? ==> Accuracy(ws, bs, sig, xs, ts, threshold) == Err(correct.error)
  {
    assert CorrectUpTo(ws, bs, sig, xs, ts, threshold, m + 1) == AddCorrect(c, correct);
    if correct.Err? {
      var k := m + 1;
      CorrectStaysFailed(ws, bs, sig, xs, ts, threshold, k, |xs|);
    }
  }

  /** `calculateAccuracy` divides the count by the number of samples. */
  lemma AccuracyOfCount(ws: seq<Mat>, bs: seq<Mat>, sig: real -> real, xs: seq<Mat>, ts: seq<Mat>, threshold: real, c: nat)
    requires WellFormedNet(ws, bs)
    requires 0 < |xs| && TestData(xs, ts)
    requires CorrectUpTo(ws, bs, sig, xs, ts, threshold, |xs|) == Ok(c)
    ensures Accuracy(ws, bs, sig, xs, ts, threshold) == Ok(Mean(c as real, |xs|))
  {
  }

  /** A sample counts exactly when every output row is correct: one wrong row spoils it. */
  lemma {:induction false} AllOrNothing(out: Mat, t: Mat, threshold: real, m: nat, i: nat)
    requires Shaped(out, m, 1) && Shaped(t, m, 1) && i <= m
    ensures RowsMatch(out, t, threshold, i) == Ok(forall k :: i <= k < m ==> RowCorrect(out, t, threshold, k))
    decreases m - i
  {
    if i < m {
      AllOrNothing(out, t, threshold, m, i + 1);
    }
  }

  /** Two output units, one right and one wrong: the sample is not counted. */
  lemma OneWrongBitFailsSample()
    ensures RowsMatch(Column([0.9, 0.9]), Column([1.0, 0.0]), 0.5, 0) == Ok(false)
  {
    AllOrNothing(Column([0.9, 0.9]), Column([1.0, 0.0]), 0.5, 2, 0);
    assert !RowCorrect(Column([0.9, 0.9]), Column([1.0, 0.0]), 0.5, 1);
  }
}
