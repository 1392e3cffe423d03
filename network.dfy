/**
 * The `MLP<double>` object: its weights and biases are fields that training
 * overwrites in place, and every method is proved to compute the matching
 * function of module NetworkSpec on the current parameters.
 */
module Network {
  import opened Failures
  import opened Matrices
  import opened NetworkSpec
  import opened NetworkFacts

  class MLP {
    var weights: seq<Mat>
    var biases: seq<Mat>
    const layerSizes: seq<nat>
    const learningRate: real
    /** The activation 1 / (1 + exp(-x)), left abstract. */
    const sigmoid: real -> real

    /** One weight matrix and one bias column per pair of adjacent layers. */
    predicate Valid()
      reads this
    {
      NetShaped(weights, biases, layerSizes)
    }

    function Parameters(): Params
      reads this
    {
      Params(weights, biases)
    }

    /** Draw (j, k) of matrix i, as the fill of matrix i. */
    static function LayerDraw(draw: (nat, nat, nat) -> real, i: nat): (nat, nat) -> real
    {
      (j: nat, k: nat) => draw(i, j, k)
    }

    /**
     * `MLP(layers, lr)`: for every pair of adjacent layers a layers[i + 1] x
     * layers[i] weight matrix and a layers[i + 1] x 1 bias column, both filled
     * by `randomize` with values in [-1, 1]. The uniform draws are the
     * parameters wDraw and bDraw (draw (j, k) of matrix i).
     */
    constructor (layers: seq<nat>, lr: real, sig: real -> real,
                 wDraw: (nat, nat, nat) -> real, bDraw: (nat, nat, nat) -> real)
      requires |layers| >= 1
      requires forall i, j, k :: -1.0 <= wDraw(i, j, k) <= 1.0 && -1.0 <= bDraw(i, j, k) <= 1.0
      ensures Valid() && layerSizes == layers && learningRate == lr && sigmoid == sig
      ensures forall i :: 0 <= i < |weights| ==> weights[i] == Tabulate(layers[i + 1], layers[i], LayerDraw(wDraw, i))
      ensures forall i :: 0 <= i < |biases| ==> biases[i] == Tabulate(layers[i + 1], 1, LayerDraw(bDraw, i))
    {
      layerSizes, learningRate, sigmoid := layers, lr, sig;
      var ws: seq<Mat> := [];
      var bs: seq<Mat> := [];
      for i := 0 to |layers| - 1
        invariant |ws| == i && |bs| == i
        invariant forall m :: 0 <= m < i ==> ws[m] == Tabulate(layers[m + 1], layers[m], LayerDraw(wDraw, m))
        invariant forall m :: 0 <= m < i ==> bs[m] == Tabulate(layers[m + 1], 1, LayerDraw(bDraw, m))
      {
        var w := RandomMatrix(layers[i + 1], layers[i], LayerDraw(wDraw, i));
        var b := RandomMatrix(layers[i + 1], 1, LayerDraw(bDraw, i));
        ws := ws + [w];
        bs := bs + [b];
      }
      weights, biases := ws, bs;
    }

    /** One parameter matrix of the constructor: `Matrix(rows, cols)`, then `randomize(-1, 1)`. */
    static method RandomMatrix(rows: nat, cols: nat, draw: (nat, nat) -> real) returns (m: Mat)
      requires forall j, k :: -1.0 <= draw(j, k) <= 1.0
      ensures m == Tabulate(rows, cols, draw)
    {
      var matrix := new Matrix(rows, cols);
      matrix.Randomize(draw, -1.0, 1.0);
      m := matrix.Value();
    }

    /** `sigmoid`: a fresh matrix of the same shape with sigmoid applied to every entry. */
    method Sigmoid(input: Mat) returns (r: Mat)
      requires WellFormed(input)
      ensures r == Activate(input, sigmoid)
    {
      ghost var spec := Activate(input, sigmoid);
      var result := new Matrix(input.rows, input.cols);
      for i := 0 to input.rows
        invariant result.Valid() && result.rows == spec.rows && result.cols == spec.cols
        invariant forall p, q :: 0 <= p < i && 0 <= q < spec.cols ==> result.data[p][q] == spec.cells[p][q]
      {
        for j := 0 to input.cols
          invariant result.Valid() && result.rows == spec.rows && result.cols == spec.cols
          invariant forall p, q :: 0 <= p < i && 0 <= q < spec.cols ==> result.data[p][q] == spec.cells[p][q]
          invariant forall q :: 0 <= q < j ==> result.data[i][q] == spec.cells[i][q]
        {
          var o := result.Set(i, j, sigmoid(input.cells[i][j]));
        }
      }
      r := result.Value();
      Ext(r, spec);
    }

    /** `sigmoidDerivative`: s * (1 - s) for every entry s of a sigmoid output. */
    static method SigmoidDerivative(output: Mat) returns (r: Mat)
      requires WellFormed(output)
      ensures r == SigmoidSlope(output)
    {
      ghost var spec := SigmoidSlope(output);
      var result := new Matrix(output.rows, output.cols);
      for i := 0 to output.rows
        invariant result.Valid() && result.rows == spec.rows && result.cols == spec.cols
        invariant forall p, q :: 0 <= p < i && 0 <= q < spec.cols ==> result.data[p][q] == spec.cells[p][q]
      {
        for j := 0 to output.cols
          invariant result.Valid() && result.rows == spec.rows && result.cols == spec.cols
          invariant forall p, q :: 0 <= p < i && 0 <= q < spec.cols ==> result.data[p][q] == spec.cells[p][q]
          invariant forall q :: 0 <= q < j ==> result.data[i][q] == spec.cells[i][q]
        {
          var s := output.cells[i][j];
          var o := result.Set(i, j, s * (1.0 - s));
        }
      }
      r := result.Value();
      Ext(r, spec);
    }

    /**
     * `forward`: sigmoid(weights[i] * a + biases[i]) layer after layer; a
     * shape mismatch throws `invalid_argument` from the product or the sum.
     */
    method Forward(input: Mat) returns (r: Result<Mat>)
      requires WellFormedNet(weights, biases) && WellFormed(input)
      ensures r == Run(weights, biases, sigmoid, input, |weights|)
    {
      var activation := input;
      for i := 0 to |weights|
        invariant Run(weights, biases, sigmoid, input, i) == Ok(activation)
      {
        var product := TryMul(weights[i], activation);
        if product.Err? {
          RunStaysFailed(weights, biases, sigmoid, input, i + 1, |weights|);
          return Err(product.error);
        }
        var linear := TryAdd(product.value, biases[i]);
        if linear.Err? {
          RunStaysFailed(weights, biases, sigmoid, input, i + 1, |weights|);
          return Err(linear.error);
        }
        activation := Sigmoid(linear.value);
      }
      r := Ok(activation);
    }

    // ----------------------------------------------------------- training

    /**
     * The forward pass of one training sample, keeping the input and the
     * output of every layer. On a well-shaped network and input no product
     * or sum can throw.
     */
    method ForwardCached(x: Mat) returns (acts: seq<Mat>)
      requires Valid() && Shaped(x, layerSizes[0], 1)
      ensures acts == Acts(weights, biases, layerSizes, sigmoid, x)
    {
      var ws, bs := weights, biases;
      ghost var spec := Acts(ws, bs, layerSizes, sigmoid, x);
      var activation := x;
      acts := [activation];
      for i := 0 to |ws|
        invariant acts == spec[..i + 1] && activation == spec[i]
      {
        var linear := Plus(Times(ws[i], activation), bs[i]);
        activation := Sigmoid(linear);
        acts := acts + [activation];
      }
    }

    /** The output delta: entry (i, j) is 2 * error(i, j) * sigmoidDerivative(output)(i, j). */
    static method OutputDeltaOf(error: Mat, output: Mat) returns (d: Mat)
      requires WellFormed(error) && WellFormed(output) && SameShape(error, output)
      ensures d == OutputDelta(error, output)
    {
      var deriv := SigmoidDerivative(output);
      ghost var spec := OutputDelta(error, output);
      var result := new Matrix(error.rows, error.cols);
      for i := 0 to error.rows
        invariant result.Valid() && result.rows == spec.rows && result.cols == spec.cols
        invariant forall p :: 0 <= p < i ==> result.data[p] == spec.cells[p]
      {
        ghost var before := result.data;
        for j := 0 to error.cols
          invariant result.Valid() && result.rows == spec.rows && result.cols == spec.cols
          invariant forall p :: 0 <= p < spec.rows && p != i ==> result.data[p] == before[p]
          invariant forall q :: 0 <= q < j ==> result.data[i][q] == spec.cells[i][q]
        {
          var o := result.Set(i, j, 2.0 * error.cells[i][j] * deriv.cells[i][j]);
        }
        assert result.data[i] == spec.cells[i];
      }
      d := result.Value();
      assert d.cells == spec.cells;
    }

    /**
     * A hidden delta: entry j is the sum over k of w(k, j) * next(k, 0), taken
     * from k = 0 upwards, times sigmoidDerivative(act)(j, 0).
     */
    static method HiddenDeltaOf(w: Mat, next: Mat, act: Mat) returns (d: Mat)
      requires WellFormed(w) && Shaped(next, w.rows, 1) && Shaped(act, w.cols, 1)
      ensures d == HiddenDelta(w, next, act)
    {
      var deriv := SigmoidDerivative(act);
      ghost var spec := HiddenDelta(w, next, act);
      var result := new Matrix(w.cols, 1);
      for j := 0 to w.cols
        invariant result.Valid() && result.rows == spec.rows && result.cols == 1
        invariant forall q :: 0 <= q < j ==> result.data[q][0] == spec.cells[q][0]
      {
        var sum := WeightedSum(w, next, j);
        var o := result.Set(j, 0, sum * deriv.cells[j][0]);
      }
      d := result.Value();
      Ext(d, spec);
    }

    /** The inner loop of a hidden delta: w(k, j) * next(k, 0) summed from k = 0 upwards. */
    static method WeightedSum(w: Mat, next: Mat, j: nat) returns (sum: real)
      requires WellFormed(w) && Shaped(next, w.rows, 1) && j < w.cols
      ensures sum == BackSum(w, next, j, w.rows)
    {
      sum := 0.0;
      for k := 0 to w.rows
        invariant sum == BackSum(w, next, j, k)
      {
        sum := sum + w.cells[k][j] * next.cells[k][0];
      }
    }

    /**
     * Backpropagation of one sample: the output delta from the error
     * output - target, then every earlier delta from the one after it, from
     * the last hidden layer down to the first.
     */
    method BackPropagate(acts: seq<Mat>, t: Mat) returns (ds: seq<Mat>)
      requires Valid() && |weights| >= 1 && ColumnsFor(acts, layerSizes) && Shaped(t, Last(layerSizes), 1)
      ensures ds == Deltas(weights, layerSizes, acts, t)
    {
      ghost var spec := Deltas(weights, layerSizes, acts, t);
      var n := |weights|;
      var error := Minus(acts[n], t);
      var dOut := OutputDeltaOf(error, acts[n]);
      ds := seq(n, _ => Mat(0, 0, []));
      ds := ds[n - 1 := dOut];
      var i := n - 2;
      while i >= 0
        invariant -1 <= i <= n - 2 && |ds| == n
        invariant forall m :: i < m < n ==> ds[m] == spec[m]
      {
        var d := HiddenDeltaOf(weights[i + 1], ds[i + 1], acts[i + 1]);
        ds := ds[i := d];
        i := i - 1;
      }
      assert forall m :: 0 <= m < n ==> ds[m] == spec[m];
    }

    /** Row j of one layer's accumulation: weight gradient (j, k) grows by delta(j, 0) * act(k, 0). */
    static method AccumulateRow(gw: Mat, delta: Mat, act: Mat, j: nat) returns (r: seq<real>)
      requires WellFormed(gw) && Shaped(delta, gw.rows, 1) && Shaped(act, gw.cols, 1) && j < gw.rows
      ensures r == Plus(gw, Outer(delta, act)).cells[j]
    {
      ghost var spec := Plus(gw, Outer(delta, act)).cells[j];
      r := gw.cells[j];
      for k := 0 to gw.cols
        invariant |r| == gw.cols
        invariant forall q :: 0 <= q < k ==> r[q] == spec[q]
        invariant forall q :: k <= q < gw.cols ==> r[q] == gw.cells[j][q]
      {
        var gradient := delta.cells[j][0] * act.cells[k][0];
        r := r[k := r[k] + gradient];
      }
    }

    /**
     * One layer's accumulation: weight gradient (j, k) grows by
     * delta(j, 0) * act(k, 0) and bias gradient j by delta(j, 0).
     */
    static method AccumulateLayer(gw: Mat, gb: Mat, delta: Mat, act: Mat) returns (rw: Mat, rb: Mat)
      requires WellFormed(gw) && Shaped(gb, gw.rows, 1) && Shaped(delta, gw.rows, 1) && Shaped(act, gw.cols, 1)
      ensures rw == Plus(gw, Outer(delta, act)) && rb == Plus(gb, delta)
    {
      ghost var sw, sb := Plus(gw, Outer(delta, act)), Plus(gb, delta);
      rw, rb := gw, gb;
      for j := 0 to gw.rows
        invariant rw.rows == gw.rows && rw.cols == gw.cols && |rw.cells| == gw.rows && Shaped(rb, gw.rows, 1)
        invariant forall p :: 0 <= p < j ==> rw.cells[p] == sw.cells[p]
        invariant forall p :: j <= p < gw.rows ==> rw.cells[p] == gw.cells[p]
        invariant forall p :: 0 <= p < j ==> rb.cells[p][0] == sb.cells[p][0]
        invariant forall p :: j <= p < gw.rows ==> rb.cells[p] == gb.cells[p]
      {
        var row := AccumulateRow(gw, delta, act, j);
        rw := rw.(cells := rw.cells[j := row]);
        rb := SetCell(rb, j, 0, rb.cells[j][0] + delta.cells[j][0]);
      }
      assert rw.cells == sw.cells;
      Ext(rb, sb);
    }

    /** Adding one sample's deltas and activations to the gradient accumulators, layer by layer. */
    method AddGradients(g: Grads, ds: seq<Mat>, acts: seq<Mat>) returns (r: Grads)
      requires NetShaped(g.w, g.b, layerSizes) && ColumnsFor(acts, layerSizes) && ColumnPerStep(ds, layerSizes)
      ensures r == Accumulate(g, ds, acts, layerSizes)
    {
      ghost var spec := Accumulate(g, ds, acts, layerSizes);
      var gw, gb := g.w, g.b;
      for i := 0 to |g.w|
        invariant |gw| == |g.w| && |gb| == |g.b|
        invariant forall m :: 0 <= m < i ==> gw[m] == spec.w[m] && gb[m] == spec.b[m]
        invariant forall m :: i <= m < |g.w| ==> gw[m] == g.w[m] && gb[m] == g.b[m]
      {
        var w, b := AccumulateLayer(gw[i], gb[i], ds[i], acts[i]);
        gw, gb := gw[i := w], gb[i := b];
      }
      r := Grads(gw, gb);
    }

    /** Fresh zero accumulators, one per weight matrix and one per bias column. */
    method ZeroGradients() returns (g: Grads)
      requires Valid()
      ensures g == ZeroGrads(weights, biases, layerSizes)
    {
      var gw: seq<Mat> := [];
      var gb: seq<Mat> := [];
      for i := 0 to |weights|
        invariant |gw| == i && |gb| == i
        invariant forall m :: 0 <= m < i ==>
                    gw[m] == Zeros(weights[m].rows, weights[m].cols) && gb[m] == Zeros(biases[m].rows, biases[m].cols)
      {
        var w := new Matrix(weights[i].rows, weights[i].cols);
        var b := new Matrix(biases[i].rows, biases[i].cols);
        gw := gw + [w.Value()];
        gb := gb + [b.Value()];
      }
      g := Grads(gw, gb);
    }

    /** The gradients of all training samples, summed in order. */
    method SumGradients(xs: seq<Mat>, ts: seq<Mat>) returns (g: Grads)
      requires Valid() && |weights| >= 1 && SamplesFit(xs, ts, layerSizes)
      ensures g == GradSum(weights, biases, layerSizes, sigmoid, xs, ts, |xs|)
    {
      g := ZeroGradients();
      for sample := 0 to |xs|
        invariant g == GradSum(weights, biases, layerSizes, sigmoid, xs, ts, sample)
      {
        var acts := ForwardCached(xs[sample]);
        var ds := BackPropagate(acts, ts[sample]);
        g := AddGradients(g, ds, acts);
      }
    }

    /** Row j of one layer's update: every entry p becomes p - learningRate * (gradient * (1 / count)). */
    method DescendRow(w: Mat, gw: Mat, j: nat, count: real) returns (r: seq<real>)
      requires WellFormed(w) && Shaped(gw, w.rows, w.cols) && j < w.rows && count != 0.0
      ensures r == Descend(w, gw, learningRate, count).cells[j]
    {
      ghost var spec := Descend(w, gw, learningRate, count).cells[j];
      r := w.cells[j];
      for k := 0 to w.cols
        invariant |r| == w.cols
        invariant forall q :: 0 <= q < k ==> r[q] == spec[q]
        invariant forall q :: k <= q < w.cols ==> r[q] == w.cells[j][q]
      {
        var avgGradient := gw.cells[j][k] * (1.0 / count);
        r := r[k := r[k] - learningRate * avgGradient];
      }
    }

    /** One layer's update: every entry p becomes p - learningRate * (gradient * (1 / count)). */
    method DescendLayer(w: Mat, b: Mat, gw: Mat, gb: Mat, count: real) returns (rw: Mat, rb: Mat)
      requires WellFormed(w) && Shaped(b, w.rows, 1) && Shaped(gw, w.rows, w.cols) && Shaped(gb, w.rows, 1)
      requires count != 0.0
      ensures rw == Descend(w, gw, learningRate, count) && rb == Descend(b, gb, learningRate, count)
    {
      ghost var sw, sb := Descend(w, gw, learningRate, count), Descend(b, gb, learningRate, count);
      rw, rb := w, b;
      for j := 0 to w.rows
        invariant rw.rows == w.rows && rw.cols == w.cols && |rw.cells| == w.rows && Shaped(rb, w.rows, 1)
        invariant forall p :: 0 <= p < j ==> rw.cells[p] == sw.cells[p]
        invariant forall p :: j <= p < w.rows ==> rw.cells[p] == w.cells[p]
        invariant forall p :: 0 <= p < j ==> rb.cells[p] == sb.cells[p]
        invariant forall p :: j <= p < w.rows ==> rb.cells[p] == b.cells[p]
      {
        var row := DescendRow(w, gw, j, count);
        rw := rw.(cells := rw.cells[j := row]);
        // the bias column is a one-column matrix: its row j is the single avgBiasGradient update
        var biasRow := DescendRow(b, gb, j, count);
        rb := rb.(cells := rb.cells[j := biasRow]);
      }
      assert rw.cells == sw.cells;
      assert rb.cells == sb.cells;
    }

    /** The update at the end of an epoch: every weight and bias moved against its averaged gradient. */
    method ApplyGradients(g: Grads, count: real)
      requires Valid() && NetShaped(g.w, g.b, layerSizes) && count != 0.0
      modifies this
      ensures Valid()
      ensures weights == DescendAll(old(weights), g.w, learningRate, count)
      ensures biases == DescendAll(old(biases), g.b, learningRate, count)
    {
      ghost var w0, b0 := weights, biases;
      for i := 0 to |weights|
        invariant |weights| == |w0| && |biases| == |b0|
        invariant forall m :: 0 <= m < i ==>
                    weights[m] == Descend(w0[m], g.w[m], learningRate, count) &&
                    biases[m] == Descend(b0[m], g.b[m], learningRate, count)
        invariant forall m :: i <= m < |w0| ==> weights[m] == w0[m] && biases[m] == b0[m]
      {
        var w, b := DescendLayer(weights[i], biases[i], g.w[i], g.b[i], count);
        weights, biases := weights[i := w], biases[i := b];
      }
    }

    /** One epoch of `trainWithValidation`: zero the accumulators, add every sample, update. */
    method RunEpoch(xs: seq<Mat>, ts: seq<Mat>)
      requires Valid() && |layerSizes| >= 2 && SamplesFit(xs, ts, layerSizes) && |xs| > 0
      modifies this
      ensures Valid()
      ensures Parameters() == Epoch(old(Parameters()), layerSizes, sigmoid, learningRate, xs, ts)
    {
      var g := SumGradients(xs, ts);
      var sampleCount := |xs| as real;
      ApplyGradients(g, sampleCount);
    }

    /**
     * `trainWithValidation` with `verbose` false: `epochs` rounds of
     * full-batch gradient descent over the training samples. The validation
     * samples are only read on the verbose path.
     */
    method TrainWithValidation(trainInputs: seq<Mat>, trainTargets: seq<Mat>,
                               valInputs: seq<Mat>, valTargets: seq<Mat>, epochs: int)
      requires Valid() && SamplesFit(trainInputs, trainTargets, layerSizes)
      requires epochs > 0 ==> |trainInputs| > 0 && |layerSizes| >= 2
      modifies this
      ensures Valid()
      ensures Parameters() == Train(old(Parameters()), layerSizes, sigmoid, learningRate,
                                    trainInputs, trainTargets, if epochs < 0 then 0 else epochs)
    {
      ghost var p0 := Parameters();
      var rounds: nat := if epochs < 0 then 0 else epochs;
      for epoch := 0 to rounds
        invariant Valid() && Parameters() == Train(p0, layerSizes, sigmoid, learningRate, trainInputs, trainTargets, epoch)
      {
        RunEpoch(trainInputs, trainTargets);
        TrainOneMore(p0, layerSizes, sigmoid, learningRate, trainInputs, trainTargets, epoch);
      }
    }

    // --------------------------------------------------------- evaluation

    /** The squared entries of e added to total, row by row. */
    static method AddSquares(total: real, e: Mat) returns (r: real)
      requires WellFormed(e)
      ensures r == total + SquareSum(e.cells)
    {
      r := total;
      for i := 0 to e.rows
        invariant r == total + SquareSum(e.cells[..i])
      {
        for j := 0 to e.cols
          invariant r == total + SquareSum(e.cells[..i]) + RowSquares(e.cells[i][..j])
        {
          r := r + e.cells[i][j] * e.cells[i][j];
          assert e.cells[i][..j + 1][..j] == e.cells[i][..j];
        }
        assert e.cells[..i + 1][..i] == e.cells[..i];
        assert e.cells[i][..e.cols] == e.cells[i];
      }
      assert e.cells[..e.rows] == e.cells;
    }

    /**
     * The body of `evaluate`'s sample loop: `forward`, the error output -
     * target, and its squared entries added to the running total.
     */
    method AddSampleLoss(total: real, x: Mat, t: Mat) returns (r: Result<real>)
      requires WellFormedNet(weights, biases) && WellFormed(x) && WellFormed(t)
      ensures r == AddLoss(total, SampleLoss(weights, biases, sigmoid, x, t))
    {
      var output := Forward(x);
      if output.Err? {
        return Err(output.error);
      }
      var error := TrySub(output.value, t);
      if error.Err? {
        return Err(error.error);
      }
      var sum := AddSquares(total, error.value);
      r := Ok(sum);
    }

    /**
     * One pass of the sample loop of `evaluate`: the running total after
     * sample m, or the exception that ends `evaluate`.
     */
    method LossSample(testInputs: seq<Mat>, testTargets: seq<Mat>, m: nat, total: real) returns (r: Result<real>)
      requires WellFormedNet(weights, biases)
      requires m < |testInputs| && TestData(testInputs, testTargets)
      requires LossUpTo(weights, biases, sigmoid, testInputs, testTargets, m) == Ok(total)
      ensures r.Ok? ==> LossUpTo(weights, biases, sigmoid, testInputs, testTargets, m + 1) == r
      ensures r.Err? ==> MeanLoss(weights, biases, sigmoid, testInputs, testTargets) == r
    {
      r := AddSampleLoss(total, testInputs[m], testTargets[m]);
      EvaluateStep(weights, biases, sigmoid, testInputs, testTargets, m, total, r);
    }

    /**
     * The sample loop of `evaluate`: the squared errors of `forward` summed
     * in order; the first exception of `forward` or of `-` ends it.
     */
    method TotalLoss(testInputs: seq<Mat>, testTargets: seq<Mat>) returns (r: Result<real>)
      requires WellFormedNet(weights, biases)
      requires 0 < |testInputs| && TestData(testInputs, testTargets)
      ensures r.Ok? ==> LossUpTo(weights, biases, sigmoid, testInputs, testTargets, |testInputs|) == r
      ensures r.Err? ==> MeanLoss(weights, biases, sigmoid, testInputs, testTargets) == r
    {
      ghost var ws, bs := weights, biases;
      var totalLoss := 0.0;
      for sample := 0 to |testInputs|
        invariant LossUpTo(ws, bs, sigmoid, testInputs, testTargets, sample) == Ok(totalLoss)
      {
        var step := LossSample(testInputs, testTargets, sample, totalLoss);
        if step.Err? {
          return step;
        }
        totalLoss := step.value;
      }
      r := Ok(totalLoss);
    }

    /** `evaluate`: the summed squared error of `forward` divided by the number of samples. */
    method Evaluate(testInputs: seq<Mat>, testTargets: seq<Mat>) returns (r: Result<real>)
      requires WellFormedNet(weights, biases)
      requires 0 < |testInputs| && TestData(testInputs, testTargets)
      ensures r == MeanLoss(weights, biases, sigmoid, testInputs, testTargets)
    {
      var total := TotalLoss(testInputs, testTargets);
      if total.Err? {
        return total;
      }
      MeanOfTotal(weights, biases, sigmoid, testInputs, testTargets, total.value);
      r := Ok(Mean(total.value, |testInputs|));
    }

    /**
     * The row check of `calculateAccuracy`: false at the first row whose
     * thresholded output is more than 0.1 from its target; `out_of_range`
     * when column 0 of a row is missing from the output or the target.
     */
    static method RowsAgree(output: Mat, target: Mat, threshold: real) returns (r: Result<bool>)
      requires WellFormed(output) && WellFormed(target)
      ensures r == RowsMatch(output, target, threshold, 0)
    {
      var i := 0;
      while i < output.rows
        invariant i <= output.rows
        invariant RowsMatch(output, target, threshold, i) == RowsMatch(output, target, threshold, 0)
      {
        if output.cols == 0 || i >= target.rows || target.cols == 0 {
          return Err(OutOfRange);
        }
        var predicted := Predicted(output.cells[i][0], threshold);
        if Abs(predicted - target.cells[i][0]) > 0.1 {
          return Ok(false);
        }
        i := i + 1;
      }
      r := Ok(true);
    }

    /** Whether one test sample counts: `forward`, then the row check of its output. */
    method CheckSample(x: Mat, t: Mat, threshold: real) returns (r: Result<bool>)
      requires WellFormedNet(weights, biases) && WellFormed(x) && WellFormed(t)
      ensures r == SampleCorrect(weights, biases, sigmoid, x, t, threshold)
    {
      var output := Forward(x);
      if output.Err? {
        return Err(output.error);
      }
      r := RowsAgree(output.value, t, threshold);
    }

    /**
     * One pass of the sample loop of `calculateAccuracy`: after c correct
     * samples among the first m, whether sample m is correct, or its exception.
     */
    method CountSample(testInputs: seq<Mat>, testTargets: seq<Mat>, threshold: real, m: nat, ghost c: nat) returns (r: Result<bool>)
      requires WellFormedNet(weights, biases)
      requires m < |testInputs| && TestData(testInputs, testTargets)
      requires CorrectUpTo(weights, biases, sigmoid, testInputs, testTargets, threshold, m) == Ok(c)
      ensures r.Ok? ==> CorrectUpTo(weights, biases, sigmoid, testInputs, testTargets, threshold, m + 1) == Ok(if r.value then c + 1 else c)
      ensures r.Err? ==> Accuracy(weights, biases, sigmoid, testInputs, testTargets, threshold) == Err(r.error)
    {
      r := CheckSample(testInputs[m], testTargets[m], threshold);
      AccuracyStep(weights, biases, sigmoid, testInputs, testTargets, threshold, m, c, r);
    }

    /**
     * The sample loop of `calculateAccuracy`: the number of samples whose
     * every output row is right, counted in order; the first exception of
     * `forward` or of an entry read ends it.
     */
    method CountCorrect(testInputs: seq<Mat>, testTargets: seq<Mat>, threshold: real) returns (r: Result<real>)
      requires WellFormedNet(weights, biases)
      requires 0 < |testInputs| && TestData(testInputs, testTargets)
      ensures r.Ok? ==>
                && CorrectUpTo(weights, biases, sigmoid, testInputs, testTargets, threshold, |testInputs|).Ok?
                && r.value == CorrectUpTo(weights, biases, sigmoid, testInputs, testTargets, threshold, |testInputs|).value as real
      ensures r.Err? ==> Accuracy(weights, biases, sigmoid, testInputs, testTargets, threshold) == r
    {
      ghost var ws, bs := weights, biases;
      var correct := 0.0;
      ghost var count: nat := 0;
      for sample := 0 to |testInputs|
        invariant CorrectUpTo(ws, bs, sigmoid, testInputs, testTargets, threshold, sample) == Ok(count)
        invariant correct == count as real
      {
        var allCorrect := CountSample(testInputs, testTargets, threshold, sample, count);
        if allCorrect.Err? {
          return Err(allCorrect.error);
        }
        if allCorrect.value {
          correct := correct + 1.0;
          count := count + 1;
        }
      }
      r := Ok(correct);
    }

    /**
     * `calculateAccuracy`: the number of samples whose every output row is
     * right, divided by the number of samples.
     */
    method CalculateAccuracy(testInputs: seq<Mat>, testTargets: seq<Mat>, threshold: real) returns (r: Result<real>)
      requires WellFormedNet(weights, biases)
      requires 0 < |testInputs| && TestData(testInputs, testTargets)
      ensures r == Accuracy(weights, biases, sigmoid, testInputs, testTargets, threshold)
    {
      var correct := CountCorrect(testInputs, testTargets, threshold);
      if correct.Err? {
        return correct;
      }
      ghost var c := CorrectUpTo(weights, biases, sigmoid, testInputs, testTargets, threshold, |testInputs|).value;
      AccuracyOfCount(weights, biases, sigmoid, testInputs, testTargets, threshold, c);
      r := Ok(Mean(correct.value, |testInputs|));
    }
  }
}
