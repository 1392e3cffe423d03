/**
 * The arithmetic of the multilayer perceptron as functions of its parameters:
 * the forward pass, the backward pass, the full-batch gradient and the update,
 * the mean squared error and the all-or-nothing accuracy. The class `MLP` in
 * module Network is proved to compute exactly these.
 *
 * The sigmoid 1 / (1 + exp(-x)) is floating point in the source; here it is
 * the parameter `sig`, about which nothing is assumed.
 */
module NetworkSpec {
  import opened Failures
  import opened Matrices

  function Last(layers: seq<nat>): nat
    requires |layers| > 0
  {
    layers[|layers| - 1]
  }

  /** weights[i] is layers[i + 1] x layers[i]. */
  predicate WeightsShaped(ws: seq<Mat>, layers: seq<nat>) {
    && |layers| >= 1 && |ws| == |layers| - 1
    && forall i {:trigger ws[i]} :: 0 <= i < |ws| ==> Shaped(ws[i], layers[i + 1], layers[i])
  }

  /** bs[i] is a layers[i + 1] x 1 column: the shape of the biases, and of the deltas of one sample. */
  predicate ColumnPerStep(bs: seq<Mat>, layers: seq<nat>) {
    && |layers| >= 1 && |bs| == |layers| - 1
    && forall i {:trigger bs[i]} :: 0 <= i < |bs| ==> Shaped(bs[i], layers[i + 1], 1)
  }

  /** The shape bookkeeping of the network: one weight matrix and one bias column per layer step. */
  predicate NetShaped(ws: seq<Mat>, bs: seq<Mat>, layers: seq<nat>) {
    WeightsShaped(ws, layers) && ColumnPerStep(bs, layers)
  }

  predicate AllWellFormed(ms: seq<Mat>) {
    forall i :: 0 <= i < |ms| ==> WellFormed(ms[i])
  }

  /** Well-formed parameters with one bias column per weight matrix: what `forward` walks through. */
  predicate WellFormedNet(ws: seq<Mat>, bs: seq<Mat>) {
    |ws| == |bs| && AllWellFormed(ws) && AllWellFormed(bs)
  }

  /** Well-formed samples with a target for every input. */
  predicate TestData(xs: seq<Mat>, ts: seq<Mat>) {
    |xs| <= |ts| && AllWellFormed(xs) && AllWellFormed(ts)
  }

  /** acts[m] is a layers[m] x 1 column: the cached activations of one sample. */
  predicate ColumnsFor(acts: seq<Mat>, layers: seq<nat>) {
    |acts| == |layers| && forall m {:trigger acts[m]} :: 0 <= m < |acts| ==> Shaped(acts[m], layers[m], 1)
  }

  /** Every input is a layers[0] column and every target a column as long as the output layer. */
  predicate SamplesFit(xs: seq<Mat>, ts: seq<Mat>, layers: seq<nat>) {
    && |layers| >= 1 && |xs| <= |ts|
    && forall s :: 0 <= s < |xs| ==> Shaped(xs[s], layers[0], 1) && Shaped(ts[s], Last(layers), 1)
  }

  // ---------------------------------------------------------------- forward

  /** `sigmoid`: sig applied to every entry. */
  function Activate(m: Mat, sig: real -> real): (r: Mat)
    requires WellFormed(m)
    ensures Shaped(r, m.rows, m.cols)
    ensures forall i, j :: 0 <= i < m.rows && 0 <= j < m.cols ==> r.cells[i][j] == sig(m.cells[i][j])
  {
    Mat(m.rows, m.cols,
      seq(m.rows, i requires 0 <= i < m.rows =>
        seq(m.cols, j requires 0 <= j < m.cols => sig(m.cells[i][j]))))
  }

  /** The derivative of the sigmoid, written in terms of the sigmoid's output s. */
  function Slope(s: real): real
  {
    s * (1.0 - s)
  }

  lemma NonNegativeProduct(x: real, y: real)
    requires x >= 0.0 && y >= 0.0
    ensures x * y >= 0.0
  {
  }

  /** s * (1 - s) is at most 1/4, and not negative for an s in [0, 1], the range of a sigmoid. */
  lemma SlopeBounds(s: real)
    ensures Slope(s) <= 0.25
    ensures 0.0 <= s <= 1.0 ==> 0.0 <= Slope(s)
  {
    assert 0.25 - Slope(s) == (s - 0.5) * (s - 0.5);
    if 0.0 <= s <= 1.0 {
      NonNegativeProduct(s, 1.0 - s);
    }
  }

  /** `sigmoidDerivative`: s * (1 - s) for every entry s. */
  function SigmoidSlope(m: Mat): (r: Mat)
    requires WellFormed(m)
    ensures Shaped(r, m.rows, m.cols)
    ensures forall i, j :: 0 <= i < m.rows && 0 <= j < m.cols ==> r.cells[i][j] == Slope(m.cells[i][j])
  {
    Mat(m.rows, m.cols,
      seq(m.rows, i requires 0 <= i < m.rows =>
        seq(m.cols, j requires 0 <= j < m.cols => Slope(m.cells[i][j]))))
  }

  /** One step of `forward`: sigmoid(w * a + b), or the exception the product or the sum throws. */
  function Layer(w: Mat, b: Mat, sig: real -> real, a: Mat): (r: Result<Mat>)
    requires WellFormed(w) && WellFormed(b) && WellFormed(a)
    ensures r.Ok? ==> WellFormed(r.value)
  {
    match TryMul(w, a)
    case Err(e) => Err(e)
    case Ok(z) =>
      match TryAdd(z, b)
      case Err(e) => Err(e)
      case Ok(linear) => Ok(Activate(linear, sig))
  }

  /** One layer on operands of matching shapes: sig(w * a + b). */
  function Step(w: Mat, b: Mat, sig: real -> real, a: Mat): (r: Mat)
    requires WellFormed(w) && WellFormed(a) && w.cols == a.rows && Shaped(b, w.rows, a.cols)
    ensures Shaped(r, w.rows, a.cols)
  {
    Activate(Plus(Times(w, a), b), sig)
  }

  /** `forward` through the first n layers: the input itself when n == 0. */
  function Run(ws: seq<Mat>, bs: seq<Mat>, sig: real -> real, x: Mat, n: nat): (r: Result<Mat>)
    requires WellFormedNet(ws, bs) && WellFormed(x) && n <= |ws|
    ensures r.Ok? ==> WellFormed(r.value)
  {
    if n == 0 then Ok(x)
    else
      match Run(ws, bs, sig, x, n - 1)
      case Err(e) => Err(e)
      case Ok(a) => Layer(ws[n - 1], bs[n - 1], sig, a)
  }

  /** The activation after n layers of a well-shaped network on a well-shaped input. */
  function ActAt(ws: seq<Mat>, bs: seq<Mat>, layers: seq<nat>, sig: real -> real, x: Mat, n: nat): (a: Mat)
    requires NetShaped(ws, bs, layers) && Shaped(x, layers[0], 1) && n <= |ws|
    ensures Shaped(a, layers[n], 1)
  {
    if n == 0 then x
    else
      Step(ws[n - 1], bs[n - 1], sig, ActAt(ws, bs, layers, sig, x, n - 1))
  }

  /** The activations cached by training: the input, then the output of every layer. */
  function Acts(ws: seq<Mat>, bs: seq<Mat>, layers: seq<nat>, sig: real -> real, x: Mat): (acts: seq<Mat>)
    requires NetShaped(ws, bs, layers) && Shaped(x, layers[0], 1)
    ensures ColumnsFor(acts, layers) && acts[0] == x
    ensures forall n {:trigger acts[n]} :: 0 <= n <= |ws| ==> acts[n] == ActAt(ws, bs, layers, sig, x, n)
  {
    seq(|ws| + 1, n requires 0 <= n <= |ws| => ActAt(ws, bs, layers, sig, x, n))
  }

  /** m is the zero matrix of its shape. */
  predicate IsZero(m: Mat) {
    m == Zeros(m.rows, m.cols)
  }

  // --------------------------------------------------------------- backward

  /** The output delta: 2 * error * s * (1 - s) entry by entry, s the network's output. */
  function OutputDelta(err: Mat, out: Mat): (d: Mat)
    requires WellFormed(err) && WellFormed(out) && SameShape(err, out)
    ensures Shaped(d, err.rows, err.cols)
    ensures forall i, j :: 0 <= i < err.rows && 0 <= j < err.cols ==>
              d.cells[i][j] == 2.0 * err.cells[i][j] * Slope(out.cells[i][j])
  {
    Mat(err.rows, err.cols,
      seq(err.rows, i requires 0 <= i < err.rows =>
        seq(err.cols, j requires 0 <= j < err.cols => 2.0 * err.cells[i][j] * Slope(out.cells[i][j]))))
  }

  /** The sum over k < n of w[k][j] * d[k][0]: entry j of (transposed w) * d, from k = 0 upwards. */
  function BackSum(w: Mat, d: Mat, j: nat, n: nat): real
    requires WellFormed(w) && Shaped(d, w.rows, 1) && j < w.cols && n <= w.rows
  {
    if n == 0 then 0.0 else BackSum(w, d, j, n - 1) + w.cells[n - 1][j] * d.cells[n - 1][0]
  }

  /**
   * A hidden delta from the next layer's weights w and delta d and this
   * layer's activation: entry j is (sum over k of w[k][j] * d[k][0]) * s_j (1 - s_j).
   */
  function HiddenDelta(w: Mat, d: Mat, act: Mat): (r: Mat)
    requires WellFormed(w) && Shaped(d, w.rows, 1) && Shaped(act, w.cols, 1)
    ensures Shaped(r, w.cols, 1)
    ensures forall j :: 0 <= j < w.cols ==> r.cells[j][0] == BackSum(w, d, j, w.rows) * Slope(act.cells[j][0])
  {
    Mat(w.cols, 1, seq(w.cols, j requires 0 <= j < w.cols => [BackSum(w, d, j, w.rows) * Slope(act.cells[j][0])]))
  }

  /** The delta of layer i: the output delta for the last layer, propagated back for the others. */
  function DeltaAt(ws: seq<Mat>, layers: seq<nat>, acts: seq<Mat>, dOut: Mat, i: nat): (d: Mat)
    requires WeightsShaped(ws, layers) && ColumnsFor(acts, layers)
    requires Shaped(dOut, Last(layers), 1) && i < |ws|
    ensures Shaped(d, layers[i + 1], 1)
    decreases |ws| - i
  {
    if i == |ws| - 1 then dOut
    else HiddenDelta(ws[i + 1], DeltaAt(ws, layers, acts, dOut, i + 1), acts[i + 1])
  }

  /** The error of one sample: the output minus the target. */
  function OutputError(ws: seq<Mat>, layers: seq<nat>, acts: seq<Mat>, t: Mat): (e: Mat)
    requires WeightsShaped(ws, layers) && ColumnsFor(acts, layers) && Shaped(t, Last(layers), 1)
    ensures Shaped(e, Last(layers), 1)
  {
    Minus(acts[|ws|], t)
  }

  /**
   * The deltas of one sample, every one a column as long as its layer: the
   * last is the output delta, each earlier one the hidden delta of the next.
   */
  function Deltas(ws: seq<Mat>, layers: seq<nat>, acts: seq<Mat>, t: Mat): (ds: seq<Mat>)
    requires WeightsShaped(ws, layers) && ColumnsFor(acts, layers) && |ws| >= 1
    requires Shaped(t, Last(layers), 1)
    ensures ColumnPerStep(ds, layers)
    ensures ds[|ws| - 1] == OutputDelta(OutputError(ws, layers, acts, t), acts[|ws|])
    ensures forall i :: 0 <= i < |ws| - 1 ==> ds[i] == HiddenDelta(ws[i + 1], ds[i + 1], acts[i + 1])
  {
    var dOut := OutputDelta(OutputError(ws, layers, acts, t), acts[|ws|]);
    seq(|ws|, i requires 0 <= i < |ws| => DeltaAt(ws, layers, acts, dOut, i))
  }

  // --------------------------------------------------------------- gradient

  /** The weight gradient of one sample: entry (j, k) is d[j][0] * a[k][0]. */
  function Outer(d: Mat, a: Mat): (g: Mat)
    requires WellFormed(d) && d.cols == 1 && WellFormed(a) && a.cols == 1
    ensures Shaped(g, d.rows, a.rows)
    ensures forall j, k :: 0 <= j < d.rows && 0 <= k < a.rows ==> g.cells[j][k] == d.cells[j][0] * a.cells[k][0]
  {
    Mat(d.rows, a.rows,
      seq(d.rows, j requires 0 <= j < d.rows =>
        seq(a.rows, k requires 0 <= k < a.rows => d.cells[j][0] * a.cells[k][0])))
  }

  /** Zero matrices shaped exactly like the given ones. */
  function ZeroLike(ms: seq<Mat>): (zs: seq<Mat>)
    ensures |zs| == |ms|
    ensures forall i :: 0 <= i < |ms| ==> zs[i] == Zeros(ms[i].rows, ms[i].cols)
  {
    seq(|ms|, i requires 0 <= i < |ms| => Zeros(ms[i].rows, ms[i].cols))
  }

  /** Gradient accumulators: one per weight matrix and one per bias column. */
  datatype Grads = Grads(w: seq<Mat>, b: seq<Mat>)

  /** The weights and biases of a network. */
  datatype Params = Params(weights: seq<Mat>, biases: seq<Mat>)

  /** The accumulators at the start of an epoch. */
  function ZeroGrads(ws: seq<Mat>, bs: seq<Mat>, layers: seq<nat>): (g: Grads)
    requires NetShaped(ws, bs, layers)
    ensures NetShaped(g.w, g.b, layers)
    ensures forall i :: 0 <= i < |ws| ==> IsZero(g.w[i]) && IsZero(g.b[i])
  {
    Grads(ZeroLike(ws), ZeroLike(bs))
  }

  /**
   * Adding one sample's contribution: weight gradient (j, k) grows by
   * delta[i][j] * act[i][k], bias gradient j by delta[i][j].
   */
  function Accumulate(g: Grads, ds: seq<Mat>, acts: seq<Mat>, layers: seq<nat>): (r: Grads)
    requires NetShaped(g.w, g.b, layers) && ColumnsFor(acts, layers)
    requires ColumnPerStep(ds, layers)
    ensures NetShaped(r.w, r.b, layers)
    ensures forall i, j, k :: 0 <= i < |ds| && 0 <= j < layers[i + 1] && 0 <= k < layers[i] ==>
              r.w[i].cells[j][k] == g.w[i].cells[j][k] + ds[i].cells[j][0] * acts[i].cells[k][0]
    ensures forall i, j :: 0 <= i < |ds| && 0 <= j < layers[i + 1] ==>
              r.b[i].cells[j][0] == g.b[i].cells[j][0] + ds[i].cells[j][0]
  {
    Grads(seq(|g.w|, i requires 0 <= i < |g.w| => Plus(g.w[i], Outer(ds[i], acts[i]))),
          seq(|g.b|, i requires 0 <= i < |g.b| => Plus(g.b[i], ds[i])))
  }

  /** The contribution of one sample: forward with caching, the deltas, then accumulation. */
  function AddSample(g: Grads, ws: seq<Mat>, bs: seq<Mat>, layers: seq<nat>, sig: real -> real, x: Mat, t: Mat): (r: Grads)
    requires NetShaped(ws, bs, layers) && |ws| >= 1 && NetShaped(g.w, g.b, layers)
    requires Shaped(x, layers[0], 1) && Shaped(t, Last(layers), 1)
    ensures NetShaped(r.w, r.b, layers)
  {
    var acts := Acts(ws, bs, layers, sig, x);
    Accumulate(g, Deltas(ws, layers, acts, t), acts, layers)
  }

  /** The accumulators after the first n samples of an epoch, taken in order. */
  function GradSum(ws: seq<Mat>, bs: seq<Mat>, layers: seq<nat>, sig: real -> real,
                   xs: seq<Mat>, ts: seq<Mat>, n: nat): (g: Grads)
    requires NetShaped(ws, bs, layers) && |ws| >= 1 && SamplesFit(xs, ts, layers) && n <= |xs|
    ensures NetShaped(g.w, g.b, layers)
  {
    if n == 0 then ZeroGrads(ws, bs, layers)
    else
      AddSample(GradSum(ws, bs, layers, sig, xs, ts, n - 1), ws, bs, layers, sig, xs[n - 1], ts[n - 1])
  }

  /** The update: every entry p becomes p - lr * (g * (1 / count)). */
  function Descend(p: Mat, g: Mat, lr: real, count: real): (r: Mat)
    requires WellFormed(p) && WellFormed(g) && SameShape(p, g) && count != 0.0
    ensures Shaped(r, p.rows, p.cols)
    ensures forall j, k :: 0 <= j < p.rows && 0 <= k < p.cols ==>
              r.cells[j][k] == p.cells[j][k] - lr * (g.cells[j][k] * (1.0 / count))
  {
    Mat(p.rows, p.cols,
      seq(p.rows, j requires 0 <= j < p.rows =>
        seq(p.cols, k requires 0 <= k < p.cols => p.cells[j][k] - lr * (g.cells[j][k] * (1.0 / count)))))
  }

  /** Two lists of matrices, pairwise of one shape. */
  predicate Matching(ps: seq<Mat>, gs: seq<Mat>) {
    |ps| == |gs| && forall i :: 0 <= i < |ps| ==> WellFormed(ps[i]) && WellFormed(gs[i]) && SameShape(ps[i], gs[i])
  }

  /** Every parameter matrix moved against its averaged gradient. */
  function DescendAll(ps: seq<Mat>, gs: seq<Mat>, lr: real, count: real): (r: seq<Mat>)
    requires Matching(ps, gs) && count != 0.0
    ensures |r| == |ps| && forall i :: 0 <= i < |ps| ==> r[i] == Descend(ps[i], gs[i], lr, count)
  {
    seq(|ps|, i requires 0 <= i < |ps| => Descend(ps[i], gs[i], lr, count))
  }

  /** Descending keeps every weight matrix layers[i + 1] x layers[i]. */
  lemma DescendKeepsWeights(ps: seq<Mat>, gs: seq<Mat>, layers: seq<nat>, lr: real, count: real)
    requires WeightsShaped(ps, layers) && WeightsShaped(gs, layers) && count != 0.0
    ensures Matching(ps, gs) && WeightsShaped(DescendAll(ps, gs, lr, count), layers)
  {
  }

  /** Descending keeps every bias a layers[i + 1] x 1 column. */
  lemma DescendKeepsColumns(ps: seq<Mat>, gs: seq<Mat>, layers: seq<nat>, lr: real, count: real)
    requires ColumnPerStep(ps, layers) && ColumnPerStep(gs, layers) && count != 0.0
    ensures Matching(ps, gs) && ColumnPerStep(DescendAll(ps, gs, lr, count), layers)
  {
  }

  /** One epoch of full-batch gradient descent over all training samples. */
  function Epoch(p: Params, layers: seq<nat>, sig: real -> real, lr: real, xs: seq<Mat>, ts: seq<Mat>): (q: Params)
    requires NetShaped(p.weights, p.biases, layers) && |p.weights| >= 1
    requires SamplesFit(xs, ts, layers) && |xs| > 0
    ensures NetShaped(q.weights, q.biases, layers)
  {
    var g := GradSum(p.weights, p.biases, layers, sig, xs, ts, |xs|);
    DescendKeepsWeights(p.weights, g.w, layers, lr, |xs| as real);
    DescendKeepsColumns(p.biases, g.b, layers, lr, |xs| as real);
    Params(DescendAll(p.weights, g.w, lr, |xs| as real), DescendAll(p.biases, g.b, lr, |xs| as real))
  }

  /** The parameters after the given number of epochs; no epochs change nothing. */
  function Train(p: Params, layers: seq<nat>, sig: real -> real, lr: real, xs: seq<Mat>, ts: seq<Mat>, epochs: nat): (q: Params)
    requires NetShaped(p.weights, p.biases, layers) && SamplesFit(xs, ts, layers)
    requires epochs > 0 ==> |xs| > 0 && |layers| >= 2
    ensures NetShaped(q.weights, q.biases, layers)
    ensures epochs == 0 ==> q == p
  {
    if epochs == 0 then p
    else Epoch(Train(p, layers, sig, lr, xs, ts, epochs - 1), layers, sig, lr, xs, ts)
  }

  // ------------------------------------------------------------------- loss

  /** The sum of the squares of a row, accumulated from the front. */
  function RowSquares(row: seq<real>): (r: real)
    ensures r >= 0.0
  {
    if |row| == 0 then 0.0 else RowSquares(row[..|row| - 1]) + row[|row| - 1] * row[|row| - 1]
  }

  /** The sum of the squares of all entries, row by row. */
  function SquareSum(cells: seq<seq<real>>): (r: real)
    ensures r >= 0.0
  {
    if |cells| == 0 then 0.0 else SquareSum(cells[..|cells| - 1]) + RowSquares(cells[|cells| - 1])
  }

  /** The squared error of one sample, or the exception `forward` or `-` throws. */
  function SampleLoss(ws: seq<Mat>, bs: seq<Mat>, sig: real -> real, x: Mat, t: Mat): (r: Result<real>)
    requires WellFormedNet(ws, bs) && WellFormed(x) && WellFormed(t)
    ensures r.Ok? ==> r.value >= 0.0
  {
    match Run(ws, bs, sig, x, |ws|)
    case Err(e) => Err(e)
    case Ok(out) =>
      match TrySub(out, t)
      case Err(e) => Err(e)
      case Ok(err) => Ok(SquareSum(err.cells))
  }

  /** One more sample's loss added to a running total, or that sample's exception. */
  function AddLoss(total: real, l: Result<real>): (r: Result<real>)
    ensures l.Err? ==> r == l
    ensures l.Ok? && total >= 0.0 ==> r.Ok? && r.value >= l.value
  {
    match l
    case Err(e) => Err(e)
    case Ok(v) => Ok(total + v)
  }

  /** The summed squared error of the first n samples; the first exception aborts. */
  function LossUpTo(ws: seq<Mat>, bs: seq<Mat>, sig: real -> real, xs: seq<Mat>, ts: seq<Mat>, n: nat): (r: Result<real>)
    requires WellFormedNet(ws, bs)
    requires n <= |xs| && TestData(xs, ts)
    ensures r.Ok? ==> r.value >= 0.0
  {
    if n == 0 then Ok(0.0)
    else
      match LossUpTo(ws, bs, sig, xs, ts, n - 1)
      case Err(e) => Err(e)
      case Ok(total) => AddLoss(total, SampleLoss(ws, bs, sig, xs[n - 1], ts[n - 1]))
  }

  /** A total divided by a count, as `total * (1 / count)`. */
  function Mean(total: real, count: nat): (r: real)
    requires count > 0
    ensures total >= 0.0 ==> r >= 0.0
    ensures total <= count as real ==> r <= 1.0
    ensures total == 0.0 ==> r == 0.0
  {
    total * (1.0 / count as real)
  }

  /** `evaluate`: the summed squared error divided by the number of samples. */
  function MeanLoss(ws: seq<Mat>, bs: seq<Mat>, sig: real -> real, xs: seq<Mat>, ts: seq<Mat>): (r: Result<real>)
    requires WellFormedNet(ws, bs)
    requires 0 < |xs| && TestData(xs, ts)
    ensures r.Ok? ==> r.value >= 0.0
    ensures r.Ok? <==> LossUpTo(ws, bs, sig, xs, ts, |xs|).Ok?
    ensures LossUpTo(ws, bs, sig, xs, ts, |xs|) == Ok(0.0) ==> r == Ok(0.0)
  {
    var n := |xs|;
    match LossUpTo(ws, bs, sig, xs, ts, n)
    case Err(e) => Err(e)
    case Ok(total) => Ok(Mean(total, n))
  }

  // --------------------------------------------------------------- accuracy

  function Abs(x: real): real
  {
    if x < 0.0 then -x else x
  }

  /** The thresholded output: 1 above the threshold, else 0. */
  function Predicted(y: real, threshold: real): (r: real)
    ensures r == 0.0 || r == 1.0
    ensures r == 1.0 <==> y > threshold
  {
    if y > threshold then 1.0 else 0.0
  }

  /** The output row i matches its target: the prediction is within 0.1 of it. */
  predicate RowCorrect(out: Mat, t: Mat, threshold: real, i: nat)
    requires WellFormed(out) && WellFormed(t) && i < out.rows && i < t.rows && out.cols > 0 && t.cols > 0
  {
    Abs(Predicted(out.cells[i][0], threshold) - t.cells[i][0]) <= 0.1
  }

  /**
   * The row check of `calculateAccuracy` from row i on: the first wrong row
   * stops it with false; reading column 0 of a row that is not there throws
   * `out_of_range`.
   */
  function RowsMatch(out: Mat, t: Mat, threshold: real, i: nat): (r: Result<bool>)
    requires WellFormed(out) && WellFormed(t) && i <= out.rows
    ensures r.Err? ==> r.error == OutOfRange
    ensures r.Err? ==> out.cols == 0 || t.rows < out.rows || t.cols == 0
    decreases out.rows - i
  {
    if i == out.rows then Ok(true)
    else if out.cols == 0 || i >= t.rows || t.cols == 0 then Err(OutOfRange)
    else if !RowCorrect(out, t, threshold, i) then Ok(false)
    else RowsMatch(out, t, threshold, i + 1)
  }

  /** Whether `calculateAccuracy` counts one sample, or the exception `forward` or an entry read throws. */
  function SampleCorrect(ws: seq<Mat>, bs: seq<Mat>, sig: real -> real, x: Mat, t: Mat, threshold: real): Result<bool>
    requires WellFormedNet(ws, bs) && WellFormed(x) && WellFormed(t)
  {
    match Run(ws, bs, sig, x, |ws|)
    case Err(e) => Err(e)
    case Ok(out) => RowsMatch(out, t, threshold, 0)
  }

  /** The count so far, one higher when the sample is correct, or that sample's exception. */
  function AddCorrect(c: nat, correct: Result<bool>): (r: Result<nat>)
    ensures r.Err? <==> correct.Err?
    ensures r.Err? ==> r.error == correct.error
    ensures r.Ok? ==> c <= r.value <= c + 1 && (r.value == c + 1 <==> correct.value)
  {
    match correct
    case Err(e) => Err(e)
    case Ok(b) => Ok(if b then c + 1 else c)
  }

  /** The number of correct samples among the first n; the first exception aborts. */
  function CorrectUpTo(ws: seq<Mat>, bs: seq<Mat>, sig: real -> real, xs: seq<Mat>, ts: seq<Mat>,
                       threshold: real, n: nat): (r: Result<nat>)
    requires WellFormedNet(ws, bs)
    requires n <= |xs| && TestData(xs, ts)
    ensures r.Ok? ==> r.value <= n
  {
    if n == 0 then Ok(0)
    else
      match CorrectUpTo(ws, bs, sig, xs, ts, threshold, n - 1)
      case Err(e) => Err(e)
      case Ok(c) => AddCorrect(c, SampleCorrect(ws, bs, sig, xs[n - 1], ts[n - 1], threshold))
  }

  /** `calculateAccuracy`: the fraction of samples counted correct, between 0 and 1. */
  function Accuracy(ws: seq<Mat>, bs: seq<Mat>, sig: real -> real, xs: seq<Mat>, ts: seq<Mat>, threshold: real): (r: Result<real>)
    requires WellFormedNet(ws, bs)
    requires 0 < |xs| && TestData(xs, ts)
    ensures r.Ok? ==> 0.0 <= r.value <= 1.0
  {
    match CorrectUpTo(ws, bs, sig, xs, ts, threshold, |xs|)
    case Err(e) => Err(e)
    case Ok(c) => Ok(Mean(c as real, |xs|))
  }
}
