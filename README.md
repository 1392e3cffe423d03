# A verified model of a small multilayer perceptron library

The repository is a C++ library for a computer-vision course assignment. It has four parts:

- a dense row-major `Matrix<T>` template with bounds-checked access and shape-checked arithmetic;
- an `MLP<T>` class, a sigmoid multilayer perceptron trained by full-batch gradient descent, with a mean-squared-error `evaluate` and an all-or-nothing `calculateAccuracy`;
- a `ComplexNumber<T>` template;
- the dataset glue of the experiment driver: mapping a parsed CSV row to a sample, splitting a dataset by a shuffled index list, and turning samples into column matrices.

The only instantiation is `T = double`. Here it is exact `real` arithmetic.

Modules, file by file:

- `failures.dfy` (`Failures`): the two exceptions the code throws, `out_of_range` and `invalid_argument`. A thrown exception is a value `Err(e)` of `Result`.
- `matrices.dfy` (`Matrices`):
  - `Mat` is the value a matrix holds: its fixed shape and its rows.
  - The functions on `Mat` (`Zeros`, `Plus`, `Minus`, `Times`, `Scaled`, `Flatten`, …) say what each operator computes.
  - The class `Matrix` is the object itself. `Set` and `Randomize` overwrite its cells in place. The operators build a fresh `Matrix` cell by cell with nested loops, and each is proved to compute the matching function or to throw exactly when the source does.
- `complex.dfy` (`Complex`): the pure operators on the value `Cx` with their algebraic laws, and the class `ComplexNumber`, whose `+=` and `-=` update its two fields.
- `network_spec.dfy` (`NetworkSpec`): the network's arithmetic as functions of its parameters. This covers the forward pass, the output and hidden deltas, the gradient accumulated over an epoch, the update `p - lr * (g * (1 / n))`, the epochs of training, the summed squared error and the correct-sample count. The sigmoid `1 / (1 + exp(-x))` is the parameter `sig`, about which nothing is assumed.
- `network_facts.dfy` (`NetworkFacts`): properties of those functions. They cover how exceptions propagate through `forward`, `evaluate` and `calculateAccuracy`; that a network fitting its training data exactly is unchanged by an epoch, and so by any number of epochs; that a zero learning rate changes nothing; that `evaluate` is 0 on an exact fit; and that accuracy is all-or-nothing per sample.
- `network.dfy` (`Network`): the class `MLP`.
  - Its `weights` and `biases` are fields that training overwrites in place.
  - Each method mirrors one loop, loop body or member function of the source. Its contract ties its result to a `NetworkSpec` function: of the current parameters for the instance methods, and of its arguments for the static ones, which read no field (`SigmoidDerivative`, `OutputDeltaOf`, `HiddenDeltaOf`, `WeightedSum`, `AccumulateRow`, `AccumulateLayer`, `AddSquares`, `RowsAgree`, and `RandomMatrix`, which computes `Matrices.Tabulate`).
  - `Valid()` is the shape bookkeeping: `weights[i]` is `layers[i+1] x layers[i]` and `biases[i]` is `layers[i+1] x 1`. Construction and training preserve it.
  - `Forward`, `Evaluate` and `CalculateAccuracy` have no `modifies` clause, so they leave the network unchanged.
- `experiment.dfy` (`Experiment`): `Sample` and `Dataset`, the loader's row-to-sample mapping, `splitDataset` and `datasetToMatrices`.

## Model

| member | source | states |
|---|---|---|
| Matrices.Zeros | headers/Matrix.h:22-24 | `Matrix(r, c)` holds r rows of c entries, every one 0 |
| Matrices.Tabulate | headers/Matrix.h:118-128 | the r x c matrix whose entry (i, j) is the draw for (i, j) |
| Matrices.Column | headers/Matrix.h:31-38 | the column form of a vector is \|v\| x 1 with entry (i, 0) = v[i] |
| Matrices.Row | headers/Matrix.h:39-43 | the row form of a vector is 1 x \|v\| and its only row is v |
| Matrices.SetCell | headers/Matrix.h:56-62 | after `set`, the shape is the same, cell (row, col) holds the value and every other cell is unchanged |
| Matrices.Plus | headers/Matrix.h:64-76 | the sum has the operands' shape, with entry a(i, j) + b(i, j) |
| Matrices.Minus | headers/Matrix.h:78-89 | the difference has the operands' shape, with entry a(i, j) - b(i, j) |
| Matrices.Scaled | headers/Matrix.h:108-116 | the scalar product keeps the shape and scales every entry |
| Matrices.Times | headers/Matrix.h:91-106 | the product is rows x other.cols; entry (i, j) is the sum over k of a(i, k) * b(k, j), accumulated from k = 0 |
| Matrices.SubAfterAdd | headers/Matrix.h:64-89 | (A + B) - B == A |
| Matrices.PlusCommutes | headers/Matrix.h:64-76 | A + B == B + A |
| Matrices.ScaleByOne | headers/Matrix.h:108-116 | A * 1 == A |
| Matrices.Dot | headers/Matrix.h:98-101 | no contract of its own: the sum over k < n of a(i, k) * b(k, j), accumulated from k = 0 as the inner loop does; Times, TimesZeroLeft and TimesAssoc state its use |
| Matrices.TryAdd | headers/Matrix.h:64-76 | `+` on values: fails exactly when the shapes differ, with invalid_argument; otherwise the result is Plus |
| Matrices.TrySub | headers/Matrix.h:78-89 | `-` on values: fails exactly when the shapes differ, with invalid_argument; otherwise the result is Minus |
| Matrices.TryMul | headers/Matrix.h:91-106 | `*` on values: fails exactly when a.cols != b.rows, with invalid_argument; otherwise the result is Times |
| Matrices.TimesAssoc | headers/Matrix.h:91-106 | the product is associative: (A * B) * C == A * (B * C) |
| Matrices.Flatten | headers/Matrix.h:130-138 | no contract of its own: the rows laid end to end; FlattenLength, FlattenIndex and Matrix.ToVector state its shape |
| Matrices.TimesZeroLeft | headers/Matrix.h:91-106 | a zero matrix times any matrix is the zero matrix of the product's shape |
| Matrices.FlattenLength | headers/Matrix.h:130-138 | row-major flattening of r rows of c entries has r * c elements |
| Matrices.FlattenIndex | headers/Matrix.h:130-138 | entry (i, j) sits at position i * c + j of the flattening |
| Matrices.Matrix.Empty | headers/Matrix.h:20 | `Matrix()` is 0 x 0 |
| Matrices.Matrix.constructor | headers/Matrix.h:22-24 | `Matrix(r, c)` is r x c with every entry 0 |
| Matrices.Matrix.FromRows | headers/Matrix.h:26-29 | rows is the outer length, and cols is the first row's length, or 0 when there is no row; the cells are the input |
| Matrices.Matrix.FromVector | headers/Matrix.h:31-44 | with column set, the result is \|vec\| x 1 holding vec; otherwise it is 1 x \|vec\| holding vec |
| Matrices.Matrix.Get | headers/Matrix.h:49-54 | throws out_of_range exactly when row >= rows or col >= cols; otherwise returns the cell |
| Matrices.Matrix.Set | headers/Matrix.h:56-62 | throws out_of_range exactly when out of bounds, and then changes nothing; otherwise it changes only cell (row, col) |
| Matrices.Matrix.Add | headers/Matrix.h:64-76 | throws invalid_argument exactly when the shapes differ; otherwise returns a fresh matrix equal to Plus of the operands |
| Matrices.Matrix.Sub | headers/Matrix.h:78-89 | throws invalid_argument exactly when the shapes differ; otherwise returns a fresh matrix equal to Minus of the operands |
| Matrices.Matrix.Mul | headers/Matrix.h:91-106 | throws invalid_argument exactly when cols != other.rows; otherwise returns a fresh matrix equal to Times of the operands |
| Matrices.Matrix.Scale | headers/Matrix.h:108-116 | returns a fresh matrix equal to Scaled of this matrix; never throws |
| Matrices.Matrix.Randomize | headers/Matrix.h:118-128 | overwrites every cell with its draw and keeps the shape; every entry lies in [minVal, maxVal] |
| Matrices.Matrix.ToVector | headers/Matrix.h:130-138 | returns rows * cols values in row-major order, with entry (i, j) at i * cols + j |
| Complex.Add | headers/Complex.h:29-31 | no contract of its own: the componentwise sum; SubUndoesAdd and AddCommutes state its laws |
| Complex.Sub | headers/Complex.h:33-35 | no contract of its own: the componentwise difference; SubUndoesAdd states that it undoes Add |
| Complex.Mul | headers/Complex.h:37-41 | no contract of its own: (ac - bd, ad + bc); MulCommutes, MulIdentity and ImaginaryUnitSquared state its laws |
| Complex.Scale | headers/Complex.h:43-45 | no contract of its own: both parts times the scalar; ScaleIsMulByReal ties it to Mul |
| Complex.SubUndoesAdd | headers/Complex.h:29-35 | (a + b) - b == a |
| Complex.AddCommutes | headers/Complex.h:29-31 | a + b == b + a |
| Complex.MulCommutes | headers/Complex.h:37-41 | a * b == b * a |
| Complex.MulIdentity | headers/Complex.h:37-41 | (1, 0) is a two-sided identity of `*` |
| Complex.ScaleIsMulByReal | headers/Complex.h:43-45 | scaling by s is multiplying by (s, 0) |
| Complex.ImaginaryUnitSquared | headers/Complex.h:37-41 | (0, 1) * (0, 1) == (-1, 0) |
| Complex.ComplexNumber.constructor | headers/Complex.h:15-23 | the getters return the constructor's arguments |
| Complex.ComplexNumber.Zero | headers/Complex.h:15 | the default constructor gives (0, 0) |
| Complex.ComplexNumber.AddAssign | headers/Complex.h:47-51 | the object becomes old value + other, and the returned copy is the new value |
| Complex.ComplexNumber.SubAssign | headers/Complex.h:53-57 | the object becomes old value - other, and the returned copy is the new value |
| NetworkSpec.Activate | headers/MLP.h:20-28 | `sigmoid` keeps the shape and applies sig to every entry |
| NetworkSpec.Slope | headers/MLP.h:34-35 | no contract of its own: s * (1 - s); SlopeBounds states its range |
| NetworkSpec.SlopeBounds | headers/MLP.h:34-35 | s * (1 - s) is at most 1/4, and not negative for s in [0, 1] |
| NetworkSpec.SigmoidSlope | headers/MLP.h:30-39 | `sigmoidDerivative` keeps the shape, with entry s * (1 - s) |
| NetworkSpec.Layer | headers/MLP.h:60-61 | one layer of `forward` is sig(w * a + b), or the exception of the product or the sum |
| NetworkSpec.Step | headers/MLP.h:60-61 | one layer on operands of matching shapes is a w.rows x a.cols matrix |
| NetworkSpec.Run | headers/MLP.h:56-65 | `forward` through the first n layers; a layer's exception aborts the pass |
| NetworkSpec.ActAt | headers/MLP.h:87-92 | on a well-shaped network and input, the activation after n layers is a layers[n] x 1 column |
| NetworkSpec.Acts | headers/MLP.h:84-92 | the cached activations: the input first, then one layers[n] x 1 column per layer |
| NetworkSpec.OutputDelta | headers/MLP.h:102-108 | the output delta has the error's shape, with entry 2 * error * s * (1 - s) |
| NetworkSpec.BackSum | headers/MLP.h:116-119 | no contract of its own: the sum over k < n of W(k, j) * next(k, 0), from k = 0 upwards; BackSumOfZero and WeightedSum state its use |
| NetworkSpec.HiddenDelta | headers/MLP.h:110-121 | a hidden delta has weights[i+1].cols rows, with entry j = (sum over k of W(k, j) * next(k, 0)) * s_j * (1 - s_j) |
| NetworkSpec.DeltaAt | headers/MLP.h:103-121 | the delta of layer i is a layers[i+1] x 1 column |
| NetworkSpec.OutputError | headers/MLP.h:94 | the error, output minus target, is an output-layer column |
| NetworkSpec.Deltas | headers/MLP.h:100-121 | one delta column per layer: the last is the output delta of output - target, and each earlier one is the hidden delta of the next |
| NetworkSpec.Outer | headers/MLP.h:124-127 | a sample's weight gradient has entry (j, k) = delta(j, 0) * act(k, 0) |
| NetworkSpec.ZeroLike | headers/MLP.h:75-78 | one zero matrix per given matrix, of its shape |
| NetworkSpec.ZeroGrads | headers/MLP.h:72-78 | each epoch's accumulators are zero matrices shaped like weights[i] and biases[i] |
| NetworkSpec.Accumulate | headers/MLP.h:123-130 | weight gradient (j, k) grows by delta[i](j) * act[i](k), bias gradient j by delta[i](j); shapes are kept |
| NetworkSpec.AddSample | headers/MLP.h:80-131 | one sample's contribution keeps the accumulators' shapes |
| NetworkSpec.GradSum | headers/MLP.h:80-132 | the accumulators after the first n samples keep their shapes |
| NetworkSpec.Descend | headers/MLP.h:136-142 | the update keeps the shape, with each entry p - lr * (g * (1 / n)) |
| NetworkSpec.DescendAll | headers/MLP.h:134-144 | every parameter matrix is moved against its own averaged gradient |
| NetworkSpec.DescendKeepsWeights | headers/MLP.h:134-144 | the update keeps every weight matrix layers[i+1] x layers[i] |
| NetworkSpec.DescendKeepsColumns | headers/MLP.h:134-144 | the update keeps every bias a layers[i+1] x 1 column |
| NetworkSpec.Epoch | headers/MLP.h:69-145 | one epoch keeps the network's shapes |
| NetworkSpec.Train | headers/MLP.h:67-69 | training keeps the shapes, and zero epochs change nothing |
| NetworkSpec.RowSquares | headers/MLP.h:162-166 | a sum of squares is never negative |
| NetworkSpec.SquareSum | headers/MLP.h:162-166 | a matrix's summed squared entries are never negative |
| NetworkSpec.SampleLoss | headers/MLP.h:159-166 | a sample's squared error is never negative; `forward` or `-` may throw instead |
| NetworkSpec.AddLoss | headers/MLP.h:158-167 | a sample's exception passes through; otherwise, from a non-negative total, the result is at least the sample's loss |
| NetworkSpec.LossUpTo | headers/MLP.h:156-167 | the summed loss of the first n samples is never negative |
| NetworkSpec.Mean | headers/MLP.h:169 | total * (1 / n) is non-negative for a non-negative total, at most 1 when total <= n, and 0 for a zero total |
| NetworkSpec.MeanLoss | headers/MLP.h:155-170 | `evaluate` is never negative; it throws exactly when a sample throws; a zero total gives 0 |
| NetworkSpec.Predicted | headers/MLP.h:180 | the prediction is 0 or 1, and it is 1 exactly when the output exceeds the threshold |
| NetworkSpec.RowCorrect | headers/MLP.h:180-182 | no contract of its own: the prediction is within 0.1 of the target; AllOrNothing states its use |
| NetworkSpec.RowsMatch | headers/MLP.h:179-186 | the row check stops at the first wrong row; its only exception is out_of_range, and it throws only when the output has no column, the target has fewer rows than the output, or the target has no column |
| NetworkSpec.SampleCorrect | headers/MLP.h:176-186 | no contract of its own: `forward`'s exception, or the row check of the output; CheckSample and AccuracyStep state its use |
| NetworkSpec.AddCorrect | headers/MLP.h:188-190 | fails exactly when the sample throws, with its exception; otherwise the count stays between c and c + 1, and it is c + 1 exactly for a correct sample |
| NetworkSpec.CorrectUpTo | headers/MLP.h:173-191 | 0 <= correct <= n among the first n samples |
| NetworkSpec.Accuracy | headers/MLP.h:172-194 | `calculateAccuracy` lies between 0 and 1 |
| NetworkFacts.RunIsActAt | headers/MLP.h:56-65 | on a well-shaped network and a layers[0] x 1 input, `forward` never throws and yields the cached activation |
| NetworkFacts.RunStaysFailed | headers/MLP.h:56-65 | once a layer has thrown, the rest of `forward` throws that same exception |
| NetworkFacts.ForwardFailsIff | headers/MLP.h:56-65 | on a well-shaped network, `forward` throws exactly when there is a layer and the input is not a layers[0] x 1 column, and it throws invalid_argument; with no layers it returns the input; otherwise the output is a layers.last x 1 column |
| NetworkFacts.StepOfZero | headers/MLP.h:60-61 | a layer with all-zero weights and biases outputs sig(0) everywhere |
| NetworkFacts.ForwardOfZeroLastLayer | headers/MLP.h:56-65 | when the last layer is all zero, every output entry is sig(0) |
| NetworkFacts.BackSumOfZero | headers/MLP.h:115-118 | the weighted sum of a zero delta is 0 |
| NetworkFacts.DeltasVanish | headers/MLP.h:110-121 | a zero output delta makes every hidden delta zero |
| NetworkFacts.ExactSampleHasZeroDeltas | headers/MLP.h:94-121 | a sample whose output equals its target has zero deltas in every layer |
| NetworkFacts.AccumulateZero | headers/MLP.h:123-130 | zero deltas leave the gradient accumulators unchanged |
| NetworkFacts.ExactSampleAddsNothing | headers/MLP.h:80-131 | an exactly fitted sample adds nothing to the gradient |
| NetworkFacts.GradSumStepAtExactFit | headers/MLP.h:80-132 | one more exactly fitted sample keeps a zero gradient zero |
| NetworkFacts.GradSumAtExactFit | headers/MLP.h:80-132 | when every training output equals its target, the epoch's gradient is zero |
| NetworkFacts.TrainOneMore | headers/MLP.h:69 | training for e + 1 epochs is one more epoch after e epochs |
| NetworkFacts.DescendAllStill | headers/MLP.h:134-144 | a zero gradient or a zero learning rate leaves the parameters unchanged |
| NetworkFacts.ExactFitIsFixedPoint | headers/MLP.h:69-145 | a network that fits every training sample exactly is unchanged by an epoch |
| NetworkFacts.ExactFitStep | headers/MLP.h:69 | one more epoch from an exactly fitting network keeps it unchanged |
| NetworkFacts.ExactFitStaysFixed | headers/MLP.h:67-153 | training a network that fits every training sample exactly leaves it unchanged for any number of epochs |
| NetworkFacts.EpochStill | headers/MLP.h:69-145 | an epoch with a zero gradient or a zero rate changes nothing |
| NetworkFacts.ZeroRateEpoch | headers/MLP.h:134-144 | an epoch at learning rate 0 changes nothing |
| NetworkFacts.ZeroRateStep | headers/MLP.h:69 | one more epoch at rate 0 keeps unchanged parameters unchanged |
| NetworkFacts.ZeroRateChangesNothing | headers/MLP.h:67-153 | at learning rate 0, training for any number of epochs changes nothing |
| NetworkFacts.RowSquaresOfZeros | headers/MLP.h:162-166 | the squared sum of a zero row is 0 |
| NetworkFacts.SquareSumOfZeros | headers/MLP.h:162-166 | the squared sum of a zero matrix is 0 |
| NetworkFacts.SampleLossAtExactFit | headers/MLP.h:159-166 | a sample whose output is its target has loss 0 |
| NetworkFacts.LossStep | headers/MLP.h:158-167 | a zero total plus a zero sample loss stays 0 |
| NetworkFacts.LossAtExactFit | headers/MLP.h:156-167 | the summed loss of exactly fitted samples is 0 |
| NetworkFacts.EvaluateZeroAtExactFit | headers/MLP.h:155-170 | `evaluate` returns exactly 0 on a network that reproduces every target |
| NetworkFacts.EvaluateStep | headers/MLP.h:158-167 | a sample that does not throw extends the running total; a sample that throws makes `evaluate` throw that exception |
| NetworkFacts.MeanOfTotal | headers/MLP.h:169 | `evaluate` is the summed loss times 1 / n |
| NetworkFacts.LossFailStep | headers/MLP.h:158-167 | the next sample passes a thrown exception on |
| NetworkFacts.LossStaysFailed | headers/MLP.h:156-167 | once a sample throws, the loss of every longer prefix is that exception |
| NetworkFacts.CorrectFailStep | headers/MLP.h:175-191 | the next sample passes a thrown exception on |
| NetworkFacts.CorrectStaysFailed | headers/MLP.h:175-191 | once a sample throws, the count of every longer prefix is that exception |
| NetworkFacts.AccuracyStep | headers/MLP.h:175-191 | a sample that does not throw adds 1 exactly when it is correct; a sample that throws makes `calculateAccuracy` throw that exception |
| NetworkFacts.AccuracyOfCount | headers/MLP.h:193 | `calculateAccuracy` is the count times 1 / n |
| NetworkFacts.AllOrNothing | headers/MLP.h:177-190 | a sample counts exactly when every output row's thresholded value is within 0.1 of its target |
| NetworkFacts.OneWrongBitFailsSample | headers/MLP.h:179-186 | with outputs (0.9, 0.9) and targets (1, 0) at threshold 0.5, the sample is not counted |
| Network.MLP.constructor | headers/MLP.h:42-54 | \|weights\| == \|biases\| == \|layers\| - 1; weights[i] is the layers[i+1] x layers[i] fill of its draws and biases[i] the layers[i+1] x 1 fill, all in [-1, 1]; layers and lr are stored |
| Network.MLP.RandomMatrix | headers/MLP.h:45-49 | a zero matrix of the given shape, then randomized, is the fill of its draws |
| Network.MLP.Sigmoid | headers/MLP.h:20-28 | computes Activate: the same shape, with sig of every entry |
| Network.MLP.SigmoidDerivative | headers/MLP.h:30-39 | computes SigmoidSlope: the same shape, with s * (1 - s) |
| Network.MLP.Forward | headers/MLP.h:56-65 | computes Run through all layers, including the exception of a mismatched product or sum |
| Network.MLP.ForwardCached | headers/MLP.h:84-92 | on a well-shaped network and sample, the training pass caches exactly Acts |
| Network.MLP.OutputDeltaOf | headers/MLP.h:102-108 | computes OutputDelta entry by entry |
| Network.MLP.HiddenDeltaOf | headers/MLP.h:110-121 | computes HiddenDelta entry by entry |
| Network.MLP.WeightedSum | headers/MLP.h:115-118 | the inner loop computes the sum over k of W(k, j) * next(k, 0) |
| Network.MLP.BackPropagate | headers/MLP.h:94-121 | computes Deltas: the output delta, then each hidden delta from the last hidden layer down |
| Network.MLP.AccumulateRow | headers/MLP.h:124-127 | row j of the weight gradient grows by delta(j) * act(k) at every k |
| Network.MLP.AccumulateLayer | headers/MLP.h:123-130 | one layer's accumulators become Plus(gw, Outer(delta, act)) and Plus(gb, delta) |
| Network.MLP.AddGradients | headers/MLP.h:123-131 | adds one sample's contribution, computing Accumulate |
| Network.MLP.ZeroGradients | headers/MLP.h:72-78 | computes ZeroGrads: zero accumulators shaped like the parameters |
| Network.MLP.SumGradients | headers/MLP.h:80-132 | the gradient after every training sample is GradSum over all of them |
| Network.MLP.DescendRow | headers/MLP.h:136-139 | row j of a parameter matrix becomes row j of Descend |
| Network.MLP.DescendLayer | headers/MLP.h:135-143 | one layer's weights and biases become Descend of themselves |
| Network.MLP.ApplyGradients | headers/MLP.h:134-144 | the parameters become DescendAll of the old ones, and Valid() is kept |
| Network.MLP.RunEpoch | headers/MLP.h:69-145 | the parameters become Epoch of the old ones, and Valid() is kept |
| Network.MLP.TrainWithValidation | headers/MLP.h:67-153 | the parameters become Train of the old ones over max(epochs, 0) epochs, and Valid() is kept |
| Network.MLP.AddSquares | headers/MLP.h:162-166 | adds the error's summed squared entries to the total |
| Network.MLP.AddSampleLoss | headers/MLP.h:159-166 | one sample's loss added to the total, or the exception of `forward` or `-` |
| Network.MLP.LossSample | headers/MLP.h:158-167 | one pass of the sample loop: the total after the sample, or the exception `evaluate` throws |
| Network.MLP.TotalLoss | headers/MLP.h:156-167 | the summed loss of all samples; a sample's exception is what `evaluate` throws |
| Network.MLP.Evaluate | headers/MLP.h:155-170 | computes MeanLoss, so it is never negative and it reads the network without changing it |
| Network.MLP.RowsAgree | headers/MLP.h:179-186 | the row check: false at the first row off by more than 0.1, or out_of_range for a missing column-0 entry |
| Network.MLP.CheckSample | headers/MLP.h:176-186 | whether one sample counts, or the exception of `forward` or of an entry read |
| Network.MLP.CountSample | headers/MLP.h:175-191 | one pass of the sample loop: the count grows by 1 exactly for a correct sample; an exception is what `calculateAccuracy` throws |
| Network.MLP.CountCorrect | headers/MLP.h:173-191 | the count of correct samples is CorrectUpTo over all samples; an exception is what `calculateAccuracy` throws |
| Network.MLP.CalculateAccuracy | headers/MLP.h:172-194 | computes Accuracy, so it lies in [0, 1] and it reads the network without changing it |
| Experiment.AppendRow | main.cpp:77-90 | XOR rows give inputs values[0..2) and output [values[2]] with dims (2, 1); Binary Adder rows give inputs values[0..5) and outputs values[5..8) with dims (5, 3); any other name gives an empty sample; earlier samples are kept |
| Experiment.AppendRowKeepsFit | main.cpp:77-90 | reading one more row of a known dataset keeps every sample the size its dimensions say |
| Experiment.Iota | main.cpp:107-108 | the unshuffled index list is 0 .. n-1 |
| Experiment.Pick | main.cpp:115-121 | the samples at the given positions, in the order of the positions |
| Experiment.PermutationInRange | main.cpp:107-111 | a reordering of 0 .. n-1 has n entries, each in range |
| Experiment.PickPermutation | main.cpp:107-121 | picking by a reordering of 0 .. n-1 yields every sample exactly once |
| Experiment.CopyPicked | main.cpp:115-121 | each copy loop collects the samples at indices[from..to) in order |
| Experiment.SplitKeepsSamples | main.cpp:107-121 | for a permutation, the train prefix and the test suffix together hold every original sample exactly once |
| Experiment.SplitDataset | main.cpp:97-124 | train holds samples[indices[i]] for i < trainSize and test holds the rest, in order, with \|train\| + \|test\| == \|original\|; for a permutation they form a multiset partition; dims are copied and the names are tagged " (Train)" and " (Test)" |
| Experiment.DatasetToMatrices | main.cpp:126-136 | two lists of \|samples\| column matrices, entry i built from sample i's inputs and outputs; shaped inputDim x 1 and outputDim x 1 when the samples fit the dims |

## Left out

- The default arguments are not modelled: the learning rate 0.01 of the `MLP` constructor, the threshold 0.5 of `calculateAccuracy` and `verbose = true` of `trainWithValidation`. The learning rate and the threshold are explicit parameters here. `verbose` is not a parameter: `TrainWithValidation` is the call with `verbose` false.
- Floating point: T is exact `real`. Rounding, NaN and infinities are not modelled. The constant 0.1 in the accuracy check is taken as the exact 0.1.
- The sigmoid's `exp` is the parameter `sig`, about which nothing is assumed. No convergence claim is made for the XOR or binary-adder experiments, and no loss threshold is claimed.
- `getMagnitude` of `ComplexNumber` is left out because it needs a floating-point `sqrt`. `operator<<` is left out as console output.
- The getters `getRows`/`getCols` and `getReal`/`getImag` are the fields (`rows`, `cols`) and the functions `GetReal`/`GetImag`; they have no rows of their own.
- Randomness: `randomize` and the constructor's random initialisation take their uniform draws as parameters (`draw`, `wDraw`, `bDraw`) whose values lie in the range. `random_device` and `mt19937` are not modelled.
- The `mt19937` shuffle in `splitDataset` and the rounding of `n * trainRatio` to `trainSize` are not modelled. The shuffled index list and `trainSize` are parameters.
- Experiment.SplitDataset: requires 0 <= trainSize <= n and indices in range. Outside that range the source reads past its vectors, which is undefined behaviour.
- Experiment.AppendRow: requires the row to hold enough values for the named layout. The source indexes `values` without checking.
- CSV file I/O, the header skip, `stod` parsing and the unopenable-file path of `loadDatasetFromCSV` are left out. Only the row-to-sample mapping is modelled.
- The interactive `main`, `runExperiment`, `printResults`, `printBestConfigurations` and `Matrix::print` are left out as console orchestration and output.
- Matrices.Matrix.FromRows: requires a rectangular input. The source does not check that the rows have equal length.
- Network.MLP.constructor: requires at least one layer, since `layers.size() - 1` underflows on an empty list. Layer sizes are `nat`, so a negative `int` size is not modelled.
- Network.MLP.TrainWithValidation: only the non-verbose path is modelled. The verbose path prints `trainLoss` and `valLoss` and changes no state, and the validation sets are read only there.
- Network.MLP.TrainWithValidation: the running `totalLoss` and the `linearOutputs` list of the training loop are not modelled, because nothing outside the verbose output reads them.
- Network.MLP.TrainWithValidation: requires well-shaped samples, and at least one sample and two layers when epochs > 0. So the exception a mismatched sample would throw mid-epoch is not modelled. Neither is the division by a zero sample count, nor the empty `deltas` vector of a one-layer network.
- Network.MLP.Evaluate: requires at least one sample, because the source divides by n and 0 samples give NaN. It also requires at least as many targets as inputs, because the source reads `testTargets[sample]` unchecked.
- Network.MLP.CalculateAccuracy: requires at least one sample and at least as many targets as inputs, for the same reasons as Evaluate.
- NetworkFacts.EvaluateZeroAtExactFit: proves only that an exact fit gives loss 0. The converse (loss 0 implies an exact fit) needs non-linear real reasoning the proof does not do.
- The gradient accumulators and parameter matrices that the source updates cell by cell with `set` are rebuilt here as values, row by row (`AccumulateLayer`, `DescendLayer`). Aliasing cannot arise, since the source holds the matrices by value.
- `MLP<ComplexNumber<double>>` is not modelled: `sigmoid` casts to `double` and the accuracy check compares with `>`, so that instantiation cannot be built.
