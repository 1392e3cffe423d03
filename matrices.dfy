/**
 * Dense row-major matrices over exact reals: the `Matrix<double>` class.
 * `Mat` is the value a matrix holds (its shape and its rows); the functions on
 * `Mat` say what each operator computes, and the class `Matrix` is the object
 * whose methods build their results cell by cell, as the source does.
 */
module Matrices {
  import opened Failures

  /** The value of a matrix: its fixed shape and its rows. */
  datatype Mat = Mat(rows: nat, cols: nat, cells: seq<seq<real>>)

  /** There are `rows` rows and every row holds exactly `cols` entries. */
  predicate WellFormed(m: Mat) {
    |m.cells| == m.rows && forall i :: 0 <= i < m.rows ==> |m.cells[i]| == m.cols
  }

  predicate Shaped(m: Mat, r: nat, c: nat) {
    WellFormed(m) && m.rows == r && m.cols == c
  }

  predicate SameShape(a: Mat, b: Mat) {
    a.rows == b.rows && a.cols == b.cols
  }

  predicate InBounds(m: Mat, row: nat, col: nat) {
    row < m.rows && col < m.cols
  }

  /** Every inner sequence is as long as the first one. */
  predicate Rectangular(input: seq<seq<real>>) {
    forall i :: 0 <= i < |input| ==> |input[i]| == |input[0]|
  }

  /** Two well-formed matrices of one shape with the same entries are equal. */
  lemma Ext(a: Mat, b: Mat)
    requires WellFormed(a) && WellFormed(b) && SameShape(a, b)
    requires forall i, j :: 0 <= i < a.rows && 0 <= j < a.cols ==> a.cells[i][j] == b.cells[i][j]
    ensures a == b
  {
    forall i | 0 <= i < a.rows
      ensures a.cells[i] == b.cells[i]
    {
    }
  }

  /** `Matrix(r, c)`: r rows of c zeros. */
  function Zeros(r: nat, c: nat): (z: Mat)
    ensures Shaped(z, r, c)
    ensures forall i, j :: 0 <= i < r && 0 <= j < c ==> z.cells[i][j] == 0.0
  {
    Mat(r, c, seq(r, _ => seq(c, _ => 0.0)))
  }

  /** The r x c matrix whose entry (i, j) is f(i, j). */
  function Tabulate(r: nat, c: nat, f: (nat, nat) -> real): (m: Mat)
    ensures Shaped(m, r, c)
    ensures forall i, j :: 0 <= i < r && 0 <= j < c ==> m.cells[i][j] == f(i, j)
  {
    Mat(r, c, seq(r, i requires 0 <= i < r => seq(c, j requires 0 <= j < c => f(i, j))))
  }

  /** `Matrix(vec, true)`: an n x 1 column holding vec. */
  function Column(v: seq<real>): (m: Mat)
    ensures Shaped(m, |v|, 1)
    ensures forall i :: 0 <= i < |v| ==> m.cells[i][0] == v[i]
  {
    Mat(|v|, 1, seq(|v|, i requires 0 <= i < |v| => [v[i]]))
  }

  /** `Matrix(vec, false)`: a 1 x n row holding vec. */
  function Row(v: seq<real>): (m: Mat)
    ensures Shaped(m, 1, |v|) && m.cells[0] == v
  {
    Mat(1, |v|, [v])
  }

  /** The matrix with entry (row, col) replaced by v. */
  function SetCell(m: Mat, row: nat, col: nat, v: real): (r: Mat)
    requires WellFormed(m) && InBounds(m, row, col)
    ensures Shaped(r, m.rows, m.cols)
    ensures r.cells[row][col] == v
    ensures forall i, j :: 0 <= i < m.rows && 0 <= j < m.cols && (i != row || j != col) ==>
              r.cells[i][j] == m.cells[i][j]
  {
    Mat(m.rows, m.cols, m.cells[row := m.cells[row][col := v]])
  }

  /** Elementwise sum of two matrices of one shape. */
  function Plus(a: Mat, b: Mat): (r: Mat)
    requires WellFormed(a) && WellFormed(b) && SameShape(a, b)
    ensures Shaped(r, a.rows, a.cols)
    ensures forall i, j :: 0 <= i < a.rows && 0 <= j < a.cols ==>
              r.cells[i][j] == a.cells[i][j] + b.cells[i][j]
  {
    Mat(a.rows, a.cols,
      seq(a.rows, i requires 0 <= i < a.rows =>
        seq(a.cols, j requires 0 <= j < a.cols => a.cells[i][j] + b.cells[i][j])))
  }

  /** Elementwise difference of two matrices of one shape. */
  function Minus(a: Mat, b: Mat): (r: Mat)
    requires WellFormed(a) && WellFormed(b) && SameShape(a, b)
    ensures Shaped(r, a.rows, a.cols)
    ensures forall i, j :: 0 <= i < a.rows && 0 <= j < a.cols ==>
              r.cells[i][j] == a.cells[i][j] - b.cells[i][j]
  {
    Mat(a.rows, a.cols,
      seq(a.rows, i requires 0 <= i < a.rows =>
        seq(a.cols, j requires 0 <= j < a.cols => a.cells[i][j] - b.cells[i][j])))
  }

  /** Every entry multiplied by s. */
  function Scaled(a: Mat, s: real): (r: Mat)
    requires WellFormed(a)
    ensures Shaped(r, a.rows, a.cols)
    ensures forall i, j :: 0 <= i < a.rows && 0 <= j < a.cols ==> r.cells[i][j] == a.cells[i][j] * s
  {
    Mat(a.rows, a.cols,
      seq(a.rows, i requires 0 <= i < a.rows =>
        seq(a.cols, j requires 0 <= j < a.cols => a.cells[i][j] * s)))
  }

  /** The sum over k < n of a[i][k] * b[k][j], accumulated from k = 0 upwards. */
  function Dot(a: Mat, b: Mat, i: nat, j: nat, n: nat): real
    requires WellFormed(a) && WellFormed(b) && a.cols == b.rows
    requires i < a.rows && j < b.cols && n <= a.cols
  {
    if n == 0 then 0.0 else Dot(a, b, i, j, n - 1) + a.cells[i][n - 1] * b.cells[n - 1][j]
  }

  /** The matrix product: entry (i, j) is the inner product of row i of a and column j of b. */
  function Times(a: Mat, b: Mat): (r: Mat)
    requires WellFormed(a) && WellFormed(b) && a.cols == b.rows
    ensures Shaped(r, a.rows, b.cols)
    ensures forall i, j :: 0 <= i < a.rows && 0 <= j < b.cols ==> r.cells[i][j] == Dot(a, b, i, j, a.cols)
  {
    Mat(a.rows, b.cols,
      seq(a.rows, i requires 0 <= i < a.rows =>
        seq(b.cols, j requires 0 <= j < b.cols => Dot(a, b, i, j, a.cols))))
  }

  /** `a + b`, throwing `invalid_argument` unless the shapes agree. */
  function TryAdd(a: Mat, b: Mat): (r: Result<Mat>)
    requires WellFormed(a) && WellFormed(b)
    ensures r.Err? <==> !SameShape(a, b)
    ensures r.Err? ==> r.error == InvalidArgument
    ensures r.Ok? ==> r.value == Plus(a, b)
  {
    if SameShape(a, b) then Ok(Plus(a, b)) else Err(InvalidArgument)
  }

  /** `a - b`, throwing `invalid_argument` unless the shapes agree. */
  function TrySub(a: Mat, b: Mat): (r: Result<Mat>)
    requires WellFormed(a) && WellFormed(b)
    ensures r.Err? <==> !SameShape(a, b)
    ensures r.Err? ==> r.error == InvalidArgument
    ensures r.Ok? ==> r.value == Minus(a, b)
  {
    if SameShape(a, b) then Ok(Minus(a, b)) else Err(InvalidArgument)
  }

  /** `a * b`, throwing `invalid_argument` unless a.cols == b.rows. */
  function TryMul(a: Mat, b: Mat): (r: Result<Mat>)
    requires WellFormed(a) && WellFormed(b)
    ensures r.Err? <==> a.cols != b.rows
    ensures r.Err? ==> r.error == InvalidArgument
    ensures r.Ok? ==> r.value == Times(a, b)
  {
    if a.cols == b.rows then Ok(Times(a, b)) else Err(InvalidArgument)
  }

  /** The rows laid end to end (row-major order). */
  function Flatten(cells: seq<seq<real>>): seq<real>
  {
    if |cells| == 0 then [] else Flatten(cells[..|cells| - 1]) + cells[|cells| - 1]
  }

  lemma {:induction false} FlattenLength(cells: seq<seq<real>>, c: nat)
    requires forall i :: 0 <= i < |cells| ==> |cells[i]| == c
    ensures |Flatten(cells)| == |cells| * c
  {
    if |cells| > 0 {
      var n := |cells|;
      FlattenLength(cells[..n - 1], c);
      assert (n - 1) * c + c == n * c;
    }
  }

  /** Entry (i, j) of a matrix with c columns sits at position i * c + j of its flattening. */
  lemma {:induction false} FlattenIndex(cells: seq<seq<real>>, c: nat, i: nat, j: nat)
    requires forall k :: 0 <= k < |cells| ==> |cells[k]| == c
    requires i < |cells| && j < c
    ensures i * c + j < |Flatten(cells)| && Flatten(cells)[i * c + j] == cells[i][j]
  {
    var n := |cells|;
    var front := cells[..n - 1];
    FlattenLength(front, c);
    FlattenLength(cells, c);
    if i < n - 1 {
      FlattenIndex(front, c, i, j);
    } else {
      assert i * c + j == |Flatten(front)| + j;
    }
  }

  /** Position i * c + j of the flattening of a matrix with c columns. */
  function Pos(c: nat, i: nat, j: nat): nat
  {
    i * c + j
  }

  /** `(A + B) - B == A`. */
  lemma SubAfterAdd(a: Mat, b: Mat)
    requires WellFormed(a) && WellFormed(b) && SameShape(a, b)
    ensures Minus(Plus(a, b), b) == a
  {
    Ext(Minus(Plus(a, b), b), a);
  }

  /** `A + B == B + A`. */
  lemma PlusCommutes(a: Mat, b: Mat)
    requires WellFormed(a) && WellFormed(b) && SameShape(a, b)
    ensures Plus(a, b) == Plus(b, a)
  {
    Ext(Plus(a, b), Plus(b, a));
  }

  /** `A * 1 == A` for the scalar product. */
  lemma ScaleByOne(a: Mat)
    requires WellFormed(a)
    ensures Scaled(a, 1.0) == a
  {
    Ext(Scaled(a, 1.0), a);
  }

  /** The inner product with a zero left operand is zero. */
  lemma {:induction false} DotZeroLeft(a: Mat, b: Mat, i: nat, j: nat, n: nat)
    requires WellFormed(a) && WellFormed(b) && a.cols == b.rows
    requires i < a.rows && j < b.cols && n <= a.cols
    requires forall k :: 0 <= k < a.cols ==> a.cells[i][k] == 0.0
    ensures Dot(a, b, i, j, n) == 0.0
  {
    if n > 0 {
      DotZeroLeft(a, b, i, j, n - 1);
    }
  }

  /** A zero matrix times anything is a zero matrix. */
  lemma TimesZeroLeft(r: nat, b: Mat)
    requires WellFormed(b)
    ensures Times(Zeros(r, b.rows), b) == Zeros(r, b.cols)
  {
    var z := Zeros(r, b.rows);
    forall i, j | 0 <= i < r && 0 <= j < b.cols
      ensures Times(z, b).cells[i][j] == 0.0
    {
      DotZeroLeft(z, b, i, j, b.rows);
    }
    Ext(Times(z, b), Zeros(r, b.cols));
  }

  /**
   * The sum over j < m of (the first n terms of row i of a times column j
   * of b) * c[j][l]: entry (i, l) of (a * b) * c, with the inner sums cut
   * short at n terms.
   */
  function DotDot(a: Mat, b: Mat, c: Mat, i: nat, l: nat, m: nat, n: nat): real
    requires WellFormed(a) && WellFormed(b) && WellFormed(c) && a.cols == b.rows && b.cols == c.rows
    requires i < a.rows && l < c.cols && m <= b.cols && n <= a.cols
  {
    if m == 0 then 0.0 else DotDot(a, b, c, i, l, m - 1, n) + Dot(a, b, i, m - 1, n) * c.cells[m - 1][l]
  }

  /** Taking no terms of the inner sums gives 0. */
  lemma {:induction false} DotDotEmpty(a: Mat, b: Mat, c: Mat, i: nat, l: nat, m: nat)
    requires WellFormed(a) && WellFormed(b) && WellFormed(c) && a.cols == b.rows && b.cols == c.rows
    requires i < a.rows && l < c.cols && m <= b.cols
    ensures DotDot(a, b, c, i, l, m, 0) == 0.0
  {
    if m > 0 {
      DotDotEmpty(a, b, c, i, l, m - 1);
    }
  }

  /** The last inner term k = n - 1, pulled out of every inner sum, is a[i][k] times entry (k, l) of b * c. */
  lemma {:induction false} DotDotPeel(a: Mat, b: Mat, c: Mat, i: nat, l: nat, m: nat, n: nat)
    requires WellFormed(a) && WellFormed(b) && WellFormed(c) && a.cols == b.rows && b.cols == c.rows
    requires i < a.rows && l < c.cols && m <= b.cols && 0 < n <= a.cols
    ensures DotDot(a, b, c, i, l, m, n) ==
            DotDot(a, b, c, i, l, m, n - 1) + a.cells[i][n - 1] * Dot(b, c, n - 1, l, m)
  {
    if m > 0 {
      DotDotPeel(a, b, c, i, l, m - 1, n);
      var x, y := a.cells[i][n - 1], b.cells[n - 1][m - 1];
      var z := c.cells[m - 1][l];
      assert (Dot(a, b, i, m - 1, n - 1) + x * y) * z == Dot(a, b, i, m - 1, n - 1) * z + x * (y * z);
    }
  }

  /** Entry (i, l) of (a * b) * c is the double sum, over all terms. */
  lemma {:induction false} DotDotLeft(a: Mat, b: Mat, c: Mat, i: nat, l: nat, m: nat)
    requires WellFormed(a) && WellFormed(b) && WellFormed(c) && a.cols == b.rows && b.cols == c.rows
    requires i < a.rows && l < c.cols && m <= b.cols
    ensures Dot(Times(a, b), c, i, l, m) == DotDot(a, b, c, i, l, m, a.cols)
  {
    if m > 0 {
      DotDotLeft(a, b, c, i, l, m - 1);
    }
  }

  /** The double sum over the first n inner terms is the first n terms of entry (i, l) of a * (b * c). */
  lemma {:induction false} DotDotRight(a: Mat, b: Mat, c: Mat, i: nat, l: nat, n: nat)
    requires WellFormed(a) && WellFormed(b) && WellFormed(c) && a.cols == b.rows && b.cols == c.rows
    requires i < a.rows && l < c.cols && n <= a.cols
    ensures DotDot(a, b, c, i, l, b.cols, n) == Dot(a, Times(b, c), i, l, n)
  {
    if n == 0 {
      DotDotEmpty(a, b, c, i, l, b.cols);
    } else {
      DotDotRight(a, b, c, i, l, n - 1);
      DotDotPeel(a, b, c, i, l, b.cols, n);
    }
  }

  /** The matrix product is associative: (A * B) * C == A * (B * C). */
  lemma TimesAssoc(a: Mat, b: Mat, c: Mat)
    requires WellFormed(a) && WellFormed(b) && WellFormed(c) && a.cols == b.rows && b.cols == c.rows
    ensures Times(Times(a, b), c) == Times(a, Times(b, c))
  {
    var left, right := Times(Times(a, b), c), Times(a, Times(b, c));
    forall i, l | 0 <= i < a.rows && 0 <= l < c.cols
      ensures left.cells[i][l] == right.cells[i][l]
    {
      DotDotLeft(a, b, c, i, l, b.cols);
      DotDotRight(a, b, c, i, l, a.cols);
    }
    Ext(left, right);
  }

  /**
   * A `Matrix<double>` object: a fixed shape and row storage that `Set`
   * and `Randomize` update in place; the arithmetic operators leave both
   * operands alone and return a fresh matrix.
   */
  class Matrix {
    var data: seq<seq<real>>
    const rows: nat
    const cols: nat

    function Value(): Mat
      reads this
    {
      Mat(rows, cols, data)
    }

    predicate Valid()
      reads this
    {
      WellFormed(Value())
    }

    /** `Matrix()`: the 0 x 0 matrix. */
    constructor Empty()
      ensures Valid() && Value() == Mat(0, 0, [])
    {
      rows, cols := 0, 0;
      data := [];
    }

    /** `Matrix(r, c)`: r rows of c zeros. */
    constructor (r: nat, c: nat)
      ensures Valid() && Value() == Zeros(r, c)
    {
      rows, cols := r, c;
      data := Zeros(r, c).cells;
    }

    /**
     * `Matrix(vector<vector<T>>)`: rows is the outer length, cols the length
     * of the first row (0 when there is none). The source does not check that
     * the rows are equally long; the model asks it of the caller.
     */
    constructor FromRows(input: seq<seq<real>>)
      requires Rectangular(input)
      ensures Valid() && data == input && rows == |input|
      ensures cols == if |input| > 0 then |input[0]| else 0
    {
      rows := |input|;
      cols := if |input| > 0 then |input[0]| else 0;
      data := input;
    }

    /** `Matrix(vec, column)`: an n x 1 column, or a 1 x n row. */
    constructor FromVector(vec: seq<real>, column: bool)
      ensures Valid() && Value() == if column then Column(vec) else Row(vec)
    {
      if column {
        var d := seq(|vec|, _ => [0.0]);
        for i := 0 to |vec|
          invariant |d| == |vec| && forall k :: 0 <= k < |vec| ==> |d[k]| == 1
          invariant forall k :: 0 <= k < i ==> d[k][0] == vec[k]
        {
          d := d[i := d[i][0 := vec[i]]];
        }
        Ext(Mat(|vec|, 1, d), Column(vec));
        rows, cols := |vec|, 1;
        data := d;
      } else {
        rows, cols := 1, |vec|;
        data := [vec];
      }
    }

    /** `operator()(row, col)`: the entry, or `out_of_range` outside the shape. */
    function Get(row: nat, col: nat): (r: Result<real>)
      reads this
      requires Valid()
      ensures r.Err? <==> !InBounds(Value(), row, col)
      ensures r.Err? ==> r.error == OutOfRange
      ensures r.Ok? ==> r.value == data[row][col]
    {
      if row >= rows || col >= cols then Err(OutOfRange) else Ok(data[row][col])
    }

    /** `set(row, col, value)`: replaces one entry, or throws `out_of_range` and changes nothing. */
    method Set(row: nat, col: nat, value: real) returns (o: Outcome)
      requires Valid()
      modifies this
      ensures Valid()
      ensures o.Fail? <==> !InBounds(old(Value()), row, col)
      ensures o.Fail? ==> o.error == OutOfRange && data == old(data)
      ensures o.Pass? ==> Value() == SetCell(old(Value()), row, col, value)
    {
      if row >= rows || col >= cols {
        return Fail(OutOfRange);
      }
      data := data[row := data[row][col := value]];
      o := Pass;
    }

    /** `operator+`: throws `invalid_argument` unless the shapes agree. */
    method Add(other: Matrix) returns (r: Result<Matrix>)
      requires Valid() && other.Valid()
      ensures r.Err? <==> !SameShape(Value(), other.Value())
      ensures r.Err? ==> r.error == InvalidArgument
      ensures r.Ok? ==> fresh(r.value) && r.value.Valid() && r.value.Value() == Plus(Value(), other.Value())
    {
      if rows != other.rows || cols != other.cols {
        return Err(InvalidArgument);
      }
      var result := new Matrix(rows, cols);
      for i := 0 to rows
        invariant result.Valid() && result.rows == rows && result.cols == cols
        invariant forall p, q :: 0 <= p < i && 0 <= q < cols ==>
                    result.data[p][q] == data[p][q] + other.data[p][q]
      {
        for j := 0 to cols
          invariant result.Valid() && result.rows == rows && result.cols == cols
          invariant forall p, q :: 0 <= p < i && 0 <= q < cols ==>
                      result.data[p][q] == data[p][q] + other.data[p][q]
          invariant forall q :: 0 <= q < j ==> result.data[i][q] == data[i][q] + other.data[i][q]
        {
          var x := other.Get(i, j);
          var o := result.Set(i, j, data[i][j] + x.value);
        }
      }
      Ext(result.Value(), Plus(Value(), other.Value()));
      r := Ok(result);
    }

    /** `operator-`: throws `invalid_argument` unless the shapes agree. */
    method Sub(other: Matrix) returns (r: Result<Matrix>)
      requires Valid() && other.Valid()
      ensures r.Err? <==> !SameShape(Value(), other.Value())
      ensures r.Err? ==> r.error == InvalidArgument
      ensures r.Ok? ==> fresh(r.value) && r.value.Valid() && r.value.Value() == Minus(Value(), other.Value())
    {
      if rows != other.rows || cols != other.cols {
        return Err(InvalidArgument);
      }
      var result := new Matrix(rows, cols);
      for i := 0 to rows
        invariant result.Valid() && result.rows == rows && result.cols == cols
        invariant forall p, q :: 0 <= p < i && 0 <= q < cols ==>
                    result.data[p][q] == data[p][q] - other.data[p][q]
      {
        for j := 0 to cols
          invariant result.Valid() && result.rows == rows && result.cols == cols
          invariant forall p, q :: 0 <= p < i && 0 <= q < cols ==>
                      result.data[p][q] == data[p][q] - other.data[p][q]
          invariant forall q :: 0 <= q < j ==> result.data[i][q] == data[i][q] - other.data[i][q]
        {
          var x := other.Get(i, j);
          var o := result.Set(i, j, data[i][j] - x.value);
        }
      }
      Ext(result.Value(), Minus(Value(), other.Value()));
      r := Ok(result);
    }

    /** `operator*(Matrix)`: throws `invalid_argument` unless cols == other.rows. */
    method Mul(other: Matrix) returns (r: Result<Matrix>)
      requires Valid() && other.Valid()
      ensures r.Err? <==> cols != other.rows
      ensures r.Err? ==> r.error == InvalidArgument
      ensures r.Ok? ==> fresh(r.value) && r.value.Valid() && r.value.Value() == Times(Value(), other.Value())
    {
      if cols != other.rows {
        return Err(InvalidArgument);
      }
      var result := new Matrix(rows, other.cols);
      for i := 0 to rows
        invariant result.Valid() && result.rows == rows && result.cols == other.cols
        invariant forall p, q :: 0 <= p < i && 0 <= q < other.cols ==>
                    result.data[p][q] == Dot(Value(), other.Value(), p, q, cols)
      {
        for j := 0 to other.cols
          invariant result.Valid() && result.rows == rows && result.cols == other.cols
          invariant forall p, q :: 0 <= p < i && 0 <= q < other.cols ==>
                      result.data[p][q] == Dot(Value(), other.Value(), p, q, cols)
          invariant forall q :: 0 <= q < j ==> result.data[i][q] == Dot(Value(), other.Value(), i, q, cols)
        {
          var sum := 0.0;
          for k := 0 to cols
            invariant sum == Dot(Value(), other.Value(), i, j, k)
          {
            var x := other.Get(k, j);
            sum := sum + data[i][k] * x.value;
          }
          var o := result.Set(i, j, sum);
        }
      }
      Ext(result.Value(), Times(Value(), other.Value()));
      r := Ok(result);
    }

    /** `operator*(T)`: every entry scaled; never throws. */
    method Scale(scalar: real) returns (r: Matrix)
      requires Valid()
      ensures fresh(r) && r.Valid() && r.Value() == Scaled(Value(), scalar)
    {
      r := new Matrix(rows, cols);
      for i := 0 to rows
        invariant r.Valid() && r.rows == rows && r.cols == cols
        invariant forall p, q :: 0 <= p < i && 0 <= q < cols ==> r.data[p][q] == data[p][q] * scalar
      {
        for j := 0 to cols
          invariant r.Valid() && r.rows == rows && r.cols == cols
          invariant forall p, q :: 0 <= p < i && 0 <= q < cols ==> r.data[p][q] == data[p][q] * scalar
          invariant forall q :: 0 <= q < j ==> r.data[i][q] == data[i][q] * scalar
        {
          var o := r.Set(i, j, data[i][j] * scalar);
        }
      }
      Ext(r.Value(), Scaled(Value(), scalar));
    }

    /**
     * `randomize(minVal, maxVal)`: every entry overwritten by a draw. The draws
     * of the random generator are the parameter `draw`, within [minVal, maxVal].
     */
    method Randomize(draw: (nat, nat) -> real, minVal: real, maxVal: real)
      requires Valid()
      requires forall i, j :: minVal <= draw(i, j) <= maxVal
      modifies this
      ensures Valid() && Value() == Tabulate(rows, cols, draw)
      ensures forall i, j :: 0 <= i < rows && 0 <= j < cols ==> minVal <= data[i][j] <= maxVal
    {
      for i := 0 to rows
        invariant Valid()
        invariant forall p, q :: 0 <= p < i && 0 <= q < cols ==> data[p][q] == draw(p, q)
      {
        for j := 0 to cols
          invariant Valid()
          invariant forall p, q :: 0 <= p < i && 0 <= q < cols ==> data[p][q] == draw(p, q)
          invariant forall q :: 0 <= q < j ==> data[i][q] == draw(i, q)
        {
          data := data[i := data[i][j := draw(i, j)]];
        }
      }
      Ext(Value(), Tabulate(rows, cols, draw));
    }

    /** `toVector()`: the entries in row-major order; entry (i, j) lands at i * cols + j. */
    method ToVector() returns (v: seq<real>)
      requires Valid()
      ensures v == Flatten(data)
      ensures |v| == rows * cols
      ensures forall i, j :: 0 <= i < rows && 0 <= j < cols ==> Pos(cols, i, j) < |v| && v[Pos(cols, i, j)] == data[i][j]
    {
      v := [];
      for i := 0 to rows
        invariant v == Flatten(data[..i])
      {
        for j := 0 to cols
          invariant v == Flatten(data[..i]) + data[i][..j]
        {
          v := v + [data[i][j]];
          assert data[i][..j + 1] == data[i][..j] + [data[i][j]];
        }
        assert data[..i + 1][..i] == data[..i];
        assert data[i][..cols] == data[i];
      }
      assert data[..rows] == data;
      FlattenLength(data, cols);
      forall i, j | 0 <= i < rows && 0 <= j < cols
        ensures Pos(cols, i, j) < |v| && v[Pos(cols, i, j)] == data[i][j]
      {
        FlattenIndex(data, cols, i, j);
      }
    }
  }
}
