/**
 * Vectors and square matrices over the reals, and the quadratic form
 * d^T S d written as the double sum over i and j of d[i] * S[i][j] * d[j]
 * (the index expression "i,ij,j" of numpy's einsum).
 */
module Linalg {

  /** A double-pendulum state: two joint angles followed by two joint velocities. */
  type Vec4 = v: seq<real> | |v| == 4 witness [0.0, 0.0, 0.0, 0.0]

  /** `m` has `n` rows of `n` entries each. */
  predicate IsSquare(m: seq<seq<real>>, n: nat) {
    |m| == n && forall i :: 0 <= i < n ==> |m[i]| == n
  }

  /** A 4x4 matrix, such as the region-of-attraction matrix S. */
  type Mat4 = m: seq<seq<real>> | IsSquare(m, 4)
    witness [[0.0, 0.0, 0.0, 0.0], [0.0, 0.0, 0.0, 0.0], [0.0, 0.0, 0.0, 0.0], [0.0, 0.0, 0.0, 0.0]]

  /** Element-wise difference, numpy's `x - y` on arrays of equal length. */
  function Minus(x: seq<real>, y: seq<real>): (d: seq<real>)
    requires |x| == |y|
    ensures |d| == |x|
    ensures forall i :: 0 <= i < |x| ==> d[i] == x[i] - y[i]
  {
    seq(|x|, i requires 0 <= i < |x| => x[i] - y[i])
  }

  /** The inner sum over j >= `j` of c * row[j] * d[j]. */
  function RowSum(c: real, row: seq<real>, d: seq<real>, j: nat): real
    requires |row| == |d| && j <= |d|
    decreases |d| - j
  {
    if j == |d| then 0.0 else c * row[j] * d[j] + RowSum(c, row, d, j + 1)
  }

  /** The outer sum over i >= `i` of the inner sums with coefficient d[i] and row S[i]. */
  function RowsSum(S: seq<seq<real>>, d: seq<real>, i: nat): real
    requires IsSquare(S, |d|) && i <= |d|
    decreases |d| - i
  {
    if i == |d| then 0.0 else RowSum(d[i], S[i], d, 0) + RowsSum(S, d, i + 1)
  }

  /**
   * d^T S d, the double sum over all i and j of d[i] * S[i][j] * d[j]
   * (QuadraticFormOfFour writes it out for four indices). It vanishes at the
   * zero vector whatever S is.
   */
  function QuadraticForm(S: seq<seq<real>>, d: seq<real>): (r: real)
    requires IsSquare(S, |d|)
    ensures (forall k :: 0 <= k < |d| ==> d[k] == 0.0) ==> r == 0.0
  {
    RowsSumOfZeroVector(S, d, 0);
    RowsSum(S, d, 0)
  }

  /** The n x n identity matrix. */
  function Identity(n: nat): (m: seq<seq<real>>)
    ensures IsSquare(m, n)
    ensures forall i, j :: 0 <= i < n && 0 <= j < n ==> m[i][j] == (if i == j then 1.0 else 0.0)
  {
    seq(n, i requires 0 <= i < n => seq(n, j requires 0 <= j < n => if i == j then 1.0 else 0.0))
  }

  /** Every off-diagonal entry of the n x n matrix S is zero. */
  predicate IsDiagonal(S: seq<seq<real>>, n: nat)
    requires IsSquare(S, n)
  {
    forall i, j :: 0 <= i < n && 0 <= j < n && i != j ==> S[i][j] == 0.0
  }

  /** The sum over k >= `i` of S[k][k] * d[k]^2. */
  function DiagonalSum(S: seq<seq<real>>, d: seq<real>, i: nat): real
    requires IsSquare(S, |d|) && i <= |d|
    decreases |d| - i
  {
    if i == |d| then 0.0 else S[i][i] * (d[i] * d[i]) + DiagonalSum(S, d, i + 1)
  }

  /** The sum over k >= `i` of d[k]^2. */
  function SumOfSquares(d: seq<real>, i: nat): real
    requires i <= |d|
    decreases |d| - i
  {
    if i == |d| then 0.0 else d[i] * d[i] + SumOfSquares(d, i + 1)
  }

  /** An inner sum whose coefficient is zero vanishes. */
  lemma {:induction false} RowSumOfZeroCoefficient(row: seq<real>, d: seq<real>, j: nat)
    requires |row| == |d| && j <= |d|
    ensures RowSum(0.0, row, d, j) == 0.0
    decreases |d| - j
  {
    if j < |d| {
      RowSumOfZeroCoefficient(row, d, j + 1);
    }
  }

  /** The outer sums of the zero vector vanish, for every matrix. */
  lemma {:induction false} RowsSumOfZeroVector(S: seq<seq<real>>, d: seq<real>, i: nat)
    requires IsSquare(S, |d|) && i <= |d|
    ensures (forall k :: 0 <= k < |d| ==> d[k] == 0.0) ==> RowsSum(S, d, i) == 0.0
    decreases |d| - i
  {
    if i < |d| && forall k :: 0 <= k < |d| ==> d[k] == 0.0 {
      RowSumOfZeroCoefficient(S[i], d, 0);
      RowsSumOfZeroVector(S, d, i + 1);
    }
  }

  /** Along a row of a diagonal matrix only the diagonal entry contributes. */
  lemma {:induction false} RowSumOfDiagonalRow(c: real, S: seq<seq<real>>, d: seq<real>, i: nat, j: nat)
    requires IsSquare(S, |d|) && IsDiagonal(S, |d|)
    requires i < |d| && j <= |d|
    ensures RowSum(c, S[i], d, j) == if j <= i then c * S[i][i] * d[i] else 0.0
    decreases |d| - j
  {
    if j < |d| {
      RowSumOfDiagonalRow(c, S, d, i, j + 1);
    }
  }

  lemma {:induction false} RowsSumOfDiagonal(S: seq<seq<real>>, d: seq<real>, i: nat)
    requires IsSquare(S, |d|) && IsDiagonal(S, |d|) && i <= |d|
    ensures RowsSum(S, d, i) == DiagonalSum(S, d, i)
    decreases |d| - i
  {
    if i < |d| {
      RowSumOfDiagonalRow(d[i], S, d, i, 0);
      RowsSumOfDiagonal(S, d, i + 1);
    }
  }

  /** For a diagonal S the double sum collapses to the sum of S[k][k] * d[k]^2. */
  lemma QuadraticFormOfDiagonal(S: seq<seq<real>>, d: seq<real>)
    requires IsSquare(S, |d|) && IsDiagonal(S, |d|)
    ensures QuadraticForm(S, d) == DiagonalSum(S, d, 0)
  {
    RowsSumOfDiagonal(S, d, 0);
  }

  lemma {:induction false} DiagonalSumOfIdentity(d: seq<real>, i: nat)
    requires i <= |d|
    ensures DiagonalSum(Identity(|d|), d, i) == SumOfSquares(d, i)
    decreases |d| - i
  {
    if i < |d| {
      DiagonalSumOfIdentity(d, i + 1);
    }
  }

  /** Under the identity matrix the quadratic form is the sum of squares. */
  lemma QuadraticFormOfIdentity(d: seq<real>)
    ensures QuadraticForm(Identity(|d|), d) == SumOfSquares(d, 0)
  {
    QuadraticFormOfDiagonal(Identity(|d|), d);
    DiagonalSumOfIdentity(d, 0);
  }

  /** With a non-negative diagonal the quadratic form is never negative. */
  lemma {:induction false} DiagonalSumNonnegative(S: seq<seq<real>>, d: seq<real>, i: nat)
    requires IsSquare(S, |d|) && i <= |d|
    requires forall k :: 0 <= k < |d| ==> S[k][k] >= 0.0
    ensures DiagonalSum(S, d, i) >= 0.0
    decreases |d| - i
  {
    if i < |d| {
      DiagonalSumNonnegative(S, d, i + 1);
      assert d[i] * d[i] >= 0.0;
    }
  }

  /** The inner sum of a 4-vector, written out term by term. */
  lemma RowSumOfFour(c: real, row: seq<real>, d: seq<real>)
    requires |row| == 4 && |d| == 4
    ensures RowSum(c, row, d, 0)
         == c * row[0] * d[0] + c * row[1] * d[1] + c * row[2] * d[2] + c * row[3] * d[3]
  {
    assert RowSum(c, row, d, 4) == 0.0;
    assert RowSum(c, row, d, 3) == c * row[3] * d[3];
    assert RowSum(c, row, d, 2) == c * row[2] * d[2] + c * row[3] * d[3];
    assert RowSum(c, row, d, 1) == c * row[1] * d[1] + c * row[2] * d[2] + c * row[3] * d[3];
  }

  /** The einsum "i,ij,j" over four indices, all sixteen products written out. */
  lemma QuadraticFormOfFour(S: seq<seq<real>>, d: seq<real>)
    requires |d| == 4 && IsSquare(S, 4)
    ensures QuadraticForm(S, d)
         == d[0] * S[0][0] * d[0] + d[0] * S[0][1] * d[1] + d[0] * S[0][2] * d[2] + d[0] * S[0][3] * d[3]
          + d[1] * S[1][0] * d[0] + d[1] * S[1][1] * d[1] + d[1] * S[1][2] * d[2] + d[1] * S[1][3] * d[3]
          + d[2] * S[2][0] * d[0] + d[2] * S[2][1] * d[1] + d[2] * S[2][2] * d[2] + d[2] * S[2][3] * d[3]
          + d[3] * S[3][0] * d[0] + d[3] * S[3][1] * d[1] + d[3] * S[3][2] * d[2] + d[3] * S[3][3] * d[3]
  {
    RowSumOfFour(d[0], S[0], d);
    RowSumOfFour(d[1], S[1], d);
    RowSumOfFour(d[2], S[2], d);
    RowSumOfFour(d[3], S[3], d);
    assert RowsSum(S, d, 4) == 0.0;
    assert RowsSum(S, d, 3) == RowSum(d[3], S[3], d, 0);
    assert RowsSum(S, d, 2) == RowSum(d[2], S[2], d, 0) + RowSum(d[3], S[3], d, 0);
    assert RowsSum(S, d, 1) == RowSum(d[1], S[1], d, 0) + RowSum(d[2], S[2], d, 0) + RowSum(d[3], S[3], d, 0);
  }
}
