/** Integer matrices as lists of rows, and the product both
    `matrix_multiply` implementations compute when they do not raise. */
module Matrices {

  type Matrix = seq<seq<int>>

  /** Every row is at least as long as the first one, so indexing any row
      by a column of the first row succeeds. */
  predicate RowsCoverFirst(m: Matrix) {
    m != [] && forall i :: 0 <= i < |m| ==> |m[i]| >= |m[0]|
  }

  /** Both matrices have a first row and the column count of the first
      (`len(matrix1[0])`) equals the row count of the second. */
  predicate Conformable(m1: Matrix, m2: Matrix) {
    m1 != [] && m2 != [] && |m1[0]| == |m2|
  }

  /** The product can be computed without an index error: either no entry is
      computed at all (`len(matrix2[0]) == 0`) or every row the loops index
      is long enough. */
  predicate Multipliable(m1: Matrix, m2: Matrix) {
    Conformable(m1, m2) && (|m2[0]| > 0 ==> RowsCoverFirst(m1) && RowsCoverFirst(m2))
  }

  /** `sum(row[k] * m[k][j] for k in range(n))`, accumulated left to right. */
  function Dot(row: seq<int>, m: Matrix, j: nat, n: nat): int
    requires n <= |row| && n <= |m|
    requires forall k :: 0 <= k < n ==> j < |m[k]|
  {
    if n == 0 then 0 else Dot(row, m, j, n - 1) + row[n - 1] * m[n - 1][j]
  }

  /** The `len(matrix1)` by `len(matrix2[0])` matrix of dot products. */
  function Product(m1: Matrix, m2: Matrix): (p: Matrix)
    requires Multipliable(m1, m2)
    ensures |p| == |m1|
    ensures forall i :: 0 <= i < |p| ==> |p[i]| == |m2[0]|
  {
    seq(|m1|, i requires 0 <= i < |m1| =>
      seq(|m2[0]|, j requires 0 <= j < |m2[0]| => Dot(m1[i], m2, j, |m2|)))
  }

  /** The entry of the product in row `i`, column `j`. */
  lemma ProductEntry(m1: Matrix, m2: Matrix, i: nat, j: nat)
    requires Multipliable(m1, m2) && i < |m1| && j < |m2[0]|
    ensures Product(m1, m2)[i][j] == Dot(m1[i], m2, j, |m2|)
  {
  }

  /** The n-by-n identity matrix. */
  function Identity(n: nat): (id: Matrix)
    ensures |id| == n
    ensures forall i :: 0 <= i < n ==> |id[i]| == n
  {
    seq(n, i requires 0 <= i < n => seq(n, j requires 0 <= j < n => if i == j then 1 else 0))
  }

  /** A partial dot product with the identity's column `j` picks `row[j]`
      once the sum has reached column `j`. */
  lemma {:induction false} DotIdentity(row: seq<int>, n: nat, j: nat, p: nat)
    requires j < n && p <= n && n <= |row|
    ensures Dot(row, Identity(n), j, p) == if j < p then row[j] else 0
  {
    if p > 0 {
      DotIdentity(row, n, j, p - 1);
    }
  }

  /** Multiplying a matrix by the identity of its width gives it back
      (test_performance.py, test_identity_matrix). */
  lemma ProductIdentity(m: Matrix)
    requires m != [] && |m[0]| > 0
    requires forall i :: 0 <= i < |m| ==> |m[i]| == |m[0]|
    ensures Multipliable(m, Identity(|m[0]|))
    ensures Product(m, Identity(|m[0]|)) == m
  {
    var n := |m[0]|;
    var p := Product(m, Identity(n));
    forall i | 0 <= i < |m|
      ensures p[i] == m[i]
    {
      forall j | 0 <= j < n
        ensures p[i][j] == m[i][j]
      {
        DotIdentity(m[i], n, j, n);
      }
    }
  }
}
