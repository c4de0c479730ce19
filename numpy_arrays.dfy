/**
 * The numpy and Python building blocks the scripts use, over exact reals:
 * the constant pi, int() on a float, linspace, diff, element-wise division
 * and the transpose of a stacked array.
 */
module NumpyArrays {

  /** numpy's pi, written with the digits Python prints for it. */
  const Pi: real := 3.141592653589793

  /** Python's int() on a float: truncation toward zero. */
  function Trunc(r: real): (i: int)
    ensures r >= 0.0 ==> 0 <= i && i as real <= r < i as real + 1.0
    ensures r < 0.0 ==> i <= 0 && i as real - 1.0 < r <= i as real
  {
    if r >= 0.0 then r.Floor else -((-r).Floor)
  }

  /** The last element, Python's a[-1]. */
  function Last(a: seq<real>): (x: real)
    requires |a| > 0
    ensures x in a
  {
    a[|a| - 1]
  }

  /**
   * np.linspace(start, stop, num) with its default endpoint=True: sample k is
   * start + k * step with step = (stop - start) / (num - 1), and the last
   * sample is set to stop itself. With num == 1 the only sample is start.
   */
  function Linspace(start: real, stop: real, num: nat): (r: seq<real>)
    ensures |r| == num
    ensures num > 0 ==> r[0] == start
    ensures num > 1 ==> r[num - 1] == stop
    ensures num > 1 ==> forall k :: 0 <= k < num ==> r[k] == start + (k as real) * (stop - start) / ((num - 1) as real)
    ensures num > 1 ==> forall k :: 0 <= k < num - 1 ==> r[k + 1] - r[k] == (stop - start) / ((num - 1) as real)
  {
    var step := if num > 1 then (stop - start) / ((num - 1) as real) else 0.0;
    var r := seq(num, k requires 0 <= k < num => if num > 1 && k == num - 1 then stop else start + (k as real) * step);
    if num > 1 then
      LinspaceLastSample(start, stop, num - 1);
      LinspaceSpacing(start, stop, num - 1, r);
      r
    else
      r
  }

  /** The formula start + k * step already reaches stop at k = num - 1. */
  lemma LinspaceLastSample(start: real, stop: real, m: nat)
    requires m > 0
    ensures start + (m as real) * ((stop - start) / (m as real)) == stop
    ensures (m as real) * (stop - start) / (m as real) == stop - start
  {
  }

  lemma LinspaceSpacing(start: real, stop: real, m: nat, r: seq<real>)
    requires m > 0 && |r| == m + 1
    requires forall k :: 0 <= k <= m ==> r[k] == start + (k as real) * ((stop - start) / (m as real))
    ensures forall k :: 0 <= k <= m ==> r[k] == start + (k as real) * (stop - start) / (m as real)
    ensures forall k :: 0 <= k < m ==> r[k + 1] - r[k] == (stop - start) / (m as real)
  {
    var step := (stop - start) / (m as real);
    forall k | 0 <= k <= m
      ensures r[k] == start + (k as real) * (stop - start) / (m as real)
    {
      assert (k as real) * step == (k as real) * (stop - start) / (m as real);
    }
    forall k | 0 <= k < m
      ensures r[k + 1] - r[k] == step
    {
      assert ((k + 1) as real) * step == (k as real) * step + step;
    }
  }

  /** np.diff(a): the differences of neighbouring elements, one fewer than a has. */
  function Diff(a: seq<real>): (r: seq<real>)
    ensures |r| == if |a| == 0 then 0 else |a| - 1
    ensures forall k :: 0 <= k < |r| ==> r[k] == a[k + 1] - a[k]
  {
    if |a| < 2 then [] else [a[1] - a[0]] + Diff(a[1..])
  }

  /** Division of every element by the scalar d, numpy's `a / d`. */
  function Divide(a: seq<real>, d: real): (r: seq<real>)
    requires d != 0.0
    ensures |r| == |a|
    ensures forall k :: 0 <= k < |a| ==> r[k] == a[k] / d
  {
    seq(|a|, k requires 0 <= k < |a| => a[k] / d)
  }

  /** `np.array(rows).T` for rows that all have `width` elements. */
  function Transpose(rows: seq<seq<real>>, width: nat): (r: seq<seq<real>>)
    requires forall i :: 0 <= i < |rows| ==> |rows[i]| == width
    ensures |r| == width
    ensures forall k :: 0 <= k < width ==> |r[k]| == |rows|
    ensures forall k, i :: 0 <= k < width && 0 <= i < |rows| ==> r[k][i] == rows[i][k]
  {
    seq(width, k requires 0 <= k < width => seq(|rows|, i requires 0 <= i < |rows| => rows[i][k]))
  }

  /** Row k of four stacked and transposed arrays is their k-th elements. */
  lemma TransposeOfFourRows(a: seq<real>, b: seq<real>, c: seq<real>, d: seq<real>, k: nat)
    requires |a| == |b| == |c| == |d| && k < |a|
    ensures Transpose([a, b, c, d], |a|)[k] == [a[k], b[k], c[k], d[k]]
  {
  }
}
