/**
 * Shared vocabulary of the terrain code: the engine's 3-vector, real helpers and the
 * row-major index arithmetic `x + y * n` used by every grid in the project.
 */
module Grid {

  /** FVector: a height map entry holds the vertex position; the erosion code writes only Z. */
  datatype Vector = Vector(X: real, Y: real, Z: real)

  const ZeroVector := Vector(0.0, 0.0, 0.0)

  function Add(a: Vector, b: Vector): Vector {
    Vector(a.X + b.X, a.Y + b.Y, a.Z + b.Z)
  }

  function Sub(a: Vector, b: Vector): Vector {
    Vector(a.X - b.X, a.Y - b.Y, a.Z - b.Z)
  }

  /** FVector::CrossProduct. */
  function Cross(a: Vector, b: Vector): Vector {
    Vector(a.Y * b.Z - a.Z * b.Y, a.Z * b.X - a.X * b.Z, a.X * b.Y - a.Y * b.X)
  }

  /** FVector2D, used for texture coordinates. */
  datatype Vector2 = Vector2(X: real, Y: real)

  function Max(a: real, b: real): real {
    if a >= b then a else b
  }

  function Min(a: real, b: real): real {
    if a <= b then a else b
  }

  function Abs(a: real): real {
    if a >= 0.0 then a else -a
  }

  /** Sum of the Z components. */
  function SumZ(s: seq<Vector>): real {
    SumZPrefix(s, |s|)
  }

  /** Sum of the Z components of the first n entries. */
  function SumZPrefix(s: seq<Vector>, n: nat): real
    requires n <= |s|
  {
    if n == 0 then 0.0 else SumZPrefix(s, n - 1) + s[n - 1].Z
  }

  /** Replacing one entry changes the total height by exactly the change of that entry. */
  lemma SumZUpdate(s: seq<Vector>, k: int, v: Vector)
    requires 0 <= k < |s|
    ensures SumZ(s[k := v]) == SumZ(s) - s[k].Z + v.Z
  {
    SumZPrefixUpdate(s, k, v, |s|);
  }

  lemma {:induction false} SumZPrefixUpdate(s: seq<Vector>, k: int, v: Vector, n: nat)
    requires 0 <= k < |s| && n <= |s|
    ensures SumZPrefix(s[k := v], n) == SumZPrefix(s, n) + (if k < n then v.Z - s[k].Z else 0.0)
  {
    if n > 0 {
      SumZPrefixUpdate(s, k, v, n - 1);
    }
  }

  /** Sum of a sequence of reals, summed from the front. */
  function Sum(s: seq<real>): real {
    if |s| == 0 then 0.0 else Sum(s[..|s| - 1]) + s[|s| - 1]
  }

  lemma SumAppend(s: seq<real>, r: real)
    ensures Sum(s + [r]) == Sum(s) + r
  {
    assert (s + [r])[..|s|] == s;
  }

  /** A sum of non-negative reals is at least each of its terms. */
  lemma {:induction false} SumAtLeastTerm(s: seq<real>, j: int)
    requires forall k :: 0 <= k < |s| ==> s[k] >= 0.0
    requires 0 <= j < |s|
    ensures Sum(s) >= s[j]
  {
    var n := |s| - 1;
    SumNonnegative(s[..n]);
    if j < n {
      SumAtLeastTerm(s[..n], j);
    }
  }

  lemma {:induction false} SumNonnegative(s: seq<real>)
    requires forall k :: 0 <= k < |s| ==> s[k] >= 0.0
    ensures Sum(s) >= 0.0
  {
    if |s| > 0 {
      SumNonnegative(s[..|s| - 1]);
    }
  }

  /** Dividing every term by the same positive divisor divides the sum by it. */
  lemma {:induction false} SumScaled(s: seq<real>, t: seq<real>, d: real)
    requires d > 0.0 && |s| == |t|
    requires forall k :: 0 <= k < |s| ==> t[k] == s[k] / d
    ensures Sum(t) == Sum(s) / d
  {
    if |s| > 0 {
      var n := |s| - 1;
      SumScaled(s[..n], t[..n], d);
      assert Sum(t) == Sum(s[..n]) / d + s[n] / d;
    }
  }

  /** Row-major layout: entry `x + y * n` of an n-wide grid sits in column x of row y. */
  lemma RowMajor(x: int, y: int, n: int)
    requires 0 <= x < n && 0 <= y
    ensures (x + y * n) % n == x && (x + y * n) / n == y
  {
    var i := x + y * n;
    var q, r := i / n, i % n;
    assert i == q * n + r;
    MultipleBelowDivisor(y - q, n, r - x);
  }

  /** The only multiple of n strictly between -n and n is 0. */
  lemma MultipleBelowDivisor(k: int, n: int, m: int)
    requires n > 0 && m == k * n && -n < m < n
    ensures k == 0
  {
    if k > 0 {
      MulMonotone(1, k, n);
    } else if k < 0 {
      MulMonotone(k, -1, n);
    }
  }

  /** The entries of an n-by-n row-major grid are exactly the indices below n * n. */
  lemma RowMajorInRange(x: int, y: int, n: int)
    requires 0 <= x < n && 0 <= y < n
    ensures 0 <= x + y * n < n * n
  {
    assert y * n <= (n - 1) * n;
  }

  lemma MulMonotone(a: int, b: int, n: int)
    requires a <= b && n >= 0
    ensures a * n <= b * n
  {
  }

  /** A finished row of an n-wide grid ends where the next row starts. */
  lemma NextRow(y: int, n: int)
    ensures y * n + n == (y + 1) * n
  {
  }

  /** Every index of an n-by-n grid has a column and a row inside the grid. */
  lemma IndexCoordinates(i: int, n: int)
    requires n > 0 && 0 <= i < n * n
    ensures 0 <= i % n < n && 0 <= i / n < n && i == i % n + (i / n) * n
  {
    var q := i / n;
    assert i == q * n + i % n;
    if q >= n {
      MulMonotone(n, q, n);
    }
  }
}
