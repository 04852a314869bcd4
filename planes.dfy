/** One spatial plane of a tensor (the last two axes, rows of columns) over the
    reals, with the element-wise arithmetic, the inner product and the crop that
    the guidance code applies to it. Element-wise operations act on the extent the
    two operands share; the guidance code only combines planes of the same shape. */
module Planes {

  type Row = seq<real>
  type Plane = seq<Row>

  function Min(a: int, b: int): int {
    if a <= b then a else b
  }

  predicate SameShape(a: Plane, b: Plane) {
    |a| == |b| && forall i :: 0 <= i < |a| ==> |a[i]| == |b[i]|
  }

  /** The number of columns, read from the first row (0 for a plane without rows). */
  function Width(p: Plane): nat {
    if |p| == 0 then 0 else |p[0]|
  }

  predicate IsZero(p: Plane) {
    forall i, j :: 0 <= i < |p| && 0 <= j < |p[i]| ==> p[i][j] == 0.0
  }

  function RowAdd(x: Row, y: Row): (z: Row)
    ensures |z| == Min(|x|, |y|)
    ensures forall j :: 0 <= j < |z| ==> z[j] == x[j] + y[j]
  {
    seq(Min(|x|, |y|), j requires 0 <= j < Min(|x|, |y|) => x[j] + y[j])
  }

  function RowSub(x: Row, y: Row): (z: Row)
    ensures |z| == Min(|x|, |y|)
    ensures forall j :: 0 <= j < |z| ==> z[j] == x[j] - y[j]
  {
    seq(Min(|x|, |y|), j requires 0 <= j < Min(|x|, |y|) => x[j] - y[j])
  }

  function RowScale(k: real, x: Row): (z: Row)
    ensures |z| == |x|
    ensures forall j :: 0 <= j < |z| ==> z[j] == k * x[j]
  {
    seq(|x|, j requires 0 <= j < |x| => k * x[j])
  }

  /** Scaling by one changes nothing. */
  lemma ScaleOne(a: Plane)
    ensures Scale(1.0, a) == a
  {
    var c := Scale(1.0, a);
    forall i | 0 <= i < |a|
      ensures c[i] == a[i]
    {
      assert forall j :: 0 <= j < |a[i]| ==> c[i][j] == 1.0 * a[i][j];
    }
  }

  /** The sum of a sequence of reals. */
  function Sum(s: seq<real>): real
    decreases |s|
  {
    if |s| == 0 then 0.0 else s[0] + Sum(s[1..])
  }

  /** The element-wise products of two rows, over the columns they share. */
  function RowProducts(x: Row, y: Row): (z: seq<real>)
    ensures |z| == Min(|x|, |y|)
    ensures forall j :: 0 <= j < |z| ==> z[j] == x[j] * y[j]
  {
    seq(Min(|x|, |y|), j requires 0 <= j < Min(|x|, |y|) => x[j] * y[j])
  }

  function RowDot(x: Row, y: Row): real {
    Sum(RowProducts(x, y))
  }

  /** Element-wise `a + b`. */
  function Add(a: Plane, b: Plane): (c: Plane)
    ensures |c| == Min(|a|, |b|)
    ensures forall i :: 0 <= i < |c| ==> c[i] == RowAdd(a[i], b[i])
    ensures SameShape(a, b) ==> SameShape(c, a)
  {
    seq(Min(|a|, |b|), i requires 0 <= i < Min(|a|, |b|) => RowAdd(a[i], b[i]))
  }

  /** Element-wise `a - b`. */
  function Sub(a: Plane, b: Plane): (c: Plane)
    ensures |c| == Min(|a|, |b|)
    ensures forall i :: 0 <= i < |c| ==> c[i] == RowSub(a[i], b[i])
    ensures SameShape(a, b) ==> SameShape(c, a)
  {
    seq(Min(|a|, |b|), i requires 0 <= i < Min(|a|, |b|) => RowSub(a[i], b[i]))
  }

  /** `k * a` for a scalar `k`. */
  function Scale(k: real, a: Plane): (c: Plane)
    ensures SameShape(c, a)
    ensures forall i :: 0 <= i < |c| ==> c[i] == RowScale(k, a[i])
  {
    seq(|a|, i requires 0 <= i < |a| => RowScale(k, a[i]))
  }

  /** The inner products of matching rows, over the rows two planes share. */
  function RowDots(a: Plane, b: Plane): (z: seq<real>)
    ensures |z| == Min(|a|, |b|)
    ensures forall i :: 0 <= i < |z| ==> z[i] == RowDot(a[i], b[i])
  {
    seq(Min(|a|, |b|), i requires 0 <= i < Min(|a|, |b|) => RowDot(a[i], b[i]))
  }

  /** The inner product: element-wise product summed over the whole plane. */
  function Dot(a: Plane, b: Plane): real {
    Sum(RowDots(a, b))
  }

  /** A zero plane on either side of the inner product gives zero. */
  lemma DotZero(a: Plane, b: Plane)
    requires IsZero(a) || IsZero(b)
    ensures Dot(a, b) == 0.0
  {
    ZeroRowDots(a, b, RowDots(a, b));
  }

  lemma SumOfZeros(s: seq<real>)
    requires forall i :: 0 <= i < |s| ==> s[i] == 0.0
    ensures Sum(s) == 0.0
  {
    SumDifference(s, s, s);
  }

  lemma ZeroRowDots(a: Plane, b: Plane, rows: seq<real>)
    requires rows == RowDots(a, b)
    requires IsZero(a) || IsZero(b)
    ensures Sum(rows) == 0.0
  {
    forall i | 0 <= i < |rows|
      ensures rows[i] == 0.0
    {
      SumOfZeros(RowProducts(a[i], b[i]));
    }
    SumOfZeros(rows);
  }

  /** `p[..., :h, :w]`: the first `h` rows and, of each, the first `w` columns;
      like Python slicing, a bound past the end takes everything. */
  function Crop(p: Plane, h: nat, w: nat): (c: Plane)
    ensures |c| == Min(h, |p|)
    ensures forall i :: 0 <= i < |c| ==> |c[i]| == Min(w, |p[i]|) && c[i] == p[i][..|c[i]|]
  {
    seq(Min(h, |p|), i requires 0 <= i < Min(h, |p|) => p[i][..Min(w, |p[i]|)])
  }

  /** Cropping two planes of one shape to one size keeps their shapes equal, and a
      plane with at least `h` rows of at least `w` columns crops to exactly h by w. */
  lemma CropShape(a: Plane, b: Plane, h: nat, w: nat)
    requires SameShape(a, b)
    ensures SameShape(Crop(a, h, w), Crop(b, h, w))
    ensures h <= |a| && (forall i :: 0 <= i < |a| ==> w <= |a[i]|) ==>
      |Crop(a, h, w)| == h && forall i :: 0 <= i < h ==> |Crop(a, h, w)[i]| == w
  {
  }

  lemma Distribute(k: real, x: real, y: real, kx: real, ky: real)
    requires kx == k * x && ky == k * y
    ensures kx + ky == k * (x + y)
  {
  }

  /** Scaling every term scales the sum. */
  lemma {:induction false} SumScaled(k: real, s: seq<real>, t: seq<real>)
    requires |s| == |t|
    requires forall i :: 0 <= i < |s| ==> t[i] == k * s[i]
    ensures Sum(t) == k * Sum(s)
    decreases |s|
  {
    if |s| != 0 {
      SumScaled(k, s[1..], t[1..]);
      Distribute(k, s[0], Sum(s[1..]), t[0], Sum(t[1..]));
    }
  }

  /** The sum of term-wise differences is the difference of the sums. */
  lemma {:induction false} SumDifference(s: seq<real>, t: seq<real>, d: seq<real>)
    requires |s| == |t| == |d|
    requires forall i :: 0 <= i < |s| ==> d[i] == s[i] - t[i]
    ensures Sum(d) == Sum(s) - Sum(t)
    decreases |s|
  {
    if |s| != 0 {
      SumDifference(s[1..], t[1..], d[1..]);
    }
  }

  lemma RowDotSymmetric(x: Row, y: Row)
    ensures RowDot(x, y) == RowDot(y, x)
  {
    assert RowProducts(x, y) == RowProducts(y, x);
  }

  lemma RowDotSub(x: Row, y: Row, z: Row)
    requires |x| == |y| == |z|
    ensures RowDot(RowSub(x, y), z) == RowDot(x, z) - RowDot(y, z)
  {
    var s, t, d := RowProducts(x, z), RowProducts(y, z), RowProducts(RowSub(x, y), z);
    ProductsDiffer(x, y, z, s, t, d);
    SumDifference(s, t, d);
  }

  lemma ProductsDiffer(x: Row, y: Row, z: Row, s: seq<real>, t: seq<real>, d: seq<real>)
    requires |x| == |y| == |z|
    requires s == RowProducts(x, z) && t == RowProducts(y, z) && d == RowProducts(RowSub(x, y), z)
    ensures |s| == |t| == |d|
    ensures forall j :: 0 <= j < |s| ==> d[j] == s[j] - t[j]
  {
  }

  lemma RowDotScale(k: real, x: Row, y: Row)
    requires |x| == |y|
    ensures RowDot(RowScale(k, x), y) == k * RowDot(x, y)
  {
    var s, t := RowProducts(x, y), RowProducts(RowScale(k, x), y);
    ProductsScaled(k, x, y, s, t);
    SumScaled(k, s, t);
  }

  lemma ProductsScaled(k: real, x: Row, y: Row, s: seq<real>, t: seq<real>)
    requires |x| == |y|
    requires s == RowProducts(x, y) && t == RowProducts(RowScale(k, x), y)
    ensures |s| == |t|
    ensures forall j :: 0 <= j < |s| ==> t[j] == k * s[j]
  {
  }

  /** The inner product is symmetric. */
  lemma DotSymmetric(a: Plane, b: Plane)
    ensures Dot(a, b) == Dot(b, a)
  {
    forall i | 0 <= i < Min(|a|, |b|)
      ensures RowDot(a[i], b[i]) == RowDot(b[i], a[i])
    {
      RowDotSymmetric(a[i], b[i]);
    }
    assert RowDots(a, b) == RowDots(b, a);
  }

  /** The inner product distributes over a difference in its first argument. */
  lemma DotSub(a: Plane, b: Plane, c: Plane)
    requires SameShape(a, b) && SameShape(a, c)
    ensures Dot(Sub(a, b), c) == Dot(a, c) - Dot(b, c)
  {
    var s, t, d := RowDots(a, c), RowDots(b, c), RowDots(Sub(a, b), c);
    RowDotsDiffer(a, b, c, s, t, d);
    SumDifference(s, t, d);
  }

  lemma RowDotsDiffer(a: Plane, b: Plane, c: Plane, s: seq<real>, t: seq<real>, d: seq<real>)
    requires SameShape(a, b) && SameShape(a, c)
    requires s == RowDots(a, c) && t == RowDots(b, c) && d == RowDots(Sub(a, b), c)
    ensures |s| == |t| == |d|
    ensures forall i :: 0 <= i < |s| ==> d[i] == s[i] - t[i]
  {
    forall i | 0 <= i < |s|
      ensures d[i] == s[i] - t[i]
    {
      RowDotSub(a[i], b[i], c[i]);
    }
  }

  /** A scalar factor in the first argument comes out of the inner product. */
  lemma DotScale(k: real, a: Plane, b: Plane)
    requires SameShape(a, b)
    ensures Dot(Scale(k, a), b) == k * Dot(a, b)
  {
    var s, t := RowDots(a, b), RowDots(Scale(k, a), b);
    RowDotsScaled(k, a, b, s, t);
    SumScaled(k, s, t);
  }

  lemma RowDotsScaled(k: real, a: Plane, b: Plane, s: seq<real>, t: seq<real>)
    requires SameShape(a, b)
    requires s == RowDots(a, b) && t == RowDots(Scale(k, a), b)
    ensures |s| == |t|
    ensures forall i :: 0 <= i < |s| ==> t[i] == k * s[i]
  {
    forall i | 0 <= i < |s|
      ensures t[i] == k * s[i]
    {
      RowDotScale(k, a[i], b[i]);
    }
  }
}
