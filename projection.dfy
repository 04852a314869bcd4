/** `project(v0, v1)` of nodes.py over the reals: split `v0` into a part along
    `v1` and the remainder. `torch.nn.functional.normalize` divides by the L2 norm
    floored at 1e-12; the square root it takes is the parameter `sqrt`. The
    float64 round trip of the source is not part of the model. */
module Projection {
  import opened Planes

  /** The default `eps` of `torch.nn.functional.normalize`. */
  const NormalizeEps: real := 0.000000000001

  function Max(a: real, b: real): (m: real)
    ensures m >= a && m >= b && (m == a || m == b)
  {
    if a >= b then a else b
  }

  /** `v / max(||v||, eps)`. */
  function Normalize(v: Plane, sqrt: real -> real): (u: Plane)
    ensures SameShape(u, v)
  {
    Scale(1.0 / Max(sqrt(Dot(v, v)), NormalizeEps), v)
  }

  datatype Components = Components(parallel: Plane, orthogonal: Plane)

  /** The parallel part is `(v0 . u) u` for the normalised `u` of `v1`; the
      orthogonal part is what is left of `v0`, so the two always add back to `v0`. */
  function Project(v0: Plane, v1: Plane, sqrt: real -> real): (c: Components)
    ensures SameShape(v0, v1) ==> SameShape(c.parallel, v0) && SameShape(c.orthogonal, v0)
    ensures SameShape(v0, v1) ==> Add(c.parallel, c.orthogonal) == v0
  {
    var u := Normalize(v1, sqrt);
    var parallel := Scale(Dot(v0, u), u);
    var c := Components(parallel, Sub(v0, parallel));
    assert SameShape(v0, v1) ==> Add(c.parallel, c.orthogonal) == v0 by {
      if SameShape(v0, v1) {
        var s := Add(c.parallel, c.orthogonal);
        forall i | 0 <= i < |v0|
          ensures s[i] == v0[i]
        {
          assert forall j :: 0 <= j < |v0[i]| ==> s[i][j] == parallel[i][j] + (v0[i][j] - parallel[i][j]);
        }
      }
    }
    c
  }

  lemma DotScaleRight(c: real, a: Plane, b: Plane)
    requires SameShape(a, b)
    ensures Dot(a, Scale(c, b)) == c * Dot(a, b)
  {
    DotSymmetric(a, Scale(c, b));
    DotScale(c, b, a);
    DotSymmetric(b, a);
  }

  lemma DotScaleTwice(k: real, c: real, a: Plane)
    ensures Dot(Scale(k, Scale(c, a)), a) == k * (c * Dot(a, a))
  {
    DotScale(k, Scale(c, a), a);
    DotScale(c, a, a);
  }

  lemma UnitCancels(n: real, c: real, p: real, d: real)
    requires c * n == 1.0 && n * n == d
    ensures (c * p) * (c * d) == p
  {
    var x, y, z := (c * p) * (c * d), (c * p) * n, p * (c * n);
    assert c * d == n by {
      assert c * d == c * (n * n) == (c * n) * n;
    }
    assert x == y;
    assert y == z;
    assert z == p;
  }

  /** When `sqrt` yields the norm of `v1` and that norm is at least `eps`, the
      orthogonal part has inner product exactly zero with `v1`. */
  lemma ProjectOrthogonal(v0: Plane, v1: Plane, sqrt: real -> real)
    requires SameShape(v0, v1)
    requires sqrt(Dot(v1, v1)) * sqrt(Dot(v1, v1)) == Dot(v1, v1)
    requires sqrt(Dot(v1, v1)) >= NormalizeEps
    ensures Dot(Project(v0, v1, sqrt).orthogonal, v1) == 0.0
  {
    var n := sqrt(Dot(v1, v1));
    var c := 1.0 / n;
    var u := Normalize(v1, sqrt);
    assert u == Scale(c, v1);
    var k := Dot(v0, u);
    DotScaleRight(c, v0, v1);
    var parallel := Scale(k, u);
    DotScaleTwice(k, c, v1);
    assert c * n == 1.0;
    UnitCancels(n, c, Dot(v0, v1), Dot(v1, v1));
    assert Dot(parallel, v1) == Dot(v0, v1);
    DotSub(v0, parallel, v1);
  }

  lemma DotScaleBoth(c: real, v: Plane)
    ensures Dot(Scale(c, v), Scale(c, v)) == c * (c * Dot(v, v))
  {
    DotScale(c, v, Scale(c, v));
    DotScaleRight(c, v, v);
  }

  lemma InverseSquare(n: real, c: real, d: real)
    requires c * n == 1.0 && n * n == d
    ensures c * (c * d) == 1.0
  {
    UnitCancels(n, c, 1.0, d);
    var x, y := (c * 1.0) * (c * d), c * (c * d);
    assert x == y;
  }

  /** When `sqrt` yields the norm of `v` and that norm is at least `eps`, the
      normalised plane has norm one. */
  lemma NormalizeUnit(v: Plane, sqrt: real -> real)
    requires sqrt(Dot(v, v)) * sqrt(Dot(v, v)) == Dot(v, v)
    requires sqrt(Dot(v, v)) >= NormalizeEps
    ensures Dot(Normalize(v, sqrt), Normalize(v, sqrt)) == 1.0
  {
    var n := sqrt(Dot(v, v));
    var c := 1.0 / n;
    assert Normalize(v, sqrt) == Scale(c, v);
    DotScaleBoth(c, v);
    assert c * n == 1.0;
    InverseSquare(n, c, Dot(v, v));
  }

  /** A zero reference plane has no direction: the parallel part is zero and the
      orthogonal part is all of `v0`, whatever `sqrt` yields. */
  lemma ProjectZeroReference(v0: Plane, v1: Plane, sqrt: real -> real)
    requires SameShape(v0, v1)
    requires IsZero(v1)
    ensures IsZero(Project(v0, v1, sqrt).parallel)
    ensures Project(v0, v1, sqrt).orthogonal == v0
  {
    var u := Normalize(v1, sqrt);
    ScaleZero(1.0 / Max(sqrt(Dot(v1, v1)), NormalizeEps), v1);
    ScaleZero(Dot(v0, u), u);
    SubZero(v0, Scale(Dot(v0, u), u));
  }

  lemma ScaleZero(k: real, p: Plane)
    requires IsZero(p)
    ensures IsZero(Scale(k, p))
  {
  }

  lemma SubZero(a: Plane, z: Plane)
    requires SameShape(a, z) && IsZero(z)
    ensures Sub(a, z) == a
  {
    var d := Sub(a, z);
    forall i | 0 <= i < |a|
      ensures d[i] == a[i]
    {
      assert forall j :: 0 <= j < |a[i]| ==> d[i][j] == a[i][j] - 0.0;
    }
  }
}
