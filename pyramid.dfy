/** Pyramid bookkeeping of nodes.py: the size a level is cropped to, and
    `build_image_from_pyramid`, which folds the levels from the coarsest to the
    finest. Upsampling (`kornia.geometry.pyrup`) and the addition of levels are
    parameters: their numerics are not part of the model. */
module Pyramid {
  import opened Wrappers

  function Pow2(k: nat): (p: nat)
    ensures p >= 1
  {
    if k == 0 then 1 else 2 * Pow2(k - 1)
  }

  /** `(H // 2**idx, W // 2**idx)`: the size level `idx` is cropped to, that is,
      the largest sizes whose `2**idx` multiples still fit in the image. */
  function LevelSize(height: nat, width: nat, idx: nat): (s: (nat, nat))
    ensures Pow2(idx) * s.0 <= height < Pow2(idx) * s.0 + Pow2(idx)
    ensures Pow2(idx) * s.1 <= width < Pow2(idx) * s.1 + Pow2(idx)
  {
    var p := Pow2(idx);
    DivNat(height, p);
    DivNat(width, p);
    (height / p, width / p)
  }

  /** Floor division of a natural number: the quotient is natural, and its multiple
      is within one divisor below the dividend. */
  lemma DivNat(x: nat, p: nat)
    requires p >= 1
    ensures x / p >= 0
    ensures p * (x / p) <= x < p * (x / p) + p
  {
    var q, r := x / p, x % p;
    assert x == q * p + r;
  }

  /** Integer division by `p` and then by 2 is integer division by `2 p`. */
  lemma DivTwice(x: nat, p: nat)
    requires p >= 1
    ensures (x / p) / 2 == x / (2 * p)
  {
    var q, r := x / p, x % p;
    var q2, r2 := q / 2, q % 2;
    Regroup(q2, r2, p, r);
    SmallRemainder(r2, p, r);
    DivUnique(x, 2 * p, q2, r2 * p + r);
  }

  lemma Regroup(q2: int, r2: int, p: int, r: int)
    ensures (2 * q2 + r2) * p + r == q2 * (2 * p) + (r2 * p + r)
  {
  }

  lemma SmallRemainder(r2: int, p: int, r: int)
    requires 0 <= r2 < 2 && 0 <= r < p
    ensures 0 <= r2 * p + r < 2 * p
  {
    assert r2 == 0 || r2 == 1;
  }

  lemma MulAtLeast(a: int, d: int)
    requires a >= 1 && d >= 1
    ensures a * d >= d
  {
    assert a * d == (a - 1) * d + d;
  }

  lemma DivUnique(x: nat, d: nat, q: int, r: int)
    requires d >= 1 && x == q * d + r && 0 <= r < d
    ensures x / d == q
  {
    var q', r' := x / d, x % d;
    assert x == q' * d + r';
    if q' < q {
      assert (q - q') * d == q * d - q' * d;
      MulAtLeast(q - q', d);
    } else if q' > q {
      assert (q' - q) * d == q' * d - q * d;
      MulAtLeast(q' - q, d);
    }
  }

  /** Each level is half the size of the next finer one, rounded down. */
  lemma LevelSizeHalves(height: nat, width: nat, idx: nat)
    ensures LevelSize(height, width, idx + 1).0 == LevelSize(height, width, idx).0 / 2
    ensures LevelSize(height, width, idx + 1).1 == LevelSize(height, width, idx).1 / 2
  {
    DivTwice(height, Pow2(idx));
    DivTwice(width, Pow2(idx));
  }

  /** Level 0 is the original size, and coarser levels are never larger. */
  lemma {:induction false} LevelSizeNonIncreasing(height: nat, width: nat, i: nat, j: nat)
    requires i <= j
    ensures LevelSize(height, width, 0) == (height, width)
    ensures LevelSize(height, width, j).0 <= LevelSize(height, width, i).0
    ensures LevelSize(height, width, j).1 <= LevelSize(height, width, i).1
    decreases j - i
  {
    if i < j {
      LevelSizeNonIncreasing(height, width, i, j - 1);
      LevelSizeHalves(height, width, j - 1);
    }
  }

  /** Upsampling level `idx + 1` by exactly two gives the size of level `idx`
      precisely when that size is even; an odd size is one row or column more. */
  lemma UpsampledSize(height: nat, width: nat, idx: nat)
    ensures 2 * LevelSize(height, width, idx + 1).0 == LevelSize(height, width, idx).0
        <==> LevelSize(height, width, idx).0 % 2 == 0
    ensures 2 * LevelSize(height, width, idx + 1).1 == LevelSize(height, width, idx).1
        <==> LevelSize(height, width, idx).1 % 2 == 0
  {
    LevelSizeHalves(height, width, idx);
  }

  /** The reconstruction as a fold: the coarsest level is the start, and each finer
      level is added to the upsampled result of the coarser ones. */
  function Reconstruct<T>(pyramid: seq<T>, pyrup: T -> T, add: (T, T) -> T): T
    requires |pyramid| >= 1
    decreases |pyramid|
  {
    if |pyramid| == 1 then pyramid[0]
    else add(pyrup(Reconstruct(pyramid[1..], pyrup, add)), pyramid[0])
  }

  /** `build_image_from_pyramid`: a downward loop from the coarsest level. An empty
      pyramid fails at `pyramid[-1]` (Python's `IndexError`), modelled as `None`. */
  method BuildImageFromPyramid<T>(pyramid: seq<T>, pyrup: T -> T, add: (T, T) -> T) returns (img: Option<T>)
    ensures img.None? <==> |pyramid| == 0
    ensures img.Some? ==> img.value == Reconstruct(pyramid, pyrup, add)
  {
    if |pyramid| == 0 {
      return None;
    }
    var acc := pyramid[|pyramid| - 1];
    var i := |pyramid| - 2;
    while i >= 0
      invariant -1 <= i <= |pyramid| - 2
      invariant acc == Reconstruct(pyramid[i + 1..], pyrup, add)
    {
      assert pyramid[i..][1..] == pyramid[i + 1..];
      acc := add(pyrup(acc), pyramid[i]);
      i := i - 1;
    }
    assert pyramid[0..] == pyramid;
    return Some(acc);
  }

  /** Reconstruction can stop at any level: folding the levels from `k` on into one
      and putting it in their place leaves the result unchanged. The loop in
      `build_image_from_pyramid` relies on this at every step. */
  lemma {:induction false} ReconstructSplit<T>(pyramid: seq<T>, k: nat, pyrup: T -> T, add: (T, T) -> T)
    requires k < |pyramid|
    ensures Reconstruct(pyramid, pyrup, add)
         == Reconstruct(pyramid[..k] + [Reconstruct(pyramid[k..], pyrup, add)], pyrup, add)
    decreases k
  {
    var folded := Reconstruct(pyramid[k..], pyrup, add);
    if k == 0 {
      assert pyramid[0..] == pyramid;
      assert pyramid[..0] + [folded] == [folded];
    } else {
      var tail := pyramid[1..];
      ReconstructSplit(tail, k - 1, pyrup, add);
      assert tail[k - 1..] == pyramid[k..];
      assert (pyramid[..k] + [folded])[1..] == tail[..k - 1] + [folded];
      assert (pyramid[..k] + [folded])[0] == pyramid[0];
    }
  }

  /** The loop's first step, `pyrup(pyramid[-1]) + pyramid[-2]`, merges the two
      coarsest levels into one without changing the reconstruction. */
  lemma ReconstructCoarsestPair<T>(pyramid: seq<T>, pyrup: T -> T, add: (T, T) -> T)
    requires |pyramid| >= 2
    ensures var n := |pyramid|;
      Reconstruct(pyramid, pyrup, add)
        == Reconstruct(pyramid[..n - 2] + [add(pyrup(pyramid[n - 1]), pyramid[n - 2])], pyrup, add)
  {
    var n := |pyramid|;
    ReconstructSplit(pyramid, n - 2, pyrup, add);
    assert pyramid[n - 2..][1..] == [pyramid[n - 1]];
  }
}
