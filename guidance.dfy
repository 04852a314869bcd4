/** `laplacian_guidance` of nodes.py: per pyramid level, crop both predictions to
    the level's size, re-weight the part of their difference that lies along the
    conditional prediction, apply the level's guidance scale, and reconstruct one
    image from the guided levels. */
module Guidance {
  import opened Wrappers
  import opened Planes
  import opened Projection
  import opened Pyramid
  import Weights

  /** The tensor-library calls the guidance code makes and this model does not
      interpret: kornia's `build_laplacian_pyramid` and `pyrup`, and the square
      root inside `torch.nn.functional.normalize`. */
  datatype TensorLibrary = TensorLibrary(
    buildPyramid: (Plane, nat) -> seq<Plane>,
    pyrup: Plane -> Plane,
    sqrt: real -> real)

  /** `par_weight * diff_parallel + diff_orthogonal`, the parts taken along `pc`. */
  function Reweight(diff: Plane, pc: Plane, weight: real, sqrt: real -> real): (r: Plane)
    ensures SameShape(diff, pc) ==> SameShape(r, diff)
  {
    var c := Project(diff, pc, sqrt);
    Add(Scale(weight, c.parallel), c.orthogonal)
  }

  /** `p_cond + (scale - 1) * diff'` with `diff'` the re-weighted `p_cond - p_uncond`. */
  function GuidedLevel(pc: Plane, pu: Plane, scale: real, weight: real, sqrt: real -> real): (g: Plane)
    ensures SameShape(pc, pu) ==> SameShape(g, pc)
  {
    Add(pc, Scale(scale - 1.0, Reweight(Sub(pc, pu), pc, weight, sqrt)))
  }

  /** The plain classifier-free blend `uncond + (cond - uncond) * scale`. */
  function CfgCombine(cond: Plane, uncond: Plane, scale: real): (r: Plane)
    ensures SameShape(cond, uncond) ==> SameShape(r, cond)
  {
    Add(uncond, Scale(scale, Sub(cond, uncond)))
  }

  /** A parallel weight of one leaves the difference exactly as it was. */
  lemma ReweightUnit(diff: Plane, pc: Plane, sqrt: real -> real)
    requires SameShape(diff, pc)
    ensures Reweight(diff, pc, 1.0, sqrt) == diff
  {
    var c := Project(diff, pc, sqrt);
    ScaleOne(c.parallel);
  }

  /** A level with guidance scale one is the conditional level, whatever its weight. */
  lemma UnitScaleKeepsCond(pc: Plane, pu: Plane, weight: real, sqrt: real -> real)
    requires SameShape(pc, pu)
    ensures GuidedLevel(pc, pu, 1.0, weight, sqrt) == pc
  {
    var g := GuidedLevel(pc, pu, 1.0, weight, sqrt);
    var d := Reweight(Sub(pc, pu), pc, weight, sqrt);
    forall i | 0 <= i < |pc|
      ensures g[i] == pc[i]
    {
      assert forall j :: 0 <= j < |pc[i]| ==> g[i][j] == pc[i][j] + 0.0 * d[i][j];
    }
  }

  lemma GuidedValue(a: real, b: real, s: real)
    ensures a + (s - 1.0) * (a - b) == b + s * (a - b)
  {
  }

  /** With parallel weight one a level gets the plain classifier-free blend at its
      own scale, the same formula the step gate falls back to. */
  lemma UnitWeightIsCfg(pc: Plane, pu: Plane, scale: real, sqrt: real -> real)
    requires SameShape(pc, pu)
    ensures GuidedLevel(pc, pu, scale, 1.0, sqrt) == CfgCombine(pc, pu, scale)
  {
    var diff := Sub(pc, pu);
    ReweightUnit(diff, pc, sqrt);
    var g := GuidedLevel(pc, pu, scale, 1.0, sqrt);
    var b := CfgCombine(pc, pu, scale);
    forall i | 0 <= i < |pc|
      ensures g[i] == b[i]
    {
      forall j | 0 <= j < |pc[i]|
        ensures g[i][j] == b[i][j]
      {
        GuidedValue(pc[i][j], pu[i][j], scale);
      }
    }
  }

  /** The guided levels of the `zip` loop: as many as the shortest of the two
      pyramids, the scales and the weights; level `k` cropped to `LevelSize(k)`. */
  function GuidedPyramid(condPyramid: seq<Plane>, uncondPyramid: seq<Plane>, scales: seq<real>,
                         weights: seq<real>, height: nat, width: nat, sqrt: real -> real): (g: seq<Plane>)
    ensures |g| <= |condPyramid| && |g| <= |uncondPyramid| && |g| <= |scales| && |g| <= |weights|
    ensures |g| == |condPyramid| || |g| == |uncondPyramid| || |g| == |scales| || |g| == |weights|
  {
    var n := Min(Min(|condPyramid|, |uncondPyramid|), Min(|scales|, |weights|));
    seq(n, k requires 0 <= k < n =>
      var size := LevelSize(height, width, k);
      GuidedLevel(Crop(condPyramid[k], size.0, size.1), Crop(uncondPyramid[k], size.0, size.1),
                  scales[k], weights[k], sqrt))
  }

  /** Guided level `k` is level `k` of both pyramids, cropped and guided. Unfolds
      `GuidedPyramid` at one index for the verifier. */
  lemma GuidedPyramidAt(condPyramid: seq<Plane>, uncondPyramid: seq<Plane>, scales: seq<real>,
                        weights: seq<real>, height: nat, width: nat, sqrt: real -> real, k: nat)
    requires k < |condPyramid| && k < |uncondPyramid| && k < |scales| && k < |weights|
    ensures var size := LevelSize(height, width, k);
      var g := GuidedPyramid(condPyramid, uncondPyramid, scales, weights, height, width, sqrt);
      k < |g| && g[k] == GuidedLevel(Crop(condPyramid[k], size.0, size.1), Crop(uncondPyramid[k], size.0, size.1),
                                     scales[k], weights[k], sqrt)
  {
  }

  lemma PrefixStep<T>(s: seq<T>, k: nat)
    requires k < |s|
    ensures s[..k + 1] == s[..k] + [s[k]]
  {
  }

  /** The weights `laplacian_guidance` uses: the given ones, or ones for every scale. */
  function DefaultWeights(scales: seq<real>, weights: Option<seq<real>>): (w: seq<real>)
    ensures weights.None? ==> |w| == |scales| && forall k :: 0 <= k < |w| ==> w[k] == 1.0
    ensures weights.Some? ==> w == weights.value
  {
    match weights
    case Some(given) => given
    case None => Weights.Ones(|scales|)
  }

  /** The result of `laplacian_guidance`: both predictions are decomposed into
      `|scales|` levels, guided level by level, and reconstructed; with no guided
      level at all the reconstruction fails. */
  function GuidedImage(predCond: Plane, predUncond: Plane, scales: seq<real>,
                       weights: Option<seq<real>>, lib: TensorLibrary): (r: Option<Plane>)
    ensures r.None? <==>
      |lib.buildPyramid(predCond, |scales|)| == 0 || |lib.buildPyramid(predUncond, |scales|)| == 0
      || |scales| == 0 || |DefaultWeights(scales, weights)| == 0
  {
    var levels := |scales|;
    var g := GuidedPyramid(lib.buildPyramid(predCond, levels), lib.buildPyramid(predUncond, levels),
                           scales, DefaultWeights(scales, weights), |predCond|, Width(predCond), lib.sqrt);
    if |g| == 0 then None else Some(Reconstruct(g, lib.pyrup, Add))
  }

  /** `GuidedImage` in terms of the guided levels it reconstructs. Unfolds the
      definition for the verifier. */
  lemma GuidedImageFrom(predCond: Plane, predUncond: Plane, scales: seq<real>,
                        weights: Option<seq<real>>, lib: TensorLibrary)
    ensures var g := GuidedPyramid(lib.buildPyramid(predCond, |scales|), lib.buildPyramid(predUncond, |scales|),
                                   scales, DefaultWeights(scales, weights), |predCond|, Width(predCond), lib.sqrt);
      GuidedImage(predCond, predUncond, scales, weights, lib) == if |g| == 0 then None else Some(Reconstruct(g, lib.pyrup, Add))
  {
  }

  /** The cropped levels of a pyramid, level `k` to `LevelSize(k)`. */
  function CroppedLevels(pyramid: seq<Plane>, height: nat, width: nat, n: nat): (c: seq<Plane>)
    requires n <= |pyramid|
    ensures |c| == n
  {
    seq(n, k requires 0 <= k < n =>
      var size := LevelSize(height, width, k);
      Crop(pyramid[k], size.0, size.1))
  }

  /** With every guidance scale one, guidance leaves each (cropped) conditional
      level as it is; only the pyramid round trip can then change the image. */
  lemma UnitScalesKeepCond(condPyramid: seq<Plane>, uncondPyramid: seq<Plane>, scales: seq<real>,
                           weights: seq<real>, height: nat, width: nat, sqrt: real -> real)
    requires forall k :: 0 <= k < |scales| ==> scales[k] == 1.0
    requires forall k :: 0 <= k < |condPyramid| && k < |uncondPyramid| ==> SameShape(condPyramid[k], uncondPyramid[k])
    ensures var g := GuidedPyramid(condPyramid, uncondPyramid, scales, weights, height, width, sqrt);
      g == CroppedLevels(condPyramid, height, width, |g|)
  {
    var g := GuidedPyramid(condPyramid, uncondPyramid, scales, weights, height, width, sqrt);
    var c := CroppedLevels(condPyramid, height, width, |g|);
    forall k | 0 <= k < |g|
      ensures g[k] == c[k]
    {
      var size := LevelSize(height, width, k);
      CropShape(condPyramid[k], uncondPyramid[k], size.0, size.1);
      UnitScaleKeepsCond(Crop(condPyramid[k], size.0, size.1), Crop(uncondPyramid[k], size.0, size.1), weights[k], sqrt);
    }
  }

  /** With every guidance scale one, `laplacian_guidance` reconstructs the cropped
      levels of the conditional pyramid: guidance adds nothing to the image. */
  lemma UnitScalesImage(predCond: Plane, predUncond: Plane, scales: seq<real>,
                        weights: Option<seq<real>>, lib: TensorLibrary)
    requires forall k :: 0 <= k < |scales| ==> scales[k] == 1.0
    requires forall k :: 0 <= k < |lib.buildPyramid(predCond, |scales|)| && k < |lib.buildPyramid(predUncond, |scales|)| ==>
      SameShape(lib.buildPyramid(predCond, |scales|)[k], lib.buildPyramid(predUncond, |scales|)[k])
    ensures var condPyramid := lib.buildPyramid(predCond, |scales|);
      var g := GuidedPyramid(condPyramid, lib.buildPyramid(predUncond, |scales|), scales,
                             DefaultWeights(scales, weights), |predCond|, Width(predCond), lib.sqrt);
      GuidedImage(predCond, predUncond, scales, weights, lib)
        == if |g| == 0 then None
           else Some(Reconstruct(CroppedLevels(condPyramid, |predCond|, Width(predCond), |g|), lib.pyrup, Add))
  {
    GuidedImageFrom(predCond, predUncond, scales, weights, lib);
    UnitScalesKeepCond(lib.buildPyramid(predCond, |scales|), lib.buildPyramid(predUncond, |scales|), scales,
                       DefaultWeights(scales, weights), |predCond|, Width(predCond), lib.sqrt);
  }

  /** The `zip` loop of `laplacian_guidance`: one guided level is appended per
      step, until the shortest of the four sequences runs out. */
  method GuideLevels(condPyramid: seq<Plane>, uncondPyramid: seq<Plane>, scales: seq<real>,
                     weights: seq<real>, height: nat, width: nat, sqrt: real -> real) returns (guided: seq<Plane>)
    ensures guided == GuidedPyramid(condPyramid, uncondPyramid, scales, weights, height, width, sqrt)
  {
    ghost var spec := GuidedPyramid(condPyramid, uncondPyramid, scales, weights, height, width, sqrt);
    guided := [];
    var idx := 0;
    while idx < |condPyramid| && idx < |uncondPyramid| && idx < |scales| && idx < |weights|
      invariant idx <= |spec|
      invariant guided == spec[..idx]
    {
      var size := LevelSize(height, width, idx);
      var pc := Crop(condPyramid[idx], size.0, size.1);
      var pu := Crop(uncondPyramid[idx], size.0, size.1);
      var level := GuidedLevel(pc, pu, scales[idx], weights[idx], sqrt);
      GuidedPyramidAt(condPyramid, uncondPyramid, scales, weights, height, width, sqrt, idx);
      assert spec[idx] == level;
      PrefixStep(spec, idx);
      guided := guided + [level];
      idx := idx + 1;
    }
    assert guided == spec;
  }

  /** `laplacian_guidance(pred_cond, pred_uncond, guidance_scale, parallel_weights)`:
      missing weights default to ones, both predictions are decomposed, the levels
      are guided, and the guided pyramid is reconstructed. */
  method LaplacianGuidance(predCond: Plane, predUncond: Plane, guidanceScale: seq<real>,
                           parallelWeights: Option<seq<real>>, lib: TensorLibrary) returns (r: Option<Plane>)
    ensures r == GuidedImage(predCond, predUncond, guidanceScale, parallelWeights, lib)
  {
    var levels := |guidanceScale|;
    var weights := if parallelWeights.None? then Weights.Ones(levels) else parallelWeights.value;
    assert weights == DefaultWeights(guidanceScale, parallelWeights);
    var height, width := |predCond|, Width(predCond);
    var condPyramid := lib.buildPyramid(predCond, levels);
    var uncondPyramid := lib.buildPyramid(predUncond, levels);
    var guided := GuideLevels(condPyramid, uncondPyramid, guidanceScale, weights, height, width, lib.sqrt);
    GuidedImageFrom(predCond, predUncond, guidanceScale, parallelWeights, lib);
    r := BuildImageFromPyramid(guided, lib.pyrup, Add);
  }
}
