/** `FDGNode.patch` of nodes.py: builds the schedule and the parallel weights once,
    and installs the per-step `fdg_function`, which picks full pyramid guidance,
    the plain classifier-free blend, or passthrough. The returned configuration
    stands for what the closure captures; cloning the host model and registering
    the callback are not part of the model. */
module Node {
  import opened Wrappers
  import opened Planes
  import opened Text
  import opened Schedule
  import opened Weights
  import opened Guidance
  import opened Projection

  /** What `fdg_function` captures from `patch`. */
  datatype Config = Config(
    guidanceScale: seq<real>,
    parallelWeights: seq<real>,
    fdgSteps: int,
    guidanceScaleHigh: real)

  /** The part of `patch` before the callback is registered: the schedule (whose
      error aborts the call) and the parallel weights, parsed from the text and then
      padded with ones or truncated to `levels`. */
  method Patch(high: real, low: real, levels: int, fdgSteps: int, interpolation: string,
               parallelWeights: string, parse: string -> Option<real>, cos: real -> real)
    returns (r: Result<Config, ScheduleError>)
    ensures var scales := CreateGuidanceScales(high, low, levels, interpolation, cos);
      && (scales.Failure? ==> r == Failure(scales.error))
      && (scales.Success? ==> r.Success? && r.value.guidanceScale == scales.value)
    ensures r.Success? ==>
      && r.value.fdgSteps == fdgSteps
      && r.value.guidanceScaleHigh == high
      && |r.value.parallelWeights| == |r.value.guidanceScale| == levels
    ensures r.Success? ==>
      var parsed := ParseAll(Split(parallelWeights, ','), parse);
      forall i :: 0 <= i < levels ==>
        r.value.parallelWeights[i] == if parsed.Some? && i < |parsed.value| then parsed.value[i] else 1.0
  {
    var scales := CreateGuidanceScales(high, low, levels, interpolation, cos);
    if scales.Failure? {
      return Failure(scales.error);
    }
    var list := ParseWeightList(parallelWeights, levels, parse);
    var weights := NormalizeWeights(list, levels);
    return Success(Config(scales.value, weights, fdgSteps, high));
  }

  /** The relative tolerance `math.isclose` uses by default; its absolute tolerance is 0. */
  const RelTol: real := 0.000000001

  function Abs(x: real): real {
    if x < 0.0 then -x else x
  }

  /** `math.isclose(a, b)` with default tolerances, over the reals: equal values are
      close, and close values differ by at most 1e-9 of the larger magnitude. */
  predicate IsClose(a: real, b: real)
    ensures a == b ==> IsClose(a, b)
    ensures IsClose(a, b) ==> Abs(a - b) <= RelTol * Max(Abs(a), Abs(b))
  {
    a == b || Abs(a - b) <= Max(RelTol * Max(Abs(a), Abs(b)), 0.0)
  }

  /** Closeness does not depend on the order of the arguments. */
  lemma IsCloseSymmetric(a: real, b: real)
    ensures IsClose(a, b) <==> IsClose(b, a)
  {
  }

  /** A scale counts as close to 1.0 exactly on the interval [1 - 1e-9, 1 / (1 - 1e-9)]. */
  lemma CloseToOneWindow(x: real)
    ensures IsClose(x, 1.0) <==> 1.0 - RelTol <= x && x * (1.0 - RelTol) <= 1.0
  {
  }

  /** The `cond_scale` the blend uses: the configured high scale when the host's
      scale is close to 1.0, the host's scale otherwise. */
  function EffectiveScale(condScale: real, high: real): (s: real)
    ensures 1.0 - RelTol <= condScale && condScale * (1.0 - RelTol) <= 1.0 ==> s == high
    ensures !(1.0 - RelTol <= condScale && condScale * (1.0 - RelTol) <= 1.0) ==> s == condScale
  {
    CloseToOneWindow(condScale);
    if IsClose(condScale, 1.0) then high else condScale
  }

  /** `s[i]` on a Python sequence: negative indices count from the end, and an
      index outside `[-|s|, |s|)` raises `IndexError`. */
  function PyIndex(s: seq<real>, i: int): (r: Option<real>)
    ensures r.Some? <==> -|s| <= i < |s|
    ensures 0 <= i < |s| ==> r == Some(s[i])
    ensures -|s| <= i < 0 ==> r == Some(s[|s| + i])
  {
    if 0 <= i < |s| then Some(s[i])
    else if -|s| <= i < 0 then Some(s[|s| + i])
    else None
  }

  datatype Decision = Passthrough | FullGuidance | PlainCfg(condScale: real)

  datatype StepError =
    | SigmaIndexOutOfRange(index: int)   // `sample_sigmas[step_limits]` raising IndexError
    | EmptyGuidedPyramid                 // `pyramid[-1]` of an empty guided pyramid

  /** The decision `fdg_function` takes at one step. */
  function Gate(cfg: Config, condScale: real, hasUncond: bool, sigmas: seq<real>, sigma: real)
    : (d: Result<Decision, StepError>)
    ensures !hasUncond ==> d == Success(Passthrough)
    ensures hasUncond && |sigmas| == 0 ==> d.Failure?
    ensures hasUncond && |sigmas| >= 1 && cfg.fdgSteps >= 0 ==>
      var threshold := sigmas[Min(cfg.fdgSteps, |sigmas| - 1)];
      && d.Success?
      && (d.value == FullGuidance <==> sigma > threshold)
      && (d.value != FullGuidance ==> d.value == PlainCfg(EffectiveScale(condScale, cfg.guidanceScaleHigh)))
    ensures hasUncond && |sigmas| >= 1 && cfg.fdgSteps < 0 ==>
      && (d.Success? <==> -|sigmas| <= cfg.fdgSteps)
      && (d.Success? ==> (d.value == FullGuidance <==> sigma > sigmas[|sigmas| + cfg.fdgSteps]))
      && (d.Success? && d.value != FullGuidance ==>
            d.value == PlainCfg(EffectiveScale(condScale, cfg.guidanceScaleHigh)))
  {
    if !hasUncond then Success(Passthrough)
    else
      var idx := if cfg.fdgSteps >= |sigmas| - 1 then |sigmas| - 1 else cfg.fdgSteps;
      match PyIndex(sigmas, idx)
      case None => Failure(SigmaIndexOutOfRange(idx))
      case Some(threshold) =>
        if sigma > threshold then Success(FullGuidance)
        else Success(PlainCfg(EffectiveScale(condScale, cfg.guidanceScaleHigh)))
  }

  /** A higher noise level than one that gets full guidance gets it too. */
  lemma GateMonotone(cfg: Config, condScale: real, sigmas: seq<real>, s1: real, s2: real)
    requires Gate(cfg, condScale, true, sigmas, s2) == Success(FullGuidance)
    requires s1 >= s2
    ensures Gate(cfg, condScale, true, sigmas, s1) == Success(FullGuidance)
  {
  }

  predicate StrictlyDecreasing(s: seq<real>) {
    forall i :: 0 <= i < |s| - 1 ==> s[i] > s[i + 1]
  }

  lemma {:induction false} DecreasingApart(s: seq<real>, i: nat, j: nat)
    requires StrictlyDecreasing(s)
    requires i < j < |s|
    ensures s[i] > s[j]
    decreases j - i
  {
    if i + 1 < j {
      DecreasingApart(s, i + 1, j);
    }
  }

  /** On a strictly decreasing sigma schedule, the step whose sigma is `sigmas[j]`
      gets full guidance exactly when it is one of the first `min(fdg_steps, S - 1)`. */
  lemma GateLeadingSteps(cfg: Config, condScale: real, sigmas: seq<real>, j: nat)
    requires StrictlyDecreasing(sigmas)
    requires j < |sigmas| && cfg.fdgSteps >= 0
    ensures Gate(cfg, condScale, true, sigmas, sigmas[j]) == Success(FullGuidance)
        <==> j < Min(cfg.fdgSteps, |sigmas| - 1)
  {
    var t := Min(cfg.fdgSteps, |sigmas| - 1);
    if j < t {
      DecreasingApart(sigmas, j, t);
    } else if j > t {
      DecreasingApart(sigmas, t, j);
    }
  }

  /** The schedule [10, 8, 6, 4, 2, 0] with two guided steps: sigma 9 is guided,
      sigma 3 is blended. */
  lemma GateExample(cfg: Config, condScale: real)
    requires cfg.fdgSteps == 2
    ensures Gate(cfg, condScale, true, [10.0, 8.0, 6.0, 4.0, 2.0, 0.0], 9.0) == Success(FullGuidance)
    ensures Gate(cfg, condScale, true, [10.0, 8.0, 6.0, 4.0, 2.0, 0.0], 3.0).value.PlainCfg?
  {
  }

  /** What the host sampler passes to the callback at one step. */
  datatype SamplerArgs = SamplerArgs(
    cond: Plane,
    uncond: Option<Plane>,
    condScale: real,
    sampleSigmas: seq<real>,
    sigma: real)

  /** `fdg_function(args)`: clamps the step limit, compares the current sigma with the
      schedule's sigma at that step, and returns the guided, blended or unchanged
      conditional prediction. */
  method FdgFunction(cfg: Config, args: SamplerArgs, lib: TensorLibrary) returns (r: Result<Plane, StepError>)
    ensures var d := Gate(cfg, args.condScale, args.uncond.Some?, args.sampleSigmas, args.sigma);
      && (d.Failure? ==> r == Failure(d.error))
      && (d == Success(Passthrough) ==> r == Success(args.cond))
      && (d.Success? && d.value.PlainCfg? ==>
            r == Success(CfgCombine(args.cond, args.uncond.value, d.value.condScale)))
      && (d == Success(FullGuidance) ==>
            var image := GuidedImage(args.cond, args.uncond.value, cfg.guidanceScale, Some(cfg.parallelWeights), lib);
            r == if image.None? then Failure(EmptyGuidedPyramid) else Success(image.value))
  {
    ghost var d := Gate(cfg, args.condScale, args.uncond.Some?, args.sampleSigmas, args.sigma);
    var condScale := EffectiveScale(args.condScale, cfg.guidanceScaleHigh);
    if args.uncond.None? {
      assert d == Success(Passthrough);
      return Success(args.cond);
    }
    var uncond := args.uncond.value;
    var stepLimits := cfg.fdgSteps;
    if stepLimits >= |args.sampleSigmas| - 1 {
      stepLimits := |args.sampleSigmas| - 1;
    }
    var threshold := PyIndex(args.sampleSigmas, stepLimits);
    if threshold.None? {
      assert d == Failure(SigmaIndexOutOfRange(stepLimits));
      return Failure(SigmaIndexOutOfRange(stepLimits));
    }
    if args.sigma > threshold.value {
      assert d == Success(FullGuidance);
      var guided := LaplacianGuidance(args.cond, uncond, cfg.guidanceScale, Some(cfg.parallelWeights), lib);
      if guided.None? {
        return Failure(EmptyGuidedPyramid);
      }
      return Success(guided.value);
    }
    assert d == Success(PlainCfg(condScale));
    return Success(CfgCombine(args.cond, uncond, condScale));
  }
}
