/** Per-level guidance-scale schedule (`create_guidance_scales` in nodes.py).
    Values are modelled over the reals: float32 rounding in `torch.linspace`
    and `.tolist()` is not part of the model. */
module Schedule {
  import opened Wrappers

  datatype ScheduleError =
    | UnknownMethod(name: string)   // the `ValueError` raised for any method other than linear/cosine
    | NegativeSteps(levels: int)    // `torch.linspace` refuses a negative number of steps

  /** The value of Python's `math.pi` as written in decimal. */
  const MathPi: real := 3.141592653589793

  /** `torch.linspace(start, end, steps)` over the reals: `steps` evenly spaced
      points, the first `start` and (for two or more points) the last `end`. */
  function Linspace(start: real, end: real, steps: nat): (r: seq<real>)
    ensures |r| == steps
    ensures steps >= 1 ==> r[0] == start
    ensures steps >= 2 ==> r[steps - 1] == end
    ensures steps >= 2 ==>
      forall i :: 0 <= i < steps - 1 ==> r[i + 1] - r[i] == (end - start) / (steps - 1) as real
  {
    if steps == 1 then [start]
    else
      var step := (end - start) / (steps - 1) as real;
      var r := seq(steps, i => start + i as real * step);
      assert steps >= 2 ==> r[steps - 1] == end by {
        if steps >= 2 {
          var d := (steps - 1) as real;
          assert d * ((end - start) / d) == end - start;
        }
      }
      r
  }

  /** The cosine ease: `low + (high - low) * 0.5 * (1 + cos(t * pi))` at
      `levels` points `t` evenly spaced over [0, 1]. `cos` stands for `torch.cos`. */
  function CosineSchedule(high: real, low: real, levels: nat, cos: real -> real): (r: seq<real>)
    ensures |r| == levels
  {
    var t := Linspace(0.0, 1.0, levels);
    seq(levels, i requires 0 <= i < levels => low + (high - low) * 0.5 * (1.0 + cos(t[i] * MathPi)))
  }

  /** `create_guidance_scales(high_scale, low_scale, levels, method)`. The single-level
      case is answered before the method is looked at. */
  function CreateGuidanceScales(high: real, low: real, levels: int, interpolation: string, cos: real -> real)
    : (r: Result<seq<real>, ScheduleError>)
    ensures levels == 1 ==> r == Success([high])
    ensures levels != 1 && interpolation != "linear" && interpolation != "cosine" ==> r == Failure(UnknownMethod(interpolation))
    ensures levels < 0 && (interpolation == "linear" || interpolation == "cosine") ==> r == Failure(NegativeSteps(levels))
    ensures r.Success? <==> levels == 1 || (levels >= 0 && (interpolation == "linear" || interpolation == "cosine"))
    ensures r.Success? ==> |r.value| == levels
    ensures levels >= 2 && interpolation == "linear" ==>
      && r.Success?
      && r.value[0] == high
      && r.value[levels - 1] == low
      && forall i :: 0 <= i < levels - 1 ==> r.value[i + 1] - r.value[i] == (low - high) / (levels - 1) as real
    ensures levels >= 2 && interpolation == "cosine" ==> r == Success(CosineSchedule(high, low, levels, cos))
  {
    if levels == 1 then Success([high])
    else if interpolation == "linear" then
      if levels < 0 then Failure(NegativeSteps(levels)) else Success(Linspace(high, low, levels))
    else if interpolation == "cosine" then
      if levels < 0 then Failure(NegativeSteps(levels)) else Success(CosineSchedule(high, low, levels, cos))
    else Failure(UnknownMethod(interpolation))
  }

  /** A single level is `[high]` whatever method is named, so leaving the method
      to its default `"linear"` gives the same answer. */
  lemma SingleLevelExample(interpolation: string, cos: real -> real)
    ensures CreateGuidanceScales(10.0, 1.0, 1, interpolation, cos) == Success([10.0])
    ensures CreateGuidanceScales(10.0, 1.0, 1, "linear", cos) == Success([10.0])
  {
  }

  /** With `high >= low` the linear schedule never increases from a finer level to a coarser one. */
  lemma LinearNonIncreasing(high: real, low: real, levels: nat, i: nat, j: nat)
    requires high >= low
    requires i <= j < levels
    ensures Linspace(high, low, levels)[j] <= Linspace(high, low, levels)[i]
  {
    if levels >= 2 {
      var step := (low - high) / (levels - 1) as real;
      assert step <= 0.0;
      assert (j - i) as real * step <= 0.0;
      assert Linspace(high, low, levels)[j] - Linspace(high, low, levels)[i] == (j - i) as real * step;
    }
  }

  /** For a cosine with cos(0) = 1 and cos(pi) = -1 the cosine schedule starts at
      `high` and ends at `low`, like the linear one. */
  lemma CosineEndpoints(high: real, low: real, levels: nat, cos: real -> real)
    requires levels >= 2
    requires cos(0.0) == 1.0 && cos(MathPi) == -1.0
    ensures CosineSchedule(high, low, levels, cos)[0] == high
    ensures CosineSchedule(high, low, levels, cos)[levels - 1] == low
  {
    var t := Linspace(0.0, 1.0, levels);
    assert t[0] * MathPi == 0.0;
    assert t[levels - 1] * MathPi == MathPi;
  }

  /** The points of `Linspace(0, 1, n)` lie in [0, 1] and grow with the index. */
  lemma UnitLinspaceBounds(levels: nat, i: nat, j: nat)
    requires i <= j < levels
    ensures 0.0 <= Linspace(0.0, 1.0, levels)[i] <= Linspace(0.0, 1.0, levels)[j] <= 1.0
  {
    if levels >= 2 {
      LinspaceAt(0.0, 1.0, levels, i);
      LinspaceAt(0.0, 1.0, levels, j);
      UnitFractions((levels - 1) as real, i as real, j as real,
                    Linspace(0.0, 1.0, levels)[i], Linspace(0.0, 1.0, levels)[j]);
    } else {
      assert i == j == 0;
      assert Linspace(0.0, 1.0, levels)[0] == 0.0;
    }
  }

  /** Entry `i` of `Linspace`. Unfolds the definition for the verifier. */
  lemma LinspaceAt(start: real, end: real, steps: nat, i: nat)
    requires 2 <= steps && i < steps
    ensures Linspace(start, end, steps)[i] == start + i as real * ((end - start) / (steps - 1) as real)
  {
  }

  lemma UnitFractions(d: real, a: real, b: real, ta: real, tb: real)
    requires 0.0 <= a <= b <= d && d > 0.0
    requires ta == 0.0 + a * ((1.0 - 0.0) / d) && tb == 0.0 + b * ((1.0 - 0.0) / d)
    ensures 0.0 <= ta <= tb <= 1.0
  {
    var step := 1.0 / d;
    assert step > 0.0;
    ScaleMonotone(step, 0.0, a);
    ScaleMonotone(step, a, b);
    ScaleMonotone(step, b, d);
    assert d * step == 1.0;
  }

  lemma ScaleMonotone(k: real, a: real, b: real)
    requires k >= 0.0 && a <= b
    ensures k * a <= k * b
  {
  }

  /** Entry `i` of the cosine schedule. Unfolds the definition for the verifier. */
  lemma CosineAt(high: real, low: real, levels: nat, cos: real -> real, i: nat)
    requires i < levels
    ensures CosineSchedule(high, low, levels, cos)[i]
         == low + (high - low) * 0.5 * (1.0 + cos(Linspace(0.0, 1.0, levels)[i] * MathPi))
  {
  }

  /** The phases `t * pi` of the cosine schedule lie in [0, pi] and grow with the index. */
  lemma PhaseBounds(levels: nat, i: nat, j: nat)
    requires i <= j < levels
    ensures 0.0 <= Linspace(0.0, 1.0, levels)[i] * MathPi <= Linspace(0.0, 1.0, levels)[j] * MathPi <= MathPi
  {
    var t := Linspace(0.0, 1.0, levels);
    UnitLinspaceBounds(levels, i, j);
    ScaleMonotone(MathPi, t[i], t[j]);
    ScaleMonotone(MathPi, t[j], 1.0);
  }

  /** The ease `low + (high - low) * 0.5 * (1 + c)` grows with `c` when `high >= low`. */
  lemma EaseMonotone(high: real, low: real, c0: real, c1: real)
    requires high >= low && c1 <= c0
    ensures low + (high - low) * 0.5 * (1.0 + c1) <= low + (high - low) * 0.5 * (1.0 + c0)
  {
    ScaleMonotone((high - low) * 0.5, 1.0 + c1, 1.0 + c0);
  }

  /** Two entries of the cosine schedule compare as their cosines do, when `high >= low`. */
  lemma CosinePairOrder(high: real, low: real, levels: nat, cos: real -> real, i: nat, j: nat)
    requires high >= low
    requires i <= j < levels
    requires cos(Linspace(0.0, 1.0, levels)[j] * MathPi) <= cos(Linspace(0.0, 1.0, levels)[i] * MathPi)
    ensures CosineSchedule(high, low, levels, cos)[j] <= CosineSchedule(high, low, levels, cos)[i]
  {
    var t := Linspace(0.0, 1.0, levels);
    EaseMonotone(high, low, cos(t[i] * MathPi), cos(t[j] * MathPi));
    CosineAt(high, low, levels, cos, i);
    CosineAt(high, low, levels, cos, j);
  }

  /** For a cosine that does not increase on [0, pi] and `high >= low`, the cosine
      schedule does not increase either. */
  lemma CosineNonIncreasing(high: real, low: real, levels: nat, cos: real -> real, i: nat, j: nat)
    requires high >= low
    requires forall x: real, y: real :: 0.0 <= x <= y <= MathPi ==> cos(y) <= cos(x)
    requires i <= j < levels
    ensures CosineSchedule(high, low, levels, cos)[j] <= CosineSchedule(high, low, levels, cos)[i]
  {
    PhaseBounds(levels, i, j);
    CosinePairOrder(high, low, levels, cos, i, j);
  }

  /** The linear case of the test suite: 10 down to 1 over four levels. */
  lemma LinearExample(cos: real -> real)
    ensures CreateGuidanceScales(10.0, 1.0, 4, "linear", cos) == Success([10.0, 7.0, 4.0, 1.0])
  {
    var r := Linspace(10.0, 1.0, 4);
    assert r[1] == 7.0 && r[2] == 4.0;
    assert r == [10.0, 7.0, 4.0, 1.0];
  }
}
