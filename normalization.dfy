/** Clamped log-scale normalisation of a per-particle scalar field
    (`Visualization.log_normalize`, `Visualization.log_normalize_P` and the
    module-level `log_normalize` of the point-cloud script).

    Values are exact reals. The base-10 logarithm is not defined here: every
    member takes it as a parameter `log10` and asks only that it be strictly
    increasing on the positive reals. */
module Normalization {

  /** The bounds of the clamp and the unit factor applied before clamping. */
  datatype NormConfig = NormConfig(tMin: real, tMax: real, unit: real)

  /** The logarithm is defined on the whole clamped range and the range is not degenerate. */
  predicate ValidConfig(cfg: NormConfig) {
    0.0 < cfg.tMin < cfg.tMax && cfg.unit > 0.0
  }

  /** `log_normalize`: temperatures in eV, converted to Kelvin, clamped into [100, 6000]. */
  const TemperaturePreset := NormConfig(100.0, 6000.0, 11604.0)

  /** `log_normalize_P`: pressures, not converted, clamped into [1e8, 5e12]. */
  const PressurePreset := NormConfig(1e8, 5e12, 1.0)

  /** The point-cloud script's `log_normalize`: converted to Kelvin, clamped into [1300, 1e4]. */
  const PointCloudPreset := NormConfig(1300.0, 1e4, 11604.0)

  /** What the model needs of `np.log10`. */
  ghost predicate StrictlyIncreasing(log10: real -> real) {
    forall x, y :: 0.0 < x < y ==> log10(x) < log10(y)
  }

  /** `np.copy(temp) * unit`, for one element. */
  function Converted(cfg: NormConfig, x: real): real {
    x * cfg.unit
  }

  /** The first masked write: values above `T_max` become `T_max`. */
  function CapAbove(cfg: NormConfig, c: real): real {
    if c > cfg.tMax then cfg.tMax else c
  }

  /** The second masked write: values below `T_min` become `T_min`. */
  function RaiseBelow(cfg: NormConfig, c: real): real {
    if c < cfg.tMin then cfg.tMin else c
  }

  /** Both masked writes, in the order the source performs them. */
  function Clamp(cfg: NormConfig, c: real): (r: real)
    ensures cfg.tMin <= cfg.tMax ==> cfg.tMin <= r <= cfg.tMax
    ensures cfg.tMin <= c <= cfg.tMax ==> r == c
    ensures c <= cfg.tMin ==> r == cfg.tMin
    ensures cfg.tMin <= cfg.tMax <= c ==> r == cfg.tMax
  {
    RaiseBelow(cfg, CapAbove(cfg, c))
  }

  /** `(log10(c) - log10(T_min)) / (log10(T_max) - log10(T_min))`. */
  function LogScale(cfg: NormConfig, log10: real -> real, c: real): real
    requires ValidConfig(cfg) && StrictlyIncreasing(log10)
  {
    (log10(c) - log10(cfg.tMin)) / (log10(cfg.tMax) - log10(cfg.tMin))
  }

  /** The normalised value of one raw sample: converted, clamped, log-scaled. */
  function Normalized(cfg: NormConfig, log10: real -> real, x: real): (r: real)
    requires ValidConfig(cfg) && StrictlyIncreasing(log10)
    ensures 0.0 <= r <= 1.0
    ensures x * cfg.unit <= cfg.tMin ==> r == 0.0
    ensures x * cfg.unit >= cfg.tMax ==> r == 1.0
  {
    var c := Clamp(cfg, Converted(cfg, x));
    LogScaleBounds(cfg, log10, c);
    LogScale(cfg, log10, c)
  }

  /** On the clamped range the log scale runs from exactly 0 to exactly 1. */
  lemma LogScaleBounds(cfg: NormConfig, log10: real -> real, c: real)
    requires ValidConfig(cfg) && StrictlyIncreasing(log10)
    requires cfg.tMin <= c <= cfg.tMax
    ensures 0.0 <= LogScale(cfg, log10, c) <= 1.0
    ensures c == cfg.tMin ==> LogScale(cfg, log10, c) == 0.0
    ensures c == cfg.tMax ==> LogScale(cfg, log10, c) == 1.0
  {
    var lo, hi, lc := log10(cfg.tMin), log10(cfg.tMax), log10(c);
    assert lo < hi;
    assert lo <= lc <= hi by {
      if cfg.tMin < c { assert lo < lc; }
      if c < cfg.tMax { assert lc < hi; }
    }
    DivideWithin(lc - lo, hi - lo);
  }

  /** 0 <= a <= d and d > 0 give 0 <= a / d <= 1. */
  lemma DivideWithin(a: real, d: real)
    requires 0.0 <= a <= d && d > 0.0
    ensures 0.0 <= a / d <= 1.0
  {
    assert a / d * d == a;
  }

  /** a <= b and d > 0 give a / d <= b / d. */
  lemma DivideMonotone(a: real, b: real, d: real)
    requires a <= b && d > 0.0
    ensures a / d <= b / d
  {
    assert (b - a) / d >= 0.0 by { assert (b - a) / d * d == b - a; }
    assert b / d - a / d == (b - a) / d;
  }

  /** a < b and d > 0 give a / d < b / d. */
  lemma DivideStrictlyMonotone(a: real, b: real, d: real)
    requires a < b && d > 0.0
    ensures a / d < b / d
  {
    assert (b - a) / d > 0.0 by { assert (b - a) / d * d == b - a; }
    assert b / d - a / d == (b - a) / d;
  }

  /** The normalisation is monotone non-decreasing in the raw input. */
  lemma NormalizedMonotone(cfg: NormConfig, log10: real -> real, x: real, y: real)
    requires ValidConfig(cfg) && StrictlyIncreasing(log10)
    requires x <= y
    ensures Normalized(cfg, log10, x) <= Normalized(cfg, log10, y)
  {
    var a, b := Converted(cfg, x), Converted(cfg, y);
    assert a <= b by { ScaleMonotone(x, y, cfg.unit); }
    ClampMonotone(cfg, a, b);
    LogScaleMonotone(cfg, log10, Clamp(cfg, a), Clamp(cfg, b));
  }

  /** On the clamped range the log scale is monotone non-decreasing. */
  lemma LogScaleMonotone(cfg: NormConfig, log10: real -> real, c: real, d: real)
    requires ValidConfig(cfg) && StrictlyIncreasing(log10)
    requires cfg.tMin <= c <= d
    ensures LogScale(cfg, log10, c) <= LogScale(cfg, log10, d)
  {
    var lo, hi := log10(cfg.tMin), log10(cfg.tMax);
    assert log10(c) <= log10(d) by {
      if c < d { assert 0.0 < c; }
    }
    LogRangePositive(cfg, log10);
    DivideMonotone(log10(c) - lo, log10(d) - lo, hi - lo);
  }

  /** On the clamped range the log scale is strictly increasing. */
  lemma LogScaleStrictlyMonotone(cfg: NormConfig, log10: real -> real, c: real, d: real)
    requires ValidConfig(cfg) && StrictlyIncreasing(log10)
    requires cfg.tMin <= c < d
    ensures LogScale(cfg, log10, c) < LogScale(cfg, log10, d)
  {
    var lo, hi := log10(cfg.tMin), log10(cfg.tMax);
    assert log10(c) < log10(d) by {
      assert 0.0 < c;
    }
    LogRangePositive(cfg, log10);
    DivideStrictlyMonotone(log10(c) - lo, log10(d) - lo, hi - lo);
  }

  /** Clamping keeps the order of its inputs. */
  lemma ClampMonotone(cfg: NormConfig, a: real, b: real)
    requires ValidConfig(cfg) && a <= b
    ensures Clamp(cfg, a) <= Clamp(cfg, b)
  {
  }

  /** x <= y and u > 0 give x * u <= y * u. */
  lemma ScaleMonotone(x: real, y: real, u: real)
    requires x <= y && u > 0.0
    ensures x * u <= y * u
  {
    assert y * u - x * u == (y - x) * u;
  }

  /** The denominator of the log scale is positive. */
  lemma LogRangePositive(cfg: NormConfig, log10: real -> real)
    requires ValidConfig(cfg) && StrictlyIncreasing(log10)
    ensures log10(cfg.tMax) - log10(cfg.tMin) > 0.0
  {
    assert log10(cfg.tMin) < log10(cfg.tMax);
  }

  /** Contrapositive of monotonicity: a strictly smaller normalised value comes from a strictly smaller raw value. */
  lemma NormalizedReflectsOrder(cfg: NormConfig, log10: real -> real, x: real, y: real)
    requires ValidConfig(cfg) && StrictlyIncreasing(log10)
    requires Normalized(cfg, log10, x) < Normalized(cfg, log10, y)
    ensures x < y
  {
    if y <= x {
      NormalizedMonotone(cfg, log10, y, x);
    }
  }

  /** Inside the clamp range the normalisation separates distinct converted values. */
  lemma NormalizedStrictInRange(cfg: NormConfig, log10: real -> real, x: real, y: real)
    requires ValidConfig(cfg) && StrictlyIncreasing(log10)
    requires cfg.tMin <= x * cfg.unit < y * cfg.unit <= cfg.tMax
    ensures Normalized(cfg, log10, x) < Normalized(cfg, log10, y)
  {
    LogScaleStrictlyMonotone(cfg, log10, x * cfg.unit, y * cfg.unit);
    assert Clamp(cfg, Converted(cfg, x)) == x * cfg.unit;
    assert Clamp(cfg, Converted(cfg, y)) == y * cfg.unit;
  }

  /** Clamping twice is clamping once, so normalising an already clamped value
      gives the same result as normalising the unclamped one. */
  lemma ClampIdempotent(cfg: NormConfig, log10: real -> real, c: real)
    requires ValidConfig(cfg) && StrictlyIncreasing(log10)
    ensures Clamp(cfg, Clamp(cfg, c)) == Clamp(cfg, c)
    ensures LogScale(cfg, log10, Clamp(cfg, Clamp(cfg, c))) == LogScale(cfg, log10, Clamp(cfg, c))
  {
  }

  /** The normalised array of a whole frame, element by element. */
  function NormalizedSeq(cfg: NormConfig, log10: real -> real, s: seq<real>): (r: seq<real>)
    requires ValidConfig(cfg) && StrictlyIncreasing(log10)
    ensures |r| == |s|
    ensures forall i :: 0 <= i < |s| ==> r[i] == Normalized(cfg, log10, s[i])
  {
    seq(|s|, i requires 0 <= i < |s| => Normalized(cfg, log10, s[i]))
  }

  /** `log_normalize`: copy and convert, cap from above in place, raise from
      below in place, then log-scale into a new array. The input is a value,
      so the caller's data cannot change. */
  method LogNormalize(temp: seq<real>, cfg: NormConfig, log10: real -> real) returns (norm: seq<real>)
    requires ValidConfig(cfg) && StrictlyIncreasing(log10)
    ensures |norm| == |temp|
    ensures forall i :: 0 <= i < |temp| ==> 0.0 <= norm[i] <= 1.0
    ensures forall i :: 0 <= i < |temp| ==> norm[i] == Normalized(cfg, log10, temp[i])
  {
    var ceiling := CopyConverted(temp, cfg);
    CapAboveInPlace(ceiling, cfg);
    RaiseBelowInPlace(ceiling, cfg);
    norm := LogScaleAll(ceiling, cfg, log10);
    forall i | 0 <= i < |temp| ensures norm[i] == Normalized(cfg, log10, temp[i]) {
      assert norm[i] == LogScale(cfg, log10, Clamp(cfg, Converted(cfg, temp[i])));
    }
  }

  /** `np.copy(temp) * unit` into a new array. */
  method CopyConverted(temp: seq<real>, cfg: NormConfig) returns (ceiling: array<real>)
    ensures fresh(ceiling) && ceiling.Length == |temp|
    ensures forall k :: 0 <= k < |temp| ==> ceiling[k] == Converted(cfg, temp[k])
  {
    ceiling := new real[|temp|];
    for i := 0 to |temp|
      invariant forall k :: 0 <= k < i ==> ceiling[k] == Converted(cfg, temp[k])
    {
      ceiling[i] := Converted(cfg, temp[i]);
    }
  }

  /** `c[np.where(c > T_max)] = T_max`, in place. */
  method CapAboveInPlace(ceiling: array<real>, cfg: NormConfig)
    modifies ceiling
    ensures forall k :: 0 <= k < ceiling.Length ==> ceiling[k] == CapAbove(cfg, old(ceiling[k]))
  {
    for i := 0 to ceiling.Length
      invariant forall k :: 0 <= k < i ==> ceiling[k] == CapAbove(cfg, old(ceiling[k]))
      invariant forall k :: i <= k < ceiling.Length ==> ceiling[k] == old(ceiling[k])
    {
      if ceiling[i] > cfg.tMax {
        ceiling[i] := cfg.tMax;
      }
    }
  }

  /** `c[np.where(c < T_min)] = T_min`, in place. */
  method RaiseBelowInPlace(ceiling: array<real>, cfg: NormConfig)
    modifies ceiling
    ensures forall k :: 0 <= k < ceiling.Length ==> ceiling[k] == RaiseBelow(cfg, old(ceiling[k]))
  {
    for i := 0 to ceiling.Length
      invariant forall k :: 0 <= k < i ==> ceiling[k] == RaiseBelow(cfg, old(ceiling[k]))
      invariant forall k :: i <= k < ceiling.Length ==> ceiling[k] == old(ceiling[k])
    {
      if ceiling[i] < cfg.tMin {
        ceiling[i] := cfg.tMin;
      }
    }
  }

  /** The log scale of every clamped value, into a new sequence. */
  method LogScaleAll(ceiling: array<real>, cfg: NormConfig, log10: real -> real) returns (scaled: seq<real>)
    requires ValidConfig(cfg) && StrictlyIncreasing(log10)
    ensures |scaled| == ceiling.Length
    ensures forall k :: 0 <= k < ceiling.Length ==> scaled[k] == LogScale(cfg, log10, ceiling[k])
  {
    LogRangePositive(cfg, log10);
    var out := new real[ceiling.Length];
    for i := 0 to ceiling.Length
      modifies out
      invariant forall k :: 0 <= k < i ==> out[k] == LogScale(cfg, log10, ceiling[k])
    {
      out[i] := (log10(ceiling[i]) - log10(cfg.tMin)) / (log10(cfg.tMax) - log10(cfg.tMin));
    }
    scaled := out[..];
  }

  /** The three configurations the source uses are valid. */
  lemma PresetsValid()
    ensures ValidConfig(TemperaturePreset)
    ensures ValidConfig(PressurePreset)
    ensures ValidConfig(PointCloudPreset)
  {
  }
}
