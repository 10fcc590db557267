/** The experience-level curve (`getExpLevel`): levels are contiguous
    half-open bands `[lowerBound, upperBound)` of experience points. The
    first band is `[0, 50)`; each later band starts where the previous one
    ended and ends at the previous end doubled (levels 2 to 4), times 1.2
    (levels 5 to 51) or times 1.01 (level 52 on), rounded half up. */
module ExpLevels {

  /** The object `getExpLevel` returns. */
  datatype ExpLevel = ExpLevel(level: nat, lowerBound: int, upperBound: int, progress: real)

  /** `Math.round`: the nearest integer, halves rounded up. */
  function Round(x: real): (n: int)
    ensures n as real - 0.5 <= x < n as real + 0.5
  {
    (x + 0.5).Floor
  }

  /** The next upper bound, computed while `res.level` is `level`. */
  function Grow(level: nat, upper: int): int
    requires level >= 1
  {
    if level <= 3 then Round(upper as real * 2.0)
    else if level <= 50 then Round(upper as real * 1.2)
    else Round(upper as real * 1.01)
  }

  /** Every step of the curve adds at least one point once the bound is 50
      or more. */
  lemma GrowIncreases(level: nat, upper: int)
    requires level >= 1 && upper >= 50
    ensures Grow(level, upper) > upper
  {
  }

  /** The exclusive upper bound of band `level`. */
  function UpperBound(level: nat): (u: int)
    requires level >= 1
    ensures u >= 50
  {
    if level == 1 then 50
    else
      var prev := UpperBound(level - 1);
      GrowIncreases(level - 1, prev);
      Grow(level - 1, prev)
  }

  /** The inclusive lower bound of band `level`: where the previous band
      ended. */
  function LowerBound(level: nat): int
    requires level >= 1
  {
    if level == 1 then 0 else UpperBound(level - 1)
  }

  predicate InBand(exp: int, level: nat)
    requires level >= 1
  {
    LowerBound(level) <= exp < UpperBound(level)
  }

  /** `Math.round((upper - exp) / (upper - lower) * 1000) / 10`: the share of
      the band still to go, in percent with one decimal. */
  function Progress(exp: int, lower: int, upper: int): (p: real)
    requires lower <= exp < upper
    ensures 0.0 <= p <= 100.0
    ensures exp == lower ==> p == 100.0
  {
    var remaining := (upper - exp) as real;
    var width := (upper - lower) as real;
    assert 0.0 < remaining <= width;
    var share := remaining / width;
    assert 0.0 < share <= 1.0;
    assert exp == lower ==> remaining == width && share == 1.0;
    var tenths := Round(share * 1000.0);
    assert 0 <= tenths <= 1000;
    assert share == 1.0 ==> tenths == 1000;
    tenths as real / 10.0
  }

  /** `getExpLevel(exp)`. A negative `exp` never satisfies the exit test of
      the source loop, which then runs forever; it is excluded here. */
  method GetExpLevel(exp: int) returns (res: ExpLevel)
    requires exp >= 0
    ensures res.level >= 1
    ensures res.lowerBound == LowerBound(res.level) && res.upperBound == UpperBound(res.level)
    ensures res.lowerBound <= exp < res.upperBound
    ensures res.progress == Progress(exp, res.lowerBound, res.upperBound)
  {
    var level: nat, lower, upper := 0, 0, 0;
    while true
      invariant level == 0 ==> lower == 0 && upper == 0
      invariant level >= 1 ==> lower == LowerBound(level) && upper == UpperBound(level)
      invariant lower <= exp && upper <= exp
      decreases exp - upper
    {
      if level == 0 {
        upper := 50;
      } else if level <= 3 {
        lower := upper;
        upper := Round(upper as real * 2.0);
      } else if level <= 50 {
        lower := upper;
        upper := Round(upper as real * 1.2);
      } else {
        lower := upper;
        upper := Round(upper as real * 1.01);
      }
      level := level + 1;
      if lower <= exp && exp < upper {
        break;
      }
    }
    res := ExpLevel(level, lower, upper, Progress(exp, lower, upper));
  }

  // ---------------------------------------------------------------------
  // Properties of the curve

  /** The first band is `[0, 50)`; the next three double: `[50, 100)`,
      `[100, 200)`, `[200, 400)`; the fifth is `[400, 480)`. */
  lemma FirstBands()
    ensures LowerBound(1) == 0 && UpperBound(1) == 50
    ensures LowerBound(2) == 50 && UpperBound(2) == 100
    ensures LowerBound(3) == 100 && UpperBound(3) == 200
    ensures LowerBound(4) == 200 && UpperBound(4) == 400
    ensures LowerBound(5) == 400 && UpperBound(5) == 480
  {
  }

  /** Which multiplier makes each band. */
  lemma GrowthByLevel(level: nat)
    requires level >= 2
    ensures level <= 4 ==> UpperBound(level) == 2 * UpperBound(level - 1)
    ensures 5 <= level <= 51 ==> UpperBound(level) == Round(UpperBound(level - 1) as real * 1.2)
    ensures level >= 52 ==> UpperBound(level) == Round(UpperBound(level - 1) as real * 1.01)
  {
  }

  /** Each band starts exactly where the previous one ended and is not
      empty. */
  lemma Contiguous(level: nat)
    requires level >= 1
    ensures LowerBound(level + 1) == UpperBound(level)
    ensures LowerBound(level) < UpperBound(level) < UpperBound(level + 1)
  {
  }

  /** Upper bounds strictly increase with the level. */
  lemma {:induction false} UpperBoundIncreasing(m: nat, n: nat)
    requires 1 <= m < n
    ensures UpperBound(m) < UpperBound(n)
  {
    if m < n - 1 {
      UpperBoundIncreasing(m, n - 1);
    }
  }

  /** A later band lies entirely above an earlier one. */
  lemma BandsOrdered(m: nat, n: nat)
    requires 1 <= m < n
    ensures UpperBound(m) <= LowerBound(n)
  {
    if m < n - 1 {
      UpperBoundIncreasing(m, n - 1);
    }
  }

  /** The bands do not overlap: an amount of experience lies in one band
      at most, so the level `GetExpLevel` reports is the only one. */
  lemma BandUnique(exp: int, m: nat, n: nat)
    requires m >= 1 && n >= 1
    requires InBand(exp, m) && InBand(exp, n)
    ensures m == n
  {
    if m < n {
      BandsOrdered(m, n);
    } else if n < m {
      BandsOrdered(n, m);
    }
  }

  /** More experience never gives a lower level. */
  lemma LevelMonotone(a: int, b: int, m: nat, n: nat)
    requires a <= b && m >= 1 && n >= 1
    requires InBand(a, m) && InBand(b, n)
    ensures m <= n
  {
    if n < m {
      BandsOrdered(n, m);
    }
  }

  /** Progress counts what remains of the band: it is 100 at the start of
      the band, so zero experience reports 100, and it can round down to 0
      at the end of a band wider than 2000 points. */
  lemma ProgressIsRemainingShare()
    ensures Progress(0, 0, 50) == 100.0
    ensures Progress(49, 0, 50) == 2.0
    ensures Progress(2999, 0, 3000) == 0.0
  {
  }
}
