/**
 * The arithmetic core of a creature: the six experience curves and the
 * stat formulas (api/pokemon.py, calculate_xp and calculate_stats).
 *
 * Python computes these with float division followed by math.floor; every
 * divisor here is positive, so Dafny's `/` on int (which then agrees with
 * flooring) gives the exact rational floor.
 */
module StatEngine {

  /** The growth-rate categories that calculate_xp distinguishes. */
  datatype GrowthRate =
    | SlowThenVeryFast
    | Fast
    | MediumFast
    | MediumSlow
    | Slow
    | FastThenVerySlow

  /** A nature names the stat index it raises by 10% and the one it lowers by 10%. */
  datatype Nature = Nature(increasedStat: int, decreasedStat: int)

  function Cube(n: int): int
  {
    n * n * n
  }

  /** Experience needed for `level` on the curve `rate` (calculate_xp). */
  function XpFor(rate: GrowthRate, level: int): (xp: int)
    ensures level <= 1 ==> xp == (if rate == MediumFast then Cube(level) else 0)
  {
    match rate
    case SlowThenVeryFast =>
      if level <= 1 then 0
      else if level <= 50 then Cube(level) * (100 - level) / 50
      else if level <= 68 then Cube(level) * (150 - level) / 100
      else if level <= 98 then Cube(level) * ((1911 - 10 * level) / 3) / 500
      else Cube(level) * (160 - level) / 100
    case Fast =>
      if level <= 1 then 0 else 4 * Cube(level) / 5
    case MediumFast =>
      Cube(level)
    case MediumSlow =>
      if level <= 1 then 0 else (6 * Cube(level) - 75 * level * level + 500 * level - 700) / 5
    case Slow =>
      if level <= 1 then 0 else 5 * Cube(level) / 4
    case FastThenVerySlow =>
      if level <= 1 then 0
      else if level <= 15 then Cube(level) * (24 + (level + 1) / 3) / 50
      else if level <= 36 then Cube(level) * (14 + level) / 50
      else Cube(level) * (32 + level / 2) / 50
  }

  lemma MulLe(a: int, b: int, c: int, d: int)
    requires 0 <= a <= b && 0 <= c <= d
    ensures a * c <= b * d
  {
    calc {
      a * c;
    <= { assert a * (d - c) >= 0; }
      a * d;
    <= { assert (b - a) * d >= 0; }
      b * d;
    }
  }

  lemma DivLe(a: int, b: int, d: int)
    requires a <= b && 0 < d
    ensures a / d <= b / d
  {
    var qa, qb := a / d, b / d;
    if qa > qb {
      MulLe(0, d, 0, qa - qb - 1);
      assert false;
    }
  }

  /**
   * The one inequality behind every step of every curve: going from `n` to
   * `n + 1` multiplies the cube by enough to absorb a factor that drops by at
   * most `k`, as long as `k * n <= 3 * b`.
   */
  lemma CubeScaledStep(n: int, a: int, b: int, k: int)
    requires 0 <= n && 0 <= b && 0 <= k && a <= b + k && k * n <= 3 * b
    ensures Cube(n) * a <= Cube(n + 1) * b
  {
    var sq := n * n;
    var c := Cube(n);
    MulLe(0, n, 0, n);
    MulLe(0, sq, 0, n);
    assert c == sq * n && 0 <= c;
    // c * a <= c * (b + k)
    MulLe(0, c, 0, b + k - a);
    Distribute(c, b + k, -a);
    // c * k <= 3 * b * sq
    MulLe(0, k, 0, n);
    MulLe(k * n, 3 * b, sq, sq);
    assert c * k == (k * n) * sq;
    Distribute(c, b, k);
    // the rest of Cube(n + 1) * b covers 3 * b * sq
    MulLe(0, 3 * n + 1, 0, b);
    CubeSucc(n);
    Distribute(b, c + 3 * sq, 3 * n + 1);
    Distribute(b, c, 3 * sq);
  }

  lemma CubeSucc(n: int)
    ensures Cube(n + 1) == Cube(n) + 3 * (n * n) + (3 * n + 1)
  {
  }

  lemma Distribute(x: int, y: int, z: int)
    ensures x * (y + z) == x * y + x * z
  {
  }

  /** On every curve the requirement for the next level is at least that of this one. */
  lemma XpStep(rate: GrowthRate, level: int)
    requires 1 <= level < 100
    ensures XpFor(rate, level) <= XpFor(rate, level + 1)
  {
    var n := level;
    match rate
    case SlowThenVeryFast => SlowThenVeryFastStep(n);
    case Fast =>
      CubeScaledStep(n, 4, 4, 0);
      DivLe(4 * Cube(n), 4 * Cube(n + 1), 5);
    case MediumFast =>
      CubeScaledStep(n, 1, 1, 0);
    case MediumSlow => MediumSlowStep(n);
    case Slow =>
      CubeScaledStep(n, 5, 5, 0);
      DivLe(5 * Cube(n), 5 * Cube(n + 1), 4);
    case FastThenVerySlow => FastThenVerySlowStep(n);
  }

  lemma SlowThenVeryFastStep(n: int)
    requires 1 <= n < 100
    ensures XpFor(SlowThenVeryFast, n) <= XpFor(SlowThenVeryFast, n + 1)
  {
    if n == 1 {
      assert XpFor(SlowThenVeryFast, 2) == 15;
    } else if n < 50 {
      CubeScaledStep(n, 100 - n, 99 - n, 1);
      DivLe(Cube(n) * (100 - n), Cube(n + 1) * (99 - n), 50);
    } else if n == 50 {
      assert XpFor(SlowThenVeryFast, 50) == 125000;
      assert XpFor(SlowThenVeryFast, 51) == 131324;
    } else if n < 68 {
      CubeScaledStep(n, 150 - n, 149 - n, 1);
      DivLe(Cube(n) * (150 - n), Cube(n + 1) * (149 - n), 100);
    } else if n == 68 {
      assert XpFor(SlowThenVeryFast, 68) == 257834;
      assert XpFor(SlowThenVeryFast, 69) == 267406;
    } else if n < 98 {
      var a, b := (1911 - 10 * n) / 3, (1911 - 10 * (n + 1)) / 3;
      CubeScaledStep(n, a, b, 4);
      DivLe(Cube(n) * a, Cube(n + 1) * b, 500);
    } else if n == 98 {
      assert XpFor(SlowThenVeryFast, 98) == 583539;
      assert XpFor(SlowThenVeryFast, 99) == 591882;
    } else {
      assert XpFor(SlowThenVeryFast, 99) == 591882;
      assert XpFor(SlowThenVeryFast, 100) == 600000;
    }
  }

  lemma MediumSlowStep(n: int)
    requires 1 <= n < 100
    ensures XpFor(MediumSlow, n) <= XpFor(MediumSlow, n + 1)
  {
    if n == 1 {
      assert XpFor(MediumSlow, 2) == 9;
    } else {
      var p, q := 6 * Cube(n) - 75 * n * n + 500 * n - 700,
                  6 * Cube(n + 1) - 75 * (n + 1) * (n + 1) + 500 * (n + 1) - 700;
      var sq := n * n;
      assert Cube(n + 1) == Cube(n) + 3 * sq + 3 * n + 1;
      assert (n + 1) * (n + 1) == sq + 2 * n + 1;
      assert (3 * n - 11) * (3 * n - 11) == 9 * sq - 66 * n + 121;
      assert (3 * n - 11) * (3 * n - 11) >= 0;
      assert q - p == 18 * sq - 132 * n + 431;
      DivLe(p, q, 5);
    }
  }

  lemma FastThenVerySlowStep(n: int)
    requires 1 <= n < 100
    ensures XpFor(FastThenVerySlow, n) <= XpFor(FastThenVerySlow, n + 1)
  {
    if n == 1 {
      assert XpFor(FastThenVerySlow, 2) == 4;
    } else {
      var a := if n <= 15 then 24 + (n + 1) / 3 else if n <= 36 then 14 + n else 32 + n / 2;
      var b := if n + 1 <= 15 then 24 + (n + 2) / 3 else if n + 1 <= 36 then 15 + n else 32 + (n + 1) / 2;
      CubeScaledStep(n, a, b, 0);
      DivLe(Cube(n) * a, Cube(n + 1) * b, 50);
    }
  }

  /** Every curve is non-decreasing over levels 1 to 100. */
  lemma {:induction false} XpMonotone(rate: GrowthRate, lo: int, hi: int)
    requires 1 <= lo <= hi <= 100
    ensures XpFor(rate, lo) <= XpFor(rate, hi)
    decreases hi - lo
  {
    if lo < hi {
      XpStep(rate, lo);
      XpMonotone(rate, lo + 1, hi);
    }
  }

  /** No curve asks for negative experience on levels 1 to 100. */
  lemma XpNonNegative(rate: GrowthRate, level: int)
    requires 1 <= level <= 100
    ensures XpFor(rate, level) >= 0
  {
    XpMonotone(rate, 1, level);
  }

  /** ⌊(2·base + iv + ⌊ev/4⌋)·level/100⌋, the part both stat formulas share. */
  function StatCore(base: int, iv: int, ev: int, level: int): int
  {
    (2 * base + iv + ev / 4) * level / 100
  }

  /** The HP formula (index 0). */
  function HpStat(base: int, iv: int, ev: int, level: int): int
  {
    StatCore(base, iv, ev, level) + level + 10
  }

  /** The formula of the five other stats, before the nature is applied. */
  function PlainStat(base: int, iv: int, ev: int, level: int): int
  {
    StatCore(base, iv, ev, level) + 5
  }

  /**
   * The nature's effect on stat `index`: ×1.1 floored when it is the
   * increased stat, otherwise ×0.9 floored when it is the decreased one.
   */
  function NatureAdjusted(index: int, value: int, nature: Nature): (r: int)
    ensures value >= 0 ==> value * 9 / 10 <= r <= value * 11 / 10
    ensures value >= 0 && r > value ==> index == nature.increasedStat
    ensures value >= 0 && r < value ==> index == nature.decreasedStat && index != nature.increasedStat
    ensures index != nature.increasedStat && index != nature.decreasedStat ==> r == value
    ensures index == nature.increasedStat ==> r == value * 11 / 10
    ensures index != nature.increasedStat && index == nature.decreasedStat ==> r == value * 9 / 10
  {
    if index == nature.increasedStat then value * 11 / 10
    else if index == nature.decreasedStat then value * 9 / 10
    else value
  }

  predicate SixStats(baseStats: seq<int>, ivs: seq<int>, evs: seq<int>)
  {
    |baseStats| == 6 && |ivs| == 6 && |evs| == 6
  }

  /** Stat `index` (0 is HP) as calculate_stats writes it. */
  function StatAt(index: int, baseStats: seq<int>, ivs: seq<int>, evs: seq<int>, level: int, nature: Nature): int
    requires 0 <= index < 6 && SixStats(baseStats, ivs, evs)
  {
    if index == 0 then HpStat(baseStats[0], ivs[0], evs[0], level)
    else NatureAdjusted(index, PlainStat(baseStats[index], ivs[index], evs[index], level), nature)
  }

  /** The six stats calculate_stats computes. */
  function StatsFor(baseStats: seq<int>, ivs: seq<int>, evs: seq<int>, level: int, nature: Nature): (stats: seq<int>)
    requires SixStats(baseStats, ivs, evs)
    ensures |stats| == 6
    ensures forall i :: 0 <= i < 6 ==> stats[i] == StatAt(i, baseStats, ivs, evs, level, nature)
  {
    seq(6, i requires 0 <= i < 6 => StatAt(i, baseStats, ivs, evs, level, nature))
  }

  /** The nature never reaches HP: two natures give the same stats[0]. */
  lemma HpIgnoresNature(baseStats: seq<int>, ivs: seq<int>, evs: seq<int>, level: int, n1: Nature, n2: Nature)
    requires SixStats(baseStats, ivs, evs)
    ensures StatsFor(baseStats, ivs, evs, level, n1)[0] == StatsFor(baseStats, ivs, evs, level, n2)[0]
            == HpStat(baseStats[0], ivs[0], evs[0], level)
  {
  }

  /** A nature whose increased and decreased stat coincide raises that stat. */
  lemma SameIndexNatureRaises(baseStats: seq<int>, ivs: seq<int>, evs: seq<int>, level: int, i: int)
    requires SixStats(baseStats, ivs, evs) && 1 <= i < 6
    ensures StatsFor(baseStats, ivs, evs, level, Nature(i, i))[i]
            == PlainStat(baseStats[i], ivs[i], evs[i], level) * 11 / 10
  {
  }

  lemma NatureAdjustedMono(index: int, p: int, q: int, nature: Nature)
    requires p <= q
    ensures NatureAdjusted(index, p, nature) <= NatureAdjusted(index, q, nature)
  {
    DivLe(p * 11, q * 11, 10);
    DivLe(p * 9, q * 9, 10);
  }

  /** With non-negative base stats, IVs and EVs, no stat falls when the level rises. */
  lemma StatsGrowWithLevel(baseStats: seq<int>, ivs: seq<int>, evs: seq<int>, lo: int, hi: int, nature: Nature)
    requires SixStats(baseStats, ivs, evs)
    requires forall i :: 0 <= i < 6 ==> baseStats[i] >= 0 && ivs[i] >= 0 && evs[i] >= 0
    requires 0 <= lo <= hi
    ensures forall i :: 0 <= i < 6 ==>
      StatsFor(baseStats, ivs, evs, lo, nature)[i] <= StatsFor(baseStats, ivs, evs, hi, nature)[i]
  {
    forall i | 0 <= i < 6
      ensures StatAt(i, baseStats, ivs, evs, lo, nature) <= StatAt(i, baseStats, ivs, evs, hi, nature)
    {
      var x := 2 * baseStats[i] + ivs[i] + evs[i] / 4;
      MulLe(x, x, lo, hi);
      DivLe(x * lo, x * hi, 100);
      if i > 0 {
        NatureAdjustedMono(i, PlainStat(baseStats[i], ivs[i], evs[i], lo),
                           PlainStat(baseStats[i], ivs[i], evs[i], hi), nature);
      }
    }
  }

  /** The worked example: base HP 45, no IVs or EVs, gives 11 HP at level 1 and 13 at level 2. */
  lemma HpExample()
    ensures HpStat(45, 0, 0, 1) == 11 && HpStat(45, 0, 0, 2) == 13
  {
  }
}
