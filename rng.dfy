/** The seeded random source that the sector generator draws from.

    The engine's generator state is not modelled: an oracle gives, for a seed
    and a call index, the 53-bit numerator of the fraction `frac()` returns.
    Re-seeding ("sow") restarts the stream at index 0 of the new seed, and
    every library call (between, frac, realInRange, weightedPick) takes one
    fraction and maps it by the library's own formula. Two calls that read
    the same index therefore agree the way the library's results do. */
module Rng {

  /** The generator: the numerator of fraction number `index` after sowing `seed`. */
  type Oracle = (int, nat) -> nat

  /** The generator's state: the last seed sown and how many draws were taken since. */
  datatype Stream = Stream(seed: int, cursor: nat) {
    function Next(): (s: Stream)
      ensures s.seed == seed && s.cursor == cursor + 1
    {
      Stream(seed, cursor + 1)
    }
  }

  /** Sowing a seed discards all previous state. */
  function Sown(seed: int): (s: Stream)
    ensures s.seed == seed && s.cursor == 0
  {
    Stream(seed, 0)
  }

  function Draw(o: Oracle, s: Stream): nat {
    o(s.seed, s.cursor)
  }

  /** `between(lo, hi)`: the whole part of `realInRange(0, hi - lo + 1) + lo`,
      that is lo plus the whole part of `frac()` times the width of the range. */
  function Between(d: nat, lo: int, hi: int): (v: int)
    requires lo <= hi
    ensures lo <= v <= hi
  {
    var n := hi - lo + 1;
    WholePartBelow(Frac(d), n);
    lo + (Frac(d) * n as real).Floor
  }

  /** For f in [0, 1), the whole part of f * n lies in [0, n). */
  lemma WholePartBelow(f: real, n: int)
    requires 0.0 <= f < 1.0 && n > 0
    ensures 0 <= (f * n as real).Floor < n
  {
    assert (1.0 - f) * n as real > 0.0;
  }

  /** The draw that makes `between(lo, hi)` yield the (v - lo)-th value of a
      range of n values: the fraction (v - lo) / n rounded up to the
      generator's resolution. */
  function ReachingDraw(lo: int, hi: int, v: int): nat
    requires lo <= v <= hi
  {
    ((v - lo) * FracResolution + (hi - lo)) / (hi - lo + 1)
  }

  /** Every integer of a range no wider than the generator's resolution is
      the result of some draw. */
  lemma BetweenReaches(lo: int, hi: int, v: int)
    requires lo <= v <= hi && hi - lo < FracResolution
    ensures Between(ReachingDraw(lo, hi, v), lo, hi) == v
  {
    var n, k := hi - lo + 1, v - lo;
    var d := ReachingDraw(lo, hi, v);
    RoundedUp(k, n);
    WholePartIs(d, n, k);
  }

  /** d = (k * R + n - 1) / n, the quotient k * R / n rounded up, lies below
      R, and d * n lies in [k * R, (k + 1) * R), for R the resolution. */
  lemma RoundedUp(k: int, n: int)
    requires 0 <= k < n <= FracResolution
    ensures var d := (k * FracResolution + (n - 1)) / n;
      0 <= d < FracResolution && k * FracResolution <= d * n < (k + 1) * FracResolution
  {
    QuotientRoundedUp(k, n, FracResolution);
  }

  /** RoundedUp for any resolution r at least n. */
  lemma QuotientRoundedUp(k: int, n: int, r: int)
    requires 0 <= k < n <= r
    ensures var d := (k * r + (n - 1)) / n;
      0 <= d < r && k * r <= d * n < (k + 1) * r
  {
    var num := k * r + (n - 1);
    var d := num / n;
    Divided(num, n);
    NextMultiple(k, r);
    ScaleUp(k + 1, n, r);
    FactorSign(d, n);
    FactorBelow(d, n, r);
  }

  /** The quotient a / n, times n, lies in (a - n, a]. */
  lemma Divided(a: int, n: int)
    requires 0 < n
    ensures a - n < (a / n) * n <= a
  {
  }

  /** (k + 1) * r is k * r plus r. */
  lemma NextMultiple(k: int, r: int)
    ensures (k + 1) * r == k * r + r
  {
  }

  /** Multiplying by c >= 0 keeps order. */
  lemma ScaleUp(a: int, b: int, c: int)
    requires a <= b && 0 <= c
    ensures a * c <= b * c
  {
  }

  /** A product with a positive factor n is non-negative only if the other factor is. */
  lemma FactorSign(d: int, n: int)
    requires 0 < n && 0 <= d * n
    ensures 0 <= d
  {
  }

  /** d * n below n * r, for n positive, puts d below r. */
  lemma FactorBelow(d: int, n: int, r: int)
    requires 0 < n && d * n < n * r
    ensures d < r
  {
  }

  /** With k * R <= d * n < (k + 1) * R and d below R, the whole part of
      frac() times n is k. */
  lemma WholePartIs(d: nat, n: int, k: int)
    requires d < FracResolution && k * FracResolution <= d * n < (k + 1) * FracResolution
    ensures (Frac(d) * n as real).Floor == k
  {
    var r := FracResolution as real;
    assert Frac(d) == d as real / r;
    assert Frac(d) * n as real == (d * n) as real / r;
    FloorOfRatio(d * n, FracResolution, k);
  }

  /** k * r <= m < (k + 1) * r puts the whole part of m / r at k. */
  lemma FloorOfRatio(m: int, r: int, k: int)
    requires 0 < r && k * r <= m < (k + 1) * r
    ensures (m as real / r as real).Floor == k
  {
    var x := m as real / r as real;
    assert x * r as real == m as real;
    assert k as real * r as real <= m as real < (k + 1) as real * r as real;
    assert k as real <= x < (k + 1) as real;
  }


  const FracResolution: nat := 0x20_0000_0000_0000

  /** `frac()`: a real in [0, 1), at the library's 53-bit resolution. */
  function Frac(d: nat): (f: real)
    ensures 0.0 <= f < 1.0
  {
    (d % FracResolution) as real / FracResolution as real
  }

  /** `realInRange(lo, hi)`: a real in [lo, hi]. */
  function RealInRange(d: nat, lo: real, hi: real): (v: real)
    requires lo <= hi
    ensures lo <= v <= hi
  {
    var f, w := Frac(d), hi - lo;
    ScaleBelowOne(f, w);
    lo + f * w
  }

  lemma ScaleBelowOne(f: real, w: real)
    requires 0.0 <= f <= 1.0 && 0.0 <= w
    ensures 0.0 <= f * w <= w
  {
    assert (1.0 - f) * w >= 0.0;
  }

  /** `weightedPick(options)`: the option at index
      `floor(frac()^2 * (|options| - 1) + 0.5)`, which favours the earlier
      options. The library takes the options alone; weights passed after
      them are ignored. */
  function Pick<T>(d: nat, options: seq<T>): T
    requires |options| > 0
  {
    options[SkewedIndex(Frac(d), |options|)]
  }

  /** The index `weightedPick` reads for fraction f among n options. */
  function SkewedIndex(f: real, n: int): (i: int)
    requires 0.0 <= f < 1.0 && n > 0
    ensures 0 <= i < n
  {
    ScaleBelowOne(f, f);
    var g := f * f;
    var w := (n - 1) as real;
    ScaleBelowOne(g, w);
    var x := g * w + 0.5;
    assert 0.0 <= x < w + 1.0;
    x.Floor
  }

  /** Whatever the draw, the pick is one of the options. */
  lemma PickIn<T>(d: nat, options: seq<T>)
    requires |options| > 0
    ensures Pick(d, options) in options
  {
  }
}
