/** The path of a timeout through Kuma: int64 to binary64 and back by rounding to the
    nearest second. Only integers are converted, so a binary64 value is modelled as the
    real number it denotes (precision p = 53, section 3.3 of IEEE 754-2008). */
module Float64 {
  import opened Strconv

  const TWO_TO_53 := 0x20_0000_0000_0000

  /** Distance between neighbouring binary64 numbers around `n`, never less than one.
      An int64 has magnitude at most 2^63, so twelve steps cover it. */
  function Spacing(n: nat): (u: nat)
    ensures u >= 1
  {
    if n < 0x20_0000_0000_0000 then 1
    else if n < 0x40_0000_0000_0000 then 2
    else if n < 0x80_0000_0000_0000 then 4
    else if n < 0x100_0000_0000_0000 then 8
    else if n < 0x200_0000_0000_0000 then 16
    else if n < 0x400_0000_0000_0000 then 32
    else if n < 0x800_0000_0000_0000 then 64
    else if n < 0x1000_0000_0000_0000 then 128
    else if n < 0x2000_0000_0000_0000 then 256
    else if n < 0x4000_0000_0000_0000 then 512
    else if n < 0x8000_0000_0000_0000 then 1024
    else 2048
  }

  /** The nearest binary64 number, ties to the even significand. */
  function NearestNat(n: nat): nat {
    var u := Spacing(n);
    var below := n - n % u;
    if 2 * (n % u) < u || (2 * (n % u) == u && below % (2 * u) == 0) then below else below + u
  }

  function FromInt64(n: int): real {
    if n < 0 then -(NearestNat(-n) as real) else NearestNat(n) as real
  }

  /** math.Round: half away from zero. */
  function Round(x: real): int {
    if x < 0.0 then -((0.5 - x).Floor) else (x + 0.5).Floor
  }

  /** int64(math.Round(x)); a value outside int64 becomes the minimum, as on amd64. */
  function SecondsFromKuma(x: real): int {
    if IsInt64(Round(x)) then Round(x) else MIN_INT64
  }

  /** Whether binary64 has this integer. */
  predicate Representable(n: int) {
    var m := if n < 0 then -n else n;
    m % Spacing(m) == 0
  }

  /** A timeout survives the trip through Kuma exactly when binary64 can hold it. */
  lemma TimeoutSurvives(n: int)
    requires IsInt64(n)
    ensures SecondsFromKuma(FromInt64(n)) == n <==> Representable(n)
  {
    var m: nat := if n < 0 then -n else n;
    var k: int := NearestNat(m);
    assert (k as real + 0.5).Floor == k;
    assert (0.5 - (-(k as real))).Floor == k;
    assert Round(FromInt64(n)) == if n < 0 then -k else k;
  }

  lemma TimeoutsDistinct(a: int, b: int)
    requires IsInt64(a) && IsInt64(b) && Representable(a) && Representable(b)
    ensures FromInt64(a) == FromInt64(b) <==> a == b
  {
    TimeoutSurvives(a);
    TimeoutSurvives(b);
  }

  lemma ZeroIsZero(n: int)
    ensures FromInt64(n) == 0.0 <==> n == 0
  {}

  /** Every whole number of seconds up to 2^53 survives; 2^53 + 1 does not. */
  lemma SmallTimeoutsSurvive(n: int)
    requires -TWO_TO_53 <= n <= TWO_TO_53
    ensures Representable(n) && !Representable(TWO_TO_53 + 1)
  {
  }

  /** The spacing is that of a 53-bit significand: n has at most 53 bits in these units, and
      all 53 of them where the unit is more than one. */
  lemma SpacingExact(n: nat)
    requires n < 2048 * TWO_TO_53
    ensures n < TWO_TO_53 * Spacing(n) && (Spacing(n) > 1 ==> TWO_TO_53 * Spacing(n) <= 2 * n)
  {}

  lemma MultiplesAround(n: nat, u: nat, k: nat)
    requires u >= 1 && k % u == 0
    ensures k <= n - n % u || n - n % u + u <= k
  {
    var a, b := k / u, n / u;
    assert k == a * u && n - n % u == b * u;
    if a <= b {
      assert a * u <= b * u;
    } else {
      assert (b + 1) * u <= a * u;
    }
  }

  /** Conversion picks the nearest of the multiples of the spacing, and of two equally near ones
      the even one. */
  lemma NearestExact(n: nat, k: nat)
    requires k % Spacing(n) == 0
    ensures
      var u, near := Spacing(n), NearestNat(n);
      && near % u == 0 && 2 * (near - n) <= u && 2 * (n - near) <= u
      && (if n < near then near - n else n - near) <= (if n < k then k - n else n - k)
      && (2 * (near - n) == u || 2 * (n - near) == u ==> near % (2 * u) == 0)
  {
    var u := Spacing(n);
    MultiplesAround(n, u, k);
    EvenNeighbour(n / u, u);
    assert n - n % u == n / u * u;
  }

  lemma NoSmallMultiple(d: int, m: nat)
    ensures d >= 1 ==> d * m >= m
    ensures d <= -1 ==> d * m <= 0 - m
  {
    if d >= 1 {
      assert d * m == m + (d - 1) * m;
    } else if d <= -1 {
      assert d * m == (d + 1) * m - m;
    }
  }

  lemma MultipleOf(p: nat, m: nat)
    requires m >= 1
    ensures (p * m) % m == 0
  {
    var x := p * m;
    assert x == x / m * m + x % m;
    assert (p - x / m) * m == p * m - x / m * m;
    NoSmallMultiple(p - x / m, m);
  }

  lemma EvenNeighbour(q: nat, u: nat)
    requires u >= 1
    ensures (q * u) % u == 0 && (q * u + u) % u == 0
    ensures (q * u) % (2 * u) != 0 ==> (q * u + u) % (2 * u) == 0
  {
    MultipleOf(q, u);
    MultipleOf(q + 1, u);
    assert q * u + u == (q + 1) * u;
    var p := q / 2;
    MultipleOf(p, 2 * u);
    MultipleOf(p + 1, 2 * u);
    if q % 2 == 0 {
      assert q == 2 * p;
      assert q * u == p * (2 * u);
    } else {
      assert q + 1 == 2 * (p + 1);
      assert (q + 1) * u == (p + 1) * (2 * u);
    }
  }

  /** math.Round: within half a unit, and away from zero where two integers are equally near. */
  lemma RoundExact(x: real)
    ensures
      var r := Round(x) as real;
      && -0.5 <= r - x <= 0.5
      && (r - x == 0.5 ==> x > 0.0) && (r - x == -0.5 ==> x < 0.0)
  {}
}
