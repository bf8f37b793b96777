/** CommissionMath: the platform's share of a reward. */
module CommissionMath {
  import opened Model

  function Pow10(n: nat): (p: int)
    ensures p >= 1
  { if n == 0 then 1 else 10 * Pow10(n - 1) }

  function Numerator(r: Rate): int { if r.scale >= 0 then r.unscaled else r.unscaled * Pow10(-r.scale) }
  function Denominator(r: Rate): (d: int)
    ensures d >= 1
  { if r.scale >= 0 then Pow10(r.scale) else 1 }

  predicate InRange(reward: int, r: Rate) { reward >= 0 && 0 <= Numerator(r) <= Denominator(r) }

  /** FLOOR of reward * rate, or None for the IllegalArgumentException. */
  function Commission(reward: int, r: Rate): (c: Option<int>)
    ensures c.Some? <==> InRange(reward, r)
    ensures c.Some? ==> 0 <= c.value <= reward
    ensures c.Some? ==> IsFloor(c.value, reward, Numerator(r), Denominator(r))
  {
    if reward < 0 || Numerator(r) < 0 || Numerator(r) > Denominator(r) then None
    else
      FloorQuotient(reward, Numerator(r), Denominator(r));
      Some(reward * Numerator(r) / Denominator(r))
  }

  /** c is the largest integer not above reward * n / d. */
  predicate IsFloor(c: int, reward: int, n: int, d: int) {
    Times(c, d) <= Times(reward, n) < Times(c + 1, d)
  }

  function Times(a: int, b: int): int { a * b }

  lemma TimesCancel(a: int, b: int, d: int)
    requires d >= 1 && Times(a, d) < Times(b, d)
    ensures a < b
  {}

  lemma TimesMonotone(a: int, b: int, d: int)
    requires d >= 0 && a <= b
    ensures Times(a, d) <= Times(b, d)
  {}

  lemma FloorQuotient(reward: int, n: int, d: int)
    requires reward >= 0 && 0 <= n <= d && d >= 1
    ensures 0 <= reward * n / d <= reward
    ensures IsFloor(reward * n / d, reward, n, d)
  {
    var q := reward * n / d;
    assert reward * n == q * d + reward * n % d;
    assert Times(q + 1, d) == q * d + d;
    assert 0 <= Times(reward, n) by { TimesMonotone(0, reward, n); }
    assert Times(reward, n) <= Times(reward, d) by {
      TimesMonotone(n, d, reward);
      assert Times(n, reward) == Times(reward, n) && Times(d, reward) == Times(reward, d);
    }
    assert Times(reward + 1, d) == Times(reward, d) + d;
    TimesCancel(q, reward + 1, d);
    TimesCancel(-1, q, d);
  }

  /** The floor is unique. */
  lemma FloorIsUnique(c: int, x: int, reward: int, n: int, d: int)
    requires d >= 1 && IsFloor(c, reward, n, d) && IsFloor(x, reward, n, d)
    ensures c == x
  {}

  /** Two spellings of one rate, such as 0.1 and 0.100, are accepted alike and give the same commission. */
  lemma CommissionIgnoresScale(reward: int, r: Rate, s: Rate)
    requires Numerator(r) * Denominator(s) == Numerator(s) * Denominator(r)
    ensures Commission(reward, r) == Commission(reward, s)
  {
    var n, d, m, e := Numerator(r), Denominator(r), Numerator(s), Denominator(s);
    SameRange(n, d, m, e);
    if InRange(reward, r) {
      var c := Commission(reward, r).value;
      FloorRescales(c, reward, n, d, m, e);
      FloorIsUnique(c, Commission(reward, s).value, reward, m, e);
    }
  }

  lemma SameRange(n: int, d: int, m: int, e: int)
    requires d >= 1 && e >= 1 && n * e == m * d
    ensures 0 <= n <= d <==> 0 <= m <= e
  {}

  lemma FloorRescales(c: int, reward: int, n: int, d: int, m: int, e: int)
    requires d >= 1 && e >= 1 && n * e == m * d
    requires IsFloor(c, reward, n, d)
    ensures IsFloor(c, reward, m, e)
  {}

  /** Moving the decimal point: u * 10^-s is 10u * 10^-(s+1). */
  lemma CommissionShifts(reward: int, u: int, s: int)
    ensures Commission(reward, Rate(u, s)) == Commission(reward, Rate(10 * u, s + 1))
  {
    hide Commission, InRange;
    SameFraction(u, s);
    CommissionIgnoresScale(reward, Rate(u, s), Rate(10 * u, s + 1));
  }

  lemma SameFraction(u: int, s: int)
    ensures Numerator(Rate(u, s)) * Denominator(Rate(10 * u, s + 1))
            == Numerator(Rate(10 * u, s + 1)) * Denominator(Rate(u, s))
  {
    if s < -1 {
      assert Pow10(-s) == 10 * Pow10(-s - 1);
      assert u * Pow10(-s) == 10 * u * Pow10(-s - 1);
    } else if s >= 0 {
      assert Pow10(s + 1) == 10 * Pow10(s);
      assert u * Pow10(s + 1) == 10 * u * Pow10(s);
    }
  }

  /** The whole reward, nothing, and the floor of any percentage: with the shift these fix what every scale means. */
  lemma CommissionAnchors(reward: int, percent: int)
    requires reward >= 0
    ensures Commission(reward, Rate(1, 0)) == Some(reward) && Commission(reward, Rate(0, 0)) == Some(0)
    ensures var c := Commission(reward, Rate(percent, 2));
            if 0 <= percent <= 100 then c.Some? && 100 * c.value <= reward * percent < 100 * (c.value + 1)
                else c == None
  {
    assert Pow10(2) == 100;
    FloorQuotient(reward, 1, 1);
    FloorQuotient(reward, 0, 1);
    if 0 <= percent <= 100 { FloorQuotient(reward, percent, 100); }
  }
}
