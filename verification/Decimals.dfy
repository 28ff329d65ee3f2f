/** Decimal arithmetic as the price calculation uses it: products are kept to 28
    significant digits, and a EUR price is then rounded half up to six places. */
module Decimals {
  import opened Common

  /** The number `m / 10^e`, not negative. */
  datatype Dec = Dec(m: nat, e: nat)

  function Pow10(n: nat): (r: nat)
    ensures r >= 1
  {
    if n == 0 then 1 else 10 * Pow10(n - 1)
  }

  const PRECISION := 28

  /** Ten to the 28th: the first coefficient that does not fit the precision. */
  const PRECISION_LIMIT: nat := 10000000000000000000000000000

  /** Ten to the 27th: the least coefficient that fills the precision. */
  const LEAST_FULL: nat := 1000000000000000000000000000

  /** The first value, in millionths, that does not fit a price column. */
  const PRICE_LIMIT: nat := 1000000000000000000

  function HalfUp(n: nat, d: nat): nat
    requires d > 0
  {
    (2 * n + d) / (2 * d)
  }

  function HalfEven(n: nat, d: nat): nat
    requires d > 0
  {
    var q, r := n / d, n % d;
    if 2 * r > d || (2 * r == d && q % 2 == 1) then q + 1 else q
  }

  function Digits(n: nat): nat {
    if n < 10 then 1 else 1 + Digits(n / 10)
  }

  /** Digits beyond the precision. */
  function Excess(c: nat): nat {
    if Digits(c) > PRECISION then Digits(c) - PRECISION else 0
  }

  /** The coefficient without them, rounded half even. */
  function Cut(c: nat): nat {
    HalfEven(c, Pow10(Excess(c)))
  }

  /** The product as the decimal context delivers it: exact while its coefficient has
      at most 28 digits, otherwise rounded to 28. */
  function Product(a: Dec, b: Dec): Option<Dec> {
    var c, e := a.m * b.m, a.e + b.e;
    if c < PRECISION_LIMIT then Some(Dec(c, e))
    else if e < Excess(c) then None
    else Some(Dec(Cut(c), e - Excess(c)))
  }

  /** A number in units of `10^-places`, rounded half up. */
  function ToPlaces(d: Dec, places: nat): nat {
    if d.e >= places then HalfUp(d.m, Pow10(d.e - places)) else d.m * Pow10(places - d.e)
  }

  /** `eur_price`, in millionths; nothing when the result has more digits than the
      precision. */
  function Quantized(price: Dec, rate: Dec): Option<nat> {
    var p := Product(price, rate);
    if p.None? then None
    else
      var eur := ToPlaces(p.value, 6);
      if eur < PRECISION_LIMIT then Some(eur) else None
  }

  /** The EUR price that is stored; nothing when its column cannot hold it. */
  function EurPrice(price: Dec, rate: Dec): Option<nat> {
    var eur := Quantized(price, rate);
    if eur.Some? && eur.value < PRICE_LIMIT then eur else None
  }

  /** Price times rate, exactly, then rounded half up to millionths. */
  function ExactEur(price: Dec, rate: Dec): nat {
    ToPlaces(Dec(price.m * rate.m, price.e + rate.e), 6)
  }

  // ----- Rounding ---------------------------------------------------------------------------

  lemma DivBounds(x: nat, y: nat)
    requires y > 0
    ensures x / y * y <= x < x / y * y + y
  {
  }

  /** The rounded value is off by at most half a unit, and a tie goes up. */
  lemma HalfUpWithinHalf(n: nat, d: nat)
    requires d > 0
    ensures 2 * n - d < 2 * (HalfUp(n, d) * d) <= 2 * n + d
  {
    DivBounds(2 * n + d, 2 * d);
    var q := HalfUp(n, d);
    assert q * (2 * d) == 2 * (q * d);
  }

  lemma DivUnique(x: int, y: int, q: int)
    requires y > 0 && q * y <= x < q * y + y
    ensures x / y == q
  {
    var p := x / y;
    assert x == p * y + x % y;
    assert p < q ==> (p + 1) * y <= q * y;
    assert q < p ==> (q + 1) * y <= p * y;
  }

  lemma MulMono(a: int, b: int, k: nat)
    requires a <= b
    ensures a * k <= b * k
  {
  }

  lemma MulMonoStrict(a: int, b: int, k: nat)
    requires a < b && k > 0
    ensures a * k < b * k
  {
  }

  lemma ScaledBounds(q: nat, x: nat, y: nat, k: nat)
    requires q * y <= x < q * y + y && k > 0
    ensures q * (y * k) <= x * k < q * (y * k) + y * k
  {
    MulAssoc(q, y, k);
    MulMono(q * y, x, k);
    MulMonoStrict(x, q * y + y, k);
  }

  /** Trailing zeros do not matter. */
  lemma HalfUpScales(n: nat, d: nat, k: nat)
    requires d > 0 && k > 0
    ensures d * k > 0 && HalfUp(n * k, d * k) == HalfUp(n, d)
  {
    var q := HalfUp(n, d);
    var x, y := 2 * n + d, 2 * d;
    DivBounds(x, y);
    assert d * k > 0;
    ScaledBounds(q, x, y, k);
    assert x * k == 2 * (n * k) + d * k;
    assert y * k == 2 * (d * k);
    DivUnique(x * k, y * k, q);
  }

  lemma {:induction false} Pow10Adds(a: nat, b: nat)
    ensures Pow10(a + b) == Pow10(a) * Pow10(b)
  {
    if a > 0 {
      Pow10Adds(a - 1, b);
      assert Pow10(a + b) == 10 * Pow10(a - 1 + b);
      assert 10 * (Pow10(a - 1) * Pow10(b)) == 10 * Pow10(a - 1) * Pow10(b);
    }
  }

  lemma PaddedFine(m: nat, e: nat, k: nat, places: nat)
    requires e >= places
    ensures ToPlaces(Dec(m * Pow10(k), e + k), places) == ToPlaces(Dec(m, e), places)
  {
    Pow10Adds(e - places, k);
    assert e - places + k == e + k - places;
    HalfUpScales(m, Pow10(e - places), Pow10(k));
  }

  lemma PaddedAcross(m: nat, e: nat, k: nat, places: nat)
    requires e < places <= e + k
    ensures ToPlaces(Dec(m * Pow10(k), e + k), places) == ToPlaces(Dec(m, e), places)
  {
    var up, down := places - e, e + k - places;
    Pow10Adds(up, down);
    assert up + down == k;
    MulAssoc(m, Pow10(up), Pow10(down));
    HalfUpOfMultiple(m * Pow10(up), Pow10(down));
  }

  lemma MulAssoc(a: nat, b: nat, c: nat)
    ensures a * (b * c) == a * b * c
  {
  }

  lemma HalfUpOfMultiple(n: nat, d: nat)
    requires d > 0
    ensures HalfUp(n * d, d) == n
  {
    HalfUpScales(n, 1, d);
    assert 1 * d == d && HalfUp(n, 1) == n;
  }

  lemma PaddedCoarse(m: nat, e: nat, k: nat, places: nat)
    requires e + k < places
    ensures ToPlaces(Dec(m * Pow10(k), e + k), places) == ToPlaces(Dec(m, e), places)
  {
    Pow10Adds(k, places - e - k);
    assert k + (places - e - k) == places - e;
    MulAssoc(m, Pow10(k), Pow10(places - e - k));
  }

  /** The same number written with more decimals rounds to the same units. */
  lemma ToPlacesOfPadded(m: nat, e: nat, k: nat, places: nat)
    ensures ToPlaces(Dec(m * Pow10(k), e + k), places) == ToPlaces(Dec(m, e), places)
  {
    if e >= places {
      PaddedFine(m, e, k, places);
    } else if e + k >= places {
      PaddedAcross(m, e, k, places);
    } else {
      PaddedCoarse(m, e, k, places);
    }
  }

  // ----- When the price is exact ----------------------------------------------------------------

  /** The EUR price one expects: the exact product rounded once, half up, if the column
      can hold it. */
  function ExactPrice(price: Dec, rate: Dec): Option<nat> {
    if ExactEur(price, rate) < PRICE_LIMIT then Some(ExactEur(price, rate)) else None
  }

  /** While the product fits the precision. */
  lemma EurPriceIsExact(price: Dec, rate: Dec)
    requires price.m * rate.m < PRECISION_LIMIT
    ensures EurPrice(price, rate) == ExactPrice(price, rate)
  {
  }

  /** A price in the columns' scale converts to itself at rate one, so differences of
      EUR prices are exact. */
  lemma RateOneIsIdentity(x: nat)
    requires x < PRICE_LIMIT
    ensures EurPrice(Dec(x, 6), Dec(1, 0)) == Some(x)
  {
    assert x * 1 == x;
    EurPriceIsExact(Dec(x, 6), Dec(1, 0));
    assert Pow10(0) == 1;
  }

  /** Error bound in the columns' scale: within half a millionth of price times rate. */
  lemma EurPriceWithinHalf(price: nat, rate: nat)
    ensures var eur := ExactEur(Dec(price, 6), Dec(rate, 8));
            2 * (price * rate) - Pow10(8) < 2 * (eur * Pow10(8)) <= 2 * (price * rate) + Pow10(8)
  {
    HalfUpWithinHalf(price * rate, Pow10(8));
  }

  lemma Pow10Values()
    ensures Pow10(6) == 1000000 && Pow10(8) == 100000000 && Pow10(14) == 100000000000000
    ensures Pow10(28) == PRECISION_LIMIT
  {
  }

  lemma {:induction false} DigitsOf(n: nat, k: nat)
    requires k >= 1 && n < Pow10(k) && (k == 1 || n >= Pow10(k - 1))
    ensures Digits(n) == k
  {
    if k > 1 {
      assert Pow10(k) == 10 * Pow10(k - 1) && Pow10(k - 1) == 10 * Pow10(k - 2);
      DigitsOf(n / 10, k - 1);
    }
  }

  lemma {:induction false} DigitsBound(n: nat)
    requires n > 0
    ensures Digits(n) >= 1 && n >= Pow10(Digits(n) - 1) && n < Pow10(Digits(n))
  {
    if n >= 10 {
      DigitsBound(n / 10);
      assert Pow10(Digits(n)) == 10 * Pow10(Digits(n / 10));
      assert Pow10(Digits(n) - 1) == 10 * Pow10(Digits(n / 10) - 1);
    } else {
      assert Pow10(0) == 1 && Pow10(1) == 10;
    }
  }

  lemma {:induction false} Pow10Mono(a: nat, b: nat)
    requires a <= b
    ensures Pow10(a) <= Pow10(b)
  {
    if a > 0 {
      Pow10Mono(a - 1, b - 1);
    }
  }

  lemma HalfUpAtLeast(n: nat, d: nat, v: nat)
    requires d > 0 && n >= v * d
    ensures HalfUp(n, d) >= v
  {
    HalfUpWithinHalf(n, d);
    var q := HalfUp(n, d);
    assert q < v ==> (q + 1) * d <= v * d;
  }

  lemma DivAtLeast(n: nat, d: nat, v: nat)
    requires d > 0 && n >= v * d
    ensures n / d >= v
  {
    DivBounds(n, d);
    var q := n / d;
    assert q < v ==> (q + 1) * d <= v * d;
  }

  lemma LongHasExcess(c: nat)
    requires c >= PRECISION_LIMIT
    ensures Excess(c) > 0
  {
    Pow10Values();
    DigitsBound(c);
    if Digits(c) <= PRECISION {
      Pow10Mono(Digits(c), PRECISION);
    }
  }

  lemma FullIsPower()
    ensures Pow10(27) == LEAST_FULL && Pow10(PRECISION) == PRECISION_LIMIT
  {
    Pow10Values();
    assert Pow10(28) == 10 * Pow10(27);
  }

  lemma LongIsFull(c: nat)
    requires c >= PRECISION_LIMIT
    ensures c >= LEAST_FULL * Pow10(Excess(c))
  {
    LongHasExcess(c);
    DigitsBound(c);
    FullIsPower();
    Pow10Adds(27, Excess(c));
    assert 27 + Excess(c) == Digits(c) - 1;
  }

  /** The rounded coefficient still has all digits of the precision. */
  lemma CutIsFull(c: nat)
    requires c >= PRECISION_LIMIT
    ensures Cut(c) >= LEAST_FULL
  {
    LongIsFull(c);
    DivAtLeast(c, Pow10(Excess(c)), LEAST_FULL);
  }

  /** A full coefficient with few decimals is too large for a price column. */
  lemma FullIsLarge(q: nat, e: nat)
    requires q >= LEAST_FULL && e <= 14
    ensures ToPlaces(Dec(q, e), 6) >= PRICE_LIMIT
  {
    if e >= 6 {
      Pow10Values();
      Pow10Mono(e - 6, 8);
      MulMono(Pow10(e - 6), Pow10(8), PRICE_LIMIT);
      HalfUpAtLeast(q, Pow10(e - 6), PRICE_LIMIT);
    } else {
      MulMono(1, Pow10(6 - e), q);
    }
  }

  /** A product too long for the precision, with at most fourteen decimals, is too
      large for a price column. */
  lemma LongProductOverflows(price: Dec, rate: Dec)
    requires price.m * rate.m >= PRECISION_LIMIT && price.e + rate.e <= 14
    ensures EurPrice(price, rate) == None
  {
    var c, e := price.m * rate.m, price.e + rate.e;
    CutIsFull(c);
    if e >= Excess(c) {
      FullIsLarge(Cut(c), e - Excess(c));
    }
  }

  lemma MulMonoStrictly(a: nat, b: nat, c: nat, d: nat)
    requires a <= b && c <= d
    ensures a * c <= b * d
  {
  }

  /** So a price and a rate in their columns' scale always convert exactly. */
  lemma ColumnScalePricesAreExact(price: Dec, rate: Dec)
    requires price.e <= 6 && rate.e <= 8
    ensures EurPrice(price, rate) == Some(ExactEur(price, rate)) || EurPrice(price, rate) == None
    ensures EurPrice(price, rate).Some? ==> price.m * rate.m < PRECISION_LIMIT
  {
    if price.m * rate.m >= PRECISION_LIMIT {
      LongProductOverflows(price, rate);
    } else {
      EurPriceIsExact(price, rate);
    }
  }

  // ----- Exactly when it is not ------------------------------------------------------------------

  /** The product is longer than the precision, its rounding to the precision goes up,
      and leaves exactly half a millionth to round again. */
  predicate RoundsUpToTie(price: Dec, rate: Dec) {
    var c, e := price.m * rate.m, price.e + rate.e;
    c >= PRECISION_LIMIT && e >= Excess(c) + 7
    && Cut(c) * Pow10(Excess(c)) > c && IsTie(Cut(c), Pow10(e - Excess(c) - 6))
  }

  predicate IsTie(q: nat, unit: nat)
    requires unit > 0
  {
    2 * (q % unit) == unit
  }

  lemma HalfUpUnique(n: nat, d: nat, k: nat)
    requires d > 0 && 2 * (k * d) - d <= 2 * n < 2 * (k * d) + d
    ensures HalfUp(n, d) == k
  {
    assert k * (2 * d) == 2 * (k * d);
    DivUnique(2 * n + d, 2 * d, k);
  }

  lemma HalfEvenWithinHalf(n: nat, d: nat)
    requires d > 0
    ensures 2 * n - d <= 2 * (HalfEven(n, d) * d) <= 2 * n + d
  {
    var q, r := n / d, n % d;
    assert n == q * d + r;
    assert (q + 1) * d == q * d + d;
  }

  lemma ScaleUp(k: int, h: nat, d: nat)
    ensures k * (2 * h) * d == k * (d * (2 * h)) && d * (2 * h) == 2 * (h * d)
    ensures (k - 1) * (d * (2 * h)) == k * (d * (2 * h)) - d * (2 * h)
  {
  }

  lemma SecondOffTie(c: nat, d: nat, h: nat, q: nat, k: nat)
    requires d > 0 && h > 0 && d * (2 * h) > 0
    requires 2 * c - d <= 2 * (q * d) <= 2 * c + d && k * (2 * h) - h < q < k * (2 * h) + h
    ensures HalfUp(c, d * (2 * h)) == k
  {
    ScaleUp(k, h, d);
    Strictly(q, k * (2 * h), h, d);
    HalfUpUnique(c, d * (2 * h), k);
  }

  lemma Strictly(q: int, m: int, h: int, d: nat)
    requires m - h < q < m + h
    ensures m * d - h * d + d <= q * d <= m * d + h * d - d
  {
    MulMonoInt(q, m + h - 1, d);
    MulMonoInt(m - h + 1, q, d);
  }

  lemma SecondAtTie(c: nat, d: nat, h: nat, q: nat, k: nat)
    requires d > 0 && h > 0 && d * (2 * h) > 0 && k > 0
    requires 2 * c - d <= 2 * (q * d) <= 2 * c + d && q == k * (2 * h) - h
    ensures HalfUp(c, d * (2 * h)) == if q * d > c then k - 1 else k
  {
    ScaleUp(k, h, d);
    AtTie(q, k * (2 * h), h, d);
    if q * d > c {
      HalfUpUnique(c, d * (2 * h), k - 1);
    } else {
      HalfUpUnique(c, d * (2 * h), k);
    }
  }

  lemma AtTie(q: int, m: int, h: nat, d: nat)
    requires q == m - h && h > 0
    ensures q * d == m * d - h * d && h * d >= d
  {
    MulMonoInt(1, h, d);
  }

  /** Rounding `c / d` half even and the result once more over `2 * h`, half up, is
      rounding once, but for a first rounding up to a tie: that gives one too many. */
  lemma SecondRounding(c: nat, d: nat, h: nat)
    requires d > 0 && h > 0
    ensures var q := HalfEven(c, d); var k := HalfUp(q, 2 * h);
            && d * (2 * h) > 0
            && HalfUp(c, d * (2 * h)) == (if q * d > c && q % (2 * h) == h then k - 1 else k)
  {
    var q := HalfEven(c, d);
    var k := HalfUp(q, 2 * h);
    HalfEvenWithinHalf(c, d);
    HalfUpWithinHalf(q, 2 * h);
    ScaleUp(k, h, d);
    MulMonoInt(1, h, d);
    TieIff(q, h, k);
    if q == k * (2 * h) - h {
      SecondAtTie(c, d, h, q, k);
    } else {
      SecondOffTie(c, d, h, q, k);
    }
  }

  lemma MulMonoInt(a: int, b: int, d: nat)
    requires a <= b
    ensures a * d <= b * d
  {
  }

  /** A tie is what rounds up from the lower end. */
  lemma TieIff(q: nat, h: nat, k: nat)
    requires h > 0 && k * (2 * h) - h <= q < k * (2 * h) + h
    ensures q % (2 * h) == h <==> q == k * (2 * h) - h
    ensures q == k * (2 * h) - h ==> k > 0
  {
    var w := 2 * h;
    if q == k * w - h {
      assert k > 0;
      assert q == (k - 1) * w + h;
      ModUnique(q, w, k - 1, h);
    } else if q >= k * w {
      ModUnique(q, w, k, q - k * w);
    } else {
      assert q == (k - 1) * w + (q - k * w + w);
      ModUnique(q, w, k - 1, q - k * w + w);
    }
  }

  lemma ModUnique(x: nat, y: nat, q: int, r: nat)
    requires y > 0 && x == q * y + r && r < y
    ensures x % y == r
  {
    DivUnique(x, y, q);
  }

  lemma FiveTimes(n: nat)
    requires n >= 1
    ensures Pow10(n) == 2 * (5 * Pow10(n - 1))
  {
  }

  /** With at least seven decimals left, rounding twice shows only at such a tie. */
  lemma CutRoundsTwice(c: nat, e: nat)
    requires c >= PRECISION_LIMIT && e >= Excess(c) + 7
    ensures var unit := Pow10(e - Excess(c) - 6);
            HalfUp(Cut(c), unit) ==
            HalfUp(c, Pow10(e - 6)) + (if Cut(c) * Pow10(Excess(c)) > c && IsTie(Cut(c), unit) then 1 else 0)
  {
    var f := e - Excess(c) - 6;
    Pow10Adds(Excess(c), f);
    assert Excess(c) + f == e - 6;
    FiveTimes(f);
    SecondRounding(c, Pow10(Excess(c)), 5 * Pow10(f - 1));
  }

  lemma LongProductRoundedTwice(price: Dec, rate: Dec)
    requires price.m * rate.m >= PRECISION_LIMIT
    requires price.e + rate.e >= Excess(price.m * rate.m) + 7
    ensures Product(price, rate).Some?
    ensures ToPlaces(Product(price, rate).value, 6) ==
            ExactEur(price, rate) + (if RoundsUpToTie(price, rate) then 1 else 0)
  {
    CutRoundsTwice(price.m * rate.m, price.e + rate.e);
  }

  /** With fewer, the price is too large for its column, rounded or not. */
  lemma LongExactTooLarge(price: Dec, rate: Dec)
    requires price.m * rate.m >= PRECISION_LIMIT
    requires price.e + rate.e < Excess(price.m * rate.m) + 7
    ensures ExactPrice(price, rate) == None
  {
    var c, e := price.m * rate.m, price.e + rate.e;
    LongIsFull(c);
    if e >= 6 {
      Pow10Mono(e - 6, Excess(c));
      MulMonoStrictly(PRICE_LIMIT, LEAST_FULL, Pow10(e - 6), Pow10(Excess(c)));
      HalfUpAtLeast(c, Pow10(e - 6), PRICE_LIMIT);
    } else {
      MulMono(1, Pow10(6 - e), c);
    }
  }

  lemma LongProductTooLarge(price: Dec, rate: Dec)
    requires price.m * rate.m >= PRECISION_LIMIT
    requires price.e + rate.e < Excess(price.m * rate.m) + 7
    ensures EurPrice(price, rate) == None
  {
    var c, e := price.m * rate.m, price.e + rate.e;
    CutIsFull(c);
    if e >= Excess(c) {
      FullIsLarge(Cut(c), e - Excess(c));
    }
  }

  /** For all prices and rates: the EUR price is the exact one (or too large for its
      column, as the exact one is) unless the product is longer than the precision, its
      rounding goes up to a tie, and the exact price fits.  It is then a millionth more. */
  lemma EurPriceIsExactIff(price: Dec, rate: Dec)
    ensures EurPrice(price, rate) == ExactPrice(price, rate) <==>
            !(RoundsUpToTie(price, rate) && ExactEur(price, rate) < PRICE_LIMIT)
    ensures RoundsUpToTie(price, rate) ==>
              EurPrice(price, rate) ==
              if ExactEur(price, rate) + 1 < PRICE_LIMIT then Some(ExactEur(price, rate) + 1) else None
  {
    var c := price.m * rate.m;
    if c < PRECISION_LIMIT {
      EurPriceIsExact(price, rate);
    } else if price.e + rate.e >= Excess(c) + 7 {
      LongProductRoundedTwice(price, rate);
    } else {
      LongProductTooLarge(price, rate);
      LongExactTooLarge(price, rate);
    }
  }

  /** A price typed with more digits than the precision can be rounded twice: this one
      lies below half a millionth above one, and yet becomes 1.000001. */
  lemma LongPriceIsRoundedTwice()
    ensures var price := Dec(10000004999999999999999999999, 28);
            && EurPrice(price, Dec(1, 0)) == Some(1000001) && ExactEur(price, Dec(1, 0)) == 1000000
            && RoundsUpToTie(price, Dec(1, 0))
  {
    var c: nat := 10000004999999999999999999999;
    Pow10Values();
    Pow10Adds(28, 1);
    assert Pow10(1) == 10;
    DigitsOf(c, 29);
    var q: nat := 1000000500000000000000000000;
    assert HalfEven(c, 10) == q;
    assert Product(Dec(c, 28), Dec(1, 0)) == Some(Dec(q, 27));
    Pow10Adds(14, 7);
    Pow10Adds(6, 1);
    assert Pow10(21) == 1000000000000000000000;
    Pow10Adds(21, 1);
    assert Pow10(22) == 10000000000000000000000;
    assert HalfUp(q, Pow10(21)) == 1000001;
    assert HalfUp(c, Pow10(22)) == 1000000;
  }

  // ----- The same number written in another way -------------------------------------------------------

  /** `n / 10^places` is the number `d`. */
  predicate SameNumber(n: nat, places: nat, d: Dec) {
    n * Pow10(d.e) == d.m * Pow10(places)
  }

  lemma MultipleHasNoRest(q: nat, y: nat)
    requires y > 0
    ensures q * y % y == 0
  {
    DivUnique(q * y, y, q);
  }

  lemma SameProduct(p: nat, a: nat, price: Dec, r: nat, b: nat, rate: Dec)
    requires SameNumber(p, a, price) && SameNumber(r, b, rate)
    ensures SameNumber(p * r, a + b, Dec(price.m * rate.m, price.e + rate.e))
  {
    Pow10Adds(price.e, rate.e);
    Pow10Adds(a, b);
    Regroup(p, Pow10(price.e), r, Pow10(rate.e));
    Regroup(price.m, Pow10(a), rate.m, Pow10(b));
  }

  lemma Regroup(a: nat, x: nat, b: nat, y: nat)
    ensures a * x * (b * y) == a * b * (x * y)
  {
  }

  lemma Cancel(a: nat, b: nat, k: nat)
    requires k > 0 && a * k == b * k
    ensures a == b
  {
  }

  /** One of the two is the other with zeros added. */
  lemma SameNumberLonger(n: nat, places: nat, d: Dec)
    requires SameNumber(n, places, d) && d.e >= places
    ensures d.m == n * Pow10(d.e - places)
  {
    var k := Pow10(d.e - places);
    Pow10Adds(d.e - places, places);
    MulAssoc(n, k, Pow10(places));
    Cancel(d.m, n * k, Pow10(places));
  }

  lemma SameNumberShorter(n: nat, places: nat, d: Dec)
    requires SameNumber(n, places, d) && d.e < places
    ensures n == d.m * Pow10(places - d.e)
  {
    var k := Pow10(places - d.e);
    Pow10Adds(places - d.e, d.e);
    MulAssoc(d.m, k, Pow10(d.e));
    Cancel(n, d.m * k, Pow10(d.e));
  }

  lemma SameNumberRounds(n: nat, places: nat, d: Dec, to: nat)
    requires SameNumber(n, places, d)
    ensures ToPlaces(Dec(n, places), to) == ToPlaces(d, to)
  {
    if d.e >= places {
      SameNumberLonger(n, places, d);
      ToPlacesOfPadded(n, places, d.e - places, to);
    } else {
      SameNumberShorter(n, places, d);
      ToPlacesOfPadded(d.m, d.e, places - d.e, to);
    }
  }

  lemma {:induction false} DigitsAtMost(n: nat, k: nat)
    requires k >= 1 && n < Pow10(k)
    ensures Digits(n) <= k
  {
    if n >= 10 && k > 1 {
      assert Pow10(k) == 10 * Pow10(k - 1);
      DigitsAtMost(n / 10, k - 1);
    }
  }

  lemma HalfEvenOfMultiple(n: nat, d: nat)
    requires d > 0
    ensures HalfEven(n * d, d) == n
  {
    DivUnique(n * d, d, n);
  }

  lemma PaddedBelow(n: nat, k: nat)
    requires n < PRECISION_LIMIT
    ensures n * Pow10(k) < Pow10(PRECISION + k)
  {
    FullIsPower();
    Pow10Adds(PRECISION, k);
    MulMonoStrict(n, PRECISION_LIMIT, Pow10(k));
  }

  lemma ExcessAtMost(c: nat, k: nat)
    requires c < Pow10(PRECISION + k)
    ensures Excess(c) <= k
  {
    DigitsAtMost(c, PRECISION + k);
  }

  /** A short number with zeros added loses nothing when it is cut to the precision. */
  lemma PaddedCutIsExact(n: nat, k: nat)
    requires n < PRECISION_LIMIT
    ensures Cut(n * Pow10(k)) * Pow10(Excess(n * Pow10(k))) == n * Pow10(k)
  {
    var x := Excess(n * Pow10(k));
    PaddedBelow(n, k);
    ExcessAtMost(n * Pow10(k), k);
    Pow10Adds(k - x, x);
    MulAssoc(n, Pow10(k - x), Pow10(x));
    HalfEvenOfMultiple(n * Pow10(k - x), Pow10(x));
  }

  /** Numbers with at most fourteen decimals between them are converted exactly, however
      they are written, when the result fits its column. */
  lemma ShortNumbersAreExact(price: Dec, rate: Dec, p: nat, r: nat)
    requires SameNumber(p, 6, price) && SameNumber(r, 8, rate) && EurPrice(price, rate).Some?
    ensures EurPrice(price, rate).value == ExactEur(Dec(p, 6), Dec(r, 8))
  {
    var d := Dec(price.m * rate.m, price.e + rate.e);
    SameProduct(p, 6, price, r, 8, rate);
    SameNumberRounds(p * r, 14, d, 6);
    EurPriceIsExactIff(price, rate);
    if ExactEur(price, rate) < PRICE_LIMIT {
      SmallExactIsShort(p * r);
      ShortProductNeverTies(price, rate, p * r);
    }
  }

  lemma ShortProductNeverTies(price: Dec, rate: Dec, n: nat)
    requires n < PRECISION_LIMIT && SameNumber(n, 14, Dec(price.m * rate.m, price.e + rate.e))
    ensures !RoundsUpToTie(price, rate)
  {
    var d := Dec(price.m * rate.m, price.e + rate.e);
    if d.e >= 14 {
      SameNumberLonger(n, 14, d);
      PaddedCutIsExact(n, d.e - 14);
    } else {
      SameNumberShorter(n, 14, d);
      MulMono(1, Pow10(14 - d.e), d.m);
    }
  }

  lemma SmallExactIsShort(n: nat)
    requires ToPlaces(Dec(n, 14), 6) < PRICE_LIMIT
    ensures n < PRECISION_LIMIT
  {
    Pow10Values();
    if n >= PRECISION_LIMIT {
      HalfUpAtLeast(n, Pow10(8), PRICE_LIMIT);
    }
  }
}
