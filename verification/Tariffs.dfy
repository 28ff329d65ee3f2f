/** Tariffs: one per country, provider and prefix, with a derived EUR price.

    Prices are stored in millionths and rates in hundred-millionths, the scales of
    their columns; forms can submit longer numbers, which the columns round. */
module Tariffs {
  import opened Common
  import opened Decimals

  type Id = nat

  /** Prefix zero stands for "no prefix", as in the identity comparison. */
  datatype Identity = Identity(country: Id, provider: Id, prefix: Id)

  datatype Tariff = Tariff(id: Identity, currency: Id, price: nat, rate: nat, rateId: Option<nat>, eur: nat,
                           current: bool, comment: string)

  datatype Rate = Rate(currency: Id, rate: nat)

  datatype Tables = Tables(tariffs: seq<Tariff>, rates: seq<Rate>)

  datatype Form = Form(currency: Id, price: Dec, rate: Dec, rateId: Option<nat>, comment: string)

  const RATE_LIMIT: nat := 100000000000000000000

  function StoredPrice(price: Dec): nat { ToPlaces(price, 6) }

  function StoredRate(rate: Dec): nat { ToPlaces(rate, 8) }

  /** The columns can hold the price, the rate and the EUR price. */
  predicate Fits(price: Dec, rate: Dec) {
    EurPrice(price, rate).Some? && StoredPrice(price) < PRICE_LIMIT && 0 < StoredRate(rate) < RATE_LIMIT
  }

  predicate Exists(tariffs: seq<Tariff>, id: Identity) {
    exists i :: 0 <= i < |tariffs| && tariffs[i].id == id
  }

  /** What counts as a change; the rate alone does not. */
  predicate Changes(t: Tariff, f: Form, current: Option<bool>) {
    !SameNumber(t.price, 6, f.price) || t.currency != f.currency || t.comment != f.comment
    || (current.Some? && current.value != t.current)
  }

  function Written(id: Identity, f: Form, current: bool): Tariff
    requires Fits(f.price, f.rate)
  {
    Tariff(id, f.currency, StoredPrice(f.price), StoredRate(f.rate), f.rateId, EurPrice(f.price, f.rate).value,
           current, f.comment)
  }

  /** The current tariffs of the rate's currency are the ones recalculated. */
  predicate Affected(t: Tariff, r: Rate) {
    t.current && t.currency == r.currency
  }

  function NewEur(t: Tariff, r: Rate): Option<nat> {
    EurPrice(Dec(t.price, 6), Dec(r.rate, 8))
  }

  function Recalculated(t: Tariff, r: Rate, k: nat): Tariff {
    if Affected(t, r) && NewEur(t, r).Some? then t.(rate := r.rate, rateId := Some(k), eur := NewEur(t, r).value) else t
  }

  function RecalculatedAll(tariffs: seq<Tariff>, r: Rate, k: nat): (s: seq<Tariff>)
    ensures |s| == |tariffs| && forall i :: 0 <= i < |tariffs| ==> s[i] == Recalculated(tariffs[i], r, k)
  {
    seq(|tariffs|, i requires 0 <= i < |tariffs| => Recalculated(tariffs[i], r, k))
  }

  predicate Convertible(tariffs: seq<Tariff>, r: Rate) {
    forall i :: 0 <= i < |tariffs| && Affected(tariffs[i], r) ==> NewEur(tariffs[i], r).Some?
  }

  // ----- Calls and runs ----------------------------------------------------------------------

  datatype Call =
    | Create(id: Identity, form: Form)
    | Update(tariff: nat, form: Form, current: Option<bool>)
    | SetActive(tariff: nat, makeCurrent: bool)
    | AddRate(currency: Id, rateToEur: Dec)
    | Recalculate(rateId: nat)

  predicate Accepted(t: Tables, call: Call) {
    match call
    case Create(id, f) => f.price.m > 0 && !Exists(t.tariffs, id) && Fits(f.price, f.rate)
    case Update(i, f, current) =>
      i < |t.tariffs| && f.price.m > 0 && Quantized(f.price, f.rate).Some?
      && (Changes(t.tariffs[i], f, current) ==> Fits(f.price, f.rate))
    case SetActive(i, _) => i < |t.tariffs|
    case AddRate(_, rate) => rate.m > 0 && 0 < StoredRate(rate) < RATE_LIMIT
    case Recalculate(k) => k < |t.rates| && Convertible(t.tariffs, t.rates[k])
  }

  function Effect(t: Tables, call: Call): Tables
    requires Accepted(t, call)
  {
    match call
    case Create(id, f) => t.(tariffs := t.tariffs + [Written(id, f, true)])
    case Update(i, f, current) =>
      if Changes(t.tariffs[i], f, current) then
        t.(tariffs := t.tariffs[i := Written(t.tariffs[i].id, f,
                                             if current.Some? then current.value else t.tariffs[i].current)])
      else t
    case SetActive(i, current) => t.(tariffs := t.tariffs[i := t.tariffs[i].(current := current)])
    case AddRate(currency, rate) => t.(rates := t.rates + [Rate(currency, StoredRate(rate))])
    case Recalculate(k) => t.(tariffs := RecalculatedAll(t.tariffs, t.rates[k], k))
  }

  function Step(t: Tables, call: Call): Tables {
    if Accepted(t, call) then Effect(t, call) else t
  }

  function Run(t: Tables, calls: seq<Call>): Tables {
    if calls == [] then t else Step(Run(t, calls[..|calls| - 1]), calls[|calls| - 1])
  }

  const EMPTY := Tables([], [])

  // ----- One tariff per identity ------------------------------------------------------------------

  ghost predicate OnePerIdentity(tariffs: seq<Tariff>) {
    forall i, j :: 0 <= i < j < |tariffs| ==> tariffs[i].id != tariffs[j].id
  }

  ghost predicate PricesFit(tariffs: seq<Tariff>) {
    forall i :: 0 <= i < |tariffs| ==> tariffs[i].eur < PRICE_LIMIT
  }

  lemma StepKeepsIdentities(t: Tables, call: Call)
    requires OnePerIdentity(t.tariffs) && PricesFit(t.tariffs)
    ensures OnePerIdentity(Step(t, call).tariffs) && PricesFit(Step(t, call).tariffs)
  {
  }

  /** In every reachable state at most one tariff, current or not, exists per identity. */
  lemma {:induction false} AtMostOneTariffPerIdentity(calls: seq<Call>)
    ensures OnePerIdentity(Run(EMPTY, calls).tariffs) && PricesFit(Run(EMPTY, calls).tariffs)
  {
    if calls != [] {
      AtMostOneTariffPerIdentity(calls[..|calls| - 1]);
      StepKeepsIdentities(Run(EMPTY, calls[..|calls| - 1]), calls[|calls| - 1]);
    }
  }

  // ----- The EUR price follows from the stored price and rate ------------------------------------------

  /** The stored EUR price is the stored price times the stored rate, rounded half up. */
  predicate Consistent(t: Tariff) {
    t.eur == ExactEur(Dec(t.price, 6), Dec(t.rate, 8))
  }

  /** The columns store the submitted price and rate without rounding them, however many
      zeros they are written with. */
  predicate StoredExactly(f: Form) {
    SameNumber(StoredPrice(f.price), 6, f.price) && SameNumber(StoredRate(f.rate), 8, f.rate)
  }

  lemma ShortIsKept(d: Dec, places: nat)
    requires d.e <= places
    ensures SameNumber(ToPlaces(d, places), places, d)
  {
    Pow10Adds(places - d.e, d.e);
    MulAssoc(d.m, Pow10(places - d.e), Pow10(d.e));
  }

  lemma ZerosAreDropped(d: Dec, places: nat, n: nat)
    requires d.e > places && d.m == n * Pow10(d.e - places)
    ensures SameNumber(ToPlaces(d, places), places, d)
  {
    HalfUpOfMultiple(n, Pow10(d.e - places));
    Pow10Adds(d.e - places, places);
    MulAssoc(n, Pow10(d.e - places), Pow10(places));
  }

  /** A column keeps a number as it is exactly when the decimals it drops are zeros. */
  lemma ColumnKeepsIff(d: Dec, places: nat)
    ensures SameNumber(ToPlaces(d, places), places, d) <==> d.e <= places || d.m % Pow10(d.e - places) == 0
  {
    if d.e <= places {
      ShortIsKept(d, places);
    } else if d.m % Pow10(d.e - places) == 0 {
      ZerosAreDropped(d, places, d.m / Pow10(d.e - places));
    } else if SameNumber(ToPlaces(d, places), places, d) {
      SameNumberLonger(ToPlaces(d, places), places, d);
      MultipleHasNoRest(ToPlaces(d, places), Pow10(d.e - places));
      assert false;
    }
  }

  /** The EUR price of the submitted numbers is also that of the stored ones. */
  predicate RoundingIsHarmless(f: Form) {
    EurPrice(f.price, f.rate) == Some(ExactEur(Dec(StoredPrice(f.price), 6), Dec(StoredRate(f.rate), 8)))
  }

  lemma ExactIsHarmless(f: Form)
    requires StoredExactly(f) && EurPrice(f.price, f.rate).Some?
    ensures RoundingIsHarmless(f)
  {
    ShortNumbersAreExact(f.price, f.rate, StoredPrice(f.price), StoredRate(f.rate));
  }

  /** Recalculation makes every tariff it touches consistent, whatever it was before. */
  lemma RecalculatedIsConsistent(t: Tariff, r: Rate, k: nat)
    requires Affected(t, r) && NewEur(t, r).Some?
    ensures Consistent(Recalculated(t, r, k))
  {
    ColumnScalePricesAreExact(Dec(t.price, 6), Dec(r.rate, 8));
  }

  /** Whether the call writes the price, the rate or the EUR price of tariff `i`. */
  predicate Writes(t: Tables, call: Call, i: nat) {
    Accepted(t, call) &&
    match call
    case Create(_, _) => i == |t.tariffs|
    case Update(j, f, current) => i == j && Changes(t.tariffs[j], f, current)
    case Recalculate(k) => i < |t.tariffs| && Affected(t.tariffs[i], t.rates[k])
    case SetActive(_, _) | AddRate(_, _) => false
  }

  /** The last call of a run that wrote them. */
  function LastWrite(calls: seq<Call>, i: nat): Option<Call> {
    if calls == [] then None
    else
      var before := calls[..|calls| - 1];
      var last := calls[|calls| - 1];
      if Writes(Run(EMPTY, before), last, i) then Some(last) else LastWrite(before, i)
  }

  predicate WriteIsHarmless(call: Call) {
    (call.Create? || call.Update?) ==> RoundingIsHarmless(call.form)
  }

  predicate WriteIsStoredExactly(call: Call) {
    (call.Create? || call.Update?) ==> StoredExactly(call.form)
  }

  lemma WriteDecides(t: Tables, call: Call, i: nat)
    requires Writes(t, call, i)
    ensures i < |Step(t, call).tariffs|
    ensures Consistent(Step(t, call).tariffs[i]) <==> WriteIsHarmless(call)
    ensures WriteIsStoredExactly(call) ==> WriteIsHarmless(call)
  {
    match call {
      case Create(_, f) =>
        if StoredExactly(f) { ExactIsHarmless(f); }
      case Update(_, f, _) =>
        if StoredExactly(f) { ExactIsHarmless(f); }
      case Recalculate(k) =>
        RecalculatedIsConsistent(t.tariffs[i], t.rates[k], k);
    }
  }

  lemma OthersKeepPrices(t: Tables, call: Call, i: nat)
    requires !Writes(t, call, i) && i < |Step(t, call).tariffs|
    ensures i < |t.tariffs|
    ensures Consistent(Step(t, call).tariffs[i]) <==> Consistent(t.tariffs[i])
  {
  }

  /** After any run, a tariff's EUR price is its stored price times its stored rate, rounded
      half up, exactly when the rounding by the columns was harmless in the form that wrote
      it last, or a recalculation wrote it last. */
  lemma {:induction false} EurPriceFollowsIff(calls: seq<Call>, i: nat)
    requires i < |Run(EMPTY, calls).tariffs|
    ensures LastWrite(calls, i).Some?
    ensures Consistent(Run(EMPTY, calls).tariffs[i]) <==> WriteIsHarmless(LastWrite(calls, i).value)
    ensures WriteIsStoredExactly(LastWrite(calls, i).value) ==> WriteIsHarmless(LastWrite(calls, i).value)
  {
    if calls != [] {
      var before := Run(EMPTY, calls[..|calls| - 1]);
      var last := calls[|calls| - 1];
      if Writes(before, last, i) {
        WriteDecides(before, last, i);
      } else {
        OthersKeepPrices(before, last, i);
        EurPriceFollowsIff(calls[..|calls| - 1], i);
      }
    }
  }

  /** So it is for every tariff whose last form was stored as it is, or that has been
      recalculated since. */
  lemma EurPricesFollowFromColumns(calls: seq<Call>, i: nat)
    requires i < |Run(EMPTY, calls).tariffs|
    requires LastWrite(calls, i).Some? ==> WriteIsStoredExactly(LastWrite(calls, i).value)
    ensures Consistent(Run(EMPTY, calls).tariffs[i])
  {
    EurPriceFollowsIff(calls, i);
  }

  /** A longer price is rounded by its column but not for the conversion: 0.0000014 at
      rate 1000 is stored as 0.000001, with a EUR price of 0.001400. */
  lemma OverlongPriceIsInconsistent(id: Identity)
    ensures var f := Form(1, Dec(14, 7), Dec(1000, 0), None, "");
            Fits(f.price, f.rate) && !StoredExactly(f) && !Consistent(Written(id, f, true))
  {
    var f := Form(1, Dec(14, 7), Dec(1000, 0), None, "");
    Pow10Values();
    assert Pow10(1) == 10 && Pow10(0) == 1;
    assert Product(f.price, f.rate) == Some(Dec(14000, 7));
    assert HalfUp(14000, 10) == 1400;
    assert EurPrice(f.price, f.rate) == Some(1400);
    assert HalfUp(14, 10) == 1;
    assert StoredRate(f.rate) == 1000 * 100000000;
    HalfUpWithinHalf(100000000000, 100000000);
    assert HalfUp(100000000000, 100000000) == 1000;
  }

  // ----- Recalculation and differences ---------------------------------------------------------------------

  /** A stored price converts at a stored rate exactly when the product, rounded half up,
      fits the price column. */
  lemma ConvertsIff(price: nat, rate: nat)
    ensures var eur := ExactEur(Dec(price, 6), Dec(rate, 8));
            EurPrice(Dec(price, 6), Dec(rate, 8)) == if eur < 1000000000000000000 then Some(eur) else None
  {
    if price * rate >= PRECISION_LIMIT {
      LongProductOverflows(Dec(price, 6), Dec(rate, 8));
      if ExactEur(Dec(price, 6), Dec(rate, 8)) < PRICE_LIMIT {
        SmallExactIsShort(price * rate);
      }
    } else {
      EurPriceIsExact(Dec(price, 6), Dec(rate, 8));
    }
  }

  /** What a recalculation does to one tariff: a current one of the rate's currency takes
      the rate and the product of its price with it. */
  ghost predicate RowRecalculated(was: Tariff, now: Tariff, r: Rate, k: nat) {
    if was.current && was.currency == r.currency
    then now == was.(rate := r.rate, rateId := Some(k), eur := ExactEur(Dec(was.price, 6), Dec(r.rate, 8)))
    else now == was
  }

  /** Every tariff it concerns has a EUR price that fits. */
  ghost predicate AllFit(tariffs: seq<Tariff>, r: Rate) {
    forall i :: 0 <= i < |tariffs| && tariffs[i].current && tariffs[i].currency == r.currency ==>
      ExactEur(Dec(tariffs[i].price, 6), Dec(r.rate, 8)) < 1000000000000000000
  }

  lemma ConvertibleIff(tariffs: seq<Tariff>, r: Rate)
    ensures Convertible(tariffs, r) <==> AllFit(tariffs, r)
  {
    forall i | 0 <= i < |tariffs|
      ensures NewEur(tariffs[i], r).Some? <==> ExactEur(Dec(tariffs[i].price, 6), Dec(r.rate, 8)) < 1000000000000000000
    {
      ConvertsIff(tariffs[i].price, r.rate);
    }
  }

  lemma RecalculationMeans(tariffs: seq<Tariff>, r: Rate, k: nat, i: nat)
    requires Convertible(tariffs, r) && i < |tariffs|
    ensures RowRecalculated(tariffs[i], RecalculatedAll(tariffs, r, k)[i], r, k)
  {
    ConvertsIff(tariffs[i].price, r.rate);
  }

  /** Exactly the current tariffs of the currency change, in rate and EUR price only. */
  lemma RecalculationTouchesOnlyItsCurrency(t: Tables, k: nat, i: nat)
    requires Accepted(t, Recalculate(k)) && i < |t.tariffs|
    ensures var after := Effect(t, Recalculate(k)).tariffs[i];
            var affected := t.tariffs[i].current && t.tariffs[i].currency == t.rates[k].currency;
            && (!affected ==> after == t.tariffs[i])
            && (affected ==>
                  && after.rate == t.rates[k].rate && after.rateId == Some(k) && Consistent(after)
                  && after == t.tariffs[i].(rate := after.rate, rateId := after.rateId, eur := after.eur))
  {
    if Affected(t.tariffs[i], t.rates[k]) {
      RecalculatedIsConsistent(t.tariffs[i], t.rates[k], k);
    }
  }

  /** A second recalculation at the same rate changes no value. */
  lemma RecalculationIsIdempotent(t: Tables, k: nat)
    requires Accepted(t, Recalculate(k))
    ensures var once := Effect(t, Recalculate(k));
            Accepted(once, Recalculate(k)) && Effect(once, Recalculate(k)) == once
  {
    var r := t.rates[k];
    var once := RecalculatedAll(t.tariffs, r, k);
    forall i | 0 <= i < |once|
      ensures Affected(once[i], r) ==> NewEur(once[i], r).Some?
      ensures Recalculated(once[i], r, k) == once[i]
    {
      assert once[i] == Recalculated(t.tariffs[i], r, k);
    }
    assert RecalculatedAll(once, r, k) == once;
  }

  /** The price difference logged with a provider change is the exact difference of the
      stored EUR prices: converting them at rate one changes nothing. */
  lemma PriceDeltaIsExact(t: Tables, before: nat, after: nat)
    requires PricesFit(t.tariffs) && before < |t.tariffs| && after < |t.tariffs|
    ensures var one := Dec(1, 0);
            var a, b := EurPrice(Dec(t.tariffs[after].eur, 6), one), EurPrice(Dec(t.tariffs[before].eur, 6), one);
            && a.Some? && b.Some?
            && a.value as int - b.value as int == t.tariffs[after].eur as int - t.tariffs[before].eur as int
  {
    RateOneIsIdentity(t.tariffs[after].eur);
    RateOneIsIdentity(t.tariffs[before].eur);
  }

  // ----- The repository methods ---------------------------------------------------------------------------------

  /** The columns can hold what the form gives: price and EUR price with twelve digits
      before the point, and a rate with twelve that does not vanish. */
  predicate Storable(f: Form) {
    && EurPrice(f.price, f.rate).Some? && ToPlaces(f.price, 6) < 1000000000000000000
    && 0 < ToPlaces(f.rate, 8) < 100000000000000000000
  }

  /** The row that a form leaves, column by column. */
  predicate RowWritten(row: Tariff, id: Identity, f: Form, current: bool) {
    && row.id == id && row.currency == f.currency && row.comment == f.comment && row.rateId == f.rateId
    && row.price == ToPlaces(f.price, 6) && row.rate == ToPlaces(f.rate, 8)
    && Some(row.eur) == EurPrice(f.price, f.rate) && row.current == current
  }

  /** The form gives the row's price, currency, comment and current flag again; the rate
      alone does not count as a change. */
  predicate RowRepeated(row: Tariff, f: Form, current: Option<bool>) {
    && SameNumber(row.price, 6, f.price) && row.currency == f.currency && row.comment == f.comment
    && (current.Some? ==> current.value == row.current)
  }

  class Store {
    var tariffs: seq<Tariff>
    var rates: seq<Rate>

    ghost function Data(): Tables
      reads this
    {
      Tables(tariffs, rates)
    }

    constructor ()
      ensures Data() == EMPTY
    {
      tariffs, rates := [], [];
    }

    method CreateTariff(id: Identity, f: Form) returns (r: Result<nat>)
      modifies this`tariffs
      ensures r.Ok? <==> Accepted(old(Data()), Create(id, f))
      ensures Data() == Step(old(Data()), Create(id, f))
      ensures r.Ok? <==>
              f.price.m > 0 && Storable(f) && forall i :: 0 <= i < old(|tariffs|) ==> old(tariffs)[i].id != id
      ensures r.Ok? ==> |tariffs| == old(|tariffs|) + 1 && old(tariffs) <= tariffs
                        && RowWritten(tariffs[old(|tariffs|)], id, f, true)
    {
      if f.price.m == 0 { return Refused; }
      if Exists(tariffs, id) { return Refused; }
      var eur := EurPrice(f.price, f.rate);
      if eur.None? || StoredPrice(f.price) >= PRICE_LIMIT { return Refused; }
      if StoredRate(f.rate) == 0 || StoredRate(f.rate) >= RATE_LIMIT { return Refused; }
      tariffs := tariffs + [Tariff(id, f.currency, StoredPrice(f.price), StoredRate(f.rate), f.rateId, eur.value,
                                   true, f.comment)];
      return Ok(|tariffs| - 1);
    }

    /** Whether anything was saved: a form without changes is accepted without effect. */
    method UpdateTariff(i: nat, f: Form, current: Option<bool>) returns (r: Result<bool>)
      modifies this`tariffs
      ensures r.Ok? <==> Accepted(old(Data()), Update(i, f, current))
      ensures Data() == Step(old(Data()), Update(i, f, current))
      ensures r.Ok? ==> (r.value <==> Changes(old(tariffs[i]), f, current))
      ensures r.Ok? ==> (r.value <==> !RowRepeated(old(tariffs)[i], f, current))
      ensures r.Ok? <==> i < old(|tariffs|) && f.price.m > 0 && Quantized(f.price, f.rate).Some?
                         && (RowRepeated(old(tariffs)[i], f, current) || Storable(f))
      ensures r.Ok? && !r.value ==> tariffs == old(tariffs)
      ensures r.Ok? && r.value ==>
                && |tariffs| == old(|tariffs|)
                && (forall j :: 0 <= j < |tariffs| && j != i ==> tariffs[j] == old(tariffs)[j])
                && RowWritten(tariffs[i], old(tariffs)[i].id, f,
                              if current.Some? then current.value else old(tariffs)[i].current)
    {
      if i >= |tariffs| { return Refused; }
      var existing := tariffs[i];
      if f.price.m == 0 { return Refused; }
      var requested := if current.None? then existing.current else current.value;
      var eur := Quantized(f.price, f.rate);
      if eur.None? { return Refused; }
      var changed := !SameNumber(existing.price, 6, f.price);
      if existing.currency != f.currency { changed := true; }
      if existing.comment != f.comment { changed := true; }
      if existing.current != requested { changed := true; }
      if !changed { return Ok(false); }
      if eur.value >= PRICE_LIMIT || StoredPrice(f.price) >= PRICE_LIMIT { return Refused; }
      if StoredRate(f.rate) == 0 || StoredRate(f.rate) >= RATE_LIMIT { return Refused; }
      tariffs := tariffs[i := Tariff(existing.id, f.currency, StoredPrice(f.price), StoredRate(f.rate), f.rateId,
                                     eur.value, requested, f.comment)];
      return Ok(true);
    }

    method SetTariffActive(i: nat, current: bool) returns (r: Result<()>)
      modifies this`tariffs
      ensures r.Ok? <==> Accepted(old(Data()), SetActive(i, current))
      ensures Data() == Step(old(Data()), SetActive(i, current))
      ensures r.Ok? <==> i < old(|tariffs|)
      ensures r.Ok? ==> tariffs == old(tariffs)[i := old(tariffs)[i].(current := current)]
    {
      if i >= |tariffs| { return Refused; }
      if tariffs[i].current == current { return Ok(()); }
      tariffs := tariffs[i := tariffs[i].(current := current)];
      return Ok(());
    }

    method CreateCurrencyRate(currency: Id, rate: Dec) returns (r: Result<nat>)
      modifies this`rates
      ensures r.Ok? <==> Accepted(old(Data()), AddRate(currency, rate))
      ensures Data() == Step(old(Data()), AddRate(currency, rate))
      ensures r.Ok? <==> rate.m > 0 && 0 < ToPlaces(rate, 8) < 100000000000000000000
      ensures r.Ok? ==> rates == old(rates) + [Rate(currency, ToPlaces(rate, 8))]
    {
      if rate.m == 0 { return Refused; }
      var stored := StoredRate(rate);
      if stored == 0 || stored >= RATE_LIMIT { return Refused; }
      rates := rates + [Rate(currency, stored)];
      return Ok(|rates| - 1);
    }

    /** The recalculation loop; it reports the tariffs it rewrote, in id order. */
    method RecalculateCurrent(k: nat) returns (r: Result<seq<nat>>)
      modifies this`tariffs
      ensures r.Ok? <==> Accepted(old(Data()), Recalculate(k))
      ensures Data() == Step(old(Data()), Recalculate(k))
      ensures r.Ok? ==> r.value == AffectedIds(old(tariffs), rates[k])
      ensures r.Ok? <==> k < |rates| && AllFit(old(tariffs), rates[k])
      ensures r.Ok? ==> |tariffs| == old(|tariffs|)
      ensures r.Ok? ==> forall i :: 0 <= i < |tariffs| ==> RowRecalculated(old(tariffs)[i], tariffs[i], rates[k], k)
      ensures r.Ok? ==> forall i: nat :: i in r.value <==>
                i < |tariffs| && old(tariffs)[i].current && old(tariffs)[i].currency == rates[k].currency
      ensures r.Ok? ==> forall i, j :: 0 <= i < j < |r.value| ==> r.value[i] < r.value[j]
    {
      if k < |rates| {
        ConvertibleIff(tariffs, rates[k]);
        if Convertible(tariffs, rates[k]) {
          forall i | 0 <= i < |tariffs|
            ensures RowRecalculated(tariffs[i], RecalculatedAll(tariffs, rates[k], k)[i], rates[k], k) {
            RecalculationMeans(tariffs, rates[k], k, i);
          }
        }
      }
      if k >= |rates| { return Refused; }
      r := RecalculateRows(rates[k], k);
    }

    method RecalculateRows(rate: Rate, k: nat) returns (r: Result<seq<nat>>)
      modifies this`tariffs
      ensures r.Ok? <==> Convertible(old(tariffs), rate)
      ensures tariffs == if r.Ok? then RecalculatedAll(old(tariffs), rate, k) else old(tariffs)
      ensures r.Ok? ==> r.value == AffectedIds(old(tariffs), rate)
    {
      var before := tariffs;
      var touched: seq<nat> := [];
      var i := 0;
      while i < |before|
        invariant 0 <= i <= |before|
        invariant tariffs == RecalculatedAll(before[..i], rate, k) + before[i..]
        invariant Convertible(before[..i], rate)
        invariant touched == AffectedIds(before[..i], rate)
      {
        RecalculateNext(before, rate, k, i);
        var row := RecalculateRow(i, rate, k);
        if row.Refused? {
          tariffs := before;
          return Refused;
        }
        if row.value {
          touched := touched + [i];
        }
        i := i + 1;
      }
      assert before[..i] == before;
      return Ok(touched);
    }

    /** The UPDATE of one row; the price column can refuse the new value. */
    method RecalculateRow(i: nat, rate: Rate, k: nat) returns (r: Result<bool>)
      requires i < |tariffs|
      modifies this`tariffs
      ensures r.Refused? <==> Affected(old(tariffs)[i], rate) && NewEur(old(tariffs)[i], rate).None?
      ensures r.Ok? ==> tariffs == old(tariffs)[i := Recalculated(old(tariffs)[i], rate, k)]
      ensures r.Ok? ==> r.value == Affected(old(tariffs)[i], rate)
    {
      if tariffs[i].currency != rate.currency || !tariffs[i].current { return Ok(false); }
      var eur := EurPrice(Dec(tariffs[i].price, 6), Dec(rate.rate, 8));
      if eur.None? { return Refused; }
      tariffs := tariffs[i := tariffs[i].(rate := rate.rate, rateId := Some(k), eur := eur.value)];
      return Ok(true);
    }
  }

  function AffectedIds(tariffs: seq<Tariff>, r: Rate): (ids: seq<nat>)
    ensures forall i: nat :: i in ids <==> i < |tariffs| && Affected(tariffs[i], r)
    ensures forall i, j :: 0 <= i < j < |ids| ==> ids[i] < ids[j]
  {
    if tariffs == [] then []
    else
      var n := |tariffs| - 1;
      var earlier := AffectedIds(tariffs[..n], r);
      assert forall i :: 0 <= i < |earlier| ==> earlier[i] in earlier;
      earlier + (if Affected(tariffs[n], r) then [n] else [])
  }

  /** One turn of the recalculation loop. */
  lemma RecalculateNext(before: seq<Tariff>, r: Rate, k: nat, i: nat)
    requires i < |before|
    ensures var done := RecalculatedAll(before[..i], r, k) + before[i..];
            && done[i] == before[i]
            && RecalculatedAll(before[..i + 1], r, k) + before[i + 1..] == done[i := Recalculated(before[i], r, k)]
    ensures AffectedIds(before[..i + 1], r) ==
            AffectedIds(before[..i], r) + (if Affected(before[i], r) then [i] else [])
    ensures Convertible(before[..i], r) && (Affected(before[i], r) ==> NewEur(before[i], r).Some?) ==>
              Convertible(before[..i + 1], r)
  {
    assert before[..i + 1][..i] == before[..i];
  }
}
