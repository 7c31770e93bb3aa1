/** What the quote engine promises, for every configuration and every send. */
module FxLaws {
  import opened Wrappers
  import opened Fx

  /**
   A quote accounts for every cent of the send, its UCTUSD figure is within half a
   micro-unit of the exact conversion, and the ledger takes that figure unchanged.
  */
  lemma QuoteAccountsForTheSend(c: FeeConfig, zarMicro: int, currency: Currency)
    requires ValidConfig(c)
    ensures match CalculateQuote(c, zarMicro, currency)
            case None =>
              var zar := HalfUp(zarMicro, 10_000);
              var net := zar - TransactionFee(c, zar);
              net <= 0 || 2 * net * CENT_SCALE < EffectiveRate(c)
            case Some(q) =>
              && q.transactionFee + q.netZar == q.zarAmount
              && 0 < q.netZar && 0 < q.uctusd && 0 <= q.cashoutFee
              && c.marketRate <= q.exchangeRate
              && -q.exchangeRate <= 2 * (q.uctusd * q.exchangeRate - q.netZar * CENT_SCALE) <= q.exchangeRate
              && Uctusd(q.uctusd, MICRO) == Some(q.uctusd)
  {
    EffectiveRatePositive(c);
    var zar := HalfUp(zarMicro, 10_000);
    var net := zar - TransactionFee(c, zar);
    var rate := EffectiveRate(c);
    if 0 < net {
      var uctusd := HalfUp(net * CENT_SCALE, rate);
      if uctusd <= 0 {
        if uctusd < 0 { MulStep(uctusd, 0, rate); }
      } else {
        HalfUpExact(uctusd, MICRO);
        CashoutFeeNonNegative(c, uctusd);
      }
    }
  }

  /** A num within half of `den` of r whole `den`s. */
  predicate Nearest(r: int, num: int, den: int) { -den <= 2 * (r * den - num) <= den }

  /** Where each figure of a quote comes from: the send, the two fees, the margin and the market rate. */
  lemma QuoteUsesTheConfiguration(c: FeeConfig, zarMicro: int, currency: Currency)
    requires ValidConfig(c) && CalculateQuote(c, zarMicro, currency).Some?
    ensures var q := CalculateQuote(c, zarMicro, currency).value;
            && Nearest(q.zarAmount, zarMicro, 10_000)
            && Nearest(q.transactionFee, c.fixedFeeZar * MICRO + c.percentageFee * q.zarAmount, MICRO)
            && Nearest(q.exchangeRate, c.marketRate * (MICRO + c.fxMargin), MICRO)
            && q.marketRate == c.marketRate
            && IsCashoutFee(c, q.uctusd, q.cashoutFee)
            && IsPayout(q.uctusd, q.cashoutFee, c.marketRate, currency, q.payout)
  {
    FeeIsFloorOrShare(c, CalculateQuote(c, zarMicro, currency).value.uctusd);
  }

  /** A send is quoted exactly if it reaches the floor and at least half a micro-UCTUSD is left after the fee. */
  lemma QuoteIsGivenExactly(c: FeeConfig, zarMicro: int, currency: Currency)
    requires ValidConfig(c)
    ensures var zar := HalfUp(zarMicro, 10_000);
            var net := zar - TransactionFee(c, zar);
            QuoteFor(c, zarMicro, currency).Some?
            <==> c.minSendZar <= zar && 0 < net && EffectiveRate(c) <= 2 * (net * CENT_SCALE)
    ensures QuoteFor(c, zarMicro, currency).Some? ==>
              QuoteFor(c, zarMicro, currency) == CalculateQuote(c, zarMicro, currency)
  {
    QuoteAccountsForTheSend(c, zarMicro, currency);
    EffectiveRatePositive(c);
    var q := CalculateQuote(c, zarMicro, currency);
    if q.Some? { MulLe(q.value.exchangeRate, 1, q.value.uctusd); }
  }

  /** The larger of the floor and the share of the amount, to the nearest micro-dollar. */
  predicate IsCashoutFee(c: FeeConfig, uctusd: int, fee: int) {
    && c.cashoutFeeMinUsd <= fee
    && c.cashoutFeePercentage * uctusd <= fee * MICRO + MICRO / 2
    && (fee == c.cashoutFeeMinUsd || fee * MICRO <= c.cashoutFeePercentage * uctusd + MICRO / 2)
  }

  /** What the fee leaves: in dollars to the micro-unit, in rand at the market rate to the nearest cent. */
  predicate IsPayout(uctusd: int, fee: int, rate: int, currency: Currency, payout: int) {
    match currency
    case USD => payout + fee == uctusd
    case ZAR => Nearest(payout, (uctusd - fee) * rate, CENT_SCALE)
  }

  lemma FeeIsFloorOrShare(c: FeeConfig, uctusd: int)
    requires ValidConfig(c)
    ensures IsCashoutFee(c, uctusd, CashoutFeeUsd(uctusd, c.cashoutFeePercentage, c.cashoutFeeMinUsd))
  {
    var floor, share := c.cashoutFeeMinUsd * MICRO, c.cashoutFeePercentage * uctusd;
    HalfUpExact(c.cashoutFeeMinUsd, MICRO);
    HalfUpMonotone(floor, if share < floor then floor else share, MICRO);
  }

  /**
   A cash-out pays exactly what its fee leaves, in the currency asked for, and is refused exactly if that
   rounds to nothing.
  */
  lemma CashoutPaysWhatIsLeft(c: FeeConfig, uctusd: int, currency: Currency)
    requires ValidConfig(c)
    ensures match PriceCashout(c, uctusd, currency)
            case None =>
              exists fee :: IsCashoutFee(c, uctusd, fee) && NothingLeft(uctusd, fee, c.marketRate, currency)
            case Some(p) =>
              && p.uctusd == uctusd && p.currency == currency && p.marketRate == c.marketRate
              && IsCashoutFee(c, uctusd, p.feeUsd) && !NothingLeft(uctusd, p.feeUsd, c.marketRate, currency)
              && IsPayout(uctusd, p.feeUsd, c.marketRate, currency, p.netPayout) && 0 < p.netPayout
  {
    var fee := CashoutFeeUsd(uctusd, c.cashoutFeePercentage, c.cashoutFeeMinUsd);
    FeeIsFloorOrShare(c, uctusd);
    var left := (uctusd - fee) * c.marketRate;
    var payout := HalfUp(left, CENT_SCALE);
    assert payout <= 0 <==> 2 * left < CENT_SCALE;
  }

  /** The fee takes all of the amount, or leaves less than half a cent. */
  predicate NothingLeft(uctusd: int, fee: int, rate: int, currency: Currency) {
    match currency
    case USD => uctusd <= fee
    case ZAR => 2 * ((uctusd - fee) * rate) < CENT_SCALE
  }

  lemma CashoutFeeNonNegative(c: FeeConfig, uctusd: int)
    requires ValidConfig(c)
    ensures 0 <= CashoutFeeUsd(uctusd, c.cashoutFeePercentage, c.cashoutFeeMinUsd)
  {
    HalfUpExact(0, MICRO);
    var a, b := c.cashoutFeePercentage * uctusd, c.cashoutFeeMinUsd * MICRO;
    HalfUpMonotone(0, if a < b then b else a, MICRO);
  }

  /** A typed amount that is accepted reaches the ledger as exactly that number of micro-units. */
  lemma ParsedAmountIsUsable(num: int, den: int)
    requires 0 < den
    ensures match ParseAmount(num, den)
            case None => 2 * num * MICRO < den
            case Some(m) => 0 < m && Uctusd(m, MICRO) == Some(m) && -den <= 2 * (m * den - num * MICRO) <= den
  {
    if 0 < num {
      var micro := HalfUp(num * MICRO, den);
      if micro < 0 { MulStep(micro, 0, den); }
      HalfUpExact(micro, MICRO);
    }
  }

  /**
   With a percentage fee of at most 100%, a larger send never converts to less, and
   every send above an accepted one is accepted.
  */
  lemma QuotesAreMonotone(c: FeeConfig, small: int, large: int, currency: Currency)
    requires ValidConfig(c) && c.percentageFee <= MICRO
    requires 0 <= small <= large
    requires QuoteFor(c, small, currency).Some?
    ensures QuoteFor(c, large, currency).Some?
    ensures QuoteFor(c, small, currency).value.uctusd <= QuoteFor(c, large, currency).value.uctusd
    ensures QuoteFor(c, small, currency).value.netZar <= QuoteFor(c, large, currency).value.netZar
  {
    EffectiveRatePositive(c);
    HalfUpExact(0, 10_000);
    HalfUpMonotone(0, small, 10_000);
    HalfUpMonotone(small, large, 10_000);
    var z, z' := HalfUp(small, 10_000), HalfUp(large, 10_000);
    FeeGrowsNoFaster(c, z, z');
    var net, net' := z - TransactionFee(c, z), z' - TransactionFee(c, z');
    HalfUpMonotone(net * CENT_SCALE, net' * CENT_SCALE, EffectiveRate(c));
  }

  lemma FeeGrowsNoFaster(c: FeeConfig, z: int, z': int)
    requires ValidConfig(c) && c.percentageFee <= MICRO && 0 <= z <= z'
    ensures TransactionFee(c, z') - TransactionFee(c, z) <= z' - z
  {
    var base := c.fixedFeeZar * MICRO + c.percentageFee * z;
    assert 0 <= c.percentageFee * z;
    assert c.percentageFee * z' - c.percentageFee * z == c.percentageFee * (z' - z) <= MICRO * (z' - z);
    HalfUpShift(base, MICRO, z' - z);
    HalfUpMonotone(c.fixedFeeZar * MICRO + c.percentageFee * z', base + (z' - z) * MICRO, MICRO);
  }

  lemma ProductSign(x: int, y: int)
    requires 0 <= x && 0 <= y
    ensures 0 <= x * y && -x * y <= 0
  {
  }

  /** A priced cash-out always pays something, out of an amount that exceeds its fee. */
  lemma PricedCashoutIsPositive(c: FeeConfig, uctusd: int, currency: Currency)
    requires ValidConfig(c) && PriceCashout(c, uctusd, currency).Some?
    ensures var p := PriceCashout(c, uctusd, currency).value;
            p.uctusd == uctusd && 0 <= p.feeUsd < uctusd && 0 < p.netPayout
  {
    var fee := CashoutFeeUsd(uctusd, c.cashoutFeePercentage, c.cashoutFeeMinUsd);
    CashoutFeeNonNegative(c, uctusd);
    if uctusd <= fee {
      ProductSign(fee - uctusd, c.marketRate);
      HalfUpBelow((uctusd - fee) * c.marketRate, CENT_SCALE, 0);
    }
  }

  /** The payout shown with a quote is the payout of a real cash-out under the same configuration. */
  lemma EstimateIsHonoured(c: FeeConfig, zarMicro: int, currency: Currency)
    requires ValidConfig(c) && CalculateQuote(c, zarMicro, currency).Some?
    ensures var q := CalculateQuote(c, zarMicro, currency).value;
            PriceCashout(c, q.uctusd, currency) ==
            if q.payout <= 0 then None else Some(Pricing(q.uctusd, currency, c.marketRate, q.cashoutFee, q.payout))
  {
  }

  /**
   The fee is the larger of the percentage and the floor, to the nearest micro-dollar, and with
   a percentage of at most 100% it grows no faster than the amount.
  */
  lemma CashoutFeeHasItsFloor(c: FeeConfig, small: int, large: int)
    requires ValidConfig(c) && c.cashoutFeePercentage <= MICRO && 0 <= small <= large
    ensures IsCashoutFee(c, small, CashoutFeeUsd(small, c.cashoutFeePercentage, c.cashoutFeeMinUsd))
    ensures CashoutFeeUsd(small, c.cashoutFeePercentage, c.cashoutFeeMinUsd)
         <= CashoutFeeUsd(large, c.cashoutFeePercentage, c.cashoutFeeMinUsd)
         <= CashoutFeeUsd(small, c.cashoutFeePercentage, c.cashoutFeeMinUsd) + (large - small)
  {
    var floor, share, share' := c.cashoutFeeMinUsd * MICRO, c.cashoutFeePercentage * small,
        c.cashoutFeePercentage * large;
    var base, base' := if share < floor then floor else share, if share' < floor then floor else share';
    assert 0 <= share' - share <= (large - small) * MICRO by {
      assert share' - share == c.cashoutFeePercentage * (large - small);
      ProductSign(c.cashoutFeePercentage, large - small);
      ProductSign(MICRO - c.cashoutFeePercentage, large - small);
      Distribute(MICRO, c.cashoutFeePercentage, large - small);
    }
    HalfUpExact(c.cashoutFeeMinUsd, MICRO);
    HalfUpMonotone(floor, base, MICRO);
    HalfUpMonotone(base, base', MICRO);
    HalfUpMonotone(base', base + (large - small) * MICRO, MICRO);
    HalfUpShift(base, MICRO, large - small);
  }

  /** A larger cash-out never pays out less, and every amount above an accepted one is accepted. */
  lemma PayoutsAreMonotone(c: FeeConfig, small: int, large: int, currency: Currency)
    requires ValidConfig(c) && c.cashoutFeePercentage <= MICRO && 0 <= small <= large
    requires PriceCashout(c, small, currency).Some?
    ensures PriceCashout(c, large, currency).Some?
    ensures PriceCashout(c, small, currency).value.netPayout <= PriceCashout(c, large, currency).value.netPayout
  {
    CashoutFeeHasItsFloor(c, small, large);
    var net := small - CashoutFeeUsd(small, c.cashoutFeePercentage, c.cashoutFeeMinUsd);
    var net' := large - CashoutFeeUsd(large, c.cashoutFeePercentage, c.cashoutFeeMinUsd);
    ProductSign(net' - net, c.marketRate);
    Distribute(net', net, c.marketRate);
    HalfUpMonotone(net * c.marketRate, net' * c.marketRate, CENT_SCALE);
  }

  // ------------------------------------------------------------ the ZAR round trip

  ghost predicate NeverGains(rate: int) {
    forall c: FeeConfig, zarMicro: int :: ValidConfig(c) && c.marketRate == rate ==> RoundTripHolds(c, zarMicro)
  }

  predicate RoundTripHolds(c: FeeConfig, zarMicro: int)
    requires ValidConfig(c)
  {
    var q := CalculateQuote(c, zarMicro, ZAR);
    q.Some? ==> q.value.payout <= q.value.netZar
  }

  /** Sending ZAR and cashing out to ZAR never gains a cent at a market rate of at most 10 000. */
  lemma RoundTripNeverGains(c: FeeConfig, zarMicro: int)
    requires ValidConfig(c) && c.marketRate <= CENT_SCALE
    ensures RoundTripHolds(c, zarMicro)
  {
    match CalculateQuote(c, zarMicro, ZAR)
    case None =>
    case Some(q) =>
      QuoteAccountsForTheSend(c, zarMicro, ZAR);
      PayoutBound(q.uctusd, q.cashoutFee, c.marketRate, q.exchangeRate, q.netZar);
  }

  lemma PayoutBound(uctusd: int, fee: int, market: int, effective: int, net: int)
    requires 0 < uctusd && 0 <= fee && 0 < market <= CENT_SCALE && market <= effective
    requires 2 * (uctusd * effective - net * CENT_SCALE) <= effective
    ensures HalfUp((uctusd - fee) * market, CENT_SCALE) <= net
  {
    ProductSign(fee, market);
    Distribute(uctusd, fee, market);
    ConversionBound(uctusd, market, effective, net);
    BelowHalf((uctusd - fee) * market, uctusd * market, net);
  }

  lemma BelowHalf(num: int, bound: int, net: int)
    requires num <= bound && 2 * bound < 2 * net * CENT_SCALE + CENT_SCALE
    ensures HalfUp(num, CENT_SCALE) <= net
  {
    HalfUpBelow(num, CENT_SCALE, net);
  }

  lemma ConversionBound(uctusd: int, market: int, effective: int, net: int)
    requires 0 < uctusd && 0 < market <= CENT_SCALE && market <= effective
    requires 2 * (uctusd * effective - net * CENT_SCALE) <= effective
    ensures 2 * (uctusd * market) < 2 * net * CENT_SCALE + CENT_SCALE
  {
    if effective == market == CENT_SCALE {
      assert uctusd * effective == uctusd * CENT_SCALE;
    } else {
      Distribute(effective, market, uctusd);
      ProductSign(uctusd - 1, effective - market);
      Distribute(uctusd, 1, effective - market);
      BoundLinear(uctusd * effective, uctusd * market, market, effective, net * CENT_SCALE);
    }
  }

  lemma BoundLinear(exact: int, atMarket: int, market: int, effective: int, net: int)
    requires market <= effective && market <= CENT_SCALE && !(effective == market == CENT_SCALE)
    requires effective - market <= exact - atMarket && 2 * (exact - net) <= effective
    ensures 2 * atMarket < 2 * net + CENT_SCALE
  {
  }

  lemma Distribute(x: int, y: int, z: int)
    ensures (x - y) * z == x * z - y * z
  {
  }

  /** The bound on the rate is exact: above 10 000 some fee-free send comes back with an extra cent. */
  lemma RoundTripExactly(rate: int)
    requires 0 < rate
    ensures NeverGains(rate) <==> rate <= CENT_SCALE
  {
    if rate <= CENT_SCALE {
      forall c: FeeConfig, zarMicro: int | ValidConfig(c) && c.marketRate == rate ensures RoundTripHolds(c, zarMicro) {
        RoundTripNeverGains(c, zarMicro);
      }
    } else {
      var u, k := GainingPair(rate);
      var c := FeeConfig(0, 0, 0, 0, 0, rate, 0);
      HalfUpExact(k, 10_000);
      HalfUpExact(0, MICRO);
      HalfUpExact(rate, MICRO);
      HalfUpUnique(k * CENT_SCALE, rate, u);
      HalfUpAtLeast(u * rate, CENT_SCALE, k + 1);
      assert !RoundTripHolds(c, k * 10_000);
    }
  }

  /** A net of `k` cents that converts to `u` micro-units worth at least `k` and a half cents. */
  lemma GainingPair(rate: int) returns (u: int, k: int)
    requires CENT_SCALE < rate
    ensures 0 < u && 0 < k && CENT_SCALE <= 2 * (u * rate - k * CENT_SCALE) <= rate
  {
    var g, a, b, u0, k0 := Bezout(rate, CENT_SCALE);
    var m := HalfSteps(g, a, b);
    u, k := m * u0, m * k0;
    Scale(m, u0, rate, k0, CENT_SCALE);
    MulLe(rate, 1, u);
    if k <= 0 { MulLe(CENT_SCALE, k, 0); }
  }

  /** Some multiple of `g` lies between half of `g * b` and half of `g * a`. */
  lemma HalfSteps(g: int, a: int, b: int) returns (m: int)
    requires 0 < g && 0 < g * b < g * a
    ensures 0 < m && g * b <= 2 * (m * g) <= g * a
  {
    if a <= b { MulLe(g, a, b); }
    if b <= 0 { MulLe(g, b, 0); }
    m := (b + 1) / 2;
    MulLe(g, b, 2 * m);
    MulLe(g, 2 * m, a);
    assert g * (2 * m) == 2 * (m * g);
  }

  lemma Scale(m: int, u: int, x: int, k: int, y: int)
    requires 0 < m && 0 < u
    ensures 0 < m * u && (m * u) * x - (m * k) * y == m * (u * x - k * y)
  {
  }

  lemma MulLe(g: int, x: int, y: int)
    requires 0 < g && x <= y
    ensures g * x <= g * y
  {
  }

  lemma {:induction false} Bezout(x: int, y: int) returns (g: int, a: int, b: int, u: int, k: int)
    requires 0 < x && 0 < y
    ensures 0 < g && x == g * a && y == g * b && 0 < u && 0 <= k && u * x - k * y == g
    decreases x + y
  {
    if x == y {
      g, a, b, u, k := x, 1, 1, 1, 0;
    } else if y < x {
      g, a, b, u, k := Bezout(x - y, y);
      SubtractOnce(u, k, x, y);
      Join(g, a, b);
      a, k := a + b, k + u;
    } else {
      g, a, b, u, k := Bezout(x, y - x);
      SubtractOther(u, k, x, y);
      Join(g, b, a);
      b, u := a + b, u + k;
    }
  }

  lemma SubtractOnce(u: int, k: int, x: int, y: int)
    ensures u * (x - y) - k * y == u * x - (k + u) * y
  {
  }

  lemma SubtractOther(u: int, k: int, x: int, y: int)
    ensures u * x - k * (y - x) == (u + k) * x - k * y
  {
  }

  lemma Join(g: int, a: int, b: int)
    ensures g * a + g * b == g * (a + b)
  {
  }
}
