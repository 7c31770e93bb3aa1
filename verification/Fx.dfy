/**
 Fixed-point pricing (app/services/fx_service.py).

 Money is an integer number of the smallest unit of its column: ZAR in cents, UCTUSD and
 USD in micro-units, rates and fractions in millionths. A quantisation is the half-up
 rounding of an exact fraction.
*/
module Fx {
  import opened Wrappers

  const MICRO := 1_000_000
  // One cent of ZAR times one whole unit of rate, in the scale of a micro-USD * micro-rate product.
  const CENT_SCALE := 10_000_000_000

  datatype Currency = USD | ZAR

  datatype FeeConfig = FeeConfig(
    fixedFeeZar: int,        // cents
    percentageFee: int,      // millionths
    fxMargin: int,           // millionths
    cashoutFeePercentage: int,
    cashoutFeeMinUsd: int,   // micro-USD
    marketRate: int,         // millionths of ZAR per USD
    minSendZar: int)         // cents

  /** What the configuration screens accept: nothing negative, and a positive rate. */
  predicate ValidConfig(c: FeeConfig) {
    && 0 <= c.fixedFeeZar && 0 <= c.percentageFee && 0 <= c.fxMargin
    && 0 <= c.cashoutFeePercentage && 0 <= c.cashoutFeeMinUsd && 0 < c.marketRate && 0 <= c.minSendZar
  }

  datatype Quote = Quote(
    zarAmount: int, transactionFee: int, netZar: int, marketRate: int, exchangeRate: int,
    uctusd: int, cashoutFee: int, payout: int)

  datatype Pricing = Pricing(uctusd: int, currency: Currency, marketRate: int, feeUsd: int, netPayout: int)

  /** `num / den` rounded to the nearest integer, ties away from zero. */
  function HalfUp(num: int, den: int): (r: int)
    requires 0 < den
    ensures -den <= 2 * (r * den - num) <= den
    ensures 2 * (r * den - num) == den ==> 0 <= num
    ensures 2 * (r * den - num) == -den ==> num < 0
  {
    if 0 <= num then (2 * num + den) / (2 * den) else -((den - 2 * num) / (2 * den))
  }

  function CashoutFeeUsd(uctusd: int, percentage: int, minimum: int): int {
    HalfUp(if percentage * uctusd < minimum * MICRO then minimum * MICRO else percentage * uctusd, MICRO)
  }

  function CashoutPayout(uctusd: int, fee: int, rate: int, currency: Currency): int {
    if currency.USD? then uctusd - fee else HalfUp((uctusd - fee) * rate, CENT_SCALE)
  }

  function TransactionFee(c: FeeConfig, zar: int): int {
    HalfUp(c.fixedFeeZar * MICRO + c.percentageFee * zar, MICRO)
  }

  function EffectiveRate(c: FeeConfig): int {
    HalfUp(c.marketRate * (MICRO + c.fxMargin), MICRO)
  }

  /** The price of a send of `zarMicro` millionths of a rand; None when nothing is left to convert. */
  function CalculateQuote(c: FeeConfig, zarMicro: int, currency: Currency): Option<Quote>
    requires ValidConfig(c)
  {
    EffectiveRatePositive(c);
    var zar := HalfUp(zarMicro, 10_000);
    var fee := TransactionFee(c, zar);
    var rate := EffectiveRate(c);
    var net := zar - fee;
    if net <= 0 then None else
    var uctusd := HalfUp(net * CENT_SCALE, rate);
    if uctusd <= 0 then None else
    var cashoutFee := CashoutFeeUsd(uctusd, c.cashoutFeePercentage, c.cashoutFeeMinUsd);
    Some(Quote(zar, fee, net, c.marketRate, rate, uctusd, cashoutFee,
               CashoutPayout(uctusd, cashoutFee, c.marketRate, currency)))
  }

  /** The quote with the configured floor on the send. */
  function QuoteFor(c: FeeConfig, zarMicro: int, currency: Currency): Option<Quote>
    requires ValidConfig(c)
  {
    if HalfUp(zarMicro, 10_000) < c.minSendZar then None else CalculateQuote(c, zarMicro, currency)
  }

  /** The terms of a cash-out; None when the fee leaves nothing to pay out. */
  function PriceCashout(c: FeeConfig, uctusd: int, currency: Currency): Option<Pricing> {
    var fee := CashoutFeeUsd(uctusd, c.cashoutFeePercentage, c.cashoutFeeMinUsd);
    var payout := CashoutPayout(uctusd, fee, c.marketRate, currency);
    if payout <= 0 then None else Some(Pricing(uctusd, currency, c.marketRate, fee, payout))
  }

  /** A decimal `num / den` as a ledger amount in micro-units; None is InvalidAmountError. */
  function Uctusd(num: int, den: int): Option<int>
    requires 0 < den
  {
    var micro := HalfUp(num * MICRO, den);
    if micro <= 0 then None else Some(micro)
  }

  /** A finite decimal `num / den` typed by a recipient; None is a refusal. */
  function ParseAmount(num: int, den: int): Option<int>
    requires 0 < den
  {
    if num <= 0 then None else Uctusd(num, den)
  }

  // ---------------------------------------------------------------- rounding

  /** Half-up rounding is the only integer within half a step that sends ties away from zero. */
  lemma HalfUpUnique(num: int, den: int, r: int)
    requires 0 < den
    requires -den <= 2 * (r * den - num) <= den
    requires 2 * (r * den - num) == den ==> 0 <= num
    requires 2 * (r * den - num) == -den ==> num < 0
    ensures r == HalfUp(num, den)
  {
    var q := HalfUp(num, den);
    if r < q { MulStep(r, q, den); }
    if q < r { MulStep(q, r, den); }
  }

  lemma MulStep(a: int, b: int, den: int)
    requires 0 < den && a < b
    ensures a * den + den <= b * den
  {
    assert (b - a - 1) * den == b * den - a * den - den;
    assert (b - a - 1) * den >= 0;
  }

  lemma HalfUpMonotone(a: int, b: int, den: int)
    requires 0 < den && a <= b
    ensures HalfUp(a, den) <= HalfUp(b, den)
  {
    if HalfUp(b, den) < HalfUp(a, den) { MulStep(HalfUp(b, den), HalfUp(a, den), den); }
  }

  /** Rounding commutes with adding whole units to a non-negative fraction. */
  lemma HalfUpShift(num: int, den: int, n: int)
    requires 0 < den && 0 <= num && 0 <= n
    ensures HalfUp(num + n * den, den) == HalfUp(num, den) + n
  {
    var r := HalfUp(num, den);
    assert (r + n) * den == r * den + n * den;
    assert 0 <= n * den;
    HalfUpUnique(num + n * den, den, r + n);
  }

  lemma HalfUpExact(n: int, den: int)
    requires 0 < den
    ensures HalfUp(n * den, den) == n
  {
    HalfUpUnique(n * den, den, n);
  }

  /** An upper bound that no half-up rounding can cross. */
  lemma HalfUpBelow(num: int, den: int, n: int)
    requires 0 < den && 2 * num < 2 * n * den + den
    ensures HalfUp(num, den) <= n
  {
    var r := HalfUp(num, den);
    if n < r { MulStep(n, r, den); }
  }

  lemma HalfUpAtLeast(num: int, den: int, n: int)
    requires 0 < den && 0 <= num && 2 * n * den - den <= 2 * num
    ensures n <= HalfUp(num, den)
  {
    var r := HalfUp(num, den);
    if r < n { MulStep(r, n, den); }
  }

  lemma EffectiveRatePositive(c: FeeConfig)
    requires ValidConfig(c)
    ensures c.marketRate <= EffectiveRate(c) && 0 < EffectiveRate(c)
  {
    HalfUpExact(c.marketRate, MICRO);
    assert c.marketRate * (MICRO + c.fxMargin) == c.marketRate * MICRO + c.marketRate * c.fxMargin;
    assert 0 <= c.marketRate * c.fxMargin;
    HalfUpMonotone(c.marketRate * MICRO, c.marketRate * (MICRO + c.fxMargin), MICRO);
  }
}
