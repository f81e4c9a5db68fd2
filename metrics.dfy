/** Per-position risk metrics: capital and margin balance, maintenance
    margin, margin ratio, the one-way-mode liquidation price and its ratio
    to the mark price, and the FTX margin fraction family. A metric the
    original reports as NaN is None; a division that would raise is an
    error result. */
module Metrics {
  import opened Common
  import opened Tiers

  /** The capital: the session-start balance in "use initial balance" mode,
      the live balance otherwise. */
  function Cap(useInitialBalance: bool, initialBalance: real, balance: real): real {
    if useInitialBalance then initialBalance else balance
  }

  /** Margin balance: capital plus the unrealized PnL of all routes, rounded
      to 6 places. */
  function MarginBalance(cap: real, unrealizedPnl: real): (r: real)
    ensures Abs(r - (cap + unrealizedPnl)) <= 0.0000005
  {
    Round(cap + unrealizedPnl, 6)
  }

  /** The maintenance margin of the position. FTX returns the constant 0.1.
      A fixed ratio is applied outside the exception handler, so a missing
      tier raises there; otherwise a missing tier falls back to 75% of the
      position value, unless looking the limits up raises again. */
  function MaintenanceMargin(isFtx: bool, fixed: Option<real>, limits: Result<Option<RiskLimits>>,
                             value: real): (r: Result<real>)
    ensures isFtx ==> r == Ok(0.1)
    ensures !isFtx && fixed.Some? ==>
      (r.Ok? <==> TierOf(limits).Ok?) &&
      (r.Ok? ==> r.value == value * fixed.value - TierOf(limits).value.maintAmount)
    ensures !isFtx && fixed.None? && TierOf(limits).Ok? ==>
      r.Ok? && r.value == value * TierOf(limits).value.maintMarginRatio - TierOf(limits).value.maintAmount
    ensures !isFtx && fixed.None? && limits.Ok? && TierOf(limits).Err? ==> r.Ok? && r.value == value * 0.75
    ensures !isFtx && limits.Err? ==> r.Err?
  {
    if isFtx then Ok(0.1)
    else if fixed.Some? then
      var t :- TierOf(limits);
      Ok(value * fixed.value - t.maintAmount)
    else
      match limits
      case Ok(Some(Tiered(t))) =>
        Ok(value * t.maintMarginRatio - t.maintAmount)
      case Ok(_) => Ok(value * 0.75)
      case Err(f) => Err(f)
  }

  /** With a fixed ratio both resolvers report that ratio for a selected
      tier and change no other field; the maintenance margin is then the
      position value times the fixed ratio less the tier's amount. */
  lemma FixedRatioOverride(tables: RuleTables, venue: Venue, psize: Option<real>, value: real, f: real)
    requires venue != FtxVenue
    requires venue == BybitVenue ==> BybitBaseIndex(tables.bybit).Some?
    ensures var fixedTier := TierOf(ResolveRiskLimits(Some(venue), tables, psize, value, Some(f)));
            var plainTier := TierOf(ResolveRiskLimits(Some(venue), tables, psize, value, None));
      && fixedTier.Ok? && plainTier.Ok?
      && fixedTier.value.(maintMarginRatio := plainTier.value.maintMarginRatio) == plainTier.value
      && (fixedTier.value.maintMarginRatio == f || fixedTier.value == plainTier.value)
      && MaintenanceMargin(false, Some(f), ResolveRiskLimits(Some(venue), tables, psize, value, Some(f)), value)
         .Ok?
      && MaintenanceMargin(false, Some(f), ResolveRiskLimits(Some(venue), tables, psize, value, Some(f)), value)
         .value == value * f - plainTier.value.maintAmount
  {
    var tf, tp;
    match venue {
      case BinanceVenue =>
        tf := BinanceTier(tables.binance, BinancePsize(psize, value), Some(f));
        tp := BinanceTier(tables.binance, BinancePsize(psize, value), None);
        BinanceFixedOverride(tables.binance, BinancePsize(psize, value), f);
      case BybitVenue =>
        BybitFixedOverride(tables.bybit, BybitPsize(psize, value), f);
        tf := BybitTier(tables.bybit, BybitPsize(psize, value), Some(f)).value;
        tp := BybitTier(tables.bybit, BybitPsize(psize, value), None).value;
    }
    var lf := ResolveRiskLimits(Some(venue), tables, psize, value, Some(f));
    assert TierOf(lf) == Ok(tf);
    assert TierOf(ResolveRiskLimits(Some(venue), tables, psize, value, None)) == Ok(tp);
    FixedMarginFromTier(lf, value, f, tf);
  }

  /** With a fixed ratio the maintenance margin reads only the tier's amount. */
  lemma FixedMarginFromTier(limits: Result<Option<RiskLimits>>, value: real, f: real, t: RiskTier)
    requires TierOf(limits) == Ok(t)
    ensures MaintenanceMargin(false, Some(f), limits, value) == Ok(value * f - t.maintAmount)
  {
    var r := MaintenanceMargin(false, Some(f), limits, value);
    assert r.Ok? && r.value == value * f - t.maintAmount;
  }

  /** The legacy fold: a negative ratio r is reported as |r| + 100. */
  function FoldNegative(r: real): (f: real)
    ensures f >= 0.0
    ensures r >= 0.0 ==> f == r
    ensures r < 0.0 ==> f > 100.0 && f == -r + 100.0
  {
    if r < 0.0 then Abs(r) + 100.0 else r
  }

  /** Margin ratio in percent: maintenance margin over margin balance,
      rounded to 2 places, negatives folded above 100; a zero margin balance
      raises. */
  function MarginRatio(maintenanceMargin: real, marginBalance: real): (r: Result<real>)
    ensures r.Ok? <==> marginBalance != 0.0
    ensures r.Ok? ==> r.value >= 0.0
  {
    if marginBalance == 0.0 then Err(ZeroDivision)
    else Ok(FoldNegative(Round(maintenanceMargin / marginBalance * 100.0, 2)))
  }

  /** A ratio below -0.005% (margin and balance of opposite signs) reads as
      more than 100%, so it trips any threshold up to 100; a non-negative
      ratio is its own rounding. */
  lemma MarginRatioFold(maintenanceMargin: real, marginBalance: real)
    requires marginBalance != 0.0
    ensures maintenanceMargin / marginBalance * 100.0 < -0.005 ==> MarginRatio(maintenanceMargin, marginBalance).value > 100.0
    ensures maintenanceMargin / marginBalance >= 0.0 ==>
      MarginRatio(maintenanceMargin, marginBalance).value == Round(maintenanceMargin / marginBalance * 100.0, 2)
  {
    var x := maintenanceMargin / marginBalance * 100.0;
    assert Pow10(2) == 100;
    if x < -0.005 {
      assert x * 100.0 + 0.5 < 0.0;
      assert (x * 100.0 + 0.5).Floor < 0;
    }
    if x >= 0.0 {
      assert (x * 100.0 + 0.5).Floor >= 0;
    }
  }

  /** Folding is idempotent: a reported ratio is never folded again. */
  lemma FoldIdempotent(r: real)
    ensures FoldNegative(FoldNegative(r)) == FoldNegative(r)
  {
  }

  /** The scenario of a 10000 balance with -2000 unrealized PnL: 500 of
      maintenance margin is 6.25%, and 7760 is exactly 97%. */
  lemma MarginRatioScenario()
    ensures MarginBalance(10000.0, -2000.0) == 8000.0
    ensures MarginRatio(500.0, 8000.0) == Ok(6.25)
    ensures MarginRatio(7760.0, 8000.0) == Ok(97.0)
  {
    assert Pow10(6) == 1000000 && Pow10(2) == 100;
    assert (8000.0 * 1000000.0 + 0.5).Floor == 8000000000;
    assert (500.0 / 8000.0 * 100.0 * 100.0 + 0.5).Floor == 625;
    assert (7760.0 / 8000.0 * 100.0 * 100.0 + 0.5).Floor == 9700;
  }

  /** +1 for a long position, -1 for a short one. */
  function Side(isLong: bool): real {
    if isLong then 1.0 else -1.0
  }

  /** The one-way-mode liquidation price: wallet balance, less the other
      routes' maintenance margin, plus their unrealized PnL, plus this
      position's maintenance amount, less side * size * entry, over
      size * maintenance ratio - side * size. Hedge-mode terms are zero. */
  function Lp1Binance(wb: real, tmm1: real, upnl1: real, cumB: real, isLong: bool,
                      size: real, entry: real, mmrB: real): Result<real>
  {
    var denominator := size * mmrB - Side(isLong) * size;
    if denominator == 0.0 then Err(ZeroDivision)
    else Ok((wb - tmm1 + upnl1 + cumB - Side(isLong) * size * entry) / denominator)
  }

  /** At the liquidation price the equity (wallet balance, the other routes'
      PnL and this position's PnL at that price) equals the maintenance
      margin of all routes (the others' plus size * price * ratio less the
      maintenance amount). */
  lemma Lp1IsBreakEven(wb: real, tmm1: real, upnl1: real, cumB: real, isLong: bool,
                       size: real, entry: real, mmrB: real)
    requires Lp1Binance(wb, tmm1, upnl1, cumB, isLong, size, entry, mmrB).Ok?
    ensures var p := Lp1Binance(wb, tmm1, upnl1, cumB, isLong, size, entry, mmrB).value;
      wb + upnl1 + Side(isLong) * size * (p - entry) == tmm1 + size * p * mmrB - cumB
  {
    var s := Side(isLong);
    var d := size * mmrB - s * size;
    var n := wb - tmm1 + upnl1 + cumB - s * size * entry;
    var p := n / d;
    assert p * d == n;
    assert size * p * mmrB - s * size * p == p * d;
  }

  /** With a ratio below 1 and an open position the denominator never
      vanishes. */
  lemma Lp1Defined(wb: real, tmm1: real, upnl1: real, cumB: real, isLong: bool,
                   size: real, entry: real, mmrB: real)
    requires size > 0.0 && 0.0 <= mmrB < 1.0
    ensures Lp1Binance(wb, tmm1, upnl1, cumB, isLong, size, entry, mmrB).Ok?
  {
    if isLong {
      assert size * mmrB < size;
    } else {
      assert size * mmrB >= 0.0;
    }
  }

  /** The FTX liquidation price: the mark price moved by the margin fraction
      less the maintenance margin fraction. */
  function Lp1Ftx(close: real, marginFraction: real, maintenanceMarginFraction: real): real {
    close * (1.0 - (marginFraction - maintenanceMarginFraction))
  }

  /** The liquidation price when it is positive, NaN otherwise. */
  function LiqPrice(lp1: Option<real>): (r: Option<real>)
    ensures r.Some? <==> lp1.Some? && lp1.value > 0.0
    ensures r.Some? ==> r == lp1
  {
    match lp1
    case Some(p) => if p > 0.0 then Some(p) else None
    case None => None
  }

  /** The liquidation price over the mark price for a long position, the
      mark price over the liquidation price for a short one; NaN when flat. */
  function LpRate(isOpen: bool, isLong: bool, lp: real, close: real): (r: Result<Option<real>>)
    ensures !isOpen ==> r == Ok(None)
    ensures isOpen ==> (r.Ok? <==> (if isLong then close != 0.0 else lp != 0.0))
    ensures isOpen && r.Ok? ==> r.value.Some?
  {
    if !isOpen then Ok(None)
    else if isLong then (if close == 0.0 then Err(ZeroDivision) else Ok(Some(lp / close)))
    else (if lp == 0.0 then Err(ZeroDivision) else Ok(Some(close / lp)))
  }

  /** The rate stays below 1 exactly while the mark price is on the safe side
      of a positive liquidation price, and reaches 1 when they meet. */
  lemma LpRateMeasuresDistance(isLong: bool, lp: real, close: real)
    requires close > 0.0 && lp > 0.0
    ensures var rate := LpRate(true, isLong, lp, close).value.value;
      && (isLong ==> (rate < 1.0 <==> lp < close))
      && (!isLong ==> (rate < 1.0 <==> close < lp))
      && (rate == 1.0 <==> lp == close)
  {
    if isLong {
      QuotientAgainstOne(lp, close);
    } else {
      QuotientAgainstOne(close, lp);
    }
  }

  /** A quotient of positives is below 1 exactly when the numerator is the
      smaller, and 1 exactly when they are equal. */
  lemma QuotientAgainstOne(a: real, b: real)
    requires b > 0.0
    ensures a / b < 1.0 <==> a < b
    ensures a / b == 1.0 <==> a == b
  {
    assert a / b * b == a;
    if a / b < 1.0 { assert a / b * b < 1.0 * b; }
    if a / b > 1.0 { assert a / b * b > 1.0 * b; }
  }

  /** FTX margin fraction: capital over the position value, rounded to 6
      places; NaN when flat. */
  function MarginFraction(isOpen: bool, cap: real, value: real): (r: Result<Option<real>>)
    ensures !isOpen ==> r == Ok(None)
    ensures isOpen ==> (r.Ok? <==> value != 0.0)
    ensures isOpen && r.Ok? ==> r.value.Some? && Abs(r.value.value - cap / value) <= 0.0000005
  {
    if !isOpen then Ok(None)
    else if value == 0.0 then Err(ZeroDivision)
    else Ok(Some(Round(cap / value, 6)))
  }

  /** Zero price: the mark price moved against the position by the margin
      fraction; NaN when flat. */
  function ZeroPrice(isLong: bool, isShort: bool, close: real, marginFraction: real): Option<real> {
    if isLong then Some(close * (1.0 - marginFraction))
    else if isShort then Some(close * (1.0 + marginFraction))
    else None
  }

  /** With the unrounded margin fraction, the zero price is the mark price at
      which the position's loss consumes the whole capital. */
  lemma ZeroPriceZeroesEquity(cap: real, size: real, close: real, isLong: bool)
    requires size > 0.0 && close > 0.0
    ensures var zp := ZeroPrice(isLong, !isLong, close, cap / (size * close)).value;
      cap + Side(isLong) * size * (zp - close) == 0.0
  {
    var mf := cap / (size * close);
    assert mf * (size * close) == cap;
    if isLong {
      assert size * (close * (1.0 - mf) - close) == -(mf * (size * close));
    } else {
      assert size * (close * (1.0 + mf) - close) == mf * (size * close);
    }
  }

  /** Auto close margin fraction: max(MMF / 2, MMF - 0.06); NaN when flat. */
  function Acmf(accountMmf: Option<real>): Option<real> {
    match accountMmf
    case None => None
    case Some(m) => Some(Max(m / 2.0, m - 0.06))
  }

  /** For a non-negative MMF the ACMF lies between half the MMF and the MMF,
      and is exactly the half up to an MMF of 12%. */
  lemma AcmfBounds(m: real)
    requires m >= 0.0
    ensures var a := Acmf(Some(m)).value;
      && m / 2.0 <= a <= m
      && (a == m / 2.0 <==> m <= 0.12)
  {
  }

  /** Liquidation distance: the share of the margin fraction above the
      account MMF; NaN when flat; a zero margin fraction raises. */
  function LiquidationDistance(isOpen: bool, marginFraction: real, accountMmf: real): (r: Result<Option<real>>)
    ensures !isOpen ==> r == Ok(None)
    ensures isOpen ==> (r.Ok? <==> marginFraction != 0.0)
  {
    if !isOpen then Ok(None)
    else if marginFraction == 0.0 then Err(ZeroDivision)
    else Ok(Some((marginFraction - accountMmf) / marginFraction))
  }

  /** With a positive margin fraction the distance is positive exactly while
      the margin fraction exceeds the MMF, zero where they meet, and never
      above 1 for a non-negative MMF. */
  lemma LiquidationDistanceSign(mf: real, mmf: real)
    requires mf > 0.0
    ensures var d := LiquidationDistance(true, mf, mmf).value.value;
      && (d > 0.0 <==> mf > mmf)
      && (d == 0.0 <==> mf == mmf)
      && (mmf >= 0.0 ==> d <= 1.0)
  {
    var d := (mf - mmf) / mf;
    assert d * mf == mf - mmf;
  }

  /** Base IMF: one over the leverage, rounded to 3 places. */
  function BaseImf(leverage: real): (r: Result<real>)
    ensures r.Ok? <==> leverage != 0.0
    ensures r.Ok? ==> Abs(r.value - 1.0 / leverage) <= 0.0005
  {
    if leverage == 0.0 then Err(ZeroDivision) else Ok(Round(1.0 / leverage, 3))
  }

  /** The margin the framework reports, scaled by the leverage when live. */
  function AvailableMargin(live: bool, frameworkMargin: real, leverage: real): real {
    if live then frameworkMargin * leverage else frameworkMargin
  }
}
