/** The strategy base class's risk engine: the per-route state (configuration,
    lazily loaded rule caches, session figures) and the operations a route
    runs on every candle, each tied to a specification function of the
    configuration, the rule tables, the registry and the framework's tick. */
module Strategy {
  import opened Common
  import opened Tiers
  import opened Registry
  import Metrics
  import Guard

  /** The strategy's settings. */
  datatype Config = Config(
    symbol: string,
    exchange: string,
    leverage: real,
    marginRatioThreshold: real,
    keepRunningInCaseOfLiquidation: bool,
    fixedMarginRatio: Option<real>,
    useInitialBalance: bool,
    tradeWithBybitRules: bool)

  /** The framework's view of the route's position. */
  datatype Position = Position(qty: real, entryPrice: real, value: real, pnl: real, pnlPercentage: real) {
    predicate IsOpen() { qty != 0.0 }
    predicate IsLong() { qty > 0.0 }
    predicate IsShort() { qty < 0.0 }
  }

  /** FTX position figures derived with a square root of the position size;
      they are supplied rather than computed. */
  datatype FtxFigures = FtxFigures(positionImf: real, positionMmf: real, maintenanceMarginFraction: real)

  /** Everything the framework supplies for one candle. */
  datatype Tick = Tick(
    position: Position,
    balance: real,
    close: real,
    routes: seq<string>,
    live: bool,
    now: Timestamp,
    frameworkAvailableMargin: real,
    averageEntryPrice: real,
    ftx: FtxFigures,
    active: bool,
    maxOpenPositions: int,
    currentCyclePositions: real,
    insuffMarginCount: int)

  // ---------------------------------------------------------------------
  // Specification functions

  function VenueOf(cfg: Config): Option<Venue> {
    RiskVenue(cfg.tradeWithBybitRules, cfg.exchange)
  }

  /** The risk limits for a position size, None meaning the current value. */
  function LimitsAt(cfg: Config, tables: RuleTables, tick: Tick, psize: Option<real>): Result<Option<RiskLimits>> {
    ResolveRiskLimits(VenueOf(cfg), tables, psize, tick.position.value, cfg.fixedMarginRatio)
  }

  function MaintenanceMarginAt(cfg: Config, tables: RuleTables, tick: Tick): Result<real> {
    Metrics.MaintenanceMargin(IsFtx(cfg.exchange), cfg.fixedMarginRatio, LimitsAt(cfg, tables, tick, None), tick.position.value)
  }

  function CapAt(cfg: Config, initialBalance: real, tick: Tick): real {
    Metrics.Cap(cfg.useInitialBalance, initialBalance, tick.balance)
  }

  /** With use_initial_balance the capital is the balance recorded when the
      session started, whatever the balance of later candles; otherwise it
      follows the current balance. */
  lemma CapModes(cfg: Config, initialBalance: real, t1: Tick, t2: Tick)
    ensures cfg.useInitialBalance ==>
      CapAt(cfg, initialBalance, t1) == CapAt(cfg, initialBalance, t2) == initialBalance
    ensures !cfg.useInitialBalance ==> CapAt(cfg, initialBalance, t1) == t1.balance
  {
  }

  function UnrealPnlAt(symbols: map<string, SymbolRecord>, tick: Tick): real {
    Round(RouteSum(tick.routes, symbols, Pnl), 6)
  }

  function MarginBalanceAt(cfg: Config, symbols: map<string, SymbolRecord>, initialBalance: real, tick: Tick): real {
    Metrics.MarginBalance(CapAt(cfg, initialBalance, tick), UnrealPnlAt(symbols, tick))
  }

  function MarginRatioAt(cfg: Config, tables: RuleTables, symbols: map<string, SymbolRecord>,
                         initialBalance: real, tick: Tick): Result<real> {
    var mm :- MaintenanceMarginAt(cfg, tables, tick);
    Metrics.MarginRatio(mm, MarginBalanceAt(cfg, symbols, initialBalance, tick))
  }

  /** The entry price as written: the condition tests the imported is_live
      function itself, which is always truthy, so the position's entry price
      is used in backtests too. */
  function AvgEntryPriceAsWritten(position: Position, averageEntryPrice: real, live: bool): real {
    position.entryPrice
  }

  /** The entry price as intended: the position's entry price when live,
      the strategy's average entry price otherwise. */
  function AvgEntryPrice(position: Position, averageEntryPrice: real, live: bool): (p: real)
    ensures live ==> p == position.entryPrice
    ensures !live ==> p == averageEntryPrice
  {
    if live then position.entryPrice else averageEntryPrice
  }

  /** A backtest whose average entry price differs from the position's entry
      price gets the position's entry price, not the average. */
  lemma AvgEntryPriceIgnoresMode()
    ensures var pos := Position(1.0, 100.0, 100.0, 0.0, 0.0);
      && AvgEntryPriceAsWritten(pos, 101.0, false) == 100.0
      && AvgEntryPrice(pos, 101.0, false) == 101.0
  {
  }

  /** The liquidation price: NaN when flat; the FTX formula from the margin
      fraction, whose square root of the size fails for a short; otherwise
      the one-way formula with the other routes' maintenance margin and PnL
      and this route's tier, at the intended entry price. */
  function Lp1At(cfg: Config, tables: RuleTables, symbols: map<string, SymbolRecord>,
                 initialBalance: real, tick: Tick): Result<Option<real>>
  {
    var pos := tick.position;
    var cap := CapAt(cfg, initialBalance, tick);
    if !pos.IsOpen() then Ok(None)
    else if IsFtx(cfg.exchange) then
      var mf :- Metrics.MarginFraction(true, cap, pos.value);
      if pos.IsShort() then Err(MathDomain)
      else Ok(Some(Metrics.Lp1Ftx(tick.close, mf.value, tick.ftx.maintenanceMarginFraction)))
    else
      var tier :- TierOf(LimitsAt(cfg, tables, tick, None));
      var p :- Metrics.Lp1Binance(cap, OthersSum(tick.routes, symbols, MaintMargin, cfg.symbol),
                                  OthersSum(tick.routes, symbols, Pnl, cfg.symbol), tier.maintAmount,
                                  pos.IsLong(), Abs(pos.qty),
                                  AvgEntryPrice(pos, tick.averageEntryPrice, tick.live), tier.maintMarginRatio);
      Ok(Some(p))
  }

  /** At the one-way liquidation price the route's equity equals the
      maintenance margin of all routes: the other routes' published margin
      and this position's margin at that price. */
  lemma Lp1AtBreakEven(cfg: Config, tables: RuleTables, symbols: map<string, SymbolRecord>,
                       initialBalance: real, tick: Tick)
    requires tick.position.IsOpen() && !IsFtx(cfg.exchange)
    requires Lp1At(cfg, tables, symbols, initialBalance, tick).Ok?
    ensures var p := Lp1At(cfg, tables, symbols, initialBalance, tick).value.value;
            var tier := TierOf(LimitsAt(cfg, tables, tick, None)).value;
            var size := Abs(tick.position.qty);
            var entry := AvgEntryPrice(tick.position, tick.averageEntryPrice, tick.live);
      CapAt(cfg, initialBalance, tick) + OthersSum(tick.routes, symbols, Pnl, cfg.symbol)
        + Metrics.Side(tick.position.IsLong()) * size * (p - entry)
      == OthersSum(tick.routes, symbols, MaintMargin, cfg.symbol) + size * p * tier.maintMarginRatio - tier.maintAmount
  {
    var tier := TierOf(LimitsAt(cfg, tables, tick, None)).value;
    var cap := CapAt(cfg, initialBalance, tick);
    var mm1 := OthersSum(tick.routes, symbols, MaintMargin, cfg.symbol);
    var pnl1 := OthersSum(tick.routes, symbols, Pnl, cfg.symbol);
    var entry := AvgEntryPrice(tick.position, tick.averageEntryPrice, tick.live);
    var lp := Metrics.Lp1Binance(cap, mm1, pnl1, tier.maintAmount, tick.position.IsLong(), Abs(tick.position.qty),
                                 entry, tier.maintMarginRatio);
    assert Lp1At(cfg, tables, symbols, initialBalance, tick) == Ok(Some(lp.value));
    Metrics.Lp1IsBreakEven(cap, mm1, pnl1, tier.maintAmount, tick.position.IsLong(), Abs(tick.position.qty),
                           entry, tier.maintMarginRatio);
  }

  /** The zero price from the current margin fraction. */
  function ZeroPriceAt(cfg: Config, initialBalance: real, tick: Tick): Result<Option<real>> {
    var pos := tick.position;
    var mf :- Metrics.MarginFraction(pos.IsOpen(), CapAt(cfg, initialBalance, tick), pos.value);
    match mf
    case None => Ok(None)
    case Some(m) => Ok(Metrics.ZeroPrice(pos.IsLong(), pos.IsShort(), tick.close, m))
  }

  /** The liquidation-price rate: NaN when flat; from the zero price on FTX
      and from the liquidation price elsewhere. */
  function LpRateAt(cfg: Config, tables: RuleTables, symbols: map<string, SymbolRecord>,
                    initialBalance: real, tick: Tick): Result<Option<real>>
  {
    var pos := tick.position;
    if !pos.IsOpen() then Ok(None)
    else
      var lp :- if IsFtx(cfg.exchange) then ZeroPriceAt(cfg, initialBalance, tick)
                else Lp1At(cfg, tables, symbols, initialBalance, tick);
      match lp
      case None => Ok(None)
      case Some(l) => Metrics.LpRate(true, pos.IsLong(), l, tick.close)
  }

  /** Whether a rate moves the stored maximum LP ratio: the NaN it starts
      as is always replaced, afterwards only a larger rate moves it. */
  predicate MaxLpMoves(stored: Option<real>, rate: real) {
    stored.None? || rate > stored.value
  }

  /** The stored maximum LP ratio once a rate (NaN for None) is saved. */
  function LpMax(stored: Option<real>, rate: Option<real>): Option<real> {
    if rate.None? then stored
    else if stored.None? then rate
    else Some(Max(rate.value, stored.value))
  }

  /** lp_rate as a whole: the rate, and, when it moves the stored maximum,
      the log message that evaluates the liquidation price again, which
      fails where that price does. */
  function LpRateOutcome(cfg: Config, tables: RuleTables, symbols: map<string, SymbolRecord>,
                         initialBalance: real, tick: Tick, stored: Option<real>): Result<Option<real>>
  {
    var rate :- LpRateAt(cfg, tables, symbols, initialBalance, tick);
    if rate.Some? && MaxLpMoves(stored, rate.value) then
      var shown :- Lp1At(cfg, tables, symbols, initialBalance, tick);
      Ok(rate)
    else Ok(rate)
  }

  /** Outside an open FTX short the message never fails: the outcome is
      the rate itself. */
  lemma LpMessageHarmless(cfg: Config, tables: RuleTables, symbols: map<string, SymbolRecord>,
                          initialBalance: real, tick: Tick, stored: Option<real>)
    requires !(IsFtx(cfg.exchange) && tick.position.IsShort())
    ensures LpRateOutcome(cfg, tables, symbols, initialBalance, tick, stored)
         == LpRateAt(cfg, tables, symbols, initialBalance, tick)
  {
    var rate := LpRateAt(cfg, tables, symbols, initialBalance, tick);
    if rate.Ok? && rate.value.Some? && IsFtx(cfg.exchange) {
      var cap := CapAt(cfg, initialBalance, tick);
      assert Metrics.MarginFraction(true, cap, tick.position.value).Ok?;
    }
  }

  /** On an open FTX short a rate that moves the stored maximum fails:
      the message's liquidation price takes the square root of the
      negative size. */
  lemma LpMessageFailsOnFtxShort(cfg: Config, tables: RuleTables, symbols: map<string, SymbolRecord>,
                                 initialBalance: real, tick: Tick, stored: Option<real>)
    requires IsFtx(cfg.exchange) && tick.position.IsShort()
    requires LpRateAt(cfg, tables, symbols, initialBalance, tick).Ok?
    requires LpRateAt(cfg, tables, symbols, initialBalance, tick).value.Some?
    requires MaxLpMoves(stored, LpRateAt(cfg, tables, symbols, initialBalance, tick).value.value)
    ensures LpRateOutcome(cfg, tables, symbols, initialBalance, tick, stored) == Err(MathDomain)
  {
    var cap := CapAt(cfg, initialBalance, tick);
    assert Metrics.MarginFraction(true, cap, tick.position.value).Ok?;
  }

  /** The message the liquidation guard builds on a breach reports
      profit_ratio2, log2(max(initial balance, cap) / initial balance): the
      division fails at a zero initial balance and the logarithm at a quotient
      that is not positive. It succeeds exactly for a positive initial
      balance, or a negative one with a negative capital. */
  function GuardMessage(initialBalance: real, cap: real): (r: Result<()>)
    ensures r.Ok? <==> initialBalance > 0.0 || (initialBalance < 0.0 && cap < 0.0)
    ensures r.Err? ==> r.fault == (if initialBalance == 0.0 then ZeroDivision else MathDomain)
  {
    if initialBalance == 0.0 then Err(ZeroDivision)
    else if Max(initialBalance, cap) / initialBalance > 0.0 then Ok(())
    else Err(MathDomain)
  }

  /** The guard's message fails before the guard acts: on a breach, it
      reports the message's fault and leaves the terminated flag alone. */
  predicate GuardMessageFails(cfg: Config, initialBalance: real, tick: Tick, mr: real) {
    Guard.Breach(mr, cfg.marginRatioThreshold) && GuardMessage(initialBalance, CapAt(cfg, initialBalance, tick)).Err?
  }

  /** The terminated flag after the liquidation guard has seen the margin
      ratio: set once the guard acts and its message could be built, and
      kept when no ratio exists. */
  function GuardedTermination(cfg: Config, tables: RuleTables, symbols: map<string, SymbolRecord>,
                              initialBalance: real, tick: Tick, was: bool): bool
  {
    var mr := MarginRatioAt(cfg, tables, symbols, initialBalance, tick);
    if mr.Ok? then
      was || (Guard.LiquidationAction(mr.value, cfg.marginRatioThreshold, tick.live,
                                      cfg.keepRunningInCaseOfLiquidation) != Guard.Continue
              && GuardMessage(initialBalance, CapAt(cfg, initialBalance, tick)).Ok?)
    else was
  }

  /** The total position notional: the total position value while open. */
  function TotalPositionNotionalAt(symbols: map<string, SymbolRecord>, tick: Tick): real {
    if tick.position.IsOpen() then Round(Aggregate(tick.routes, symbols, PosValue, tick.position.value), 6) else 0.0
  }

  /** The account MMF: NaN when flat; over several routes the MMFs weighted
      by their share of the total notional (a zero total makes every term
      raise, and each is skipped); on one route the own share times the own
      MMF, where a zero total raises. */
  function AccountMmfAt(symbols: map<string, SymbolRecord>, tick: Tick): (r: Result<Option<real>>)
    ensures !tick.position.IsOpen() ==> r == Ok(None)
    ensures tick.position.IsOpen() && |tick.routes| > 1 ==> r.Ok? && r.value.Some?
  {
    var tpn := TotalPositionNotionalAt(symbols, tick);
    if !tick.position.IsOpen() then Ok(None)
    else if |tick.routes| > 1 then
      Ok(Some(Round(if tpn == 0.0 then 0.0 else WeightedMmf(tick.routes, symbols) / tpn, 6)))
    else if tpn == 0.0 then Err(ZeroDivision)
    else Ok(Some(Round(WeightedShare(tick.position.value, tpn, tick.ftx.positionMmf), 6)))
  }

  /** A position's MMF weighted by its share of the total notional. */
  function WeightedShare(notional: real, total: real, mmf: real): real
    requires total != 0.0
  {
    notional / total * mmf
  }

  /** With every route's MMF at most `bound`, non-negative notionals adding up
      to no more than the total, the account MMF stays within `bound` up to
      rounding. */
  lemma AccountMmfWithinBound(symbols: map<string, SymbolRecord>, tick: Tick, bound: real)
    requires tick.position.IsOpen() && |tick.routes| > 1 && bound >= 0.0
    requires TotalPositionNotionalAt(symbols, tick) > 0.0
    requires forall r :: r in tick.routes ==> Entry(symbols, r, PositionNotional) >= 0.0
    requires forall r :: r in tick.routes ==> Entry(symbols, r, PositionMmf) <= bound
    requires RouteSum(tick.routes, symbols, PositionNotional) <= TotalPositionNotionalAt(symbols, tick)
    ensures AccountMmfAt(symbols, tick).value.value <= bound + 0.0000005
  {
    var tpn := TotalPositionNotionalAt(symbols, tick);
    AccountMmfAtMostLargest(tick.routes, symbols, tpn, bound);
  }

  /** The record a route publishes: position figures zeroed when flat, FTX
      figures zeroed unless open on FTX. The FTX figures of an open short
      take the square root of its negative size, which raises. */
  function RecordAt(cfg: Config, tables: RuleTables, tick: Tick): (r: Result<SymbolRecord>)
    ensures r.Ok? <==> MaintenanceMarginAt(cfg, tables, tick).Ok? && !(IsFtx(cfg.exchange) && tick.position.IsShort())
    ensures MaintenanceMarginAt(cfg, tables, tick).Ok? && IsFtx(cfg.exchange) && tick.position.IsShort() ==>
      r == Err(MathDomain)
    ensures r.Ok? ==> r.value.maintenanceMargin == Round(MaintenanceMarginAt(cfg, tables, tick).value, 6)
    ensures r.Ok? && !tick.position.IsOpen() ==>
      && r.value.posValue == 0.0 && r.value.pnl == 0.0 && r.value.pnlPct == 0.0
      && r.value.collateralUsed == 0.0 && r.value.positionNotional == 0.0
    ensures r.Ok? && tick.position.IsOpen() ==>
      Abs(r.value.posValue - tick.position.value) <= 0.0000005 && Abs(r.value.pnl - tick.position.pnl) <= 0.0000005
    ensures r.Ok? && !IsFtx(cfg.exchange) ==>
      && r.value.collateralUsed == 0.0 && r.value.positionImf == 0.0 && r.value.positionMmf == 0.0
      && r.value.positionNotional == 0.0 && r.value.maintenanceCollateral == 0.0
  {
    var mm :- MaintenanceMarginAt(cfg, tables, tick);
    var pos := tick.position;
    var open := pos.IsOpen();
    var ftxOpen := open && IsFtx(cfg.exchange);
    if ftxOpen && pos.IsShort() then Err(MathDomain)
    else Ok(SymbolRecord(
      tick.active,
      open,
      if open then Round(pos.value, 6) else 0.0,
      if open then Round(pos.pnl, 6) else 0.0,
      if open then Round(pos.pnlPercentage, 6) else 0.0,
      tick.maxOpenPositions,
      Round(tick.currentCyclePositions, 2),
      Round(mm, 6),
      if ftxOpen then Round(tick.ftx.positionImf * pos.value, 6) else 0.0,
      if ftxOpen then Round(tick.ftx.positionImf, 6) else 0.0,
      if ftxOpen then Round(tick.ftx.positionMmf, 6) else 0.0,
      if ftxOpen then Round(pos.value, 6) else 0.0,
      if ftxOpen then Round(pos.value * tick.ftx.positionMmf, 6) else 0.0))
  }

  // ---------------------------------------------------------------------
  // The strategy object

  class Strat {
    const cfg: Config
    const tables: RuleTables
    const shared: SharedVars
    var binanceCache: seq<BinanceBracket>
    var bybitCache: seq<BybitRiskLimit>
    var ftxCache: Option<FtxRiskParams>
    var initialBalance: real
    var maxPositionValue: real
    var maxInsuffMarginCount: int
    var terminated: bool

    /** A rule cache is empty until loaded and then holds the loaded table;
        the session maxima are never negative. */
    predicate Valid()
      reads this, shared
    {
      && shared.Valid()
      && (binanceCache == [] || binanceCache == tables.binance)
      && (bybitCache == [] || bybitCache == tables.bybit)
      && (ftxCache.None? || ftxCache == Some(tables.ftx))
      && maxPositionValue >= 0.0
      && maxInsuffMarginCount >= 0
    }

    /** A new route on the registry all routes share: nothing loaded, no
        session figures, and the registry's scalars reset to the route
        defaults while the records other routes published stay. */
    constructor (cfg: Config, tables: RuleTables, shared: SharedVars)
      requires shared.Valid()
      modifies shared
      ensures Valid() && this.shared == shared && shared.RouteDefaults()
      ensures shared.symbols == old(shared.symbols)
      ensures shared.maxMarginRatioTs == old(shared.maxMarginRatioTs) && shared.maxLpRatioTs == old(shared.maxLpRatioTs)
      ensures shared.lpRate == old(shared.lpRate) && shared.insuffMarginCount == old(shared.insuffMarginCount)
      ensures this.cfg == cfg && this.tables == tables
      ensures binanceCache == [] && bybitCache == [] && ftxCache == None
      ensures maxPositionValue == 0.0 && maxInsuffMarginCount == 0 && !terminated
    {
      this.cfg := cfg;
      this.tables := tables;
      this.shared := shared;
      binanceCache := [];
      bybitCache := [];
      ftxCache := None;
      initialBalance := 0.0;
      maxPositionValue := 0.0;
      maxInsuffMarginCount := 0;
      terminated := false;
      new;
      shared.RegisterRoute();
    }

    /** The Binance resolver: load the brackets if none are cached (or on a
        forced reload), then scan them. */
    method BinanceLimits(tick: Tick, psize: Option<real>, forceReload: bool) returns (t: RiskTier)
      requires Valid()
      modifies this`binanceCache
      ensures Valid() && binanceCache == tables.binance
      ensures t == BinanceTier(tables.binance, BinancePsize(psize, tick.position.value), cfg.fixedMarginRatio)
    {
      var size := if psize.None? || psize.value == 0.0 then tick.position.value else psize.value;
      if binanceCache == [] || forceReload {
        binanceCache := tables.binance;
      }
      t := ScanBinanceBrackets(binanceCache, size, cfg.fixedMarginRatio);
    }

    /** The Bybit resolver: load the risk limits if none are cached (or on a
        forced reload), then scan them. */
    method BybitLimits(tick: Tick, psize: Option<real>, forceReload: bool) returns (r: Result<RiskTier>)
      requires Valid()
      modifies this`bybitCache
      ensures Valid() && bybitCache == tables.bybit
      ensures r == BybitTier(tables.bybit, BybitPsize(psize, tick.position.value), cfg.fixedMarginRatio)
    {
      var size := if psize.None? then tick.position.value else psize.value;
      if bybitCache == [] || forceReload {
        bybitCache := tables.bybit;
      }
      r := ScanBybitRiskLimits(bybitCache, size, cfg.fixedMarginRatio);
    }

    /** The FTX resolver returns the cached parameter record. */
    method FtxLimits(forceReload: bool) returns (p: FtxRiskParams)
      requires Valid()
      modifies this`ftxCache
      ensures Valid() && ftxCache == Some(tables.ftx)
      ensures p == tables.ftx
    {
      if ftxCache.None? || forceReload {
        ftxCache := Some(tables.ftx);
      }
      p := ftxCache.value;
    }

    /** The dispatcher: Bybit rules when configured, then by exchange name. */
    method RiskLimits(tick: Tick, psize: Option<real>, forceReload: bool) returns (r: Result<Option<RiskLimits>>)
      requires Valid()
      modifies this`binanceCache, this`bybitCache, this`ftxCache
      ensures Valid()
      ensures r == LimitsAt(cfg, tables, tick, psize)
    {
      match VenueOf(cfg) {
        case None =>
          r := Ok(None);
        case Some(BinanceVenue) =>
          var t := BinanceLimits(tick, psize, forceReload);
          r := Ok(Some(Tiered(t)));
        case Some(BybitVenue) =>
          var t := BybitLimits(tick, psize, forceReload);
          r := if t.Err? then Err(t.fault) else Ok(Some(Tiered(t.value)));
        case Some(FtxVenue) =>
          var p := FtxLimits(forceReload);
          r := Ok(Some(Continuous(p)));
      }
    }

    /** The maintenance margin of the route's position. */
    method MaintenanceMargin(tick: Tick) returns (r: Result<real>)
      requires Valid()
      modifies this`binanceCache, this`bybitCache, this`ftxCache
      ensures Valid()
      ensures r == MaintenanceMarginAt(cfg, tables, tick)
    {
      if IsFtx(cfg.exchange) {
        return Ok(0.1);
      }
      var limits := RiskLimits(tick, None, false);
      r := Metrics.MaintenanceMargin(false, cfg.fixedMarginRatio, limits, tick.position.value);
    }

    /** The unrealized PnL of all routes, the caller included. */
    method UnrealPnl(tick: Tick) returns (u: real)
      ensures u == UnrealPnlAt(shared.symbols, tick)
    {
      var s := SumRoutes(tick.routes, shared.symbols, Pnl);
      u := Round(s, 6);
    }

    /** Capital plus the unrealized PnL of all routes. */
    method MarginBalance(tick: Tick) returns (mb: real)
      ensures mb == MarginBalanceAt(cfg, shared.symbols, initialBalance, tick)
    {
      var u := UnrealPnl(tick);
      mb := Metrics.MarginBalance(CapAt(cfg, initialBalance, tick), u);
    }

    /** The maintenance margin of the other routes (TMM1). */
    method Tmm1(tick: Tick) returns (t: real)
      ensures t == OthersSum(tick.routes, shared.symbols, MaintMargin, cfg.symbol)
    {
      t := SumOtherRoutes(tick.routes, shared.symbols, MaintMargin, cfg.symbol);
    }

    /** The unrealized PnL of the other routes (UPNL1). */
    method Upnl1(tick: Tick) returns (u: real)
      ensures u == OthersSum(tick.routes, shared.symbols, Pnl, cfg.symbol)
    {
      u := SumOtherRoutes(tick.routes, shared.symbols, Pnl, cfg.symbol);
    }

    /** The initial margin of all routes, rounded to 6 places. */
    method InitialMargin(tick: Tick) returns (im: real)
      ensures cfg.leverage != 0.0 ==> im == Round(RouteSum(tick.routes, shared.symbols, PosValue) / cfg.leverage, 6)
      ensures cfg.leverage == 0.0 ==> im == 0.0
    {
      var s := InitialMarginSum(tick.routes, shared.symbols, cfg.leverage);
      im := Round(s, 6);
      if cfg.leverage == 0.0 {
        RoundZero(6);
      }
    }

    /** The margin left over once the initial margin is set aside. */
    method AvailMargin(tick: Tick) returns (am: real)
      ensures cfg.leverage != 0.0 ==>
        am == MarginBalanceAt(cfg, shared.symbols, initialBalance, tick)
              - Round(RouteSum(tick.routes, shared.symbols, PosValue) / cfg.leverage, 6)
      ensures cfg.leverage == 0.0 ==> am == MarginBalanceAt(cfg, shared.symbols, initialBalance, tick)
    {
      var mb := MarginBalance(tick);
      var im := InitialMargin(tick);
      am := mb - im;
    }

    /** The total position value: the registry sum over several routes, the
        own position value on a single route; the running maximum keeps the
        unrounded value. */
    method GetTotalValue(tick: Tick) returns (tv: real)
      requires Valid()
      modifies shared`maxTotalValue
      ensures Valid()
      ensures tv == Round(Aggregate(tick.routes, shared.symbols, PosValue, tick.position.value), 6)
      ensures shared.maxTotalValue == Max(old(shared.maxTotalValue), Aggregate(tick.routes, shared.symbols, PosValue, tick.position.value))
    {
      var raw: real;
      if |tick.routes| > 1 {
        raw := SumRoutes(tick.routes, shared.symbols, PosValue);
      } else {
        raw := tick.position.value;
      }
      shared.SaveMaxTotalValue(raw);
      tv := Round(raw, 6);
    }

    /** The collateral used by all routes (own figure on a single route). */
    method TotalCollateralUsed(tick: Tick) returns (tcu: real)
      ensures var own := if tick.position.IsOpen() then tick.ftx.positionImf * tick.position.value else 0.0;
        tcu == Round(Aggregate(tick.routes, shared.symbols, CollateralUsed, own), 6)
    {
      var raw: real;
      if |tick.routes| > 1 {
        raw := SumRoutes(tick.routes, shared.symbols, CollateralUsed);
      } else {
        raw := if tick.position.IsOpen() then tick.ftx.positionImf * tick.position.value else 0.0;
      }
      tcu := Round(raw, 6);
    }

    /** The maintenance collateral of all routes; on a single flat route the
        own figure is NaN. */
    method AccountMaintenanceCollateral(tick: Tick) returns (amc: Option<real>)
      ensures |tick.routes| > 1 ==> amc == Some(Round(RouteSum(tick.routes, shared.symbols, MaintenanceCollateral), 6))
      ensures |tick.routes| <= 1 ==>
        amc == if tick.position.IsOpen() then Some(Round(tick.position.value * tick.ftx.positionMmf, 6)) else None
    {
      if |tick.routes| > 1 {
        var s := SumRoutes(tick.routes, shared.symbols, MaintenanceCollateral);
        amc := Some(Round(s, 6));
      } else if tick.position.IsOpen() {
        amc := Some(Round(tick.position.value * tick.ftx.positionMmf, 6));
      } else {
        amc := None;
      }
    }

    /** The account MMF: NaN when flat; the notional-weighted MMF of all
        routes, or the own MMF weighted by the own share of the total. The
        total is read (raising max_total_value) only once a term needs it:
        on a single route always, over several routes only for a route
        that has published its record. */
    method AccountMmf(tick: Tick) returns (r: Result<Option<real>>)
      requires Valid()
      modifies shared`maxTotalValue
      ensures Valid()
      ensures r == AccountMmfAt(shared.symbols, tick)
      ensures tick.position.IsOpen() && (|tick.routes| <= 1 || AnyPublished(tick.routes, shared.symbols)) ==>
        shared.maxTotalValue == Max(old(shared.maxTotalValue), Aggregate(tick.routes, shared.symbols, PosValue, tick.position.value))
      ensures !tick.position.IsOpen() || (|tick.routes| > 1 && !AnyPublished(tick.routes, shared.symbols)) ==>
        shared.maxTotalValue == old(shared.maxTotalValue)
    {
      if !tick.position.IsOpen() {
        return Ok(None);
      }
      if |tick.routes| > 1 && !AnyPublished(tick.routes, shared.symbols) {
        UnpublishedSum(tick.routes, shared.symbols, PosValue);
        RoundZero(6);
        return Ok(Some(Round(0.0, 6)));
      }
      var tpn := GetTotalValue(tick);
      assert tpn == TotalPositionNotionalAt(shared.symbols, tick);
      if |tick.routes| > 1 {
        var a := AccountMmfSum(tick.routes, shared.symbols, tpn);
        assert a == if tpn == 0.0 then 0.0 else WeightedMmf(tick.routes, shared.symbols) / tpn;
        r := Ok(Some(Round(a, 6)));
      } else if tpn == 0.0 {
        r := Err(ZeroDivision);
      } else {
        r := Ok(Some(Round(WeightedShare(tick.position.value, tpn, tick.ftx.positionMmf), 6)));
      }
    }

    /** check_liquidation: on a breach, build the message (which can fail
        first), then terminate, and raise as well in a backtest that does
        not keep running through liquidations. */
    method CheckLiquidation(mr: real, tick: Tick) returns (r: Result<()>)
      modifies this`terminated
      ensures var a := Guard.LiquidationAction(mr, cfg.marginRatioThreshold, tick.live, cfg.keepRunningInCaseOfLiquidation);
        && (GuardMessageFails(cfg, initialBalance, tick, mr) ==>
              r == GuardMessage(initialBalance, CapAt(cfg, initialBalance, tick)) && terminated == old(terminated))
        && (!GuardMessageFails(cfg, initialBalance, tick, mr) ==>
              && terminated == (old(terminated) || a != Guard.Continue)
              && (r.Err? <==> a == Guard.TerminateAndRaise)
              && (r.Err? ==> r.fault == LiquidationDetected(mr)))
    {
      r := Ok(());
      if mr < 0.0 || mr >= cfg.marginRatioThreshold {
        var shown := GuardMessage(initialBalance, CapAt(cfg, initialBalance, tick));
        if shown.Err? {
          return shown;
        }
        if tick.live {
          terminated := true;
        } else if !cfg.keepRunningInCaseOfLiquidation {
          terminated := true;
          r := Err(LiquidationDetected(mr));
        }
      }
    }

    /** The margin ratio: computed, recorded as a running maximum, then
        checked by the liquidation guard. */
    method MarginRatio(tick: Tick) returns (r: Result<real>)
      requires Valid()
      modifies this`binanceCache, this`bybitCache, this`ftxCache, this`terminated
      modifies shared`maxMarginRatio, shared`maxMarginRatioTs
      ensures Valid()
      ensures var mr := MarginRatioAt(cfg, tables, shared.symbols, initialBalance, tick);
        && (mr.Err? ==> r == Err(mr.fault) && terminated == old(terminated)
                        && shared.maxMarginRatio == old(shared.maxMarginRatio))
        && (mr.Ok? ==>
              var a := Guard.LiquidationAction(mr.value, cfg.marginRatioThreshold, tick.live,
                                               cfg.keepRunningInCaseOfLiquidation);
              && shared.maxMarginRatio == Max(old(shared.maxMarginRatio), mr.value)
              && (GuardMessageFails(cfg, initialBalance, tick, mr.value) ==>
                    r == Err(GuardMessage(initialBalance, CapAt(cfg, initialBalance, tick)).fault)
                    && terminated == old(terminated))
              && (!GuardMessageFails(cfg, initialBalance, tick, mr.value) ==>
                    && terminated == (old(terminated) || a != Guard.Continue)
                    && (r.Err? <==> a == Guard.TerminateAndRaise)
                    && (r.Err? ==> r.fault == LiquidationDetected(mr.value))
                    && (r.Ok? ==> r.value == mr.value)))
    {
      var mm := MaintenanceMargin(tick);
      if mm.Err? {
        return Err(mm.fault);
      }
      var mb := MarginBalance(tick);
      var mr := Metrics.MarginRatio(mm.value, mb);
      if mr.Err? {
        return Err(mr.fault);
      }
      shared.SaveMaxMr(mr.value, tick.now);
      var guard := CheckLiquidation(mr.value, tick);
      if guard.Err? {
        return Err(guard.fault);
      }
      r := Ok(mr.value);
    }

    /** The one-way (or FTX) liquidation price. */
    method Lp1(tick: Tick) returns (r: Result<Option<real>>)
      requires Valid()
      modifies this`binanceCache, this`bybitCache, this`ftxCache
      ensures Valid()
      ensures r == Lp1At(cfg, tables, shared.symbols, initialBalance, tick)
    {
      var pos := tick.position;
      var cap := CapAt(cfg, initialBalance, tick);
      if !pos.IsOpen() {
        return Ok(None);
      }
      if IsFtx(cfg.exchange) {
        var mf := Metrics.MarginFraction(true, cap, pos.value);
        if mf.Err? {
          return Err(mf.fault);
        }
        if pos.IsShort() {
          return Err(MathDomain);
        }
        return Ok(Some(Metrics.Lp1Ftx(tick.close, mf.value.value, tick.ftx.maintenanceMarginFraction)));
      }
      var tmm1 := Tmm1(tick);
      var upnl1 := Upnl1(tick);
      var limits := RiskLimits(tick, None, false);
      var tier := TierOf(limits);
      if tier.Err? {
        return Err(tier.fault);
      }
      var p := Metrics.Lp1Binance(cap, tmm1, upnl1, tier.value.maintAmount, pos.IsLong(), Abs(pos.qty),
                                  AvgEntryPrice(pos, tick.averageEntryPrice, tick.live), tier.value.maintMarginRatio);
      if p.Err? {
        return Err(p.fault);
      }
      r := Ok(Some(p.value));
    }

    /** The liquidation-price rate, recorded as a running maximum; a rate
        that moves the maximum is logged with the liquidation price, which
        is evaluated again for the message. */
    method LpRate(tick: Tick) returns (r: Result<Option<real>>)
      requires Valid()
      modifies this`binanceCache, this`bybitCache, this`ftxCache
      modifies shared`maxLpRatio, shared`maxLpRatioTs
      ensures Valid()
      ensures r == LpRateOutcome(cfg, tables, shared.symbols, initialBalance, tick, old(shared.maxLpRatio))
      ensures var rate := LpRateAt(cfg, tables, shared.symbols, initialBalance, tick);
        shared.maxLpRatio == if rate.Ok? then LpMax(old(shared.maxLpRatio), rate.value) else old(shared.maxLpRatio)
      ensures var rate := LpRateAt(cfg, tables, shared.symbols, initialBalance, tick);
        shared.maxLpRatioTs ==
          if rate.Ok? && rate.value.Some? && MaxLpMoves(old(shared.maxLpRatio), rate.value.value) then Some(tick.now)
          else old(shared.maxLpRatioTs)
    {
      var pos := tick.position;
      if !pos.IsOpen() {
        return Ok(None);
      }
      var lp: Result<Option<real>>;
      if IsFtx(cfg.exchange) {
        lp := ZeroPriceAt(cfg, initialBalance, tick);
      } else {
        lp := Lp1(tick);
      }
      if lp.Err? {
        return Err(lp.fault);
      }
      if lp.value.None? {
        return Ok(None);
      }
      r := Metrics.LpRate(true, pos.IsLong(), lp.value.value, tick.close);
      if r.Ok? && r.value.Some? {
        var logged := SaveMaxLpRatio(r.value.value, tick);
        if logged.Err? {
          r := Err(logged.fault);
        }
      }
    }

    /** save_max_lp_ratio: keep the largest rate, and when it moves, build
        the log message, which evaluates the liquidation price. */
    method SaveMaxLpRatio(rate: real, tick: Tick) returns (r: Result<()>)
      requires Valid()
      modifies this`binanceCache, this`bybitCache, this`ftxCache
      modifies shared`maxLpRatio, shared`maxLpRatioTs
      ensures Valid()
      ensures shared.maxLpRatio == LpMax(old(shared.maxLpRatio), Some(rate))
      ensures shared.maxLpRatioTs == if MaxLpMoves(old(shared.maxLpRatio), rate) then Some(tick.now) else old(shared.maxLpRatioTs)
      ensures var lp := Lp1At(cfg, tables, shared.symbols, initialBalance, tick);
        r == if MaxLpMoves(old(shared.maxLpRatio), rate) && lp.Err? then Err(lp.fault) else Ok(())
    {
      var stored := shared.maxLpRatio;
      shared.SaveMaxLpRatio(rate, tick.now);
      assert shared.maxLpRatio != stored <==> MaxLpMoves(stored, rate);
      r := Ok(());
      if shared.maxLpRatio != stored {
        var shown := Lp1(tick);
        if shown.Err? {
          r := Err(shown.fault);
        }
      }
    }

    /** test_leverage: FTX passes; otherwise the leverage is checked against
        the tier of a zero-size position (which Binance reads as the current
        position value). Some(false) reports a violation, None no verdict. */
    method TestLeverage(tick: Tick) returns (r: Result<Option<bool>>)
      requires Valid()
      modifies this`binanceCache, this`bybitCache, this`ftxCache
      ensures Valid()
      ensures IsFtx(cfg.exchange) ==> r == Ok(Some(true))
      ensures !IsFtx(cfg.exchange) ==>
        var v := LeverageViolation(cfg.leverage, LimitsAt(cfg, tables, tick, Some(0.0)));
        && (r.Ok? <==> v.Ok?) && (r.Err? ==> r.fault == v.fault)
        && (r.Ok? ==> (r.value == Some(false) <==> v.value) && (r.value.None? <==> !v.value))
    {
      if IsFtx(cfg.exchange) {
        return Ok(Some(true));
      }
      var limits := RiskLimits(tick, Some(0.0), false);
      var v := LeverageViolation(cfg.leverage, limits);
      if v.Err? {
        return Err(v.fault);
      }
      r := if v.value then Ok(Some(false)) else Ok(None);
    }

    /** test_max_pos_size_vs_leverage: the leverage against the tier of the
        largest position value of the session. */
    method TestMaxPosSizeVsLeverage(tick: Tick) returns (r: Result<Option<bool>>)
      requires Valid()
      modifies this`binanceCache, this`bybitCache, this`ftxCache
      ensures Valid()
      ensures var v := LeverageViolation(cfg.leverage, LimitsAt(cfg, tables, tick, Some(maxPositionValue)));
        && (r.Ok? <==> v.Ok?)
        && (r.Ok? ==> (r.value == Some(false) <==> v.value) && (r.value.None? <==> !v.value))
        && (r.Err? ==> r.fault == v.fault)
    {
      var limits := RiskLimits(tick, Some(maxPositionValue), false);
      var v := LeverageViolation(cfg.leverage, limits);
      if v.Err? {
        return Err(v.fault);
      }
      r := if v.value then Ok(Some(false)) else Ok(None);
    }

    /** check_limits_before_order: whether its warning is printed, that is,
        whether the leverage exceeds the tier of the intended position size
        (the current value when none is given). The source itself only
        prints and returns nothing. */
    method CheckLimitsBeforeOrder(tick: Tick, psize: Option<real>) returns (r: Result<bool>)
      requires Valid()
      modifies this`binanceCache, this`bybitCache, this`ftxCache
      ensures Valid()
      ensures r == LeverageViolation(cfg.leverage, LimitsAt(cfg, tables, tick, Some(psize.GetOr(tick.position.value))))
    {
      var size := if psize.None? then tick.position.value else psize.value;
      var limits := RiskLimits(tick, Some(size), false);
      r := LeverageViolation(cfg.leverage, limits);
    }

    /** update_shared_vars: publish the route's record, then refresh the
        account figures in order; an exception leaves what was already
        written in place. */
    method UpdateSharedVars(tick: Tick) returns (r: Result<()>)
      requires Valid()
      modifies this`binanceCache, this`bybitCache, this`ftxCache, this`terminated
      modifies this`maxPositionValue, this`maxInsuffMarginCount, shared`symbols
      modifies shared`ts, shared`totalValue, shared`maxTotalValue, shared`unrealizedPnl, shared`marginBalance, shared`maintMargin
      modifies shared`maxMarginRatio, shared`maxMarginRatioTs, shared`marginRatio, shared`minMargin
      modifies shared`maxLpRatio, shared`maxLpRatioTs, shared`lpRate, shared`insuffMarginCount
      ensures Valid()
      ensures maxPositionValue >= old(maxPositionValue)
      ensures shared.maxTotalValue >= old(shared.maxTotalValue)
      ensures shared.maxMarginRatio >= old(shared.maxMarginRatio)
      ensures var am := Metrics.AvailableMargin(tick.live, tick.frameworkAvailableMargin, cfg.leverage);
        shared.minMargin == old(shared.minMargin) || shared.minMargin == Min(old(shared.minMargin), am)
      ensures RecordAt(cfg, tables, tick).Err? ==> terminated == old(terminated)
      ensures RecordAt(cfg, tables, tick).Ok? ==>
        terminated == GuardedTermination(cfg, tables, shared.symbols, initialBalance, tick, old(terminated))
      ensures r.Ok? ==>
        var rate := LpRateAt(cfg, tables, shared.symbols, initialBalance, tick);
        rate.Ok? && shared.maxLpRatio == LpMax(old(shared.maxLpRatio), rate.value)
      ensures r.Err? ==> shared.maxLpRatio == old(shared.maxLpRatio)
      ensures RecordAt(cfg, tables, tick).Err? ==>
        && r == Err(RecordAt(cfg, tables, tick).fault) && shared.symbols == old(shared.symbols)
        && shared.maxTotalValue == old(shared.maxTotalValue) && shared.maxMarginRatio == old(shared.maxMarginRatio)
        && shared.minMargin == old(shared.minMargin)
        && shared.ts == old(shared.ts) && shared.totalValue == old(shared.totalValue)
        && shared.unrealizedPnl == old(shared.unrealizedPnl) && shared.marginBalance == old(shared.marginBalance)
        && shared.maintMargin == old(shared.maintMargin) && maxPositionValue == old(maxPositionValue)
      ensures RecordAt(cfg, tables, tick).Ok? ==>
        var rec := RecordAt(cfg, tables, tick).value;
        var mr := MarginRatioAt(cfg, tables, shared.symbols, initialBalance, tick);
        && shared.symbols == old(shared.symbols)[cfg.symbol := rec]
        && maxPositionValue == Max(old(maxPositionValue), rec.posValue)
        && shared.maxTotalValue == Max(old(shared.maxTotalValue), Aggregate(tick.routes, shared.symbols, PosValue, tick.position.value))
        && shared.maxMarginRatio == (if mr.Ok? then Max(old(shared.maxMarginRatio), mr.value) else old(shared.maxMarginRatio))
        && shared.ts == tick.now
        && shared.totalValue == Round(Aggregate(tick.routes, shared.symbols, PosValue, tick.position.value), 6)
        && shared.unrealizedPnl == UnrealPnlAt(shared.symbols, tick)
        && shared.marginBalance == MarginBalanceAt(cfg, shared.symbols, initialBalance, tick)
        && shared.maintMargin == MaintenanceMarginAt(cfg, tables, tick).value
      ensures r.Ok? ==>
        && MarginRatioAt(cfg, tables, shared.symbols, initialBalance, tick).Ok?
        && shared.marginRatio == MarginRatioAt(cfg, tables, shared.symbols, initialBalance, tick).value
        && shared.minMargin == Min(old(shared.minMargin), Metrics.AvailableMargin(tick.live, tick.frameworkAvailableMargin, cfg.leverage))
        && LpRateAt(cfg, tables, shared.symbols, initialBalance, tick).Ok?
        && shared.lpRate == LpRateAt(cfg, tables, shared.symbols, initialBalance, tick).value
        && shared.insuffMarginCount == tick.insuffMarginCount
        && maxInsuffMarginCount == if tick.insuffMarginCount > old(maxInsuffMarginCount) then tick.insuffMarginCount
                                   else old(maxInsuffMarginCount)
    {
      var ok := PublishRecord(tick);
      if !ok {
        return Err(RecordAt(cfg, tables, tick).fault);
      }
      r := RefreshAccount(tick);
    }

    /** The account part of update_shared_vars, once the record is published:
        the totals, then the risk figures. */
    method RefreshAccount(tick: Tick) returns (r: Result<()>)
      requires Valid()
      requires MaintenanceMarginAt(cfg, tables, tick).Ok?
      modifies this`binanceCache, this`bybitCache, this`ftxCache, this`terminated, this`maxInsuffMarginCount
      modifies shared`ts, shared`totalValue, shared`maxTotalValue, shared`unrealizedPnl, shared`marginBalance, shared`maintMargin
      modifies shared`maxMarginRatio, shared`maxMarginRatioTs, shared`marginRatio, shared`minMargin
      modifies shared`maxLpRatio, shared`maxLpRatioTs, shared`lpRate, shared`insuffMarginCount
      ensures Valid()
      ensures terminated == GuardedTermination(cfg, tables, shared.symbols, initialBalance, tick, old(terminated))
      ensures r.Ok? ==>
        var rate := LpRateAt(cfg, tables, shared.symbols, initialBalance, tick);
        rate.Ok? && shared.maxLpRatio == LpMax(old(shared.maxLpRatio), rate.value)
      ensures r.Err? && !(IsFtx(cfg.exchange) && tick.position.IsShort()) ==>
        shared.maxLpRatio == old(shared.maxLpRatio)
      ensures var mr := MarginRatioAt(cfg, tables, shared.symbols, initialBalance, tick);
        && shared.maxTotalValue == Max(old(shared.maxTotalValue), Aggregate(tick.routes, shared.symbols, PosValue, tick.position.value))
        && shared.maxMarginRatio == (if mr.Ok? then Max(old(shared.maxMarginRatio), mr.value) else old(shared.maxMarginRatio))
        && shared.ts == tick.now
        && shared.totalValue == Round(Aggregate(tick.routes, shared.symbols, PosValue, tick.position.value), 6)
        && shared.unrealizedPnl == UnrealPnlAt(shared.symbols, tick)
        && shared.marginBalance == MarginBalanceAt(cfg, shared.symbols, initialBalance, tick)
        && shared.maintMargin == MaintenanceMarginAt(cfg, tables, tick).value
      ensures var am := Metrics.AvailableMargin(tick.live, tick.frameworkAvailableMargin, cfg.leverage);
        shared.minMargin == old(shared.minMargin) || shared.minMargin == Min(old(shared.minMargin), am)
      ensures r.Ok? ==>
        && MarginRatioAt(cfg, tables, shared.symbols, initialBalance, tick).Ok?
        && shared.marginRatio == MarginRatioAt(cfg, tables, shared.symbols, initialBalance, tick).value
        && shared.minMargin == Min(old(shared.minMargin), Metrics.AvailableMargin(tick.live, tick.frameworkAvailableMargin, cfg.leverage))
        && LpRateAt(cfg, tables, shared.symbols, initialBalance, tick).Ok?
        && shared.lpRate == LpRateAt(cfg, tables, shared.symbols, initialBalance, tick).value
        && shared.insuffMarginCount == tick.insuffMarginCount
        && maxInsuffMarginCount == if tick.insuffMarginCount > old(maxInsuffMarginCount) then tick.insuffMarginCount
                                   else old(maxInsuffMarginCount)
    {
      RefreshTotals(tick);
      r := RefreshRisk(tick);
    }

    /** The record part of update_shared_vars: evaluate the record (which
        may raise), publish it, and track the largest position value. */
    method PublishRecord(tick: Tick) returns (ok: bool)
      requires Valid()
      modifies this`binanceCache, this`bybitCache, this`ftxCache, this`maxPositionValue, shared`symbols
      ensures Valid()
      ensures ok <==> RecordAt(cfg, tables, tick).Ok?
      ensures !ok ==> shared.symbols == old(shared.symbols) && maxPositionValue == old(maxPositionValue)
      ensures ok ==>
        && shared.symbols == old(shared.symbols)[cfg.symbol := RecordAt(cfg, tables, tick).value]
        && maxPositionValue == Max(old(maxPositionValue), RecordAt(cfg, tables, tick).value.posValue)
    {
      var mm := MaintenanceMargin(tick);
      var rec := RecordAt(cfg, tables, tick);
      if rec.Err? {
        return false;
      }
      shared.Publish(cfg.symbol, rec.value);
      maxPositionValue := Max(maxPositionValue, rec.value.posValue);
      ok := true;
    }

    /** The account totals part of update_shared_vars. */
    method RefreshTotals(tick: Tick)
      requires Valid()
      requires MaintenanceMarginAt(cfg, tables, tick).Ok?
      modifies this`binanceCache, this`bybitCache, this`ftxCache
      modifies shared`ts, shared`totalValue, shared`maxTotalValue, shared`unrealizedPnl, shared`marginBalance, shared`maintMargin
      ensures Valid()
      ensures shared.maxTotalValue == Max(old(shared.maxTotalValue), Aggregate(tick.routes, shared.symbols, PosValue, tick.position.value))
      ensures shared.ts == tick.now
      ensures shared.totalValue == Round(Aggregate(tick.routes, shared.symbols, PosValue, tick.position.value), 6)
      ensures shared.unrealizedPnl == UnrealPnlAt(shared.symbols, tick)
      ensures shared.marginBalance == MarginBalanceAt(cfg, shared.symbols, initialBalance, tick)
      ensures shared.maintMargin == MaintenanceMarginAt(cfg, tables, tick).value
    {
      shared.ts := tick.now;
      var tv := GetTotalValue(tick);
      shared.totalValue := tv;
      var u := UnrealPnl(tick);
      shared.unrealizedPnl := u;
      var mb := MarginBalance(tick);
      shared.marginBalance := mb;
      var mm := MaintenanceMargin(tick);
      shared.maintMargin := mm.value;
    }

    /** The risk part of update_shared_vars: margin ratio (guarded), minimum
        margin, liquidation-price rate and the insufficient-margin count. */
    method RefreshRisk(tick: Tick) returns (r: Result<()>)
      requires Valid()
      modifies this`binanceCache, this`bybitCache, this`ftxCache, this`terminated, this`maxInsuffMarginCount
      modifies shared`maxMarginRatio, shared`maxMarginRatioTs, shared`marginRatio, shared`minMargin
      modifies shared`maxLpRatio, shared`maxLpRatioTs, shared`lpRate, shared`insuffMarginCount
      ensures Valid()
      ensures terminated == GuardedTermination(cfg, tables, shared.symbols, initialBalance, tick, old(terminated))
      ensures r.Ok? ==>
        var rate := LpRateAt(cfg, tables, shared.symbols, initialBalance, tick);
        rate.Ok? && shared.maxLpRatio == LpMax(old(shared.maxLpRatio), rate.value)
      ensures r.Err? && !(IsFtx(cfg.exchange) && tick.position.IsShort()) ==>
        shared.maxLpRatio == old(shared.maxLpRatio)
      ensures var mr := MarginRatioAt(cfg, tables, shared.symbols, initialBalance, tick);
        shared.maxMarginRatio == if mr.Ok? then Max(old(shared.maxMarginRatio), mr.value) else old(shared.maxMarginRatio)
      ensures var am := Metrics.AvailableMargin(tick.live, tick.frameworkAvailableMargin, cfg.leverage);
        shared.minMargin == old(shared.minMargin) || shared.minMargin == Min(old(shared.minMargin), am)
      ensures r.Ok? ==>
        && MarginRatioAt(cfg, tables, shared.symbols, initialBalance, tick).Ok?
        && shared.marginRatio == MarginRatioAt(cfg, tables, shared.symbols, initialBalance, tick).value
        && shared.minMargin == Min(old(shared.minMargin), Metrics.AvailableMargin(tick.live, tick.frameworkAvailableMargin, cfg.leverage))
        && LpRateAt(cfg, tables, shared.symbols, initialBalance, tick).Ok?
        && shared.lpRate == LpRateAt(cfg, tables, shared.symbols, initialBalance, tick).value
        && shared.insuffMarginCount == tick.insuffMarginCount
        && maxInsuffMarginCount == if tick.insuffMarginCount > old(maxInsuffMarginCount) then tick.insuffMarginCount
                                   else old(maxInsuffMarginCount)
    {
      r := RefreshMarginRatio(tick);
      if r.Ok? {
        r := RefreshLpRate(tick);
        if !(IsFtx(cfg.exchange) && tick.position.IsShort()) {
          LpMessageHarmless(cfg, tables, shared.symbols, initialBalance, tick, old(shared.maxLpRatio));
        }
      }
    }

    /** The margin ratio and the minimum available margin of the update. */
    method RefreshMarginRatio(tick: Tick) returns (r: Result<()>)
      requires Valid()
      modifies this`binanceCache, this`bybitCache, this`ftxCache, this`terminated
      modifies shared`maxMarginRatio, shared`maxMarginRatioTs, shared`marginRatio, shared`minMargin
      ensures Valid()
      ensures terminated == GuardedTermination(cfg, tables, shared.symbols, initialBalance, tick, old(terminated))
      ensures var mr := MarginRatioAt(cfg, tables, shared.symbols, initialBalance, tick);
        shared.maxMarginRatio == if mr.Ok? then Max(old(shared.maxMarginRatio), mr.value) else old(shared.maxMarginRatio)
      ensures var am := Metrics.AvailableMargin(tick.live, tick.frameworkAvailableMargin, cfg.leverage);
        shared.minMargin == old(shared.minMargin) || shared.minMargin == Min(old(shared.minMargin), am)
      ensures r.Ok? ==>
        && MarginRatioAt(cfg, tables, shared.symbols, initialBalance, tick).Ok?
        && shared.marginRatio == MarginRatioAt(cfg, tables, shared.symbols, initialBalance, tick).value
        && shared.minMargin == Min(old(shared.minMargin), Metrics.AvailableMargin(tick.live, tick.frameworkAvailableMargin, cfg.leverage))
    {
      var mr := MarginRatio(tick);
      if mr.Err? {
        return Err(mr.fault);
      }
      shared.marginRatio := mr.value;
      shared.minMargin := Min(shared.minMargin, Metrics.AvailableMargin(tick.live, tick.frameworkAvailableMargin, cfg.leverage));
      r := Ok(());
    }

    /** The liquidation-price rate and the insufficient-margin count of the
        update. */
    method RefreshLpRate(tick: Tick) returns (r: Result<()>)
      requires Valid()
      modifies this`binanceCache, this`bybitCache, this`ftxCache, this`maxInsuffMarginCount
      modifies shared`maxLpRatio, shared`maxLpRatioTs, shared`lpRate, shared`insuffMarginCount
      ensures Valid()
      ensures r.Err? <==> LpRateOutcome(cfg, tables, shared.symbols, initialBalance, tick, old(shared.maxLpRatio)).Err?
      ensures var rate := LpRateAt(cfg, tables, shared.symbols, initialBalance, tick);
        shared.maxLpRatio == if rate.Ok? then LpMax(old(shared.maxLpRatio), rate.value) else old(shared.maxLpRatio)
      ensures r.Ok? ==>
        && LpRateAt(cfg, tables, shared.symbols, initialBalance, tick).Ok?
        && shared.lpRate == LpRateAt(cfg, tables, shared.symbols, initialBalance, tick).value
        && shared.insuffMarginCount == tick.insuffMarginCount
        && maxInsuffMarginCount == if tick.insuffMarginCount > old(maxInsuffMarginCount) then tick.insuffMarginCount
                                   else old(maxInsuffMarginCount)
    {
      var lp := LpRate(tick);
      if lp.Err? {
        return Err(lp.fault);
      }
      shared.lpRate := lp.value;
      shared.insuffMarginCount := tick.insuffMarginCount;
      if tick.insuffMarginCount > maxInsuffMarginCount {
        maxInsuffMarginCount := tick.insuffMarginCount;
      }
      r := Ok(());
    }

    /** The first-run part of the session start: test the leverage (which
        raises when no tier can be read), then open the session. */
    method StartSession(tick: Tick) returns (r: Result<()>)
      requires Valid()
      modifies this`binanceCache, this`bybitCache, this`ftxCache, this`terminated
      modifies this`maxPositionValue, this`maxInsuffMarginCount, this`initialBalance, shared
      ensures Valid()
      ensures var lev := LeverageViolation(cfg.leverage, LimitsAt(cfg, tables, tick, Some(0.0)));
        !IsFtx(cfg.exchange) && lev.Err? ==>
          r == Err(lev.fault) && initialBalance == old(initialBalance) && unchanged(shared)
      ensures IsFtx(cfg.exchange) || LeverageViolation(cfg.leverage, LimitsAt(cfg, tables, tick, Some(0.0))).Ok? ==>
        SessionOpened(tick, r, old(shared.symbols), old(terminated), old(maxPositionValue), old(maxInsuffMarginCount))
    {
      var lev := TestLeverage(tick);
      if lev.Err? {
        return Err(lev.fault);
      }
      r := OpenSession(tick);
    }

    /** The state once a session is opened: the starting balance is
        recorded, the registry's session figures are reset, and the first
        update has run on them. */
    ghost predicate SessionOpened(tick: Tick, r: Result<()>, symbols0: map<string, SymbolRecord>, terminated0: bool,
                                  maxPositionValue0: real, maxInsuffMarginCount0: int)
      reads this, shared
    {
      var rec := RecordAt(cfg, tables, tick);
      var mr := MarginRatioAt(cfg, tables, shared.symbols, initialBalance, tick);
      var rate := LpRateAt(cfg, tables, shared.symbols, initialBalance, tick);
      && initialBalance == tick.balance
      && shared.freeBalance == tick.balance && shared.previousBalance == tick.balance
      && shared.lockedBalance == 0.0 && !shared.marginAlert
      && shared.minMargin == Metrics.AvailableMargin(tick.live, tick.frameworkAvailableMargin, cfg.leverage)
      && shared.maxLpRatio == (if r.Ok? && rate.Ok? then rate.value else None)
      && terminated == (if rec.Ok? then GuardedTermination(cfg, tables, shared.symbols, initialBalance, tick, terminated0)
                        else terminated0)
      && (rec.Err? ==>
            && r == Err(rec.fault) && shared.symbols == symbols0
            && shared.maxTotalValue == 0.0 && shared.maxMarginRatio == 0.0
            && shared.ts == 0 && shared.totalValue == 0.0 && shared.unrealizedPnl == 0.0
            && shared.marginBalance == 0.0 && shared.maintMargin == 0.0
            && maxPositionValue == maxPositionValue0)
      && (rec.Ok? ==>
            && shared.symbols == symbols0[cfg.symbol := rec.value]
            && maxPositionValue == Max(maxPositionValue0, rec.value.posValue)
            && shared.maxTotalValue == Max(0.0, Aggregate(tick.routes, shared.symbols, PosValue, tick.position.value))
            && shared.maxMarginRatio == (if mr.Ok? then Max(0.0, mr.value) else 0.0)
            && shared.ts == tick.now
            && shared.totalValue == Round(Aggregate(tick.routes, shared.symbols, PosValue, tick.position.value), 6)
            && shared.unrealizedPnl == UnrealPnlAt(shared.symbols, tick)
            && shared.marginBalance == MarginBalanceAt(cfg, shared.symbols, initialBalance, tick)
            && shared.maintMargin == MaintenanceMarginAt(cfg, tables, tick).value)
      && (r.Ok? ==>
            && rec.Ok? && mr.Ok? && rate.Ok? && shared.marginRatio == mr.value
            && shared.lpRate == rate.value && shared.insuffMarginCount == tick.insuffMarginCount
            && maxInsuffMarginCount == (if tick.insuffMarginCount > maxInsuffMarginCount0 then tick.insuffMarginCount
                                        else maxInsuffMarginCount0))
    }

    /** Remember the starting balance, reset the registry's session figures,
        and run the first update. */
    method OpenSession(tick: Tick) returns (r: Result<()>)
      requires Valid()
      modifies this`binanceCache, this`bybitCache, this`ftxCache, this`terminated
      modifies this`maxPositionValue, this`maxInsuffMarginCount, this`initialBalance, shared
      ensures Valid()
      ensures SessionOpened(tick, r, old(shared.symbols), old(terminated), old(maxPositionValue), old(maxInsuffMarginCount))
    {
      initialBalance := tick.balance;
      var am := Metrics.AvailableMargin(tick.live, tick.frameworkAvailableMargin, cfg.leverage);
      shared.StartSession(tick.balance, am);
      r := UpdateSharedVars(tick);
    }
  }

  /** Two routes built on one registry: the record the first publishes is
      what the second reads as the maintenance margin of its siblings. */
  method SiblingSeesPublishedMargin(cfgA: Config, cfgB: Config, tables: RuleTables, tick: Tick) returns (tmm1: real)
    requires cfgA.symbol != cfgB.symbol
    requires tick.routes == [cfgA.symbol, cfgB.symbol]
    ensures RecordAt(cfgA, tables, tick).Ok? ==> tmm1 == RecordAt(cfgA, tables, tick).value.maintenanceMargin
    ensures RecordAt(cfgA, tables, tick).Err? ==> tmm1 == 0.0
  {
    var shared := new SharedVars();
    var a := new Strat(cfgA, tables, shared);
    var b := new Strat(cfgB, tables, shared);
    var ok := a.PublishRecord(tick);
    tmm1 := b.Tmm1(tick);
    assert tick.routes[..1] == [cfgA.symbol] && [cfgA.symbol][..0] == [];
    assert OthersSum([cfgA.symbol], shared.symbols, MaintMargin, cfgB.symbol)
        == Entry(shared.symbols, cfgA.symbol, MaintMargin);
    if !ok {
      assert shared.symbols == map[];
    }
  }
}
