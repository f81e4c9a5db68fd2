/** Risk tier resolution: the exchange rule tables (Binance leverage
    brackets, Bybit risk limits, FTX margin parameters), the scan that picks
    the tier for a position size, and the dispatch on the exchange. */
module Tiers {
  import opened Common
  import Symbols

  /** One Binance leverage bracket, in the order of the rule file. */
  datatype BinanceBracket = BinanceBracket(
    bracket: int,
    initialLeverage: real,
    notionalCap: real,
    notionalFloor: real,
    maintMarginRatio: real,
    cum: real)

  /** One Bybit risk limit, in the order of the rule file. */
  datatype BybitRiskLimit = BybitRiskLimit(
    id: int,
    limit: real,
    maintainMargin: real,
    startingMargin: real,
    maxLeverage: real,
    isLowestRisk: int)

  /** The FTX per-symbol margin parameters. */
  datatype FtxRiskParams = FtxRiskParams(imfFactor: real, imfWeight: real, mmfWeight: real)

  /** The tables the rule loaders supply for the traded symbol. */
  datatype RuleTables = RuleTables(
    binance: seq<BinanceBracket>,
    bybit: seq<BybitRiskLimit>,
    ftx: FtxRiskParams)

  /** The canonical tier record both tier resolvers return. */
  datatype RiskTier = RiskTier(
    bracket: int,
    initialLeverage: real,
    notionalCap: real,
    notionalFloor: real,
    maintMarginRatio: real,
    maintAmount: real)

  /** What the risk limit lookup returns for a known exchange. */
  datatype RiskLimits = Tiered(tier: RiskTier) | Continuous(params: FtxRiskParams)

  datatype Venue = BinanceVenue | BybitVenue | FtxVenue

  /** Maintenance margin ratio when the position is beyond every Binance bracket. */
  const BinanceFallbackRatio: real := 0.75
  /** Maintenance margin ratio when the position is beyond every Bybit limit. */
  const BybitFallbackRatio: real := 0.10

  function Caps(brackets: seq<BinanceBracket>): (c: seq<real>)
    ensures |c| == |brackets|
    ensures forall i :: 0 <= i < |brackets| ==> c[i] == brackets[i].notionalCap
  {
    seq(|brackets|, i requires 0 <= i < |brackets| => brackets[i].notionalCap)
  }

  function Limits(limits: seq<BybitRiskLimit>): (c: seq<real>)
    ensures |c| == |limits|
    ensures forall i :: 0 <= i < |limits| ==> c[i] == limits[i].limit
  {
    seq(|limits|, i requires 0 <= i < |limits| => limits[i].limit)
  }

  /** The index of the first cap, in table order, above the position size. */
  function FirstBelow(caps: seq<real>, psize: real): (r: Option<nat>)
    ensures r.Some? ==> r.value < |caps| && psize < caps[r.value]
    ensures r.Some? ==> forall j :: 0 <= j < r.value ==> psize >= caps[j]
    ensures r.None? ==> forall j :: 0 <= j < |caps| ==> psize >= caps[j]
  {
    if caps == [] then None
    else if psize < caps[0] then Some(0)
    else match FirstBelow(caps[1..], psize)
      case None => None
      case Some(i) => Some(i + 1)
  }

  /** A larger position never selects an earlier bracket, whatever the
      order of the caps. */
  lemma FirstBelowMonotone(caps: seq<real>, p1: real, p2: real)
    requires p1 <= p2 && FirstBelow(caps, p2).Some?
    ensures FirstBelow(caps, p1).Some?
    ensures FirstBelow(caps, p1).value <= FirstBelow(caps, p2).value
  {
    var k := FirstBelow(caps, p2).value;
    assert p1 < caps[k];
  }

  /** `if not psize`: an absent or zero size means the current position value. */
  function BinancePsize(psize: Option<real>, positionValue: real): real {
    if psize == None || psize == Some(0.0) then positionValue else psize.value
  }

  /** `if psize is None`: only an absent size means the current position value. */
  function BybitPsize(psize: Option<real>, positionValue: real): real {
    if psize == None then positionValue else psize.value
  }

  /** A size of zero is read differently by the two resolvers. */
  lemma ZeroSizeQuirk(positionValue: real)
    ensures BinancePsize(Some(0.0), positionValue) == positionValue
    ensures BybitPsize(Some(0.0), positionValue) == 0.0
  {
  }

  /** The Binance tier for a position size: the first bracket whose cap
      exceeds the size, its ratio overridden by a fixed ratio; beyond every
      bracket, ratio 0.75 and every other field 0. */
  function BinanceTier(brackets: seq<BinanceBracket>, psize: real, fixed: Option<real>): RiskTier {
    match FirstBelow(Caps(brackets), psize)
    case Some(i) =>
      var b := brackets[i];
      RiskTier(b.bracket, b.initialLeverage, b.notionalCap, b.notionalFloor,
               fixed.GetOr(b.maintMarginRatio), b.cum)
    case None => RiskTier(0, 0.0, 0.0, 0.0, BinanceFallbackRatio, 0.0)
  }

  /** A fixed ratio replaces the ratio of the selected Binance bracket and
      nothing else; the fallback keeps its 0.75. */
  lemma BinanceFixedOverride(brackets: seq<BinanceBracket>, psize: real, f: real)
    ensures var fixedTier, plainTier := BinanceTier(brackets, psize, Some(f)), BinanceTier(brackets, psize, None);
      && fixedTier.(maintMarginRatio := plainTier.maintMarginRatio) == plainTier
      && (fixedTier.maintMarginRatio == f || fixedTier == plainTier)
  {
  }

  /** The loop of the Binance resolver over the brackets. */
  method ScanBinanceBrackets(brackets: seq<BinanceBracket>, psize: real, fixed: Option<real>)
    returns (r: RiskTier)
    ensures r == BinanceTier(brackets, psize, fixed)
  {
    var i := 0;
    while i < |brackets|
      invariant 0 <= i <= |brackets|
      invariant forall j :: 0 <= j < i ==> psize >= brackets[j].notionalCap
    {
      var b := brackets[i];
      if psize < b.notionalCap {
        var ratio := if fixed.Some? then fixed.value else b.maintMarginRatio;
        r := RiskTier(b.bracket, b.initialLeverage, b.notionalCap, b.notionalFloor, ratio, b.cum);
        assert FirstBelow(Caps(brackets), psize) == Some(i);
        return;
      }
      i := i + 1;
    }
    r := RiskTier(0, 0.0, 0.0, 0.0, BinanceFallbackRatio, 0.0);
  }

  /** The bracket at index i, when it is the first to exceed the size, is
      copied into the tier, with its cum as the maintenance amount. */
  lemma BinanceTierIsFirstBracket(brackets: seq<BinanceBracket>, psize: real, fixed: Option<real>, i: nat)
    requires i < |brackets| && psize < brackets[i].notionalCap
    requires forall j :: 0 <= j < i ==> psize >= brackets[j].notionalCap
    ensures var t := BinanceTier(brackets, psize, fixed);
      && t.bracket == brackets[i].bracket
      && t.initialLeverage == brackets[i].initialLeverage
      && t.notionalCap == brackets[i].notionalCap
      && t.notionalFloor == brackets[i].notionalFloor
      && t.maintMarginRatio == (if fixed.Some? then fixed.value else brackets[i].maintMarginRatio)
      && t.maintAmount == brackets[i].cum
  {
    var f := FirstBelow(Caps(brackets), psize);
    assert f.Some? by { assert psize < Caps(brackets)[i]; }
    assert f.value == i;
  }

  /** Beyond every bracket the tier is the 0.75 fallback with amount 0,
      whether or not a fixed ratio is set. */
  lemma BinanceTierFallback(brackets: seq<BinanceBracket>, psize: real, fixed: Option<real>)
    requires forall j :: 0 <= j < |brackets| ==> psize >= brackets[j].notionalCap
    ensures BinanceTier(brackets, psize, fixed) == RiskTier(0, 0.0, 0.0, 0.0, 0.75, 0.0)
  {
  }

  /** Ratios that do not decrease along the table and stay within the
      fallback ratio. */
  ghost predicate RiskIncreasing(brackets: seq<BinanceBracket>) {
    && (forall i, j :: 0 <= i < j < |brackets| ==> brackets[i].maintMarginRatio <= brackets[j].maintMarginRatio)
    && (forall i :: 0 <= i < |brackets| ==> brackets[i].maintMarginRatio <= BinanceFallbackRatio)
  }

  /** On a risk-increasing table, a larger position never gets a smaller
      maintenance margin ratio, the fallback included. */
  lemma BinanceRatioMonotone(brackets: seq<BinanceBracket>, p1: real, p2: real)
    requires RiskIncreasing(brackets) && p1 <= p2
    ensures BinanceTier(brackets, p1, None).maintMarginRatio <= BinanceTier(brackets, p2, None).maintMarginRatio
  {
    var caps := Caps(brackets);
    if FirstBelow(caps, p2).Some? {
      FirstBelowMonotone(caps, p1, p2);
    } else if FirstBelow(caps, p1).Some? {
      assert brackets[FirstBelow(caps, p1).value].maintMarginRatio <= BinanceFallbackRatio;
    }
  }

  /** The Binance table of the scenario: caps 50000 and 250000, ratios
      0.004 and 0.005, maintenance amounts 0 and 50. */
  lemma BinanceScenario()
    ensures var t := [BinanceBracket(1, 125.0, 50000.0, 0.0, 0.004, 0.0),
                      BinanceBracket(2, 100.0, 250000.0, 50000.0, 0.005, 50.0)];
      && BinanceTier(t, 30000.0, None).maintMarginRatio == 0.004
      && BinanceTier(t, 30000.0, None).maintAmount == 0.0
      && BinanceTier(t, 100000.0, None).maintMarginRatio == 0.005
      && BinanceTier(t, 100000.0, None).maintAmount == 50.0
      && BinanceTier(t, 1000000.0, None).maintMarginRatio == 0.75
  {
    var t := [BinanceBracket(1, 125.0, 50000.0, 0.0, 0.004, 0.0),
              BinanceBracket(2, 100.0, 250000.0, 50000.0, 0.005, 50.0)];
    BinanceTierIsFirstBracket(t, 30000.0, None, 0);
    BinanceTierIsFirstBracket(t, 100000.0, None, 1);
    BinanceTierFallback(t, 1000000.0, None);
  }

  /** The index of the first tier marked as the lowest risk tier. */
  function BybitBaseIndex(limits: seq<BybitRiskLimit>): (r: Option<nat>)
    ensures r.Some? ==> r.value < |limits| && limits[r.value].isLowestRisk == 1
    ensures r.Some? ==> forall j :: 0 <= j < r.value ==> limits[j].isLowestRisk != 1
    ensures r.None? ==> forall j :: 0 <= j < |limits| ==> limits[j].isLowestRisk != 1
  {
    if limits == [] then None
    else if limits[0].isLowestRisk == 1 then Some(0)
    else match BybitBaseIndex(limits[1..])
      case None => None
      case Some(i) => Some(i + 1)
  }

  /** The Bybit tier for a position size: the first tier whose limit exceeds
      the size, with its floor measured from the limit of the lowest risk
      tier and no maintenance amount; beyond every limit, ratio 0.10. A
      selected tier without a lowest risk tier in the table fails, as the
      original reads an unbound base value there. */
  function BybitTier(limits: seq<BybitRiskLimit>, psize: real, fixed: Option<real>): Result<RiskTier> {
    match FirstBelow(Limits(limits), psize)
    case None => Ok(RiskTier(0, 0.0, 0.0, 0.0, BybitFallbackRatio, 0.0))
    case Some(i) =>
      match BybitBaseIndex(limits)
      case None => Err(MissingBaseTier)
      case Some(k) =>
        var b := limits[i];
        Ok(RiskTier(b.id, b.maxLeverage, b.limit, b.limit - limits[k].limit,
                    fixed.GetOr(b.maintainMargin), 0.0))
  }

  /** A fixed ratio replaces the ratio of the selected Bybit tier and
      nothing else; the fallback keeps its 0.10. */
  lemma BybitFixedOverride(limits: seq<BybitRiskLimit>, psize: real, f: real)
    requires BybitBaseIndex(limits).Some?
    ensures BybitTier(limits, psize, Some(f)).Ok? && BybitTier(limits, psize, None).Ok?
    ensures var fixedTier, plainTier := BybitTier(limits, psize, Some(f)).value, BybitTier(limits, psize, None).value;
      && fixedTier.(maintMarginRatio := plainTier.maintMarginRatio) == plainTier
      && (fixedTier.maintMarginRatio == f || fixedTier == plainTier)
  {
    match FirstBelow(Limits(limits), psize)
    case None =>
    case Some(i) =>
  }

  /** The two loops of the Bybit resolver: find the base limit, then the tier. */
  method ScanBybitRiskLimits(limits: seq<BybitRiskLimit>, psize: real, fixed: Option<real>)
    returns (r: Result<RiskTier>)
    ensures r == BybitTier(limits, psize, fixed)
  {
    var base: Option<real> := None;
    var k := 0;
    while k < |limits|
      invariant 0 <= k <= |limits|
      invariant forall j :: 0 <= j < k ==> limits[j].isLowestRisk != 1
    {
      if limits[k].isLowestRisk == 1 {
        base := Some(limits[k].limit);
        assert BybitBaseIndex(limits) == Some(k);
        break;
      }
      k := k + 1;
    }
    assert base.None? <==> BybitBaseIndex(limits).None?;
    assert base.Some? ==> base.value == limits[BybitBaseIndex(limits).value].limit;
    var i := 0;
    while i < |limits|
      invariant 0 <= i <= |limits|
      invariant forall j :: 0 <= j < i ==> psize >= limits[j].limit
    {
      var b := limits[i];
      if psize < b.limit {
        assert FirstBelow(Limits(limits), psize) == Some(i);
        if base.None? {
          return Err(MissingBaseTier);
        }
        var ratio := if fixed.Some? then fixed.value else b.maintainMargin;
        return Ok(RiskTier(b.id, b.maxLeverage, b.limit, b.limit - base.value, ratio, 0.0));
      }
      i := i + 1;
    }
    r := Ok(RiskTier(0, 0.0, 0.0, 0.0, BybitFallbackRatio, 0.0));
  }

  /** The limit at index i, when it is the first to exceed the size, is
      copied into the tier: its id, leverage and limit, a floor measured
      from the limit of the first lowest risk tier k, its ratio unless a
      fixed ratio is set, and no maintenance amount. */
  lemma BybitTierIsFirstLimit(limits: seq<BybitRiskLimit>, psize: real, fixed: Option<real>, i: nat, k: nat)
    requires i < |limits| && psize < limits[i].limit
    requires forall j :: 0 <= j < i ==> psize >= limits[j].limit
    requires k < |limits| && limits[k].isLowestRisk == 1
    requires forall j :: 0 <= j < k ==> limits[j].isLowestRisk != 1
    ensures BybitTier(limits, psize, fixed).Ok?
    ensures var t := BybitTier(limits, psize, fixed).value;
      && t.bracket == limits[i].id
      && t.initialLeverage == limits[i].maxLeverage
      && t.notionalCap == limits[i].limit
      && t.notionalFloor == limits[i].limit - limits[k].limit
      && t.maintMarginRatio == (if fixed.Some? then fixed.value else limits[i].maintainMargin)
      && t.maintAmount == 0.0
  {
    var f := FirstBelow(Limits(limits), psize);
    assert f.Some? by { assert psize < Limits(limits)[i]; }
    assert f.value == i;
    BybitBaseIsFirstLowest(limits, k);
  }

  /** The base index is the first lowest risk tier. */
  lemma BybitBaseIsFirstLowest(limits: seq<BybitRiskLimit>, k: nat)
    requires k < |limits| && limits[k].isLowestRisk == 1
    requires forall j :: 0 <= j < k ==> limits[j].isLowestRisk != 1
    ensures BybitBaseIndex(limits) == Some(k)
  {
  }

  /** Beyond every limit the tier is the 0.10 fallback with every other
      field 0, whether or not the table has a lowest risk tier and whether
      or not a fixed ratio is set. */
  lemma BybitTierFallback(limits: seq<BybitRiskLimit>, psize: real, fixed: Option<real>)
    requires forall j :: 0 <= j < |limits| ==> psize >= limits[j].limit
    ensures BybitTier(limits, psize, fixed) == Ok(RiskTier(0, 0.0, 0.0, 0.0, 0.10, 0.0))
  {
    var caps := Limits(limits);
    assert forall j :: 0 <= j < |caps| ==> psize >= caps[j];
  }

  /** Without a lowest risk tier the resolver fails exactly when some tier
      would be selected. */
  lemma BybitTierNeedsBase(limits: seq<BybitRiskLimit>, psize: real, fixed: Option<real>)
    requires BybitBaseIndex(limits).None?
    ensures BybitTier(limits, psize, fixed).Err? <==> exists i :: 0 <= i < |limits| && psize < limits[i].limit
  {
    var caps := Limits(limits);
    if exists i :: 0 <= i < |limits| && psize < limits[i].limit {
      var i :| 0 <= i < |limits| && psize < limits[i].limit;
      assert psize < caps[i];
    }
  }

  /** The Bybit fallback ratio is not a ceiling: a table whose last tier
      asks for more than 10% lowers the ratio of a position that outgrows it. */
  lemma BybitFallbackCanLowerRatio()
    ensures var t := [BybitRiskLimit(1, 1000.0, 0.05, 0.1, 10.0, 1),
                      BybitRiskLimit(2, 2000.0, 0.15, 0.2, 5.0, 0)];
      && BybitTier(t, 1500.0, None) == Ok(RiskTier(2, 5.0, 2000.0, 1000.0, 0.15, 0.0))
      && BybitTier(t, 2500.0, None) == Ok(RiskTier(0, 0.0, 0.0, 0.0, 0.10, 0.0))
  {
    var t := [BybitRiskLimit(1, 1000.0, 0.05, 0.1, 10.0, 1),
              BybitRiskLimit(2, 2000.0, 0.15, 0.2, 5.0, 0)];
    assert FirstBelow(Limits(t), 1500.0) == Some(1);
    assert FirstBelow(Limits(t), 2500.0) == None;
  }

  /** The exchange whose rules apply: Bybit when trading with Bybit rules,
      then by the lower-cased exchange name; None for any other exchange. */
  function RiskVenue(tradeWithBybitRules: bool, exchange: string): (v: Option<Venue>)
    ensures tradeWithBybitRules ==> v == Some(BybitVenue)
    ensures v == None <==> (!tradeWithBybitRules
      && !Symbols.Contains(Symbols.Lower(exchange), "binance")
      && !Symbols.Contains(Symbols.Lower(exchange), "bybit")
      && !Symbols.Contains(Symbols.Lower(exchange), "ftx"))
  {
    var name := Symbols.Lower(exchange);
    if tradeWithBybitRules then Some(BybitVenue)
    else if Symbols.Contains(name, "binance") then Some(BinanceVenue)
    else if Symbols.Contains(name, "bybit") then Some(BybitVenue)
    else if Symbols.Contains(name, "ftx") then Some(FtxVenue)
    else None
  }

  /** The exchange uses FTX formulas when its lower-cased name contains ftx. */
  predicate IsFtx(exchange: string) {
    Symbols.Contains(Symbols.Lower(exchange), "ftx")
  }

  /** The risk limits for a position size (None meaning the current position
      value), as the dispatcher returns them once the tables are loaded. */
  function ResolveRiskLimits(venue: Option<Venue>, tables: RuleTables, psize: Option<real>,
                             positionValue: real, fixed: Option<real>): Result<Option<RiskLimits>>
  {
    match venue
    case None => Ok(None)
    case Some(BinanceVenue) =>
      Ok(Some(Tiered(BinanceTier(tables.binance, BinancePsize(psize, positionValue), fixed))))
    case Some(BybitVenue) =>
      var t :- BybitTier(tables.bybit, BybitPsize(psize, positionValue), fixed);
      Ok(Some(Tiered(t)))
    case Some(FtxVenue) => Ok(Some(Continuous(tables.ftx)))
  }

  /** Reading a tier field of the risk limits: None is not subscriptable
      and the FTX record has no tier fields. */
  function TierOf(limits: Result<Option<RiskLimits>>): (r: Result<RiskTier>)
    ensures r.Ok? <==> limits.Ok? && limits.value.Some? && limits.value.value.Tiered?
    ensures r.Ok? ==> r.value == limits.value.value.tier
  {
    match limits
    case Err(f) => Err(f)
    case Ok(None) => Err(NoRiskLimits)
    case Ok(Some(Continuous(_))) => Err(MissingKey)
    case Ok(Some(Tiered(t))) => Ok(t)
  }

  /** The leverage check: the configured leverage is reported when it
      exceeds the initial leverage of the tier. */
  function LeverageViolation(leverage: real, limits: Result<Option<RiskLimits>>): (r: Result<bool>)
    ensures r.Ok? <==> TierOf(limits).Ok?
    ensures r.Ok? ==> (r.value <==> leverage > TierOf(limits).value.initialLeverage)
  {
    var t :- TierOf(limits);
    Ok(leverage > t.initialLeverage)
  }

  /** Beyond the last bracket the tier allows no leverage, so every
      positive leverage is reported. */
  lemma LeverageBeyondLastBracket(brackets: seq<BinanceBracket>, psize: real, fixed: Option<real>, leverage: real)
    requires leverage > 0.0
    requires forall j :: 0 <= j < |brackets| ==> psize >= brackets[j].notionalCap
    ensures LeverageViolation(leverage, Ok(Some(Tiered(BinanceTier(brackets, psize, fixed))))) == Ok(true)
  {
    BinanceTierFallback(brackets, psize, fixed);
  }
}
