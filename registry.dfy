/** The registry shared by all routes of a strategy: one record per symbol,
    written by that symbol's route, plus account-wide scalars (running
    maxima, the alert flag, the latest aggregates). Every route runs in turn,
    so the registry is an ordinary object updated in place. */
module Registry {
  import opened Common

  /** Timestamps are opaque instants supplied by the framework. */
  type Timestamp = int

  /** The record a route publishes about its own position. */
  datatype SymbolRecord = SymbolRecord(
    active: bool,
    isOpen: bool,
    posValue: real,
    pnl: real,
    pnlPct: real,
    maxOpen: int,
    cyclePos: real,
    maintenanceMargin: real,
    collateralUsed: real,
    positionImf: real,
    positionMmf: real,
    positionNotional: real,
    maintenanceCollateral: real)

  /** The numeric record fields other routes sum up. */
  datatype Field =
    | PosValue | Pnl | MaintMargin | CollateralUsed | PositionImf
    | PositionMmf | PositionNotional | MaintenanceCollateral

  function FieldOf(rec: SymbolRecord, f: Field): real {
    match f
    case PosValue => rec.posValue
    case Pnl => rec.pnl
    case MaintMargin => rec.maintenanceMargin
    case CollateralUsed => rec.collateralUsed
    case PositionImf => rec.positionImf
    case PositionMmf => rec.positionMmf
    case PositionNotional => rec.positionNotional
    case MaintenanceCollateral => rec.maintenanceCollateral
  }

  /** A symbol that has not published yet raises a lookup error that the
      summing loops swallow, so it contributes 0. */
  function Entry(symbols: map<string, SymbolRecord>, sym: string, f: Field): real {
    if sym in symbols then FieldOf(symbols[sym], f) else 0.0
  }

  /** The field summed over all routes, in route order. */
  function RouteSum(routes: seq<string>, symbols: map<string, SymbolRecord>, f: Field): real
    decreases |routes|
  {
    if routes == [] then 0.0
    else RouteSum(routes[..|routes| - 1], symbols, f) + Entry(symbols, routes[|routes| - 1], f)
  }

  /** The field summed over the routes trading another symbol than `self`. */
  function OthersSum(routes: seq<string>, symbols: map<string, SymbolRecord>, f: Field, self: string): real
    decreases |routes|
  {
    if routes == [] then 0.0
    else
      var last := routes[|routes| - 1];
      OthersSum(routes[..|routes| - 1], symbols, f, self) + (if last != self then Entry(symbols, last, f) else 0.0)
  }

  /** How many routes trade symbol `s`. */
  function Count(routes: seq<string>, s: string): nat
    decreases |routes|
  {
    if routes == [] then 0
    else Count(routes[..|routes| - 1], s) + (if routes[|routes| - 1] == s then 1 else 0)
  }

  /** The accumulator loop over all routes. */
  method SumRoutes(routes: seq<string>, symbols: map<string, SymbolRecord>, f: Field) returns (total: real)
    ensures total == RouteSum(routes, symbols, f)
  {
    total := 0.0;
    var i := 0;
    while i < |routes|
      invariant 0 <= i <= |routes|
      invariant total == RouteSum(routes[..i], symbols, f)
    {
      if routes[i] in symbols {
        total := total + FieldOf(symbols[routes[i]], f);
      }
      assert routes[..i + 1][..i] == routes[..i];
      i := i + 1;
    }
    assert routes[..i] == routes;
  }

  /** The accumulator loop over the other routes (TMM1, UPNL1). */
  method SumOtherRoutes(routes: seq<string>, symbols: map<string, SymbolRecord>, f: Field, self: string)
    returns (total: real)
    ensures total == OthersSum(routes, symbols, f, self)
  {
    total := 0.0;
    var i := 0;
    while i < |routes|
      invariant 0 <= i <= |routes|
      invariant total == OthersSum(routes[..i], symbols, f, self)
    {
      if routes[i] != self && routes[i] in symbols {
        total := total + FieldOf(symbols[routes[i]], f);
      }
      assert routes[..i + 1][..i] == routes[..i];
      i := i + 1;
    }
    assert routes[..i] == routes;
  }

  /** The sum over all routes splits into the other routes' sum and the
      caller's own entry, once per route trading the caller's symbol. */
  lemma {:induction false} OthersPlusSelf(routes: seq<string>, symbols: map<string, SymbolRecord>, f: Field, s: string)
    ensures RouteSum(routes, symbols, f) == OthersSum(routes, symbols, f, s) + Count(routes, s) as real * Entry(symbols, s, f)
    decreases |routes|
  {
    if routes != [] {
      OthersPlusSelf(routes[..|routes| - 1], symbols, f, s);
    }
  }

  /** The caller's own record never changes the other routes' sum. */
  lemma {:induction false} OthersIgnoreOwnRecord(routes: seq<string>, symbols: map<string, SymbolRecord>,
                                                 f: Field, s: string, rec: SymbolRecord)
    ensures OthersSum(routes, symbols[s := rec], f, s) == OthersSum(routes, symbols, f, s)
    decreases |routes|
  {
    if routes != [] {
      OthersIgnoreOwnRecord(routes[..|routes| - 1], symbols, f, s, rec);
    }
  }

  /** Publishing a record moves the all-route sum by the change of the
      caller's entry, once per route trading that symbol; a symbol that had
      not published before counted as 0. */
  lemma SumAfterWrite(routes: seq<string>, symbols: map<string, SymbolRecord>,
                      f: Field, s: string, rec: SymbolRecord)
    ensures RouteSum(routes, symbols[s := rec], f)
         == RouteSum(routes, symbols, f) + Count(routes, s) as real * (FieldOf(rec, f) - Entry(symbols, s, f))
  {
    OthersPlusSelf(routes, symbols[s := rec], f, s);
    OthersPlusSelf(routes, symbols, f, s);
    OthersIgnoreOwnRecord(routes, symbols, f, s, rec);
    assert Entry(symbols[s := rec], s, f) == FieldOf(rec, f);
    ScaleDifference(Count(routes, s) as real, FieldOf(rec, f), Entry(symbols, s, f));
  }

  /** Scaling distributes over a difference. */
  lemma ScaleDifference(c: real, a: real, b: real)
    ensures c * a - c * b == c * (a - b)
  {
  }

  /** Before any route publishes, every sum is 0. */
  lemma {:induction false} EmptyRegistrySum(routes: seq<string>, f: Field)
    ensures RouteSum(routes, map[], f) == 0.0
    decreases |routes|
  {
    if routes != [] {
      EmptyRegistrySum(routes[..|routes| - 1], f);
    }
  }

  /** Some route has published a record. */
  predicate AnyPublished(routes: seq<string>, symbols: map<string, SymbolRecord>) {
    exists r :: r in routes && r in symbols
  }

  /** While no route has published, every sum over the routes is 0. */
  lemma {:induction false} UnpublishedSum(routes: seq<string>, symbols: map<string, SymbolRecord>, f: Field)
    requires !AnyPublished(routes, symbols)
    ensures RouteSum(routes, symbols, f) == 0.0
    decreases |routes|
  {
    if routes != [] {
      var init := routes[..|routes| - 1];
      assert !AnyPublished(init, symbols) by {
        forall r | r in init ensures r !in symbols {
          assert r in routes;
        }
      }
      assert routes[|routes| - 1] in routes;
      UnpublishedSum(init, symbols, f);
    }
  }

  /** With a single route the multi-route sum is that route's own entry, so
      the single-route shortcut of the aggregates agrees with the registry
      once the route has published. */
  lemma SingleRouteSum(route: string, symbols: map<string, SymbolRecord>, f: Field)
    ensures RouteSum([route], symbols, f) == Entry(symbols, route, f)
    ensures OthersSum([route], symbols, f, route) == 0.0
  {
    assert [route][..0] == [];
  }

  /** A multi-route aggregate or, with a single route, the caller's own
      value (get_total_value, total_collateral_used,
      account_maintenance_collateral), before rounding. */
  function Aggregate(routes: seq<string>, symbols: map<string, SymbolRecord>, f: Field, own: real): real {
    if |routes| > 1 then RouteSum(routes, symbols, f) else own
  }

  /** The initial margin loop: each route's position value over the
      leverage. With a zero leverage every term raises and is swallowed. */
  method InitialMarginSum(routes: seq<string>, symbols: map<string, SymbolRecord>, leverage: real)
    returns (im: real)
    ensures leverage != 0.0 ==> im == RouteSum(routes, symbols, PosValue) / leverage
    ensures leverage == 0.0 ==> im == 0.0
  {
    im := 0.0;
    var i := 0;
    while i < |routes|
      invariant 0 <= i <= |routes|
      invariant leverage != 0.0 ==> im == RouteSum(routes[..i], symbols, PosValue) / leverage
      invariant leverage == 0.0 ==> im == 0.0
    {
      assert routes[..i + 1][..i] == routes[..i];
      assert RouteSum(routes[..i + 1], symbols, PosValue)
          == RouteSum(routes[..i], symbols, PosValue) + Entry(symbols, routes[i], PosValue);
      if routes[i] in symbols && leverage != 0.0 {
        var pv := symbols[routes[i]].posValue;
        DivideSum(RouteSum(routes[..i], symbols, PosValue), pv, leverage);
        im := im + pv / leverage;
      }
      i := i + 1;
    }
    assert routes[..i] == routes;
  }

  /** Division distributes over a sum. */
  lemma DivideSum(a: real, b: real, d: real)
    requires d != 0.0
    ensures (a + b) / d == a / d + b / d
  {
  }

  /** Sum of position notional times position MMF over all routes. */
  function WeightedMmf(routes: seq<string>, symbols: map<string, SymbolRecord>): real
    decreases |routes|
  {
    if routes == [] then 0.0
    else
      var last := routes[|routes| - 1];
      WeightedMmf(routes[..|routes| - 1], symbols)
        + Entry(symbols, last, PositionNotional) * Entry(symbols, last, PositionMmf)
  }

  /** The multi-route account MMF loop: each route's MMF weighted by its
      share of the total position notional. With a zero total every term
      raises and is swallowed. */
  method AccountMmfSum(routes: seq<string>, symbols: map<string, SymbolRecord>, totalNotional: real)
    returns (a: real)
    ensures totalNotional != 0.0 ==> a == WeightedMmf(routes, symbols) / totalNotional
    ensures totalNotional == 0.0 ==> a == 0.0
  {
    a := 0.0;
    var i := 0;
    while i < |routes|
      invariant 0 <= i <= |routes|
      invariant totalNotional != 0.0 ==> a == WeightedMmf(routes[..i], symbols) / totalNotional
      invariant totalNotional == 0.0 ==> a == 0.0
    {
      assert routes[..i + 1][..i] == routes[..i];
      if routes[i] in symbols && totalNotional != 0.0 {
        var rec := symbols[routes[i]];
        var w := WeightedMmf(routes[..i], symbols);
        assert (w + rec.positionNotional * rec.positionMmf) / totalNotional
            == w / totalNotional + rec.positionNotional / totalNotional * rec.positionMmf;
        a := a + rec.positionNotional / totalNotional * rec.positionMmf;
      }
      i := i + 1;
    }
    assert routes[..i] == routes;
  }

  /** The notional-weighted sum never exceeds the largest MMF times the
      summed notional. */
  lemma {:induction false} WeightedMmfBound(routes: seq<string>, symbols: map<string, SymbolRecord>, bound: real)
    requires forall r :: r in routes ==> Entry(symbols, r, PositionNotional) >= 0.0
    requires forall r :: r in routes ==> Entry(symbols, r, PositionMmf) <= bound
    ensures WeightedMmf(routes, symbols) <= bound * RouteSum(routes, symbols, PositionNotional)
    decreases |routes|
  {
    if routes != [] {
      var init := routes[..|routes| - 1];
      var last := routes[|routes| - 1];
      PrefixKeepsBounds(routes, symbols, bound);
      WeightedMmfBound(init, symbols, bound);
      AddWeightedTerm(WeightedMmf(init, symbols), RouteSum(init, symbols, PositionNotional),
                      Entry(symbols, last, PositionNotional), Entry(symbols, last, PositionMmf), bound);
    }
  }

  /** The per-route bounds of the weighted-average bound hold on every
      prefix and at the last route. */
  lemma PrefixKeepsBounds(routes: seq<string>, symbols: map<string, SymbolRecord>, bound: real)
    requires routes != []
    requires forall r :: r in routes ==> Entry(symbols, r, PositionNotional) >= 0.0
    requires forall r :: r in routes ==> Entry(symbols, r, PositionMmf) <= bound
    ensures forall r :: r in routes[..|routes| - 1] ==> Entry(symbols, r, PositionNotional) >= 0.0
    ensures forall r :: r in routes[..|routes| - 1] ==> Entry(symbols, r, PositionMmf) <= bound
    ensures Entry(symbols, routes[|routes| - 1], PositionNotional) >= 0.0
    ensures Entry(symbols, routes[|routes| - 1], PositionMmf) <= bound
  {
    assert forall r :: r in routes[..|routes| - 1] ==> r in routes;
    assert routes[|routes| - 1] in routes;
  }

  /** One step of the weighted-average bound. */
  lemma AddWeightedTerm(w: real, s: real, n: real, m: real, bound: real)
    requires w <= bound * s && n >= 0.0 && m <= bound
    ensures w + n * m <= bound * (s + n)
  {
    assert n * m <= n * bound;
  }

  lemma DivideBound(w: real, s: real, total: real, bound: real)
    requires total > 0.0 && bound >= 0.0 && s <= total && w <= bound * s
    ensures w / total <= bound
  {
    assert bound * s <= bound * total;
    assert w / total * total == w;
  }

  /** The account MMF is a weighted average: when every position's MMF is at
      most `bound` and the notionals add up to no more than the total, the
      account MMF is at most `bound` too. */
  lemma AccountMmfAtMostLargest(routes: seq<string>, symbols: map<string, SymbolRecord>,
                                totalNotional: real, bound: real)
    requires totalNotional > 0.0 && bound >= 0.0
    requires forall r :: r in routes ==> Entry(symbols, r, PositionNotional) >= 0.0
    requires forall r :: r in routes ==> Entry(symbols, r, PositionMmf) <= bound
    requires RouteSum(routes, symbols, PositionNotional) <= totalNotional
    ensures WeightedMmf(routes, symbols) / totalNotional <= bound
  {
    WeightedMmfBound(routes, symbols, bound);
    DivideBound(WeightedMmf(routes, symbols), RouteSum(routes, symbols, PositionNotional), totalNotional, bound);
  }

  /** The registry object. */
  class SharedVars {
    var symbols: map<string, SymbolRecord>
    var ts: Timestamp
    var lockedBalance: real
    var freeBalance: real
    var previousBalance: real
    var totalValue: real
    var unrealizedPnl: real
    var marginBalance: real
    var maintMargin: real
    var marginRatio: real
    var maxMarginRatio: real
    var maxMarginRatioTs: Option<Timestamp>
    var minMargin: real
    var maxLpRatio: Option<real>
    var maxLpRatioTs: Option<Timestamp>
    var marginAlert: bool
    var maxTotalValue: real
    var lpRate: Option<real>
    var insuffMarginCount: int

    /** The running maxima are never negative (the LP ratio starts at NaN);
        a margin ratio maximum above 0 and a stored LP ratio always have a
        stamp (a route's reset clears both maxima but keeps their stamps). */
    predicate Valid()
      reads this
    {
      && maxMarginRatio >= 0.0
      && (maxMarginRatio != 0.0 ==> maxMarginRatioTs.Some?)
      && (maxLpRatio.Some? ==> maxLpRatioTs.Some?)
      && maxTotalValue >= 0.0
    }

    /** The figures every route's constructor writes into the registry:
        every scalar 0, the alert down and the LP ratio maximum NaN. */
    predicate RouteDefaults()
      reads this
    {
      && ts == 0
      && lockedBalance == 0.0 && freeBalance == 0.0 && previousBalance == 0.0
      && minMargin == 0.0 && maxMarginRatio == 0.0 && maxLpRatio == None && !marginAlert
      && totalValue == 0.0 && unrealizedPnl == 0.0 && marginBalance == 0.0
      && maintMargin == 0.0 && marginRatio == 0.0 && maxTotalValue == 0.0
    }

    /** The registry before any route has published: the route defaults,
        no records and no stamps. */
    constructor ()
      ensures Valid() && RouteDefaults()
      ensures symbols == map[]
      ensures maxMarginRatioTs == None && maxLpRatioTs == None && lpRate == None && insuffMarginCount == 0
    {
      symbols := map[];
      ts := 0;
      lockedBalance, freeBalance, previousBalance := 0.0, 0.0, 0.0;
      totalValue, unrealizedPnl, marginBalance := 0.0, 0.0, 0.0;
      maintMargin, marginRatio, minMargin := 0.0, 0.0, 0.0;
      maxMarginRatio, maxMarginRatioTs := 0.0, None;
      maxLpRatio, maxLpRatioTs, lpRate := None, None, None;
      marginAlert, maxTotalValue, insuffMarginCount := false, 0.0, 0;
    }

    /** A route's constructor resets the registry's scalars to the route
        defaults; the published records, the stamps, the LP rate and the
        insufficient-margin count stay as they are. */
    method RegisterRoute()
      requires Valid()
      modifies this`ts, this`lockedBalance, this`freeBalance, this`previousBalance, this`minMargin
      modifies this`maxMarginRatio, this`maxLpRatio, this`marginAlert, this`totalValue
      modifies this`unrealizedPnl, this`marginBalance, this`maintMargin, this`marginRatio, this`maxTotalValue
      ensures Valid() && RouteDefaults()
    {
      ts := 0;
      lockedBalance, freeBalance, previousBalance := 0.0, 0.0, 0.0;
      minMargin, maxMarginRatio, maxLpRatio, marginAlert := 0.0, 0.0, None, false;
      totalValue, unrealizedPnl, marginBalance := 0.0, 0.0, 0.0;
      maintMargin, marginRatio, maxTotalValue := 0.0, 0.0, 0.0;
    }

    /** The first-run reset: balances from the framework, minimum margin
        from the available margin, the maxima and alert cleared. */
    method StartSession(balance: real, availableMargin: real)
      modifies this`lockedBalance, this`freeBalance, this`previousBalance, this`minMargin
      modifies this`maxMarginRatio, this`maxMarginRatioTs, this`maxLpRatio, this`marginAlert, this`ts
      modifies this`totalValue, this`unrealizedPnl, this`marginBalance, this`maintMargin, this`maxTotalValue
      requires Valid()
      ensures Valid()
      ensures lockedBalance == 0.0 && freeBalance == balance && previousBalance == balance
      ensures minMargin == availableMargin
      ensures maxMarginRatio == 0.0 && maxMarginRatioTs == None && maxLpRatio == None
      ensures !marginAlert && ts == 0
      ensures totalValue == 0.0 && unrealizedPnl == 0.0 && marginBalance == 0.0
      ensures maintMargin == 0.0 && maxTotalValue == 0.0
    {
      lockedBalance := 0.0;
      freeBalance := balance;
      previousBalance := balance;
      minMargin := availableMargin;
      maxMarginRatio := 0.0;
      maxLpRatio := None;
      marginAlert := false;
      ts := 0;
      totalValue := 0.0;
      unrealizedPnl := 0.0;
      marginBalance := 0.0;
      maintMargin := 0.0;
      maxTotalValue := 0.0;
      maxMarginRatioTs := None;
      assert maxMarginRatio == 0.0 && maxLpRatio.None?;
    }

    /** A route publishes its record, replacing any previous one. */
    method Publish(sym: string, rec: SymbolRecord)
      modifies this`symbols
      ensures symbols == old(symbols)[sym := rec]
    {
      symbols := symbols[sym := rec];
    }

    /** Keep the largest margin ratio seen, stamping it when it moves. */
    method SaveMaxMr(mr: real, now: Timestamp)
      requires Valid()
      modifies this`maxMarginRatio, this`maxMarginRatioTs
      ensures Valid()
      ensures maxMarginRatio == Max(old(maxMarginRatio), mr)
      ensures maxMarginRatio >= old(maxMarginRatio)
      ensures maxMarginRatioTs == if maxMarginRatio != old(maxMarginRatio) then Some(now) else old(maxMarginRatioTs)
    {
      var snapshot := maxMarginRatio;
      maxMarginRatio := Max(snapshot, mr);
      if maxMarginRatio != snapshot {
        maxMarginRatioTs := Some(now);
      }
    }

    /** Keep the largest liquidation-price ratio seen. The stored value
        starts as NaN, which never compares greater, so the first ratio is
        taken as is and always stamped. */
    method SaveMaxLpRatio(rate: real, now: Timestamp)
      requires Valid()
      modifies this`maxLpRatio, this`maxLpRatioTs
      ensures Valid()
      ensures old(maxLpRatio).None? ==> maxLpRatio == Some(rate) && maxLpRatioTs == Some(now)
      ensures old(maxLpRatio).Some? ==>
        && maxLpRatio == Some(Max(rate, old(maxLpRatio).value))
        && maxLpRatioTs == if maxLpRatio != old(maxLpRatio) then Some(now) else old(maxLpRatioTs)
    {
      var snapshot := maxLpRatio;
      match snapshot {
        case None =>
          maxLpRatio := Some(rate);
        case Some(m) =>
          maxLpRatio := Some(Max(rate, m));
      }
      if maxLpRatio != snapshot {
        maxLpRatioTs := Some(now);
      }
    }

    /** Raise the shared alert flag at or above the threshold, clear it
        below. */
    method CheckMrAlert(mr: real, threshold: real)
      modifies this`marginAlert
      ensures marginAlert <==> mr >= threshold
    {
      marginAlert := mr >= threshold;
    }

    /** The account-wide alarm: silent only while the flag is clear and the
        shared margin ratio is at most the threshold. */
    method CheckGlobalMarginAlert(threshold: real) returns (alarm: bool)
      ensures alarm <==> marginAlert || marginRatio > threshold
    {
      alarm := !(!marginAlert && marginRatio <= threshold);
    }

    /** Keep the largest total position value seen. */
    method SaveMaxTotalValue(tv: real)
      requires Valid()
      modifies this`maxTotalValue
      ensures Valid()
      ensures maxTotalValue == Max(old(maxTotalValue), tv)
    {
      maxTotalValue := Max(maxTotalValue, tv);
    }
  }
}
