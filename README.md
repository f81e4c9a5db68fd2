# Strat risk engine in Dafny

A model of the margin and liquidation risk engine of `Strat`, a base class for
multi-route futures strategies on the Jesse framework. Every route of a strategy
trades one symbol. On every candle it publishes a record of its own position
into a registry shared by all routes (`shared_vars`). It then reads the
other routes' records back to compute account-wide figures:

- the total position value, unrealised PnL and margin balance;
- the maintenance margin from the exchange's leverage brackets or risk limits;
- the margin ratio with its liquidation guard;
- the one-way liquidation price and its distance from the mark price;
- on FTX, the margin fraction, zero price and account MMF.

The model covers:

- **Tier resolution** (`tiers.dfy`): Binance leverage brackets, Bybit risk
  limits and FTX risk parameters. It includes the `fixed_margin_ratio`
  override, the fallback constants, and the dispatch on the exchange name.
- **Per-position metrics** (`metrics.dfy`): capital, margin balance,
  maintenance margin, margin ratio and its negative fold, the liquidation
  price (LP1), the LP rate and the FTX expressions.
- **The shared registry** (`registry.dfy`): a `SharedVars` class that routes
  update in place. It holds the per-route sums (`TMM1`, `UPNL1`,
  `unreal_pnl`, `initial_margin`, the FTX sums) and the running maxima and
  alert flags.
- **The liquidation guard** (`guard.dfy`): continue, terminate, or
  terminate and raise.
- **Minimum order sizing** (`sizing.dfy`): the stepping loop of
  `min_order_size`, with a termination proof.
- **String rules** (`symbols.dfy`): the symbol rewrite, the rule-cache file
  name, the increment-to-precision table, the Bybit step precision and the
  Binance symbol match.
- **The strategy object** (`strat.dfy`): a `Strat` class with its lazily
  filled rule caches and session figures. Each operation is proved against
  a specification function of the configuration, the rule tables, the
  registry and the candle (`Tick`).

Conventions:

- Floats are modelled as `real`.
- A NaN result is `None` of an `Option`.
- A Python exception is `Err` of a `Result`: `ZeroDivision`, `MissingKey`,
  `NoRiskLimits` (subscripting a `None` risk-limit result),
  `MissingBaseTier`, `MathDomain` (the square root of a short FTX position's
  negative size) and `LiquidationDetected`.
- `round(x, n)` is a concrete decimal rounding. Its contract bounds the
  error by half a unit in the last place.

## Model

| member | source | states |
|---|---|---|
| Symbols.RewriteSymbolQuotesUsdt | strat/__init__.py:188-194 | A symbol quoted in -USD or -PERP is always looked up as a -USDT symbol. |
| Symbols.RewriteSymbolPlain | strat/__init__.py:188-194 | A symbol with no BCO- and no -USD/-PERP quote is looked up unchanged. |
| Symbols.RewriteSymbolDropsBco | strat/__init__.py:188-194 | BCO-USDT is looked up as BTC-USDT. BCO-USD is looked up as BCO-USDT: the -USD rewrite starts again from the traded symbol, so the BTC substitution is lost. |
| Symbols.CacheFileNameHasNoSpace | strat/__init__.py:197-201 | The rule-cache file name never contains a space, whatever the exchange name. |
| Symbols.CacheFileNameBinance | strat/__init__.py:197-201 | The Binance futures rules are cached in `BinanceFuturesExchangeInfo.json`. |
| Symbols.DecTableIsPrecision | strat/__init__.py:18-28 | The `dec` table maps the text of 10^-k to k for k = 0..8, and maps nothing else. |
| Symbols.BybitQtyPrecisionCountsDecimals | strat/__init__.py:1686-1690 | For a step `w.f` with one dot, the Bybit quantity precision is the number of digits after the dot. |
| Symbols.BybitQtyPrecisionNoDot | strat/__init__.py:1686-1690 | A step without a dot gets precision 1. |
| Symbols.FindBinanceRules | strat/__init__.py:1630-1636 | The first rule record, in file order, whose name matches the symbol; None only when no record matches. |
| Symbols.BinanceMatchIsSubstring | strat/__init__.py:1630-1636 | The exact-or-substring match reduces to "contains the dash-less symbol": the exact case is subsumed. |
| Tiers.FirstBelow | strat/__init__.py:1316-1317 | The index of the first cap strictly above the size; every earlier cap is at most the size; None when no cap is above it. |
| Tiers.FirstBelowMonotone | strat/__init__.py:1316-1317 | A smaller position size never selects a later bracket. |
| Tiers.ZeroSizeQuirk | strat/__init__.py:1309-1311 | Binance treats a requested size of 0 as the current position value. Bybit (line 1363) takes 0 literally. |
| Tiers.ScanBinanceBrackets | strat/__init__.py:1296-1338 | The bracket loop returns exactly the tier that `BinanceTier` specifies. |
| Tiers.BinanceTierIsFirstBracket | strat/__init__.py:1316-1329 | For the first bracket in table order with size < notionalCap, the tier copies that bracket's bracket, initialLeverage, notionalCap and notionalFloor. The ratio is the fixed ratio or the bracket's own, and maintAmount is the bracket's cum. |
| Tiers.BinanceTierFallback | strat/__init__.py:1331-1338 | With no matching bracket the tier is all zero except a ratio of 0.75, even when a fixed ratio is set. |
| Tiers.BinanceFixedOverride | strat/__init__.py:1323-1326 | A fixed ratio replaces the selected bracket's ratio and no other field; without a selected bracket the tier is the same with or without it. |
| Tiers.BinanceRatioMonotone | strat/__init__.py:1316-1338 | For a table whose ratios never decrease and stay at most 0.75, a larger position never gets a smaller maintenance ratio, the fallback included. |
| Tiers.BinanceScenario | strat/__init__.py:1316-1338 | A two-bracket table (caps 50000 and 250000): 30000 gets ratio 0.004 and amount 0, 100000 ratio 0.005 and amount 50, and 1000000 the 0.75 fallback. |
| Tiers.ScanBybitRiskLimits | strat/__init__.py:1342-1402 | The two loops (base tier, then the first limit above the size) return exactly `BybitTier`, including the missing-base error. |
| Tiers.BybitTierIsFirstLimit | strat/__init__.py:1369-1393 | For the first limit in table order with size < limit, and the first lowest-risk tier as base, the tier is that limit's id, max leverage and limit. The notionalFloor is that limit minus the base's limit. The ratio is the fixed ratio or the limit's own, and maintAmount is 0. |
| Tiers.BybitTierFallback | strat/__init__.py:1395-1402 | When no limit is above the size, the tier is all zero except a ratio of 0.10, with or without a base tier or a fixed ratio. |
| Tiers.BybitTierNeedsBase | strat/__init__.py:1369-1383 | Without a lowest-risk tier the resolver fails exactly when some limit matches; the fallback still succeeds. |
| Tiers.BybitFallbackCanLowerRatio | strat/__init__.py:1395-1398 | The 0.10 fallback is not a ceiling: outgrowing a 0.15 tier drops the ratio to 0.10. |
| Tiers.BybitFixedOverride | strat/__init__.py:1386-1389 | With a lowest-risk tier both lookups succeed, and a fixed ratio replaces the selected limit's ratio and no other field. |
| Tiers.RiskVenue | strat/__init__.py:1278-1294 | Bybit rules take precedence. Otherwise the lower-cased exchange selects Binance, Bybit or FTX, and no venue iff none of the names occurs. |
| Tiers.TierOf | strat/__init__.py:1068-1077 | A tier is available exactly when the resolver succeeded with a bracket tier. Subscripting a None or FTX result fails. |
| Tiers.LeverageViolation | strat/__init__.py:1541-1544 | The leverage is a violation iff it exceeds the tier's initialLeverage; an unavailable tier is an error. |
| Tiers.LeverageBeyondLastBracket | strat/__init__.py:1331-1338 | Past the last Binance bracket every positive leverage is a violation, because the fallback's leverage is 0. |
| Metrics.MarginBalance | strat/__init__.py:642-645 | The margin balance is capital plus unrealised PnL, up to rounding to 6 places. |
| Metrics.MaintenanceMargin | strat/__init__.py:1052-1088 | FTX gives 0.1. A fixed ratio gives value*fixed - maintAmount and fails with the tier. Otherwise value*ratio - maintAmount, or value*0.75 when the limits are None or not tiered. A failing lookup propagates. |
| Metrics.FixedRatioOverride | strat/__init__.py:1323-1326 | With a fixed ratio, both resolvers change only the ratio of the tier they select. The maintenance margin is value*fixed - maintAmount of the plain tier. |
| Metrics.FixedMarginFromTier | strat/__init__.py:1068-1072 | With a fixed ratio and an available tier, the maintenance margin is value*fixed less that tier's amount. |
| Metrics.FoldNegative | strat/__init__.py:1094 | The reported ratio is never negative: a negative r becomes -r + 100 > 100, and a non-negative r is unchanged. |
| Metrics.MarginRatio | strat/__init__.py:1090-1097 | The ratio is defined iff the margin balance is non-zero (division is unguarded), and it is never negative. |
| Metrics.MarginRatioFold | strat/__init__.py:1092-1094 | A ratio below -0.005% is reported above 100. A non-negative quotient is reported as its rounded percentage. |
| Metrics.FoldIdempotent | strat/__init__.py:1094 | Folding twice is folding once. |
| Metrics.MarginRatioScenario | strat/__init__.py:1090-1094 | Capital 10000 with PnL -2000 has margin balance 8000; margins 500 and 7760 give 6.25% and 97%. |
| Metrics.Lp1IsBreakEven | strat/__init__.py:519-539 | At LP1, wallet balance plus the other routes' PnL plus this position's PnL at LP1 equals all maintenance margin at LP1. |
| Metrics.Lp1Defined | strat/__init__.py:519-539 | LP1 is defined for an open position with a maintenance ratio below 1. |
| Metrics.LiqPrice | strat/__init__.py:542-544 | The liquidation price is LP1 when positive, NaN otherwise. |
| Metrics.LpRate | strat/__init__.py:547-558 | NaN when flat. Open, the rate is lp/close long or close/lp short, and fails iff that divisor is 0. |
| Metrics.LpRateMeasuresDistance | strat/__init__.py:547-558 | For positive prices the rate is below 1 exactly when the liquidation price lies on the safe side of the mark price. |
| Metrics.MarginFraction | strat/__init__.py:668-676 | NaN when flat. Open, it is capital/value up to rounding, and fails iff the value is 0. |
| Metrics.ZeroPriceZeroesEquity | strat/__init__.py:944-959 | With the exact margin fraction, the zero price is the mark price at which the position's loss equals the capital. |
| Metrics.AcmfBounds | strat/__init__.py:925-941 | The auto-close margin fraction max(MMF/2, MMF-0.06) lies between half the MMF and the MMF, and is exactly half of it iff the MMF is at most 0.12. |
| Metrics.LiquidationDistance | strat/__init__.py:1028-1042 | NaN when flat. Open, it fails iff the margin fraction is 0. |
| Metrics.LiquidationDistanceSign | strat/__init__.py:1028-1042 | For a positive margin fraction the distance is positive iff the margin fraction exceeds the account MMF, zero iff they are equal, and at most 1 for a non-negative MMF. |
| Metrics.BaseImf | strat/__init__.py:712-719 | The base IMF is 1/leverage to 3 places, and fails iff the leverage is 0. |
| Registry.SumRoutes | strat/__init__.py:598-609 | The accumulator loop over the routes equals `RouteSum`, missing records adding 0. |
| Registry.SumOtherRoutes | strat/__init__.py:414-427 | The loop that skips the caller's symbol equals `OthersSum`. |
| Registry.OthersPlusSelf | strat/__init__.py:430-442 | The all-routes sum is the other-routes sum plus the caller's entry once per route trading its symbol. |
| Registry.OthersIgnoreOwnRecord | strat/__init__.py:414-442 | Rewriting the caller's own record leaves `TMM1` and `UPNL1` unchanged. |
| Registry.SumAfterWrite | strat/__init__.py:268-291 | After a route publishes, the all-routes sum changes only by its own entry, once per route trading its symbol. |
| Registry.EmptyRegistrySum | strat/__init__.py:598-609 | Before any route has published, every sum is 0. |
| Registry.UnpublishedSum | strat/__init__.py:893-897 | When none of the routes has a published record, the sum over the routes is 0, whatever else the registry holds. |
| Registry.SingleRouteSum | strat/__init__.py:598-609 | With one route, the all-routes sum is its own entry and the other-routes sum is 0. |
| Registry.InitialMarginSum | strat/__init__.py:612-625 | The loop computes the total position value divided by the leverage. A leverage of 0 raises on every term, each is skipped, and the result is 0. |
| Registry.AccountMmfSum | strat/__init__.py:876-908 | The multi-route loop computes the notional-weighted MMF over the total notional, or 0 when that total is 0. |
| Registry.WeightedMmfBound | strat/__init__.py:876-908 | With non-negative notionals and every MMF at most b, the weighted sum is at most b times the total notional. |
| Registry.AccountMmfAtMostLargest | strat/__init__.py:876-908 | The account MMF of a multi-route account is at most the largest route MMF when the notionals add up to at most the total. |
| Registry.SharedVars.constructor | strat/__init__.py:109-122 | The initial registry: the route defaults (every scalar 0, the flag down, NaN max LP ratio), no records, no timestamps, no LP rate. |
| Registry.SharedVars.RegisterRoute | strat/__init__.py:109-122 | A route's constructor writes the route defaults into the registry: every scalar 0, the flag down, NaN max LP ratio. |
| Registry.SharedVars.StartSession | strat/__init__.py:243-256 | The session reset: free and previous balance are the balance, min margin the available margin, maxima and totals 0, and the timestamps cleared. |
| Registry.SharedVars.Publish | strat/__init__.py:268 | A route's record replaces exactly its own symbol's entry. |
| Registry.SharedVars.SaveMaxMr | strat/__init__.py:1121-1130 | max_margin_ratio becomes max(old, mr), so it never decreases. Its timestamp changes iff the maximum changed. |
| Registry.SharedVars.SaveMaxLpRatio | strat/__init__.py:1132-1141 | The first ratio replaces the NaN and is stamped. Afterwards the maximum is max(rate, old), stamped iff it changed. |
| Registry.SharedVars.CheckMrAlert | strat/__init__.py:1099-1107 | The alert flag is raised iff mr >= threshold. |
| Registry.SharedVars.CheckGlobalMarginAlert | strat/__init__.py:1109-1119 | The alarm sounds iff the flag is up or the shared margin ratio exceeds the threshold (it is quiet at <=). |
| Registry.SharedVars.SaveMaxTotalValue | strat/__init__.py:591-593 | max_total_value becomes max(old, total value). |
| Guard.LiquidationAction | strat/__init__.py:1143-1168 | The guard acts iff mr < 0 or mr >= threshold. Live it terminates; in a backtest it terminates and raises iff keep_running_in_case_of_liquidation is false, and otherwise nothing happens. |
| Guard.GuardBoundary | strat/__init__.py:1148 | The boundary is inclusive: the guard acts at the threshold, and not 0.01 below it. |
| Guard.GuardOnReportedRatio | strat/__init__.py:1090-1097 | On a reported ratio (never negative) the guard acts exactly at or above the threshold. Margins of opposite signs trip any threshold up to 100. |
| Guard.GuardScenario | strat/__init__.py:1143-1168 | At the default threshold 97 a 97% ratio stops a backtest and 6.25% does not. |
| Sizing.PaddedCovers | strat/__init__.py:366-372 | Padding by six fee rates and 5% never shrinks a non-negative size. |
| Sizing.MinOrderSize | strat/__init__.py:315-374 | If minQty at the price covers the notional, the padded minQty value is converted. Otherwise the loop stops at the first step count whose gross value exceeds the notional, and that value is padded and converted. The loop terminates (step, price > 0, fee >= 0), and the cycle size covers a non-negative notional. |
| Sizing.StepPastNotional | strat/__init__.py:353-374 | The stepping loop ends, at the first positive step count whose gross value exceeds the notional, with the quantity that many steps up. |
| Strategy.CapModes | strat/__init__.py:1852-1857 | With use_initial_balance the capital is the session's initial balance on every candle; otherwise it is the current balance. |
| Strategy.AvgEntryPrice | strat/__init__.py:377-382 | The intended entry price: the position's own when live, the strategy's average in a backtest. |
| Strategy.AvgEntryPriceIgnoresMode | strat/__init__.py:377-382 | As written, a backtest whose average differs from the position's entry price still gets the position's entry price. |
| Strategy.Lp1AtBreakEven | strat/__init__.py:520-539 | For an open non-FTX position, LP1 balances capital plus PnL against TMM1, the own maintenance margin at LP1 and the tier's amount. |
| Strategy.AccountMmfAt | strat/__init__.py:876-908 | The account MMF is NaN when flat, and always defined with several routes. A single route fails on a zero total notional. |
| Strategy.LpMessageHarmless | strat/__init__.py:1132-1139 | Outside an open FTX short, the log message that a new maximum LP ratio triggers never fails, so `lp_rate` returns exactly the rate. This takes the FTX risk parameters as loaded (see Left out). |
| Strategy.LpMessageFailsOnFtxShort | strat/__init__.py:1132-1139 | On an open FTX short, a rate that moves the stored maximum fails with a math-domain error: the message evaluates LP1, whose FTX branch takes the square root of the negative size (line 696). |
| Strategy.AccountMmfWithinBound | strat/__init__.py:876-908 | With every route's MMF at most b, the multi-route account MMF is at most b up to rounding. |
| Strategy.RecordAt | strat/__init__.py:268-291 | The published record exists iff the maintenance margin does and the position is not an open FTX short. That short fails with a math-domain error, because `position_imf` takes the square root of the negative size (lines 752-772). The record has value, PnL and PnL% zero when flat, and within rounding of the position's own when open. Its FTX fields are zero unless open on FTX. |
| Strategy.SiblingSeesPublishedMargin | strat/__init__.py:414-427 | Two routes built on one registry: the maintenance margin one route publishes is exactly the TMM1 the other route reads, and 0 when it could not publish. |
| Strategy.Strat.constructor | strat/__init__.py:109-125 | A new route joins the registry it is given. The registry's scalars are reset to the route defaults, while the published records, stamps, LP rate and count stay. The route's caches are empty, its maxima zero, and it is not terminated. |
| Strategy.Strat.BinanceLimits | strat/__init__.py:1296-1338 | Fills the Binance cache once (or on reload) and returns the Binance tier for the size, 0 meaning the current value. |
| Strategy.Strat.BybitLimits | strat/__init__.py:1342-1402 | Fills the Bybit cache once and returns the Bybit tier for the size, None meaning the current value. |
| Strategy.Strat.FtxLimits | strat/__init__.py:1404-1497 | Fills the FTX cache once and returns the FTX risk parameters. |
| Strategy.Strat.RiskLimits | strat/__init__.py:1278-1294 | Returns exactly the limits of the configured venue, or None when no venue matches. |
| Strategy.Strat.MaintenanceMargin | strat/__init__.py:1052-1088 | Returns the maintenance margin for the current position and limits. |
| Strategy.Strat.UnrealPnl | strat/__init__.py:598-609 | Returns the rounded sum of the published PnL over all routes. |
| Strategy.Strat.MarginBalance | strat/__init__.py:642-645 | Returns capital plus the rounded unrealised PnL, rounded. |
| Strategy.Strat.Tmm1 | strat/__init__.py:414-427 | Returns the other routes' published maintenance margin. |
| Strategy.Strat.Upnl1 | strat/__init__.py:430-442 | Returns the other routes' published PnL. |
| Strategy.Strat.InitialMargin | strat/__init__.py:612-625 | Returns the rounded total position value over the leverage, or 0 at leverage 0. |
| Strategy.Strat.AvailMargin | strat/__init__.py:634-640 | Returns the margin balance less the initial margin. |
| Strategy.Strat.GetTotalValue | strat/__init__.py:570-595 | The total value is the sum over routes with several routes and the own value otherwise, rounded. max_total_value becomes the maximum of itself and the unrounded total. |
| Strategy.Strat.TotalCollateralUsed | strat/__init__.py:787-808 | Over several routes it is the sum of the published collateral; on one route it is the own IMF times the own value, or 0 when flat. |
| Strategy.Strat.AccountMaintenanceCollateral | strat/__init__.py:971-990 | Over several routes it is the sum of the published maintenance collateral. On one route it is the own figure, or NaN when flat. |
| Strategy.Strat.AccountMmf | strat/__init__.py:876-908 | Returns the account MMF. When open, with one route or with some route published, max_total_value becomes the maximum of itself and the total value. With several routes and none published, the total is never read and max_total_value stays. |
| Strategy.Strat.CheckLiquidation | strat/__init__.py:1143-1168 | On a breach the message is built first. When its profit_ratio2 fails, that error is returned and the terminated flag is left alone. Otherwise the flag is set and the error raised exactly as the guard decides. Below the threshold nothing changes. |
| Strategy.GuardMessage | strat/__init__.py:1860-1861 | The guard's message (through profit_ratio2) can be built exactly when the initial balance is positive, or negative with a negative capital. A zero initial balance is a division by zero; any other failure is a math-domain error. |
| Strategy.Strat.MarginRatio | strat/__init__.py:1090-1097 | Returns the folded margin ratio, raises the maximum ratio to it, and runs the guard on it. A zero margin balance or a failing lookup is an error. On a breach whose message fails, the message's fault is returned and the flag is unchanged. |
| Strategy.Strat.Lp1 | strat/__init__.py:520-539 | Returns LP1: NaN when flat, the FTX formula on FTX (a math-domain error for a short, whose margin fraction needs a square root), otherwise the one-way formula with TMM1, UPNL1 and the tier. |
| Strategy.Strat.LpRate | strat/__init__.py:547-558 | Returns the rate, or the error of the log message when the rate moves the stored maximum and LP1 fails. Whenever a rate is produced, max_lp_ratio takes it (replacing NaN) or keeps the larger value, and is stamped exactly when it moves. |
| Strategy.Strat.SaveMaxLpRatio | strat/__init__.py:1132-1139 | Saves the rate into max_lp_ratio, stamps it iff it moved, and fails exactly when it moved and the message's LP1 fails. |
| Strategy.Strat.TestLeverage | strat/__init__.py:1537-1549 | True on FTX. Otherwise False when the leverage exceeds the tier for size 0, and None when it does not. |
| Strategy.Strat.TestMaxPosSizeVsLeverage | strat/__init__.py:1551-1559 | False iff the leverage exceeds the tier at the largest position value seen, None otherwise. A failing lookup returns its own fault. |
| Strategy.Strat.CheckLimitsBeforeOrder | strat/__init__.py:1561-1576 | Whether the warning of line 1568 is printed: the leverage exceeds the tier at the given size (the current value when none is given). The source only prints, and returns None (see Left out). |
| Strategy.Strat.PublishRecord | strat/__init__.py:268-297 | Publishes the route's record and raises max_position_value to its rounded value. |
| Strategy.Strat.RefreshTotals | strat/__init__.py:299-303 | Writes the timestamp, total value, unrealised PnL, margin balance and maintenance margin. |
| Strategy.Strat.RefreshRisk | strat/__init__.py:304-313 | Writes the margin ratio (running maximum and guard included). max_margin_ratio becomes max(old, ratio) when the ratio exists, and min_margin stays or drops to the available margin. Writes the LP rate and the insufficient-margin count, and raises its maximum. The terminated flag is set iff the guard acts on the ratio and its message can be built. On success max_lp_ratio has taken the rate; a failure leaves it unchanged unless the position is an FTX short. |
| Strategy.Strat.RefreshAccount | strat/__init__.py:299-313 | Writes the totals, then the risk figures. max_total_value and max_margin_ratio become the maximum of themselves and the new total and ratio (the ratio only when it exists). min_margin stays or drops to the available margin. The terminated flag is set iff the guard acts on the ratio and its message can be built. max_lp_ratio is as in RefreshRisk. |
| Strategy.Strat.RefreshMarginRatio | strat/__init__.py:304-307 | Writes the margin ratio. The terminated flag becomes set when the guard acts on an existing ratio and its message can be built, and stays as it was otherwise. max_margin_ratio becomes max(old, ratio) when the ratio exists, and min_margin stays or drops to the available margin. |
| Strategy.Strat.RefreshLpRate | strat/__init__.py:308-313 | Fails exactly when `lp_rate` as a whole fails (message included). max_lp_ratio takes every rate produced. On success it writes the LP rate and the insufficient-margin count, and raises max_insuff_margin_count to that count. |
| Strategy.Strat.UpdateSharedVars | strat/__init__.py:266-313 | Publishes the record, then the totals and risk figures, in source order. When the record fails, the error is returned with the maxima and min_margin untouched. Otherwise max_total_value is max(old, total over routes) and max_margin_ratio is max(old, ratio) when the ratio exists, and the terminated flag is set iff the guard acts on the ratio and its message can be built. max_lp_ratio takes the rate on success and is unchanged on failure. |
| Strategy.Strat.StartSession | strat/__init__.py:236-258 | Tests the leverage first; off FTX a failing tier lookup is returned with nothing changed. Otherwise the session is opened as `OpenSession` states. |
| Strategy.Strat.OpenSession | strat/__init__.py:238-258 | Records the initial balance, sets free and previous balance to it, locked balance to 0, the alert flag down and min_margin to the available margin. It then runs the first update: a failing record leaves the maxima 0 and the terminated flag as it was; a published one sets max_total_value to the total, max_margin_ratio to the ratio (0 without one), and the terminated flag as the guard decides. It also publishes ts, total value, unrealized PnL, margin balance and maintenance margin, and raises max_position_value to the record's value. A failing record leaves those figures at the zeros just written and max_position_value as it was. max_lp_ratio is the first rate on success and NaN otherwise. A successful update also publishes the LP rate and the insufficient-margin count, and raises the count's maximum. |

## Left out

- Network and file I/O are left out: downloading rules, the JSON files behind the rule loaders, and the pickle-based session resume. The parsed rule tables are a `RuleTables` value given to the strategy. The lazy cache keeps the reload condition, with "empty or force_reload" filling the cache from that value.
- Logging, console output, Discord messages, the version banner and the report call are left out. Termination is a boolean flag. Two log messages can fail while being built, and both failures are modelled. The first is the LP1 that `save_max_lp_ratio` formats, kept as an evaluation of LP1. The second is the profit_ratio2 in the liquidation guard's message, kept as `Strategy.GuardMessage`.
- The kill-switch and pause files, environment variables and the `ts` date formatting are left out; the timestamp is an opaque integer supplied with each candle.
- The framework's state is supplied in each `Tick`: position, balance, close, routes, live mode, the framework's available margin, the strategy's average entry price and counters. `utils.size_to_qty` is a function parameter of `MinOrderSize`.
- The square-root based FTX figures (`position_imf`, `position_mmf`, `maintenance_margin_fraction`) are supplied values (`FtxFigures`), not computed.
- `pmpd` and `pzp` are not modelled: the short branch reads an undefined name.
- Watch-list display, the profit-ratio logarithms (beyond whether profit_ratio2 is defined, in `Strategy.GuardMessage`), the hard-coded FTX rules table and the NaN identity checks in the watch lists are not modelled.
- Round: Python's `round` rounds ties to even and works on binary floats. The model rounds ties up on exact reals, and every contract uses only the half-unit error bound or concrete values away from ties.
- Float arithmetic, overflow and NaN propagation through arithmetic are not modelled. A NaN is only the `None` a function returns.
- Symbols.Lower: lower-casing is ASCII only.
- Symbols.Dec: the table is keyed by the increment's text. Python's float-to-text conversion of the increment is not modelled.
- Sizing.MinOrderSize requires a positive step size and price and a non-negative fee rate. Otherwise the loop need not terminate in the source.
- Sizing.MinOrderSize sums the steps exactly, so the float drift of repeated additions is not modelled.
- Strategy.AccountMmfAt reads the total position notional once when some route has published. The source re-reads it for every published route, which records the same running maximum each time, so the final state is the same. With no route published the source never reads it, and neither does `Strategy.Strat.AccountMmf`.
- Strategy.Strat.TotalCollateralUsed, Strategy.Strat.AccountMaintenanceCollateral and the single-route branch of Strategy.Strat.AccountMmf use the supplied FTX figures (`FtxFigures`). The source computes them with a square root, which raises for a short position, and outside FTX it reads the unloaded FTX table.
- Strategy.RecordAt: the FTX risk parameters are taken as always loaded and the leverage as non-zero. The same assumption covers Strategy.LpMessageHarmless and Strategy.Strat.Lp1. In the source, `ftx_risk_limits` starts as None (line 169). Only two places fill it: `run_once`'s FTX branch, when the rule file is missing or the run is live (lines 212-215), and `ftx_limits` (lines 1477-1479). `ftx_limits` is never reached with `trade_with_bybit_rules` (lines 1286-1287), and FTX's fixed maintenance margin does not call it (line 1066). Until the table is loaded, publishing an open FTX record raises a TypeError in `position_imf` (line 278, reading the table at 758-770). The LP1 of an open FTX long that the LP message evaluates (lines 1139, 526, 696) raises the same way. `position_imf` also evaluates `base_imf` first, which divides by the leverage (line 719). So at leverage 0 an open FTX record raises ZeroDivision, and an FTX short then fails with that fault or the TypeError rather than the math-domain error the model reports. None of these failures is modelled.
- Strategy.Strat.CheckLiquidation: the guard's message also reads `self.div`, which `Strat` does not define. It is taken to be supplied by the subclass and to format. The rest of the message (available margin, capital, shared figures, a JSON dump that allows NaN) cannot fail.
- Strategy.Strat.CheckLimitsBeforeOrder returns the condition under which the source prints its warning (line 1568). The source returns None either way.
- Strategy.Lp1At: LP1 uses the intended entry price (`AvgEntryPrice`: the average entry price in a backtest). As written, line 382 takes the position's own entry price in backtests too (see Findings). Live, the two agree.
- Strategy.Strat.Lp1: computes LP1 as `Strategy.Lp1At` does, with the intended entry price rather than the as-written one.
- Strategy.LpRateAt: computes LP1 as `Strategy.Lp1At` does, with the intended entry price rather than the as-written one.
- Strategy.Strat.LpRate: computes LP1 as `Strategy.Lp1At` does, with the intended entry price rather than the as-written one.
- Strategy.Lp1AtBreakEven: computes LP1 as `Strategy.Lp1At` does, with the intended entry price rather than the as-written one.
- Strategy.Strat.RefreshLpRate: computes LP1 as `Strategy.Lp1At` does, with the intended entry price rather than the as-written one.
- Strategy.Strat.RefreshRisk: computes LP1 as `Strategy.Lp1At` does, with the intended entry price rather than the as-written one.
- Strategy.Strat.RefreshAccount: computes LP1 as `Strategy.Lp1At` does, with the intended entry price rather than the as-written one.
- Strategy.Strat.UpdateSharedVars: computes LP1 as `Strategy.Lp1At` does, with the intended entry price rather than the as-written one.
- Tiers.BybitTier: a missing lowest-risk tier is an error result (`MissingBaseTier`) when a limit matches, as the code raises there. It is not a precondition, since the fallback path still succeeds.
- Registry.SharedVars.CheckMrAlert is modelled but has no caller in the source; it is not part of the update path.
- Strategy.Strat.TestLeverage returns None where the source falls off the end of the function without returning.

## Findings

| source | as written | input that shows it | evidently intended | confidence | as-written member | corrected member |
|---|---|---|---|---|---|---|
| strat/__init__.py:382 | `is_live` is tested without being called; a function object is always truthy, so the position's entry price is used in backtests too | a backtest (`live` false) with position entry price 100 and average entry price 101: as written 100 | the average entry price in a backtest, the position's own entry price live | not executed | Strategy.AvgEntryPriceIgnoresMode | Strategy.AvgEntryPrice |
