/** The small string rules of the strategy: rewriting the traded symbol to the
    symbol whose exchange rules are used, the name of the rule cache file, the
    increment-to-precision table, the Bybit quantity precision and the Binance
    symbol match. Strings are sequences of characters; only ASCII case
    folding is modelled. */
module Symbols {
  import opened Common

  function LowerChar(c: char): (d: char)
    ensures 'A' <= c <= 'Z' ==> d as int == c as int + 32
    ensures !('A' <= c <= 'Z') ==> d == c
  {
    if 'A' <= c <= 'Z' then (c as int + 32) as char else c
  }

  function Lower(s: string): (r: string)
    ensures |r| == |s|
    ensures forall i :: 0 <= i < |s| ==> r[i] == LowerChar(s[i])
  {
    if s == [] then [] else [LowerChar(s[0])] + Lower(s[1..])
  }

  predicate StartsWith(s: string, prefix: string) {
    |prefix| <= |s| && s[..|prefix|] == prefix
  }

  predicate EndsWith(s: string, suffix: string) {
    |suffix| <= |s| && s[|s| - |suffix|..] == suffix
  }

  /** Python's `sub in s`, searched from the left. */
  predicate Contains(s: string, sub: string)
    decreases |s|
  {
    StartsWith(s, sub) || (s != [] && Contains(s[1..], sub))
  }

  /** `sub` occurs in `s` at position i. */
  ghost predicate OccursAt(s: string, sub: string, i: int) {
    0 <= i && i + |sub| <= |s| && s[i..i + |sub|] == sub
  }

  /** An occurrence at any position is found by the search. */
  lemma {:induction false} OccursImpliesContains(s: string, sub: string, i: int)
    requires OccursAt(s, sub, i)
    ensures Contains(s, sub)
    decreases i
  {
    if i == 0 {
      assert s[..|sub|] == s[0..|sub|];
    } else {
      assert s[1..][i - 1..i - 1 + |sub|] == s[i..i + |sub|];
      OccursImpliesContains(s[1..], sub, i - 1);
    }
  }

  /** The search agrees with the definition of a substring by position. */
  lemma {:induction false} ContainsIffOccurs(s: string, sub: string)
    ensures Contains(s, sub) <==> exists i :: OccursAt(s, sub, i)
    decreases |s|
  {
    if exists i :: OccursAt(s, sub, i) {
      var i :| OccursAt(s, sub, i);
      OccursImpliesContains(s, sub, i);
    }
    if Contains(s, sub) {
      if StartsWith(s, sub) {
        assert OccursAt(s, sub, 0);
      } else {
        ContainsIffOccurs(s[1..], sub);
        var i :| OccursAt(s[1..], sub, i);
        assert s[i + 1..i + 1 + |sub|] == s[1..][i..i + |sub|];
        assert OccursAt(s, sub, i + 1);
      }
    }
  }

  /** Python's `s.replace(pat, rep)`: every non-overlapping occurrence of
      `pat`, found from the left, is replaced. */
  function ReplaceAll(s: string, pat: string, rep: string): string
    requires pat != []
    decreases |s|
  {
    if |s| < |pat| then s
    else if s[..|pat|] == pat then rep + ReplaceAll(s[|pat|..], pat, rep)
    else [s[0]] + ReplaceAll(s[1..], pat, rep)
  }

  /** A string with no occurrence of `pat` is left unchanged. */
  lemma {:induction false} ReplaceAllAbsent(s: string, pat: string, rep: string)
    requires pat != [] && !Contains(s, pat)
    ensures ReplaceAll(s, pat, rep) == s
    decreases |s|
  {
    if |s| >= |pat| {
      assert !StartsWith(s, pat);
      ReplaceAllAbsent(s[1..], pat, rep);
      assert [s[0]] + s[1..] == s;
    }
  }

  /** A pattern whose first character does not occur in `s` is not found. */
  lemma {:induction false} HeadAbsentNotContains(s: string, pat: string)
    requires pat != [] && pat[0] !in s
    ensures !Contains(s, pat)
    decreases |s|
  {
    if s != [] {
      if |pat| <= |s| {
        assert s[..|pat|][0] == s[0];
      }
      assert pat[0] !in s[1..] by {
        forall j | 0 <= j < |s[1..]| ensures s[1..][j] != pat[0] {
          assert s[1..][j] == s[j + 1];
        }
      }
      HeadAbsentNotContains(s[1..], pat);
    }
  }

  /** No proper suffix of `w` is also a prefix of it, so two occurrences of
      `w` can never overlap. */
  ghost predicate BorderFree(w: string) {
    forall k :: 0 < k < |w| ==> w[k..] != w[..|w| - k]
  }

  /** Replacing a border-free pattern in a string that ends with it yields
      a string that ends with the replacement. */
  lemma {:induction false} ReplaceAllKeepsSuffix(s: string, pat: string, rep: string)
    requires pat != [] && BorderFree(pat) && EndsWith(s, pat)
    ensures EndsWith(ReplaceAll(s, pat, rep), rep)
    decreases |s|
  {
    var n := |pat|;
    if s[..n] == pat {
      if |s| == n {
        assert ReplaceAll(s, pat, rep) == rep by {
          assert s[n..] == [] && rep + [] == rep;
        }
        assert rep[|rep| - |rep|..] == rep;
      } else {
        if |s| < 2 * n {
          OverlapShift(s, pat, |s| - n);
          assert false;
        }
        EndsWithTail(s, pat, n);
        ReplaceAllKeepsSuffix(s[n..], pat, rep);
        EndsWithAppend(rep, ReplaceAll(s[n..], pat, rep), rep);
      }
    } else {
      EndsWithTail(s, pat, 1);
      ReplaceAllKeepsSuffix(s[1..], pat, rep);
      EndsWithAppend([s[0]], ReplaceAll(s[1..], pat, rep), rep);
    }
  }

  /** Dropping a prefix that leaves the suffix whole keeps the suffix. */
  lemma EndsWithTail(s: string, w: string, d: nat)
    requires EndsWith(s, w) && d + |w| <= |s|
    ensures EndsWith(s[d..], w)
  {
    assert s[d..][|s[d..]| - |w|..] == s[|s| - |w|..];
  }

  /** A suffix of the tail is a suffix of the whole. */
  lemma EndsWithAppend(a: string, b: string, w: string)
    requires EndsWith(b, w)
    ensures EndsWith(a + b, w)
  {
    assert (a + b)[|a + b| - |w|..] == b[|b| - |w|..];
  }

  /** Two occurrences of `pat` at 0 and at k overlap in a border of `pat`. */
  lemma OverlapShift(s: string, pat: string, k: int)
    requires 0 < k < |pat| && |s| == |pat| + k
    requires s[..|pat|] == pat && s[k..] == pat
    ensures pat[k..] == pat[..|pat| - k]
  {
    assert pat[k..] == s[k..|pat|];
  }

  /** Replacing with a text free of character c removes every c of `pat`
      and adds none. */
  lemma {:induction false} ReplaceAllAvoids(s: string, pat: string, rep: string, c: char)
    requires pat != [] && c !in rep
    requires c in pat || c !in s
    requires |pat| == 1 || c !in s
    ensures c !in ReplaceAll(s, pat, rep)
    decreases |s|
  {
    if |s| >= |pat| {
      if s[..|pat|] == pat {
        assert |s[|pat|..]| < |s|;
        if |pat| == 1 {
          ReplaceAllAvoids(s[1..], pat, rep, c);
        } else {
          assert c !in s[|pat|..] by {
            forall j | 0 <= j < |s[|pat|..]| ensures s[|pat|..][j] != c {
              assert s[|pat|..][j] == s[j + |pat|];
            }
          }
          ReplaceAllAvoids(s[|pat|..], pat, rep, c);
        }
      } else {
        if |pat| == 1 {
          assert s[0] != c by { assert s[..1] == [s[0]]; }
        }
        assert c !in s[1..] || |pat| == 1 by {
          forall j | 0 <= j < |s[1..]| && c !in s ensures s[1..][j] != c {
            assert s[1..][j] == s[j + 1];
          }
        }
        ReplaceAllAvoids(s[1..], pat, rep, c);
      }
    }
  }

  /** The symbol whose exchange rules are used: crude oil (BCO-) uses the
      bitcoin rules, and USD/PERP quoted symbols use the USDT ones. The
      second and third rewrites start again from the traded symbol, so for
      a BCO- symbol ending in -USD or -PERP the BTC- substitution is lost. */
  function RewriteSymbol(symbol: string): string {
    var bco := ReplaceAll(symbol, "BCO-", "BTC-");
    var usd := if EndsWith(symbol, "-USD") then ReplaceAll(symbol, "-USD", "-USDT") else bco;
    if EndsWith(symbol, "-PERP") then ReplaceAll(symbol, "-PERP", "-USDT") else usd
  }

  /** A -USD or -PERP symbol is always rewritten to a -USDT one. */
  lemma RewriteSymbolQuotesUsdt(symbol: string)
    requires EndsWith(symbol, "-USD") || EndsWith(symbol, "-PERP")
    ensures EndsWith(RewriteSymbol(symbol), "-USDT")
  {
    var usd, perp := "-USD", "-PERP";
    assert BorderFree(usd) by {
      forall k | 0 < k < |usd| ensures usd[k..] != usd[..|usd| - k] {
        assert usd[k..][0] != '-';
      }
    }
    assert BorderFree(perp) by {
      forall k | 0 < k < |perp| ensures perp[k..] != perp[..|perp| - k] {
        assert perp[k..][0] != '-';
      }
    }
    if EndsWith(symbol, "-PERP") {
      ReplaceAllKeepsSuffix(symbol, perp, "-USDT");
    } else {
      ReplaceAllKeepsSuffix(symbol, usd, "-USDT");
    }
  }

  /** A symbol without BCO- that is not quoted in USD or PERP is used as is. */
  lemma RewriteSymbolPlain(symbol: string)
    requires !Contains(symbol, "BCO-") && !EndsWith(symbol, "-USD") && !EndsWith(symbol, "-PERP")
    ensures RewriteSymbol(symbol) == symbol
  {
    ReplaceAllAbsent(symbol, "BCO-", "BTC-");
  }

  /** The crude oil substitution survives only for symbols that are not
      rewritten to USDT: BCO-USDT uses the BTC rules, BCO-USD does not. */
  lemma RewriteSymbolDropsBco()
    ensures RewriteSymbol("BCO-USDT") == "BTC-USDT"
    ensures RewriteSymbol("BCO-USD") == "BCO-USDT"
  {
    BcoUsdtUsesBtc();
    BcoUsdQuotedInUsdt();
    assert "BCO-USDT"[8 - 4..] == "USDT" && "BCO-USDT"[8 - 5..] == "-USDT";
    assert "BCO-USD"[7 - 4..] == "-USD" && "BCO-USD"[7 - 5..] == "O-USD";
  }

  /** The BTC substitution on BCO-USDT. */
  lemma BcoUsdtUsesBtc()
    ensures ReplaceAll("BCO-USDT", "BCO-", "BTC-") == "BTC-USDT"
  {
    assert "BCO-USDT"[..4] == "BCO-" && "BCO-USDT"[4..] == "USDT";
    assert "USDT"[..4] != "BCO-" && "USDT"[1..] == "SDT";
    assert ReplaceAll("USDT", "BCO-", "BTC-") == "USDT";
  }

  /** The USDT rewrite of BCO-USD, which starts from the traded symbol. */
  lemma BcoUsdQuotedInUsdt()
    ensures ReplaceAll("BCO-USD", "-USD", "-USDT") == "BCO-USDT"
  {
    assert "BCO-USD"[..4] != "-USD" && "BCO-USD"[1..] == "CO-USD";
    assert "CO-USD"[..4] != "-USD" && "CO-USD"[1..] == "O-USD";
    assert "O-USD"[..4] != "-USD" && "O-USD"[1..] == "-USD";
    assert "-USD"[..4] == "-USD" && "-USD"[4..] == "";
    assert ReplaceAll("-USD", "-USD", "-USDT") == "-USDT";
    assert ReplaceAll("O-USD", "-USD", "-USDT") == "O-USDT";
    assert ReplaceAll("CO-USD", "-USD", "-USDT") == "CO-USDT";
  }

  /** The name of the local exchange rule file: the exchange (Bybit when
      trading with Bybit rules) without spaces, then ExchangeInfo.json, with
      plain Binance mapped to the Binance Futures file. */
  function CacheFileName(exchange: string, tradeWithBybitRules: bool): string {
    var exc := if tradeWithBybitRules then "Bybit Perpetual" else exchange;
    ReplaceAll(ReplaceAll(exc, " ", "") + "ExchangeInfo.json", "BinanceExch", "BinanceFuturesExch")
  }

  /** Plain Binance uses the Binance Futures rule file: the name has no
      space to drop, and the one BinanceExch in it is widened. */
  lemma CacheFileNameBinance(exchange: string)
    requires exchange == "Binance"
    ensures CacheFileName(exchange, false) == "BinanceFuturesExchangeInfo.json"
  {
    assert ReplaceAll(exchange, " ", "") == exchange by {
      HeadAbsentNotContains(exchange, " ");
      ReplaceAllAbsent(exchange, " ", "");
    }
    BinanceFileWidened(exchange + "ExchangeInfo.json", "BinanceExch", "BinanceFuturesExch");
  }

  /** The one BinanceExch in the plain Binance file name is widened. */
  lemma BinanceFileWidened(s: string, pat: string, rep: string)
    requires s == "BinanceExchangeInfo.json" && pat == "BinanceExch" && rep == "BinanceFuturesExch"
    ensures ReplaceAll(s, pat, rep) == "BinanceFuturesExchangeInfo.json"
  {
    var rest := s[|pat|..];
    BinanceFileParts(s, pat, rep, rest);
    ReplaceAllAtMatch(s, pat, rep);
    HeadAbsentNotContains(rest, pat);
    ReplaceAllAbsent(rest, pat, rep);
  }

  /** The plain Binance file name starts with the pattern, and the text
      after it has no B to start another match. */
  lemma BinanceFileParts(s: string, pat: string, rep: string, rest: string)
    requires s == "BinanceExchangeInfo.json" && pat == "BinanceExch" && rep == "BinanceFuturesExch"
    requires rest == s[|pat|..]
    ensures StartsWith(s, pat) && pat[0] !in rest
    ensures rep + rest == "BinanceFuturesExchangeInfo.json"
  {
    assert rest == "angeInfo.json";
  }

  /** A match at the start is replaced and the search resumes after it. */
  lemma ReplaceAllAtMatch(s: string, pat: string, rep: string)
    requires pat != [] && StartsWith(s, pat)
    ensures ReplaceAll(s, pat, rep) == rep + ReplaceAll(s[|pat|..], pat, rep)
  {
  }

  /** No cache file name contains a space. */
  lemma CacheFileNameHasNoSpace(exchange: string, tradeWithBybitRules: bool)
    ensures ' ' !in CacheFileName(exchange, tradeWithBybitRules)
  {
    var exc := if tradeWithBybitRules then "Bybit Perpetual" else exchange;
    ReplaceAllAvoids(exc, " ", "", ' ');
    var joined := ReplaceAll(exc, " ", "") + "ExchangeInfo.json";
    assert ' ' !in joined;
    ReplaceAllAvoids(joined, "BinanceExch", "BinanceFuturesExch", ' ');
  }

  /** The increment-to-precision table used for FTX rules. */
  const DecTable: map<string, nat> := map[
    "0" := 0,
    "0.1" := 1,
    "0.01" := 2,
    "0.001" := 3,
    "0.0001" := 4,
    "0.00001" := 5,
    "0.000001" := 6,
    "0.0000001" := 7,
    "0.00000001" := 8
  ]

  /** Looking up an increment; an unknown increment raises KeyError. */
  function Dec(increment: string): Option<nat> {
    if increment in DecTable then Some(DecTable[increment]) else None
  }

  function Zeros(n: nat): (z: string)
    ensures |z| == n && forall i :: 0 <= i < n ==> z[i] == '0'
  {
    if n == 0 then "" else "0" + Zeros(n - 1)
  }

  /** The decimal text of the increment 10^-k ("0" for k = 0). */
  function IncrementText(k: nat): string {
    if k == 0 then "0" else "0." + Zeros(k - 1) + "1"
  }

  /** The table maps the text of 10^-k to k, for k up to 8, and nothing else. */
  lemma DecTableIsPrecision(increment: string, k: nat)
    ensures k <= 8 ==> Dec(IncrementText(k)) == Some(k)
    ensures Dec(increment) == Some(k) ==> k <= 8 && increment == IncrementText(k)
  {
    assert IncrementText(0) == "0";
    assert IncrementText(1) == "0.1";
    assert IncrementText(2) == "0.01";
    assert IncrementText(3) == "0.001";
    assert IncrementText(4) == "0.0001";
    assert IncrementText(5) == "0.00001";
    assert IncrementText(6) == "0.000001";
    assert IncrementText(7) == "0.0000001";
    assert IncrementText(8) == "0.00000001";
  }

  /** The text after the first '.', if there is one. */
  function AfterFirstDot(s: string): Option<string> {
    if s == [] then None
    else if s[0] == '.' then Some(s[1..])
    else AfterFirstDot(s[1..])
  }

  /** The text up to the first '.'. */
  function UpToDot(s: string): (r: string)
    ensures |r| <= |s| && '.' !in r
  {
    if s == [] || s[0] == '.' then [] else [s[0]] + UpToDot(s[1..])
  }

  /** Bybit quantity precision: the length of the second '.'-separated field
      of the quantity step; a step without a '.' (IndexError) gives 1. */
  function BybitQtyPrecision(qtyStep: string): nat {
    match AfterFirstDot(qtyStep)
    case None => 1
    case Some(rest) => |UpToDot(rest)|
  }

  lemma {:induction false} AfterFirstDotSplit(w: string, f: string)
    requires '.' !in w
    ensures AfterFirstDot(w + "." + f) == Some(f)
    decreases |w|
  {
    if w == [] {
      assert w + "." + f == ['.'] + f;
    } else {
      assert (w + "." + f)[1..] == w[1..] + "." + f;
      AfterFirstDotSplit(w[1..], f);
    }
  }

  lemma {:induction false} UpToDotWhole(f: string)
    requires '.' !in f
    ensures UpToDot(f) == f
    decreases |f|
  {
    if f != [] {
      UpToDotWhole(f[1..]);
    }
  }

  /** For a step written as digits, one dot and a fraction, the precision
      is the number of fraction digits. */
  lemma BybitQtyPrecisionCountsDecimals(w: string, f: string)
    requires '.' !in w && '.' !in f
    ensures BybitQtyPrecision(w + "." + f) == |f|
  {
    AfterFirstDotSplit(w, f);
    UpToDotWhole(f);
  }

  /** A step without a dot falls back to precision 1. */
  lemma {:induction false} BybitQtyPrecisionNoDot(s: string)
    requires '.' !in s
    ensures BybitQtyPrecision(s) == 1
  {
    NoDotNoSplit(s);
  }

  lemma {:induction false} NoDotNoSplit(s: string)
    requires '.' !in s
    ensures AfterFirstDot(s) == None
    decreases |s|
  {
    if s != [] {
      NoDotNoSplit(s[1..]);
    }
  }

  /** A Binance rule record is taken for the symbol when its name equals the
      symbol without dashes or contains it. */
  predicate BinanceSymbolMatches(candidate: string, symbol: string) {
    var plain := ReplaceAll(symbol, "-", "");
    candidate == plain || Contains(candidate, plain)
  }

  /** The first record, in file order, whose name matches the symbol. */
  function FindBinanceRules(names: seq<string>, symbol: string): (r: Option<nat>)
    ensures r.Some? ==> r.value < |names| && BinanceSymbolMatches(names[r.value], symbol)
    ensures r.Some? ==> forall j :: 0 <= j < r.value ==> !BinanceSymbolMatches(names[j], symbol)
    ensures r.None? ==> forall j :: 0 <= j < |names| ==> !BinanceSymbolMatches(names[j], symbol)
  {
    if names == [] then None
    else if BinanceSymbolMatches(names[0], symbol) then Some(0)
    else match FindBinanceRules(names[1..], symbol)
      case None => None
      case Some(i) => Some(i + 1)
  }

  /** The exact match is subsumed by the substring match. */
  lemma {:induction false} ContainsSelf(s: string)
    ensures Contains(s, s)
  {
    assert StartsWith(s, s);
  }

  lemma BinanceMatchIsSubstring(candidate: string, symbol: string)
    ensures BinanceSymbolMatches(candidate, symbol) <==> Contains(candidate, ReplaceAll(symbol, "-", ""))
  {
    ContainsSelf(candidate);
  }
}
