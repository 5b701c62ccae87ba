/** The trade history endpoints of api/routes/history.py: the filtered and paginated trade
    listing, the summary with its per-symbol and per-strategy aggregates, the trade size
    distribution of the analytics endpoint and the P&L timeline of a bot session. The rows a
    query returns are inputs, already restricted to the user and in the query's order. */
module HistoryRoutes {
  import opened Wrappers
  import opened Records

  // ---------------------------------------------------------------------------------------
  // Side filter and pagination
  // ---------------------------------------------------------------------------------------

  /** `str.upper()` on one character, for the ASCII letters. */
  function UpperChar(c: char): char
  {
    if 'a' <= c <= 'z' then (c as int - 32) as char else c
  }

  function Upper(s: string): (r: string)
    ensures |r| == |s|
    ensures forall i :: 0 <= i < |s| ==> r[i] == UpperChar(s[i])
  {
    seq(|s|, i requires 0 <= i < |s| => UpperChar(s[i]))
  }

  const SideError := "Side must be 'BUY' or 'SELL'"

  /** The `side` query parameter: absent or empty means no side filter; otherwise its upper-case
      form is the filter, and it must be BUY or SELL. */
  function SideFilter(side: Option<string>): (r: Result<Option<string>>)
    ensures side.None? || side.value == "" ==> r == Ok(None)
    ensures side.Some? && side.value != "" ==>
      (r.Ok? <==> Upper(side.value) == "BUY" || Upper(side.value) == "SELL")
    ensures r.Ok? && r.value.Some? ==>
      side.Some? && r.value.value == Upper(side.value) && r.value.value in ["BUY", "SELL"]
    ensures r.Err? ==> r.message == SideError
  {
    if side.None? || side.value == "" then Ok(None)
    else if Upper(side.value) == "BUY" || Upper(side.value) == "SELL" then Ok(Some(Upper(side.value)))
    else Err(SideError)
  }

  /** `s` spells the upper-case ASCII word `word` in any mix of upper and lower case. */
  predicate SpelledInAnyCase(s: string, word: string)
  {
    |s| == |word| && forall i :: 0 <= i < |s| ==> s[i] == word[i] || s[i] as int == word[i] as int + 32
  }

  lemma UpperIsWord(s: string, word: string)
    requires forall i :: 0 <= i < |word| ==> 'A' <= word[i] <= 'Z'
    ensures Upper(s) == word <==> SpelledInAnyCase(s, word)
  {
    if SpelledInAnyCase(s, word) {
      assert forall i :: 0 <= i < |s| ==> Upper(s)[i] == word[i];
    }
    if Upper(s) == word {
      assert forall i :: 0 <= i < |s| ==> UpperChar(s[i]) == word[i];
    }
  }

  /** The side filter accepts exactly the spellings of BUY and SELL in any case. */
  lemma {:induction false} SideFilterAcceptsAnyCase(s: string)
    requires s != ""
    ensures SideFilter(Some(s)).Ok? <==> SpelledInAnyCase(s, "BUY") || SpelledInAnyCase(s, "SELL")
    ensures SideFilter(Some(s)).Ok? ==> SideFilter(Some(s)).value.Some?
  {
    UpperIsWord(s, "BUY");
    UpperIsWord(s, "SELL");
  }

  /** A trade passes the listing's filters. Python truthiness switches a filter off when it is
      absent, an empty symbol or strategy id 0; `side` is the filter `SideFilter` produced. */
  predicate Selected(t: Trade, symbol: Option<string>, strategyId: Option<int>, side: Option<string>)
  {
    (symbol.None? || symbol.value == "" || t.symbol == symbol.value) &&
    (strategyId.None? || strategyId.value == 0 || t.strategyId == strategyId) &&
    (side.None? || t.side == side.value)
  }

  /** The rows of the filtered query, in the order of `trades`. */
  function Selection(trades: seq<Trade>, symbol: Option<string>, strategyId: Option<int>, side: Option<string>): (r: seq<Trade>)
    ensures |r| <= |trades|
    ensures forall t :: t in r <==> t in trades && Selected(t, symbol, strategyId, side)
  {
    if trades == [] then []
    else
      var head := if Selected(trades[0], symbol, strategyId, side) then [trades[0]] else [];
      head + Selection(trades[1..], symbol, strategyId, side)
  }

  /** Filtering a concatenation filters each part. */
  lemma {:induction false} SelectionAppend(a: seq<Trade>, b: seq<Trade>, symbol: Option<string>, strategyId: Option<int>, side: Option<string>)
    ensures Selection(a + b, symbol, strategyId, side) == Selection(a, symbol, strategyId, side) + Selection(b, symbol, strategyId, side)
  {
    if a == [] {
      assert a + b == b;
    } else {
      assert (a + b)[0] == a[0];
      assert (a + b)[1..] == a[1..] + b;
      SelectionAppend(a[1..], b, symbol, strategyId, side);
    }
  }

  /** Without any filter the query returns every row, in order. */
  lemma {:induction false} SelectionUnfiltered(trades: seq<Trade>)
    ensures Selection(trades, None, None, None) == trades
  {
    if trades != [] {
      SelectionUnfiltered(trades[1..]);
    }
  }

  /** The response of the trade listing: one page of rows and the pagination record. */
  datatype Page = Page(trades: seq<Trade>, total: nat, limit: int, offset: int, hasMore: bool)

  function Min(a: int, b: int): int { if a <= b then a else b }

  function Max(a: int, b: int): int { if a >= b then a else b }

  /** `.offset(offset).limit(limit)`: the rows from `offset` up to `offset + limit`, as many of
      them as exist. */
  function Window(rows: seq<Trade>, limit: int, offset: int): (page: seq<Trade>)
    requires limit >= 1 && offset >= 0
    ensures |page| == Min(limit, Max(0, |rows| - offset))
    ensures forall i :: 0 <= i < |page| ==> page[i] == rows[offset + i]
  {
    rows[Min(offset, |rows|)..Min(offset + limit, |rows|)]
  }

  /** The trade listing. `limit` must lie in [1, 1000] and `offset` be non-negative (the query
      declarations reject anything else before the handler runs), and the side filter must be
      valid; the page holds up to `limit` of the selected rows, starting at `offset`. */
  function TradingHistory(trades: seq<Trade>, symbol: Option<string>, strategyId: Option<int>,
                          side: Option<string>, limit: int, offset: int): (r: Result<Page>)
    ensures r.Err? <==> limit < 1 || limit > 1000 || offset < 0 || SideFilter(side).Err?
    ensures r.Ok? ==> r.value.limit == limit && r.value.offset == offset
    ensures r.Ok? ==> r.value.total == |Selection(trades, symbol, strategyId, SideFilter(side).value)|
    ensures r.Ok? ==> |r.value.trades| == Min(limit, Max(0, r.value.total - offset))
    ensures r.Ok? ==> forall t :: t in r.value.trades ==>
      t in trades && Selected(t, symbol, strategyId, SideFilter(side).value)
    ensures r.Ok? ==> (r.value.hasMore <==> offset + limit < r.value.total)
    ensures r.Ok? ==> r.value.trades == Window(Selection(trades, symbol, strategyId, SideFilter(side).value), limit, offset)
  {
    if limit < 1 || limit > 1000 then Err("limit must be between 1 and 1000")
    else if offset < 0 then Err("offset must be non-negative")
    else match SideFilter(side)
      case Err(m) => Err(m)
      case Ok(filter) =>
        var rows := Selection(trades, symbol, strategyId, filter);
        var page := Window(rows, limit, offset);
        assert forall t :: t in page ==> t in rows;
        Ok(Page(page, |rows|, limit, offset, offset + limit < |rows|))
  }

  /** `has_more` is set exactly when selected rows remain after the page returned. */
  lemma HasMoreIffRowsRemain(trades: seq<Trade>, symbol: Option<string>, strategyId: Option<int>,
                             side: Option<string>, limit: int, offset: int)
    requires TradingHistory(trades, symbol, strategyId, side, limit, offset).Ok?
    ensures var p := TradingHistory(trades, symbol, strategyId, side, limit, offset).value;
      p.hasMore <==> offset + |p.trades| < p.total
  {
  }

  // ---------------------------------------------------------------------------------------
  // Timeframes
  // ---------------------------------------------------------------------------------------

  /** The values the `timeframe` query parameter's pattern admits. */
  const Timeframes: seq<string> := ["1d", "7d", "30d", "90d", "1y", "all"]

  /** The number of days a timeframe reaches back, `None` for "all" (no lower bound); any other
      value is refused by the parameter's pattern. */
  function TimeframeDays(timeframe: string): (r: Result<Option<nat>>)
    ensures r.Ok? <==> timeframe in Timeframes
    ensures r.Ok? && r.value.None? <==> timeframe == "all"
    ensures timeframe == "1d" ==> r == Ok(Some(1))
    ensures timeframe == "7d" ==> r == Ok(Some(7))
    ensures timeframe == "30d" ==> r == Ok(Some(30))
    ensures timeframe == "90d" ==> r == Ok(Some(90))
    ensures timeframe == "1y" ==> r == Ok(Some(365))
  {
    if timeframe == "1d" then Ok(Some(1))
    else if timeframe == "7d" then Ok(Some(7))
    else if timeframe == "30d" then Ok(Some(30))
    else if timeframe == "90d" then Ok(Some(90))
    else if timeframe == "1y" then Ok(Some(365))
    else if timeframe == "all" then Ok(None)
    else Err("timeframe must match ^(1d|7d|30d|90d|1y|all)$")
  }

  /** A trade `ageDays` days old passes the filter `timestamp >= now - timedelta(days)`. */
  predicate InWindow(ageDays: real, window: Option<nat>)
  {
    window.None? || ageDays <= window.value as real
  }

  /** Every trade inside a timeframe is inside every later, longer one in the list, and "all"
      takes every trade. */
  lemma TimeframesNested(i: nat, j: nat, ageDays: real)
    requires i <= j < |Timeframes|
    requires InWindow(ageDays, TimeframeDays(Timeframes[i]).value)
    ensures InWindow(ageDays, TimeframeDays(Timeframes[j]).value)
    ensures InWindow(ageDays, TimeframeDays("all").value)
  {
  }

  // ---------------------------------------------------------------------------------------
  // Summary
  // ---------------------------------------------------------------------------------------

  /** The number of trades whose side is exactly `side`. */
  function CountSide(trades: seq<Trade>, side: string): (n: nat)
    ensures n <= |trades|
  {
    if trades == [] then 0 else (if trades[0].side == side then 1 else 0) + CountSide(trades[1..], side)
  }

  /** Counting a side is the size of the listing filtered on that side. */
  lemma {:induction false} CountSideIsSelection(trades: seq<Trade>, side: string)
    ensures CountSide(trades, side) == |Selection(trades, None, None, Some(side))|
  {
    if trades != [] {
      CountSideIsSelection(trades[1..], side);
    }
  }

  /** BUY and SELL counts never exceed the number of trades, and add up to it when every trade
      has one of those two sides. */
  lemma {:induction false} SideCountsCover(trades: seq<Trade>)
    ensures CountSide(trades, "BUY") + CountSide(trades, "SELL") <= |trades|
    ensures (forall i :: 0 <= i < |trades| ==> trades[i].side in ["BUY", "SELL"]) ==>
      CountSide(trades, "BUY") + CountSide(trades, "SELL") == |trades|
  {
    if trades != [] {
      SideCountsCover(trades[1..]);
      assert forall i :: 1 <= i < |trades| ==> trades[1..][i - 1] == trades[i];
    }
  }

  /** `total / n` for a positive count. */
  function Mean(total: real, n: nat): (r: real)
    requires n > 0
    ensures r * n as real == total
    ensures total >= 0.0 ==> r >= 0.0
  {
    total / n as real
  }

  datatype SideCounts = SideCounts(buyTrades: nat, sellTrades: nat)

  /** The `summary` object; `sides` is absent from the response for an empty trade set. */
  datatype Summary = Summary(
    totalTrades: nat,
    totalVolume: real,
    totalFees: real,
    winRate: real,
    avgTradeSize: real,
    sides: Option<SideCounts>)

  /** The summary of a trade set: all zeros when it is empty, otherwise the totals, the mean
      trade value and the BUY/SELL counts; the win rate is a constant 0. */
  function TradingSummary(trades: seq<Trade>): (r: Summary)
    ensures trades == [] ==> r == Summary(0, 0.0, 0.0, 0.0, 0.0, None)
    ensures trades != [] ==>
              r.totalTrades == |trades| && r.totalVolume == Volume(trades) &&
              r.totalFees == Fees(trades) && r.winRate == 0.0
    ensures trades != [] ==> r.avgTradeSize * (|trades| as real) == Volume(trades)
    ensures trades != [] ==> r.sides == Some(SideCounts(CountSide(trades, "BUY"), CountSide(trades, "SELL")))
    ensures trades != [] ==>
              r.sides.Some? && r.sides.value.buyTrades + r.sides.value.sellTrades <= r.totalTrades
  {
    if trades == [] then Summary(0, 0.0, 0.0, 0.0, 0.0, None)
    else
      SideCountsCover(trades);
      Summary(|trades|, Volume(trades), Fees(trades), 0.0, Mean(Volume(trades), |trades|),
              Some(SideCounts(CountSide(trades, "BUY"), CountSide(trades, "SELL"))))
  }

  /** The symbols traded in `trades`. */
  function Symbols(trades: seq<Trade>): set<string>
  {
    set t | t in trades :: t.symbol
  }

  lemma SymbolsSnoc(trades: seq<Trade>, t: Trade)
    ensures Symbols(trades + [t]) == Symbols(trades) + {t.symbol}
  {
    assert forall u :: u in trades + [t] <==> u in trades || u == t;
  }

  /** No more distinct symbols than trades. */
  lemma {:induction false} SymbolsBound(trades: seq<Trade>)
    ensures |Symbols(trades)| <= |trades|
    ensures trades != [] ==> |Symbols(trades)| >= 1
  {
    if trades != [] {
      var p := trades[..|trades| - 1];
      assert p + [trades[|trades| - 1]] == trades;
      SymbolsSnoc(p, trades[|trades| - 1]);
      SymbolsBound(p);
    }
  }

  // ---------------------------------------------------------------------------------------
  // Per-symbol aggregation
  // ---------------------------------------------------------------------------------------

  /** An entry of `by_symbol`. */
  datatype SymbolStats = SymbolStats(
    totalTrades: nat,
    totalVolume: real,
    buyVolume: real,
    sellVolume: real,
    totalFees: real)

  const NoSymbolStats := SymbolStats(0, 0.0, 0.0, 0.0, 0.0)

  /** One trade added to its symbol's entry; every side other than BUY counts as sell volume. */
  function AddToSymbol(s: SymbolStats, t: Trade): SymbolStats
  {
    SymbolStats(s.totalTrades + 1, s.totalVolume + t.totalValue,
      if t.side == "BUY" then s.buyVolume + t.totalValue else s.buyVolume,
      if t.side == "BUY" then s.sellVolume else s.sellVolume + t.totalValue,
      s.totalFees + t.fee)
  }

  /** The entry for `symbol` after the loop has seen `trades`. */
  function SymbolStatsOf(trades: seq<Trade>, symbol: string): SymbolStats
  {
    if trades == [] then NoSymbolStats
    else
      var before := SymbolStatsOf(trades[..|trades| - 1], symbol);
      if trades[|trades| - 1].symbol == symbol then AddToSymbol(before, trades[|trades| - 1]) else before
  }

  lemma {:induction false} SymbolAbsent(trades: seq<Trade>, symbol: string)
    requires symbol !in Symbols(trades)
    ensures SymbolStatsOf(trades, symbol) == NoSymbolStats
  {
    if trades != [] {
      var p := trades[..|trades| - 1];
      assert p + [trades[|trades| - 1]] == trades;
      SymbolsSnoc(p, trades[|trades| - 1]);
      SymbolAbsent(p, symbol);
    }
  }

  /** `by_symbol` as the loop builds it: one entry per traded symbol. */
  method BySymbol(trades: seq<Trade>) returns (m: map<string, SymbolStats>)
    ensures m.Keys == Symbols(trades)
    ensures forall s :: s in m ==> m[s] == SymbolStatsOf(trades, s)
  {
    m := map[];
    var i := 0;
    while i < |trades|
      invariant 0 <= i <= |trades|
      invariant m.Keys == Symbols(trades[..i])
      invariant forall s :: s in m ==> m[s] == SymbolStatsOf(trades[..i], s)
    {
      var t := trades[i];
      if t.symbol !in m {
        SymbolAbsent(trades[..i], t.symbol);
      }
      var current := if t.symbol in m then m[t.symbol] else NoSymbolStats;
      m := m[t.symbol := AddToSymbol(current, t)];
      assert trades[..i + 1] == trades[..i] + [t];
      assert trades[..i + 1][..i] == trades[..i];
      SymbolsSnoc(trades[..i], t);
      i := i + 1;
    }
    assert trades[..|trades|] == trades;
  }

  /** Within each symbol's entry the buy and sell volumes add up to its total volume, and it
      counts at most the trades seen. */
  lemma {:induction false} SymbolVolumesSplit(trades: seq<Trade>, symbol: string)
    ensures SymbolStatsOf(trades, symbol).buyVolume + SymbolStatsOf(trades, symbol).sellVolume
      == SymbolStatsOf(trades, symbol).totalVolume
    ensures SymbolStatsOf(trades, symbol).totalTrades <= |trades|
  {
    if trades != [] {
      SymbolVolumesSplit(trades[..|trades| - 1], symbol);
    }
  }

  /** The trade counts of the entries for `symbols`. */
  function SymbolCounts(trades: seq<Trade>, symbols: seq<string>): nat
  {
    if symbols == [] then 0 else SymbolStatsOf(trades, symbols[0]).totalTrades + SymbolCounts(trades, symbols[1..])
  }

  predicate DistinctStrings(s: seq<string>)
  {
    forall i, j :: 0 <= i < j < |s| ==> s[i] != s[j]
  }

  lemma {:induction false} SymbolCountsSnoc(trades: seq<Trade>, symbols: seq<string>)
    requires trades != [] && DistinctStrings(symbols)
    ensures SymbolCounts(trades, symbols) ==
      SymbolCounts(trades[..|trades| - 1], symbols) + (if trades[|trades| - 1].symbol in symbols then 1 else 0)
  {
    if symbols != [] {
      assert DistinctStrings(symbols[1..]) by {
        assert forall i :: 0 <= i < |symbols[1..]| ==> symbols[1..][i] == symbols[i + 1];
      }
      SymbolCountsSnoc(trades, symbols[1..]);
      assert symbols[0] !in symbols[1..] by {
        assert forall i :: 0 <= i < |symbols[1..]| ==> symbols[1..][i] == symbols[i + 1];
      }
      assert forall x :: x in symbols <==> x == symbols[0] || x in symbols[1..];
    }
  }

  /** The per-symbol counts add up to the number of trades: summed over any list of distinct
      symbols that covers every traded one, such as the keys of `by_symbol`. */
  lemma {:induction false} SymbolCountsSumToTotal(trades: seq<Trade>, symbols: seq<string>)
    requires DistinctStrings(symbols)
    requires forall t :: t in trades ==> t.symbol in symbols
    ensures SymbolCounts(trades, symbols) == |trades|
  {
    if trades == [] {
      SymbolCountsEmpty(symbols);
    } else {
      var p := trades[..|trades| - 1];
      assert forall t :: t in p ==> t in trades;
      assert trades[|trades| - 1] in trades;
      SymbolCountsSnoc(trades, symbols);
      SymbolCountsSumToTotal(p, symbols);
    }
  }

  lemma {:induction false} SymbolCountsEmpty(symbols: seq<string>)
    ensures SymbolCounts([], symbols) == 0
  {
    if symbols != [] {
      SymbolCountsEmpty(symbols[1..]);
    }
  }

  // ---------------------------------------------------------------------------------------
  // Per-strategy aggregation
  // ---------------------------------------------------------------------------------------

  /** The name of the strategy a trade belongs to, through its nullable `strategy_id` and the
      Strategy table `names`; `None` when the trade has no strategy row. */
  function StrategyName(t: Trade, names: map<int, string>): Option<string>
  {
    if t.strategyId.Some? && t.strategyId.value in names then Some(names[t.strategyId.value]) else None
  }

  /** An entry of `by_strategy`. */
  datatype StrategyStats = StrategyStats(totalTrades: nat, totalVolume: real, totalFees: real)

  const NoStrategyStats := StrategyStats(0, 0.0, 0.0)

  /** The entry for strategy name `name` after the loop has seen `trades`. */
  function StrategyStatsOf(trades: seq<Trade>, names: map<int, string>, name: string): StrategyStats
  {
    if trades == [] then NoStrategyStats
    else
      var before := StrategyStatsOf(trades[..|trades| - 1], names, name);
      var t := trades[|trades| - 1];
      if StrategyName(t, names) == Some(name) then AddToStrategy(before, t) else before
  }

  /** One trade added to its strategy's entry. */
  function AddToStrategy(s: StrategyStats, t: Trade): StrategyStats
  {
    StrategyStats(s.totalTrades + 1, s.totalVolume + t.totalValue, s.totalFees + t.fee)
  }

  lemma StrategyStatsSnoc(trades: seq<Trade>, t: Trade, names: map<int, string>)
    ensures forall n ::
              StrategyStatsOf(trades + [t], names, n) ==
              (if StrategyName(t, names) == Some(n) then AddToStrategy(StrategyStatsOf(trades, names, n), t)
               else StrategyStatsOf(trades, names, n))
  {
    assert (trades + [t])[..|trades + [t]| - 1] == trades;
  }

  /** The names of the strategies that made trades in `trades`. */
  function StrategyNames(trades: seq<Trade>, names: map<int, string>): set<string>
  {
    set t | t in trades && StrategyName(t, names).Some? :: StrategyName(t, names).value
  }

  /** The number of trades that belong to some strategy. */
  function Attributed(trades: seq<Trade>, names: map<int, string>): (n: nat)
    ensures n <= |trades|
    ensures n == |trades| <==> forall i :: 0 <= i < |trades| ==> StrategyName(trades[i], names).Some?
    ensures n == 0 <==> forall i :: 0 <= i < |trades| ==> StrategyName(trades[i], names).None?
  {
    if trades == [] then 0
    else
      var p := trades[..|trades| - 1];
      assert forall i :: 0 <= i < |p| ==> p[i] == trades[i];
      Attributed(p, names) + (if StrategyName(trades[|trades| - 1], names).Some? then 1 else 0)
  }

  lemma StrategyNamesSnoc(trades: seq<Trade>, t: Trade, names: map<int, string>)
    ensures StrategyNames(trades + [t], names) ==
      StrategyNames(trades, names) + (if StrategyName(t, names).Some? then {StrategyName(t, names).value} else {})
  {
    assert forall u :: u in trades + [t] <==> u in trades || u == t;
  }

  lemma {:induction false} StrategyAbsent(trades: seq<Trade>, names: map<int, string>, name: string)
    requires name !in StrategyNames(trades, names)
    ensures StrategyStatsOf(trades, names, name) == NoStrategyStats
  {
    if trades != [] {
      var p := trades[..|trades| - 1];
      assert p + [trades[|trades| - 1]] == trades;
      StrategyNamesSnoc(p, trades[|trades| - 1], names);
      StrategyAbsent(p, names, name);
    }
  }

  /** `by_strategy` as the loop builds it: one entry per strategy name, trades without a
      strategy skipped. */
  method ByStrategy(trades: seq<Trade>, names: map<int, string>) returns (m: map<string, StrategyStats>)
    ensures m.Keys == StrategyNames(trades, names)
    ensures forall n :: n in m ==> m[n] == StrategyStatsOf(trades, names, n)
  {
    m := map[];
    var i := 0;
    while i < |trades|
      invariant 0 <= i <= |trades|
      invariant m.Keys == StrategyNames(trades[..i], names)
      invariant forall n :: n in m ==> m[n] == StrategyStatsOf(trades[..i], names, n)
    {
      var seen, t := trades[..i], trades[i];
      assert trades[..i + 1] == seen + [t];
      StrategyNamesSnoc(seen, t, names);
      StrategyStatsSnoc(seen, t, names);
      var name := StrategyName(t, names);
      if name.Some? {
        if name.value !in m {
          StrategyAbsent(seen, names, name.value);
        }
        var current := if name.value in m then m[name.value] else NoStrategyStats;
        m := m[name.value := AddToStrategy(current, t)];
      }
      assert m.Keys == StrategyNames(seen + [t], names);
      assert forall n :: n in m ==> m[n] == StrategyStatsOf(seen + [t], names, n);
      i := i + 1;
    }
    assert trades[..|trades|] == trades;
  }

  /** The trade counts of the entries for `strategyNames`. */
  function StrategyCounts(trades: seq<Trade>, names: map<int, string>, strategyNames: seq<string>): nat
  {
    if strategyNames == [] then 0
    else StrategyStatsOf(trades, names, strategyNames[0]).totalTrades + StrategyCounts(trades, names, strategyNames[1..])
  }

  lemma {:induction false} StrategyCountsSnoc(trades: seq<Trade>, names: map<int, string>, strategyNames: seq<string>)
    requires trades != [] && DistinctStrings(strategyNames)
    ensures var t := trades[|trades| - 1];
      StrategyCounts(trades, names, strategyNames) == StrategyCounts(trades[..|trades| - 1], names, strategyNames) +
        (if StrategyName(t, names).Some? && StrategyName(t, names).value in strategyNames then 1 else 0)
  {
    if strategyNames != [] {
      var rest := strategyNames[1..];
      assert forall i :: 0 <= i < |rest| ==> rest[i] == strategyNames[i + 1];
      assert DistinctStrings(rest);
      StrategyCountsSnoc(trades, names, rest);
      assert strategyNames[0] !in rest;
      assert forall x :: x in strategyNames <==> x == strategyNames[0] || x in rest;
    }
  }

  lemma {:induction false} StrategyCountsEmpty(names: map<int, string>, strategyNames: seq<string>)
    ensures StrategyCounts([], names, strategyNames) == 0
  {
    if strategyNames != [] {
      StrategyCountsEmpty(names, strategyNames[1..]);
    }
  }

  /** The per-strategy counts add up to the number of trades that have a strategy: trades
      without one appear in no entry. */
  lemma {:induction false} StrategyCountsSumToAttributed(trades: seq<Trade>, names: map<int, string>, strategyNames: seq<string>)
    requires DistinctStrings(strategyNames)
    requires forall t :: t in trades && StrategyName(t, names).Some? ==> StrategyName(t, names).value in strategyNames
    ensures StrategyCounts(trades, names, strategyNames) == Attributed(trades, names)
  {
    if trades == [] {
      StrategyCountsEmpty(names, strategyNames);
    } else {
      var p := trades[..|trades| - 1];
      assert forall t :: t in p ==> t in trades;
      assert trades[|trades| - 1] in trades;
      StrategyCountsSnoc(trades, names, strategyNames);
      StrategyCountsSumToAttributed(p, names, strategyNames);
    }
  }

  // ---------------------------------------------------------------------------------------
  // Trade size distribution (analytics)
  // ---------------------------------------------------------------------------------------

  /** `trade_sizes`: the value of every trade. */
  function Sizes(trades: seq<Trade>): (s: seq<real>)
    ensures |s| == |trades|
    ensures forall i :: 0 <= i < |trades| ==> s[i] == trades[i].totalValue
  {
    seq(|trades|, i requires 0 <= i < |trades| => trades[i].totalValue)
  }

  function CountBelow(s: seq<real>, c: real): nat
  {
    if s == [] then 0 else (if s[0] < c then 1 else 0) + CountBelow(s[1..], c)
  }

  function CountBetween(s: seq<real>, lo: real, hi: real): nat
  {
    if s == [] then 0 else (if lo <= s[0] <= hi then 1 else 0) + CountBetween(s[1..], lo, hi)
  }

  function CountAbove(s: seq<real>, c: real): nat
  {
    if s == [] then 0 else (if s[0] > c then 1 else 0) + CountAbove(s[1..], c)
  }

  /** Below `lo`, between `lo` and `hi` inclusive, and above `hi` split any list when `lo <= hi`. */
  lemma {:induction false} BandsPartition(s: seq<real>, lo: real, hi: real)
    requires lo <= hi
    ensures CountBelow(s, lo) + CountBetween(s, lo, hi) + CountAbove(s, hi) == |s|
  {
    if s != [] {
      BandsPartition(s[1..], lo, hi);
    }
  }

  /** Python's `min` of a non-empty list. */
  function Minimum(s: seq<real>): (r: real)
    requires s != []
    ensures r in s && forall i :: 0 <= i < |s| ==> r <= s[i]
  {
    if |s| == 1 then s[0]
    else
      var m := Minimum(s[1..]);
      assert forall i :: 1 <= i < |s| ==> s[i] == s[1..][i - 1];
      if s[0] <= m then s[0] else m
  }

  /** Python's `max` of a non-empty list. */
  function Maximum(s: seq<real>): (r: real)
    requires s != []
    ensures r in s && forall i :: 0 <= i < |s| ==> r >= s[i]
  {
    if |s| == 1 then s[0]
    else
      var m := Maximum(s[1..]);
      assert forall i :: 1 <= i < |s| ==> s[i] == s[1..][i - 1];
      if s[0] >= m then s[0] else m
  }

  /** The `trade_size_analysis` object. */
  datatype SizeAnalysis = SizeAnalysis(average: real, minimum: real, maximum: real, small: nat, medium: nat, large: nat)

  function SizeDistribution(trades: seq<Trade>): (r: SizeAnalysis)
    ensures trades == [] ==> r == SizeAnalysis(0.0, 0.0, 0.0, 0, 0, 0)
    ensures trades != [] ==> r.average == Mean(Volume(trades), |trades|)
    ensures trades != [] ==>
              r.minimum in Sizes(trades) && r.maximum in Sizes(trades) &&
              forall i :: 0 <= i < |trades| ==> r.minimum <= trades[i].totalValue <= r.maximum
    ensures trades != [] ==>
      r.small == CountBelow(Sizes(trades), r.average * 0.5) &&
      r.medium == CountBetween(Sizes(trades), r.average * 0.5, r.average * 1.5) &&
      r.large == CountAbove(Sizes(trades), r.average * 1.5)
  {
    if trades == [] then SizeAnalysis(0.0, 0.0, 0.0, 0, 0, 0)
    else
      var sizes := Sizes(trades);
      var avg := Mean(Volume(trades), |trades|);
      SizeAnalysis(avg, Minimum(sizes), Maximum(sizes),
        CountBelow(sizes, avg * 0.5), CountBetween(sizes, avg * 0.5, avg * 1.5), CountAbove(sizes, avg * 1.5))
  }

  lemma {:induction false} VolumeNonNegative(trades: seq<Trade>)
    requires forall i :: 0 <= i < |trades| ==> trades[i].totalValue >= 0.0
    ensures Volume(trades) >= 0.0
  {
    if trades != [] {
      assert forall i :: 1 <= i < |trades| ==> trades[1..][i - 1] == trades[i];
      VolumeNonNegative(trades[1..]);
    }
  }

  /** With non-negative trade values the small, medium and large buckets partition the trades:
      each trade falls in exactly one. */
  lemma SizeBucketsPartition(trades: seq<Trade>)
    requires forall i :: 0 <= i < |trades| ==> trades[i].totalValue >= 0.0
    ensures var r := SizeDistribution(trades); r.small + r.medium + r.large == |trades|
  {
    if trades != [] {
      VolumeNonNegative(trades);
      var avg := Mean(Volume(trades), |trades|);
      BandsPartition(Sizes(trades), avg * 0.5, avg * 1.5);
    }
  }

  // ---------------------------------------------------------------------------------------
  // Bot session details
  // ---------------------------------------------------------------------------------------

  /** The BotSession row the endpoint reports. */
  datatype SessionRow = SessionRow(id: int, status: string, totalTrades: int, totalPnl: real, currentBalance: real)

  /** The `session_metrics` object. */
  datatype SessionMetrics = SessionMetrics(
    totalTrades: nat,
    buyTrades: nat,
    sellTrades: nat,
    totalVolume: real,
    totalFees: real,
    uniqueSymbols: nat,
    strategiesUsed: nat)

  /** An entry of `pnl_timeline`. */
  datatype TimelineEntry = TimelineEntry(cumulativePnl: real, tradeType: string, symbol: string, value: real)

  /** The response of the session details endpoint. */
  datatype SessionDetails = SessionDetails(
    session: SessionRow,
    metrics: SessionMetrics,
    timeline: seq<TimelineEntry>,
    trades: seq<Trade>)

  function Metrics(trades: seq<Trade>, names: map<int, string>): (r: SessionMetrics)
    ensures r.totalTrades == |trades| && r.totalVolume == Volume(trades) && r.totalFees == Fees(trades)
    ensures r.buyTrades == CountSide(trades, "BUY") && r.sellTrades == CountSide(trades, "SELL")
    ensures r.buyTrades + r.sellTrades <= r.totalTrades
    ensures r.uniqueSymbols <= r.totalTrades && (trades != [] ==> r.uniqueSymbols >= 1)
    ensures r.uniqueSymbols == |Symbols(trades)| && r.strategiesUsed == |StrategyNames(trades, names)|
  {
    SideCountsCover(trades);
    SymbolsBound(trades);
    SessionMetrics(|trades|, CountSide(trades, "BUY"), CountSide(trades, "SELL"), Volume(trades), Fees(trades),
      |Symbols(trades)|, |StrategyNames(trades, names)|)
  }

  /** `timeline` is the P&L timeline of `trades`: one entry per trade, each holding the running
      net flow up to and including its trade. */
  predicate IsTimeline(timeline: seq<TimelineEntry>, trades: seq<Trade>)
  {
    |timeline| == |trades| &&
    forall i :: 0 <= i < |trades| ==>
      timeline[i] == TimelineEntry(NetFlow(trades[..i + 1]), trades[i].side, trades[i].symbol, trades[i].totalValue)
  }

  /** Each cumulative value is the previous one (0 before the first) plus the trade's value for
      a SELL and minus it otherwise; the last one is the session's net flow. */
  lemma {:induction false} TimelineSteps(timeline: seq<TimelineEntry>, trades: seq<Trade>)
    requires IsTimeline(timeline, trades)
    ensures |trades| > 0 ==> timeline[0].cumulativePnl == SignedValue(trades[0])
    ensures forall i :: 0 < i < |trades| ==>
      timeline[i].cumulativePnl == timeline[i - 1].cumulativePnl + SignedValue(trades[i])
    ensures |trades| > 0 ==> timeline[|trades| - 1].cumulativePnl == NetFlow(trades)
  {
    if |trades| > 0 {
      assert trades[..1][..0] == [];
      assert NetFlow(trades[..1]) == SignedValue(trades[0]);
      assert trades[..|trades|] == trades;
    }
    forall i | 0 < i < |trades|
      ensures timeline[i].cumulativePnl == timeline[i - 1].cumulativePnl + SignedValue(trades[i])
    {
      assert trades[..i + 1][..i] == trades[..i];
    }
  }

  lemma TimelineSnoc(timeline: seq<TimelineEntry>, trades: seq<Trade>, t: Trade)
    requires IsTimeline(timeline, trades)
    ensures IsTimeline(timeline + [TimelineEntry(NetFlow(trades + [t]), t.side, t.symbol, t.totalValue)], trades + [t])
  {
    var longer := trades + [t];
    assert longer[..|longer|] == longer;
    forall j | 0 <= j < |trades|
      ensures longer[..j + 1] == trades[..j + 1] && longer[j] == trades[j]
    {
    }
  }

  /** The loop building `pnl_timeline` with its `cumulative_pnl` accumulator. */
  method PnlTimeline(trades: seq<Trade>) returns (timeline: seq<TimelineEntry>)
    ensures IsTimeline(timeline, trades)
  {
    timeline := [];
    var cumulative := 0.0;
    var i := 0;
    while i < |trades|
      invariant 0 <= i <= |trades|
      invariant cumulative == NetFlow(trades[..i])
      invariant IsTimeline(timeline, trades[..i])
    {
      var t := trades[i];
      if t.side == "SELL" {
        cumulative := cumulative + t.totalValue;
      } else {
        cumulative := cumulative - t.totalValue;
      }
      assert trades[..i + 1] == trades[..i] + [t];
      assert trades[..i + 1][..i] == trades[..i];
      TimelineSnoc(timeline, trades[..i], t);
      timeline := timeline + [TimelineEntry(cumulative, t.side, t.symbol, t.totalValue)];
      i := i + 1;
    }
    assert trades[..|trades|] == trades;
  }

  const SessionNotFound := "Bot session not found"

  /** The session details endpoint: the user's session row if there is one, then the metrics,
      the timeline and the trades of its time span. */
  method BotSessionDetails(session: Option<SessionRow>, trades: seq<Trade>, names: map<int, string>)
    returns (r: Result<SessionDetails>)
    ensures r.Err? <==> session.None?
    ensures r.Err? ==> r.message == SessionNotFound
    ensures r.Ok? ==> r.value.session == session.value && r.value.trades == trades
    ensures r.Ok? ==> r.value.metrics == Metrics(trades, names) && IsTimeline(r.value.timeline, trades)
  {
    if session.None? {
      return Err(SessionNotFound);
    }
    var timeline := PnlTimeline(trades);
    r := Ok(SessionDetails(session.value, Metrics(trades, names), timeline, trades));
  }
}
