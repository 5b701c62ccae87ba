/** The trading engine of core/trading_engine.py: one bot per user that runs its strategies in a
    loop, sends their actionable signals through the risk gate to the venue, and books filled
    orders into the Trade and Portfolio tables. Venue and database results are method inputs. */
module Engine {
  import opened Wrappers
  import opened Records
  import Strategies
  import RiskManagement

  datatype BotStatus = Running | Stopped | Paused | Error

  /** `BotStatus.value`. */
  function StatusValue(s: BotStatus): string
  {
    match s
    case Running => "running"
    case Stopped => "stopped"
    case Paused => "paused"
    case Error => "error"
  }

  /** An entry of `active_positions`: a BUY this strategy made. */
  datatype OpenPosition = OpenPosition(symbol: string, quantity: real, entryPrice: real)

  /** The dictionary an entry of `active_strategies` holds. */
  datatype Entry = Entry(
    strategy: Strategies.Strategy,
    strategyType: string,
    parameters: Strategies.Params,
    symbol: string,
    lastSignal: Option<Strategies.Signal>,
    activePositions: seq<OpenPosition>)

  /** The BotSession row the engine keeps up to date. */
  datatype SessionRecord = SessionRecord(
    status: string,
    stopped: bool,
    totalTrades: int,
    totalPnl: real,
    currentBalance: real)

  /** The dictionary `get_status` returns. */
  datatype EngineStatus = EngineStatus(
    status: string,
    totalTrades: int,
    totalPnl: real,
    currentBalance: real,
    startBalance: real,
    activeStrategies: int,
    sessionId: Option<int>)

  /** A Python dictionary key as the engine's callers spell one: an `int` or a `str`. */
  datatype PyKey = IntKey(i: int) | StrKey(s: string)

  /** The keys of `active_strategies`, all of them ints since `add_strategy` takes an int id. */
  function KeysOf(m: map<int, Entry>): set<PyKey>
  {
    set k | k in m :: IntKey(k)
  }

  /** `str(strategy_id) in self.active_strategies` is never true: no str equals an int key. */
  lemma StrKeyNeverPresent(m: map<int, Entry>, strategyId: int)
    ensures StrKey(DecimalString(strategyId)) !in KeysOf(m)
  {
  }

  // Trading parameters fixed by the constructor.
  const MinConfidence: real := 0.6
  const MaxRiskPerTrade: real := 0.02
  const MaxDailyLoss: real := 0.05
  /** The drawdown above which the loop pauses. */
  const MaxDrawdown: real := 0.15
  /** The history length below which a strategy is not evaluated. */
  const MinBars: nat := 100

  /** The Portfolio row a first BUY creates. */
  function NewPosition(symbol: string, quantity: real, price: real): Position
  {
    Position(symbol, quantity, price, price, quantity * price, 0.0, 0.0)
  }

  /** The weighted-average cost after buying `quantity` more at `price`. */
  function AverageCost(p: Position, quantity: real, price: real): (avg: real)
    requires p.quantity + quantity != 0.0
    ensures avg * (p.quantity + quantity) == p.quantity * p.averagePrice + quantity * price
  {
    (p.quantity * p.averagePrice + quantity * price) / (p.quantity + quantity)
  }

  /** `_update_portfolio_position` on the user's Portfolio rows. A BUY that leaves an existing
      position at total quantity 0 divides by zero, and the handler drops the uncommitted change. */
  function ApplyTrade(rows: seq<Position>, symbol: string, quantity: real, price: real, side: string): (r: seq<Position>)
  {
    match FindSymbol(rows, symbol)
    case None =>
      if side == "BUY" then rows + [NewPosition(symbol, quantity, price)] else rows
    case Some(k) =>
      var p := rows[k];
      if side == "BUY" then
        if p.quantity + quantity == 0.0 then rows
        else rows[k := p.(averagePrice := AverageCost(p, quantity, price), quantity := p.quantity + quantity)]
      else
        if p.quantity - quantity <= 0.0 then rows[..k] + rows[k + 1..]
        else rows[k := p.(quantity := p.quantity - quantity)]
  }

  /** Removing one row keeps every other row's lookup. */
  lemma {:induction false} LookupAfterDelete(rows: seq<Position>, k: nat, s: string)
    requires DistinctSymbols(rows) && k < |rows|
    ensures DistinctSymbols(rows[..k] + rows[k + 1..])
    ensures s != rows[k].symbol ==> Lookup(rows[..k] + rows[k + 1..], s) == Lookup(rows, s)
  {
    var r := rows[..k] + rows[k + 1..];
    assert forall i :: 0 <= i < |r| ==> r[i] == rows[if i < k then i else i + 1];
    match FindSymbol(rows, s)
    case None =>
      assert forall i :: 0 <= i < |r| ==> r[i].symbol != s;
    case Some(j) =>
      if j != k {
        var j' := if j < k then j else j - 1;
        assert r[j'] == rows[j];
        LookupAt(r, j');
      }
  }

  /** Replacing one row by a row of the same symbol changes only that symbol's lookup. */
  lemma {:induction false} LookupAfterUpdate(rows: seq<Position>, k: nat, p: Position, s: string)
    requires DistinctSymbols(rows) && k < |rows| && p.symbol == rows[k].symbol
    ensures DistinctSymbols(rows[k := p])
    ensures Lookup(rows[k := p], s) == if s == p.symbol then Some(p) else Lookup(rows, s)
  {
    var r := rows[k := p];
    if s == p.symbol {
      LookupAt(r, k);
    } else {
      match FindSymbol(rows, s)
      case None =>
        assert forall i :: 0 <= i < |r| ==> r[i].symbol != s;
      case Some(j) =>
        LookupAt(r, j);
    }
  }

  /** Appending a row of a new symbol changes only that symbol's lookup. */
  lemma {:induction false} LookupAfterAppend(rows: seq<Position>, p: Position, s: string)
    requires DistinctSymbols(rows) && Lookup(rows, p.symbol) == None
    ensures DistinctSymbols(rows + [p])
    ensures Lookup(rows + [p], s) == if s == p.symbol then Some(p) else Lookup(rows, s)
  {
    var r := rows + [p];
    if s == p.symbol {
      LookupAt(r, |rows|);
    } else {
      match FindSymbol(rows, s)
      case None =>
        assert forall i :: 0 <= i < |r| ==> r[i].symbol != s;
      case Some(j) =>
        LookupAt(r, j);
    }
  }

  /** The position table stays keyed by symbol, and a trade in one symbol leaves every other
      symbol's position as it was. */
  lemma {:induction false} ApplyTradeFrame(rows: seq<Position>, symbol: string, quantity: real, price: real, side: string, s: string)
    requires DistinctSymbols(rows)
    ensures DistinctSymbols(ApplyTrade(rows, symbol, quantity, price, side))
    ensures s != symbol ==> Lookup(ApplyTrade(rows, symbol, quantity, price, side), s) == Lookup(rows, s)
  {
    var after := ApplyTrade(rows, symbol, quantity, price, side);
    match FindSymbol(rows, symbol)
    case None =>
      if side == "BUY" {
        var newRow := NewPosition(symbol, quantity, price);
        assert after == rows + [newRow];
        LookupAfterAppend(rows, newRow, s);
      } else {
        assert after == rows;
      }
    case Some(k) =>
      var p := rows[k];
      if side == "BUY" {
        if p.quantity + quantity != 0.0 {
          var q := p.(averagePrice := AverageCost(p, quantity, price), quantity := p.quantity + quantity);
          assert after == rows[k := q];
          LookupAfterUpdate(rows, k, q, s);
        } else {
          assert after == rows;
        }
      } else {
        if p.quantity - quantity <= 0.0 {
          assert after == rows[..k] + rows[k + 1..];
          LookupAfterDelete(rows, k, s);
        } else {
          var q := p.(quantity := p.quantity - quantity);
          assert after == rows[k := q];
          LookupAfterUpdate(rows, k, q, s);
        }
      }
  }

  /** What a trade does to its own symbol's position: a first BUY opens it at the trade's quantity
      and price; a further BUY adds the quantity at the weighted-average cost; a SELL subtracts and
      closes the position at quantity 0 or below; a SELL of nothing changes nothing. */
  lemma {:induction false} ApplyTradeOwnSymbol(rows: seq<Position>, symbol: string, quantity: real, price: real, side: string)
    requires DistinctSymbols(rows)
    ensures var after := Lookup(ApplyTrade(rows, symbol, quantity, price, side), symbol);
      match Lookup(rows, symbol)
      case None =>
        after == (if side == "BUY" then Some(NewPosition(symbol, quantity, price)) else None)
      case Some(p) =>
        if side == "BUY" then
          (p.quantity + quantity == 0.0 ==> after == Some(p)) &&
          (p.quantity + quantity != 0.0 ==>
            after.Some? && after.value.quantity == p.quantity + quantity &&
            after.value.averagePrice * (p.quantity + quantity) == p.quantity * p.averagePrice + quantity * price &&
            after.value.currentPrice == p.currentPrice && after.value.totalValue == p.totalValue)
        else
          (p.quantity - quantity <= 0.0 ==> after == None) &&
          (p.quantity - quantity > 0.0 ==> after == Some(p.(quantity := p.quantity - quantity)))
  {
    var after := ApplyTrade(rows, symbol, quantity, price, side);
    match FindSymbol(rows, symbol)
    case None =>
      if side == "BUY" {
        var newRow := NewPosition(symbol, quantity, price);
        assert after == rows + [newRow];
        LookupAfterAppend(rows, newRow, symbol);
      } else {
        assert after == rows;
      }
    case Some(k) =>
      var p := rows[k];
      assert Lookup(rows, symbol) == Some(p);
      if side == "BUY" {
        if p.quantity + quantity != 0.0 {
          var q := p.(averagePrice := AverageCost(p, quantity, price), quantity := p.quantity + quantity);
          assert after == rows[k := q];
          LookupAfterUpdate(rows, k, q, symbol);
        } else {
          assert after == rows;
        }
      } else {
        if p.quantity - quantity <= 0.0 {
          var r := rows[..k] + rows[k + 1..];
          assert after == r;
          assert forall i :: 0 <= i < |r| ==> r[i] == rows[if i < k then i else i + 1];
          assert forall i :: 0 <= i < |r| ==> r[i].symbol != symbol;
        } else {
          var q := p.(quantity := p.quantity - quantity);
          assert after == rows[k := q];
          LookupAfterUpdate(rows, k, q, symbol);
        }
      }
  }

  /** Buying more at the position's own average price keeps that average. */
  lemma {:induction false} BuyAtAverageKeepsAverage(p: Position, quantity: real)
    requires p.quantity + quantity != 0.0
    ensures AverageCost(p, quantity, p.averagePrice) == p.averagePrice
  {
    var avg := AverageCost(p, quantity, p.averagePrice);
    assert (avg - p.averagePrice) * (p.quantity + quantity) == 0.0;
  }

  /** The signal a strategy produces on one market-data fetch, or `None` when `_process_strategy`
      returns early: no data, fewer than 100 bars, or `calculate_signal` raised. */
  function SignalFor(st: Strategies.Strategy, feed: Option<Strategies.Series>): (r: Option<Strategies.Signal>)
    requires feed.Some? ==> Strategies.IndicatorsInRange(feed.value)
    ensures r.Some? ==> feed.Some? && feed.value.bars >= MinBars && Strategies.WellFormed(r.value)
  {
    if feed.None? || feed.value.bars < MinBars then None
    else match Strategies.CalculateSignal(st, feed.value)
      case Ok(sig) => Some(sig)
      case Err(_) => None
  }

  /** A signal is acted on when it is not HOLD and its confidence reaches `min_confidence`. */
  predicate Actionable(sig: Strategies.Signal)
  {
    sig.kind != Strategies.Hold && sig.confidence >= MinConfidence
  }

  /** A grid strategy with a positive spacing never reaches the order path on positive prices. */
  lemma {:induction false} GridNeverActionable(st: Strategies.Strategy, feed: Option<Strategies.Series>)
    requires st.Grid? && st.gridSpacing > 0.0
    requires feed.Some? ==> Strategies.IndicatorsInRange(feed.value)
    ensures SignalFor(st, feed).Some? ==> !Actionable(SignalFor(st, feed).value)
  {
    if feed.Some? {
      Strategies.GridNeverTrades(st, feed.value.bars, feed.value.close);
    }
  }

  /** `_calculate_position_size` as written: reading `signal.symbol`, which `TradingSignal` does
      not have, raises, and the handler returns 0.0. */
  function PositionSizeAsWritten(): (size: real)
    ensures size == 0.0
  {
    0.0
  }

  /** `_calculate_position_size` as its body intends: 2% of the balance, scaled by confidence,
      then passed through the risk manager's sizing (which as written halves it). */
  function IntendedPositionSize(balance: real, confidence: real): (size: real)
    ensures balance >= 0.0 && 0.0 <= confidence <= 1.0 ==> 0.0 <= size <= balance * MaxRiskPerTrade
    ensures size == balance * MaxRiskPerTrade * confidence * 0.5
    ensures balance > 0.0 && confidence > 0.0 ==> size > 0.0
  {
    var base := Strategies.GetPositionSize(balance, MaxRiskPerTrade);
    assert balance >= 0.0 && 0.0 <= confidence <= 1.0 ==> 0.0 <= base * confidence <= base by {
      if balance >= 0.0 && 0.0 <= confidence <= 1.0 {
        assert base * confidence <= base * 1.0;
      }
    }
    RiskManagement.AdjustPositionSizeAsWritten(base * confidence)
  }

  /** The defect matters: for any funded balance and any confidence an actionable signal can
      carry, the intended size is positive while the size as written is 0. */
  lemma SizingDefectZeroesOrders(balance: real, confidence: real)
    requires balance > 0.0 && MinConfidence <= confidence <= 1.0
    ensures PositionSizeAsWritten() == 0.0 < IntendedPositionSize(balance, confidence)
    ensures 2.0 * IntendedPositionSize(balance, confidence) <= balance * MaxRiskPerTrade
  {
    assert MaxRiskPerTrade == 0.02;
    assert 0.0 <= 1.0 - confidence;
    var q := balance * MaxRiskPerTrade;
    assert q > 0.0;
    assert q * (1.0 - confidence) >= 0.0;
    assert IntendedPositionSize(balance, confidence) == q * confidence * 0.5;
  }

  /** The order side a signal trades. */
  function Side(kind: Strategies.SignalKind): string
  {
    if kind == Strategies.Buy then "BUY" else "SELL"
  }

  /** The BotSession row `_update_bot_session` writes from the engine's counters. */
  function SessionSnapshot(status: BotStatus, totalTrades: int, totalPnl: real, currentBalance: real): SessionRecord
  {
    SessionRecord(StatusValue(status), status == Stopped, totalTrades, totalPnl, currentBalance)
  }

  /** The number of distinct elements of a sequence without repetitions is its length. */
  lemma {:induction false} DistinctCard(s: seq<int>)
    requires forall i, j :: 0 <= i < j < |s| ==> s[i] != s[j]
    ensures |set x | x in s| == |s|
  {
    if s != [] {
      var t := s[..|s| - 1];
      DistinctCard(t);
      assert s == t + [s[|s| - 1]];
      assert (set x | x in s) == (set x | x in t) + {s[|s| - 1]};
      assert s[|s| - 1] !in t;
    }
  }

  /** The price `get_current_price` returned for a symbol; 0.0 stands for `None`, and both are
      falsy, so the row is skipped. */
  function Quote(quotes: map<string, real>, symbol: string): real
  {
    if symbol in quotes then quotes[symbol] else 0.0
  }

  /** What the position cost: quantity times average price. */
  function CostBasis(p: Position): real
  {
    p.quantity * p.averagePrice
  }

  /** P&L as a percentage of the cost basis. */
  function PercentOf(pnl: real, cost: real): (pct: real)
    requires cost != 0.0
    ensures pct * cost == pnl * 100.0
  {
    pnl / cost * 100.0
  }

  /** A row `_update_portfolio` divides by zero on: it has a quote but no cost basis. */
  predicate RevalueRaises(p: Position, quotes: map<string, real>)
  {
    Quote(quotes, p.symbol) != 0.0 && CostBasis(p) == 0.0
  }

  /** One row of `_update_portfolio`: with a quote, the price, value, P&L and P&L percentage
      are recomputed from it; without one the row is left alone. */
  function Revalue(p: Position, quotes: map<string, real>): (r: Position)
    requires !RevalueRaises(p, quotes)
    ensures r.symbol == p.symbol && r.quantity == p.quantity && r.averagePrice == p.averagePrice
    ensures Quote(quotes, p.symbol) == 0.0 ==> r == p
    ensures Quote(quotes, p.symbol) != 0.0 ==>
      r.currentPrice == Quote(quotes, p.symbol) && r.totalValue == p.quantity * Quote(quotes, p.symbol) &&
      r.pnl == r.totalValue - CostBasis(p) && r.pnlPercentage * CostBasis(p) == r.pnl * 100.0
  {
    var price := Quote(quotes, p.symbol);
    if price == 0.0 then p
    else p.(currentPrice := price, totalValue := p.quantity * price, pnl := p.quantity * price - CostBasis(p),
            pnlPercentage := PercentOf(p.quantity * price - CostBasis(p), CostBasis(p)))
  }

  /** Some row makes the refresh raise, and the handler then commits none of it. */
  predicate RefreshRaises(rows: seq<Position>, quotes: map<string, real>)
  {
    exists i :: 0 <= i < |rows| && RevalueRaises(rows[i], quotes)
  }

  /** Every row revalued. */
  function Refreshed(rows: seq<Position>, quotes: map<string, real>): (r: seq<Position>)
    requires !RefreshRaises(rows, quotes)
    ensures |r| == |rows| && forall i :: 0 <= i < |rows| ==> r[i] == Revalue(rows[i], quotes)
  {
    seq(|rows|, i requires 0 <= i < |rows| => Revalue(rows[i], quotes))
  }

  /** The part of the engine's state that trading changes: `active_strategies`, the Portfolio
      rows, the Trade rows and `total_trades`. */
  datatype Book = Book(
    strategies: map<int, Entry>,
    positions: seq<Position>,
    tradeLog: seq<Trade>,
    totalTrades: int)

  /** The Trade row `_record_trade` writes for a filled order. */
  function FilledTrade(key: int, symbol: string, side: string, quantity: real, price: real): Trade
  {
    Trade(Some(key), symbol, side, quantity, price, quantity * price, 0.0, "completed")
  }

  /** A signal of the strategy under `key` fills: the risk gate lets it through and the venue
      reports the order FILLED. */
  predicate Fills(b: Book, key: int, signal: Strategies.Signal, todaysTrades: seq<Trade>, orderStatus: Option<string>)
    requires key in b.strategies
  {
    RiskManagement.CheckTradeAllowed(b.positions, todaysTrades, signal, b.strategies[key].symbol) &&
    orderStatus == Some("FILLED")
  }

  /** The book `_execute_signal` leaves when it orders `size` units: a fill records one trade,
      updates the position, counts it and, for a BUY, adds an open position to the strategy;
      anything else leaves the book as it was. */
  function Executed(b: Book, key: int, signal: Strategies.Signal, size: real, todaysTrades: seq<Trade>, orderStatus: Option<string>): (r: Book)
    requires key in b.strategies && signal.kind != Strategies.Hold
    ensures r.strategies.Keys == b.strategies.Keys
    ensures forall k :: k in b.strategies && k != key ==> r.strategies[k] == b.strategies[k]
    ensures r.strategies[key].lastSignal == b.strategies[key].lastSignal
    ensures Fills(b, key, signal, todaysTrades, orderStatus) <==> r.totalTrades == b.totalTrades + 1
    ensures Fills(b, key, signal, todaysTrades, orderStatus) ==>
      var symbol := b.strategies[key].symbol;
      r.tradeLog == b.tradeLog + [FilledTrade(key, symbol, Side(signal.kind), size, signal.price)] &&
      r.positions == ApplyTrade(b.positions, symbol, size, signal.price, Side(signal.kind)) &&
      (signal.kind == Strategies.Buy <==>
         r.strategies[key].activePositions == b.strategies[key].activePositions + [OpenPosition(symbol, size, signal.price)])
    ensures !Fills(b, key, signal, todaysTrades, orderStatus) ==> r == b
  {
    var e := b.strategies[key];
    var side := Side(signal.kind);
    if !Fills(b, key, signal, todaysTrades, orderStatus) then b
    else
      var strategies := if signal.kind == Strategies.Buy then
        b.strategies[key := e.(activePositions := e.activePositions + [OpenPosition(e.symbol, size, signal.price)])]
        else b.strategies;
      assert signal.kind != Strategies.Buy ==>
        |strategies[key].activePositions| != |e.activePositions + [OpenPosition(e.symbol, size, signal.price)]|;
      Book(strategies, ApplyTrade(b.positions, e.symbol, size, signal.price, side),
           b.tradeLog + [FilledTrade(key, e.symbol, side, size, signal.price)], b.totalTrades + 1)
  }

  /** Every trade `_execute_signal` records as written orders nothing and is worth nothing; with
      the intended size, a fill on a funded balance would record a positive quantity. */
  lemma ExecutedTradesAreEmpty(b: Book, key: int, signal: Strategies.Signal, todaysTrades: seq<Trade>, orderStatus: Option<string>, balance: real)
    requires key in b.strategies && signal.kind != Strategies.Hold
    requires Fills(b, key, signal, todaysTrades, orderStatus)
    ensures var r := Executed(b, key, signal, PositionSizeAsWritten(), todaysTrades, orderStatus);
      |r.tradeLog| == |b.tradeLog| + 1 && Last(r.tradeLog).quantity == 0.0 && Last(r.tradeLog).totalValue == 0.0
    ensures balance > 0.0 && MinConfidence <= signal.confidence <= 1.0 ==>
      Last(Executed(b, key, signal, IntendedPositionSize(balance, signal.confidence), todaysTrades, orderStatus).tradeLog).quantity > 0.0
  {
  }

  /** Every trade from index `from` on orders nothing and is worth nothing. */
  predicate EmptyFrom(log: seq<Trade>, from: nat)
  {
    forall i :: from <= i < |log| ==> log[i].quantity == 0.0 && log[i].totalValue == 0.0
  }

  /** Empty trades from `from` on, extended by a log empty past its old end, stay empty from `from`. */
  lemma EmptyFromExtends(log: seq<Trade>, longer: seq<Trade>, from: nat)
    requires log <= longer && from <= |log|
    requires EmptyFrom(log, from) && EmptyFrom(longer, |log|)
    ensures EmptyFrom(longer, from)
  {
    forall i | from <= i < |log|
      ensures longer[i].quantity == 0.0 && longer[i].totalValue == 0.0
    {
      assert longer[i] == log[i];
    }
  }

  /** The last element of a non-empty sequence. */
  function Last<T>(s: seq<T>): T
    requires s != []
  {
    s[|s| - 1]
  }

  /** The book `_process_strategy` leaves for one fetch of market data: unchanged when no signal
      comes out; otherwise the signal is stored as `last_signal` and, when actionable, executed
      with the size as written. */
  function Processed(b: Book, key: int, feed: Option<Strategies.Series>, todaysTrades: seq<Trade>, orderStatus: Option<string>): (r: Book)
    requires key in b.strategies
    requires feed.Some? ==> Strategies.IndicatorsInRange(feed.value)
    ensures r.strategies.Keys == b.strategies.Keys
    ensures forall k :: k in b.strategies && k != key ==> r.strategies[k] == b.strategies[k]
    ensures var sig := SignalFor(b.strategies[key].strategy, feed);
      (sig.None? ==> r == b) &&
      (sig.Some? ==> r.strategies[key].lastSignal == sig) &&
      (r.totalTrades == b.totalTrades + 1 <==>
         sig.Some? && Actionable(sig.value) && Fills(b, key, sig.value, todaysTrades, orderStatus)) &&
      (!(sig.Some? && Actionable(sig.value) && Fills(b, key, sig.value, todaysTrades, orderStatus)) ==>
         r.totalTrades == b.totalTrades && r.tradeLog == b.tradeLog && r.positions == b.positions &&
         r.strategies == (if sig.None? then b.strategies
                          else b.strategies[key := b.strategies[key].(lastSignal := sig)]))
    ensures r.totalTrades - b.totalTrades == |r.tradeLog| - |b.tradeLog| <= 1
    ensures b.tradeLog <= r.tradeLog
    ensures EmptyFrom(r.tradeLog, |b.tradeLog|)
  {
    var e := b.strategies[key];
    var sig := SignalFor(e.strategy, feed);
    if sig.None? then b
    else
      var stored := b.(strategies := b.strategies[key := e.(lastSignal := sig)]);
      assert Fills(stored, key, sig.value, todaysTrades, orderStatus) == Fills(b, key, sig.value, todaysTrades, orderStatus);
      if Actionable(sig.value) then Executed(stored, key, sig.value, PositionSizeAsWritten(), todaysTrades, orderStatus)
      else stored
  }

  /** One pass of `_trading_loop` over the strategies in `keys` order: each strategy gets its own
      market data and order outcome, and the risk gate sees today's earlier trades followed by
      those this pass recorded (the log past `base`). */
  function Cycle(b: Book, keys: seq<int>, feeds: map<int, Strategies.Series>, orders: map<int, string>,
                 todaysTrades: seq<Trade>, base: nat): (r: Book)
    requires forall k :: k in keys ==> k in b.strategies
    requires forall k :: k in feeds ==> Strategies.IndicatorsInRange(feeds[k])
    requires base <= |b.tradeLog|
    ensures r.strategies.Keys == b.strategies.Keys
    ensures b.tradeLog <= r.tradeLog
    ensures b.totalTrades <= r.totalTrades <= b.totalTrades + |keys|
    ensures r.totalTrades - b.totalTrades == |r.tradeLog| - |b.tradeLog|
    decreases |keys|
  {
    if keys == [] then b
    else
      var key := keys[0];
      var feed := if key in feeds then Some(feeds[key]) else None;
      var orderStatus := if key in orders then Some(orders[key]) else None;
      var next := Processed(b, key, feed, todaysTrades + b.tradeLog[base..], orderStatus);
      assert forall k :: k in keys[1..] ==> k in keys;
      var r := Cycle(next, keys[1..], feeds, orders, todaysTrades, base);
      r
  }

  /** Every trade a pass records orders nothing and is worth nothing. */
  lemma {:induction false} CycleTradesAreEmpty(b: Book, keys: seq<int>, feeds: map<int, Strategies.Series>, orders: map<int, string>,
                                               todaysTrades: seq<Trade>, base: nat)
    requires forall k :: k in keys ==> k in b.strategies
    requires forall k :: k in feeds ==> Strategies.IndicatorsInRange(feeds[k])
    requires base <= |b.tradeLog|
    ensures EmptyFrom(Cycle(b, keys, feeds, orders, todaysTrades, base).tradeLog, |b.tradeLog|)
    decreases |keys|
  {
    if keys != [] {
      var key := keys[0];
      var feed := if key in feeds then Some(feeds[key]) else None;
      var orderStatus := if key in orders then Some(orders[key]) else None;
      var next := Processed(b, key, feed, todaysTrades + b.tradeLog[base..], orderStatus);
      assert forall k :: k in keys[1..] ==> k in keys;
      CycleTradesAreEmpty(next, keys[1..], feeds, orders, todaysTrades, base);
      var r := Cycle(next, keys[1..], feeds, orders, todaysTrades, base);
      assert Cycle(b, keys, feeds, orders, todaysTrades, base) == r;
      EmptyFromExtends(next.tradeLog, r.tradeLog, |b.tradeLog|);
    }
  }

  class TradingEngine {
    const userId: int
    /** The bot's state; the trading loop runs while it is RUNNING. */
    var status: BotStatus
    /** `active_strategies`: the strategies by their Strategy-table id. */
    var activeStrategies: map<int, Entry>
    /** The dictionary's insertion order, which the loop iterates in. */
    var strategyOrder: seq<int>
    var sessionId: Option<int>
    /** The BotSession row `session_id` names, as the engine last wrote it. */
    var session: Option<SessionRecord>
    var totalTrades: int
    var totalPnl: real
    var startBalance: real
    var currentBalance: real
    /** The user's Portfolio rows, one per symbol. */
    var positions: seq<Position>
    /** The Trade rows this engine has recorded. */
    var tradeLog: seq<Trade>
    /** Trading-loop tasks still alive: `start` launches one; a loop ends when it sees a status
        other than RUNNING. */
    var runningLoops: nat

    /** The engine's invariant: the strategy order lists each key once, positions are keyed by
        symbol, every filled order was counted and recorded, and the balances and P&L keep the
        values `start` gave them (nothing else writes them). */
    ghost predicate Valid()
      reads this
    {
      Consistent() && totalTrades == |tradeLog|
    }

    /** `Valid` but for the trade counter, which `_execute_signal` bumps only after the order
        helper has recorded the fill. */
    ghost predicate Consistent()
      reads this
    {
      (forall i, j :: 0 <= i < j < |strategyOrder| ==> strategyOrder[i] != strategyOrder[j]) &&
      (forall k :: k in activeStrategies <==> k in strategyOrder) &&
      DistinctSymbols(positions) &&
      currentBalance == startBalance &&
      totalPnl == 0.0 &&
      (session.Some? ==> sessionId.Some?)
    }

    /** `session_id` is truthy: set and not 0. */
    predicate HasSession()
      reads this
    {
      sessionId.Some? && sessionId.value != 0
    }

    /** The engine's trading state as a value. */
    function BookOf(): Book
      reads this
    {
      Book(activeStrategies, positions, tradeLog, totalTrades)
    }

    /** A new engine: STOPPED, with zero counters and no strategies, positions or session. */
    constructor (userId: int)
      ensures Valid()
      ensures this.userId == userId && status == Stopped
      ensures activeStrategies == map[] && strategyOrder == [] && positions == [] && tradeLog == []
      ensures totalTrades == 0 && totalPnl == 0.0 && startBalance == 0.0 && currentBalance == 0.0
      ensures sessionId == None && session == None && runningLoops == 0
    {
      this.userId := userId;
      status := Stopped;
      activeStrategies := map[];
      strategyOrder := [];
      sessionId := None;
      session := None;
      totalTrades := 0;
      totalPnl := 0.0;
      startBalance := 0.0;
      currentBalance := 0.0;
      positions := [];
      tradeLog := [];
      runningLoops := 0;
    }

    /** `_update_bot_session`: write the counters into the session row, if there is one. */
    method UpdateSession()
      requires Valid()
      modifies this
      ensures Valid()
      ensures session == if old(HasSession()) && old(session).Some? then
        Some(SessionSnapshot(status, totalTrades, totalPnl, currentBalance)) else old(session)
      ensures status == old(status) && sessionId == old(sessionId) && totalTrades == old(totalTrades)
      ensures activeStrategies == old(activeStrategies) && strategyOrder == old(strategyOrder)
      ensures positions == old(positions) && tradeLog == old(tradeLog) && runningLoops == old(runningLoops)
      ensures startBalance == old(startBalance) && currentBalance == old(currentBalance) && totalPnl == old(totalPnl)
    {
      if HasSession() && session.Some? {
        session := Some(SessionSnapshot(status, totalTrades, totalPnl, currentBalance));
      }
    }

    /** `start`: connect, read the balance, open a session and launch the loop. A failed connect
        changes nothing; a raising venue call sets ERROR. The prior status is not checked, and the
        session row records the status from before the start. */
    method Start(connect: Outcome<bool>, balance: Outcome<real>, createdSession: Option<int>) returns (started: bool)
      requires Valid()
      modifies this
      ensures Valid()
      ensures started <==> connect == Returned(true) && balance.Returned?
      ensures connect == Returned(false) ==>
        status == old(status) && startBalance == old(startBalance) && sessionId == old(sessionId) &&
        session == old(session) && runningLoops == old(runningLoops)
      ensures !started && connect != Returned(false) ==>
        status == Error && startBalance == old(startBalance) && sessionId == old(sessionId) &&
        session == old(session) && runningLoops == old(runningLoops)
      ensures started ==>
        status == Running && startBalance == balance.value && currentBalance == balance.value &&
        sessionId == createdSession &&
        session == (if createdSession.Some? then Some(SessionRecord(StatusValue(old(status)), false, 0, 0.0, 0.0)) else None) &&
        runningLoops == old(runningLoops) + 1
      ensures activeStrategies == old(activeStrategies) && strategyOrder == old(strategyOrder)
      ensures positions == old(positions) && tradeLog == old(tradeLog) && totalTrades == old(totalTrades)
    {
      if connect.Raised? {
        status := Error;
        return false;
      }
      if !connect.value {
        return false;
      }
      if balance.Raised? {
        status := Error;
        return false;
      }
      startBalance := balance.value;
      currentBalance := startBalance;
      sessionId := createdSession;
      session := if createdSession.Some? then Some(SessionRecord(StatusValue(status), false, 0, 0.0, 0.0)) else None;
      status := Running;
      runningLoops := runningLoops + 1;
      return true;
    }

    /** `stop`: STOPPED is set first; a raising disconnect then makes it report failure before the
        session is updated. */
    method Stop(disconnectRaises: bool) returns (stopped: bool)
      requires Valid()
      modifies this
      ensures Valid()
      ensures status == Stopped && stopped == !disconnectRaises
      ensures session == if stopped && old(HasSession()) && old(session).Some? then
        Some(SessionSnapshot(Stopped, totalTrades, totalPnl, currentBalance)) else old(session)
      ensures sessionId == old(sessionId) && totalTrades == old(totalTrades) && runningLoops == old(runningLoops)
      ensures activeStrategies == old(activeStrategies) && strategyOrder == old(strategyOrder)
      ensures positions == old(positions) && tradeLog == old(tradeLog) && startBalance == old(startBalance)
    {
      status := Stopped;
      if disconnectRaises {
        return false;
      }
      UpdateSession();
      return true;
    }

    /** `pause`: PAUSED, unconditionally; the running loop ends at its next check. */
    method Pause() returns (paused: bool)
      requires Valid()
      modifies this
      ensures Valid()
      ensures paused && status == Paused
      ensures session == if old(HasSession()) && old(session).Some? then
        Some(SessionSnapshot(Paused, totalTrades, totalPnl, currentBalance)) else old(session)
      ensures sessionId == old(sessionId) && totalTrades == old(totalTrades) && runningLoops == old(runningLoops)
      ensures activeStrategies == old(activeStrategies) && strategyOrder == old(strategyOrder)
      ensures positions == old(positions) && tradeLog == old(tradeLog) && startBalance == old(startBalance)
    {
      status := Paused;
      UpdateSession();
      return true;
    }

    /** `resume`: RUNNING, unconditionally; no loop is launched. */
    method Resume() returns (resumed: bool)
      requires Valid()
      modifies this
      ensures Valid()
      ensures resumed && status == Running
      ensures session == if old(HasSession()) && old(session).Some? then
        Some(SessionSnapshot(Running, totalTrades, totalPnl, currentBalance)) else old(session)
      ensures sessionId == old(sessionId) && totalTrades == old(totalTrades) && runningLoops == old(runningLoops)
      ensures activeStrategies == old(activeStrategies) && strategyOrder == old(strategyOrder)
      ensures positions == old(positions) && tradeLog == old(tradeLog) && startBalance == old(startBalance)
    {
      status := Running;
      UpdateSession();
      return true;
    }

    /** `add_strategy`: build the strategy and insert or overwrite its entry with no last signal
        and no open positions; an unknown type leaves the registry as it was. */
    method AddStrategy(strategyId: int, strategyType: string, parameters: Strategies.Params, symbol: string) returns (added: bool)
      requires Valid()
      modifies this
      ensures Valid()
      ensures added <==> strategyType in Strategies.AvailableStrategies()
      ensures added ==> activeStrategies == old(activeStrategies)[strategyId :=
        Entry(Strategies.CreateStrategy(strategyType, parameters).value, strategyType, parameters, symbol, None, [])]
      ensures added ==> strategyOrder == if strategyId in old(activeStrategies) then old(strategyOrder) else old(strategyOrder) + [strategyId]
      ensures !added ==> activeStrategies == old(activeStrategies) && strategyOrder == old(strategyOrder)
      ensures added ==> activeStrategies.Keys == old(activeStrategies).Keys + {strategyId}
      ensures status == old(status) && sessionId == old(sessionId) && session == old(session)
      ensures totalTrades == old(totalTrades) && positions == old(positions) && tradeLog == old(tradeLog)
      ensures runningLoops == old(runningLoops) && startBalance == old(startBalance)
    {
      var created := Strategies.CreateStrategy(strategyType, parameters);
      if created.Err? {
        return false;
      }
      if strategyId !in activeStrategies {
        strategyOrder := strategyOrder + [strategyId];
      }
      activeStrategies := activeStrategies[strategyId := Entry(created.value, strategyType, parameters, symbol, None, [])];
      return true;
    }

    /** `remove_strategy`: looks the entry up by `str(strategy_id)`, which never matches an int key,
        so nothing is ever removed. */
    method RemoveStrategy(strategyId: int) returns (removed: bool)
      requires Valid()
      modifies this
      ensures Valid()
      ensures !removed
      ensures activeStrategies == old(activeStrategies) && strategyOrder == old(strategyOrder)
      ensures status == old(status) && sessionId == old(sessionId) && session == old(session)
      ensures totalTrades == old(totalTrades) && positions == old(positions) && tradeLog == old(tradeLog)
      ensures runningLoops == old(runningLoops) && startBalance == old(startBalance)
    {
      var key := StrKey(DecimalString(strategyId));
      StrKeyNeverPresent(activeStrategies, strategyId);
      removed := key in KeysOf(activeStrategies);
    }

    /** `_execute_signal` for a non-HOLD signal of the strategy under `key`: the risk gate, the
        (as written, zero) size, the order, and on a FILLED order the trade record, the position
        update, the count and, for a BUY, the strategy's open-position list. */
    method ExecuteSignal(key: int, signal: Strategies.Signal, todaysTrades: seq<Trade>, orderStatus: Option<string>)
      requires Valid() && key in activeStrategies && signal.kind != Strategies.Hold
      modifies this
      ensures Valid()
      ensures BookOf() == Executed(old(BookOf()), key, signal, PositionSizeAsWritten(), todaysTrades, orderStatus)
      ensures strategyOrder == old(strategyOrder) && activeStrategies.Keys == old(activeStrategies).Keys
      ensures status == old(status) && sessionId == old(sessionId) && session == old(session)
      ensures runningLoops == old(runningLoops) && startBalance == old(startBalance)
    {
      var entry := activeStrategies[key];
      var symbol := entry.symbol;
      if !RiskManagement.CheckTradeAllowed(positions, todaysTrades, signal, symbol) {
        return;
      }
      var size := PositionSizeAsWritten();
      var success := ExecuteOrder(symbol, Side(signal.kind), size, signal.price, key, orderStatus);
      if success {
        totalTrades := totalTrades + 1;
        if signal.kind == Strategies.Buy {
          activeStrategies := activeStrategies[key := entry.(activePositions := entry.activePositions + [OpenPosition(symbol, size, signal.price)])];
        }
      }
    }

    /** `_execute_buy` / `_execute_sell`: place the order and, when the venue reports it FILLED,
        record the trade (`_record_trade`) and update the portfolio row. A missing order, a
        missing status or a raising venue call all come in as `orderStatus` other than FILLED. */
    method ExecuteOrder(symbol: string, side: string, quantity: real, price: real, strategyId: int, orderStatus: Option<string>)
      returns (success: bool)
      requires Valid()
      modifies this
      ensures Consistent() && totalTrades == old(totalTrades)
      ensures success <==> orderStatus == Some("FILLED")
      ensures success ==>
        tradeLog == old(tradeLog) + [Trade(Some(strategyId), symbol, side, quantity, price, quantity * price, 0.0, "completed")] &&
        positions == ApplyTrade(old(positions), symbol, quantity, price, side)
      ensures !success ==> tradeLog == old(tradeLog) && positions == old(positions)
      ensures activeStrategies == old(activeStrategies) && strategyOrder == old(strategyOrder)
      ensures status == old(status) && sessionId == old(sessionId) && session == old(session)
      ensures runningLoops == old(runningLoops) && startBalance == old(startBalance)
    {
      if orderStatus != Some("FILLED") {
        return false;
      }
      tradeLog := tradeLog + [Trade(Some(strategyId), symbol, side, quantity, price, quantity * price, 0.0, "completed")];
      ApplyTradeFrame(positions, symbol, quantity, price, side, symbol);
      positions := ApplyTrade(positions, symbol, quantity, price, side);
      return true;
    }

    /** `_process_strategy` on one fetch of market data: skipped without data, with fewer than 100
        bars, or when the signal raises; otherwise the signal is stored as `last_signal` and, when
        actionable, executed. */
    method ProcessStrategy(key: int, feed: Option<Strategies.Series>, todaysTrades: seq<Trade>, orderStatus: Option<string>)
      requires Valid() && key in activeStrategies
      requires feed.Some? ==> Strategies.IndicatorsInRange(feed.value)
      modifies this
      ensures Valid()
      ensures strategyOrder == old(strategyOrder) && activeStrategies.Keys == old(activeStrategies).Keys
      ensures BookOf() == Processed(old(BookOf()), key, feed, todaysTrades, orderStatus)
      ensures status == old(status) && sessionId == old(sessionId) && session == old(session)
      ensures runningLoops == old(runningLoops) && startBalance == old(startBalance)
    {
      var entry := activeStrategies[key];
      var sig := SignalFor(entry.strategy, feed);
      if sig.None? {
        return;
      }
      activeStrategies := activeStrategies[key := entry.(lastSignal := sig)];
      if Actionable(sig.value) {
        ExecuteSignal(key, sig.value, todaysTrades, orderStatus);
      }
    }

    /** `_should_pause_trading`: the day's net flow is below the loss limit, or the drawdown
        exceeds 15%; a zero start balance makes the drawdown divide by zero, and the handler
        pauses. */
    predicate ShouldPauseTrading(todaysTrades: seq<Trade>)
      reads this
    {
      var dailyPnl := NetFlow(todaysTrades);
      if dailyPnl < -(startBalance * MaxDailyLoss) then true
      else if startBalance == 0.0 then true
      else (startBalance - currentBalance) / startBalance > MaxDrawdown
    }

    /** The balances never move after `start`, so the drawdown is 0 and only the daily loss limit
        or a zero start balance pauses trading. */
    lemma PausesOnlyOnLoss(todaysTrades: seq<Trade>)
      requires Valid()
      ensures ShouldPauseTrading(todaysTrades) <==>
        startBalance == 0.0 || NetFlow(todaysTrades) < -(startBalance * MaxDailyLoss)
    {
      if startBalance != 0.0 {
        assert (startBalance - currentBalance) / startBalance == 0.0;
      }
    }

    /** `get_status`. */
    function GetStatus(): EngineStatus
      reads this
    {
      EngineStatus(StatusValue(status), totalTrades, totalPnl, currentBalance, startBalance,
                   |activeStrategies|, sessionId)
    }

    /** The status reports one active strategy per registered id. */
    lemma {:induction false} StatusCountsStrategies()
      requires Valid()
      ensures GetStatus().activeStrategies == |strategyOrder|
      ensures GetStatus().totalTrades == |tradeLog|
    {
      DistinctCard(strategyOrder);
      assert activeStrategies.Keys == set x | x in strategyOrder by {
        forall k ensures k in activeStrategies.Keys <==> k in strategyOrder {
          assert k in activeStrategies <==> k in strategyOrder;
        }
      }
      assert |activeStrategies| == |activeStrategies.Keys|;
    }

    /** `_update_portfolio`: revalue every row that has a quote; a row that raises discards the
        whole refresh. */
    method UpdatePortfolio(quotes: map<string, real>)
      requires Valid()
      modifies this
      ensures Valid()
      ensures RefreshRaises(old(positions), quotes) ==> positions == old(positions)
      ensures !RefreshRaises(old(positions), quotes) ==> positions == Refreshed(old(positions), quotes)
      ensures activeStrategies == old(activeStrategies) && strategyOrder == old(strategyOrder)
      ensures status == old(status) && sessionId == old(sessionId) && session == old(session)
      ensures totalTrades == old(totalTrades) && tradeLog == old(tradeLog)
      ensures runningLoops == old(runningLoops) && startBalance == old(startBalance)
    {
      var rows := positions;
      var updated: seq<Position> := [];
      var i := 0;
      while i < |rows|
        invariant 0 <= i <= |rows| && |updated| == i
        invariant forall j :: 0 <= j < i ==> !RevalueRaises(rows[j], quotes) && updated[j] == Revalue(rows[j], quotes)
      {
        if RevalueRaises(rows[i], quotes) {
          return;
        }
        updated := updated + [Revalue(rows[i], quotes)];
        i := i + 1;
      }
      assert forall j :: 0 <= j < |rows| ==> updated[j].symbol == rows[j].symbol;
      positions := updated;
    }

    /** One pass over `active_strategies` in insertion order, each strategy with its own market
        data and order outcome. The risk gate sees today's earlier trades and those this pass
        has recorded so far. Each strategy files at most one trade. */
    method RunCycle(todaysTrades: seq<Trade>, feeds: map<int, Strategies.Series>, orders: map<int, string>)
      requires Valid()
      requires forall k :: k in feeds ==> Strategies.IndicatorsInRange(feeds[k])
      modifies this
      ensures Valid()
      ensures BookOf() == Cycle(old(BookOf()), old(strategyOrder), feeds, orders, todaysTrades, |old(tradeLog)|)
      ensures strategyOrder == old(strategyOrder)
      ensures status == old(status) && sessionId == old(sessionId) && session == old(session)
      ensures runningLoops == old(runningLoops) && startBalance == old(startBalance)
    {
      var recorded := tradeLog;
      var i := 0;
      while i < |strategyOrder|
        invariant Valid() && 0 <= i <= |strategyOrder|
        invariant recorded == old(tradeLog)
        invariant strategyOrder == old(strategyOrder) && activeStrategies.Keys == old(activeStrategies).Keys
        invariant old(tradeLog) <= tradeLog
        invariant forall k :: k in strategyOrder[i..] ==> k in strategyOrder
        invariant Cycle(BookOf(), strategyOrder[i..], feeds, orders, todaysTrades, |recorded|) ==
          Cycle(old(BookOf()), strategyOrder, feeds, orders, todaysTrades, |recorded|)
        invariant status == old(status) && sessionId == old(sessionId) && session == old(session)
        invariant runningLoops == old(runningLoops) && startBalance == old(startBalance)
      {
        var key := strategyOrder[i];
        var feed := if key in feeds then Some(feeds[key]) else None;
        var orderStatus := if key in orders then Some(orders[key]) else None;
        ProcessStrategy(key, feed, todaysTrades + tradeLog[|recorded|..], orderStatus);
        assert strategyOrder[i..][1..] == strategyOrder[i + 1..];
        i := i + 1;
      }
      assert strategyOrder[i..] == [];
    }

    /** One turn of `_trading_loop`: a status other than RUNNING ends this loop task; a pause
        condition skips the turn; otherwise every strategy is processed and the portfolio is
        revalued. The loop itself never changes the status. */
    method LoopIteration(todaysTrades: seq<Trade>, feeds: map<int, Strategies.Series>, orders: map<int, string>,
                         quotes: map<string, real>) returns (continues: bool)
      requires Valid() && runningLoops > 0
      requires forall k :: k in feeds ==> Strategies.IndicatorsInRange(feeds[k])
      modifies this
      ensures Valid()
      ensures continues <==> old(status) == Running
      ensures runningLoops == if continues then old(runningLoops) else old(runningLoops) - 1
      ensures !continues || old(ShouldPauseTrading(todaysTrades)) ==>
        activeStrategies == old(activeStrategies) && positions == old(positions) && tradeLog == old(tradeLog)
      ensures continues && !old(ShouldPauseTrading(todaysTrades)) ==>
        var c := Cycle(old(BookOf()), old(strategyOrder), feeds, orders, todaysTrades, |old(tradeLog)|);
        activeStrategies == c.strategies && tradeLog == c.tradeLog && totalTrades == c.totalTrades &&
        positions == (if RefreshRaises(c.positions, quotes) then c.positions else Refreshed(c.positions, quotes))
      ensures old(tradeLog) <= tradeLog && totalTrades <= old(totalTrades) + |strategyOrder|
      ensures status == old(status) && strategyOrder == old(strategyOrder) && activeStrategies.Keys == old(activeStrategies).Keys
      ensures sessionId == old(sessionId) && session == old(session) && startBalance == old(startBalance)
    {
      if status != Running {
        runningLoops := runningLoops - 1;
        return false;
      }
      if ShouldPauseTrading(todaysTrades) {
        return true;
      }
      RunCycle(todaysTrades, feeds, orders);
      UpdatePortfolio(quotes);
      return true;
    }
  }
}
