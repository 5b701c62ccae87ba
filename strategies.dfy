/** The signal generators of core/strategies.py. Each variant's `calculate_signal` is a pure
    decision rule over the length of the price series and the last one or two values of an
    indicator; the indicator values themselves come from the `ta` library and are inputs here. */
module Strategies {
  import opened Wrappers

  datatype SignalKind = Buy | Sell | Hold

  /** A trading signal: its kind, a confidence meant to lie in [0, 1], and the price it refers to. */
  datatype Signal = Signal(kind: SignalKind, confidence: real, price: real)

  /** A number decoded from JSON: a Python `int` or a Python `float`. */
  datatype Number = IntValue(i: int) | FloatValue(f: real)

  /** The value of a number in arithmetic, where Python mixes the two freely. */
  function AsReal(x: Number): real
  {
    match x
    case IntValue(i) => i as real
    case FloatValue(f) => f
  }

  /** The strategy parameters as decoded from JSON. */
  type Params = map<string, Number>

  /** `parameters.get(key, default)`. */
  function Param(p: Params, key: string, default: Number): Number
  {
    if key in p then p[key] else default
  }

  /** A parameter used only in arithmetic. */
  function RealParam(p: Params, key: string, default: Number): real
  {
    AsReal(Param(p, key, default))
  }

  /** The five concrete strategies, each with the configuration its constructor stores. */
  datatype Strategy =
    | Rsi(period: real, oversold: real, overbought: real)
    | Macd(fastPeriod: real, slowPeriod: real, signalPeriod: real)
    | Bollinger(period: real, stdDev: real)
    | MaCrossover(fastPeriod: real, slowPeriod: real)
    | Grid(gridLevels: Number, gridSpacing: real)

  /** The two most recent values of an indicator series. */
  datatype Pair = Pair(prev: real, cur: real)

  /** One evaluation's view of a price series: its length, its last close, and the last values
      of every indicator some variant reads. */
  datatype Series = Series(
    bars: nat,
    close: real,
    rsi: real,
    macd: Pair,
    macdSignal: Pair,
    macdHistogram: real,
    upperBand: real,
    lowerBand: real,
    fastMa: Pair,
    slowMa: Pair)

  /** What the indicator library guarantees of its output on positive prices: RSI lies in
      [0, 100], and closes and simple moving averages are positive. */
  predicate IndicatorsInRange(s: Series)
  {
    0.0 <= s.rsi <= 100.0 && s.close > 0.0 && s.slowMa.cur > 0.0
  }

  /** `BaseStrategy.min_data_points`, before a subclass overrides it. */
  const BaseMinDataPoints: real := 100.0

  function Name(st: Strategy): string
  {
    match st
    case Rsi(_, _, _) => "RSI Strategy"
    case Macd(_, _, _) => "MACD Strategy"
    case Bollinger(_, _) => "Bollinger Bands Strategy"
    case MaCrossover(_, _) => "Moving Average Crossover Strategy"
    case Grid(_, _) => "Grid Trading Strategy"
  }

  /** The history length each variant's constructor demands. */
  function MinDataPoints(st: Strategy): real
  {
    match st
    case Rsi(period, _, _) => period + 10.0
    case Macd(_, slow, signal) => slow + signal + 10.0
    case Bollinger(period, _) => period + 10.0
    case MaCrossover(_, slow) => slow + 10.0
    case Grid(_, _) => 50.0
  }

  /** `validate_data`: the series is long enough. */
  predicate ValidateData(st: Strategy, bars: nat)
  {
    !((bars as real) < MinDataPoints(st))
  }

  /** `get_position_size`: the portfolio value scaled by the risk fraction per trade. */
  function GetPositionSize(portfolioValue: real, riskPerTrade: real): (size: real)
    ensures portfolioValue >= 0.0 && 0.0 <= riskPerTrade <= 1.0 ==> 0.0 <= size <= portfolioValue
    ensures riskPerTrade == 0.0 ==> size == 0.0
  {
    portfolioValue * riskPerTrade
  }

  /** The signal every variant returns when the series is too short. */
  const Insufficient: Signal := Signal(Hold, 0.0, 0.0)

  /** A signal whose confidence lies in [0, 1], and is 0 exactly for HOLD. */
  predicate WellFormed(sig: Signal)
  {
    0.0 <= sig.confidence <= 1.0 && (sig.kind == Hold ==> sig.confidence == 0.0)
  }

  function Min(a: real, b: real): real { if a <= b then a else b }

  function Abs(a: real): real { if a < 0.0 then -a else a }

  /** `num / den` for a positive denominator, with its sign. */
  function Ratio(num: real, den: real): (r: real)
    requires den > 0.0
    ensures num > 0.0 ==> r > 0.0
    ensures num >= 0.0 ==> r >= 0.0
  {
    var q := num / den;
    assert q * den == num;
    q
  }

  /** `RSIStrategy.calculate_signal`. */
  function RsiSignal(st: Strategy, bars: nat, rsi: real, close: real): (r: Signal)
    requires st.Rsi? && 0.0 <= rsi <= 100.0
    ensures !ValidateData(st, bars) ==> r == Insufficient
    ensures ValidateData(st, bars) ==> r.price == close
    ensures ValidateData(st, bars) ==>
      (r.kind == Buy <==> rsi < st.oversold) &&
      (r.kind == Sell <==> st.oversold <= rsi && rsi > st.overbought)
    ensures r.kind != Hold ==> 0.0 < r.confidence <= 1.0
    ensures WellFormed(r)
  {
    if !ValidateData(st, bars) then Insufficient
    else if rsi < st.oversold then Signal(Buy, Min(1.0, Ratio(st.oversold - rsi, st.oversold)), close)
    else if rsi > st.overbought then Signal(Sell, Min(1.0, Ratio(rsi - st.overbought, 100.0 - st.overbought)), close)
    else Signal(Hold, 0.0, close)
  }

  /** The line `cur` crosses above `ref` between the two samples. */
  predicate CrossesAbove(cur: Pair, ref: Pair)
  {
    cur.cur > ref.cur && cur.prev <= ref.prev
  }

  /** The line `cur` crosses below `ref` between the two samples. */
  predicate CrossesBelow(cur: Pair, ref: Pair)
  {
    cur.cur < ref.cur && cur.prev >= ref.prev
  }

  /** `MACDStrategy.calculate_signal`: golden cross buys, death cross sells. */
  function MacdSignal(st: Strategy, bars: nat, macd: Pair, signalLine: Pair, histogram: real, close: real): (r: Signal)
    requires st.Macd?
    ensures !ValidateData(st, bars) ==> r == Insufficient
    ensures ValidateData(st, bars) ==> r.price == close
    ensures ValidateData(st, bars) ==>
      (r.kind == Buy <==> CrossesAbove(macd, signalLine)) &&
      (r.kind == Sell <==> CrossesBelow(macd, signalLine))
    ensures r.kind != Hold && macd.cur == 0.0 ==> r.confidence == 0.5
    ensures WellFormed(r)
  {
    var confidence := Min(1.0, if macd.cur != 0.0 then Ratio(Abs(histogram), Abs(macd.cur)) else 0.5);
    if !ValidateData(st, bars) then Insufficient
    else if CrossesAbove(macd, signalLine) then Signal(Buy, confidence, close)
    else if CrossesBelow(macd, signalLine) then Signal(Sell, confidence, close)
    else Signal(Hold, 0.0, close)
  }

  /** `BollingerBandsStrategy.calculate_signal`: touching the lower band buys, the upper band sells;
      the lower band is tested first. */
  function BollingerSignal(st: Strategy, bars: nat, upper: real, lower: real, close: real): (r: Signal)
    requires st.Bollinger? && close > 0.0
    ensures !ValidateData(st, bars) ==> r == Insufficient
    ensures ValidateData(st, bars) ==> r.price == close
    ensures ValidateData(st, bars) ==>
      (r.kind == Buy <==> close <= lower) &&
      (r.kind == Sell <==> lower < close && close >= upper)
    ensures r.kind != Hold ==> 0.5 <= r.confidence <= 1.0
    ensures WellFormed(r)
  {
    if !ValidateData(st, bars) then Insufficient
    else if close <= lower then Signal(Buy, Min(1.0, Ratio(lower - close, close) + 0.5), close)
    else if close >= upper then Signal(Sell, Min(1.0, Ratio(close - upper, close) + 0.5), close)
    else Signal(Hold, 0.0, close)
  }

  /** `MovingAverageCrossoverStrategy.calculate_signal`: the fast average crossing the slow one. */
  function MaCrossoverSignal(st: Strategy, bars: nat, fast: Pair, slow: Pair, close: real): (r: Signal)
    requires st.MaCrossover? && slow.cur > 0.0
    ensures !ValidateData(st, bars) ==> r == Insufficient
    ensures ValidateData(st, bars) ==> r.price == close
    ensures ValidateData(st, bars) ==>
      (r.kind == Buy <==> CrossesAbove(fast, slow)) &&
      (r.kind == Sell <==> CrossesBelow(fast, slow))
    ensures r.kind != Hold ==> 0.0 < r.confidence <= 1.0
    ensures WellFormed(r)
  {
    if !ValidateData(st, bars) then Insufficient
    else if CrossesAbove(fast, slow) then Signal(Buy, Min(1.0, Ratio(fast.cur - slow.cur, slow.cur) * 10.0), close)
    else if CrossesBelow(fast, slow) then Signal(Sell, Min(1.0, Ratio(slow.cur - fast.cur, slow.cur) * 10.0), close)
    else Signal(Hold, 0.0, close)
  }

  /** `numpy.linspace(start, stop, num)` over exact reals: `num` evenly spaced points from
      `start` to `stop` inclusive; a single point is `start`. */
  function Linspace(start: real, stop: real, num: nat): (r: seq<real>)
    ensures |r| == num
    ensures num >= 1 ==> r[0] == start
  {
    if num == 0 then []
    else if num == 1 then [start]
    else seq(num, k requires 0 <= k < num => start + (k as real) * ((stop - start) / ((num - 1) as real)))
  }

  /** No element comes before a smaller one. */
  predicate Ascending(xs: seq<real>)
  {
    forall i, j :: 0 <= i < j < |xs| ==> xs[i] <= xs[j]
  }

  /** `xs[xs < p]`: the elements below `p`, in order. */
  function Below(xs: seq<real>, p: real): (r: seq<real>)
    ensures forall i :: 0 <= i < |r| ==> r[i] < p && r[i] in xs
    ensures forall x :: x in xs && x < p ==> x in r
  {
    if xs == [] then []
    else
      assert xs == [xs[0]] + xs[1..];
      if xs[0] < p then [xs[0]] + Below(xs[1..], p) else Below(xs[1..], p)
  }

  /** `xs[xs > p]`: the elements above `p`, in order. */
  function Above(xs: seq<real>, p: real): (r: seq<real>)
    ensures forall i :: 0 <= i < |r| ==> r[i] > p && r[i] in xs
    ensures forall x :: x in xs && x > p ==> x in r
  {
    if xs == [] then []
    else
      assert xs == [xs[0]] + xs[1..];
      if xs[0] > p then [xs[0]] + Above(xs[1..], p) else Above(xs[1..], p)
  }

  /** The first element of an ascending sequence is no larger than any element of its tail. */
  lemma HeadIsLeast(xs: seq<real>, ys: seq<real>)
    requires Ascending(xs) && xs != []
    requires forall i :: 0 <= i < |ys| ==> ys[i] in xs[1..]
    ensures forall i :: 0 <= i < |ys| ==> xs[0] <= ys[i]
  {
    forall i | 0 <= i < |ys|
      ensures xs[0] <= ys[i]
    {
      var j :| 0 <= j < |xs[1..]| && xs[1..][j] == ys[i];
      assert xs[j + 1] == ys[i];
    }
  }

  /** An element no larger than an ascending sequence can go in front of it. */
  lemma ConsAscending(x: real, ys: seq<real>)
    requires Ascending(ys) && forall i :: 0 <= i < |ys| ==> x <= ys[i]
    ensures Ascending([x] + ys)
  {
    var r := [x] + ys;
    forall i, j | 0 <= i < j < |r|
      ensures r[i] <= r[j]
    {
      assert r[j] == ys[j - 1];
      if i > 0 {
        assert r[i] == ys[i - 1];
      }
    }
  }

  /** Filtering keeps an ascending sequence ascending. */
  lemma {:induction false} BelowAscends(xs: seq<real>, p: real)
    requires Ascending(xs)
    ensures Ascending(Below(xs, p))
  {
    if xs != [] {
      var rest := Below(xs[1..], p);
      assert Ascending(xs[1..]);
      BelowAscends(xs[1..], p);
      if xs[0] < p {
        HeadIsLeast(xs, rest);
        ConsAscending(xs[0], rest);
      }
    }
  }

  /** Filtering keeps an ascending sequence ascending. */
  lemma {:induction false} AboveAscends(xs: seq<real>, p: real)
    requires Ascending(xs)
    ensures Ascending(Above(xs, p))
  {
    if xs != [] {
      var rest := Above(xs[1..], p);
      assert Ascending(xs[1..]);
      AboveAscends(xs[1..], p);
      if xs[0] > p {
        HeadIsLeast(xs, rest);
        ConsAscending(xs[0], rest);
      }
    }
  }

  /** On ascending levels the last level below `p` is the largest level below it, and the first
      level above `p` the smallest above it: the grid's tests look at the nearest levels. */
  lemma {:induction false} NearestLevels(xs: seq<real>, p: real)
    requires Ascending(xs)
    ensures var b := Below(xs, p);
      b != [] ==> b[|b| - 1] < p && forall x :: x in xs && x < p ==> x <= b[|b| - 1]
    ensures var a := Above(xs, p);
      a != [] ==> a[0] > p && forall x :: x in xs && x > p ==> a[0] <= x
  {
    BelowAscends(xs, p);
    AboveAscends(xs, p);
    AscendingEnds(Below(xs, p));
    AscendingEnds(Above(xs, p));
  }

  /** The first element of an ascending sequence is its least and the last its greatest. */
  lemma AscendingEnds(s: seq<real>)
    requires Ascending(s)
    ensures s != [] ==> forall x :: x in s ==> s[0] <= x <= s[|s| - 1]
  {
    forall x | x in s
      ensures s[0] <= x <= s[|s| - 1]
    {
      var i :| 0 <= i < |s| && s[i] == x;
    }
  }

  /** Evenly spaced points from `start` up to a `stop` no smaller than it ascend. */
  lemma {:induction false} LinspaceAscending(start: real, stop: real, num: nat)
    requires start <= stop
    ensures Ascending(Linspace(start, stop, num))
  {
    if num >= 2 {
      var r := Linspace(start, stop, num);
      var d := (stop - start) / ((num - 1) as real);
      assert d >= 0.0;
      forall i, j | 0 <= i < j < num
        ensures r[i] <= r[j]
      {
        assert (j as real) * d - (i as real) * d == ((j - i) as real) * d;
        assert ((j - i) as real) * d >= 0.0;
      }
    }
  }

  /** The grid of `levels` prices spaced symmetrically around `close`. */
  function GridPrices(close: real, spacing: real, levels: real, n: nat): (r: seq<real>)
    ensures |r| == n
    ensures close >= 0.0 && spacing >= 0.0 && levels >= 0.0 ==> Ascending(r)
  {
    var range := close * spacing * levels;
    assert close >= 0.0 && spacing >= 0.0 && levels >= 0.0 ==> range >= 0.0 by {
      if close >= 0.0 && spacing >= 0.0 && levels >= 0.0 {
        assert close * spacing >= 0.0;
      }
    }
    assert range >= 0.0 ==> Ascending(Linspace(close - range / 2.0, close + range / 2.0, n)) by {
      if range >= 0.0 {
        LinspaceAscending(close - range / 2.0, close + range / 2.0, n);
      }
    }
    Linspace(close - range / 2.0, close + range / 2.0, n)
  }

  /** The grid ascends, so `buy_levels[-1]` and `sell_levels[0]` are the grid levels nearest the
      close from below and from above. */
  lemma GridTestsUseNearestLevels(close: real, spacing: real, n: nat)
    requires close > 0.0 && spacing >= 0.0
    ensures var levels := GridPrices(close, spacing, n as real, n);
      var buys := Below(levels, close);
      var sells := Above(levels, close);
      Ascending(levels) &&
      (buys != [] ==> forall x :: x in levels && x < close ==> x <= buys[|buys| - 1]) &&
      (sells != [] ==> forall x :: x in levels && x > close ==> sells[0] <= x)
  {
    NearestLevels(GridPrices(close, spacing, n as real, n), close);
  }

  /** `GridTradingStrategy.calculate_signal`. `numpy.linspace` raises on a `grid_levels` that is a
      float (a `TypeError`) or a negative int (a `ValueError`). */
  function GridSignal(st: Strategy, bars: nat, close: real): (r: Result<Signal>)
    requires st.Grid?
    ensures !ValidateData(st, bars) ==> r == Ok(Insufficient)
    ensures r.Err? <==> ValidateData(st, bars) && (st.gridLevels.FloatValue? || st.gridLevels.i < 0)
    ensures r.Ok? && r.value.kind != Hold ==> r.value.confidence == 0.7 && r.value.price == close
    ensures r.Ok? ==> WellFormed(r.value)
  {
    if !ValidateData(st, bars) then Ok(Insufficient)
    else if st.gridLevels.FloatValue? then Err("'float' object cannot be interpreted as an integer")
    else if st.gridLevels.i < 0 then Err("Number of samples must be non-negative.")
    else
      Ok(GridDecision(close, st.gridSpacing, st.gridLevels.i as nat))
  }

  /** The grid's test on `n` levels: buy when the nearest level below the close is within half a
      spacing of it, otherwise sell when the nearest level above is. */
  function GridDecision(close: real, spacing: real, n: nat): (r: Signal)
    ensures r.kind != Hold ==> r.confidence == 0.7 && r.price == close
    ensures WellFormed(r)
  {
    var levels := GridPrices(close, spacing, n as real, n);
    var buys := Below(levels, close);
    var sells := Above(levels, close);
    if |buys| > 0 && close - buys[|buys| - 1] < close * spacing * 0.5 then Signal(Buy, 0.7, close)
    else if |sells| > 0 && sells[0] - close < close * spacing * 0.5 then Signal(Sell, 0.7, close)
    else Signal(Hold, 0.0, close)
  }

  /** `strategy.calculate_signal(data)`, dispatched on the variant. Only the grid can fail. */
  function CalculateSignal(st: Strategy, s: Series): (r: Result<Signal>)
    requires IndicatorsInRange(s)
    ensures !ValidateData(st, s.bars) ==> r == Ok(Insufficient)
    ensures r.Ok? ==> WellFormed(r.value)
    ensures r.Err? ==> st.Grid?
  {
    match st
    case Rsi(_, _, _) => Ok(RsiSignal(st, s.bars, s.rsi, s.close))
    case Macd(_, _, _) => Ok(MacdSignal(st, s.bars, s.macd, s.macdSignal, s.macdHistogram, s.close))
    case Bollinger(_, _) => Ok(BollingerSignal(st, s.bars, s.upperBand, s.lowerBand, s.close))
    case MaCrossover(_, _) => Ok(MaCrossoverSignal(st, s.bars, s.fastMa, s.slowMa, s.close))
    case Grid(_, _) => GridSignal(st, s.bars, s.close)
  }

  /** Level `k` of an `n`-level grid around `close`: the lowest level is half the grid's range
      below the close, and the levels are `range / (n - 1)` apart. */
  lemma GridLevelAt(close: real, spacing: real, n: nat, k: nat)
    requires k < n
    ensures n == 1 ==> GridPrices(close, spacing, n as real, n)[k] == close - close * spacing / 2.0
    ensures n >= 2 ==>
      GridPrices(close, spacing, n as real, n)[k] == (close - close * spacing * (n as real) / 2.0) + (k as real) * ((close * spacing * (n as real)) / ((n - 1) as real))
  {
  }

  /** The arithmetic of a grid of `n >= 2` levels of width `d` per level: level `k` lies a whole
      number of half steps from the centre, and one step is wider than `d`. */
  lemma GridLevelOffset(d: real, n: nat, k: nat)
    requires d > 0.0 && n >= 2 && k < n
    ensures var step := d * (n as real) / ((n - 1) as real);
      (k as real) * step - d * (n as real) / 2.0 == step * ((2 * k - (n - 1)) as real) / 2.0 &&
      step > d
  {
    var bigN := n as real;
    var range := d * bigN;
    var m := (n - 1) as real;
    assert m == bigN - 1.0 && m >= 1.0;
    var step := range / m;
    assert step * m == range;
    assert (step - d) * m == d;
    assert step - d > 0.0;
    assert step * ((2 * k - (n - 1)) as real) / 2.0 == (k as real) * step - range / 2.0;
  }

  /** No level of the grid lies strictly within half a spacing of the close. */
  lemma {:induction false} GridLevelFar(close: real, spacing: real, levels: real, n: nat, k: nat)
    requires close > 0.0 && spacing > 0.0 && levels == n as real && k < n
    ensures var x := GridPrices(close, spacing, levels, n)[k];
      (x < close ==> close - x >= close * spacing * 0.5) && (x > close ==> x - close >= close * spacing * 0.5)
  {
    var d := close * spacing;
    var x := GridPrices(close, spacing, levels, n)[k];
    GridLevelAt(close, spacing, n, k);
    assert d > 0.0;
    if n == 1 {
      assert close - x == d / 2.0;
    } else {
      GridLevelOffset(d, n, k);
      var step := d * (n as real) / ((n - 1) as real);
      var j := 2 * k - (n - 1);
      HalfSteps(step, j, x - close);
      assert step / 2.0 > d / 2.0;
    }
    assert d / 2.0 == close * spacing * 0.5;
  }

  /** An offset of `j` half steps of a positive step is either zero or at least half a step. */
  lemma HalfSteps(step: real, j: int, offset: real)
    requires step > 0.0 && offset == step * (j as real) / 2.0
    ensures offset < 0.0 ==> -offset >= step / 2.0
    ensures offset > 0.0 ==> offset >= step / 2.0
  {
    if j <= -1 {
      assert step * ((-j - 1) as real) >= 0.0;
    } else if j >= 1 {
      assert step * ((j - 1) as real) >= 0.0;
    }
  }

  /** Neither the nearest level below the close nor the nearest above it is within half a
      spacing of the close, so neither of the grid's tests fires and it holds. */
  lemma {:induction false} GridTestsFail(close: real, spacing: real, n: nat)
    requires close > 0.0 && spacing > 0.0
    ensures GridDecision(close, spacing, n).kind == Hold
  {
    var levels := n as real;
    var lv := GridPrices(close, spacing, levels, n);
    var buys := Below(lv, close);
    var sells := Above(lv, close);
    if |buys| > 0 {
      var k :| 0 <= k < n && lv[k] == buys[|buys| - 1];
      GridLevelFar(close, spacing, levels, n, k);
    }
    if |sells| > 0 {
      var k :| 0 <= k < n && lv[k] == sells[0];
      GridLevelFar(close, spacing, levels, n, k);
    }
  }

  /** With a positive price and spacing, the grid strategy never trades: its nearest levels are
      always at least half a spacing away, which is exactly where its test stops firing. */
  lemma {:induction false} GridNeverTrades(st: Strategy, bars: nat, close: real)
    requires st.Grid? && close > 0.0 && st.gridSpacing > 0.0
    ensures GridSignal(st, bars, close).Ok? ==> GridSignal(st, bars, close).value.kind == Hold
  {
    if ValidateData(st, bars) && st.gridLevels.IntValue? && st.gridLevels.i >= 0 {
      GridTestsFail(close, st.gridSpacing, st.gridLevels.i as nat);
    }
  }

  /** The worked RSI example: with the default thresholds an RSI of 20 buys with confidence 1/3,
      and an RSI of 50 holds. */
  lemma RsiExample(close: real)
    ensures RsiSignal(Rsi(14.0, 30.0, 70.0), 100, 20.0, close) == Signal(Buy, 1.0 / 3.0, close)
    ensures RsiSignal(Rsi(14.0, 30.0, 70.0), 100, 50.0, close) == Signal(Hold, 0.0, close)
  {
    assert Ratio(30.0 - 20.0, 30.0) == 1.0 / 3.0;
  }

  /** `StrategyFactory.get_available_strategies`. */
  function AvailableStrategies(): seq<string>
  {
    ["rsi", "macd", "bollinger", "ma_crossover", "grid_trading"]
  }

  /** `StrategyFactory.create_strategy`: build the variant named by the identifier, reading each
      parameter with its constructor's default; any other identifier is a `ValueError`. */
  function CreateStrategy(strategyType: string, p: Params): (r: Result<Strategy>)
    ensures r.Ok? <==> strategyType in AvailableStrategies()
    ensures r.Err? ==> r.message == "Unknown strategy type: " + strategyType
  {
    if strategyType == "rsi" then
      Ok(Rsi(RealParam(p, "period", IntValue(14)), RealParam(p, "oversold", IntValue(30)),
             RealParam(p, "overbought", IntValue(70))))
    else if strategyType == "macd" then
      Ok(Macd(RealParam(p, "fast_period", IntValue(12)), RealParam(p, "slow_period", IntValue(26)),
              RealParam(p, "signal_period", IntValue(9))))
    else if strategyType == "bollinger" then
      Ok(Bollinger(RealParam(p, "period", IntValue(20)), RealParam(p, "std_dev", IntValue(2))))
    else if strategyType == "ma_crossover" then
      Ok(MaCrossover(RealParam(p, "fast_period", IntValue(10)), RealParam(p, "slow_period", IntValue(50))))
    else if strategyType == "grid_trading" then
      Ok(Grid(Param(p, "grid_levels", IntValue(10)), RealParam(p, "grid_spacing", FloatValue(0.02))))
    else Err("Unknown strategy type: " + strategyType)
  }

  /** Built with default parameters, every available strategy asks for at most the 100 bars the
      engine always requires before evaluating it. */
  lemma DefaultsFitEngineHistory(strategyType: string, bars: nat)
    requires strategyType in AvailableStrategies() && bars as real >= BaseMinDataPoints
    ensures CreateStrategy(strategyType, map[]).Ok?
    ensures ValidateData(CreateStrategy(strategyType, map[]).value, bars)
  {
  }
}
