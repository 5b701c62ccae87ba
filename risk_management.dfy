/** The risk gate and sizing of core/risk_management.py. The manager's fields are the fixed
    `RISK_RULES` of core/config.py, so every check is a function of the portfolio rows, the
    signal and the values its placeholder helpers return. */
module RiskManagement {
  import opened Wrappers
  import opened Records
  import Strategies

  datatype RiskLevel = Low | Medium | High

  /** The result of a risk assessment of one prospective trade. */
  datatype RiskAssessment = RiskAssessment(
    riskScore: real,
    riskLevel: RiskLevel,
    maxPositionSize: real,
    stopLossPrice: real,
    takeProfitPrice: real,
    riskFactors: seq<string>,
    recommendations: seq<string>)

  // RISK_RULES
  const MaxPositionSize: real := 0.1
  const MaxPortfolioRisk: real := 0.02
  const MaxDailyLoss: real := 0.05
  const MaxDrawdown: real := 0.15
  const CorrelationLimit: real := 0.7
  const VolatilityAdjustment: bool := true

  /** The annualised volatility above which a trade is refused. */
  const MaxVolatility: real := 0.5

  /** `np.sqrt(252)` as the double the library returns. */
  const Sqrt252: real := 15.874507866387544
  /** 20% annual volatility converted to a daily figure. */
  const DailyVolatility: real := 0.20 / Sqrt252
  /** The one-sided 95% normal quantile. */
  const VarFactor: real := 1.645

  /** `_estimate_position_size`: a fixed 1%. */
  const EstimatedPositionSize: real := 0.01

  // The placeholder helpers' fixed answers.
  const StubDrawdown: real := 0.05
  const StubVolatility: real := 0.3
  const StubPrice: real := 100.0

  /** The dictionary `_calculate_portfolio_risk` returns. */
  type RiskMetrics = map<string, real>

  /** `current_risk.get(key, 0)`. */
  function Get(m: map<string, real>, key: string): real
  {
    if key in m then m[key] else 0.0
  }

  function Min(a: real, b: real): real { if a <= b then a else b }

  function Max(a: real, b: real): real { if a >= b then a else b }

  /** `_calculate_value_at_risk`: a one-day 95% VaR in currency units, 0 for an empty portfolio. */
  function ValueAtRisk(rows: seq<Position>): (v: real)
    ensures TotalValue(rows) == 0.0 ==> v == 0.0
    ensures TotalValue(rows) > 0.0 ==> v > 0.0
    ensures TotalValue(rows) >= 1.0 ==> v > MaxPortfolioRisk
  {
    var total := TotalValue(rows);
    if total == 0.0 then 0.0 else total * DailyVolatility * VarFactor
  }

  /** `_calculate_portfolio_risk`, with the day's P&L and the drawdown supplied. */
  function PortfolioRiskMetrics(rows: seq<Position>, dailyPnl: real, drawdown: real): RiskMetrics
  {
    map[
      "portfolio_value" := TotalValue(rows),
      "total_pnl" := TotalPnl(rows),
      "daily_pnl" := dailyPnl,
      "drawdown" := drawdown,
      "portfolio_risk" := ValueAtRisk(rows)]
  }

  /** `_check_basic_risk_limits`: daily loss, drawdown and portfolio risk all within limits. */
  predicate CheckBasicRiskLimits(m: RiskMetrics)
  {
    !(Get(m, "daily_pnl") < -(Get(m, "portfolio_value") * MaxDailyLoss)) &&
    !(Get(m, "drawdown") > MaxDrawdown) &&
    !(Get(m, "portfolio_risk") > MaxPortfolioRisk)
  }

  /** The share of the portfolio the position in `symbol` would have after the trade. */
  function ConcentrationAfter(rows: seq<Position>, symbol: string, signal: Strategies.Signal): real
  {
    var total := TotalValue(rows);
    var current := match FindSymbol(rows, symbol)
      case Some(k) => rows[k].totalValue
      case None => 0.0;
    var change := signal.price * EstimatedPositionSize;
    var newValue := if signal.kind == Strategies.Buy then current + change else current - change;
    if total > 0.0 then newValue / total else 0.0
  }

  /** `_check_position_concentration`. */
  predicate CheckPositionConcentration(rows: seq<Position>, symbol: string, signal: Strategies.Signal)
  {
    ConcentrationAfter(rows, symbol, signal) <= MaxPositionSize
  }

  /** The early-exit loop of `_check_correlation_limits`: no other position correlates with
      `symbol` beyond the limit. */
  predicate NoCorrelatedPosition(rows: seq<Position>, symbol: string, matrix: map<string, real>)
  {
    rows == [] ||
    ((rows[0].symbol == symbol || Get(matrix, symbol + "_" + rows[0].symbol) <= CorrelationLimit) &&
     NoCorrelatedPosition(rows[1..], symbol, matrix))
  }

  /** `_check_correlation_limits`, with the correlation matrix supplied. */
  predicate CheckCorrelationLimits(rows: seq<Position>, symbol: string, matrix: map<string, real>)
  {
    |rows| < 2 || NoCorrelatedPosition(rows, symbol, matrix)
  }

  /** `_check_volatility_limits`, with the volatility supplied. */
  predicate CheckVolatilityLimits(volatility: real)
  {
    !(volatility > MaxVolatility)
  }

  /** `check_trade_allowed` with every helper's result supplied: the four checks in order. */
  predicate CheckTradeAllowedWith(
    rows: seq<Position>, dailyPnl: real, drawdown: real, matrix: map<string, real>, volatility: real,
    signal: Strategies.Signal, symbol: string)
  {
    CheckBasicRiskLimits(PortfolioRiskMetrics(rows, dailyPnl, drawdown)) &&
    CheckPositionConcentration(rows, symbol, signal) &&
    CheckCorrelationLimits(rows, symbol, matrix) &&
    CheckVolatilityLimits(volatility)
  }

  /** `check_trade_allowed` as written: the day's P&L from today's trades and the
      placeholders' drawdown, empty correlation matrix and volatility. */
  predicate CheckTradeAllowed(rows: seq<Position>, todaysTrades: seq<Trade>, signal: Strategies.Signal, symbol: string)
  {
    CheckTradeAllowedWith(rows, NetFlow(todaysTrades), StubDrawdown, map[], StubVolatility, signal, symbol)
  }

  /** The correlation loop's search is the universal statement over the other positions. */
  lemma {:induction false} NoCorrelatedPositionMeans(rows: seq<Position>, symbol: string, matrix: map<string, real>)
    ensures NoCorrelatedPosition(rows, symbol, matrix) <==>
      forall i :: 0 <= i < |rows| && rows[i].symbol != symbol ==>
        Get(matrix, symbol + "_" + rows[i].symbol) <= CorrelationLimit
  {
    if rows != [] {
      NoCorrelatedPositionMeans(rows[1..], symbol, matrix);
      assert forall i :: 1 <= i < |rows| ==> rows[i] == rows[1..][i - 1];
    }
  }

  /** With the placeholder helpers, only the basic limits and concentration can refuse a trade:
      an empty matrix has no correlation above the limit and 0.3 is below the volatility cap. */
  lemma {:induction false} CheckTradeAllowedReduces(rows: seq<Position>, todaysTrades: seq<Trade>, signal: Strategies.Signal, symbol: string)
    ensures CheckTradeAllowed(rows, todaysTrades, signal, symbol) <==>
      CheckBasicRiskLimits(PortfolioRiskMetrics(rows, NetFlow(todaysTrades), StubDrawdown)) &&
      CheckPositionConcentration(rows, symbol, signal)
  {
    NoCorrelatedPositionMeans(rows, symbol, map[]);
  }

  /** The VaR, in currency, is compared against a fraction: any portfolio worth one unit or more
      exceeds it, so every trade is refused. */
  lemma FundedPortfolioBlocksEveryTrade(rows: seq<Position>, todaysTrades: seq<Trade>, signal: Strategies.Signal, symbol: string)
    requires TotalValue(rows) >= 1.0
    ensures !CheckTradeAllowed(rows, todaysTrades, signal, symbol)
  {
    assert Get(PortfolioRiskMetrics(rows, NetFlow(todaysTrades), StubDrawdown), "portfolio_risk") == ValueAtRisk(rows);
  }

  /** With no portfolio rows the gate opens exactly when today's trades have not taken cash out. */
  lemma {:induction false} EmptyPortfolioGate(todaysTrades: seq<Trade>, signal: Strategies.Signal, symbol: string)
    ensures CheckTradeAllowed([], todaysTrades, signal, symbol) <==> NetFlow(todaysTrades) >= 0.0
  {
    CheckTradeAllowedReduces([], todaysTrades, signal, symbol);
    var m := PortfolioRiskMetrics([], NetFlow(todaysTrades), StubDrawdown);
    assert Get(m, "daily_pnl") == NetFlow(todaysTrades);
    assert Get(m, "portfolio_value") == 0.0;
    assert Get(m, "drawdown") == StubDrawdown;
    assert Get(m, "portfolio_risk") == 0.0;
  }

  /** Missing metrics read as 0, so an empty dictionary passes the basic limits. */
  lemma EmptyMetricsPass()
    ensures CheckBasicRiskLimits(map[])
  {
  }

  /** `_calculate_overall_risk_score`: the weighted factors, clamped to [0, 1]. */
  function OverallRiskScore(concentration: real, marketRisk: real, correlationRisk: real): (score: real)
    ensures 0.0 <= score <= 1.0
    ensures var raw := 0.4 * concentration + 0.3 * marketRisk + 0.3 * correlationRisk;
      (0.0 <= raw <= 1.0 ==> score == raw) && (raw < 0.0 ==> score == 0.0) && (raw > 1.0 ==> score == 1.0)
  {
    Min(1.0, Max(0.0, 0.4 * concentration + 0.3 * marketRisk + 0.3 * correlationRisk))
  }

  /** The risk level bands of `assess_risk`. */
  function LevelOf(score: real): RiskLevel
  {
    if score < 0.3 then Low else if score < 0.6 then Medium else High
  }

  /** The levels in increasing order of risk. */
  function Rank(level: RiskLevel): nat
  {
    match level
    case Low => 0
    case Medium => 1
    case High => 2
  }

  /** A higher score never gives a lower risk level. */
  lemma LevelOfMonotone(s1: real, s2: real)
    requires s1 <= s2
    ensures Rank(LevelOf(s1)) <= Rank(LevelOf(s2))
  {
  }

  /** The risk-adjusted maximum position: 10% of the portfolio, scaled down by the score. */
  function MaxPositionSizeFor(portfolioValue: real, score: real): (size: real)
    requires 0.0 <= score <= 1.0
    ensures portfolioValue >= 0.0 ==> 0.0 <= size <= portfolioValue * MaxPositionSize
    ensures score == 1.0 ==> size == 0.0
  {
    var size := portfolioValue * MaxPositionSize * (1.0 - score);
    assert portfolioValue >= 0.0 ==> size <= portfolioValue * MaxPositionSize by {
      if portfolioValue >= 0.0 {
        assert portfolioValue * MaxPositionSize * score >= 0.0;
      }
    }
    size
  }

  /** `_get_stop_loss_percentage`. */
  function StopLossPercentage(level: RiskLevel): (p: real)
    ensures 0.0 < p < 1.0
  {
    match level
    case Low => 0.02
    case Medium => 0.03
    case High => 0.05
  }

  /** `_get_take_profit_percentage`. */
  function TakeProfitPercentage(level: RiskLevel): (p: real)
    ensures p > 0.0
  {
    match level
    case Low => 0.06
    case Medium => 0.08
    case High => 0.12
  }

  /** Both tables grow strictly with the risk level. */
  lemma PercentagesIncrease(a: RiskLevel, b: RiskLevel)
    requires Rank(a) < Rank(b)
    ensures StopLossPercentage(a) < StopLossPercentage(b)
    ensures TakeProfitPercentage(a) < TakeProfitPercentage(b)
  {
  }

  /** Stop-loss and take-profit prices bracket a positive current price. */
  lemma {:induction false} ExitPricesBracket(price: real, level: RiskLevel)
    ensures price > 0.0 ==>
      price * (1.0 - StopLossPercentage(level)) < price < price * (1.0 + TakeProfitPercentage(level))
  {
    if price > 0.0 {
      var sl := StopLossPercentage(level);
      var tp := TakeProfitPercentage(level);
      assert price * sl > 0.0;
      assert price * tp > 0.0;
    }
  }

  /** `_calculate_volatility_factor`: smaller positions in more volatile markets. */
  function VolatilityFactor(volatility: real): (f: real)
    ensures 0.5 <= f <= 1.0
  {
    if volatility > 0.4 then 0.5 else if volatility > 0.2 then 0.75 else 1.0
  }

  /** More volatility never gives a larger factor. */
  lemma VolatilityFactorAntitone(v1: real, v2: real)
    requires v1 <= v2
    ensures VolatilityFactor(v2) <= VolatilityFactor(v1)
  {
  }

  /** The size multiplier of each risk level in `adjust_position_size`. */
  function LevelMultiplier(level: RiskLevel): (m: real)
    ensures 0.5 <= m <= 1.0
  {
    match level
    case High => 0.5
    case Medium => 0.75
    case Low => 1.0
  }

  /** The fraction of the portfolio a trade of `positionSize` would take; 0 without value. */
  function PositionConcentration(rows: seq<Position>, positionSize: real): real
  {
    var total := TotalValue(rows);
    if total > 0.0 then positionSize / total else 0.0
  }

  /** The factor strings, with their recommendations, that one finding adds. */
  function Flag(raised: bool, factor: string, advice: string): (r: (seq<string>, seq<string>))
    ensures |r.0| == |r.1| && (raised ==> r.0 == [factor]) && (!raised ==> r.0 == [])
  {
    if raised then ([factor], [advice]) else ([], [])
  }

  /** `assess_risk` as its body intends, with the market and correlation risks (whose helpers do
      not exist) and the current price supplied. */
  function AssessRisk(rows: seq<Position>, positionSize: real, marketRisk: real, correlationRisk: real, currentPrice: real): (a: RiskAssessment)
    ensures 0.0 <= a.riskScore <= 1.0
    ensures a.riskLevel == LevelOf(a.riskScore)
    ensures TotalValue(rows) >= 0.0 ==> 0.0 <= a.maxPositionSize <= TotalValue(rows) * MaxPositionSize
    ensures currentPrice > 0.0 ==> a.stopLossPrice < currentPrice < a.takeProfitPrice
    ensures |a.riskFactors| == |a.recommendations|
    ensures "High position concentration" in a.riskFactors <==> PositionConcentration(rows, positionSize) > MaxPositionSize
    ensures "High market volatility" in a.riskFactors <==> marketRisk > 0.7
    ensures "High portfolio correlation" in a.riskFactors <==> correlationRisk > CorrelationLimit
  {
    var concentration := PositionConcentration(rows, positionSize);
    var f1 := Flag(concentration > MaxPositionSize, "High position concentration", "Reduce position size");
    var f2 := Flag(marketRisk > 0.7, "High market volatility", "Consider waiting for lower volatility");
    var f3 := Flag(correlationRisk > CorrelationLimit, "High portfolio correlation", "Diversify portfolio");
    var score := OverallRiskScore(concentration, marketRisk, correlationRisk);
    var level := LevelOf(score);
    ExitPricesBracket(currentPrice, level);
    RiskAssessment(
      score,
      level,
      MaxPositionSizeFor(TotalValue(rows), score),
      currentPrice * (1.0 - StopLossPercentage(level)),
      currentPrice * (1.0 + TakeProfitPercentage(level)),
      f1.0 + f2.0 + f3.0,
      f1.1 + f2.1 + f3.1)
  }

  /** The conservative assessment `assess_risk` returns from its error handler. */
  const ConservativeAssessment: RiskAssessment :=
    RiskAssessment(0.8, High, 0.0, 0.0, 0.0, ["Error in risk assessment"], ["Contact support"])

  /** `assess_risk` as written: the call to the missing `_calculate_market_risk` raises before
      anything is computed, so every call returns the conservative assessment. */
  function AssessRiskAsWritten(rows: seq<Position>, symbol: string, positionSize: real): (a: RiskAssessment)
    ensures a.riskScore == 0.8 && a.riskLevel == High && a.riskLevel == LevelOf(a.riskScore)
    ensures a.maxPositionSize == 0.0 && a.stopLossPrice == 0.0 && a.takeProfitPrice == 0.0
    ensures a.riskFactors == ["Error in risk assessment"] && a.recommendations == ["Contact support"]
  {
    ConservativeAssessment
  }

  /** The defect matters: on a funded portfolio in a calm, uncorrelated market the intended
      assessment is LOW risk and leaves room for a position, while as written the same call is
      HIGH risk with no room at all, whatever the inputs. */
  lemma {:induction false} AssessRiskAsWrittenDiffers(rows: seq<Position>, symbol: string, positionSize: real, marketRisk: real, correlationRisk: real, currentPrice: real)
    requires TotalValue(rows) > 0.0 && positionSize >= 0.0
    requires marketRisk >= 0.0 && correlationRisk >= 0.0
    requires 0.4 * PositionConcentration(rows, positionSize) + 0.3 * marketRisk + 0.3 * correlationRisk < 0.3
    ensures AssessRisk(rows, positionSize, marketRisk, correlationRisk, currentPrice).riskLevel == Low
    ensures AssessRisk(rows, positionSize, marketRisk, correlationRisk, currentPrice).maxPositionSize > 0.0
    ensures AssessRiskAsWritten(rows, symbol, positionSize).riskLevel == High
    ensures AssessRiskAsWritten(rows, symbol, positionSize).maxPositionSize == 0.0
  {
    var total := TotalValue(rows);
    var concentration := PositionConcentration(rows, positionSize);
    assert concentration == positionSize / total;
    assert concentration >= 0.0;
    var score := OverallRiskScore(concentration, marketRisk, correlationRisk);
    assert 0.0 <= score < 0.3;
    assert total * MaxPositionSize * (1.0 - score) > 0.0;
  }

  /** One concrete call: an empty portfolio and a quiet market assess as LOW. */
  lemma QuietMarketIsLow()
    ensures AssessRisk([], 0.0, 0.0, 0.0, StubPrice).riskLevel == Low
    ensures AssessRiskAsWritten([], "BTCUSDT", 0.0).riskLevel == High
  {
  }

  /** `adjust_position_size` as its body intends, given the assessment and the volatility. */
  function AdjustPositionSize(baseSize: real, assessment: RiskAssessment, volatility: real): (size: real)
    ensures size <= assessment.maxPositionSize
    ensures baseSize >= 0.0 && assessment.maxPositionSize >= 0.0 ==> 0.0 <= size <= baseSize
    ensures baseSize >= 0.0 && assessment.riskLevel == High ==> size <= baseSize * 0.5
  {
    var levelAdjusted := baseSize * LevelMultiplier(assessment.riskLevel);
    var adjusted := if VolatilityAdjustment then levelAdjusted * VolatilityFactor(volatility) else levelAdjusted;
    assert baseSize >= 0.0 ==> 0.0 <= adjusted <= levelAdjusted <= baseSize by {
      if baseSize >= 0.0 {
        assert baseSize * LevelMultiplier(assessment.riskLevel) <= baseSize * 1.0;
        assert levelAdjusted * VolatilityFactor(volatility) <= levelAdjusted * 1.0;
      }
    }
    Min(adjusted, assessment.maxPositionSize)
  }

  /** `adjust_position_size` as written: the call to the missing `_assess_risk` raises, and the
      handler halves the base size. */
  function AdjustPositionSizeAsWritten(baseSize: real): (size: real)
    ensures size * 2.0 == baseSize
    ensures baseSize >= 0.0 ==> 0.0 <= size <= baseSize
  {
    baseSize * 0.5
  }

  /** As written the adjustment halves any positive base size, which is more than the maximum of
      the assessment the method would have used, so it breaks `adjusted_size <= max_position_size`;
      the intended adjustment of that assessment is 0. */
  lemma AdjustAsWrittenBreaksCap(baseSize: real, rows: seq<Position>, symbol: string, volatility: real)
    requires baseSize > 0.0
    ensures AdjustPositionSize(baseSize, AssessRiskAsWritten(rows, symbol, baseSize), volatility) == 0.0
    ensures AdjustPositionSizeAsWritten(baseSize) == baseSize / 2.0
    ensures AdjustPositionSizeAsWritten(baseSize) > AssessRiskAsWritten(rows, symbol, baseSize).maxPositionSize
  {
  }
}
