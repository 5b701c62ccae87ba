// The portfolio API: overview totals and shares, the concentration and diversification bands of
// the risk analysis, its recommendations, and the rebalancing suggestions.

module PortfolioRoutes {
  import opened Wrappers
  import opened Records
  import Sorting
  import RiskManagement

  function Abs(x: real): real
  {
    if x < 0.0 then -x else x
  }

  /** `total_pnl_percentage`: the P&L over the cost basis (value minus P&L), 0 when that basis is
      not positive. */
  function PnlPercentage(totalValue: real, totalPnl: real): (pct: real)
    ensures totalValue - totalPnl <= 0.0 ==> pct == 0.0
    ensures totalValue - totalPnl > 0.0 ==> pct * (totalValue - totalPnl) == totalPnl * 100.0
    ensures pct > 0.0 <==> totalValue - totalPnl > 0.0 && totalPnl > 0.0
    ensures pct < 0.0 <==> totalValue - totalPnl > 0.0 && totalPnl < 0.0
  {
    var basis := totalValue - totalPnl;
    if basis > 0.0 then Percent(totalPnl, basis) else 0.0
  }

  /** `part / whole * 100` for a positive whole. */
  function Percent(part: real, whole: real): (pct: real)
    requires whole > 0.0
    ensures pct * whole == part * 100.0
    ensures pct > 0.0 <==> part > 0.0
    ensures pct < 0.0 <==> part < 0.0
  {
    part / whole * 100.0
  }

  /** A position's `percentage_of_portfolio`: its share of the total value, 0 when the total is not
      positive. */
  function Share(value: real, total: real): (pct: real)
    ensures total <= 0.0 ==> pct == 0.0
    ensures total > 0.0 ==> pct * total == value * 100.0
  {
    if total > 0.0 then Percent(value, total) else 0.0
  }

  /** One entry of `position_distribution`. */
  datatype Holding = Holding(position: Position, percentageOfPortfolio: real)

  function HoldingValue(h: Holding): real
  {
    h.position.totalValue
  }

  /** The distribution before sorting: each row with its share of `total`, in table order. */
  function Distribution(rows: seq<Position>, total: real): (d: seq<Holding>)
    ensures |d| == |rows|
    ensures forall i :: 0 <= i < |rows| ==> d[i].position == rows[i] && d[i].percentageOfPortfolio == Share(rows[i].totalValue, total)
  {
    seq(|rows|, i requires 0 <= i < |rows| => Holding(rows[i], Share(rows[i].totalValue, total)))
  }

  /** The shares of the rows, summed. */
  function ShareSum(rows: seq<Position>, total: real): real
  {
    if rows == [] then 0.0 else Share(rows[0].totalValue, total) + ShareSum(rows[1..], total)
  }

  /** The shares scale with the values they are taken of. */
  lemma {:induction false} ShareSumScales(rows: seq<Position>, total: real)
    requires total > 0.0
    ensures ShareSum(rows, total) * total == TotalValue(rows) * 100.0
  {
    if rows != [] {
      ShareSumScales(rows[1..], total);
      var s := Share(rows[0].totalValue, total);
      var rest := ShareSum(rows[1..], total);
      assert (s + rest) * total == s * total + rest * total;
    }
  }

  /** When the portfolio has value, the overview's percentages add up to 100. */
  lemma SharesSumTo100(rows: seq<Position>)
    requires TotalValue(rows) > 0.0
    ensures ShareSum(rows, TotalValue(rows)) == 100.0
  {
    var t := TotalValue(rows);
    ShareSumScales(rows, t);
    CancelPositive(ShareSum(rows, t), 100.0, t);
  }

  lemma CancelPositive(a: real, b: real, t: real)
    requires t > 0.0 && a * t == b * t
    ensures a == b
  {
    assert (a - b) * t == 0.0;
  }

  /** The `position_distribution` loop of `get_portfolio_overview`, then its sort by value,
      highest first. */
  method PositionDistribution(rows: seq<Position>) returns (dist: seq<Holding>)
    ensures dist == Sorting.SortDesc(Distribution(rows, TotalValue(rows)), HoldingValue)
    ensures Sorting.SortedDesc(dist, HoldingValue)
    ensures multiset(dist) == multiset(Distribution(rows, TotalValue(rows)))
  {
    var total := TotalValue(rows);
    var built: seq<Holding> := [];
    var i := 0;
    while i < |rows|
      invariant 0 <= i <= |rows| && |built| == i
      invariant forall j :: 0 <= j < i ==> built[j] == Holding(rows[j], Share(rows[j].totalValue, total))
    {
      var percentage := if total > 0.0 then rows[i].totalValue / total * 100.0 else 0.0;
      built := built + [Holding(rows[i], percentage)];
      i := i + 1;
    }
    assert built == Distribution(rows, total);
    dist := Sorting.SortDesc(built, HoldingValue);
    Sorting.SortDescCorrect(built, HoldingValue);
  }

  function Pnl(p: Position): real
  {
    p.pnl
  }

  /** `get_portfolio_positions`: the rows, best P&L first; equal P&L keeps table order. */
  function PositionsByPnl(rows: seq<Position>): seq<Position>
  {
    Sorting.SortDesc(rows, Pnl)
  }

  /** The positions listing holds exactly the rows, ordered by P&L, highest first. */
  lemma PositionsByPnlOrdered(rows: seq<Position>)
    ensures Sorting.SortedDesc(PositionsByPnl(rows), Pnl)
    ensures multiset(PositionsByPnl(rows)) == multiset(rows)
  {
    Sorting.SortDescCorrect(rows, Pnl);
  }

  /** A row of `concentration_risk`. */
  datatype Concentration = Concentration(symbol: string, concentration: real, riskLevel: string)

  function ConcentrationKey(c: Concentration): real
  {
    c.concentration
  }

  /** The band of a concentration percentage: above 20 is high, above 10 medium, else low. */
  function ConcentrationLevel(concentration: real): (level: string)
    ensures level == "high" <==> concentration > 20.0
    ensures level == "medium" <==> 10.0 < concentration <= 20.0
    ensures level == "low" <==> concentration <= 10.0
  {
    if concentration > 20.0 then "high" else if concentration > 10.0 then "medium" else "low"
  }

  /** The numeric order of the bands. */
  function LevelRank(level: string): int
  {
    if level == "high" then 2 else if level == "medium" then 1 else 0
  }

  /** A larger concentration never lands in a lower band. */
  lemma ConcentrationLevelMonotone(a: real, b: real)
    requires a <= b
    ensures LevelRank(ConcentrationLevel(a)) <= LevelRank(ConcentrationLevel(b))
  {
  }

  /** The concentrations before sorting, in table order. */
  function Concentrations(rows: seq<Position>, total: real): (c: seq<Concentration>)
    ensures |c| == |rows|
    ensures forall i :: 0 <= i < |rows| ==>
      c[i].symbol == rows[i].symbol && c[i].concentration == Share(rows[i].totalValue, total) &&
      c[i].riskLevel == ConcentrationLevel(c[i].concentration)
  {
    seq(|rows|, i requires 0 <= i < |rows| =>
      Concentration(rows[i].symbol, Share(rows[i].totalValue, total), ConcentrationLevel(Share(rows[i].totalValue, total))))
  }

  /** The `concentration_risk` loop of `get_risk_analysis`, then its sort, highest first. */
  method ConcentrationRisk(rows: seq<Position>, total: real) returns (risk: seq<Concentration>)
    ensures risk == Sorting.SortDesc(Concentrations(rows, total), ConcentrationKey)
    ensures Sorting.SortedDesc(risk, ConcentrationKey)
    ensures multiset(risk) == multiset(Concentrations(rows, total))
  {
    var built: seq<Concentration> := [];
    var i := 0;
    while i < |rows|
      invariant 0 <= i <= |rows| && |built| == i
      invariant forall j :: 0 <= j < i ==> built[j] == Concentrations(rows, total)[j]
    {
      var concentration := if total > 0.0 then rows[i].totalValue / total * 100.0 else 0.0;
      built := built + [Concentration(rows[i].symbol, concentration, ConcentrationLevel(concentration))];
      i := i + 1;
    }
    assert built == Concentrations(rows, total);
    risk := Sorting.SortDesc(built, ConcentrationKey);
    Sorting.SortDescCorrect(built, ConcentrationKey);
  }

  /** `diversification_score` by number of positions: 0 for one, 30 up to three, 60 up to seven,
      90 beyond. (The route answers an empty portfolio before reaching it.) */
  function DiversificationScore(positions: nat): (score: int)
    ensures positions == 1 ==> score == 0
    ensures 2 <= positions <= 3 ==> score == 30
    ensures 4 <= positions <= 7 ==> score == 60
    ensures positions >= 8 ==> score == 90
  {
    if positions == 1 then 0 else if positions <= 3 then 30 else if positions <= 7 then 60 else 90
  }

  /** More positions never lower the score. */
  lemma DiversificationMonotone(m: nat, n: nat)
    requires 1 <= m <= n
    ensures DiversificationScore(m) <= DiversificationScore(n)
  {
  }

  /** The non-zero `pnl_percentage` values as fractions. */
  function Returns(rows: seq<Position>): (r: seq<real>)
    ensures |r| <= |rows|
  {
    if rows == [] then []
    else (if rows[0].pnlPercentage != 0.0 then [rows[0].pnlPercentage / 100.0] else []) + Returns(rows[1..])
  }

  function Sum(xs: seq<real>): real
  {
    if xs == [] then 0.0 else xs[0] + Sum(xs[1..])
  }

  /** The simplified `volatility`: the mean of the non-zero returns, 0 for a single position or
      when every return is 0. */
  function Volatility(rows: seq<Position>): real
  {
    if |rows| > 1 && Returns(rows) != [] then Sum(Returns(rows)) / (|Returns(rows)| as real) else 0.0
  }

  lemma {:induction false} SumBound(xs: seq<real>, bound: real)
    requires forall i :: 0 <= i < |xs| ==> xs[i] <= bound
    ensures Sum(xs) <= (|xs| as real) * bound
  {
    if xs != [] {
      SumBound(xs[1..], bound);
    }
  }

  lemma {:induction false} ReturnsBound(rows: seq<Position>, bound: real)
    requires forall i :: 0 <= i < |rows| ==> rows[i].pnlPercentage <= bound
    ensures forall i :: 0 <= i < |Returns(rows)| ==> Returns(rows)[i] <= bound / 100.0
  {
    if rows != [] {
      ReturnsBound(rows[1..], bound);
    }
  }

  /** When no position is up more than 50%, the volatility test never fires. */
  lemma ModestReturnsNotVolatile(rows: seq<Position>)
    requires forall i :: 0 <= i < |rows| ==> rows[i].pnlPercentage <= 50.0
    ensures Volatility(rows) <= 0.5
  {
    if |rows| > 1 && Returns(rows) != [] {
      ReturnsBound(rows, 50.0);
      SumBound(Returns(rows), 0.5);
      var n := |Returns(rows)| as real;
      assert Sum(Returns(rows)) <= n * 0.5;
      assert Sum(Returns(rows)) / n <= 0.5;
    }
  }

  /** The simplified `var_95`: 20% annual volatility scaled to a day, at the 95% factor. */
  function AnalysisVar(total: real): real
  {
    total * RiskManagement.DailyVolatility * RiskManagement.VarFactor
  }

  /** The risk analysis's value at risk is the risk manager's. */
  lemma AnalysisVarIsRiskManagerVar(rows: seq<Position>)
    ensures AnalysisVar(TotalValue(rows)) == RiskManagement.ValueAtRisk(rows)
  {
  }

  /** The `type` and `priority` fields of a recommendation. */
  datatype Kind = Warning | Info
  datatype Priority = High | Medium | Low

  /** One entry of `_generate_risk_recommendations`. */
  datatype Recommendation = Recommendation(kind: Kind, message: string, priority: Priority)

  /** How many concentration rows are in the high band. */
  function HighCount(risk: seq<Concentration>): (n: nat)
    ensures n <= |risk|
    ensures n == 0 <==> forall i :: 0 <= i < |risk| ==> risk[i].riskLevel != "high"
  {
    if risk == [] then 0 else (if risk[0].riskLevel == "high" then 1 else 0) + HighCount(risk[1..])
  }

  const DiversifyAdvice: string := "Low portfolio diversification. Consider adding more positions across different assets."
  const VolatilityAdvice: string :=
    "High portfolio volatility detected. Consider adding defensive positions or reducing risk exposure."
  const NormalAdvice: string :=
    "Portfolio risk levels appear normal. Continue monitoring and maintain current risk management practices."

  /** The warnings that fire: a high concentration, a score below 30, a volatility above 0.5, in
      that order. */
  function Warnings(highCount: nat, score: int, volatility: real): (w: seq<Recommendation>)
    ensures |w| == (if highCount > 0 then 1 else 0) + (if score < 30 then 1 else 0) + (if volatility > 0.5 then 1 else 0)
    ensures forall i :: 0 <= i < |w| ==> w[i].kind == Warning
    ensures w != [] ==> (w[0].priority == High <==> highCount > 0)
    ensures forall i :: 0 <= i < |w| ==> (w[i].priority == High <==> i == 0 && highCount > 0)
    ensures Recommendation(Warning, DiversifyAdvice, Medium) in w <==> score < 30
    ensures Recommendation(Warning, VolatilityAdvice, Medium) in w <==> volatility > 0.5
  {
    (if highCount > 0 then
       [Recommendation(Warning, "High concentration in " + DecimalString(highCount) +
                       " positions. Consider diversifying to reduce risk.", High)]
     else []) +
    (if score < 30 then [Recommendation(Warning, DiversifyAdvice, Medium)] else []) +
    (if volatility > 0.5 then [Recommendation(Warning, VolatilityAdvice, Medium)] else [])
  }

  /** `_generate_risk_recommendations`: the warnings that fire, or the single info entry when none
      does, so the list is never empty. */
  function GenerateRiskRecommendations(risk: seq<Concentration>, score: int, volatility: real): (r: seq<Recommendation>)
    ensures |r| >= 1
    ensures r[0].kind == Info <==> HighCount(risk) == 0 && score >= 30 && volatility <= 0.5
    ensures r[0].kind == Info ==> |r| == 1
    ensures r[0].kind == Warning ==> r == Warnings(HighCount(risk), score, volatility)
    ensures r[0].priority == High <==> HighCount(risk) > 0
  {
    var warnings := Warnings(HighCount(risk), score, volatility);
    if warnings == [] then [Recommendation(Info, NormalAdvice, Low)] else warnings
  }

  /** The answer of `get_risk_analysis` for a non-empty portfolio. */
  datatype RiskReport = RiskReport(
    totalValue: real,
    totalPnl: real,
    numberOfPositions: nat,
    diversificationScore: int,
    volatility: real,
    valueAtRisk95: real,
    concentrationRisk: seq<Concentration>,
    recommendations: seq<Recommendation>)

  /** `get_risk_analysis`: nothing for an empty portfolio; otherwise the totals, the sorted
      concentrations, the score, the volatility, the value at risk and the recommendations. */
  method RiskAnalysis(rows: seq<Position>) returns (r: Option<RiskReport>)
    ensures r.None? <==> rows == []
    ensures r.Some? ==>
      r.value.totalValue == TotalValue(rows) && r.value.totalPnl == TotalPnl(rows) &&
      r.value.numberOfPositions == |rows| &&
      r.value.diversificationScore == DiversificationScore(|rows|) &&
      r.value.volatility == Volatility(rows) &&
      r.value.valueAtRisk95 == RiskManagement.ValueAtRisk(rows) &&
      Sorting.SortedDesc(r.value.concentrationRisk, ConcentrationKey) &&
      multiset(r.value.concentrationRisk) == multiset(Concentrations(rows, TotalValue(rows))) &&
      r.value.recommendations == GenerateRiskRecommendations(r.value.concentrationRisk, r.value.diversificationScore, r.value.volatility)
  {
    if rows == [] {
      return None;
    }
    var total := TotalValue(rows);
    var risk := ConcentrationRisk(rows, total);
    var score := DiversificationScore(|rows|);
    var volatility := Volatility(rows);
    var var95 := AnalysisVar(total);
    AnalysisVarIsRiskManagerVar(rows);
    var advice := GenerateRiskRecommendations(risk, score, volatility);
    return Some(RiskReport(total, TotalPnl(rows), |rows|, score, volatility, var95, risk, advice));
  }

  /** A high-band concentration always raises the high-priority warning, whatever the order of the
      concentration list. */
  lemma HighConcentrationWarns(risk: seq<Concentration>, score: int, volatility: real, k: nat)
    requires k < |risk| && risk[k].riskLevel == "high"
    ensures GenerateRiskRecommendations(risk, score, volatility)[0].priority == High
  {
  }

  /** A rebalancing target: a symbol and the percentage of the portfolio it should hold. */
  datatype Target = Target(symbol: string, allocation: real)

  /** `target_allocations.get(symbol, 0)`. */
  function TargetFor(targets: seq<Target>, symbol: string): real
  {
    if targets == [] then 0.0
    else if targets[0].symbol == symbol then targets[0].allocation
    else TargetFor(targets[1..], symbol)
  }

  function SumTargets(targets: seq<Target>): real
  {
    if targets == [] then 0.0 else targets[0].allocation + SumTargets(targets[1..])
  }

  /** One entry of `rebalancing_actions`. */
  datatype Action = Action(
    symbol: string,
    action: string,
    currentAllocation: real,
    targetAllocation: real,
    valueChange: real,
    quantityChange: real)

  function ActionSize(a: Action): real
  {
    Abs(a.valueChange)
  }

  /** The value to move for a gap between two allocations. */
  function Move(target: real, current: real, total: real): (v: real)
    ensures v * 100.0 == (target - current) * total
    ensures total > 0.0 && target > current ==> v > 0.0
    ensures total > 0.0 && target < current ==> v < 0.0
  {
    (target - current) / 100.0 * total
  }

  /** `value_change / current_price`, or 0 for a non-positive price. */
  function Quantity(valueChange: real, price: real): (q: real)
    ensures price <= 0.0 ==> q == 0.0
    ensures price > 0.0 ==> q * price == valueChange
  {
    if price > 0.0 then valueChange / price else 0.0
  }

  /** The row's allocation is more than one point away from `target`. */
  predicate OffTarget(p: Position, total: real, target: real)
    requires total != 0.0
  {
    Abs(p.totalValue / total * 100.0 - target) > 1.0
  }

  /** The action suggested for one row, if its allocation is off target. */
  function ActionFor(p: Position, total: real, target: real): (r: Option<Action>)
    requires total != 0.0
    ensures r.Some? <==> OffTarget(p, total, target)
    ensures r.Some? ==>
      r.value.symbol == p.symbol && r.value.currentAllocation == p.totalValue / total * 100.0 &&
      r.value.targetAllocation == target &&
      r.value.valueChange * 100.0 == (target - r.value.currentAllocation) * total &&
      (r.value.action == "BUY" <==> target > r.value.currentAllocation) &&
      (r.value.action == "BUY" || r.value.action == "SELL") &&
      (total > 0.0 ==> (r.value.action == "BUY" <==> r.value.valueChange > 0.0)) &&
      (total > 0.0 && r.value.action == "SELL" ==> r.value.valueChange < 0.0) &&
      r.value.quantityChange == Quantity(r.value.valueChange, p.currentPrice)
  {
    var current := p.totalValue / total * 100.0;
    if Abs(current - target) > 1.0 then
      var change := if target > current then Move(target, current, total) else -Move(current, target, total);
      Some(Action(p.symbol, if target > current then "BUY" else "SELL", current, target, change,
                  Quantity(change, p.currentPrice)))
    else None
  }

  /** The actions for the rows, in table order. */
  function Actions(rows: seq<Position>, targets: seq<Target>, total: real): (r: seq<Action>)
    requires total != 0.0
    ensures |r| <= |rows|
  {
    if rows == [] then []
    else
      var a := ActionFor(rows[0], total, TargetFor(targets, rows[0].symbol));
      (if a.Some? then [a.value] else []) + Actions(rows[1..], targets, total)
  }

  /** Some action is for `symbol`. */
  predicate Mentions(actions: seq<Action>, symbol: string)
  {
    exists i :: 0 <= i < |actions| && actions[i].symbol == symbol
  }

  lemma MentionsConcat(a: seq<Action>, b: seq<Action>, symbol: string)
    ensures Mentions(a + b, symbol) <==> Mentions(a, symbol) || Mentions(b, symbol)
  {
    if Mentions(a + b, symbol) {
      var i :| 0 <= i < |a + b| && (a + b)[i].symbol == symbol;
      if i >= |a| {
        assert b[i - |a|].symbol == symbol;
      }
    }
    if Mentions(a, symbol) {
      var i :| 0 <= i < |a| && a[i].symbol == symbol;
      assert (a + b)[i].symbol == symbol;
    }
    if Mentions(b, symbol) {
      var i :| 0 <= i < |b| && b[i].symbol == symbol;
      assert (a + b)[|a| + i].symbol == symbol;
    }
  }

  /** A row gets an action exactly when it is more than one point off its target (0 when the
      targets do not name it). */
  lemma {:induction false} ActionsCoverOffTargetRows(rows: seq<Position>, targets: seq<Target>, total: real, k: nat)
    requires total != 0.0 && k < |rows|
    requires forall i, j :: 0 <= i < j < |rows| ==> rows[i].symbol != rows[j].symbol
    ensures Mentions(Actions(rows, targets, total), rows[k].symbol) <==>
      OffTarget(rows[k], total, TargetFor(targets, rows[k].symbol))
  {
    var a := ActionFor(rows[0], total, TargetFor(targets, rows[0].symbol));
    var head := if a.Some? then [a.value] else [];
    var rest := Actions(rows[1..], targets, total);
    assert Actions(rows, targets, total) == head + rest;
    MentionsConcat(head, rest, rows[k].symbol);
    if k == 0 {
      ActionsOmit(rows[1..], targets, total, rows[0].symbol);
      if a.Some? {
        assert head[0].symbol == rows[0].symbol;
      }
    } else {
      ActionsCoverOffTargetRows(rows[1..], targets, total, k - 1);
      assert rows[1..][k - 1] == rows[k];
      assert rows[0].symbol != rows[k].symbol;
    }
  }

  /** A symbol no row holds gets no action. */
  lemma {:induction false} ActionsOmit(rows: seq<Position>, targets: seq<Target>, total: real, symbol: string)
    requires total != 0.0
    requires forall i :: 0 <= i < |rows| ==> rows[i].symbol != symbol
    ensures !Mentions(Actions(rows, targets, total), symbol)
  {
    if rows != [] {
      ActionsOmit(rows[1..], targets, total, symbol);
      var a := ActionFor(rows[0], total, TargetFor(targets, rows[0].symbol));
      var head := if a.Some? then [a.value] else [];
      MentionsConcat(head, Actions(rows[1..], targets, total), symbol);
    }
  }

  /** `rebalance_portfolio`: the targets must sum to 100 within 0.01 and the portfolio must have
      value; then one action per off-target row, the largest moves first. */
  method RebalancePortfolio(targets: seq<Target>, rows: seq<Position>) returns (r: Result<seq<Action>>)
    ensures Abs(SumTargets(targets) - 100.0) > 0.01 ==> r == Err("Target allocations must sum to 100%")
    ensures Abs(SumTargets(targets) - 100.0) <= 0.01 && TotalValue(rows) == 0.0 ==>
      r == Err("Portfolio has no value to rebalance")
    ensures r.Ok? <==> Abs(SumTargets(targets) - 100.0) <= 0.01 && TotalValue(rows) != 0.0
    ensures r.Ok? ==>
      r.value == Sorting.SortDesc(Actions(rows, targets, TotalValue(rows)), ActionSize) &&
      Sorting.SortedDesc(r.value, ActionSize) &&
      multiset(r.value) == multiset(Actions(rows, targets, TotalValue(rows)))
  {
    var allocation := SumTargets(targets);
    if Abs(allocation - 100.0) > 0.01 {
      return Err("Target allocations must sum to 100%");
    }
    var total := TotalValue(rows);
    if total == 0.0 {
      return Err("Portfolio has no value to rebalance");
    }
    var actions: seq<Action> := [];
    var i := 0;
    while i < |rows|
      invariant 0 <= i <= |rows|
      invariant actions + Actions(rows[i..], targets, total) == Actions(rows, targets, total)
    {
      var p := rows[i];
      var suggestion := ActionFor(p, total, TargetFor(targets, p.symbol));
      assert Actions(rows[i..], targets, total) ==
        (if suggestion.Some? then [suggestion.value] else []) + Actions(rows[i + 1..], targets, total) by {
        assert rows[i..][1..] == rows[i + 1..];
      }
      if suggestion.Some? {
        actions := actions + [suggestion.value];
      }
      i := i + 1;
    }
    assert actions == Actions(rows, targets, total);
    Sorting.SortDescCorrect(actions, ActionSize);
    return Ok(Sorting.SortDesc(actions, ActionSize));
  }
}
