// The trading API: strategy-record validators and the per-user registry of running engines.

module TradingRoutes {
  import opened Wrappers
  import Records
  import Strategies
  import Engine

  /** A row of the `strategies` table (only the fields the routes read or write). */
  datatype StrategyRow = StrategyRow(
    id: int,
    name: string,
    strategyType: string,
    symbol: string,
    parameters: Strategies.Params,
    riskLevel: string,
    isActive: bool)

  /** The keys of the configured strategy table. */
  const ConfiguredTypes: seq<string> := ["rsi", "macd", "bollinger", "ma_crossover", "grid_trading"]

  const RiskLevels: seq<string> := ["low", "medium", "high"]

  /** A `BASE/QUOTE` symbol: non-empty and containing a slash. */
  predicate WellFormedSymbol(symbol: string)
  {
    symbol != [] && '/' in symbol
  }

  /** `create_strategy`: check the type, then the symbol, then the risk level, and only then
      build the (active) record; `id` is the key the database assigns. */
  function CreateStrategy(id: int, name: string, strategyType: string, symbol: string,
                          parameters: Strategies.Params, riskLevel: string): (r: Result<StrategyRow>)
    ensures r.Ok? <==> strategyType in ConfiguredTypes && WellFormedSymbol(symbol) && riskLevel in RiskLevels
    ensures strategyType !in ConfiguredTypes ==> r == Err("Invalid strategy type")
    ensures strategyType in ConfiguredTypes && !WellFormedSymbol(symbol) ==>
      r == Err("Symbol must be in format: BASE/QUOTE (e.g., BTC/USDT)")
    ensures r.Ok? ==> r.value == StrategyRow(id, name, strategyType, symbol, parameters, riskLevel, true)
  {
    if strategyType !in ConfiguredTypes then Err("Invalid strategy type")
    else if !WellFormedSymbol(symbol) then Err("Symbol must be in format: BASE/QUOTE (e.g., BTC/USDT)")
    else if riskLevel !in RiskLevels then Err("Invalid risk level")
    else Ok(StrategyRow(id, name, strategyType, symbol, parameters, riskLevel, true))
  }

  /** Every record the route accepts names a type the strategy factory builds. */
  lemma CreatedStrategyBuilds(id: int, name: string, strategyType: string, symbol: string,
                              parameters: Strategies.Params, riskLevel: string)
    requires CreateStrategy(id, name, strategyType, symbol, parameters, riskLevel).Ok?
    ensures Strategies.CreateStrategy(strategyType, parameters).Ok?
  {
    assert strategyType in ConfiguredTypes;
    assert ConfiguredTypes == Strategies.AvailableStrategies();
  }

  /** `update_strategy`: a missing record is not found; an invalid risk level rejects the whole
      update (nothing is committed); otherwise each supplied field replaces the stored one. */
  function UpdateStrategy(row: Option<StrategyRow>, name: Option<string>, parameters: Option<Strategies.Params>,
                          riskLevel: Option<string>, isActive: Option<bool>): (r: Result<StrategyRow>)
    ensures row.None? ==> r == Err("Strategy not found")
    ensures r.Ok? <==> row.Some? && (riskLevel.Some? ==> riskLevel.value in RiskLevels)
    ensures r.Ok? ==>
      r.value.id == row.value.id && r.value.strategyType == row.value.strategyType &&
      r.value.symbol == row.value.symbol &&
      r.value.name == (if name.Some? then name.value else row.value.name) &&
      r.value.parameters == (if parameters.Some? then parameters.value else row.value.parameters) &&
      r.value.riskLevel == (if riskLevel.Some? then riskLevel.value else row.value.riskLevel) &&
      r.value.isActive == (if isActive.Some? then isActive.value else row.value.isActive)
  {
    if row.None? then Err("Strategy not found")
    else if riskLevel.Some? && riskLevel.value !in RiskLevels then Err("Invalid risk level")
    else
      var s := row.value;
      Ok(s.(name := if name.Some? then name.value else s.name,
            parameters := if parameters.Some? then parameters.value else s.parameters,
            riskLevel := if riskLevel.Some? then riskLevel.value else s.riskLevel,
            isActive := if isActive.Some? then isActive.value else s.isActive))
  }

  /** An update that supplies nothing leaves the record as it was, and applying the same update
      twice is the same as applying it once. */
  lemma UpdateStrategyIdempotent(row: StrategyRow, name: Option<string>, parameters: Option<Strategies.Params>,
                                 riskLevel: Option<string>, isActive: Option<bool>)
    ensures UpdateStrategy(Some(row), None, None, None, None) == Ok(row)
    ensures UpdateStrategy(Some(row), name, parameters, riskLevel, isActive).Ok? ==>
      UpdateStrategy(Some(UpdateStrategy(Some(row), name, parameters, riskLevel, isActive).value),
                     name, parameters, riskLevel, isActive) ==
      UpdateStrategy(Some(row), name, parameters, riskLevel, isActive)
  {
  }

  /** The rows `start_trading_bot` selects: the user's active strategies whose id was requested,
      in table order. */
  function Matching(table: seq<StrategyRow>, ids: seq<int>): (m: seq<StrategyRow>)
    ensures |m| <= |table|
    ensures forall row :: row in m <==> row in table && row.id in ids && row.isActive
  {
    if table == [] then []
    else
      var rest := Matching(table[..|table| - 1], ids);
      var row := table[|table| - 1];
      assert table == table[..|table| - 1] + [row];
      if row.id in ids && row.isActive then rest + [row] else rest
  }

  /** The ids of a list of rows. */
  function IdsOf(rows: seq<StrategyRow>): set<int>
  {
    set row | row in rows :: row.id
  }

  lemma IdsOfSnoc(rows: seq<StrategyRow>, row: StrategyRow)
    ensures IdsOf(rows + [row]) == IdsOf(rows) + {row.id}
  {
    assert forall r :: r in rows + [row] <==> r in rows || r == row;
  }

  /** Table keys are unique. */
  predicate DistinctIds(table: seq<StrategyRow>)
  {
    forall i, j :: 0 <= i < j < |table| ==> table[i].id != table[j].id
  }

  /** Selecting rows from a table with unique keys keeps the keys unique. */
  lemma {:induction false} MatchingDistinct(table: seq<StrategyRow>, ids: seq<int>)
    requires DistinctIds(table)
    ensures DistinctIds(Matching(table, ids))
    ensures |IdsOf(Matching(table, ids))| == |Matching(table, ids)|
    ensures IdsOf(Matching(table, ids)) <= set x | x in ids
  {
    if table != [] {
      var init := table[..|table| - 1];
      var row := table[|table| - 1];
      assert DistinctIds(init);
      MatchingDistinct(init, ids);
      var rest := Matching(init, ids);
      if row.id in ids && row.isActive {
        var m := rest + [row];
        assert Matching(table, ids) == m;
        forall other | other in rest
          ensures other.id != row.id
        {
          assert other in init;
          var j :| 0 <= j < |init| && init[j] == other;
          assert table[j] == other;
        }
        SnocKeepsDistinct(rest, row);
      }
    }
    DistinctIdsCard(Matching(table, ids));
  }

  lemma SnocKeepsDistinct(rows: seq<StrategyRow>, row: StrategyRow)
    requires DistinctIds(rows)
    requires forall other | other in rows :: other.id != row.id
    ensures DistinctIds(rows + [row])
  {
    var m := rows + [row];
    forall i, j | 0 <= i < j < |m|
      ensures m[i].id != m[j].id
    {
      assert m[i] == rows[i];
      if j < |rows| {
        assert m[j] == rows[j];
      } else {
        assert m[i] in rows;
      }
    }
  }

  /** Rows with unique ids have as many ids as rows. */
  lemma {:induction false} DistinctIdsCard(rows: seq<StrategyRow>)
    requires DistinctIds(rows)
    ensures |IdsOf(rows)| == |rows|
  {
    if rows != [] {
      var init := rows[..|rows| - 1];
      var row := rows[|rows| - 1];
      assert rows == init + [row];
      assert DistinctIds(init);
      DistinctIdsCard(init);
      IdsOfSnoc(init, row);
      forall other | other in init
        ensures other.id != row.id
      {
        var j :| 0 <= j < |init| && init[j] == other;
        assert rows[j] == other;
      }
    }
  }

  /** The number of distinct values of a list is at most its length, and less when some value
      repeats. */
  lemma {:induction false} DistinctValuesBound(ids: seq<int>)
    ensures |set x | x in ids| <= |ids|
    ensures (exists i, j :: 0 <= i < j < |ids| && ids[i] == ids[j]) ==> |set x | x in ids| < |ids|
  {
    if ids != [] {
      var init := ids[..|ids| - 1];
      var last := ids[|ids| - 1];
      DistinctValuesBound(init);
      assert ids == init + [last];
      assert (set x | x in ids) == (set x | x in init) + {last};
      if exists i, j :: 0 <= i < j < |ids| && ids[i] == ids[j] {
        var i, j :| 0 <= i < j < |ids| && ids[i] == ids[j];
        if j == |ids| - 1 {
          assert last in init;
          assert (set x | x in ids) == (set x | x in init);
        } else {
          assert init[i] == init[j];
        }
      }
    }
  }

  /** A request that names a strategy id twice never matches as many rows as ids, so the start
      is refused. */
  lemma RepeatedIdRefused(table: seq<StrategyRow>, ids: seq<int>)
    requires DistinctIds(table)
    requires exists i, j :: 0 <= i < j < |ids| && ids[i] == ids[j]
    ensures |Matching(table, ids)| < |ids|
  {
    MatchingDistinct(table, ids);
    DistinctValuesBound(ids);
    var request := set x | x in ids;
    assert IdsOf(Matching(table, ids)) <= request;
    SubsetCard(IdsOf(Matching(table, ids)), request);
  }

  /** A subset is no larger than its superset. */
  lemma SubsetCard(a: set<int>, b: set<int>)
    requires a <= b
    ensures |a| <= |b|
  {
    assert b == a + (b - a);
    assert a !! (b - a);
  }

  /** Every selected row names a type the engine accepts. */
  predicate AllKnown(rows: seq<StrategyRow>)
  {
    forall i :: 0 <= i < |rows| ==> Known(rows[i])
  }

  /** The engine has a strategy for the row's type. */
  predicate Known(row: StrategyRow)
  {
    row.strategyType in Strategies.AvailableStrategies()
  }

  /** The parts of an engine that adding strategies leaves alone. */
  datatype Run = Run(
    status: Engine.BotStatus,
    runningLoops: nat,
    sessionId: Option<int>,
    session: Option<Engine.SessionRecord>,
    positions: seq<Records.Position>,
    tradeLog: seq<Records.Trade>)

  function RunOf(engine: Engine.TradingEngine): Run
    reads engine
  {
    Run(engine.status, engine.runningLoops, engine.sessionId, engine.session, engine.positions, engine.tradeLog)
  }

  /** The parts of an engine that stopping, pausing and resuming leave alone: its loops, its
      strategies, its positions and its trades. */
  datatype Holdings = Holdings(
    runningLoops: nat,
    activeStrategies: map<int, Engine.Entry>,
    strategyOrder: seq<int>,
    positions: seq<Records.Position>,
    tradeLog: seq<Records.Trade>,
    totalTrades: int,
    sessionId: Option<int>,
    startBalance: real)

  function HoldingsOf(engine: Engine.TradingEngine): Holdings
    reads engine
  {
    Holdings(engine.runningLoops, engine.activeStrategies, engine.strategyOrder, engine.positions,
             engine.tradeLog, engine.totalTrades, engine.sessionId, engine.startBalance)
  }

  /** One `add_strategy` call of that loop, with only what the loop relies on. */
  method AddRow(engine: Engine.TradingEngine, row: StrategyRow) returns (added: bool)
    requires engine.Valid()
    modifies engine
    ensures engine.Valid()
    ensures added <==> Known(row)
    ensures engine.activeStrategies.Keys ==
      if added then old(engine.activeStrategies).Keys + {row.id} else old(engine.activeStrategies).Keys
    ensures RunOf(engine) == old(RunOf(engine))
  {
    added := engine.AddStrategy(row.id, row.strategyType, row.parameters, row.symbol);
  }

  /** The loop of `start_trading_bot` that adds each selected strategy to the new engine; it
      stops at the first type the engine rejects and reports that row's name. */
  method AddAll(engine: Engine.TradingEngine, rows: seq<StrategyRow>) returns (allAdded: bool, failed: string)
    requires engine.Valid()
    modifies engine
    ensures engine.Valid()
    ensures allAdded <==> AllKnown(rows)
    ensures allAdded ==> engine.activeStrategies.Keys == old(engine.activeStrategies).Keys + IdsOf(rows)
    ensures RunOf(engine) == old(RunOf(engine))
  {
    var i := 0;
    ghost var ids: set<int> := {};
    while i < |rows|
      invariant 0 <= i <= |rows|
      invariant engine.Valid()
      invariant ids == IdsOf(rows[..i])
      invariant engine.activeStrategies.Keys == old(engine.activeStrategies).Keys + ids
      invariant forall j :: 0 <= j < i ==> Known(rows[j])
      invariant RunOf(engine) == old(RunOf(engine))
    {
      var row := rows[i];
      var added := AddRow(engine, row);
      if !added {
        assert !Known(rows[i]);
        return false, row.name;
      }
      assert rows[..i + 1] == rows[..i] + [row];
      IdsOfSnoc(rows[..i], row);
      ids := ids + {row.id};
      i := i + 1;
    }
    assert rows[..i] == rows;
    return true, "";
  }

  /** The entry `get_trading_signals` reports for one strategy. */
  datatype SignalReport = SignalReport(strategyId: int, strategyName: string, symbol: string, signal: Strategies.Signal)

  /** The report for the strategy under `k`. */
  function ReportOf(k: int, e: Engine.Entry): SignalReport
    requires e.lastSignal.Some?
  {
    SignalReport(k, Strategies.Name(e.strategy), e.symbol, e.lastSignal.value)
  }

  /** The reports for the strategies in `order` that have a last signal, in that order. */
  function SignalList(order: seq<int>, entries: map<int, Engine.Entry>): (r: seq<SignalReport>)
    ensures |r| <= |order|
  {
    if order == [] then []
    else
      var rest := SignalList(order[..|order| - 1], entries);
      var k := order[|order| - 1];
      if k in entries && entries[k].lastSignal.Some? then
        rest + [ReportOf(k, entries[k])]
      else rest
  }

  /** Some report in the list is for the strategy under `k`. */
  predicate Reports(r: seq<SignalReport>, k: int)
  {
    exists i :: 0 <= i < |r| && r[i].strategyId == k
  }

  /** A strategy is reported exactly when it is registered and has a last signal, and its report
      carries that signal, its name and its symbol. */
  lemma {:induction false} SignalListExact(order: seq<int>, entries: map<int, Engine.Entry>, k: int)
    ensures Reports(SignalList(order, entries), k) <==> k in order && k in entries && entries[k].lastSignal.Some?
    ensures forall i :: 0 <= i < |SignalList(order, entries)| && SignalList(order, entries)[i].strategyId == k ==>
      k in entries && entries[k].lastSignal.Some? && SignalList(order, entries)[i] == ReportOf(k, entries[k])
  {
    if order != [] {
      var init := order[..|order| - 1];
      var last := order[|order| - 1];
      SignalListExact(init, entries, k);
      assert order == init + [last];
      assert k in order <==> k in init || k == last;
      var r := SignalList(order, entries);
      var r0 := SignalList(init, entries);
      if last in entries && entries[last].lastSignal.Some? {
        assert r == r0 + [ReportOf(last, entries[last])];
        if Reports(r0, k) {
          var i :| 0 <= i < |r0| && r0[i].strategyId == k;
          assert r[i] == r0[i];
        }
        if k == last {
          assert r[|r0|].strategyId == k;
        }
        if Reports(r, k) {
          var i :| 0 <= i < |r| && r[i].strategyId == k;
          if i < |r0| {
            assert r0[i].strategyId == k;
            assert Reports(r0, k);
          }
        }
        forall i | 0 <= i < |r| && r[i].strategyId == k
          ensures k in entries && entries[k].lastSignal.Some? && r[i] == ReportOf(k, entries[k])
        {
          if i < |r0| {
            assert r[i] == r0[i];
          }
        }
      } else {
        assert r == r0;
      }
    }
  }

  /** `delete_strategy`, given the strategies of the user's registered engine, if any: the record
      must exist, and the route refuses while that engine holds `str(strategy_id)`. */
  function DeleteStrategyWith(active: Option<map<int, Engine.Entry>>, row: Option<StrategyRow>): (r: Result<StrategyRow>)
    ensures row.None? ==> r == Err("Strategy not found")
    ensures row.Some? ==> r == Ok(row.value) || r == Err("Cannot delete active strategy. Stop the bot first.")
  {
    if row.None? then Err("Strategy not found")
    else if active.Some? && Engine.StrKey(Records.DecimalString(row.value.id)) in Engine.KeysOf(active.value) then
      Err("Cannot delete active strategy. Stop the bot first.")
    else Ok(row.value)
  }

  /** What `get_bot_status` answers. */
  datatype StatusReport = NotRunning | Reported(status: Engine.EngineStatus)

  /** The status string the route returns. */
  function StatusLabel(r: StatusReport): string
  {
    match r
    case NotRunning => "stopped"
    case Reported(s) => s.status
  }

  /** The module-level `active_engines` dict: one engine per user id. */
  class BotRegistry {
    var engines: map<int, Engine.TradingEngine>

    /** Each registered engine is well formed and belongs to the user it is filed under (so no
        engine is filed twice). */
    ghost predicate Valid()
      reads this, engines.Values
    {
      forall u :: u in engines ==> engines[u].Valid() && engines[u].userId == u
    }

    constructor ()
      ensures Valid() && engines == map[]
    {
      engines := map[];
    }

    /** `start_trading_bot`: refuse a user who is already registered, or a request whose ids do
        not all match active rows; build a fresh engine, add every matching strategy, start it,
        and register it only when all of that succeeded. */
    method StartBot(userId: int, strategyIds: seq<int>, table: seq<StrategyRow>,
                    connect: Outcome<bool>, balance: Outcome<real>, createdSession: Option<int>)
      returns (r: Result<nat>)
      requires Valid()
      modifies this
      ensures Valid()
      ensures userId in old(engines) ==> r == Err("Trading bot is already running")
      ensures userId !in old(engines) && |Matching(table, strategyIds)| != |strategyIds| ==>
        r == Err("Some strategies not found or inactive")
      ensures r.Ok? <==>
        userId !in old(engines) && |Matching(table, strategyIds)| == |strategyIds| &&
        AllKnown(Matching(table, strategyIds)) && connect == Returned(true) && balance.Returned?
      ensures r.Err? ==> engines == old(engines)
      ensures r.Ok? ==>
        r.value == |strategyIds| && userId in engines && fresh(engines[userId]) &&
        engines == old(engines)[userId := engines[userId]] &&
        engines[userId].status == Engine.Running && engines[userId].startBalance == balance.value &&
        engines[userId].activeStrategies.Keys == IdsOf(Matching(table, strategyIds))
    {
      if userId in engines {
        return Err("Trading bot is already running");
      }
      var rows := Matching(table, strategyIds);
      if |rows| != |strategyIds| {
        return Err("Some strategies not found or inactive");
      }
      var engine := new Engine.TradingEngine(userId);
      var allAdded, failed := AddAll(engine, rows);
      if !allAdded {
        return Err("Failed to add strategy: " + failed);
      }
      var started := engine.Start(connect, balance, createdSession);
      if !started {
        return Err("Failed to start trading bot");
      }
      engines := engines[userId := engine];
      return Ok(|rows|);
    }

    /** `stop_trading_bot`: refuse an unregistered user; stop the engine, and unregister it only
        when the stop reported success. */
    method StopBot(userId: int, disconnectRaises: bool) returns (r: Result<bool>)
      requires Valid()
      modifies this, if userId in engines then {engines[userId]} else {}
      ensures Valid()
      ensures userId !in old(engines) ==> r == Err("Trading bot is not running") && engines == old(engines)
      ensures r.Ok? <==> userId in old(engines) && !disconnectRaises
      ensures r.Ok? ==> engines == old(engines) - {userId}
      ensures r.Err? ==> engines == old(engines)
      ensures userId in old(engines) ==> old(engines)[userId].status == Engine.Stopped
      ensures userId in old(engines) ==> HoldingsOf(old(engines)[userId]) == old(HoldingsOf(engines[userId]))
    {
      if userId !in engines {
        return Err("Trading bot is not running");
      }
      var engine := engines[userId];
      var stopped := engine.Stop(disconnectRaises);
      if !stopped {
        return Err("Failed to stop trading bot");
      }
      engines := engines - {userId};
      return Ok(true);
    }

    /** `pause_trading_bot`: refuse an unregistered user; otherwise pause the engine, which stays
        registered. */
    method PauseBot(userId: int) returns (r: Result<bool>)
      requires Valid()
      modifies if userId in engines then {engines[userId]} else {}
      ensures Valid()
      ensures engines == old(engines)
      ensures r.Ok? <==> userId in engines
      ensures r.Err? ==> r == Err("Trading bot is not running")
      ensures r.Ok? ==> engines[userId].status == Engine.Paused
      ensures r.Ok? ==> HoldingsOf(engines[userId]) == old(HoldingsOf(engines[userId]))
    {
      if userId !in engines {
        return Err("Trading bot is not running");
      }
      var paused := engines[userId].Pause();
      return Ok(paused);
    }

    /** `resume_trading_bot`: refuse an unregistered user; otherwise set the engine running, which
        stays registered. */
    method ResumeBot(userId: int) returns (r: Result<bool>)
      requires Valid()
      modifies if userId in engines then {engines[userId]} else {}
      ensures Valid()
      ensures engines == old(engines)
      ensures r.Ok? <==> userId in engines
      ensures r.Err? ==> r == Err("Trading bot is not running")
      ensures r.Ok? ==> engines[userId].status == Engine.Running
      ensures r.Ok? ==> HoldingsOf(engines[userId]) == old(HoldingsOf(engines[userId]))
    {
      if userId !in engines {
        return Err("Trading bot is not running");
      }
      var resumed := engines[userId].Resume();
      return Ok(resumed);
    }

    /** `get_bot_status`: "stopped" for an unregistered user, otherwise the engine's status. */
    function Status(userId: int): StatusReport
      reads this, engines.Values
    {
      if userId in engines then Reported(engines[userId].GetStatus()) else NotRunning
    }

    /** An unregistered user reads "stopped"; a registered one reads its engine's status string,
        with one active strategy per registered id. */
    lemma StatusReportsRegistry(userId: int)
      requires Valid()
      ensures userId !in engines ==> StatusLabel(Status(userId)) == "stopped"
      ensures userId in engines ==>
        StatusLabel(Status(userId)) == Engine.StatusValue(engines[userId].status) &&
        Status(userId).status.activeStrategies == |engines[userId].strategyOrder|
    {
      if userId in engines {
        engines[userId].StatusCountsStrategies();
      }
    }

    /** `get_trading_signals`: walk the user's strategies in insertion order and report those with
        a last signal; an unregistered user gets no signals. */
    method Signals(userId: int) returns (running: bool, signals: seq<SignalReport>)
      ensures running <==> userId in engines
      ensures !running ==> signals == []
      ensures running ==> signals == SignalList(engines[userId].strategyOrder, engines[userId].activeStrategies)
    {
      if userId !in engines {
        return false, [];
      }
      var engine := engines[userId];
      var order := engine.strategyOrder;
      var entries := engine.activeStrategies;
      signals := [];
      var i := 0;
      while i < |order|
        invariant 0 <= i <= |order|
        invariant signals == SignalList(order[..i], entries)
      {
        var k := order[i];
        assert order[..i + 1][..i] == order[..i];
        if k in entries && entries[k].lastSignal.Some? {
          signals := signals + [ReportOf(k, entries[k])];
        }
        i := i + 1;
      }
      assert order[..i] == order;
      return true, signals;
    }

    /** `delete_strategy` against this registry. */
    function DeleteStrategy(userId: int, row: Option<StrategyRow>): Result<StrategyRow>
      reads this, engines.Values
    {
      DeleteStrategyWith(if userId in engines then Some(engines[userId].activeStrategies) else None, row)
    }

    /** The refusal never fires: `str(strategy_id)` never equals an int key, so every existing
        record can be deleted, even one a running engine is trading. */
    lemma DeleteNeverRefused(userId: int, row: StrategyRow)
      ensures DeleteStrategy(userId, Some(row)) == Ok(row)
    {
      if userId in engines {
        Engine.StrKeyNeverPresent(engines[userId].activeStrategies, row.id);
      }
    }
  }
}
