/** The persisted records the core reads and writes (core/database.py), and the
    aggregations over them that several components share. */
module Records {
  import opened Wrappers

  /** A row of the Portfolio table, without its id, owner and update time. */
  datatype Position = Position(
    symbol: string,
    quantity: real,
    averagePrice: real,
    currentPrice: real,
    totalValue: real,
    pnl: real,
    pnlPercentage: real)

  /** A row of the Trade table, without its id, owner, times and venue fields.
      `strategyId` is the nullable foreign key into the Strategy table. */
  datatype Trade = Trade(
    strategyId: Option<int>,
    symbol: string,
    side: string,
    quantity: real,
    price: real,
    totalValue: real,
    fee: real,
    status: string)

  /** The cash effect of one trade as every P&L figure of the system counts it:
      a SELL brings its value in, anything else (a BUY) pays it out. */
  function SignedValue(t: Trade): real
  {
    if t.side == "SELL" then t.totalValue else -t.totalValue
  }

  /** Sum of the signed values of `trades`, accumulated left to right. */
  function NetFlow(trades: seq<Trade>): real
  {
    if trades == [] then 0.0 else NetFlow(trades[..|trades| - 1]) + SignedValue(trades[|trades| - 1])
  }

  /** The net flow of a concatenation is the sum of the net flows of its parts. */
  lemma {:induction false} NetFlowAppend(a: seq<Trade>, b: seq<Trade>)
    ensures NetFlow(a + b) == NetFlow(a) + NetFlow(b)
    decreases |b|
  {
    if b == [] {
      assert a + b == a;
    } else {
      var b' := b[..|b| - 1];
      assert (a + b)[..|a + b| - 1] == a + b';
      NetFlowAppend(a, b');
    }
  }

  /** Buying only is spending only: a list of BUY trades has net flow minus its volume. */
  lemma {:induction false} NetFlowOfBuys(trades: seq<Trade>)
    requires forall i :: 0 <= i < |trades| ==> trades[i].side == "BUY"
    ensures NetFlow(trades) == -Volume(trades)
  {
    if trades != [] {
      NetFlowOfBuys(trades[..|trades| - 1]);
      VolumeSnoc(trades[..|trades| - 1], trades[|trades| - 1]);
      assert trades[..|trades| - 1] + [trades[|trades| - 1]] == trades;
    }
  }

  /** Sum of the `total_value` fields of trades. */
  function Volume(trades: seq<Trade>): real
  {
    if trades == [] then 0.0 else trades[0].totalValue + Volume(trades[1..])
  }

  /** Sum of the `fee` fields of trades. */
  function Fees(trades: seq<Trade>): real
  {
    if trades == [] then 0.0 else trades[0].fee + Fees(trades[1..])
  }

  lemma {:induction false} VolumeSnoc(trades: seq<Trade>, t: Trade)
    ensures Volume(trades + [t]) == Volume(trades) + t.totalValue
  {
    if trades == [] {
      assert [] + [t] == [t];
    } else {
      assert (trades + [t])[1..] == trades[1..] + [t];
      VolumeSnoc(trades[1..], t);
    }
  }

  /** Sum of the `total_value` fields of portfolio rows. */
  function TotalValue(rows: seq<Position>): real
  {
    if rows == [] then 0.0 else rows[0].totalValue + TotalValue(rows[1..])
  }

  /** Sum of the `pnl` fields of portfolio rows. */
  function TotalPnl(rows: seq<Position>): real
  {
    if rows == [] then 0.0 else rows[0].pnl + TotalPnl(rows[1..])
  }

  /** A portfolio whose rows all have non-negative value has non-negative total value. */
  lemma {:induction false} TotalValueNonNegative(rows: seq<Position>)
    requires forall i :: 0 <= i < |rows| ==> rows[i].totalValue >= 0.0
    ensures TotalValue(rows) >= 0.0
  {
    if rows != [] {
      TotalValueNonNegative(rows[1..]);
    }
  }

  /** The index of the first row holding `symbol`, as `next(...)` or a query's `.first()` finds it. */
  function FindSymbol(rows: seq<Position>, symbol: string): (r: Option<nat>)
    ensures r.Some? ==> r.value < |rows| && rows[r.value].symbol == symbol
    ensures r.Some? ==> forall i :: 0 <= i < r.value ==> rows[i].symbol != symbol
    ensures r.None? <==> forall i :: 0 <= i < |rows| ==> rows[i].symbol != symbol
  {
    if rows == [] then None
    else if rows[0].symbol == symbol then Some(0)
    else match FindSymbol(rows[1..], symbol)
      case None => None
      case Some(k) => Some(k + 1)
  }

  /** The row holding `symbol`, if any. */
  function Lookup(rows: seq<Position>, symbol: string): Option<Position>
  {
    match FindSymbol(rows, symbol)
    case Some(k) => Some(rows[k])
    case None => None
  }

  /** No two rows hold the same symbol, as in one user's Portfolio table. */
  predicate DistinctSymbols(rows: seq<Position>)
  {
    forall i, j :: 0 <= i < j < |rows| ==> rows[i].symbol != rows[j].symbol
  }

  /** In a table of distinct symbols, the row at index `k` is the one a lookup finds. */
  lemma LookupAt(rows: seq<Position>, k: nat)
    requires DistinctSymbols(rows) && k < |rows|
    ensures FindSymbol(rows, rows[k].symbol) == Some(k)
    ensures Lookup(rows, rows[k].symbol) == Some(rows[k])
  {
  }

  /** A non-empty run of decimal digits. */
  predicate IsDigits(s: string)
  {
    s != [] && forall i :: 0 <= i < |s| ==> '0' <= s[i] <= '9'
  }

  /** Python's `str(n)` for an integer: optional minus sign, then decimal digits. */
  function DecimalString(n: int): (s: string)
    ensures |s| >= 1
    ensures n >= 0 ==> IsDigits(s)
    ensures n < 0 ==> s[0] == '-' && IsDigits(s[1..])
  {
    if n < 0 then "-" + Digits(-n) else Digits(n)
  }

  /** The decimal digits of `n`, most significant first, with no leading zero. */
  function Digits(n: nat): (s: string)
    ensures IsDigits(s)
    ensures s[0] == '0' ==> n == 0
  {
    var d := [(('0' as int) + n % 10) as char];
    if n < 10 then d else Digits(n / 10) + d
  }

  /** The number a run of decimal digits spells. */
  function DigitsValue(s: string): nat
    requires forall i :: 0 <= i < |s| ==> '0' <= s[i] <= '9'
  {
    if s == [] then 0
    else DigitsValue(s[..|s| - 1]) * 10 + (s[|s| - 1] as int - '0' as int)
  }

  /** The number a decimal string spells: `int(s)` on what `str` produces. */
  function DecimalValue(s: string): int
    requires s != [] && (if s[0] == '-' then IsDigits(s[1..]) else IsDigits(s))
  {
    if s[0] == '-' then -(DigitsValue(s[1..]) as int) else DigitsValue(s)
  }

  /** Reading the digits back gives the number. */
  lemma {:induction false} DigitsRoundTrip(n: nat)
    ensures DigitsValue(Digits(n)) == n
  {
    var s := Digits(n);
    var d := (('0' as int) + n % 10) as char;
    if n >= 10 {
      DigitsRoundTrip(n / 10);
      assert s[..|s| - 1] == Digits(n / 10);
      assert s[|s| - 1] == d;
    } else {
      assert s == [d];
      assert s[..0] == [];
    }
  }

  /** `int(str(n)) == n`, so distinct integers have distinct strings. */
  lemma {:induction false} DecimalRoundTrip(n: int)
    ensures DecimalValue(DecimalString(n)) == n
  {
    if n < 0 {
      var s := DecimalString(n);
      assert s[1..] == Digits(-n);
      DigitsRoundTrip(-n);
    } else {
      DigitsRoundTrip(n);
    }
  }

  /** Different integers never print the same. */
  lemma DecimalStringInjective(a: int, b: int)
    requires DecimalString(a) == DecimalString(b)
    ensures a == b
  {
    DecimalRoundTrip(a);
    DecimalRoundTrip(b);
  }
}
