/** The cash and equity replays of examples/verify_chan_500_full_history_result.py and
    examples/verify_chan_e2e.py.  Positions are kept in the order in which symbols first trade. */
module LedgerReplay {
  datatype Fill = Fill(symbol: string, buy: bool, quantity: int, price: real,
                       commission: real, tax: real, transfer: real, slippage: real)
  {
    function Signed(): real { if buy then quantity as real else -(quantity as real) }

    function Notional(): real { quantity as real * price }
  }

  /** One row of the equity curve: the fills booked at that time, then the closes of that time. */
  datatype Point = Point(fills: seq<Fill>, closes: seq<(string, real)>)

  type Positions = seq<(string, int)>
  type Marks = map<string, real>

  /** What the first replay charges: a buy pays no tax. */
  function Charged(f: Fill): real {
    f.commission + f.transfer + if f.buy then 0.0 else f.tax
  }

  /** What the second replay charges. */
  function ChargedWithTax(f: Fill): real {
    f.commission + f.tax + f.transfer
  }

  function Bump(positions: Positions, symbol: string, change: int): Positions {
    if positions == [] then [(symbol, change)]
    else if positions[0].0 == symbol then [(symbol, positions[0].1 + change)] + positions[1..]
    else [positions[0]] + Bump(positions[1..], symbol, change)
  }

  /** A symbol without a close yet is valued at zero. */
  function Mark(marks: Marks, symbol: string): real {
    if symbol in marks then marks[symbol] else 0.0
  }

  function Value(positions: Positions, marks: Marks): real {
    if positions == [] then 0.0
    else positions[0].1 as real * Mark(marks, positions[0].0) + Value(positions[1..], marks)
  }

  lemma {:induction false} BumpValue(positions: Positions, symbol: string, change: int, marks: Marks)
    ensures Value(Bump(positions, symbol, change), marks)
            == Value(positions, marks) + change as real * Mark(marks, symbol)
  {
    if positions == [] {
      assert Bump(positions, symbol, change)[1..] == [];
    } else if positions[0].0 == symbol {
      assert Bump(positions, symbol, change)[1..] == positions[1..];
      var q, c, m := positions[0].1 as real, change as real, Mark(marks, symbol);
      assert (positions[0].1 + change) as real == q + c;
      assert (q + c) * m == q * m + c * m;
    } else {
      BumpValue(positions[1..], symbol, change, marks);
      assert Bump(positions, symbol, change)[1..] == Bump(positions[1..], symbol, change);
    }
  }

  // ---------------------------------------------------------------- the claim, per fill

  /** Profit of every fill at the given marks. */
  function Gains(fills: seq<Fill>, marks: Marks): real {
    if fills == [] then 0.0
    else
      var f := fills[|fills| - 1];
      Gains(fills[..|fills| - 1], marks) + Profit(f, Mark(marks, f.symbol))
  }

  function Fees(fills: seq<Fill>): real {
    if fills == [] then 0.0 else Fees(fills[..|fills| - 1]) + Charged(fills[|fills| - 1])
  }

  function BuyTax(fills: seq<Fill>): real {
    if fills == [] then 0.0
    else BuyTax(fills[..|fills| - 1]) + if fills[|fills| - 1].buy then fills[|fills| - 1].tax else 0.0
  }

  /** The fee totals that the first replay adds up; buys' tax and slippage are totalled but never charged. */
  datatype Totals = Totals(commission: real, tax: real, transfer: real, slippage: real)
  {
    function Plus(f: Fill): Totals {
      Totals(commission + f.commission, tax + f.tax, transfer + f.transfer, slippage + f.slippage)
    }
  }

  function TotalsOf(fills: seq<Fill>): Totals {
    if fills == [] then Totals(0.0, 0.0, 0.0, 0.0) else TotalsOf(fills[..|fills| - 1]).Plus(fills[|fills| - 1])
  }

  /** What equity loses to fees, in terms of the totals the report is checked against. */
  lemma {:induction false} ChargedFromTotals(fills: seq<Fill>)
    ensures var t := TotalsOf(fills); Fees(fills) == t.commission + t.tax + t.transfer - BuyTax(fills)
  {
    if fills != [] {
      ChargedFromTotals(fills[..|fills| - 1]);
    }
  }

  function Booked(points: seq<Point>): seq<Fill> {
    if points == [] then [] else Booked(points[..|points| - 1]) + points[|points| - 1].fills
  }

  function Updated(marks: Marks, closes: seq<(string, real)>): Marks {
    if closes == [] then marks
    else Updated(marks, closes[..|closes| - 1])[closes[|closes| - 1].0 := closes[|closes| - 1].1]
  }

  function MarksAt(points: seq<Point>): Marks {
    if points == [] then map[] else Updated(MarksAt(points[..|points| - 1]), points[|points| - 1].closes)
  }

  /** Cash plus position value, for any marks, is initial cash plus the fills' gains minus the fees. */
  ghost predicate Balanced(cash: real, positions: Positions, initial: real, fills: seq<Fill>) {
    forall marks: Marks :: BalancedAt(cash, positions, initial, fills, marks)
  }

  predicate BalancedAt(cash: real, positions: Positions, initial: real, fills: seq<Fill>, marks: Marks) {
    cash + Value(positions, marks) == initial + Gains(fills, marks) - Fees(fills)
  }

  /** What the ledger identity says the equity is after these points. */
  function LedgerEquity(initial: real, seen: seq<Point>): real {
    initial + Gains(Booked(seen), MarksAt(seen)) - Fees(Booked(seen))
  }

  lemma BalanceIsEquity(cash: real, positions: Positions, initial: real, seen: seq<Point>)
    requires Balanced(cash, positions, initial, Booked(seen))
    ensures cash + Value(positions, MarksAt(seen)) == LedgerEquity(initial, seen)
  {
    assert BalancedAt(cash, positions, initial, Booked(seen), MarksAt(seen));
  }

  // ---------------------------------------------------------------- marks are last closes

  function Closes(points: seq<Point>): seq<(string, real)> {
    if points == [] then [] else Closes(points[..|points| - 1]) + points[|points| - 1].closes
  }

  /** The last close printed for the symbol. */
  ghost predicate IsLastClose(closes: seq<(string, real)>, symbol: string, close: real) {
    exists i :: 0 <= i < |closes| && closes[i] == (symbol, close)
                && forall k :: i < k < |closes| ==> closes[k].0 != symbol
  }

  ghost predicate HasClose(closes: seq<(string, real)>, symbol: string) {
    exists i :: 0 <= i < |closes| && closes[i].0 == symbol
  }

  /** The marks give each symbol its last close, and zero to a symbol that has none. */
  ghost predicate MarksLastCloses(marks: Marks, closes: seq<(string, real)>, symbol: string) {
    if HasClose(closes, symbol) then IsLastClose(closes, symbol, Mark(marks, symbol)) else Mark(marks, symbol) == 0.0
  }

  lemma OneMoreClose(marks: Marks, closes: seq<(string, real)>, next: (string, real), symbol: string)
    requires MarksLastCloses(marks, closes, symbol)
    ensures MarksLastCloses(marks[next.0 := next.1], closes + [next], symbol)
  {
    var more := closes + [next];
    assert more[|closes|] == next && forall i :: 0 <= i < |closes| ==> more[i] == closes[i];
    if symbol == next.0 {
      assert IsLastClose(more, symbol, next.1);
    } else if HasClose(closes, symbol) {
      var i :| 0 <= i < |closes| && closes[i] == (symbol, Mark(marks, symbol))
               && forall k :: i < k < |closes| ==> closes[k].0 != symbol;
      assert more[i] == (symbol, Mark(marks, symbol));
      assert HasClose(more, symbol) && IsLastClose(more, symbol, Mark(marks, symbol));
    }
  }

  lemma {:induction false} UpdatedMarksLastCloses(marks: Marks, before: seq<(string, real)>, closes: seq<(string, real)>,
                                                  symbol: string)
    requires MarksLastCloses(marks, before, symbol)
    ensures MarksLastCloses(Updated(marks, closes), before + closes, symbol)
  {
    if closes == [] {
      assert before + closes == before;
    } else {
      var n := |closes| - 1;
      UpdatedMarksLastCloses(marks, before, closes[..n], symbol);
      OneMoreClose(Updated(marks, closes[..n]), before + closes[..n], closes[n], symbol);
      assert before + closes[..n] + [closes[n]] == before + closes;
    }
  }

  lemma {:induction false} MarksAreLastCloses(points: seq<Point>, symbol: string)
    ensures MarksLastCloses(MarksAt(points), Closes(points), symbol)
  {
    if points != [] {
      var n := |points| - 1;
      MarksAreLastCloses(points[..n], symbol);
      UpdatedMarksLastCloses(MarksAt(points[..n]), Closes(points[..n]), points[n].closes, symbol);
    }
  }

  lemma OneLastClose(closes: seq<(string, real)>, symbol: string, x: real, y: real)
    requires IsLastClose(closes, symbol, x) && IsLastClose(closes, symbol, y)
    ensures x == y
  {
    var i :| 0 <= i < |closes| && closes[i] == (symbol, x) && forall k :: i < k < |closes| ==> closes[k].0 != symbol;
    var j :| 0 <= j < |closes| && closes[j] == (symbol, y) && forall k :: j < k < |closes| ==> closes[k].0 != symbol;
    assert i == j;
  }

  /** The sum over all fills of signed quantity times (close - price). */
  function GainsAt(fills: seq<Fill>, close: string -> real): real {
    if fills == [] then 0.0
    else
      var f := fills[|fills| - 1];
      GainsAt(fills[..|fills| - 1], close) + f.Signed() * (close(f.symbol) - f.price)
  }

  lemma {:induction false} GainsAgree(fills: seq<Fill>, marks: Marks, close: string -> real)
    requires forall i :: 0 <= i < |fills| ==> Mark(marks, fills[i].symbol) == close(fills[i].symbol)
    ensures Gains(fills, marks) == GainsAt(fills, close)
  {
    if fills != [] {
      GainsAgree(fills[..|fills| - 1], marks, close);
    }
  }

  /** The equity at a close, in terms of what was printed: every filled symbol at its last close, or at zero before it
      has one. */
  lemma EquityAtLastCloses(initial: real, seen: seq<Point>, close: string -> real)
    requires forall i :: 0 <= i < |Booked(seen)| ==>
               var symbol := Booked(seen)[i].symbol;
               if HasClose(Closes(seen), symbol) then IsLastClose(Closes(seen), symbol, close(symbol))
               else close(symbol) == 0.0
    ensures LedgerEquity(initial, seen) == initial + GainsAt(Booked(seen), close) - Fees(Booked(seen))
  {
    var fills := Booked(seen);
    forall i | 0 <= i < |fills|
      ensures Mark(MarksAt(seen), fills[i].symbol) == close(fills[i].symbol)
    {
      var symbol := fills[i].symbol;
      MarksAreLastCloses(seen, symbol);
      if HasClose(Closes(seen), symbol) {
        OneLastClose(Closes(seen), symbol, Mark(MarksAt(seen), symbol), close(symbol));
      }
    }
    GainsAgree(fills, MarksAt(seen), close);
  }

  // ---------------------------------------------------------------- the replay

  /** Cash after one fill. */
  function Settle(cash: real, f: Fill): real {
    if f.buy then cash - (f.Notional() + f.commission + f.transfer)
    else cash + (f.Notional() - f.commission - f.tax - f.transfer)
  }

  function Change(f: Fill): int {
    if f.buy then f.quantity else -f.quantity
  }

  lemma BookFill(cash: real, positions: Positions, initial: real, fills: seq<Fill>, f: Fill)
    requires Balanced(cash, positions, initial, fills)
    ensures Balanced(Settle(cash, f), Bump(positions, f.symbol, Change(f)), initial, fills + [f])
  {
    forall marks: Marks
      ensures BalancedAt(Settle(cash, f), Bump(positions, f.symbol, Change(f)), initial, fills + [f], marks)
    {
      assert BalancedAt(cash, positions, initial, fills, marks);
      BookFillAt(cash, positions, initial, fills, f, marks);
    }
  }

  lemma BookFillAt(cash: real, positions: Positions, initial: real, fills: seq<Fill>, f: Fill, marks: Marks)
    requires BalancedAt(cash, positions, initial, fills, marks)
    ensures BalancedAt(Settle(cash, f), Bump(positions, f.symbol, Change(f)), initial, fills + [f], marks)
  {
    BumpValue(positions, f.symbol, Change(f), marks);
    OneMoreFill(fills, f, marks);
    FillFlow(cash, f, Mark(marks, f.symbol));
  }

  lemma OneMoreFill(fills: seq<Fill>, f: Fill, marks: Marks)
    ensures Gains(fills + [f], marks) == Gains(fills, marks) + Profit(f, Mark(marks, f.symbol))
    ensures Fees(fills + [f]) == Fees(fills) + Charged(f)
  {
    assert (fills + [f])[..|fills|] == fills;
  }

  function Profit(f: Fill, mark: real): real {
    f.Signed() * (mark - f.price)
  }

  /** Booking a fill and marking it gives its profit less its fees. */
  lemma FillFlow(cash: real, f: Fill, mark: real)
    ensures Settle(cash, f) + Change(f) as real * mark == cash + Profit(f, mark) - Charged(f)
  {
    assert Change(f) as real == f.Signed();
    Spread(f.Signed(), mark, f.price);
    SignedNotional(f);
  }

  lemma Spread(q: real, m: real, p: real)
    ensures q * (m - p) == q * m - q * p
  {
  }

  lemma SignedNotional(f: Fill)
    ensures f.Signed() * f.price == if f.buy then f.Notional() else -f.Notional()
  {
  }

  /** The first replay.  At every close its equity is initial cash, plus each fill's signed quantity times
      (mark - price), minus the charged fees; its cash and fee totals follow the fills as well. */
  method Replay(initial: real, points: seq<Point>)
    returns (equities: seq<real>, cash: real, positions: Positions, fees: Totals)
    ensures |equities| == |points|
    ensures forall i :: 0 <= i < |points| ==> equities[i] == LedgerEquity(initial, points[..i + 1])
    ensures Balanced(cash, positions, initial, Booked(points))
    ensures fees == TotalsOf(Booked(points))
  {
    var marks: Marks := map[];
    equities, cash, positions, fees := [], initial, [], Totals(0.0, 0.0, 0.0, 0.0);
    for n := 0 to |points|
      invariant |equities| == n && marks == MarksAt(points[..n])
      invariant forall i :: 0 <= i < n ==> equities[i] == LedgerEquity(initial, points[..i + 1])
      invariant Balanced(cash, positions, initial, Booked(points[..n])) && fees == TotalsOf(Booked(points[..n]))
    {
      var point := points[n];
      ghost var earlier := Booked(points[..n]);
      OneMorePoint(points, n);
      cash, positions, fees := BookFills(initial, point.fills, cash, positions, fees, earlier);
      marks := MarkCloses(marks, point.closes);
      BalanceIsEquity(cash, positions, initial, points[..n + 1]);
      equities := equities + [cash + Value(positions, marks)];
    }
    assert points[..|points|] == points;
  }

  lemma OneMorePoint(points: seq<Point>, n: nat)
    requires n < |points|
    ensures Booked(points[..n + 1]) == Booked(points[..n]) + points[n].fills
    ensures MarksAt(points[..n + 1]) == Updated(MarksAt(points[..n]), points[n].closes)
  {
    assert points[..n + 1][..n] == points[..n];
  }

  method BookFills(ghost initial: real, fills: seq<Fill>, cash0: real, positions0: Positions, fees0: Totals,
                   ghost earlier: seq<Fill>)
    returns (cash: real, positions: Positions, fees: Totals)
    requires Balanced(cash0, positions0, initial, earlier) && fees0 == TotalsOf(earlier)
    ensures Balanced(cash, positions, initial, earlier + fills) && fees == TotalsOf(earlier + fills)
  {
    cash, positions, fees := cash0, positions0, fees0;
    assert earlier + fills[..0] == earlier;
    for n := 0 to |fills|
      invariant Balanced(cash, positions, initial, earlier + fills[..n]) && fees == TotalsOf(earlier + fills[..n])
    {
      var f := fills[n];
      BookFill(cash, positions, initial, earlier + fills[..n], f);
      OneMoreTotal(earlier, fills, n);
      fees := fees.Plus(f);
      if f.buy {
        cash := cash - (f.Notional() + f.commission + f.transfer);
        positions := Bump(positions, f.symbol, f.quantity);
      } else {
        positions := Bump(positions, f.symbol, -f.quantity);
        cash := cash + (f.Notional() - f.commission - f.tax - f.transfer);
      }
    }
    assert fills[..|fills|] == fills;
  }

  lemma OneMoreTotal(earlier: seq<Fill>, fills: seq<Fill>, n: nat)
    requires n < |fills|
    ensures earlier + fills[..n] + [fills[n]] == earlier + fills[..n + 1]
    ensures TotalsOf(earlier + fills[..n + 1]) == TotalsOf(earlier + fills[..n]).Plus(fills[n])
  {
    assert earlier + fills[..n] + [fills[n]] == earlier + fills[..n + 1];
    assert (earlier + fills[..n + 1])[..|earlier| + n] == earlier + fills[..n];
  }

  method MarkCloses(marks0: Marks, closes: seq<(string, real)>) returns (marks: Marks)
    ensures marks == Updated(marks0, closes)
  {
    marks := marks0;
    for n := 0 to |closes|
      invariant marks == Updated(marks0, closes[..n])
    {
      assert closes[..n + 1][..n] == closes[..n];
      marks := marks[closes[n].0 := closes[n].1];
    }
    assert closes[..|closes|] == closes;
  }

  // ---------------------------------------------------------------- the second replay

  function CashAfter(initial: real, fills: seq<Fill>): real {
    if fills == [] then initial
    else Settle(CashAfter(initial, fills[..|fills| - 1]), fills[|fills| - 1])
  }

  function CashAfterTaxingBuys(initial: real, fills: seq<Fill>): real {
    if fills == [] then initial
    else
      var f := fills[|fills| - 1];
      CashAfterTaxingBuys(initial, fills[..|fills| - 1]) - (f.Signed() * f.price + ChargedWithTax(f))
  }

  lemma SettledWithoutBuyTax(cash: real, f: Fill)
    ensures Settle(cash, f) == cash - (f.Signed() * f.price + ChargedWithTax(f)) + if f.buy then f.tax else 0.0
  {
    SignedNotional(f);
  }

  /** The two replays' cash differs by exactly the tax on buys, so they agree exactly when buys are untaxed in total. */
  lemma {:induction false} ReplaysDifferByBuyTax(initial: real, fills: seq<Fill>)
    ensures CashAfter(initial, fills) - CashAfterTaxingBuys(initial, fills) == BuyTax(fills)
    ensures CashAfter(initial, fills) == CashAfterTaxingBuys(initial, fills) <==> BuyTax(fills) == 0.0
  {
    if fills != [] {
      ReplaysDifferByBuyTax(initial, fills[..|fills| - 1]);
      var f := fills[|fills| - 1];
      SettledWithoutBuyTax(CashAfter(initial, fills[..|fills| - 1]), f);
    }
  }

  const TAX_TOL: real := 0.0000001

  /** What the second script demands of every buy before it replays anything. */
  predicate BuysUntaxed(fills: seq<Fill>) {
    forall i :: 0 <= i < |fills| && fills[i].buy ==> -TAX_TOL < fills[i].tax < TAX_TOL
  }

  /** On the fills that the second script lets through, the two replays' cash agrees up to its tolerance per fill. */
  lemma {:induction false} ReplaysAgreeOnAcceptedFills(initial: real, fills: seq<Fill>)
    requires BuysUntaxed(fills)
    ensures var apart := CashAfter(initial, fills) - CashAfterTaxingBuys(initial, fills);
            -(|fills| as real * TAX_TOL) <= apart <= |fills| as real * TAX_TOL
  {
    ReplaysDifferByBuyTax(initial, fills);
    UntaxedBuys(fills);
  }

  lemma {:induction false} UntaxedBuys(fills: seq<Fill>)
    requires BuysUntaxed(fills)
    ensures -(|fills| as real * TAX_TOL) <= BuyTax(fills) <= |fills| as real * TAX_TOL
  {
    if fills != [] {
      UntaxedBuys(fills[..|fills| - 1]);
      assert |fills| as real == (|fills| - 1) as real + 1.0;
    }
  }

  /** Profit depends on a fill's own symbol only: re-marking a symbol that was never filled changes nothing. */
  lemma {:induction false} UntradedMarksAreIrrelevant(fills: seq<Fill>, marks: Marks, symbol: string, price: real)
    requires forall i :: 0 <= i < |fills| ==> fills[i].symbol != symbol
    ensures Gains(fills, marks[symbol := price]) == Gains(fills, marks)
  {
    if fills != [] {
      UntradedMarksAreIrrelevant(fills[..|fills| - 1], marks, symbol, price);
    }
  }
}
