/** Two T+1 lot matchers for one security: the popping queue of
    examples/verify_chan_500_full_history_result.py and the list scan of examples/verify_chan_e2e.py. */
module LotMatching {
  import opened Wrappers

  datatype Lot = Lot(day: int, quantity: int)

  datatype Fill = Fill(day: int, buy: bool, quantity: int)

  function Min(a: int, b: int): int {
    if a < b then a else b
  }

  // ---------------------------------------------------------------- the queue

  /** Take from the front; a lot of the same day or later ends the attempt; empty lots are dropped. */
  function QueueSell(lots: seq<Lot>, day: int, quantity: int): Option<seq<Lot>>
    decreases |lots|
  {
    if quantity == 0 then Some(lots)
    else if lots == [] || lots[0].day >= day then None
    else if lots[0].quantity <= quantity then QueueSell(lots[1..], day, quantity - lots[0].quantity)
    else Some([Lot(lots[0].day, lots[0].quantity - quantity)] + lots[1..])
  }

  method SellFromQueue(lots: seq<Lot>, day: int, quantity: int) returns (r: Option<seq<Lot>>)
    requires quantity >= 0 && forall i :: 0 <= i < |lots| ==> lots[i].quantity > 0
    ensures r == QueueSell(lots, day, quantity)
  {
    var queue, left := lots, quantity;
    while left != 0
      invariant left >= 0
      invariant forall i :: 0 <= i < |queue| ==> queue[i].quantity > 0
      invariant QueueSell(queue, day, left) == QueueSell(lots, day, quantity)
      decreases |queue|, left
    {
      if queue == [] || queue[0].day >= day {
        return None;
      }
      var amount := Min(left, queue[0].quantity);
      left := left - amount;
      if queue[0].quantity == amount {
        queue := queue[1..];
      } else {
        assert left == 0;
        ghost var shrunk := [Lot(queue[0].day, queue[0].quantity - amount)] + queue[1..];
        queue := queue[0 := Lot(queue[0].day, queue[0].quantity - amount)];
        assert queue == shrunk;
      }
    }
    return Some(queue);
  }

  // ---------------------------------------------------------------- the scan

  /** What the scan could not take. */
  function ScanLeft(lots: seq<Lot>, day: int, quantity: int): int {
    if lots == [] then quantity
    else if lots[0].day >= day then ScanLeft(lots[1..], day, quantity)
    else ScanLeft(lots[1..], day, quantity - Min(lots[0].quantity, quantity))
  }

  /** The lots after the scan; used-up lots stay as empty ones. */
  function ScanLots(lots: seq<Lot>, day: int, quantity: int): seq<Lot> {
    if lots == [] then []
    else if lots[0].day >= day then [lots[0]] + ScanLots(lots[1..], day, quantity)
    else
      var use := Min(lots[0].quantity, quantity);
      [Lot(lots[0].day, lots[0].quantity - use)] + ScanLots(lots[1..], day, quantity - use)
  }

  function ScanSell(lots: seq<Lot>, day: int, quantity: int): Option<seq<Lot>> {
    if ScanLeft(lots, day, quantity) == 0 then Some(ScanLots(lots, day, quantity)) else None
  }

  lemma ScanFrom(lots: seq<Lot>, n: nat, day: int, quantity: int)
    requires n < |lots|
    ensures var use := if lots[n].day < day then Min(lots[n].quantity, quantity) else 0;
            && ScanLeft(lots[n..], day, quantity) == ScanLeft(lots[n + 1..], day, quantity - use)
            && ScanLots(lots[n..], day, quantity)
               == [Lot(lots[n].day, lots[n].quantity - use)] + ScanLots(lots[n + 1..], day, quantity - use)
  {
    assert lots[n..][1..] == lots[n + 1..];
  }

  method SellByScan(lots: seq<Lot>, day: int, quantity: int) returns (r: Option<seq<Lot>>)
    ensures r == ScanSell(lots, day, quantity)
  {
    var current, remaining := lots, quantity;
    for n := 0 to |lots|
      invariant |current| == |lots| && forall i :: n <= i < |lots| ==> current[i] == lots[i]
      invariant ScanLeft(lots, day, quantity) == ScanLeft(lots[n..], day, remaining)
      invariant ScanLots(lots, day, quantity) == current[..n] + ScanLots(lots[n..], day, remaining)
    {
      var lot := current[n];
      ghost var before := current[..n];
      ScanFrom(lots, n, day, remaining);
      if lot.day < day {
        var use := Min(lot.quantity, remaining);
        remaining := remaining - use;
        current := current[n := Lot(lot.day, lot.quantity - use)];
      }
      assert current[..n + 1] == before + [current[n]];
      Regroup(before, [current[n]], ScanLots(lots[n + 1..], day, remaining));
    }
    assert current[..|lots|] == current == current + [] && lots[|lots|..] == [];
    return if remaining == 0 then Some(current) else None;
  }

  // ---------------------------------------------------------------- agreement

  function Open(lots: seq<Lot>): seq<Lot> {
    if lots == [] then [] else (if lots[0].quantity == 0 then [] else [lots[0]]) + Open(lots[1..])
  }

  function Total(lots: seq<Lot>): int {
    if lots == [] then 0 else lots[0].quantity + Total(lots[1..])
  }

  /** Holdings that may be sold on `day`. */
  function Sellable(lots: seq<Lot>, day: int): int {
    if lots == [] then 0 else (if lots[0].day < day then lots[0].quantity else 0) + Sellable(lots[1..], day)
  }

  function Fresh(lots: seq<Lot>, day: int): seq<Lot> {
    if lots == [] then [] else (if lots[0].day < day then [] else [lots[0]]) + Fresh(lots[1..], day)
  }

  ghost predicate NonNegative(lots: seq<Lot>) {
    forall i :: 0 <= i < |lots| ==> lots[i].quantity >= 0
  }

  ghost predicate ByDay(lots: seq<Lot>) {
    forall i, j :: 0 <= i < j < |lots| ==> lots[i].day <= lots[j].day
  }

  lemma {:induction false} NothingFromFresh(lots: seq<Lot>, day: int, quantity: int)
    requires forall i :: 0 <= i < |lots| ==> lots[i].day >= day
    ensures ScanLeft(lots, day, quantity) == quantity && ScanLots(lots, day, quantity) == lots
  {
    if lots != [] {
      NothingFromFresh(lots[1..], day, quantity);
    }
  }

  lemma {:induction false} NothingTaken(lots: seq<Lot>, day: int)
    requires NonNegative(lots)
    ensures ScanLeft(lots, day, 0) == 0 && ScanLots(lots, day, 0) == lots
  {
    if lots != [] {
      NothingTaken(lots[1..], day);
    }
  }

  lemma {:induction false} OpenMembers(lots: seq<Lot>)
    ensures forall i :: 0 <= i < |Open(lots)| ==> Open(lots)[i] in lots && Open(lots)[i].quantity != 0
  {
    if lots != [] {
      OpenMembers(lots[1..]);
    }
  }

  /** With lots in day order, both matchers accept the same sells and leave the same open lots. */
  lemma {:induction false} MatchersAgree(lots: seq<Lot>, day: int, quantity: int)
    requires NonNegative(lots) && ByDay(lots) && quantity >= 0
    ensures QueueSell(Open(lots), day, quantity).Some? <==> ScanSell(lots, day, quantity).Some?
    ensures ScanSell(lots, day, quantity).Some? ==>
              QueueSell(Open(lots), day, quantity).value == Open(ScanSell(lots, day, quantity).value)
  {
    if quantity == 0 {
      NothingTaken(lots, day);
    } else if lots != [] {
      var rest := lots[1..];
      if lots[0].day >= day {
        NothingFromFresh(lots, day, quantity);
        OpenMembers(lots);
      } else if lots[0].quantity <= quantity {
        MatchersAgree(rest, day, quantity - lots[0].quantity);
        HeadUsedUp(lots, day, quantity);
      } else {
        HeadCovers(lots, day, quantity);
      }
    }
  }

  /** The first lot goes wholly into the sell. */
  lemma HeadUsedUp(lots: seq<Lot>, day: int, quantity: int)
    requires lots != [] && lots[0].day < day && 0 <= lots[0].quantity <= quantity
    ensures quantity > 0 ==> QueueSell(Open(lots), day, quantity) == QueueSell(Open(lots[1..]), day, quantity - lots[0].quantity)
    ensures ScanLeft(lots, day, quantity) == ScanLeft(lots[1..], day, quantity - lots[0].quantity)
    ensures Open(ScanLots(lots, day, quantity)) == Open(ScanLots(lots[1..], day, quantity - lots[0].quantity))
  {
    QueueHeadUsedUp(lots, day, quantity);
    ScanHeadUsedUp(lots, day, quantity);
  }

  lemma ScanHeadUsedUp(lots: seq<Lot>, day: int, quantity: int)
    requires lots != [] && lots[0].day < day && 0 <= lots[0].quantity <= quantity
    ensures ScanLeft(lots, day, quantity) == ScanLeft(lots[1..], day, quantity - lots[0].quantity)
    ensures Open(ScanLots(lots, day, quantity)) == Open(ScanLots(lots[1..], day, quantity - lots[0].quantity))
  {
    OpenOfEmptyHead(Lot(lots[0].day, 0), ScanLots(lots[1..], day, quantity - lots[0].quantity));
  }

  lemma QueueHeadUsedUp(lots: seq<Lot>, day: int, quantity: int)
    requires lots != [] && lots[0].day < day && 0 <= lots[0].quantity <= quantity
    ensures quantity > 0 ==> QueueSell(Open(lots), day, quantity) == QueueSell(Open(lots[1..]), day, quantity - lots[0].quantity)
  {
    if lots[0].quantity == 0 {
      assert Open(lots) == Open(lots[1..]);
    } else {
      assert Open(lots)[1..] == Open(lots[1..]);
    }
  }

  lemma OpenOfEmptyHead(lot: Lot, rest: seq<Lot>)
    requires lot.quantity == 0
    ensures Open([lot] + rest) == Open(rest)
  {
    assert ([lot] + rest)[1..] == rest;
  }

  lemma HeadCovers(lots: seq<Lot>, day: int, quantity: int)
    requires NonNegative(lots) && lots != [] && lots[0].day < day && 0 < quantity < lots[0].quantity
    ensures ScanSell(lots, day, quantity).Some? && QueueSell(Open(lots), day, quantity).Some?
    ensures QueueSell(Open(lots), day, quantity).value == Open(ScanSell(lots, day, quantity).value)
  {
    NothingTaken(lots[1..], day);
    assert Open(lots)[1..] == Open(lots[1..]);
  }

  /** What the queue can get at: the lots in front of the first one of the day or later. */
  function Reach(lots: seq<Lot>, day: int): int {
    if lots == [] || lots[0].day >= day then 0 else lots[0].quantity + Reach(lots[1..], day)
  }

  lemma {:induction false} QueueAcceptsWithinReach(lots: seq<Lot>, day: int, quantity: int)
    requires NonNegative(lots) && quantity >= 0
    ensures QueueSell(lots, day, quantity).Some? <==> quantity <= Reach(lots, day)
    ensures Reach(lots, day) >= 0
  {
    if lots != [] && lots[0].day < day {
      var left := quantity - lots[0].quantity;
      QueueAcceptsWithinReach(lots[1..], day, if left < 0 then 0 else left);
    }
  }

  lemma EmptyHead(lots: seq<Lot>, day: int, quantity: int)
    requires lots != [] && lots[0].quantity == 0 && quantity >= 0
    ensures ScanLeft(lots, day, quantity) == ScanLeft(lots[1..], day, quantity)
    ensures Open(ScanLots(lots, day, quantity)) == Open(ScanLots(lots[1..], day, quantity))
  {
    OpenOfEmptyHead(lots[0], ScanLots(lots[1..], day, quantity));
  }

  lemma {:induction false} SameWithinReach(lots: seq<Lot>, day: int, quantity: int)
    requires NonNegative(lots) && 0 <= quantity <= Reach(Open(lots), day)
    ensures ScanSell(lots, day, quantity).Some? && QueueSell(Open(lots), day, quantity).Some?
    ensures QueueSell(Open(lots), day, quantity).value == Open(ScanSell(lots, day, quantity).value)
  {
    if quantity == 0 {
      NothingTaken(lots, day);
    } else {
      var rest := lots[1..];
      if lots[0].quantity == 0 {
        assert Open(lots) == Open(rest);
        SameWithinReach(rest, day, quantity);
        EmptyHead(lots, day, quantity);
      } else if lots[0].quantity <= quantity {
        assert Open(lots)[1..] == Open(rest);
        SameWithinReach(rest, day, quantity - lots[0].quantity);
        HeadUsedUp(lots, day, quantity);
      } else {
        HeadCovers(lots, day, quantity);
      }
    }
  }

  /** Older holdings cover the sell, but a lot of the day or later stands in front of some of them. */
  predicate Hidden(lots: seq<Lot>, day: int, quantity: int) {
    Reach(Open(lots), day) < quantity <= Sellable(lots, day)
  }

  /** The two matchers treat the sell alike: both refuse it, or both leave the same open lots. */
  predicate Alike(lots: seq<Lot>, day: int, quantity: int) {
    var queue, scan := QueueSell(Open(lots), day, quantity), ScanSell(lots, day, quantity);
    queue.Some? == scan.Some? && (scan.Some? ==> queue.value == Open(scan.value))
  }

  lemma OpenIsNonNegative(lots: seq<Lot>)
    requires NonNegative(lots)
    ensures NonNegative(Open(lots))
  {
    OpenMembers(lots);
    forall i | 0 <= i < |Open(lots)|
      ensures Open(lots)[i].quantity >= 0
    {
      assert Open(lots)[i] in lots;
    }
  }

  /** In whatever order the lots are, the matchers differ on exactly the hidden sells. */
  lemma MatchersDifferExactlyWhenHidden(lots: seq<Lot>, day: int, quantity: int)
    requires NonNegative(lots) && quantity >= 0
    ensures Alike(lots, day, quantity) <==> !Hidden(lots, day, quantity)
  {
    OpenIsNonNegative(lots);
    QueueAcceptsWithinReach(Open(lots), day, quantity);
    SellNeedsOlderHoldings(lots, day, quantity);
    if quantity <= Reach(Open(lots), day) {
      SameWithinReach(lots, day, quantity);
    }
  }

  /** The rule itself: a sell is accepted exactly when holdings bought on earlier days cover it. */
  lemma {:induction false} SellNeedsOlderHoldings(lots: seq<Lot>, day: int, quantity: int)
    requires NonNegative(lots) && quantity >= 0
    ensures ScanLeft(lots, day, quantity) == if Sellable(lots, day) >= quantity then 0 else quantity - Sellable(lots, day)
    ensures Sellable(lots, day) >= 0
  {
    if lots != [] {
      var use := if lots[0].day < day then Min(lots[0].quantity, quantity) else 0;
      SellNeedsOlderHoldings(lots[1..], day, quantity - use);
    }
  }

  /** A sell takes exactly its quantity, touches no lot of the day, and keeps the days in order. */
  lemma {:induction false} SellTakesQuantity(lots: seq<Lot>, day: int, quantity: int)
    requires NonNegative(lots) && quantity >= 0
    ensures Total(ScanLots(lots, day, quantity)) == Total(lots) - (quantity - ScanLeft(lots, day, quantity))
    ensures Fresh(ScanLots(lots, day, quantity), day) == Fresh(lots, day)
    ensures NonNegative(ScanLots(lots, day, quantity)) && |ScanLots(lots, day, quantity)| == |lots|
    ensures forall i :: 0 <= i < |lots| ==> ScanLots(lots, day, quantity)[i].day == lots[i].day
  {
    if lots != [] {
      var use := if lots[0].day < day then Min(lots[0].quantity, quantity) else 0;
      SellTakesQuantity(lots[1..], day, quantity - use);
    }
  }

  // ---------------------------------------------------------------- whole fill lists

  datatype Book = Book(lots: seq<Lot>, position: int)

  function QueueRun(fills: seq<Fill>): Option<Book> {
    if fills == [] then Some(Book([], 0))
    else
      var f := fills[|fills| - 1];
      match QueueRun(fills[..|fills| - 1])
      case None => None
      case Some(b) =>
        if f.buy then Some(Book(b.lots + [Lot(f.day, f.quantity)], b.position + f.quantity))
        else QueueSold(b, f)
  }

  function ScanRun(fills: seq<Fill>): Option<Book> {
    if fills == [] then Some(Book([], 0))
    else
      var f := fills[|fills| - 1];
      match ScanRun(fills[..|fills| - 1])
      case None => None
      case Some(b) =>
        if f.buy then Some(Book(b.lots + [Lot(f.day, f.quantity)], b.position + f.quantity))
        else ScanSold(b, f)
  }

  ghost predicate InDayOrder(fills: seq<Fill>) {
    && (forall i :: 0 <= i < |fills| ==> fills[i].quantity > 0)
    && (forall i, j :: 0 <= i < j < |fills| ==> fills[i].day <= fills[j].day)
  }

  lemma {:induction false} OpenAppend(lots: seq<Lot>, lot: Lot)
    ensures Open(lots + [lot]) == Open(lots) + if lot.quantity == 0 then [] else [lot]
    ensures Total(lots + [lot]) == Total(lots) + lot.quantity
  {
    if lots == [] {
      assert lots + [lot] == [lot];
    } else {
      OpenAppend(lots[1..], lot);
      assert (lots + [lot])[0] == lots[0] && (lots + [lot])[1..] == lots[1..] + [lot];
      Regroup(Open([lots[0]]), Open(lots[1..]), if lot.quantity == 0 then [] else [lot]);
    }
  }

  lemma Regroup(a: seq<Lot>, b: seq<Lot>, c: seq<Lot>)
    ensures a + b + c == a + (b + c)
  {
  }

  lemma {:induction false} OpenTotal(lots: seq<Lot>)
    ensures Total(Open(lots)) == Total(lots)
  {
    if lots != [] {
      OpenTotal(lots[1..]);
      assert if lots[0].quantity == 0 then Open(lots) == Open(lots[1..]) else Open(lots)[1..] == Open(lots[1..]);
    }
  }

  lemma {:induction false} TotalNonNegative(lots: seq<Lot>)
    requires NonNegative(lots)
    ensures Total(lots) >= 0
  {
    if lots != [] {
      TotalNonNegative(lots[1..]);
    }
  }

  /** Over any fill list in day order the two replays accept the same lists; they end with the same open lots
      and the same position, and the open lots always sum to the position. */
  lemma {:induction false} ReplaysAgree(fills: seq<Fill>)
    requires InDayOrder(fills)
    ensures QueueRun(fills).Some? <==> ScanRun(fills).Some?
    ensures ScanRun(fills).Some? ==>
              var scan, queue := ScanRun(fills).value, QueueRun(fills).value;
              && queue.lots == Open(scan.lots) && queue.position == scan.position == Total(scan.lots) == Total(queue.lots)
              && queue.position >= 0
              && NonNegative(scan.lots) && ByDay(scan.lots)
              && (forall i :: 0 <= i < |scan.lots| ==> fills != [] && scan.lots[i].day <= fills[|fills| - 1].day)
  {
    if fills != [] {
      var n := |fills| - 1;
      var f := fills[n];
      ReplaysAgree(fills[..n]);
      if ScanRun(fills[..n]).Some? {
        var b := ScanRun(fills[..n]).value;
        if f.buy {
          OpenAppend(b.lots, Lot(f.day, f.quantity));
          TotalNonNegative(b.lots);
          OpenTotal(b.lots + [Lot(f.day, f.quantity)]);
        } else {
          MatchersAgree(b.lots, f.day, f.quantity);
          SellTakesQuantity(b.lots, f.day, f.quantity);
          TotalNonNegative(ScanLots(b.lots, f.day, f.quantity));
          OpenTotal(ScanLots(b.lots, f.day, f.quantity));
        }
      }
    }
  }

  predicate RunsAlike(fills: seq<Fill>) {
    var queue, scan := QueueRun(fills), ScanRun(fills);
    && queue.Some? == scan.Some?
    && (scan.Some? ==> queue.value.lots == Open(scan.value.lots) && queue.value.position == scan.value.position)
  }

  /** The n-th fill is a sell that the scan reaches and whose holdings are hidden from the queue. */
  predicate HiddenAt(fills: seq<Fill>, n: nat)
    requires n < |fills|
  {
    !fills[n].buy && ScanRun(fills[..n]).Some? && Hidden(ScanRun(fills[..n]).value.lots, fills[n].day, fills[n].quantity)
  }

  lemma {:induction false} ScanBooks(fills: seq<Fill>)
    requires forall i :: 0 <= i < |fills| ==> fills[i].quantity > 0
    ensures ScanRun(fills).Some? ==>
              NonNegative(ScanRun(fills).value.lots) && ScanRun(fills).value.position == Total(ScanRun(fills).value.lots)
  {
    if fills != [] {
      var n := |fills| - 1;
      ScanBooks(fills[..n]);
      if ScanRun(fills[..n]).Some? {
        var lots := ScanRun(fills[..n]).value.lots;
        OpenAppend(lots, Lot(fills[n].day, fills[n].quantity));
        SellTakesQuantity(lots, fills[n].day, fills[n].quantity);
      }
    }
  }

  lemma OneMoreFill(fills: seq<Fill>)
    requires fills != [] && forall i :: 0 <= i < |fills| ==> fills[i].quantity > 0
    requires RunsAlike(fills[..|fills| - 1])
    ensures RunsAlike(fills) <==> !HiddenAt(fills, |fills| - 1)
  {
    var n := |fills| - 1;
    var f := fills[n];
    ScanBooks(fills[..n]);
    if ScanRun(fills[..n]).Some? {
      var lots := ScanRun(fills[..n]).value.lots;
      OpenAppend(lots, Lot(f.day, f.quantity));
      var queue, scan := QueueRun(fills[..n]).value, ScanRun(fills[..n]).value;
      assert queue.lots == Open(lots) && queue.position == scan.position == Total(lots);
      if f.buy {
        assert QueueRun(fills) == Some(Book(queue.lots + [Lot(f.day, f.quantity)], queue.position + f.quantity));
        assert ScanRun(fills) == Some(Book(lots + [Lot(f.day, f.quantity)], scan.position + f.quantity));
      } else {
        SellOnce(queue, scan, f);
        assert QueueRun(fills) == QueueSold(queue, f) && ScanRun(fills) == ScanSold(scan, f);
      }
    }
  }

  function QueueSold(b: Book, f: Fill): Option<Book> {
    match QueueSell(b.lots, f.day, f.quantity)
    case None => None
    case Some(lots) => if b.position - f.quantity < 0 then None else Some(Book(lots, b.position - f.quantity))
  }

  function ScanSold(b: Book, f: Fill): Option<Book> {
    match ScanSell(b.lots, f.day, f.quantity)
    case None => None
    case Some(lots) => Some(Book(lots, b.position - f.quantity))
  }

  lemma SellOnce(queue: Book, scan: Book, f: Fill)
    requires NonNegative(scan.lots) && f.quantity > 0
    requires queue.lots == Open(scan.lots) && queue.position == scan.position == Total(scan.lots)
    ensures QueueSold(queue, f).Some? ==> ScanSold(scan, f).Some?
    ensures !Hidden(scan.lots, f.day, f.quantity) <==>
              && QueueSold(queue, f).Some? == ScanSold(scan, f).Some?
              && (ScanSold(scan, f).Some? ==>
                    && QueueSold(queue, f).value.lots == Open(ScanSold(scan, f).value.lots)
                    && QueueSold(queue, f).value.position == ScanSold(scan, f).value.position)
  {
    MatchersDifferExactlyWhenHidden(scan.lots, f.day, f.quantity);
    if ScanSell(scan.lots, f.day, f.quantity).Some? {
      SellTakesQuantity(scan.lots, f.day, f.quantity);
      TotalNonNegative(ScanLots(scan.lots, f.day, f.quantity));
    } else {
      OpenIsNonNegative(scan.lots);
      QueueAcceptsWithinReach(Open(scan.lots), f.day, f.quantity);
      SellNeedsOlderHoldings(scan.lots, f.day, f.quantity);
      if QueueSell(Open(scan.lots), f.day, f.quantity).Some? {
        SameWithinReach(scan.lots, f.day, f.quantity);
      }
    }
  }

  ghost predicate AlwaysAlike(fills: seq<Fill>) {
    forall n :: 0 <= n <= |fills| ==> RunsAlike(fills[..n])
  }

  ghost predicate NeverHidden(fills: seq<Fill>) {
    forall n :: 0 <= n < |fills| ==> !HiddenAt(fills, n)
  }

  lemma LastFill(fills: seq<Fill>)
    requires fills != []
    ensures AlwaysAlike(fills) <==> AlwaysAlike(fills[..|fills| - 1]) && RunsAlike(fills)
    ensures NeverHidden(fills) <==> NeverHidden(fills[..|fills| - 1]) && !HiddenAt(fills, |fills| - 1)
    ensures AlwaysAlike(fills) ==> RunsAlike(fills[..|fills| - 1])
  {
    var m := |fills| - 1;
    var init := fills[..m];
    assert forall n :: 0 <= n <= m ==> init[..n] == fills[..n];
    assert fills[..|fills|] == fills && init[..m] == init;
    assert forall n :: 0 <= n < m ==> (HiddenAt(init, n) <==> HiddenAt(fills, n));
  }

  /** Fills in any order: the two replays agree fill by fill exactly when no sell is hidden. */
  lemma {:induction false} ReplaysAgreeExactly(fills: seq<Fill>)
    requires forall i :: 0 <= i < |fills| ==> fills[i].quantity > 0
    ensures AlwaysAlike(fills) <==> NeverHidden(fills)
  {
    if fills != [] {
      var init := fills[..|fills| - 1];
      LastFill(fills);
      ReplaysAgreeExactly(init);
      if AlwaysAlike(init) {
        assert init[..|init|] == init;
        OneMoreFill(fills);
      }
    }
  }

  /** Out of day order the queue refuses what the scan accepts. */
  lemma OutOfOrderTheyDiffer()
    ensures exists fills: seq<Fill> :: QueueRun(fills).None? && ScanRun(fills).Some?
  {
    var late, early, sell := Fill(5, true, 100), Fill(3, true, 100), Fill(4, false, 100);
    var fills := [late, early, sell];
    var lots := [Lot(5, 100), Lot(3, 100)];
    assert [late][..0] == [] && [late, early][..1] == [late] && fills[..2] == [late, early];
    assert QueueRun([]) == ScanRun([]) == Some(Book([], 0));
    assert [] + [Lot(5, 100)] == [Lot(5, 100)];
    assert QueueRun([late]) == ScanRun([late]) == Some(Book([Lot(5, 100)], 100));
    assert QueueRun([late, early]) == ScanRun([late, early]) == Some(Book(lots, 200)) by {
      assert [Lot(5, 100)] + [Lot(3, 100)] == lots;
    }
    assert lots[1..] == [Lot(3, 100)] && lots[1..][1..] == [];
    assert ScanLeft(lots, 4, 100) == 0;
    assert QueueRun(fills).None? && ScanRun(fills).Some?;
  }
}
