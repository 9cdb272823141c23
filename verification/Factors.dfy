/** Forward-adjustment factors of one security: `build_symbol` of scripts/derive/build_qfq.py.

    The bars are those of the sorted raw file, the sources are the ex-date tables
    extracted from the five suppliers.  A factor multiplies every bar before its
    ex-date, and bars before the latest blocked ex-date are not written at all. */
module Factors {
  import opened Wrappers
  import opened Dividends
  import opened Sorting

  const PROVISIONAL_DAYS: int := 7

  datatype Bar = Bar(day: int, open: real, high: real, low: real, close: real, volume: int, amount: real)
  {
    function Scaled(f: real): Bar {
      this.(open := Mul(open, f), high := Mul(high, f), low := Mul(low, f), close := Mul(close, f))
    }

    predicate Ordered() {
      low <= open <= high && low <= close <= high
    }
  }

  ghost predicate Sorted(raw: seq<Bar>) {
    forall i, j :: 0 <= i < j < |raw| ==> raw[i].day <= raw[j].day
  }

  /** Price and ratio per 10 shares of each rights plan on one day. */
  datatype RightsSlot = RightsSlot(rows: seq<(real, real)>, blockers: set<string>)

  datatype Sources = Sources(ths: map<int, Slot>, baostock: map<int, Slot>, eastmoney: map<int, Slot>,
                             tdx: map<int, Slot>, rights: map<int, RightsSlot>)
  {
    function Days(): set<int> {
      ths.Keys + baostock.Keys + eastmoney.Keys + tdx.Keys + rights.Keys
    }

    predicate Distributes(day: int) {
      day in ths || day in baostock || day in eastmoney || day in tdx
    }

    function At(day: int): Day {
      Day(Lookup(baostock, day), Lookup(eastmoney, day), Lookup(tdx, day), Lookup(ths, day))
    }

    /** Price and ratio per share, when the day's rights plan can be used. */
    function Rights(day: int): (real, real) {
      if day in rights && rights[day].rows != [] && rights[day].blockers == {}
      then (rights[day].rows[0].0, rights[day].rows[0].1 / 10.0) else (0.0, 0.0)
    }
  }

  function Lookup(m: map<int, Slot>, day: int): Option<Slot> {
    if day in m then Some(m[day]) else None
  }

  /** What one ex-date does to the bars before it. */
  datatype Effect = Nothing | Skipped | Barrier | Scale(factor: real)

  datatype Event = Event(day: int, effect: Effect)

  function EffectOf(src: Sources, day: int, close: real, recent: bool): Effect {
    var decision := if src.Distributes(day) then Some(Decide(src.At(day), recent)) else None;
    if decision == Some(Ignored) && day !in src.rights then Skipped
    else if decision == Some(Blocked) || (day in src.rights && src.rights[day].blockers != {}) then Barrier
    else
      var v := if decision.Some? && decision.value.Accepted? then decision.value.value else Comp(0.0, 0.0, 0.0);
      var (price, ratio) := src.Rights(day);
      Priced(close, v, price, ratio)
  }

  function Priced(close: real, v: Comp, price: real, ratio: real): Effect {
    if Numerator(close, v, price, ratio) <= 0.0 || Denominator(close, v, ratio) <= 0.0 then Barrier
    else
      var f := Factor(close, v, price, ratio);
      if !(0.0 < f < 1.5) then Barrier else if f == 1.0 then Nothing else Scale(f)
  }

  /** What one old share becomes: itself, the bonus, the conversion and the rights. */
  function Shares(v: Comp, ratio: real): real {
    1.0 + v.bonus / 10.0 + v.cap / 10.0 + ratio
  }

  /** The worth of that holding on the ex-date: the close less the cash plus what the rights cost. */
  function ExWorth(close: real, v: Comp, price: real, ratio: real): real {
    close - v.cash / 10.0 + price * ratio
  }

  lemma AcceptedFactorIsExPrice(close: real, v: Comp, price: real, ratio: real)
    requires Priced(close, v, price, ratio).Scale?
    ensures Mul(Priced(close, v, price, ratio).factor, Mul(close, Shares(v, ratio))) == ExWorth(close, v, price, ratio)
  {
    QuotientTimes(Numerator(close, v, price, ratio), Denominator(close, v, ratio));
  }

  /** Only an accepted distribution and an unblocked rights plan ever scale a price. */
  lemma ScalingNeedsAcceptance(src: Sources, day: int, close: real, recent: bool)
    requires EffectOf(src, day, close, recent).Scale?
    ensures src.Distributes(day) ==> !Decide(src.At(day), recent).Blocked?
    ensures day in src.rights ==> src.rights[day].blockers == {}
    ensures EffectOf(src, day, close, recent)
            == Priced(close, Distribution(src, day, recent), src.Rights(day).0, src.Rights(day).1)
  {
  }

  /** A day is skipped exactly when TDX alone has it and there is no rights issue. */
  lemma SkippedExactly(src: Sources, day: int, close: real, recent: bool)
    ensures EffectOf(src, day, close, recent) == Skipped <==>
              day in src.tdx && day !in src.ths && day !in src.baostock && day !in src.eastmoney && day !in src.rights
  {
    AllAgreeExactly(src.At(day), recent);
  }

  /** Any other day bars older rows if and only if its distribution or its rights are blocked, or what is accepted leaves
      the holding worth nothing or the factor at 1.5 or more.  Otherwise it scales by worth over shares, unless that is 1. */
  lemma EffectExactly(src: Sources, day: int, close: real, recent: bool)
    requires EffectOf(src, day, close, recent) != Skipped
    ensures var effect, v, ratio := EffectOf(src, day, close, recent), Distribution(src, day, recent), src.Rights(day).1;
            var worth, shares := ExWorth(close, v, src.Rights(day).0, ratio), Mul(close, Shares(v, ratio));
            && (effect == Barrier <==>
                  || (src.Distributes(day) && Decide(src.At(day), recent) == Blocked)
                  || (day in src.rights && src.rights[day].blockers != {})
                  || worth <= 0.0 || shares <= 0.0 || worth / shares >= 1.5)
            && (effect.Scale? ==> effect.factor == worth / shares)
            && (effect == Nothing ==> worth == shares)
  {
    PricedExactly(close, Distribution(src, day, recent), src.Rights(day).0, src.Rights(day).1);
  }

  /** What is accepted bars older rows when the holding is worth nothing or the factor is 1.5 or more, changes nothing when
      the holding is worth the close, and otherwise scales by worth over shares. */
  lemma PricedExactly(close: real, v: Comp, price: real, ratio: real)
    ensures var effect, worth, shares := Priced(close, v, price, ratio), ExWorth(close, v, price, ratio), Mul(close, Shares(v, ratio));
            && (effect == Barrier <==> worth <= 0.0 || shares <= 0.0 || worth / shares >= 1.5)
            && (effect == Nothing <==> worth == shares > 0.0)
            && (effect.Scale? ==> effect.factor == worth / shares)
            && effect != Skipped
  {
    var worth, shares := ExWorth(close, v, price, ratio), Mul(close, Shares(v, ratio));
    assert worth == Numerator(close, v, price, ratio) && shares == Denominator(close, v, ratio);
    if worth > 0.0 && shares > 0.0 {
      QuotientIsPositive(worth, shares);
    }
  }

  lemma QuotientIsPositive(x: real, y: real)
    requires x > 0.0 && y > 0.0
    ensures x / y > 0.0 && (x / y == 1.0 <==> x == y)
  {
  }

  /** The accepted distribution of the day, or nothing. */
  function Distribution(src: Sources, day: int, recent: bool): Comp {
    if src.Distributes(day) && Decide(src.At(day), recent).Accepted? then Decide(src.At(day), recent).value
    else Comp(0.0, 0.0, 0.0)
  }

  function PrevClose(raw: seq<Bar>, day: int): Option<real> {
    if raw == [] then None
    else
      var last := raw[|raw| - 1];
      if last.day < day then Some(last.close) else PrevClose(raw[..|raw| - 1], day)
  }

  /** A way of judging ex-dates: the days stated, and the effect of a day given the previous close
      and whether the day is recent enough for the provisional rule. */
  datatype Judge = Judge(days: set<int>, effect: (int, real, bool) -> Effect)

  function JudgeOf(src: Sources): Judge {
    Judge(src.Days(), (day, close, recent) => EffectOf(src, day, close, recent))
  }

  /** Accepted factors are positive, and ageing out of the provisional window can only block. */
  ghost predicate LawfulAt(j: Judge, day: int, close: real, recent: bool) {
    && (j.effect(day, close, recent).Scale? ==> j.effect(day, close, recent).factor > 0.0)
    && (j.effect(day, close, recent) == j.effect(day, close, false) || j.effect(day, close, false).Barrier?)
    && (j.effect(day, close, true).Barrier? ==> j.effect(day, close, recent).Barrier?)
  }

  ghost predicate Lawful(j: Judge) {
    forall day: int, close: real, recent: bool :: LawfulAt(j, day, close, recent)
  }

  lemma SourcesAreLawful(src: Sources)
    ensures Lawful(JudgeOf(src))
  {
    forall day: int, close: real, recent: bool
      ensures LawfulAt(JudgeOf(src), day, close, recent)
    {
      AgeingOnlyBlocks(src.At(day));
    }
  }

  /** Ex-dates after the last bar or before the first one have no effect. */
  function EventOn(raw: seq<Bar>, j: Judge, day: int): Effect {
    if raw == [] || day > LastDay(raw) || PrevClose(raw, day).None? then Nothing
    else j.effect(day, PrevClose(raw, day).value, LastDay(raw) - day <= PROVISIONAL_DAYS)
  }

  function LastDay(raw: seq<Bar>): int
    requires raw != []
  {
    raw[|raw| - 1].day
  }

  /** The effect of every ex-date any source states, in date order. */
  function Events(raw: seq<Bar>, j: Judge): seq<Event> {
    var days := SortedSet(j.days);
    seq(|days|, i requires 0 <= i < |days| => Event(days[i], EventOn(raw, j, days[i])))
  }

  /** The product of two numbers, named so that products of many can be regrouped one factor at a time. */
  function Mul(x: real, y: real): real {
    x * y
  }

  lemma One(x: real)
    ensures Mul(x, 1.0) == Mul(1.0, x) == x
  {
  }

  lemma Regroup(p: real, k: real, q: real, s: real)
    requires p == Mul(k, q)
    ensures Mul(p, s) == Mul(k, Mul(q, s)) && Mul(p, s) == Mul(Mul(k, s), q)
  {
  }

  function Step(e: Event, d: int): real {
    if d < e.day && e.effect.Scale? then e.effect.factor else 1.0
  }

  /** The product of the accepted factors whose ex-date is strictly after `d`. */
  function Product(es: seq<Event>, d: int): real {
    if es == [] then 1.0 else Mul(Product(es[..|es| - 1], d), Step(es[|es| - 1], d))
  }

  function FactorAt(raw: seq<Bar>, j: Judge, d: int): real {
    Product(Events(raw, j), d)
  }

  /** No blocked ex-date lies strictly after `d`. */
  ghost predicate Uncrossed(es: seq<Event>, d: int) {
    forall i :: 0 <= i < |es| && es[i].effect.Barrier? ==> es[i].day <= d
  }

  /** The events that are written down: those with an effect. */
  function Recorded(es: seq<Event>): seq<Event> {
    if es == [] then []
    else Recorded(es[..|es| - 1]) + if es[|es| - 1].effect.Nothing? then [] else [es[|es| - 1]]
  }

  /** The adjusted rows: each bar that no blocked ex-date cuts off, scaled by its factor. */
  ghost function Rows(raw: seq<Bar>, es: seq<Event>): seq<(Bar, real)> {
    if raw == [] then []
    else
      var bar := raw[|raw| - 1];
      var f := Product(es, bar.day);
      Rows(raw[..|raw| - 1], es) + if Uncrossed(es, bar.day) then [(bar.Scaled(f), f)] else []
  }

  // ---------------------------------------------------------------- the build

  datatype Built = Built(events: seq<Event>, validFrom: Option<int>, rows: seq<(Bar, real)>)

  ghost predicate Descending(s: seq<Event>) {
    forall i, j :: 0 <= i < j < |s| ==> s[i].day > s[j].day
  }

  ghost predicate Rising(s: seq<Event>) {
    forall i, j :: 0 <= i < j < |s| ==> s[i].day < s[j].day
  }

  ghost predicate AllScale(s: seq<Event>) {
    forall i :: 0 <= i < |s| ==> s[i].effect.Scale?
  }

  function FactorsProduct(s: seq<Event>): real
    requires AllScale(s)
  {
    if s == [] then 1.0 else Mul(FactorsProduct(s[..|s| - 1]), s[|s| - 1].effect.factor)
  }

  /** `Product` for a list kept latest first. */
  function ProductAfter(s: seq<Event>, d: int): real {
    if s == [] then 1.0 else Mul(ProductAfter(s[1..], d), Step(s[0], d))
  }

  lemma {:induction false} FactorsProductHead(s: seq<Event>)
    requires s != [] && AllScale(s)
    ensures FactorsProduct(s) == Mul(FactorsProduct(s[1..]), s[0].effect.factor)
  {
    if |s| > 1 {
      var init := s[..|s| - 1];
      FactorsProductHead(init);
      assert s[1..][..|s| - 2] == init[1..];
      Regroup(FactorsProduct(init), FactorsProduct(init[1..]), s[0].effect.factor, s[|s| - 1].effect.factor);
    } else {
      assert s[..0] == [] && s[1..] == [];
    }
  }

  /** Moving one pointer over events sorted by day, latest first, yields exactly the later events. */
  lemma {:induction false} PrefixIsProductAfter(s: seq<Event>, n: nat, d: int)
    requires AllScale(s) && n <= |s|
    requires forall i :: 0 <= i < n ==> d < s[i].day
    requires forall i :: n <= i < |s| ==> s[i].day <= d
    ensures ProductAfter(s, d) == FactorsProduct(s[..n])
  {
    if s == [] {
    } else if n == 0 {
      PrefixIsProductAfter(s[1..], 0, d);
      assert s[1..][..0] == s[..0];
    } else {
      PrefixIsProductAfter(s[1..], n - 1, d);
      FactorsProductHead(s[..n]);
      assert s[..n][1..] == s[1..][..n - 1];
    }
  }

  method TwoPointer(raw: seq<Bar>, accepted: seq<Event>) returns (cumulative: array<real>)
    requires Sorted(raw) && Descending(accepted) && AllScale(accepted)
    ensures fresh(cumulative) && cumulative.Length == |raw|
    ensures forall i :: 0 <= i < |raw| ==> cumulative[i] == ProductAfter(accepted, raw[i].day)
  {
    cumulative := new real[|raw|](_ => 1.0);
    var running, idx := 1.0, 0;
    var i := |raw|;
    while i > 0
      invariant 0 <= i <= |raw| && 0 <= idx <= |accepted|
      invariant running == FactorsProduct(accepted[..idx])
      invariant i < |raw| ==> forall k :: 0 <= k < idx ==> raw[i].day < accepted[k].day
      invariant i == |raw| ==> idx == 0
      invariant forall k :: i <= k < |raw| ==> cumulative[k] == ProductAfter(accepted, raw[k].day)
    {
      i := i - 1;
      var day := raw[i].day;
      while idx < |accepted| && accepted[idx].day > day
        invariant 0 <= idx <= |accepted|
        invariant running == FactorsProduct(accepted[..idx])
        invariant forall k :: 0 <= k < idx ==> day < accepted[k].day
      {
        assert accepted[..idx + 1][..idx] == accepted[..idx];
        running := running * accepted[idx].effect.factor;
        idx := idx + 1;
      }
      PrefixIsProductAfter(accepted, idx, day);
      cumulative[i] := running;
    }
  }

  /** Judge every stated ex-date in date order. */
  method JudgeEvents(raw: seq<Bar>, j: Judge) returns (es: seq<Event>)
    ensures es == Events(raw, j) && Rising(es)
  {
    var days := SortedSet(j.days);
    es := [];
    for n := 0 to |days|
      invariant |es| == n && forall i :: 0 <= i < n ==> es[i] == Event(days[i], EventOn(raw, j, days[i]))
    {
      es := es + [Event(days[n], EventOn(raw, j, days[n]))];
    }
  }

  lemma UncrossedSnoc(es: seq<Event>, e: Event, d: int)
    ensures Uncrossed(es + [e], d) <==> Uncrossed(es, d) && (e.effect.Barrier? ==> e.day <= d)
  {
    assert (es + [e])[|es|] == e;
    assert forall i :: 0 <= i < |es| ==> (es + [e])[i] == es[i];
  }

  lemma OneMoreEvent(es: seq<Event>, n: nat)
    requires n < |es|
    ensures Recorded(es[..n + 1]) == Recorded(es[..n]) + if es[n].effect.Nothing? then [] else [es[n]]
    ensures forall d :: Product(es[..n + 1], d) == Mul(Product(es[..n], d), Step(es[n], d))
  {
    assert es[..n + 1][..n] == es[..n];
  }

  /** Written down are exactly the ex-dates with an effect, in date order. */
  lemma RecordedExactly(es: seq<Event>)
    ensures forall e :: e in Recorded(es) <==> e in es && e.effect != Nothing
    ensures Rising(es) ==> Rising(Recorded(es))
  {
    RecordedMembers(es);
    if Rising(es) {
      RecordedRising(es);
    }
  }

  lemma {:induction false} RecordedMembers(es: seq<Event>)
    ensures forall e :: e in Recorded(es) <==> e in es && e.effect != Nothing
  {
    if es != [] {
      var n := |es| - 1;
      RecordedMembers(es[..n]);
      assert es == es[..n] + [es[n]];
    }
  }

  lemma {:induction false} RecordedRising(es: seq<Event>)
    requires Rising(es)
    ensures Rising(Recorded(es))
  {
    if es != [] {
      var n := |es| - 1;
      RecordedRising(es[..n]);
      RecordedMembers(es[..n]);
      var earlier := Recorded(es[..n]);
      forall i | 0 <= i < |earlier|
        ensures earlier[i].day < es[n].day
      {
        assert earlier[i] in earlier;
        var k :| 0 <= k < n && es[..n][k] == earlier[i];
        assert es[k] == earlier[i];
      }
    }
  }

  /** The latest barrier so far decides which days are crossed. */
  ghost predicate Decides(es: seq<Event>, blocked: Option<int>) {
    forall d :: Uncrossed(es, d) <==> blocked.None? || blocked.value <= d
  }

  lemma LaterBarrier(es: seq<Event>, n: nat, blocked: Option<int>)
    requires n < |es| && Decides(es[..n], blocked) && (blocked.Some? ==> blocked.value < es[n].day)
    ensures Decides(es[..n + 1], if es[n].effect.Barrier? then Some(es[n].day) else blocked)
  {
    var next, blocked' := es[..n + 1], if es[n].effect.Barrier? then Some(es[n].day) else blocked;
    assert next == es[..n] + [es[n]];
    forall d
      ensures Uncrossed(next, d) <==> blocked'.None? || blocked'.value <= d
    {
      UncrossedSnoc(es[..n], es[n], d);
      assert Uncrossed(es[..n], d) <==> blocked.None? || blocked.value <= d;
    }
  }

  lemma AcceptedFirst(accepted: seq<Event>, e: Event)
    ensures forall d :: ProductAfter([e] + accepted, d) == Mul(ProductAfter(accepted, d), Step(e, d))
  {
    assert ([e] + accepted)[1..] == accepted;
  }

  /** Collect the written events, the accepted ones latest first, and the latest barrier. */
  method Classify(es: seq<Event>) returns (recorded: seq<Event>, accepted: seq<Event>, blocked: Option<int>)
    requires Rising(es)
    ensures recorded == Recorded(es)
    ensures AllScale(accepted) && Descending(accepted)
    ensures forall d :: ProductAfter(accepted, d) == Product(es, d)
    ensures Decides(es, blocked)
  {
    recorded, accepted, blocked := [], [], None;
    for n := 0 to |es|
      invariant recorded == Recorded(es[..n])
      invariant AllScale(accepted) && Descending(accepted)
      invariant forall i :: 0 <= i < |accepted| && n < |es| ==> accepted[i].day < es[n].day
      invariant forall d :: ProductAfter(accepted, d) == Product(es[..n], d)
      invariant Decides(es[..n], blocked)
      invariant blocked.Some? && n < |es| ==> blocked.value < es[n].day
    {
      var e := es[n];
      OneMoreEvent(es, n);
      AcceptedFirst(accepted, e);
      LaterBarrier(es, n, blocked);
      if !e.effect.Nothing? {
        recorded := recorded + [e];
      }
      match e.effect {
        case Scale(_) =>
          accepted := [e] + accepted;
        case Barrier =>
          blocked := Some(e.day);
        case _ =>
      }
    }
    assert es[..|es|] == es;
  }

  method BuildSymbol(raw: seq<Bar>, src: Sources) returns (out: Built)
    requires Sorted(raw)
    ensures out.events == Recorded(Events(raw, JudgeOf(src)))
    ensures out.rows == Rows(raw, Events(raw, JudgeOf(src)))
    ensures AdjustedTail(raw, Events(raw, JudgeOf(src)), out.rows)
    ensures out.validFrom.None? ==> raw == []
    ensures out.validFrom.Some? ==> forall i :: 0 <= i < |raw| ==>
              (out.validFrom.value <= raw[i].day <==> Uncrossed(Events(raw, JudgeOf(src)), raw[i].day))
  {
    var j := JudgeOf(src);
    var es := JudgeEvents(raw, j);
    var recorded, accepted, blocked := Classify(es);
    var validFrom := if blocked.Some? then blocked else if raw != [] then Some(raw[0].day) else None;
    var cumulative := TwoPointer(raw, accepted);
    CutBarsAreCrossed(raw, es, blocked, validFrom);
    var rows := WriteRows(raw, validFrom, cumulative, es);
    RowsAreTail(raw, es);
    out := Built(recorded, validFrom, rows);
  }

  lemma CutBarsAreCrossed(raw: seq<Bar>, es: seq<Event>, blocked: Option<int>, validFrom: Option<int>)
    requires Sorted(raw) && Decides(es, blocked)
    requires validFrom == if blocked.Some? then blocked else if raw != [] then Some(raw[0].day) else None
    ensures validFrom.None? ==> raw == []
    ensures forall i :: 0 <= i < |raw| ==> (Uncrossed(es, raw[i].day) <==> validFrom.value <= raw[i].day)
  {
  }

  /** The bars from `validFrom` on, scaled. */
  method WriteRows(raw: seq<Bar>, validFrom: Option<int>, cumulative: array<real>, ghost es: seq<Event>)
    returns (rows: seq<(Bar, real)>)
    requires validFrom.None? ==> raw == []
    requires forall i :: 0 <= i < |raw| ==> (Uncrossed(es, raw[i].day) <==> validFrom.value <= raw[i].day)
    requires cumulative.Length == |raw| && forall i :: 0 <= i < |raw| ==> cumulative[i] == Product(es, raw[i].day)
    ensures rows == Rows(raw, es)
  {
    rows := [];
    for n := 0 to |raw|
      invariant rows == Rows(raw[..n], es)
    {
      assert raw[..n + 1][..n] == raw[..n];
      if validFrom.value <= raw[n].day {
        rows := rows + [(raw[n].Scaled(cumulative[n]), cumulative[n])];
      }
    }
    assert raw[..|raw|] == raw;
  }

  // ---------------------------------------------------------------- what the factors mean

  ghost predicate Positive(es: seq<Event>) {
    forall i :: 0 <= i < |es| && es[i].effect.Scale? ==> es[i].effect.factor > 0.0
  }

  lemma {:induction false} ProductPositive(es: seq<Event>, d: int)
    requires Positive(es)
    ensures Product(es, d) > 0.0
  {
    if es != [] {
      ProductPositive(es[..|es| - 1], d);
      assert Step(es[|es| - 1], d) > 0.0;
    }
  }

  lemma {:induction false} ProductOfNone(es: seq<Event>, d: int)
    requires forall i :: 0 <= i < |es| ==> Step(es[i], d) == 1.0
    ensures Product(es, d) == 1.0
  {
    if es != [] {
      ProductOfNone(es[..|es| - 1], d);
    }
  }

  lemma EffectsAreInWindow(raw: seq<Bar>, j: Judge)
    requires Lawful(j)
    ensures Positive(Events(raw, j)) && Rising(Events(raw, j))
    ensures forall i :: var es := Events(raw, j); 0 <= i < |es| && !es[i].effect.Nothing? ==>
              raw != [] && es[i].day <= LastDay(raw) && exists k :: 0 <= k < |raw| && raw[k].day < es[i].day
  {
    var es := Events(raw, j);
    forall i | 0 <= i < |es| && es[i].effect.Scale?
      ensures es[i].effect.factor > 0.0
    {
      var recent := LastDay(raw) - es[i].day <= PROVISIONAL_DAYS;
      assert LawfulAt(j, es[i].day, PrevClose(raw, es[i].day).value, recent);
    }
    forall i | 0 <= i < |es| && !es[i].effect.Nothing?
      ensures raw != [] && es[i].day <= LastDay(raw) && exists k :: 0 <= k < |raw| && raw[k].day < es[i].day
    {
      PrevCloseFound(raw, es[i].day);
    }
  }

  lemma {:induction false} PrevCloseFound(raw: seq<Bar>, day: int)
    requires PrevClose(raw, day).Some?
    ensures exists k :: 0 <= k < |raw| && raw[k].day < day
  {
    if raw[|raw| - 1].day >= day {
      PrevCloseFound(raw[..|raw| - 1], day);
    }
  }

  /** The latest bar is the anchor: its prices are not changed. */
  lemma LastBarIsUnscaled(raw: seq<Bar>, j: Judge)
    requires raw != [] && Lawful(j)
    ensures FactorAt(raw, j, LastDay(raw)) == 1.0
  {
    EffectsAreInWindow(raw, j);
    ProductOfNone(Events(raw, j), LastDay(raw));
  }

  /** Row k of the output is a raw bar times the product of the accepted factors after it; no blocked
      ex-date lies after it, and low <= open, close <= high survives. */
  lemma {:induction false} RowsAreSound(raw: seq<Bar>, es: seq<Event>, k: nat)
    requires k < |Rows(raw, es)| && Positive(es)
    ensures exists i :: 0 <= i < |raw| && IsRow(raw[i], es, Rows(raw, es)[k])
  {
    var n := |raw| - 1;
    var earlier := Rows(raw[..n], es);
    if k < |earlier| {
      RowsAreSound(raw[..n], es, k);
      var i :| 0 <= i < n && IsRow(raw[..n][i], es, earlier[k]);
      assert IsRow(raw[i], es, Rows(raw, es)[k]);
    } else {
      ProductPositive(es, raw[n].day);
      ScalingKeepsOrder(raw[n], Product(es, raw[n].day));
      ScaledAdjusts(raw[n], Product(es, raw[n].day));
      assert IsRow(raw[n], es, Rows(raw, es)[k]);
    }
  }

  ghost predicate IsRow(bar: Bar, es: seq<Event>, row: (Bar, real)) {
    && row.1 == Product(es, bar.day) > 0.0 && Adjusts(bar, row)
    && Uncrossed(es, bar.day)
    && (bar.Ordered() ==> row.0.Ordered())
  }

  /** Each price is the bar's own price times the factor; day, volume and amount are the bar's. */
  ghost predicate Adjusts(bar: Bar, row: (Bar, real)) {
    var (out, f) := row;
    && out.day == bar.day && out.volume == bar.volume && out.amount == bar.amount
    && out.open == Mul(bar.open, f) && out.high == Mul(bar.high, f)
    && out.low == Mul(bar.low, f) && out.close == Mul(bar.close, f)
  }

  lemma ScaledAdjusts(bar: Bar, f: real)
    ensures Adjusts(bar, (bar.Scaled(f), f))
  {
  }

  /** The rows are the last bars of the file, one row for each; the bars before them are those that a blocked ex-date
      cuts off. */
  ghost predicate AdjustedTail(raw: seq<Bar>, es: seq<Event>, rows: seq<(Bar, real)>) {
    && |rows| <= |raw|
    && (forall i :: 0 <= i < |raw| ==> (Uncrossed(es, raw[i].day) <==> i >= |raw| - |rows|))
    && forall k :: 0 <= k < |rows| ==> IsRowOf(raw, es, rows, k)
  }

  /** Row k is the adjusted bar number k from the first written one on. */
  ghost predicate IsRowOf(raw: seq<Bar>, es: seq<Event>, rows: seq<(Bar, real)>, k: nat)
    requires k < |rows| <= |raw|
  {
    var bar := raw[|raw| - |rows| + k];
    rows[k].1 == Product(es, bar.day) && Adjusts(bar, rows[k])
  }

  lemma {:induction false} RowsAreTail(raw: seq<Bar>, es: seq<Event>)
    requires Sorted(raw)
    ensures AdjustedTail(raw, es, Rows(raw, es))
  {
    if raw != [] {
      var n := |raw| - 1;
      var earlier, rows := Rows(raw[..n], es), Rows(raw, es);
      RowsAreTail(raw[..n], es);
      ScaledAdjusts(raw[n], Product(es, raw[n].day));
      CrossedBefore(raw, es, n);
      if Uncrossed(es, raw[n].day) {
        forall k | 0 <= k < |rows|
          ensures IsRowOf(raw, es, rows, k)
        {
          assert k < |earlier| ==> IsRowOf(raw[..n], es, earlier, k) && rows[k] == earlier[k];
        }
      } else {
        assert n > 0 ==> (Uncrossed(es, raw[..n][n - 1].day) <==> |earlier| > 0);
        assert n > 0 ==> raw[..n][n - 1] == raw[n - 1];
      }
      forall i | 0 <= i < |raw|
        ensures Uncrossed(es, raw[i].day) <==> i >= |raw| - |rows|
      {
        assert i < n ==> raw[..n][i] == raw[i];
      }
    }
  }

  /** What is crossed on one day is crossed on every earlier one. */
  lemma CrossedBefore(raw: seq<Bar>, es: seq<Event>, n: nat)
    requires Sorted(raw) && n < |raw|
    ensures forall i :: 0 <= i <= n && Uncrossed(es, raw[i].day) ==> Uncrossed(es, raw[n].day)
  {
  }

  /** Conversely, every bar without a later blocked ex-date is written. */
  lemma {:induction false} RowsAreComplete(raw: seq<Bar>, es: seq<Event>, i: nat)
    requires i < |raw| && Uncrossed(es, raw[i].day)
    ensures exists row :: row in Rows(raw, es) && row.1 == Product(es, raw[i].day) && Adjusts(raw[i], row)
  {
    if i < |raw| - 1 {
      RowsAreComplete(raw[..|raw| - 1], es, i);
    } else {
      var f := Product(es, raw[i].day);
      ScaledAdjusts(raw[i], f);
      assert (raw[i].Scaled(f), f) in Rows(raw, es);
    }
  }

  lemma ScalingKeepsOrder(bar: Bar, f: real)
    requires f > 0.0
    ensures bar.Ordered() ==> bar.Scaled(f).Ordered()
  {
    if bar.Ordered() {
      KeepsOrder(bar.low, bar.open, f);
      KeepsOrder(bar.open, bar.high, f);
      KeepsOrder(bar.low, bar.close, f);
      KeepsOrder(bar.close, bar.high, f);
    }
  }

  lemma KeepsOrder(x: real, y: real, f: real)
    requires x <= y && f > 0.0
    ensures Mul(x, f) <= Mul(y, f)
  {
    assert (y - x) * f >= 0.0;
  }

  /** The accepted factors with ex-date in (d, e]. */
  function Between(es: seq<Event>, d: int, e: int): real {
    if es == [] then 1.0
    else
      var last := es[|es| - 1];
      Mul(Between(es[..|es| - 1], d, e), if last.day <= e then Step(last, d) else 1.0)
  }

  /** Two days' factors differ exactly by the ex-dates between them. */
  lemma {:induction false} Telescope(es: seq<Event>, d: int, e: int)
    requires d <= e
    ensures Product(es, d) == Mul(Between(es, d, e), Product(es, e))
  {
    if es != [] {
      var init, last := es[..|es| - 1], es[|es| - 1];
      Telescope(init, d, e);
      Regroup(Product(init, d), Between(init, d, e), Product(init, e), Step(last, d));
      One(Between(init, d, e));
      One(Product(init, e));
    }
  }

  lemma {:induction false} BetweenOnlyOne(es: seq<Event>, d: int, e: int, k: nat)
    requires k < |es| && d < es[k].day <= e && es[k].effect.Scale?
    requires forall i :: 0 <= i < |es| && i != k && d < es[i].day <= e ==> !es[i].effect.Scale?
    ensures Between(es, d, e) == es[k].effect.factor
  {
    if k == |es| - 1 {
      BetweenNone(es[..k], d, e);
    } else {
      BetweenOnlyOne(es[..|es| - 1], d, e, k);
    }
  }

  lemma {:induction false} BetweenNone(es: seq<Event>, d: int, e: int)
    requires forall i :: 0 <= i < |es| && d < es[i].day <= e ==> !es[i].effect.Scale?
    ensures Between(es, d, e) == 1.0
  {
    if es != [] {
      BetweenNone(es[..|es| - 1], d, e);
    }
  }

  /** The k-th ex-date is the only accepted one between bar i and the next. */
  ghost predicate OnlyExDate(raw: seq<Bar>, es: seq<Event>, i: nat, k: nat) {
    && i + 1 < |raw| && k < |es| && es[k].effect.Scale? && raw[i].day < es[k].day <= raw[i + 1].day
    && forall n :: 0 <= n < |es| && n != k && raw[i].day < es[n].day <= raw[i + 1].day ==> !es[n].effect.Scale?
  }

  /** Price continuity: across one ex-date whose factor takes a holding of `shares` at the close to `worth`, the
      adjusted worths before and after are the same. */
  lemma ExDateContinuity(raw: seq<Bar>, es: seq<Event>, i: nat, k: nat, shares: real, worth: real)
    requires OnlyExDate(raw, es, i, k)
    requires Mul(es[k].effect.factor, Mul(raw[i].close, shares)) == worth
    ensures Mul(Mul(raw[i].close, Product(es, raw[i].day)), shares) == Mul(worth, Product(es, raw[i + 1].day))
  {
    OneStep(es, raw[i].day, raw[i + 1].day, k);
    Rescale(raw[i].close, es[k].effect.factor, Product(es, raw[i + 1].day), shares);
  }

  /** The distribution, rights price and rights ratio of every ex-date. */
  type Terms = (int, bool) -> (Comp, real, real)

  function TermsOf(src: Sources): Terms {
    (day, recent) => (Distribution(src, day, recent), src.Rights(day).0, src.Rights(day).1)
  }

  /** Whatever scales prices does so by the theoretical ex-price of these terms. */
  ghost predicate PricedBy(j: Judge, terms: Terms) {
    forall day: int, close: real, recent: bool :: PricedAt(j, terms, day, close, recent)
  }

  ghost predicate PricedAt(j: Judge, terms: Terms, day: int, close: real, recent: bool) {
    var (v, price, ratio) := terms(day, recent);
    j.effect(day, close, recent).Scale? ==> j.effect(day, close, recent) == Priced(close, v, price, ratio)
  }

  /** For every set of source tables: accepted distributions and unblocked rights, priced at the previous close. */
  lemma SourcesArePriced(src: Sources)
    ensures PricedBy(JudgeOf(src), TermsOf(src))
  {
    forall day: int, close: real, recent: bool
      ensures PricedAt(JudgeOf(src), TermsOf(src), day, close, recent)
    {
      if EffectOf(src, day, close, recent).Scale? {
        ScalingNeedsAcceptance(src, day, close, recent);
      }
    }
  }

  /** Across an ex-date: in the written rows, the close before it, times what one share becomes, is the theoretical
      ex-worth of that holding (the close less the cash plus the price of the rights) at the adjustment of the row after. */
  lemma AdjustedCloseIsExPrice(raw: seq<Bar>, src: Sources, rows: seq<(Bar, real)>, i: nat, k: nat)
    requires Sorted(raw) && AdjustedTail(raw, Events(raw, JudgeOf(src)), rows)
    requires OnlyExDate(raw, Events(raw, JudgeOf(src)), i, k) && |raw| - |rows| <= i
    ensures ContinuesAtExPrice(raw, JudgeOf(src), TermsOf(src), rows, i, k)
  {
    SourcesArePriced(src);
    FactorsAreExPrice(raw, JudgeOf(src), TermsOf(src), i, k);
    RowsOfTwoBars(raw, Events(raw, JudgeOf(src)), rows, i);
  }

  ghost predicate ContinuesAtExPrice(raw: seq<Bar>, j: Judge, terms: Terms, rows: seq<(Bar, real)>, i: nat, k: nat)
    requires |rows| <= |raw| && |raw| - |rows| <= i && i + 1 < |raw| && k < |Events(raw, j)|
  {
    var day, cut := Events(raw, j)[k].day, |raw| - |rows|;
    var (v, price, ratio) := terms(day, LastDay(raw) - day <= PROVISIONAL_DAYS);
    Mul(rows[i - cut].0.close, Shares(v, ratio)) == Mul(ExWorth(raw[i].close, v, price, ratio), rows[i + 1 - cut].1)
  }

  lemma RowsOfTwoBars(raw: seq<Bar>, es: seq<Event>, rows: seq<(Bar, real)>, i: nat)
    requires AdjustedTail(raw, es, rows) && |raw| - |rows| <= i && i + 1 < |raw|
    ensures var cut := |raw| - |rows|;
            && rows[i - cut].0.close == Mul(raw[i].close, Product(es, raw[i].day))
            && rows[i + 1 - cut].1 == Product(es, raw[i + 1].day)
  {
    var cut := |raw| - |rows|;
    assert IsRowOf(raw, es, rows, i - cut) && IsRowOf(raw, es, rows, i + 1 - cut);
  }

  /** The same in terms of factors, for bars that are cut off as well. */
  lemma FactorsAreExPrice(raw: seq<Bar>, j: Judge, terms: Terms, i: nat, k: nat)
    requires Sorted(raw) && PricedBy(j, terms) && OnlyExDate(raw, Events(raw, j), i, k)
    ensures var day := Events(raw, j)[k].day;
            var (v, price, ratio) := terms(day, LastDay(raw) - day <= PROVISIONAL_DAYS);
            Mul(Mul(raw[i].close, FactorAt(raw, j, raw[i].day)), Shares(v, ratio))
            == Mul(ExWorth(raw[i].close, v, price, ratio), FactorAt(raw, j, raw[i + 1].day))
  {
    var es, close := Events(raw, j), raw[i].close;
    var day := es[k].day;
    var recent := LastDay(raw) - day <= PROVISIONAL_DAYS;
    var (v, price, ratio) := terms(day, recent);
    PrevCloseIs(raw, i, day);
    assert PricedAt(j, terms, day, close, recent);
    PricedContinuity(raw, es, i, k, v, price, ratio);
  }

  lemma PricedContinuity(raw: seq<Bar>, es: seq<Event>, i: nat, k: nat, v: Comp, price: real, ratio: real)
    requires OnlyExDate(raw, es, i, k) && es[k].effect == Priced(raw[i].close, v, price, ratio)
    ensures Mul(Mul(raw[i].close, Product(es, raw[i].day)), Shares(v, ratio))
            == Mul(ExWorth(raw[i].close, v, price, ratio), Product(es, raw[i + 1].day))
  {
    AcceptedFactorIsExPrice(raw[i].close, v, price, ratio);
    ExDateContinuity(raw, es, i, k, Shares(v, ratio), ExWorth(raw[i].close, v, price, ratio));
  }

  lemma OneStep(es: seq<Event>, d: int, e: int, k: nat)
    requires k < |es| && d < es[k].day <= e && es[k].effect.Scale?
    requires forall n :: 0 <= n < |es| && n != k && d < es[n].day <= e ==> !es[n].effect.Scale?
    ensures Product(es, d) == Mul(es[k].effect.factor, Product(es, e))
  {
    Telescope(es, d, e);
    BetweenOnlyOne(es, d, e, k);
  }

  lemma Rescale(close: real, f: real, g: real, share: real)
    ensures Mul(Mul(close, Mul(f, g)), share) == Mul(Mul(f, Mul(close, share)), g)
  {
    Associates(close, f, g);
    Associates(Mul(f, close), g, share);
    Associates(f, close, share);
    Associates(Mul(f, close), share, g);
  }

  lemma Associates(x: real, y: real, z: real)
    ensures Mul(x, Mul(y, z)) == Mul(Mul(x, y), z) && Mul(x, y) == Mul(y, x) && Mul(y, z) == Mul(z, y)
  {
  }

  lemma {:induction false} PrevCloseIs(raw: seq<Bar>, i: nat, day: int)
    requires Sorted(raw) && i < |raw| && raw[i].day < day && (i + 1 < |raw| ==> day <= raw[i + 1].day)
    ensures PrevClose(raw, day) == Some(raw[i].close)
  {
    if i + 1 < |raw| {
      PrevCloseIs(raw[..|raw| - 1], i, day);
    }
  }

  // ---------------------------------------------------------------- re-anchoring

  lemma {:induction false} PrevCloseOfExtension(base: seq<Bar>, later: seq<Bar>, day: int)
    requires forall i :: 0 <= i < |later| ==> day <= later[i].day
    ensures PrevClose(base + later, day) == PrevClose(base, day)
  {
    if later == [] {
      assert base + later == base;
    } else {
      var n := |later| - 1;
      assert (base + later)[..|base| + n] == base + later[..n];
      PrevCloseOfExtension(base, later[..n], day);
    }
  }

  /** Appending bars keeps the effect of every old ex-date, or turns a provisional one into a barrier. */
  lemma OldEffectsAfterAppend(base: seq<Bar>, later: seq<Bar>, j: Judge, day: int)
    requires Lawful(j) && base != [] && day <= LastDay(base) <= LastDay(base + later)
    requires forall i :: 0 <= i < |later| ==> LastDay(base) < later[i].day
    ensures EventOn(base + later, j, day) == EventOn(base, j, day) || EventOn(base + later, j, day).Barrier?
    ensures EventOn(base, j, day).Barrier? ==> EventOn(base + later, j, day).Barrier?
  {
    PrevCloseOfExtension(base, later, day);
    if PrevClose(base, day).Some? {
      var close := PrevClose(base, day).value;
      var recent, recent' := LastDay(base) - day <= PROVISIONAL_DAYS, LastDay(base + later) - day <= PROVISIONAL_DAYS;
      assert LawfulAt(j, day, close, recent) && LawfulAt(j, day, close, recent');
    }
  }

  /** `es'` judges the same days as `es`; up to `last` it agrees, or blocks; `es` knows nothing later. */
  ghost predicate Ages(es: seq<Event>, es': seq<Event>, last: int) {
    && |es| == |es'|
    && forall i :: 0 <= i < |es| ==>
         && es[i].day == es'[i].day
         && (es[i].day <= last ==> es[i].effect == es'[i].effect || es'[i].effect.Barrier?)
         && (es[i].effect.Barrier? ==> es'[i].effect.Barrier?)
         && (es[i].day > last ==> es[i].effect.Nothing?)
  }

  /** Where no blocked event lies after, the old factors are rescaled by one constant. */
  lemma {:induction false} ProductsAfterAgeing(es: seq<Event>, es': seq<Event>, last: int, d: int)
    requires Ages(es, es', last) && d <= last && Uncrossed(es', d)
    ensures Product(es', d) == Mul(Product(es', last), Product(es, d))
  {
    if es != [] {
      var n := |es| - 1;
      ProductsAfterAgeing(es[..n], es'[..n], last, d);
      StepAfterAgeing(Product(es'[..n], d), Product(es'[..n], last), Product(es[..n], d), es[n], es'[n], last, d);
    }
  }

  /** Up to `last` a surviving event acts on `d` as it did; a later one acts on `d` as on `last`. */
  lemma StepAfterAgeing(p: real, k: real, q: real, e: Event, e': Event, last: int, d: int)
    requires p == Mul(k, q) && e.day == e'.day && d <= last && (e'.effect.Barrier? ==> e'.day <= d)
    requires e.day <= last ==> e.effect == e'.effect || e'.effect.Barrier?
    requires e.effect.Barrier? ==> e'.effect.Barrier?
    requires e.day > last ==> e.effect.Nothing?
    ensures Mul(p, Step(e', d)) == Mul(Mul(k, Step(e', last)), Mul(q, Step(e, d)))
  {
    Regroup(p, k, q, Step(e', d));
    One(k);
    One(q);
  }

  lemma EventsAge(base: seq<Bar>, later: seq<Bar>, j: Judge)
    requires Lawful(j) && Sorted(base + later) && base != []
    requires forall i :: 0 <= i < |later| ==> LastDay(base) < later[i].day
    ensures Ages(Events(base, j), Events(base + later, j), LastDay(base))
  {
    var raw, es, es' := base + later, Events(base, j), Events(base + later, j);
    assert raw[|base| - 1] == base[|base| - 1];
    forall i | 0 <= i < |es| && es[i].day <= LastDay(base)
      ensures es[i].effect == es'[i].effect || es'[i].effect.Barrier?
      ensures es[i].effect.Barrier? ==> es'[i].effect.Barrier?
    {
      OldEffectsAfterAppend(base, later, j, es[i].day);
    }
  }

  lemma AgeingScalesAll(es: seq<Event>, es': seq<Event>, last: int, d: int)
    requires Ages(es, es', last) && d <= last && Uncrossed(es', d)
    ensures Uncrossed(es, d) && Product(es', d) == Mul(Product(es', last), Product(es, d))
  {
    ProductsAfterAgeing(es, es', last, d);
  }

  lemma OldBarsFirst(base: seq<Bar>, later: seq<Bar>, i: nat)
    requires Sorted(base + later) && i < |base|
    ensures base[i].day <= LastDay(base)
  {
    assert (base + later)[i] == base[i] && (base + later)[|base| - 1] == base[|base| - 1];
  }

  /** Re-anchoring.  After later bars arrive, every old bar that is still written was written before,
      and its factor is the old one times one constant: the new factor of the old last day. */
  lemma Reanchoring(base: seq<Bar>, later: seq<Bar>, j: Judge, i: nat)
    requires Lawful(j) && Sorted(base + later) && i < |base|
    requires forall n :: 0 <= n < |later| ==> LastDay(base) < later[n].day
    requires Uncrossed(Events(base + later, j), base[i].day)
    ensures Uncrossed(Events(base, j), base[i].day)
    ensures FactorAt(base + later, j, base[i].day)
            == Mul(FactorAt(base + later, j, LastDay(base)), FactorAt(base, j, base[i].day))
  {
    EventsAge(base, later, j);
    OldBarsFirst(base, later, i);
    AgeingScalesFactors(base, base + later, j, LastDay(base), base[i].day);
  }

  lemma AgeingScalesFactors(base: seq<Bar>, raw: seq<Bar>, j: Judge, last: int, d: int)
    requires Ages(Events(base, j), Events(raw, j), last) && d <= last && Uncrossed(Events(raw, j), d)
    ensures Uncrossed(Events(base, j), d)
    ensures FactorAt(raw, j, d) == Mul(FactorAt(raw, j, last), FactorAt(base, j, d))
  {
    AgeingScalesAll(Events(base, j), Events(raw, j), last, d);
  }

  lemma FactorRatiosSurviveAppend(base: seq<Bar>, later: seq<Bar>, j: Judge, i: nat, m: nat)
    requires Lawful(j) && Sorted(base + later) && i < |base| && m < |base|
    requires forall n :: 0 <= n < |later| ==> LastDay(base) < later[n].day
    requires Uncrossed(Events(base + later, j), base[i].day) && Uncrossed(Events(base + later, j), base[m].day)
    ensures Mul(Mul(base[i].close, FactorAt(base + later, j, base[i].day)), Mul(base[m].close, FactorAt(base, j, base[m].day)))
            == Mul(Mul(base[m].close, FactorAt(base + later, j, base[m].day)), Mul(base[i].close, FactorAt(base, j, base[i].day)))
  {
    Reanchoring(base, later, j, i);
    Reanchoring(base, later, j, m);
    var k := FactorAt(base + later, j, LastDay(base));
    CrossRatio(k, base[i].close, FactorAt(base, j, base[i].day), base[m].close, FactorAt(base, j, base[m].day));
  }

  /** Hence no adjusted return between two old bars changes when history grows: for the rows written before and after,
      the closes of any two old bars that are still written are in the same ratio. */
  lemma ReturnsSurviveAppend(base: seq<Bar>, later: seq<Bar>, j: Judge, i: nat, m: nat,
                             rows: seq<(Bar, real)>, rows': seq<(Bar, real)>)
    requires Lawful(j) && Sorted(base + later) && i < |base| && m < |base|
    requires forall n :: 0 <= n < |later| ==> LastDay(base) < later[n].day
    requires AdjustedTail(base, Events(base, j), rows) && AdjustedTail(base + later, Events(base + later, j), rows')
    requires var cut' := |base + later| - |rows'|; cut' <= i && cut' <= m
    ensures var cut, cut' := |base| - |rows|, |base + later| - |rows'|;
            && cut <= i && cut <= m
            && Mul(rows'[i - cut'].0.close, rows[m - cut].0.close) == Mul(rows'[m - cut'].0.close, rows[i - cut].0.close)
  {
    var raw := base + later;
    var cut' := |raw| - |rows'|;
    assert raw[i] == base[i] && raw[m] == base[m];
    Reanchoring(base, later, j, i);
    Reanchoring(base, later, j, m);
    var cut := |base| - |rows|;
    assert IsRowOf(base, Events(base, j), rows, i - cut) && IsRowOf(base, Events(base, j), rows, m - cut);
    assert IsRowOf(raw, Events(raw, j), rows', i - cut') && IsRowOf(raw, Events(raw, j), rows', m - cut');
    FactorRatiosSurviveAppend(base, later, j, i, m);
  }

  lemma CrossRatio(k: real, a: real, f: real, b: real, g: real)
    ensures Mul(Mul(a, Mul(k, f)), Mul(b, g)) == Mul(Mul(b, Mul(k, g)), Mul(a, f))
  {
    Associates(a, k, f);
    Associates(b, k, g);
    Associates(k, a, f);
    Associates(k, b, g);
    Associates(k, Mul(a, f), Mul(b, g));
    Associates(k, Mul(b, g), Mul(a, f));
  }
}
