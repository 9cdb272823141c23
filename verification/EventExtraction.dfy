/** From supplier rows to ex-date tables: `_group` and `rights_events` of scripts/derive/build_qfq.py. */
module EventExtraction {
  import opened Wrappers
  import opened Dividends
  import Factors

  // ---------------------------------------------------------------- dividend rows

  function Pow10(e: int): (p: real)
    ensures p > 0.0
    decreases if e < 0 then -e else e
  {
    if e == 0 then 1.0 else if e > 0 then 10.0 * Pow10(e - 1) else Pow10(e + 1) / 10.0
  }

  /** A decimal number as it is printed: 5 and 5.0 have one value and two forms. */
  datatype Decimal = Decimal(digits: int, exponent: int)
  {
    function Value(): real { digits as real * Pow10(exponent) }
  }

  /** `x or Decimal(0)`: a missing amount and every form of zero become the plain 0. */
  function OrZero(x: Option<Decimal>): Decimal {
    if x.None? || x.value.digits == 0 then Decimal(0, 0) else x.value
  }

  /** One supplier row: its amounts and what makes it unusable ("" for nothing). */
  datatype Stated = Stated(day: int, cash: Option<Decimal>, bonus: Option<Decimal>, cap: Option<Decimal>, blocker: string)
  {
    /** The printed amounts, by which rows are compared. */
    function Print(): (Decimal, Decimal, Decimal) {
      (OrZero(cash), OrZero(bonus), OrZero(cap))
    }

    function Amounts(): Comp {
      Comp(OrZero(cash).Value(), OrZero(bonus).Value(), OrZero(cap).Value())
    }
  }

  function PlanRows(rows: seq<Stated>, day: int): seq<Stated> {
    if rows == [] then []
    else
      var r := rows[|rows| - 1];
      var earlier := PlanRows(rows[..|rows| - 1], day);
      if r.day != day || r.blocker != "" || Printed(earlier, r.Print()) then earlier else earlier + [r]
  }

  predicate Printed(rows: seq<Stated>, form: (Decimal, Decimal, Decimal)) {
    exists i :: 0 <= i < |rows| && rows[i].Print() == form
  }

  function Comps(rows: seq<Stated>): seq<Comp> {
    seq(|rows|, i requires 0 <= i < |rows| => rows[i].Amounts())
  }

  function BlockersOn(rows: seq<Stated>, day: int): set<string> {
    set r | r in rows && r.day == day && r.blocker != "" :: r.blocker
  }

  /** A day's slot: its plans without repeated prints, in order of first appearance, and its blockers. */
  function SlotOn(rows: seq<Stated>, day: int): Slot {
    Slot(Comps(PlanRows(rows, day)), BlockersOn(rows, day))
  }

  predicate StatedOn(rows: seq<Stated>, day: int) {
    exists i :: 0 <= i < |rows| && rows[i].day == day
  }

  method Group(rows: seq<Stated>) returns (slots: map<int, Slot>)
    ensures forall day :: day in slots <==> StatedOn(rows, day)
    ensures forall day :: day in slots ==> slots[day] == SlotOn(rows, day)
  {
    var kept: map<int, seq<Stated>>, blockers: map<int, set<string>> := map[], map[];
    for n := 0 to |rows|
      invariant kept.Keys == blockers.Keys
      invariant forall day :: day in kept <==> StatedOn(rows[..n], day)
      invariant forall day :: day in kept ==> kept[day] == PlanRows(rows[..n], day)
                                              && blockers[day] == BlockersOn(rows[..n], day)
    {
      var r := rows[n];
      OneMoreRow(rows, n);
      if r.day !in kept {
        NothingStated(rows[..n], r.day);
        kept, blockers := kept[r.day := []], blockers[r.day := {}];
      }
      if r.blocker != "" {
        blockers := blockers[r.day := blockers[r.day] + {r.blocker}];
      } else if !Printed(kept[r.day], r.Print()) {
        kept := kept[r.day := kept[r.day] + [r]];
      }
    }
    assert rows[..|rows|] == rows;
    slots := map day | day in kept :: Slot(Comps(kept[day]), blockers[day]);
  }

  lemma OneMoreRow(rows: seq<Stated>, n: nat)
    requires n < |rows|
    ensures rows[..n + 1][..n] == rows[..n]
    ensures forall day :: StatedOn(rows[..n + 1], day) <==> StatedOn(rows[..n], day) || day == rows[n].day
    ensures forall day :: BlockersOn(rows[..n + 1], day)
                          == BlockersOn(rows[..n], day)
                             + if rows[n].day == day && rows[n].blocker != "" then {rows[n].blocker} else {}
  {
    var next := rows[..n + 1];
    assert next == rows[..n] + [rows[n]];
    forall day
      ensures StatedOn(next, day) <==> StatedOn(rows[..n], day) || day == rows[n].day
    {
      assert next[n] == rows[n];
      assert forall i :: 0 <= i < n ==> next[i] == rows[..n][i];
    }
  }

  lemma {:induction false} NothingStated(rows: seq<Stated>, day: int)
    requires !StatedOn(rows, day)
    ensures PlanRows(rows, day) == [] && BlockersOn(rows, day) == {}
  {
    if rows != [] {
      var n := |rows| - 1;
      assert rows[n].day != day;
      NothingStated(rows[..n], day);
      assert rows == rows[..n] + [rows[n]];
    }
  }

  /** A day's slot depends on that day's rows only: rows of other days can be dropped. */
  function OfDay(rows: seq<Stated>, day: int): seq<Stated> {
    if rows == [] then []
    else OfDay(rows[..|rows| - 1], day) + if rows[|rows| - 1].day == day then [rows[|rows| - 1]] else []
  }

  lemma {:induction false} SlotIsLocal(rows: seq<Stated>, day: int)
    ensures PlanRows(OfDay(rows, day), day) == PlanRows(rows, day)
    ensures BlockersOn(OfDay(rows, day), day) == BlockersOn(rows, day)
  {
    if rows != [] {
      var n := |rows| - 1;
      SlotIsLocal(rows[..n], day);
      var earlier := OfDay(rows[..n], day);
      assert rows == rows[..n + 1];
      OneMoreRow(rows, n);
      if rows[n].day == day {
        var own := earlier + [rows[n]];
        assert own[..|earlier|] == earlier && own[..|earlier| + 1] == own;
        OneMoreRow(own, |earlier|);
        assert OfDay(rows, day) == own;
      } else {
        assert earlier + [] == earlier;
      }
    }
  }

  /** Each usable print of the day is counted exactly once. */
  lemma {:induction false} EachPrintOnce(rows: seq<Stated>, day: int, r: Stated)
    requires r in rows && r.day == day && r.blocker == ""
    ensures Printed(PlanRows(rows, day), r.Print())
    ensures forall i, j :: 0 <= i < j < |PlanRows(rows, day)| ==> PlanRows(rows, day)[i].Print() != PlanRows(rows, day)[j].Print()
  {
    PrintsDiffer(rows, day);
    PrintFound(rows, day, r);
  }

  lemma {:induction false} PrintsDiffer(rows: seq<Stated>, day: int)
    ensures forall i, j :: 0 <= i < j < |PlanRows(rows, day)| ==> PlanRows(rows, day)[i].Print() != PlanRows(rows, day)[j].Print()
  {
    if rows != [] {
      PrintsDiffer(rows[..|rows| - 1], day);
    }
  }

  lemma {:induction false} PrintFound(rows: seq<Stated>, day: int, r: Stated)
    requires r in rows && r.day == day && r.blocker == ""
    ensures Printed(PlanRows(rows, day), r.Print())
  {
    var n := |rows| - 1;
    var earlier := PlanRows(rows[..n], day);
    if r in rows[..n] {
      PrintFound(rows[..n], day, r);
      var i :| 0 <= i < |earlier| && earlier[i].Print() == r.Print();
      assert PlanRows(rows, day)[i].Print() == r.Print();
    } else if !Printed(earlier, r.Print()) {
      assert rows[n] == r;
      assert PlanRows(rows, day)[|earlier|] == r;
    }
  }

  /** The number stated for an amount; nothing stated is zero. */
  ghost predicate IsAmount(x: Option<Decimal>, v: real) {
    match x
    case None => v == 0.0
    case Some(d) => v == d.digits as real * Pow10(d.exponent)
  }

  ghost predicate HasAmounts(r: Stated, plan: Comp) {
    IsAmount(r.cash, plan.cash) && IsAmount(r.bonus, plan.bonus) && IsAmount(r.cap, plan.cap)
  }

  lemma AmountsAreStated(r: Stated)
    ensures HasAmounts(r, r.Amounts())
  {
    assert forall x: Option<Decimal> :: x.Some? && x.value.digits == 0 ==> x.value.digits as real * Pow10(x.value.exponent) == 0.0;
  }

  /** Some unblocked row of the day states this plan. */
  ghost predicate IsStated(rows: seq<Stated>, day: int, plan: Comp) {
    exists r :: r in rows && r.day == day && r.blocker == "" && HasAmounts(r, plan)
  }

  /** Every plan of a day's slot is stated by some unblocked row of the day, and the slot's blockers are those of the
      blocked rows. */
  lemma PlansAreStated(rows: seq<Stated>, day: int)
    ensures forall plan :: plan in SlotOn(rows, day).plans ==> IsStated(rows, day, plan)
    ensures forall b :: b in SlotOn(rows, day).blockers <==> b != "" && exists r :: r in rows && r.day == day && r.blocker == b
  {
    PlanRowsAreUsable(rows, day);
    var kept := PlanRows(rows, day);
    forall plan | plan in Comps(kept)
      ensures IsStated(rows, day, plan)
    {
      var i :| 0 <= i < |kept| && Comps(kept)[i] == plan;
      AmountsAreStated(kept[i]);
      assert kept[i] in rows && HasAmounts(kept[i], plan);
    }
  }

  /** Rows of one day that state equal amounts print them alike. */
  ghost predicate PrintsAgree(rows: seq<Stated>, day: int) {
    forall r, t | r in rows && t in rows && r.day == t.day == day && r.blocker == t.blocker == "" ::
      r.Amounts() == t.Amounts() ==> r.Print() == t.Print()
  }

  ghost predicate ValuesDiffer(plans: seq<Comp>) {
    forall i, j :: 0 <= i < j < |plans| ==> plans[i] != plans[j]
  }

  lemma {:induction false} PlanRowsAreUsable(rows: seq<Stated>, day: int)
    ensures forall i :: 0 <= i < |PlanRows(rows, day)| ==>
              var r := PlanRows(rows, day)[i]; r in rows && r.day == day && r.blocker == ""
  {
    if rows != [] {
      PlanRowsAreUsable(rows[..|rows| - 1], day);
    }
  }

  /** Rows are compared as printed, so identical plans are dropped, and no plan is paid twice, if and only if equal
      amounts of the day are printed alike. */
  lemma NoPlanTwiceIffPrintsAgree(rows: seq<Stated>, day: int)
    ensures ValuesDiffer(SlotOn(rows, day).plans) <==> PrintsAgree(rows, day)
  {
    var kept := PlanRows(rows, day);
    PrintsDiffer(rows, day);
    PlanRowsAreUsable(rows, day);
    if ValuesDiffer(Comps(kept)) {
      forall r, t | r in rows && t in rows && r.day == t.day == day && r.blocker == t.blocker == ""
                    && r.Amounts() == t.Amounts()
        ensures r.Print() == t.Print()
      {
        PrintFound(rows, day, r);
        PrintFound(rows, day, t);
        var i :| 0 <= i < |kept| && kept[i].Print() == r.Print();
        var j :| 0 <= j < |kept| && kept[j].Print() == t.Print();
        assert Comps(kept)[i] == r.Amounts() && Comps(kept)[j] == t.Amounts();
        assert i == j;
      }
    }
    if PrintsAgree(rows, day) {
      forall i, j | 0 <= i < j < |kept|
        ensures Comps(kept)[i] != Comps(kept)[j]
      {
        assert kept[i].Print() != kept[j].Print();
      }
    }
  }

  /** They need not be: one dividend printed as 5 and as 5.0 is paid twice. */
  lemma SamePlanPrintedTwiceCountsTwice()
    ensures exists rows: seq<Stated> ::
              && |rows| == 2 && rows[0].Amounts() == rows[1].Amounts() && rows[0].day == rows[1].day == 0
              && Sum(SlotOn(rows, 0).plans).cash == 2.0 * rows[0].Amounts().cash > 0.0
  {
    var comp := Comp(5.0, 0.0, 0.0);
    var a := Stated(0, Some(Decimal(5, 0)), None, None, "");
    var b := Stated(0, Some(Decimal(50, -1)), None, None, "");
    assert Pow10(0) == 1.0 && Pow10(-1) == 0.1;
    assert a.Amounts() == b.Amounts() == comp && a.Print() != b.Print();
    var rows := [a, b];
    assert rows[..1] == [a] && [a][..0] == [];
    assert [] + [a] == [a] && [a] + [b] == rows;
    assert PlanRows([a], 0) == [a];
    assert PlanRows(rows, 0) == rows;
    assert Comps(rows) == [comp, comp];
    assert [comp, comp][1..] == [comp];
    SumOfOne(comp);
  }

  // ---------------------------------------------------------------- rights issues

  datatype RightsRecord = RightsRecord(day: Option<int>, actual: Option<real>, refunded: bool,
                                       price: Option<real>, ratio: Option<real>)

  const PRICE_TOL: real := 0.001
  const RATIO_TOL: real := 0.01

  /** A refund date and no shares placed: a failed issue. */
  predicate FailedIssue(r: RightsRecord) {
    r.refunded && !(r.actual.Some? && r.actual.value > 0.0)
  }

  predicate On(r: RightsRecord, day: int) {
    r.day == Some(day) && !FailedIssue(r)
  }

  predicate Priced(r: RightsRecord) {
    r.price.Some? && r.ratio.Some? && r.price.value > 0.0 && r.ratio.value > 0.0
  }

  predicate AnyOn(records: seq<RightsRecord>, day: int) {
    exists i :: 0 <= i < |records| && On(records[i], day)
  }

  predicate UnpricedOn(records: seq<RightsRecord>, day: int) {
    exists i :: 0 <= i < |records| && On(records[i], day) && !Priced(records[i])
  }

  /** The different price-ratio pairs of a day, in order of first appearance. */
  function PairsOn(records: seq<RightsRecord>, day: int): seq<(real, real)> {
    if records == [] then []
    else
      var r := records[|records| - 1];
      var earlier := PairsOn(records[..|records| - 1], day);
      if On(r, day) && Priced(r) && (r.price.value, r.ratio.value) !in earlier
      then earlier + [(r.price.value, r.ratio.value)] else earlier
  }

  predicate Confirms(seen: set<(Option<real>, real)>, price: real, ratio: real) {
    exists x :: x in seen && x.0.Some? && -PRICE_TOL <= x.0.value - price <= PRICE_TOL
                && -RATIO_TOL <= x.1 - ratio <= RATIO_TOL
  }

  type TdxRights = map<int, set<(Option<real>, real)>>

  function FirstPass(records: seq<RightsRecord>, s1: set<int>, day: int): Factors.RightsSlot {
    Factors.RightsSlot(PairsOn(records, day),
                       (if day in s1 then {"s1_unresolved_rights_event"} else {})
                       + (if UnpricedOn(records, day) then {"cninfo_price_or_ratio_missing"} else {}))
  }

  function Checked(slot: Factors.RightsSlot, seen: set<(Option<real>, real)>): Factors.RightsSlot {
    var several := if |slot.rows| > 1 then {"cninfo_multiple_plans_same_day"} else {};
    var disagree := if seen != {} && slot.rows != [] && !Confirms(seen, slot.rows[0].0, slot.rows[0].1)
                    then {"cninfo_tdx_rights_disagree"} else {};
    slot.(blockers := slot.blockers + several + disagree)
  }

  function Seen(tdx: TdxRights, day: int): set<(Option<real>, real)> {
    if day in tdx then tdx[day] else {}
  }

  function RightsOn(records: seq<RightsRecord>, s1: set<int>, tdx: TdxRights, day: int): Factors.RightsSlot {
    if AnyOn(records, day) then Checked(FirstPass(records, s1, day), Seen(tdx, day))
    else if day in tdx then Factors.RightsSlot([], {"tdx_rights_without_cninfo"})
    else Factors.RightsSlot([], {"s1_unresolved_rights_event"})
  }

  /** `rights_events`: one pass over the records, then the checks, then the days known only to TDX or S1. */
  method RightsEvents(records: seq<RightsRecord>, s1: set<int>, tdx: TdxRights) returns (out: map<int, Factors.RightsSlot>)
    ensures forall day :: day in out <==> AnyOn(records, day) || day in tdx || day in s1
    ensures forall day :: day in out ==> out[day] == RightsOn(records, s1, tdx, day)
  {
    var slots := CollectRights(records, s1);
    out := map day | day in slots :: Checked(slots[day], Seen(tdx, day));
    out := out + map day | day in tdx && day !in out :: Factors.RightsSlot([], {"tdx_rights_without_cninfo"});
    out := out + map day | day in s1 && day !in out :: Factors.RightsSlot([], {"s1_unresolved_rights_event"});
  }

  method CollectRights(records: seq<RightsRecord>, s1: set<int>) returns (slots: map<int, Factors.RightsSlot>)
    ensures forall day :: day in slots <==> AnyOn(records, day)
    ensures forall day :: day in slots ==> slots[day] == FirstPass(records, s1, day)
  {
    slots := map[];
    for n := 0 to |records|
      invariant forall day :: day in slots <==> AnyOn(records[..n], day)
      invariant forall day :: day in slots ==> slots[day] == FirstPass(records[..n], s1, day)
    {
      var r := records[n];
      OneMoreRecord(records, n);
      if r.day.None? || FailedIssue(r) {
        continue;
      }
      var day := r.day.value;
      if day !in slots {
        NoRights(records[..n], day);
        slots := slots[day := Factors.RightsSlot([], {})];
      }
      var slot := slots[day];
      if day in s1 {
        slot := slot.(blockers := slot.blockers + {"s1_unresolved_rights_event"});
      }
      if !Priced(r) {
        slot := slot.(blockers := slot.blockers + {"cninfo_price_or_ratio_missing"});
      } else if (r.price.value, r.ratio.value) !in slot.rows {
        slot := slot.(rows := slot.rows + [(r.price.value, r.ratio.value)]);
      }
      slots := slots[day := slot];
    }
    assert records[..|records|] == records;
  }

  lemma OneMoreRecord(records: seq<RightsRecord>, n: nat)
    requires n < |records|
    ensures records[..n + 1][..n] == records[..n]
    ensures forall day :: AnyOn(records[..n + 1], day) <==> AnyOn(records[..n], day) || On(records[n], day)
    ensures forall day :: UnpricedOn(records[..n + 1], day)
                          <==> UnpricedOn(records[..n], day) || (On(records[n], day) && !Priced(records[n]))
  {
    var next := records[..n + 1];
    assert next[n] == records[n] && forall i :: 0 <= i < n ==> next[i] == records[..n][i];
  }

  lemma {:induction false} NoRights(records: seq<RightsRecord>, day: int)
    requires !AnyOn(records, day)
    ensures PairsOn(records, day) == [] && !UnpricedOn(records, day)
  {
    if records != [] {
      var n := |records| - 1;
      assert !On(records[n], day);
      forall i | 0 <= i < n
        ensures !On(records[..n][i], day)
      {
        assert records[..n][i] == records[i];
      }
      NoRights(records[..n], day);
    }
  }

  /** Exactly one complete plan, no unresolved S1 event, and TDX, if it states the day at all, confirms the plan. */
  predicate Usable(records: seq<RightsRecord>, s1: set<int>, tdx: TdxRights, day: int) {
    && AnyOn(records, day) && !UnpricedOn(records, day) && day !in s1 && |PairsOn(records, day)| == 1
    && (Seen(tdx, day) != {} ==> Confirms(tdx[day], PairsOn(records, day)[0].0, PairsOn(records, day)[0].1))
  }

  lemma {:induction false} PairsArePriced(records: seq<RightsRecord>, day: int)
    requires AnyOn(records, day) && !UnpricedOn(records, day)
    ensures PairsOn(records, day) != []
    ensures PairsOn(records, day)[0].0 > 0.0 && PairsOn(records, day)[0].1 > 0.0
  {
    var n := |records| - 1;
    var earlier := records[..n];
    assert forall i :: 0 <= i < n ==> earlier[i] == records[i];
    if AnyOn(earlier, day) {
      PairsArePriced(earlier, day);
    } else {
      NoRights(earlier, day);
    }
  }

  /** An issue on the day that took place: no refund date, or shares placed nevertheless. */
  ghost predicate TookPlace(r: RightsRecord, day: int) {
    r.day == Some(day) && (!r.refunded || (r.actual.Some? && r.actual.value > 0.0))
  }

  /** The day's pairs are the different price-ratio pairs of the issues that took place, both stated and positive. */
  lemma {:induction false} PairsExactly(records: seq<RightsRecord>, day: int)
    ensures forall p :: p in PairsOn(records, day) <==>
              p.0 > 0.0 && p.1 > 0.0
              && exists r :: r in records && TookPlace(r, day) && r.price == Some(p.0) && r.ratio == Some(p.1)
    ensures forall i, j :: 0 <= i < j < |PairsOn(records, day)| ==> PairsOn(records, day)[i] != PairsOn(records, day)[j]
  {
    if records != [] {
      var n := |records| - 1;
      PairsExactly(records[..n], day);
      assert records == records[..n] + [records[n]];
      assert forall r :: r in records <==> r in records[..n] || r == records[n];
    }
  }

  /** A day has a rights record if some issue took place, and an incomplete one if its price or ratio is missing or not
      positive. */
  lemma RightsDaysExactly(records: seq<RightsRecord>, day: int)
    ensures AnyOn(records, day) <==> exists r :: r in records && TookPlace(r, day)
    ensures UnpricedOn(records, day) <==>
              exists r :: r in records && TookPlace(r, day)
                          && !(r.price.Some? && r.ratio.Some? && r.price.value > 0.0 && r.ratio.value > 0.0)
  {
    forall r | r in records
      ensures On(r, day) <==> TookPlace(r, day)
      ensures On(r, day) ==> AnyOn(records, day)
    {
      var i :| 0 <= i < |records| && records[i] == r;
      assert On(records[i], day) <==> On(r, day);
    }
    forall i | 0 <= i < |records|
      ensures records[i] in records && (On(records[i], day) <==> TookPlace(records[i], day))
    {
    }
  }

  lemma UsableRightsExactly(records: seq<RightsRecord>, s1: set<int>, tdx: TdxRights, day: int)
    requires AnyOn(records, day) || day in tdx || day in s1
    ensures RightsOn(records, s1, tdx, day).blockers == {} <==> Usable(records, s1, tdx, day)
  {
    var slot := RightsOn(records, s1, tdx, day);
    assert "cninfo_price_or_ratio_missing" in slot.blockers || "s1_unresolved_rights_event" in slot.blockers
           || "cninfo_multiple_plans_same_day" in slot.blockers || "cninfo_tdx_rights_disagree" in slot.blockers
           || "tdx_rights_without_cninfo" in slot.blockers || slot.blockers == {};
    if AnyOn(records, day) && !UnpricedOn(records, day) {
      PairsArePriced(records, day);
    }
  }

  /** The rights table of the sources is the one extracted from these records. */
  ghost predicate HasRights(src: Factors.Sources, records: seq<RightsRecord>, s1: set<int>, tdx: TdxRights) {
    && (forall day :: day in src.rights <==> AnyOn(records, day) || day in tdx || day in s1)
    && (forall day :: day in src.rights ==> src.rights[day] == RightsOn(records, s1, tdx, day))
  }

  /** A day that any of cninfo, TDX or S1 knows as a rights day either is usable, and then its one plan enters the
      factor, or bars every older row.  In particular an unresolved S1 event, and a day only TDX knows, always bar. */
  lemma RightsDayScalesOrBars(src: Factors.Sources, records: seq<RightsRecord>, s1: set<int>, tdx: TdxRights,
                              day: int, close: real, recent: bool)
    requires HasRights(src, records, s1, tdx) && day in src.rights
    ensures !Usable(records, s1, tdx, day) ==> Factors.EffectOf(src, day, close, recent) == Factors.Barrier
    ensures Usable(records, s1, tdx, day) && !(src.Distributes(day) && Dividends.Decide(src.At(day), recent).Blocked?) ==>
              var plan := PairsOn(records, day)[0];
              && plan.0 > 0.0 && plan.1 > 0.0
              && Factors.EffectOf(src, day, close, recent)
                 == Factors.Priced(close, Factors.Distribution(src, day, recent), plan.0, plan.1 / 10.0)
  {
    UsableRightsExactly(records, s1, tdx, day);
    if Usable(records, s1, tdx, day) {
      PairsArePriced(records, day);
    }
  }
}
