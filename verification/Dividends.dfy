/** Cross-checking one ex-date between four sources: scripts/derive/build_qfq.py.

    Amounts are per 10 shares.  Sources are compared with a tolerance, which is
    not transitive; the lemmas say what survives of "all usable sources agree". */
module Dividends {
  import opened Wrappers

  const TOL: real := 0.0001

  datatype Comp = Comp(cash: real, bonus: real, cap: real)
  {
    function Stock(): real { bonus + cap }

    predicate NonNegative() { cash >= 0.0 && bonus >= 0.0 && cap >= 0.0 }
  }

  /** What one source states for one day: its distinct plans and what makes it unusable. */
  datatype Slot = Slot(plans: seq<Comp>, blockers: set<string>)

  function Sum(plans: seq<Comp>): Comp {
    if plans == [] then Comp(0.0, 0.0, 0.0)
    else
      var rest := Sum(plans[1..]);
      Comp(plans[0].cash + rest.cash, plans[0].bonus + rest.bonus, plans[0].cap + rest.cap)
  }

  lemma SumOfOne(plan: Comp)
    ensures Sum([plan]) == plan
  {
    assert [plan][1..] == [];
  }

  /** The sum of no plan is nothing, of one plan that plan, and of two lists what both come to: these determine it. */
  lemma {:induction false} SumAdds(a: seq<Comp>, b: seq<Comp>)
    ensures Sum([]) == Comp(0.0, 0.0, 0.0) && (|a| == 1 ==> Sum(a) == a[0])
    ensures var x, y := Sum(a), Sum(b);
            Sum(a + b) == Comp(x.cash + y.cash, x.bonus + y.bonus, x.cap + y.cap)
  {
    if a == [] {
      assert a + b == b;
    } else {
      SumAdds(a[1..], b);
      assert (a + b)[1..] == a[1..] + b;
      if |a| == 1 {
        assert a[1..] == [];
      }
    }
  }

  /** Listed in the order in which their names sort. */
  datatype Source = Baostock | Eastmoney | Tdx | Ths

  datatype Day = Day(baostock: Option<Slot>, eastmoney: Option<Slot>, tdx: Option<Slot>, ths: Option<Slot>)
  {
    function Stated(s: Source): Option<Slot> {
      match s
      case Baostock => baostock
      case Eastmoney => eastmoney
      case Tdx => tdx
      case Ths => ths
    }

    predicate Usable(s: Source) {
      Stated(s).Some? && Stated(s).value.plans != [] && Stated(s).value.blockers == {}
    }

    function Value(s: Source): Comp
      requires Usable(s)
    {
      Sum(Stated(s).value.plans)
    }

    predicate OnlySeen(s: Source) {
      Stated(s).Some? && forall o: Source :: o != s ==> Stated(o).None?
    }

    function UsableFrom(s: Source): seq<Source> {
      if Usable(s) then [s] else []
    }

    /** The usable sources, sorted by name. */
    function Names(): seq<Source> {
      UsableFrom(Baostock) + UsableFrom(Eastmoney) + UsableFrom(Tdx) + UsableFrom(Ths)
    }
  }

  predicate Near(x: real, y: real) {
    -TOL <= x - y <= TOL
  }

  predicate Agree(a: Comp, b: Comp) {
    Near(a.cash, b.cash) && Near(a.Stock(), b.Stock())
  }

  datatype Basis = AllAgree | MultiPlan | Provisional

  datatype Decision = Accepted(value: Comp, basis: Basis) | Ignored | Blocked

  /** THS lists several plans, TDX confirms their total, and every other source carries one of them. */
  predicate SeveralPlans(d: Day) {
    && d.Usable(Ths) && d.Usable(Tdx) && Agree(d.Value(Ths), d.Value(Tdx))
    && |d.ths.value.plans| > 1
    && (d.Usable(Baostock) || d.Usable(Eastmoney))
    && (d.Usable(Baostock) ==> CarriesOnePlan(d, Baostock))
    && (d.Usable(Eastmoney) ==> CarriesOnePlan(d, Eastmoney))
  }

  predicate CarriesOnePlan(d: Day, s: Source)
    requires d.Usable(Ths) && d.Usable(s)
  {
    exists i :: 0 <= i < |d.ths.value.plans| && Agree(d.Value(s), d.ths.value.plans[i])
  }

  function Decide(d: Day, provisional: bool): Decision {
    var names := d.Names();
    if d.OnlySeen(Tdx) then Ignored
    else if |names| < 2 then
      if provisional && names == [Ths] && d.OnlySeen(Ths) then Accepted(d.Value(Ths), Provisional) else Blocked
    else if AllAgreeWithFirst(d) then
      Accepted(if d.Usable(Ths) then d.Value(Ths) else d.Value(names[0]), AllAgree)
    else if SeveralPlans(d) then Accepted(d.Value(Ths), MultiPlan)
    else Blocked
  }

  predicate AllAgreeWithFirst(d: Day) {
    var names := d.Names();
    forall i :: 1 <= i < |names| ==> Agree(d.Value(names[0]), d.Value(names[i]))
  }

  lemma NamesAreUsable(d: Day, s: Source)
    ensures s in d.Names() <==> d.Usable(s)
    ensures d.Usable(s) && d.Names()[0] != s ==> exists i :: 1 <= i < |d.Names()| && d.Names()[i] == s
  {
    var names := d.Names();
    InFour(d.UsableFrom(Baostock), d.UsableFrom(Eastmoney), d.UsableFrom(Tdx), d.UsableFrom(Ths), s);
    if d.Usable(s) && names[0] != s {
      assert s in d.UsableFrom(s);
      var i :| 0 <= i < |names| && names[i] == s;
    }
  }

  lemma InFour(a: seq<Source>, b: seq<Source>, c: seq<Source>, d: seq<Source>, s: Source)
    ensures s in a + b + c + d <==> s in a || s in b || s in c || s in d
  {
  }

  /** Agreement with the first source bounds every pair by twice the tolerance. */
  lemma AgreementSpread(d: Day, provisional: bool, s: Source, t: Source)
    requires Decide(d, provisional).Accepted? && Decide(d, provisional).basis == AllAgree
    requires d.Usable(s) && d.Usable(t)
    ensures -2.0 * TOL <= d.Value(s).cash - d.Value(t).cash <= 2.0 * TOL
    ensures -2.0 * TOL <= d.Value(s).Stock() - d.Value(t).Stock() <= 2.0 * TOL
  {
    NamesAreUsable(d, s);
    NamesAreUsable(d, t);
  }

  /** The bound is attained: three accepted sources, two of them 2*TOL apart. */
  lemma AgreementSpreadIsTight()
    ensures exists d: Day ::
              && d.Usable(Eastmoney) && d.Usable(Ths)
              && Decide(d, false) == Accepted(d.Value(Ths), AllAgree)
              && d.Value(Ths).cash - d.Value(Eastmoney).cash == 2.0 * TOL
  {
    var d := Day(Some(Slot([Comp(1.0, 0.0, 0.0)], {})), Some(Slot([Comp(1.0 - TOL, 0.0, 0.0)], {})), None,
                 Some(Slot([Comp(1.0 + TOL, 0.0, 0.0)], {})));
    assert d.Names() == [Baostock, Eastmoney, Ths];
    SumOfOne(Comp(1.0, 0.0, 0.0));
    SumOfOne(Comp(1.0 - TOL, 0.0, 0.0));
    SumOfOne(Comp(1.0 + TOL, 0.0, 0.0));
    assert d.Value(Eastmoney) == Comp(1.0 - TOL, 0.0, 0.0);
    assert d.Value(Ths) == Comp(1.0 + TOL, 0.0, 0.0);
    assert Decide(d, false) == Accepted(d.Value(Ths), AllAgree);
  }

  /** Every accepted value that is not provisional is backed by two sources within TOL of it. */
  lemma AcceptedNeedsTwoSources(d: Day, provisional: bool)
    requires Decide(d, provisional).Accepted? && Decide(d, provisional).basis != Provisional
    ensures exists s: Source, t: Source ::
              && s != t && d.Usable(s) && d.Usable(t)
              && d.Value(s) == Decide(d, provisional).value && Agree(d.Value(s), d.Value(t))
  {
    var names := d.Names();
    NamesAreUsable(d, names[0]);
    NamesAreUsable(d, names[1]);
    NamesAreUsable(d, Ths);
    var v := Decide(d, provisional).value;
    if Decide(d, provisional).basis == MultiPlan {
      assert d.Value(Ths) == v && Agree(d.Value(Ths), d.Value(Tdx));
    } else if d.Usable(Ths) {
      assert names[0] != Ths;
      assert d.Value(Ths) == v && Agree(d.Value(Ths), d.Value(names[0]));
    } else {
      assert names[0] != names[1];
      assert d.Value(names[0]) == v && Agree(d.Value(names[0]), d.Value(names[1]));
    }
  }

  /** The provisional rule fires exactly when THS alone has the day, is usable, and the day is recent. */
  lemma ProvisionalExactly(d: Day, provisional: bool)
    ensures Decide(d, provisional).Accepted? && Decide(d, provisional).basis == Provisional
            <==> provisional && d.OnlySeen(Ths) && d.Usable(Ths)
  {
    if d.OnlySeen(Ths) && d.Usable(Ths) {
      assert forall s: Source :: s != Ths ==> d.Stated(s).None?;
      assert d.Stated(Baostock).None? && d.Stated(Eastmoney).None? && d.Stated(Tdx).None?;
      assert d.Names() == [Ths];
      assert d.Stated(Ths).Some?;
      assert !d.OnlySeen(Tdx);
    }
    if d.Names() == [Ths] {
      NamesAreUsable(d, Ths);
    }
  }

  /** Ageing out of the provisional window can only turn an acceptance into a block. */
  lemma AgeingOnlyBlocks(d: Day)
    ensures Decide(d, false) == Decide(d, true)
            || (Decide(d, false).Blocked? && Decide(d, true).Accepted? && Decide(d, true).basis == Provisional)
  {
  }

  /** When THS and Baostock are both usable and disagree, the day is still accepted exactly
      when it is a several-plan day; the module's text says such a disagreement always blocks. */
  lemma ThsBaostockDisagreement(d: Day, provisional: bool)
    requires d.Usable(Ths) && d.Usable(Baostock) && !Agree(d.Value(Baostock), d.Value(Ths))
    ensures Decide(d, provisional).Accepted? <==> SeveralPlans(d)
    ensures Decide(d, provisional).Accepted? ==> Decide(d, provisional) == Accepted(d.Value(Ths), MultiPlan)
  {
    var names := d.Names();
    NamesAreUsable(d, Ths);
    NamesAreUsable(d, Baostock);
    assert names[0] == Baostock;
    assert d.Stated(Ths).Some?;
    assert !d.OnlySeen(Tdx);
  }

  /** A day is accepted as a several-plan day exactly when not all usable sources agree with the first, THS lists more than
      one plan, TDX agrees with their sum, and every usable source of the other two, of which there is one, agrees with
      one of the plans; the value is then the sum of the THS plans. */
  lemma SeveralPlansExactly(d: Day, provisional: bool)
    ensures var first := if d.Usable(Baostock) then Baostock else Eastmoney;
            (exists v :: Decide(d, provisional) == Accepted(v, MultiPlan)) <==>
              && d.Usable(Ths) && d.Usable(Tdx) && d.Usable(first)
              && (exists s: Source :: d.Usable(s) && !Agree(d.Value(first), d.Value(s)))
              && |d.ths.value.plans| > 1 && Agree(Sum(d.ths.value.plans), Sum(d.tdx.value.plans))
              && forall s: Source :: s in {Baostock, Eastmoney} && d.Usable(s) ==>
                   exists i :: 0 <= i < |d.ths.value.plans| && Agree(d.Value(s), d.ths.value.plans[i])
    ensures forall v :: Decide(d, provisional) == Accepted(v, MultiPlan) ==> v == Sum(d.ths.value.plans)
  {
    if d.Usable(Ths) && d.Usable(Tdx) && (d.Usable(Baostock) || d.Usable(Eastmoney)) {
      var first := if d.Usable(Baostock) then Baostock else Eastmoney;
      assert d.Names()[0] == first && d.Stated(Ths).Some? && !d.OnlySeen(Tdx);
      FirstDisagrees(d);
    }
  }

  lemma FirstDisagrees(d: Day)
    requires d.Names() != []
    ensures AllAgreeWithFirst(d) <==>
              forall s: Source :: d.Usable(s) ==> s == d.Names()[0] || Agree(d.Value(d.Names()[0]), d.Value(s))
    ensures d.Usable(d.Names()[0]) && Agree(d.Value(d.Names()[0]), d.Value(d.Names()[0]))
  {
    var names := d.Names();
    NamesAreUsable(d, names[0]);
    forall s: Source | d.Usable(s)
      ensures s == names[0] || exists i :: 1 <= i < |names| && names[i] == s
    {
      NamesAreUsable(d, s);
    }
    forall i | 1 <= i < |names|
      ensures d.Usable(names[i]) && names[i] != names[0]
    {
      NamesAreUsable(d, names[i]);
    }
  }

  /** A day is ignored exactly when TDX alone has it; and accepted by agreement exactly when at least two sources are usable
      and all of them agree with the first, with the sum of the THS plans if THS is usable and of the first otherwise. */
  lemma AllAgreeExactly(d: Day, provisional: bool)
    ensures Decide(d, provisional) == Ignored <==>
              d.tdx.Some? && d.ths.None? && d.baostock.None? && d.eastmoney.None?
    ensures (exists v :: Decide(d, provisional) == Accepted(v, AllAgree)) <==>
              && (exists s: Source, t: Source :: s != t && d.Usable(s) && d.Usable(t))
              && (forall s: Source :: d.Usable(s) ==> s == d.Names()[0] || Agree(d.Value(d.Names()[0]), d.Value(s)))
    ensures forall v :: Decide(d, provisional) == Accepted(v, AllAgree) ==>
              v == if d.Usable(Ths) then Sum(d.ths.value.plans) else d.Value(d.Names()[0])
  {
    OnlyTdxIsSeen(d);
    if d.Names() != [] {
      FirstDisagrees(d);
    }
    TwoUsable(d);
  }

  lemma OnlyTdxIsSeen(d: Day)
    ensures d.OnlySeen(Tdx) <==> d.tdx.Some? && d.ths.None? && d.baostock.None? && d.eastmoney.None?
    ensures d.OnlySeen(Tdx) ==> forall s: Source :: d.Usable(s) ==> s == Tdx
  {
    assert d.Stated(Tdx) == d.tdx && d.Stated(Ths) == d.ths && d.Stated(Baostock) == d.baostock && d.Stated(Eastmoney) == d.eastmoney;
  }

  lemma TwoUsable(d: Day)
    ensures |d.Names()| >= 2 <==> exists s: Source, t: Source :: s != t && d.Usable(s) && d.Usable(t)
    ensures d.Names() == [] <==> forall s: Source :: !d.Usable(s)
  {
    var names := d.Names();
    if |names| >= 2 {
      NamesAreUsable(d, names[0]);
      NamesAreUsable(d, names[1]);
      assert names[0] != names[1];
    }
    forall s: Source
      ensures s in names <==> d.Usable(s)
    {
      NamesAreUsable(d, s);
    }
  }

  lemma ThsBaostockDisagreementCanPass()
    ensures exists d: Day ::
              && d.Usable(Ths) && d.Usable(Baostock) && !Agree(d.Value(Baostock), d.Value(Ths))
              && Decide(d, false).Accepted?
  {
    SpecialDividendDisagrees();
    SpecialDividendIsSeveralPlans();
    ThsBaostockDisagreement(SpecialDividendDay(), false);
  }

  lemma SpecialDividendDisagrees()
    ensures var d := SpecialDividendDay();
            d.Usable(Ths) && d.Usable(Baostock) && !Agree(d.Value(Baostock), d.Value(Ths))
  {
    SpecialDividendValues();
  }

  lemma SpecialDividendIsSeveralPlans()
    ensures SeveralPlans(SpecialDividendDay())
  {
    SpecialDividendValues();
    SpecialDividendCarried();
  }

  /** An ordinary and a special dividend on one day: Baostock carries the first, TDX the total. */
  function SpecialDividendDay(): Day {
    Day(Some(Slot([Comp(3.0, 0.0, 0.0)], {})), None, Some(Slot([Comp(5.0, 0.0, 0.0)], {})),
        Some(Slot([Comp(3.0, 0.0, 0.0), Comp(2.0, 0.0, 0.0)], {})))
  }

  lemma SpecialDividendValues()
    ensures var d := SpecialDividendDay();
            && d.Usable(Ths) && d.Usable(Tdx) && d.Usable(Baostock) && !d.Usable(Eastmoney)
            && d.Value(Ths) == d.Value(Tdx) == Comp(5.0, 0.0, 0.0)
            && d.Value(Baostock) == Comp(3.0, 0.0, 0.0)
  {
    var ordinary, special := Comp(3.0, 0.0, 0.0), Comp(2.0, 0.0, 0.0);
    SumOfOne(special);
    SumOfOne(ordinary);
    SumOfOne(Comp(5.0, 0.0, 0.0));
    assert [ordinary, special][1..] == [special];
    assert Sum([ordinary, special]) == Comp(5.0, 0.0, 0.0);
  }

  lemma SpecialDividendCarried()
    requires SpecialDividendDay().Usable(Ths) && SpecialDividendDay().Usable(Baostock)
    requires SpecialDividendDay().Value(Baostock) == Comp(3.0, 0.0, 0.0)
    ensures CarriesOnePlan(SpecialDividendDay(), Baostock)
  {
    var d := SpecialDividendDay();
    assert d.ths.value.plans[0] == Comp(3.0, 0.0, 0.0);
    assert Agree(d.Value(Baostock), d.ths.value.plans[0]);
  }

  /** The factor of one ex-date: previous close, distribution per 10 shares, rights price and ratio per share. */
  function Denominator(close: real, v: Comp, ratio: real): real {
    close * (1.0 + v.bonus / 10.0 + v.cap / 10.0 + ratio)
  }

  function Numerator(close: real, v: Comp, price: real, ratio: real): real {
    close - v.cash / 10.0 + price * ratio
  }

  function Factor(close: real, v: Comp, price: real, ratio: real): real
    requires Denominator(close, v, ratio) > 0.0
  {
    Numerator(close, v, price, ratio) / Denominator(close, v, ratio)
  }

  /** Taking one agreeing source instead of another moves an accepted factor very little. */
  lemma SourceChoiceMovesFactorLittle(d: Day, provisional: bool, used: Source, other: Source,
                                      close: real, price: real, ratio: real)
    requires Decide(d, provisional).Accepted? && Decide(d, provisional).basis == AllAgree
    requires d.Usable(used) && d.Usable(other)
    requires d.Value(used).NonNegative() && d.Value(other).NonNegative()
    requires close > 0.0 && price >= 0.0 && ratio >= 0.0
    requires Denominator(close, d.Value(used), ratio) > 0.0 && Denominator(close, d.Value(other), ratio) > 0.0
    requires 0.0 < Factor(close, d.Value(used), price, ratio) < 1.5
    ensures var moved := Factor(close, d.Value(other), price, ratio) - Factor(close, d.Value(used), price, ratio);
            var bound := 0.00002 / close + 0.00003;
            -bound <= moved <= bound
  {
    AgreementSpread(d, provisional, used, other);
    FactorShift(close, d.Value(used), d.Value(other), price, ratio);
  }

  lemma FactorShift(close: real, v: Comp, w: Comp, price: real, ratio: real)
    requires v.NonNegative() && w.NonNegative() && close > 0.0 && price >= 0.0 && ratio >= 0.0
    requires -2.0 * TOL <= v.cash - w.cash <= 2.0 * TOL
    requires -2.0 * TOL <= v.Stock() - w.Stock() <= 2.0 * TOL
    requires Denominator(close, v, ratio) > 0.0 && Denominator(close, w, ratio) > 0.0
    requires 0.0 < Factor(close, v, price, ratio) < 1.5
    ensures var bound := 0.00002 / close + 0.00003;
            -bound <= Factor(close, w, price, ratio) - Factor(close, v, price, ratio) <= bound
  {
    var dv := 1.0 + v.bonus / 10.0 + v.cap / 10.0 + ratio;
    var dw := 1.0 + w.bonus / 10.0 + w.cap / 10.0 + ratio;
    var f, g := Factor(close, v, price, ratio), Factor(close, w, price, ratio);
    FactorTimes(close, v, price, ratio, dv);
    FactorTimes(close, w, price, ratio, dw);
    NumeratorShift(close, v, w, price, ratio);
    ScaledShift(f, g, close, dv, dw, Numerator(close, v, price, ratio), Numerator(close, w, price, ratio));
    DivideBound(g - f, close);
  }

  lemma FactorTimes(close: real, v: Comp, price: real, ratio: real, shares: real)
    requires Denominator(close, v, ratio) > 0.0 && shares == 1.0 + v.bonus / 10.0 + v.cap / 10.0 + ratio
    ensures Factor(close, v, price, ratio) * (close * shares) == Numerator(close, v, price, ratio)
  {
    QuotientTimes(Numerator(close, v, price, ratio), Denominator(close, v, ratio));
  }

  lemma NumeratorShift(close: real, v: Comp, w: Comp, price: real, ratio: real)
    requires -2.0 * TOL <= v.cash - w.cash <= 2.0 * TOL
    ensures -0.00002 <= Numerator(close, w, price, ratio) - Numerator(close, v, price, ratio) <= 0.00002
  {
  }

  lemma QuotientTimes(n: real, d: real)
    requires d > 0.0
    ensures (n / d) * d == n
  {
  }

  lemma ScaledShift(f: real, g: real, close: real, dv: real, dw: real, nv: real, nw: real)
    requires close > 0.0 && dw >= 1.0 && 0.0 < f < 1.5
    requires f * (close * dv) == nv && g * (close * dw) == nw
    requires -0.00002 <= nw - nv <= 0.00002 && -0.00002 <= dv - dw <= 0.00002
    ensures -(0.00002 + 0.00003 * close) <= (g - f) * close <= 0.00002 + 0.00003 * close
  {
    var y, shift, bound := (g - f) * close, f * close * (dv - dw), 0.00002 + 0.00003 * close;
    ScaledStep(f * close, close, dv - dw, shift);
    Expand(f, g, close, dv, dw);
    ShrinkBound(y, dw, bound);
  }

  lemma Expand(f: real, g: real, close: real, dv: real, dw: real)
    ensures ((g - f) * close) * dw == g * (close * dw) - f * (close * dv) + f * close * (dv - dw)
  {
    assert ((g - f) * close) * dw == g * (close * dw) - f * (close * dw);
    assert f * close * (dv - dw) == f * (close * dv) - f * (close * dw);
  }

  lemma ShrinkBound(y: real, scale: real, bound: real)
    requires scale >= 1.0 && bound >= 0.0 && -bound <= y * scale <= bound
    ensures -bound <= y <= bound
  {
    assert y >= 0.0 ==> y * (scale - 1.0) >= 0.0;
    assert y <= 0.0 ==> y * (scale - 1.0) <= 0.0;
    assert y * scale == y + y * (scale - 1.0);
  }

  lemma DivideBound(x: real, close: real)
    requires close > 0.0
    requires -(0.00002 + 0.00003 * close) <= x * close <= 0.00002 + 0.00003 * close
    ensures var bound := 0.00002 / close + 0.00003; -bound <= x <= bound
  {
    var bound := 0.00002 / close + 0.00003;
    QuotientTimes(0.00002, close);
    assert bound * close == 0.00002 + 0.00003 * close;
    assert (bound - x) * close >= 0.0 && (bound + x) * close >= 0.0;
  }

  lemma ScaledStep(scale: real, close: real, step: real, moved: real)
    requires 0.0 < scale < 1.5 * close && -0.00002 <= step <= 0.00002 && moved == scale * step
    ensures -0.00003 * close <= moved <= 0.00003 * close
  {
    var above, below := 0.00002 - step, 0.00002 + step;
    assert scale * above >= 0.0;
    assert scale * below >= 0.0;
    assert moved == scale * 0.00002 - scale * above == scale * below - scale * 0.00002;
  }
}
