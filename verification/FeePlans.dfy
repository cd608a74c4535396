/**
 * Fee plans: the discount arithmetic and sum check of `createFeePlan`
 * (apps/api/src/modules/fees/fee.service.ts), the same arithmetic in the web app
 * (apps/web/src/lib/fees.ts), and the plan view (apps/api/src/modules/fees/fee.mapper.ts).
 * Amounts are whole paise; discounts are exact rationals, written as reals.
 */
module FeePlans {
  import opened FeeLedger

  /** A fixed discount is given in paise, perhaps with a fraction; a percentage may be anything. */
  datatype Discount = NoDiscount | Percentage(percent: real) | Fixed(paise: real)

  function RoundHalfUp(x: real): int {
    (x + 0.5).Floor
  }

  /** A discount is applied only when its value is positive. */
  function DiscountPaise(total: int, d: Discount): real {
    match d
    case NoDiscount => 0.0
    case Percentage(p) => if p > 0.0 then total as real * p / 100.0 else 0.0
    case Fixed(v) => if v > 0.0 then v else 0.0
  }

  /** The final amount as the API states it: the discounted total, at least zero, rounded to the paisa. */
  function FinalAmount(total: int, d: Discount): int {
    var exact := total as real - DiscountPaise(total, d);
    if exact < 0.0 then 0 else RoundHalfUp(exact)
  }

  /**
   * It is the whole number of paise nearest to what the discount leaves, the larger of two equally
   * near ones; a discount larger than the total leaves nothing.
   */
  lemma FinalIsNearest(total: int, d: Discount)
    requires total > 0
    ensures d.NoDiscount? || (d.Percentage? && d.percent <= 0.0) || (d.Fixed? && d.paise <= 0.0) ==>
              FinalAmount(total, d) == total
    ensures d.Percentage? && 0.0 < d.percent <= 100.0 ==>
              -50.0 < 100.0 * FinalAmount(total, d) as real - total as real * (100.0 - d.percent) <= 50.0
    ensures d.Fixed? && 0.0 < d.paise <= total as real ==>
              -0.5 < FinalAmount(total, d) as real - (total as real - d.paise) <= 0.5
    ensures (d.Percentage? && d.percent > 100.0) || (d.Fixed? && d.paise > total as real) ==>
              FinalAmount(total, d) == 0
  {
    if d.Percentage? && d.percent > 0.0 {
      WhatIsLeft(total as real, d.percent, total as real * d.percent);
    }
  }

  lemma WhatIsLeft(t: real, v: real, product: real)
    requires t > 0.0 && product == t * v
    ensures t * (100.0 - v) == 100.0 * t - product
    ensures v > 100.0 <==> product > 100.0 * t
  {
    assert t * (100.0 - v) == 100.0 * t - t * v;
    if v > 100.0 {
      assert t * (v - 100.0) > 0.0;
    } else {
      assert t * (100.0 - v) >= 0.0;
    }
  }

  function SumOf(parts: seq<int>): int {
    if parts == [] then 0 else parts[0] + SumOf(parts[1..])
  }

  /** The sums here run over whole lists, one amount after the other. */
  method AddUp(parts: seq<int>) returns (sum: int)
    ensures sum == SumOf(parts)
  {
    sum := 0;
    for i := 0 to |parts|
      invariant sum + SumOf(parts[i..]) == SumOf(parts)
    {
      sum := sum + parts[i];
    }
  }

  datatype PlanResult = Created(final: int) | InvalidInstallmentSum

  /** `createFeePlan` up to the insert. */
  method CreateFeePlan(total: int, d: Discount, parts: seq<int>) returns (r: PlanResult)
    requires total > 0
    ensures r == if SumOf(parts) == FinalAmount(total, d) then Created(FinalAmount(total, d)) else InvalidInstallmentSum
    ensures r.Created? ==> 0 <= r.final <= total
  {
    var final := total as real;
    if (d.Percentage? && d.percent > 0.0) || (d.Fixed? && d.paise > 0.0) {
      var discount := if d.Percentage? then total as real * d.percent / 100.0 else d.paise;
      final := total as real - discount;
      if final < 0.0 {
        final := 0.0;
      }
    }
    var finalAmount := RoundHalfUp(final);
    var sum := AddUp(parts);
    r := if sum == finalAmount then Created(finalAmount) else InvalidInstallmentSum;
  }

  // ---------- The web app's version ----------

  /**
   * `finalAmount` of the web app. It multiplies in doubles, so the discount it takes off is some
   * `p` near the exact one; a fixed discount is then rounded to whole paise by itself.
   */
  function WebFinalAmount(total: int, d: Discount, p: real): int {
    match d
    case NoDiscount => total
    case Percentage(v) => if v > 0.0 then Max0(RoundHalfUp(total as real - p)) else total
    case Fixed(v) => if v > 0.0 then Max0(total - RoundHalfUp(p)) else total
  }

  predicate Within(p: real, exact: real, eps: real) {
    exact - eps <= p <= exact + eps
  }

  /** How far the exact final amount lies above the last half paisa, from 0 to below 1. */
  function AboveHalf(total: int, d: Discount): real {
    var x := total as real - DiscountPaise(total, d) + 0.5;
    x - x.Floor as real
  }

  /**
   * The exact final amount is farther than `eps` from every half paisa, or it is so small that both
   * sides come to zero. At the half paisa itself a percentage rounds up in both programs, but a
   * fixed discount rounds up in the web app and down in the API.
   */
  predicate ClearOfTies(total: int, d: Discount, eps: real) {
    var exact, f := DiscountPaise(total, d), AboveHalf(total, d);
    match d
    case NoDiscount => true
    case Percentage(v) =>
      v <= 0.0 || exact - eps > total as real - 0.5 || (eps <= f && f + eps < 1.0)
    case Fixed(v) =>
      v <= 0.0 || (exact - eps >= total as real - 0.5 && exact > total as real - 0.5) || (eps < f && f + eps <= 1.0)
  }

  /** Web and API agree, however the product comes out within `eps`, exactly when the amount is clear of ties. */
  lemma WebAgrees(total: int, d: Discount, eps: real)
    requires total > 0 && eps >= 0.0
    ensures (forall p :: Within(p, DiscountPaise(total, d), eps) ==>
               WebFinalAmount(total, d, p) == FinalAmount(total, d))
            <==> ClearOfTies(total, d, eps)
  {
    var exact := DiscountPaise(total, d);
    if ClearOfTies(total, d, eps) {
      forall p | Within(p, exact, eps)
        ensures WebFinalAmount(total, d, p) == FinalAmount(total, d)
      {
        AgreesWhenClear(total, d, eps, p);
      }
    } else {
      var p := DiffersAtTie(total, d, eps);
    }
  }

  lemma AgreesWhenClear(total: int, d: Discount, eps: real, p: real)
    requires total > 0 && eps >= 0.0 && ClearOfTies(total, d, eps) && Within(p, DiscountPaise(total, d), eps)
    ensures WebFinalAmount(total, d, p) == FinalAmount(total, d)
  {
  }

  lemma DiffersAtTie(total: int, d: Discount, eps: real) returns (p: real)
    requires total > 0 && eps >= 0.0 && !ClearOfTies(total, d, eps)
    ensures Within(p, DiscountPaise(total, d), eps) && WebFinalAmount(total, d, p) != FinalAmount(total, d)
  {
    var exact := DiscountPaise(total, d);
    p := if WebFinalAmount(total, d, exact + eps) != FinalAmount(total, d) then exact + eps else exact - eps;
  }

  /** A fixed discount of 12.5 paise, which is exact in a double: 187.5 is 188 in the API, but 187 in the web app. */
  lemma FixedTieDisagrees()
    ensures FinalAmount(200, Fixed(12.5)) == 188 && WebFinalAmount(200, Fixed(12.5), 12.5) == 187
  {
    assert RoundHalfUp(187.5) == 188 && RoundHalfUp(12.5) == 13;
  }

  /**
   * 71.4 % of 750 paise is 535.5, and 215 are left in the API. In doubles the product is a little
   * more (535.5000000000001), which leaves 214 in the web app.
   */
  lemma PercentageTieDisagrees(p: real)
    requires 535.5 < p <= 535.6
    ensures FinalAmount(750, Percentage(71.4)) == 215 && WebFinalAmount(750, Percentage(71.4), p) == 214
  {
    assert RoundHalfUp(214.5) == 215;
  }

  /** `splitAmount`: equal shares, the last part takes what is left over. */
  function Split(paise: nat, count: nat): (parts: seq<int>)
    requires count > 0
    ensures |parts| == count
  {
    var base := paise / count;
    seq(count, i requires 0 <= i < count => if i == count - 1 then paise - base * (count - 1) else base)
  }

  lemma {:induction false} SumOfEqual(parts: seq<int>, base: int, last: int)
    requires |parts| > 0 && parts[|parts| - 1] == last
    requires forall i :: 0 <= i < |parts| - 1 ==> parts[i] == base
    ensures SumOf(parts) == base * (|parts| - 1) + last
  {
    if |parts| > 1 {
      SumOfEqual(parts[1..], base, last);
      assert base * (|parts| - 1) == base + base * (|parts| - 2);
    }
  }

  /** The parts add up exactly, and no part is smaller than another by more than the leftover. */
  lemma SplitIsExact(paise: nat, count: nat)
    requires count > 0
    ensures SumOf(Split(paise, count)) == paise
    ensures forall i :: 0 <= i < count ==> 0 <= paise / count <= Split(paise, count)[i] < paise / count + count
  {
    var base := paise / count;
    SumOfEqual(Split(paise, count), base, paise - base * (count - 1));
    assert paise - base * (count - 1) == base + (paise - base * count);
    assert 0 <= paise - base * count < count;
  }

  /**
   * A plan the web app proposes passes the API's sum check exactly when the discounts agree, so it
   * does whatever the product within `eps` exactly when the amount is clear of ties.
   */
  lemma WebPlanIsAccepted(total: int, d: Discount, count: nat, eps: real)
    requires total > 0 && count > 0 && eps >= 0.0
    ensures forall p :: WebFinalAmount(total, d, p) >= 0
    ensures (forall p :: Within(p, DiscountPaise(total, d), eps) ==>
               SumOf(Split(WebFinalAmount(total, d, p), count)) == FinalAmount(total, d))
            <==> ClearOfTies(total, d, eps)
  {
    forall p
      ensures WebFinalAmount(total, d, p) >= 0
      ensures SumOf(Split(WebFinalAmount(total, d, p), count)) == WebFinalAmount(total, d, p)
    {
      SplitIsExact(WebFinalAmount(total, d, p), count);
    }
    WebAgrees(total, d, eps);
  }

  // ---------- The plan view ----------

  function OfPlan(list: seq<Instalment>, p: nat): seq<Instalment> {
    if list == [] then []
    else if list[0].plan == p then [list[0]] + OfPlan(list[1..], p)
    else OfPlan(list[1..], p)
  }

  datatype PlanView = PlanView(final: int, paid: int, waived: int, pending: int, balances: seq<int>)

  function Max0(x: int): int {
    if x < 0 then 0 else x
  }

  /** `toPlanDto`: paid and waived are added up, pending is what remains of the final amount. */
  function ToPlanView(final: int, list: seq<Instalment>): PlanView {
    var paid, waived := Sum(PaidAmount, list), Sum(WaivedRest, list);
    PlanView(final, paid, waived, Max0(final - paid - waived),
             seq(|list|, i requires 0 <= i < |list| => Value(OpenBalance, list[i])))
  }

  lemma {:induction false} SumAppend(m: Measure, a: seq<Instalment>, b: seq<Instalment>)
    ensures Sum(m, a + b) == Sum(m, a) + Sum(m, b)
  {
    if a == [] {
      assert a + b == b;
    } else {
      assert (a + b)[1..] == a[1..] + b;
      SumAppend(m, a[1..], b);
    }
  }

  /** For sound instalments, amount = paid + waived + open balance, also summed. */
  lemma {:induction false} SumsSplit(list: seq<Instalment>)
    requires forall i :: 0 <= i < |list| ==> InstalmentOk(list[i])
    ensures Sum(TotalAmount, list) == Sum(PaidAmount, list) + Sum(WaivedRest, list) + Sum(OpenBalance, list)
    ensures Sum(PaidAmount, list) >= 0 && Sum(WaivedRest, list) >= 0 && Sum(OpenBalance, list) >= 0
  {
    if list != [] {
      SumsSplit(list[1..]);
    }
  }

  lemma {:induction false} OfPlanAppend(a: seq<Instalment>, b: seq<Instalment>, p: nat)
    ensures OfPlan(a + b, p) == OfPlan(a, p) + OfPlan(b, p)
  {
    if a == [] {
      assert a + b == b;
    } else {
      assert (a + b)[1..] == a[1..] + b;
      OfPlanAppend(a[1..], b, p);
    }
  }

  lemma {:induction false} OfPlanAll(list: seq<Instalment>, p: nat)
    ensures (forall i :: 0 <= i < |list| ==> list[i].plan == p) ==> OfPlan(list, p) == list
    ensures (forall i :: 0 <= i < |list| ==> list[i].plan != p) ==> OfPlan(list, p) == []
    ensures forall i :: 0 <= i < |OfPlan(list, p)| ==> OfPlan(list, p)[i] in list && OfPlan(list, p)[i].plan == p
  {
    if list != [] {
      OfPlanAll(list[1..], p);
    }
  }

  /** Replacing an instalment by one of the same plan and amount keeps every plan's total. */
  lemma {:induction false} UpdateKeepsAmount(list: seq<Instalment>, i: nat, x: Instalment, p: nat)
    requires i < |list| && x.plan == list[i].plan && x.amount == list[i].amount
    ensures Sum(TotalAmount, OfPlan(list[i := x], p)) == Sum(TotalAmount, OfPlan(list, p))
  {
    if i == 0 {
      assert list[i := x][1..] == list[1..];
    } else {
      assert list[i := x][1..] == list[1..][i - 1 := x];
      UpdateKeepsAmount(list[1..], i - 1, x, p);
    }
  }

  /** The instalments of every plan add up to its final amount, as checked when it was created. */
  ghost predicate PlansAddUp(s: Ledger) {
    && (forall i :: 0 <= i < |s.instalments| ==> s.instalments[i].plan < |s.plans|)
    && (forall p :: 0 <= p < |s.plans| ==> Sum(TotalAmount, OfPlan(s.instalments, p)) == s.plans[p])
  }

  lemma PlansKept(s: Ledger, x: Action)
    requires Inv(s) && PlansAddUp(s) && Enabled(s, x)
    ensures PlansAddUp(Apply(s, x))
  {
    var t := Apply(s, x);
    forall p: nat | p < |t.plans|
      ensures Sum(TotalAmount, OfPlan(t.instalments, p)) == t.plans[p]
    {
      match x
      case CreatePlan(final, parts) =>
        OfPlanAppend(s.instalments, parts, p);
        SumAppend(TotalAmount, OfPlan(s.instalments, p), OfPlan(parts, p));
        OfPlanAll(parts, p);
        OfPlanAll(s.instalments, p);
      case Commit(id) => UpdateKeepsAmount(s.instalments, id, AfterPayment(s.instalments[id], s.open[id]), p);
      case Waive(id) => UpdateKeepsAmount(s.instalments, id, s.instalments[id].(status := Waived), p);
      case _ =>
    }
  }

  lemma {:induction false} PlansReachable(states: seq<Ledger>, actions: seq<Action>, i: nat)
    requires IsRun(states, actions) && i < |states|
    ensures PlansAddUp(states[i])
  {
    if i > 0 {
      PlansReachable(states, actions, i - 1);
      Reachable(states, actions, i - 1);
      PlansKept(states[i - 1], actions[i - 1]);
    }
  }

  /** The transactions on instalments of plan `p`, added up. */
  function PaidToPlan(transactions: seq<Transaction>, list: seq<Instalment>, p: nat): int {
    if transactions == [] then 0
    else
      var last := transactions[|transactions| - 1];
      PaidToPlan(transactions[..|transactions| - 1], list, p)
      + if last.instalment < |list| && list[last.instalment].plan == p then last.amount else 0
  }

  /** Only which instalment belongs to which plan matters. */
  lemma {:induction false} PaidToPlanSame(transactions: seq<Transaction>, a: seq<Instalment>, b: seq<Instalment>,
                                          p: nat)
    requires forall i :: 0 <= i < |transactions| ==> transactions[i].instalment < |a|
    requires |a| <= |b| && forall i :: 0 <= i < |a| ==> a[i].plan == b[i].plan
    ensures PaidToPlan(transactions, a, p) == PaidToPlan(transactions, b, p)
  {
    if transactions != [] {
      PaidToPlanSame(transactions[..|transactions| - 1], a, b, p);
    }
  }

  lemma {:induction false} UpdatePaid(list: seq<Instalment>, i: nat, x: Instalment, p: nat)
    requires i < |list| && x.plan == list[i].plan
    ensures Sum(PaidAmount, OfPlan(list[i := x], p)) ==
            Sum(PaidAmount, OfPlan(list, p)) + if x.plan == p then x.paid - list[i].paid else 0
  {
    if i == 0 {
      assert list[i := x][1..] == list[1..];
    } else {
      assert list[i := x][1..] == list[1..][i - 1 := x];
      UpdatePaid(list[1..], i - 1, x, p);
    }
  }

  lemma {:induction false} NothingPaid(list: seq<Instalment>, p: nat)
    requires forall i :: 0 <= i < |list| ==> list[i].paid == 0
    ensures Sum(PaidAmount, OfPlan(list, p)) == 0
  {
    if list != [] {
      NothingPaid(list[1..], p);
    }
  }

  ghost predicate PaidByTransactions(s: Ledger, p: nat) {
    Sum(PaidAmount, OfPlan(s.instalments, p)) == PaidToPlan(s.transactions, s.instalments, p)
  }

  lemma PaidKept(s: Ledger, x: Action, p: nat)
    requires Inv(s) && Enabled(s, x) && PaidByTransactions(s, p)
    ensures PaidByTransactions(Apply(s, x), p)
  {
    var t := Apply(s, x);
    PaidToPlanSame(s.transactions, s.instalments, t.instalments, p);
    match x
    case CreatePlan(final, parts) =>
      OfPlanAppend(s.instalments, parts, p);
      SumAppend(PaidAmount, OfPlan(s.instalments, p), OfPlan(parts, p));
      NothingPaid(parts, p);
    case Commit(id) =>
      UpdatePaid(s.instalments, id, AfterPayment(s.instalments[id], s.open[id]), p);
      assert t.transactions != s.transactions ==> t.transactions[..|t.transactions| - 1] == s.transactions;
    case Waive(id) => UpdatePaid(s.instalments, id, s.instalments[id].(status := Waived), p);
    case _ =>
  }

  /** In every reachable ledger what a plan counts as paid is the sum of its transactions. */
  lemma {:induction false} PaidIsTransacted(states: seq<Ledger>, actions: seq<Action>, i: nat, p: nat)
    requires IsRun(states, actions) && i < |states|
    ensures PaidByTransactions(states[i], p)
  {
    if i > 0 {
      PaidIsTransacted(states, actions, i - 1, p);
      Reachable(states, actions, i - 1);
      PaidKept(states[i - 1], actions[i - 1], p);
    }
  }

  lemma {:induction false} BalancesSum(list: seq<Instalment>, balances: seq<int>)
    requires |balances| == |list| && forall i :: 0 <= i < |list| ==> balances[i] == Value(OpenBalance, list[i])
    ensures SumOf(balances) == Sum(OpenBalance, list)
  {
    if list != [] {
      BalancesSum(list[1..], balances[1..]);
    }
  }

  /**
   * In every reachable ledger the view of a plan conserves its money: final = paid + pending +
   * waived, paid is the sum of the plan's transactions, pending is the sum of the instalments' own
   * balances, and the clamp at zero is idle.
   */
  lemma ViewConserves(states: seq<Ledger>, actions: seq<Action>, i: nat, p: nat)
    requires IsRun(states, actions) && i < |states| && p < |states[i].plans|
    ensures var v := ToPlanView(states[i].plans[p], OfPlan(states[i].instalments, p));
            && v.final == v.paid + v.pending + v.waived
            && v.final == states[i].plans[p]
            && v.paid == PaidToPlan(states[i].transactions, states[i].instalments, p)
            && v.pending == SumOf(v.balances)
            && 0 <= v.final - v.paid - v.waived && 0 <= v.paid && 0 <= v.waived
  {
    var s := states[i];
    var list := OfPlan(s.instalments, p);
    PlansReachable(states, actions, i);
    PaidIsTransacted(states, actions, i, p);
    Reachable(states, actions, i);
    OfPlanAll(s.instalments, p);
    SumsSplit(list);
    BalancesSum(list, ToPlanView(s.plans[p], list).balances);
  }
}
