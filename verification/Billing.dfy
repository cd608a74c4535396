/**
 * Settlement of Vargly's own orders for one coaching (apps/api/src/modules/billing/billing.repository.ts).
 * A settlement locks its order row, then the invoice counter of the payment's financial year, and
 * holds both to its commit; the subscription row is only read and later overwritten. Instants are
 * milliseconds since 1970.
 */
module Billing {
  import opened Calendar
  import opened Optional
  import CreditWallet
  import DocumentNumbers

  const INDIA: int := 19_800_000

  datatype SubscriptionStatus = Trialing | Active | PastDue | Grace | Expired | Cancelled

  datatype Subscription = Subscription(
    plan: nat, status: SubscriptionStatus, trialEndsAt: int, periodStart: int, periodEnd: int, graceEndsAt: Option<int>)

  datatype Purchase = PlanUpgrade(plan: nat, cycle: Cycle) | AiCredits(credits: nat)

  datatype OrderState = Unpaid | Paid(paymentId: string, paidAt: nat, invoice: string)

  datatype Order = Order(purchase: Purchase, amount: int, state: OrderState)

  /** What a gateway reports about one payment. */
  datatype Payment = Payment(order: string, id: string, amount: int, paidAt: nat)

  /** A settlement between its checks and its commit: the start of the period and the credits it will grant. */
  datatype Settlement = Settlement(payment: Payment, start: int, credits: nat)

  /** The committed grant of a paid order. */
  datatype Grant = Grant(payment: Payment, credits: nat)

  datatype State = State(
    orders: map<string, Order>, sub: Option<Subscription>, granted: int,
    grants: seq<Grant>, open: map<string, Settlement>)

  datatype Decision = NotFound | Duplicate | AmountMismatch | Settle

  function Decide(orders: map<string, Order>, p: Payment): Decision {
    if p.order !in orders then NotFound
    else if orders[p.order].state.Paid? then Duplicate
    else if orders[p.order].amount != p.amount then AmountMismatch
    else Settle
  }

  // ---------- What a settlement computes ----------

  lemma YearAfter1970(t: nat)
    ensures Civil(LocalDay(t, INDIA)).year >= 1970
  {
    var n := LocalDay(t, INDIA);
    var y := Civil(n).year;
    if y < 1970 {
      WithinYear(Civil(n));
      if y + 1 < 1970 {
        YearsApart(y + 1, 1970);
      }
    }
  }

  /** The year in which the Indian financial year of an instant began: the invoice series. */
  function InvoiceYear(t: nat): nat {
    var c := Civil(LocalDay(t, INDIA));
    YearAfter1970(t);
    DocumentNumbers.FinancialYear(c.year, c.month + 1)
  }

  /** The instant at which 1 April begins in India. */
  function AprilFirst(year: nat): int {
    DayOf(Date(year, 3, 1)) * 86_400_000 - 19_800_000
  }

  lemma AprilInstant(year: nat) returns (t: nat)
    requires year >= 1970
    ensures t == AprilFirst(year) > 0
  {
    if year > 1970 {
      YearsApart(1970, year);
    }
    assert MonthOffset(IsLeap(year), 3) == MonthOffset(IsLeap(year), 2) + 31;
    t := AprilFirst(year);
  }

  /** Invoice series change exactly there. */
  lemma InvoiceYearTurns(year: nat) returns (t: nat)
    requires year >= 1970
    ensures t == AprilFirst(year) > 0 && InvoiceYear(t) == year && InvoiceYear(t - 1) == year - 1
  {
    t := AprilInstant(year);
    var first, last := Date(year, 3, 1), Date(year, 2, 31);
    assert MonthOffset(IsLeap(year), 3) == MonthOffset(IsLeap(year), 2) + 31;
    assert MonthOffset(IsLeap(year), 2) == MonthOffset(IsLeap(year), 1) + MonthLength(IsLeap(year), 1);
    assert DayOf(last) == DayOf(first) - 1;
    assert LocalDay(AprilFirst(year), INDIA) == DayOf(first);
    assert LocalDay(AprilFirst(year) - 1, INDIA) == DayOf(first) - 1;
    CivilUnique(first);
    CivilUnique(last);
  }

  /** A date before April lies in the year that began the April before, any other in its own. */
  lemma SinceApril(c: Date)
    requires IsDate(c)
    ensures var start := if c.month >= 3 then c.year else c.year - 1;
            DayOf(Date(start, 3, 1)) <= DayOf(c) < DayOf(Date(start + 1, 3, 1))
  {
    if c.month >= 3 {
      if c.month > 3 {
        OffsetsGrow(IsLeap(c.year), 3, c.month);
      }
      LaterYear(c, Date(c.year + 1, 3, 1));
    } else {
      OffsetsGrow(IsLeap(c.year), c.month, 3);
      LaterYear(Date(c.year - 1, 3, 1), c);
    }
  }

  /** Every instant is in the series of the April before it: from 1 April of that year in India to the next. */
  lemma InvoiceYearMeans(t: nat)
    ensures AprilFirst(InvoiceYear(t)) <= t < AprilFirst(InvoiceYear(t) + 1)
  {
    var c := Civil(LocalDay(t, INDIA));
    YearAfter1970(t);
    SinceApril(c);
    var start := if c.month >= 3 then c.year else c.year - 1;
    assert InvoiceYear(t) == start;
    InThatDay(t, DayOf(Date(start, 3, 1)), DayOf(Date(start + 1, 3, 1)));
  }

  lemma InThatDay(t: int, first: int, next: int)
    requires first <= LocalDay(t, INDIA) < next
    ensures first * MS_PER_DAY - INDIA <= t < next * MS_PER_DAY - INDIA
  {
  }

  /** Renewing a running paid period starts where it ends; anything else starts when it was paid. */
  function PeriodStart(sub: Option<Subscription>, paidAt: int): int {
    if sub.Some? && sub.value.status == Active && sub.value.periodEnd > paidAt then sub.value.periodEnd else paidAt
  }

  /** The subscription row after an upgrade that starts at `start`. */
  function Renewed(sub: Option<Subscription>, p: Purchase, start: int, paidAt: int, zone: int): Subscription
    requires p.PlanUpgrade?
  {
    var trialEndsAt := if sub.Some? then sub.value.trialEndsAt else paidAt;
    Subscription(p.plan, Active, trialEndsAt, start, PeriodEnd(start, p.cycle, zone), None)
  }

  /** The credits an order grants: a pack's own, or those of the plan, if it has any. */
  function CreditsOf(p: Purchase, planCredits: map<nat, nat>): nat {
    match p
    case AiCredits(credits) => credits
    case PlanUpgrade(plan, _) => if plan in planCredits then planCredits[plan] else 0
  }

  // ---------- The protocol ----------

  /** What all settlements share: the server's distance from UTC, and the credits that come with each plan. */
  datatype Setup = Setup(zone: int, planCredits: map<nat, nat>)

  datatype Action =
    | CreateOrder(id: string, purchase: Purchase, amount: int)
    | Begin(payment: Payment)
    | Commit(order: string, invoice: string)
    | Abort(order: string)
    | ScanExpires  // the daily scan's status write

  /** A transaction waits for rows locked by another, and the gateway payment id is unique. */
  ghost predicate Enabled(s: State, x: Action) {
    match x
    case CreateOrder(id, _, _) => id !in s.orders
    case Begin(p) =>
      && p.order !in s.open && Decide(s.orders, p) == Settle
      && (forall o :: o in s.open ==>
            InvoiceYear(s.open[o].payment.paidAt) != InvoiceYear(p.paidAt) && s.open[o].payment.id != p.id)
      && !PaymentUsed(s.orders, p.id)
    case Commit(order, _) => order in s.open && order in s.orders
    case Abort(order) => order in s.open
    case ScanExpires => s.sub.Some?
  }

  predicate PaymentUsed(orders: map<string, Order>, id: string) {
    exists o :: o in orders && orders[o].state.Paid? && orders[o].state.paymentId == id
  }

  ghost function Apply(s: State, x: Action, setup: Setup): State
    requires Enabled(s, x)
  {
    match x
    case CreateOrder(id, purchase, amount) => s.(orders := s.orders[id := Order(purchase, amount, Unpaid)])
    case Begin(p) =>
      var credits := CreditsOf(s.orders[p.order].purchase, setup.planCredits);
      s.(open := s.open[p.order := Settlement(p, PeriodStart(s.sub, p.paidAt), credits)])
    case Commit(order, invoice) =>
      var t, o := s.open[order], s.orders[order];
      State(s.orders[order := o.(state := Paid(t.payment.id, t.payment.paidAt, invoice))],
            if o.purchase.PlanUpgrade? then Some(Renewed(s.sub, o.purchase, t.start, t.payment.paidAt, setup.zone))
            else s.sub,
            s.granted + t.credits, s.grants + [Grant(t.payment, t.credits)], s.open - {order})
    case Abort(order) => s.(open := s.open - {order})
    case ScanExpires => s.(sub := Some(s.sub.value.(status := Expired)))
  }

  ghost predicate IsRun(states: seq<State>, actions: seq<Action>, setup: Setup) {
    && |states| == |actions| + 1
    && states[0].orders == map[] && states[0].grants == [] && states[0].open == map[]
    && (forall i :: 0 <= i < |actions| ==>
          Enabled(states[i], actions[i]) && states[i + 1] == Apply(states[i], actions[i], setup))
  }

  function SumGrants(grants: seq<Grant>): nat {
    if grants == [] then 0 else SumGrants(grants[..|grants| - 1]) + grants[|grants| - 1].credits
  }

  // ---------- Exactly once ----------

  /** The credits of a pack, or of the plan; none for a plan without. */
  predicate GrantsRight(purchase: Purchase, credits: nat, setup: Setup) {
    && (purchase.AiCredits? ==> credits == purchase.credits)
    && (purchase.PlanUpgrade? && purchase.plan in setup.planCredits ==> credits == setup.planCredits[purchase.plan])
    && (purchase.PlanUpgrade? && purchase.plan !in setup.planCredits ==> credits == 0)
  }

  ghost predicate SettlementOk(s: State, order: string, t: Settlement, setup: Setup) {
    && t.payment.order == order && order in s.orders
    && s.orders[order].state.Unpaid? && s.orders[order].amount == t.payment.amount
    && GrantsRight(s.orders[order].purchase, t.credits, setup)
    && !PaymentUsed(s.orders, t.payment.id)
  }

  /** A grant belongs to a paid order, at its price, by the payment recorded on it. */
  ghost predicate GrantOk(s: State, g: Grant, setup: Setup) {
    && g.payment.order in s.orders
    && var o := s.orders[g.payment.order];
       && o.amount == g.payment.amount
       && o.state.Paid? && o.state.paymentId == g.payment.id && o.state.paidAt == g.payment.paidAt
       && GrantsRight(o.purchase, g.credits, setup)
  }

  ghost predicate HasGrant(s: State, order: string) {
    exists i :: 0 <= i < |s.grants| && s.grants[i].payment.order == order
  }

  /** No two grants are of one order, or by one payment. */
  ghost predicate GrantsApart(grants: seq<Grant>) {
    forall i, j :: 0 <= i < j < |grants| ==>
      grants[i].payment.order != grants[j].payment.order && grants[i].payment.id != grants[j].payment.id
  }

  /** Paid orders and grants match one to one, and no gateway payment pays two orders. */
  ghost predicate OncePerOrder(s: State, setup: Setup) {
    && (forall i :: 0 <= i < |s.grants| ==> GrantOk(s, s.grants[i], setup))
    && GrantsApart(s.grants)
    && (forall o :: o in s.orders && s.orders[o].state.Paid? ==> HasGrant(s, o))
  }

  ghost predicate Inv(s: State, setup: Setup) {
    && OncePerOrder(s, setup)
    && (forall o :: o in s.open ==> SettlementOk(s, o, s.open[o], setup))
    && (forall o, q :: o in s.open && q in s.open && o != q ==>
          s.open[o].payment.id != s.open[q].payment.id
          && InvoiceYear(s.open[o].payment.paidAt) != InvoiceYear(s.open[q].payment.paidAt))
  }

  /** The new grant is of this order, which had none, by a payment that had paid nothing. */
  lemma CommitGrants(s: State, order: string, invoice: string, setup: Setup, i: nat)
    requires Inv(s, setup) && Enabled(s, Commit(order, invoice)) && i <= |s.grants|
    ensures var t := Apply(s, Commit(order, invoice), setup);
            && GrantOk(t, t.grants[i], setup)
            && (i < |s.grants| ==>
                  t.grants[i].payment.order != order && t.grants[i].payment.id != s.open[order].payment.id)
  {
    assert SettlementOk(s, order, s.open[order], setup);
    if i < |s.grants| {
      assert GrantOk(s, s.grants[i], setup);
    }
  }

  lemma CommitPays(s: State, order: string, invoice: string, setup: Setup, o: string)
    requires Inv(s, setup) && Enabled(s, Commit(order, invoice))
    requires var t := Apply(s, Commit(order, invoice), setup); o in t.orders && t.orders[o].state.Paid?
    ensures HasGrant(Apply(s, Commit(order, invoice), setup), o)
  {
    var t := Apply(s, Commit(order, invoice), setup);
    assert SettlementOk(s, order, s.open[order], setup);
    if o == order {
      assert t.grants[|s.grants|].payment.order == order;
    } else {
      assert HasGrant(s, o);
      var i :| 0 <= i < |s.grants| && s.grants[i].payment.order == o;
      assert t.grants[i].payment.order == o;
    }
  }

  lemma CommitGrantsOnce(s: State, order: string, invoice: string, setup: Setup)
    requires Inv(s, setup) && Enabled(s, Commit(order, invoice))
    ensures OncePerOrder(Apply(s, Commit(order, invoice), setup), setup)
  {
    var t := Apply(s, Commit(order, invoice), setup);
    forall o | o in t.orders && t.orders[o].state.Paid?
      ensures HasGrant(t, o)
    {
      CommitPays(s, order, invoice, setup, o);
    }
    forall i | 0 <= i < |t.grants|
      ensures GrantOk(t, t.grants[i], setup)
      ensures i < |s.grants| ==> t.grants[i].payment.order != order
      ensures i < |s.grants| ==> t.grants[i].payment.id != s.open[order].payment.id
    {
      CommitGrants(s, order, invoice, setup, i);
    }
    GrantAdded(s.grants, t.grants[|s.grants|]);
  }

  lemma GrantAdded(grants: seq<Grant>, g: Grant)
    requires GrantsApart(grants)
    requires forall i :: 0 <= i < |grants| ==>
               grants[i].payment.order != g.payment.order && grants[i].payment.id != g.payment.id
    ensures GrantsApart(grants + [g])
  {
  }

  lemma CommitKeepsOthers(s: State, order: string, invoice: string, setup: Setup, o: string)
    requires Enabled(s, Commit(order, invoice)) && o in s.open && o != order
    requires SettlementOk(s, o, s.open[o], setup) && s.open[o].payment.id != s.open[order].payment.id
    ensures SettlementOk(Apply(s, Commit(order, invoice), setup), o, s.open[o], setup)
  {
    var t := Apply(s, Commit(order, invoice), setup);
    assert forall q :: q in t.orders && q != order ==> t.orders[q] == s.orders[q];
  }

  lemma CommitKeeps(s: State, order: string, invoice: string, setup: Setup)
    requires Inv(s, setup) && Enabled(s, Commit(order, invoice))
    ensures Inv(Apply(s, Commit(order, invoice), setup), setup)
  {
    CommitGrantsOnce(s, order, invoice, setup);
    forall o | o in s.open && o != order
      ensures SettlementOk(Apply(s, Commit(order, invoice), setup), o, s.open[o], setup)
    {
      CommitKeepsOthers(s, order, invoice, setup, o);
    }
  }

  lemma CreateKeeps(s: State, id: string, purchase: Purchase, amount: int, setup: Setup)
    requires Inv(s, setup) && id !in s.orders
    ensures Inv(Apply(s, CreateOrder(id, purchase, amount), setup), setup)
  {
    var t := Apply(s, CreateOrder(id, purchase, amount), setup);
    forall o | o in t.orders && t.orders[o].state.Paid?
      ensures HasGrant(t, o)
    {
      assert HasGrant(s, o);
    }
    forall o | o in t.open
      ensures SettlementOk(t, o, t.open[o], setup)
    {
      assert SettlementOk(s, o, s.open[o], setup);
    }
  }

  lemma InvKept(s: State, x: Action, setup: Setup)
    requires Inv(s, setup) && Enabled(s, x)
    ensures Inv(Apply(s, x, setup), setup)
  {
    match x
    case CreateOrder(id, purchase, amount) => CreateKeeps(s, id, purchase, amount, setup);
    case Commit(order, invoice) => CommitKeeps(s, order, invoice, setup);
    case _ => OrdersKept(s, x, setup);
  }

  /** The other steps leave orders and grants alone. */
  lemma OrdersKept(s: State, x: Action, setup: Setup)
    requires Inv(s, setup) && Enabled(s, x) && !x.CreateOrder? && !x.Commit?
    ensures Inv(Apply(s, x, setup), setup)
  {
    var t := Apply(s, x, setup);
    SameOrders(s, t, setup);
    forall o | o in t.open
      ensures SettlementOk(t, o, t.open[o], setup)
    {
      if o in s.open {
        assert SettlementOk(s, o, s.open[o], setup);
      }
    }
  }

  lemma SameOrders(s: State, t: State, setup: Setup)
    requires OncePerOrder(s, setup) && t.orders == s.orders && t.grants == s.grants
    ensures OncePerOrder(t, setup)
  {
    forall o | o in t.orders && t.orders[o].state.Paid?
      ensures HasGrant(t, o)
    {
      assert HasGrant(s, o);
    }
    forall i | 0 <= i < |t.grants|
      ensures GrantOk(t, t.grants[i], setup)
    {
      assert GrantOk(s, s.grants[i], setup);
    }
  }

  lemma {:induction false} Reachable(states: seq<State>, actions: seq<Action>, setup: Setup, i: nat)
    requires IsRun(states, actions, setup) && i < |states|
    ensures Inv(states[i], setup)
  {
    if i > 0 {
      Reachable(states, actions, setup, i - 1);
      InvKept(states[i - 1], actions[i - 1], setup);
    }
  }

  /**
   * However webhooks are repeated, reordered or priced: every paid order was granted exactly once,
   * at its own price and by its own payment, and the wallet was given exactly what the paid orders
   * are worth.
   */
  lemma GrantedOnce(states: seq<State>, actions: seq<Action>, setup: Setup, i: nat)
    requires IsRun(states, actions, setup) && i < |states|
    ensures OncePerOrder(states[i], setup)
    ensures states[i].granted == states[0].granted + SumGrants(states[i].grants)
    ensures states[i].granted == states[0].granted + PaidCredits(states[i].orders, states[i].orders.Keys, setup)
  {
    Reachable(states, actions, setup, i);
    GrantsAddUp(states, actions, setup, i);
    PaidCreditsGranted(states, actions, setup, i);
  }

  /** What an order is worth in credits: nothing before it is paid. */
  ghost function WorthOf(orders: map<string, Order>, id: string, setup: Setup): nat {
    if id !in orders || orders[id].state.Unpaid? then 0
    else match orders[id].purchase
      case AiCredits(credits) => credits
      case PlanUpgrade(plan, _) => if plan in setup.planCredits then setup.planCredits[plan] else 0
  }

  /** The worth of these orders together. */
  ghost function PaidCredits(orders: map<string, Order>, ids: set<string>, setup: Setup): nat {
    if ids == {} then 0
    else
      var id :| id in ids;
      WorthOf(orders, id, setup) + PaidCredits(orders, ids - {id}, setup)
  }

  /** The order in which they are added does not matter. */
  lemma {:induction false} PaidCreditsWith(orders: map<string, Order>, ids: set<string>, setup: Setup, x: string)
    requires x in ids
    ensures PaidCredits(orders, ids, setup) == WorthOf(orders, x, setup) + PaidCredits(orders, ids - {x}, setup)
  {
    var id :| id in ids && PaidCredits(orders, ids, setup)
        == WorthOf(orders, id, setup) + PaidCredits(orders, ids - {id}, setup);
    if id != x {
      PaidCreditsWith(orders, ids - {id}, setup, x);
      PaidCreditsWith(orders, ids - {x}, setup, id);
      assert ids - {id} - {x} == ids - {x} - {id};
    }
  }

  lemma {:induction false} PaidCreditsSame(a: map<string, Order>, b: map<string, Order>, ids: set<string>, setup: Setup)
    requires forall id :: id in ids ==> WorthOf(a, id, setup) == WorthOf(b, id, setup)
    ensures PaidCredits(a, ids, setup) == PaidCredits(b, ids, setup)
  {
    if x :| x in ids {
      PaidCreditsWith(a, ids, setup, x);
      PaidCreditsWith(b, ids, setup, x);
      PaidCreditsSame(a, b, ids - {x}, setup);
    }
  }

  lemma {:induction false} PaidCreditsGranted(states: seq<State>, actions: seq<Action>, setup: Setup, i: nat)
    requires IsRun(states, actions, setup) && i < |states|
    ensures states[i].granted == states[0].granted + PaidCredits(states[i].orders, states[i].orders.Keys, setup)
  {
    if i > 0 {
      PaidCreditsGranted(states, actions, setup, i - 1);
      Reachable(states, actions, setup, i - 1);
      PaidCreditsNext(states[i - 1], actions[i - 1], setup);
    }
  }

  lemma PaidCreditsNext(s: State, x: Action, setup: Setup)
    requires Inv(s, setup) && Enabled(s, x)
    ensures var t := Apply(s, x, setup);
            t.granted - s.granted
            == PaidCredits(t.orders, t.orders.Keys, setup) - PaidCredits(s.orders, s.orders.Keys, setup)
  {
    var t := Apply(s, x, setup);
    match x
    case CreateOrder(id, _, _) =>
      PaidCreditsWith(t.orders, t.orders.Keys, setup, id);
      assert t.orders.Keys - {id} == s.orders.Keys;
      PaidCreditsSame(s.orders, t.orders, s.orders.Keys, setup);
    case Commit(order, _) =>
      assert SettlementOk(s, order, s.open[order], setup);
      assert t.orders.Keys == s.orders.Keys;
      PaidCreditsWith(s.orders, s.orders.Keys, setup, order);
      PaidCreditsWith(t.orders, s.orders.Keys, setup, order);
      PaidCreditsSame(s.orders, t.orders, s.orders.Keys - {order}, setup);
    case _ =>
  }

  lemma {:induction false} GrantsAddUp(states: seq<State>, actions: seq<Action>, setup: Setup, i: nat)
    requires IsRun(states, actions, setup) && i < |states|
    ensures states[i].granted == states[0].granted + SumGrants(states[i].grants)
  {
    if i > 0 {
      GrantsAddUp(states, actions, setup, i - 1);
      GrantsNext(states[i - 1], actions[i - 1], setup);
    }
  }

  lemma GrantsNext(s: State, x: Action, setup: Setup)
    requires Enabled(s, x)
    ensures var t := Apply(s, x, setup); t.granted - s.granted == SumGrants(t.grants) - SumGrants(s.grants)
  {
    if x.Commit? {
      assert Apply(s, x, setup).grants[..|s.grants|] == s.grants;
    }
  }

  /** A paid order never changes again, and every later report of it is a duplicate. */
  lemma {:induction false} PaidForGood(states: seq<State>, actions: seq<Action>, setup: Setup, i: nat, j: nat,
                                       p: Payment)
    requires IsRun(states, actions, setup) && i <= j < |states|
    requires p.order in states[i].orders && states[i].orders[p.order].state.Paid?
    ensures p.order in states[j].orders && states[j].orders[p.order] == states[i].orders[p.order]
    ensures Decide(states[j].orders, p) == Duplicate
  {
    if i < j {
      PaidForGood(states, actions, setup, i, j - 1, p);
      Reachable(states, actions, setup, j - 1);
      PaidStays(states[j - 1], actions[j - 1], setup, p.order);
    }
  }

  lemma PaidStays(s: State, x: Action, setup: Setup, order: string)
    requires Inv(s, setup) && Enabled(s, x) && order in s.orders && s.orders[order].state.Paid?
    ensures var t := Apply(s, x, setup); order in t.orders && t.orders[order] == s.orders[order]
  {
    if x.Commit? {
      assert SettlementOk(s, x.order, s.open[x.order], setup);
    }
  }

  // ---------- Renewals ----------

  /** The settlement of `order` is in progress in every state after `b` up to `i`. */
  ghost predicate InProgress(states: seq<State>, b: nat, i: nat, order: string) {
    forall k :: b < k <= i && k < |states| ==> order in states[k].open
  }

  /** A settlement keeps what it read until it ends. */
  lemma {:induction false} OpenStays(states: seq<State>, actions: seq<Action>, setup: Setup, b: nat, i: nat,
                                     order: string)
    requires IsRun(states, actions, setup) && b < i < |states|
    requires actions[b].Begin? && actions[b].payment.order == order && InProgress(states, b, i, order)
    ensures order in states[i].open && states[i].open[order] == states[b + 1].open[order]
    ensures order in states[i].orders && states[i].orders[order] == states[b].orders[order]
  {
    if i > b + 1 {
      OpenStays(states, actions, setup, b, i - 1, order);
      assert order in states[i].open;
    }
  }

  /**
   * Whatever runs beside it, a settled upgrade leaves an ACTIVE subscription whose period has
   * exactly the purchased length, and starts at the later of the payment and the end of the
   * ACTIVE period that was read, or at the payment when there was none.
   */
  lemma UpgradeGrantsItsPeriod(
    states: seq<State>, actions: seq<Action>, setup: Setup, b: nat, i: nat, p: Payment, invoice: string, plan: nat,
        cycle: Cycle)
    requires IsRun(states, actions, setup) && b < i < |actions|
    requires actions[b].Begin? && actions[b].payment == p && InProgress(states, b, i, p.order)
    requires actions[i] == Commit(p.order, invoice)
    requires p.order in states[b].orders && states[b].orders[p.order].purchase == PlanUpgrade(plan, cycle)
    ensures states[i + 1].sub.Some? && states[i + 1].sub.value.status == Active && states[i + 1].sub.value.plan == plan
    ensures var before, after := states[b].sub, states[i + 1].sub.value;
            && after.periodStart >= p.paidAt
            && (before.Some? && before.value.status == Active ==> after.periodStart >= before.value.periodEnd)
            && (after.periodStart == p.paidAt ||
                (before.Some? && before.value.status == Active && after.periodStart == before.value.periodEnd))
            && after.periodEnd ==
               after.periodStart + PeriodDays(Civil(LocalDay(after.periodStart, setup.zone)), cycle) * MS_PER_DAY
  {
    OpenStays(states, actions, setup, b, i, p.order);
    PeriodLength(states[b + 1].open[p.order].start, cycle, setup.zone);
  }

  /** The step from state `k` commits an upgrade. */
  ghost predicate CommitsUpgrade(states: seq<State>, actions: seq<Action>, k: nat)
    requires k < |actions| && k < |states|
  {
    actions[k].Commit? && actions[k].order in states[k].orders
        && states[k].orders[actions[k].order].purchase.PlanUpgrade?
  }

  /** Only the commit of an upgrade moves the end of the period. */
  lemma {:induction false} EndStays(states: seq<State>, actions: seq<Action>, setup: Setup, b: nat, i: nat)
    requires IsRun(states, actions, setup) && b <= i < |states|
    requires forall k :: b <= k < i ==> !CommitsUpgrade(states, actions, k)
    ensures states[i].sub.Some? == states[b].sub.Some?
    ensures states[b].sub.Some? ==>
              states[i].sub.value.periodEnd == states[b].sub.value.periodEnd
              && states[i].sub.value.trialEndsAt == states[b].sub.value.trialEndsAt
  {
    if b < i {
      EndStays(states, actions, setup, b, i - 1);
      assert !CommitsUpgrade(states, actions, i - 1);
    }
  }

  /**
   * The invoice counter is what keeps settlements apart: one that commits while another is in
   * progress takes its number from a different financial year.
   */
  lemma CommitsBetweenAreForeign(
    states: seq<State>, actions: seq<Action>, setup: Setup, b: nat, i: nat, p: Payment, k: nat)
    requires IsRun(states, actions, setup) && b < k < i < |states|
    requires actions[b].Begin? && actions[b].payment == p && InProgress(states, b, i, p.order)
    requires actions[k].Commit?
    ensures actions[k].order in states[k].open && actions[k].order != p.order
    ensures InvoiceYear(states[k].open[actions[k].order].payment.paidAt) != InvoiceYear(p.paidAt)
  {
    OpenStays(states, actions, setup, b, k, p.order);
    Reachable(states, actions, setup, k);
    assert p.order in states[k + 1].open;
  }

  /**
   * No upgrade is lost as long as no other one commits while it is settled: a subscription that
   * was ACTIVE and in its period when the settlement read it has its end moved strictly later, by
   * the length of the month the old end falls in, or by 365 or 366 days, whenever the payment
   * arrived.
   */
  lemma UpgradeExtends(
    states: seq<State>, actions: seq<Action>, setup: Setup, b: nat, i: nat,
    p: Payment, invoice: string, plan: nat, cycle: Cycle, before: Subscription)
    requires IsRun(states, actions, setup) && b < i < |actions|
    requires actions[b].Begin? && actions[b].payment == p && InProgress(states, b, i, p.order)
    requires actions[i] == Commit(p.order, invoice)
    requires forall k :: b < k < i ==> !CommitsUpgrade(states, actions, k)
    requires p.order in states[b].orders && states[b].orders[p.order].purchase == PlanUpgrade(plan, cycle)
    requires states[b].sub == Some(before) && before.status == Active && before.periodEnd > p.paidAt
    ensures states[i].sub.Some? && states[i].sub.value.periodEnd == before.periodEnd
    ensures var end := before.periodEnd + PeriodDays(Civil(LocalDay(before.periodEnd, setup.zone)), cycle) * MS_PER_DAY;
            states[i + 1].sub == Some(Subscription(plan, Active, before.trialEndsAt, before.periodEnd, end, None))
            && end >= before.periodEnd + 28 * MS_PER_DAY
  {
    OpenStays(states, actions, setup, b, i, p.order);
    EndStays(states, actions, setup, b, i);
    PeriodLength(before.periodEnd, cycle, setup.zone);
  }

  /**
   * The new period continues the one in force exactly when that still ends where the settlement
   * read it to end; and it ends elsewhere only when an upgrade of another financial year was
   * committed in between.
   */
  lemma LostOnlyToForeignYear(
    states: seq<State>, actions: seq<Action>, setup: Setup, b: nat, i: nat, p: Payment, invoice: string,
        before: Subscription)
    requires IsRun(states, actions, setup) && b < i < |actions|
    requires actions[b].Begin? && actions[b].payment == p && InProgress(states, b, i, p.order)
    requires actions[i] == Commit(p.order, invoice)
    requires p.order in states[b].orders && states[b].orders[p.order].purchase.PlanUpgrade?
    requires states[b].sub == Some(before) && before.status == Active && before.periodEnd > p.paidAt
    ensures states[i].sub.Some? && states[i + 1].sub.Some?
    ensures states[i + 1].sub.value.periodStart == states[i].sub.value.periodEnd <==>
            states[i].sub.value.periodEnd == before.periodEnd
    ensures states[i].sub.value.periodEnd != before.periodEnd ==>
              exists k :: b < k < i && CommitsUpgrade(states, actions, k) && actions[k].order in states[k].open
                          && InvoiceYear(states[k].open[actions[k].order].payment.paidAt) != InvoiceYear(p.paidAt)
  {
    OpenStays(states, actions, setup, b, i, p.order);
    SubscriptionStays(states, actions, setup, b, i);
    if states[i].sub.value.periodEnd != before.periodEnd {
      if forall k :: b < k < i ==> !CommitsUpgrade(states, actions, k) {
        EndStays(states, actions, setup, b, i);
        assert false;
      }
      var k: nat :| b < k < i && CommitsUpgrade(states, actions, k);
      CommitsBetweenAreForeign(states, actions, setup, b, i, p, k);
    }
  }

  lemma {:induction false} SubscriptionStays(states: seq<State>, actions: seq<Action>, setup: Setup, b: nat, i: nat)
    requires IsRun(states, actions, setup) && b <= i < |states| && states[b].sub.Some?
    ensures states[i].sub.Some?
  {
    if b < i {
      SubscriptionStays(states, actions, setup, b, i - 1);
    }
  }

  /** A run in which two orders for one plan and cycle, paid at `t` and `u`, extend the period only once. */
  ghost predicate LosesOne(
    states: seq<State>, actions: seq<Action>, sub: Subscription, plan: nat, cycle: Cycle, t: int, u: int, setup: Setup)
  {
    && IsRun(states, actions, setup) && |states| == 7 && states[0].sub == Some(sub)
    && var s := states[6];
       && "a" in s.orders && "b" in s.orders
       && s.orders["a"].purchase == s.orders["b"].purchase == PlanUpgrade(plan, cycle)
       && s.orders["a"].state.Paid? && s.orders["b"].state.Paid?
       && s.orders["a"].state.paidAt == t && s.orders["b"].state.paidAt == u
       && s.sub.Some? && s.sub.value.periodEnd == PeriodEnd(sub.periodEnd, cycle, setup.zone)
  }

  /**
   * And it can be lost: payments made on both sides of 1 April (InvoiceYearTurns) do not
   * wait for each other, both settlements read the same end, and the second commit overwrites the
   * first: two paid orders, one extension.
   */
  lemma LostAcrossYears(sub: Subscription, plan: nat, cycle: Cycle, t: nat, u: nat, setup: Setup)
    returns (states: seq<State>, actions: seq<Action>)
    requires InvoiceYear(t) != InvoiceYear(u)
    requires sub.status == Active && sub.periodEnd > t && sub.periodEnd > u
    ensures LosesOne(states, actions, sub, plan, cycle, t, u, setup)
  {
    var a, b := Payment("a", "pay1", 1, t), Payment("b", "pay2", 1, u);
    assert "a"[0] != "b"[0] && "pay1"[3] != "pay2"[3];
    states, actions := TwoSettlements(sub, PlanUpgrade(plan, cycle), a, b, setup);
  }

  lemma TwoSettlements(sub: Subscription, purchase: Purchase, a: Payment, b: Payment, setup: Setup)
    returns (states: seq<State>, actions: seq<Action>)
    requires purchase.PlanUpgrade? && InvoiceYear(a.paidAt) != InvoiceYear(b.paidAt) && a.order != b.order
        && a.id != b.id
    requires sub.status == Active && sub.periodEnd > a.paidAt && sub.periodEnd > b.paidAt
    ensures IsRun(states, actions, setup) && states[0].sub == Some(sub) && |states| == 7
    ensures forall p :: p == a || p == b ==>
              && p.order in states[6].orders && states[6].orders[p.order].state == Paid(p.id, p.paidAt, "")
              && states[6].orders[p.order].purchase == purchase
    ensures states[6].sub.Some? && states[6].sub.value.periodEnd == PeriodEnd(sub.periodEnd, purchase.cycle, setup.zone)
  {
    states, actions := BothOpen(sub, purchase, a, b, setup);
    var t, u := BothCommit(states[4], a, b, setup);
    Extended(states, actions, setup, Commit(a.order, ""));
    states, actions := states + [t], actions + [Commit(a.order, "")];
    Extended(states, actions, setup, Commit(b.order, ""));
    states, actions := states + [u], actions + [Commit(b.order, "")];
  }

  lemma Extended(states: seq<State>, actions: seq<Action>, setup: Setup, x: Action)
    requires IsRun(states, actions, setup) && Enabled(states[|actions|], x)
    ensures IsRun(states + [Apply(states[|actions|], x, setup)], actions + [x], setup)
  {
  }

  lemma OrdersPlaced(sub: Subscription, oa: Order, ob: Order, a: string, b: string, setup: Setup)
    returns (states: seq<State>, actions: seq<Action>)
    requires a != b && oa.state.Unpaid? && ob.state.Unpaid?
    ensures IsRun(states, actions, setup) && |states| == 3 && states[0].sub == Some(sub)
    ensures states[2] == State(map[a := oa, b := ob], Some(sub), 0, [], map[])
  {
    var s0 := State(map[], Some(sub), 0, [], map[]);
    var x, y := CreateOrder(a, oa.purchase, oa.amount), CreateOrder(b, ob.purchase, ob.amount);
    var s1 := Apply(s0, x, setup);
    states, actions := [s0, s1, Apply(s1, y, setup)], [x, y];
  }

  /** Nothing keeps the second settlement from starting: its counter row is another one. */
  lemma BothOpen(sub: Subscription, purchase: Purchase, a: Payment, b: Payment, setup: Setup)
    returns (states: seq<State>, actions: seq<Action>)
    requires purchase.PlanUpgrade? && InvoiceYear(a.paidAt) != InvoiceYear(b.paidAt) && a.order != b.order
        && a.id != b.id
    requires sub.status == Active && sub.periodEnd > a.paidAt && sub.periodEnd > b.paidAt
    ensures IsRun(states, actions, setup) && states[0].sub == Some(sub) && |states| == 5
    ensures states[4].orders ==
            map[a.order := Order(purchase, a.amount, Unpaid), b.order := Order(purchase, b.amount, Unpaid)]
    ensures states[4].open ==
            var credits := CreditsOf(purchase, setup.planCredits);
            map[a.order := Settlement(a, sub.periodEnd, credits), b.order := Settlement(b, sub.periodEnd, credits)]
  {
    var oa, ob := Order(purchase, a.amount, Unpaid), Order(purchase, b.amount, Unpaid);
    states, actions := OrdersPlaced(sub, oa, ob, a.order, b.order, setup);
    var s2 := states[2];
    var s3, s4 := BothBegin(s2, sub, purchase, a, b, setup);
    Extended(states, actions, setup, Begin(a));
    states, actions := states + [s3], actions + [Begin(a)];
    Extended(states, actions, setup, Begin(b));
    states, actions := states + [s4], actions + [Begin(b)];
  }

  lemma BothBegin(s: State, sub: Subscription, purchase: Purchase, a: Payment, b: Payment, setup: Setup)
    returns (t: State, u: State)
    requires InvoiceYear(a.paidAt) != InvoiceYear(b.paidAt) && a.order != b.order && a.id != b.id
    requires sub.status == Active && sub.periodEnd > a.paidAt && sub.periodEnd > b.paidAt
    requires s.orders == map[a.order := Order(purchase, a.amount, Unpaid), b.order := Order(purchase, b.amount, Unpaid)]
    requires s.sub == Some(sub) && s.open == map[]
    ensures Enabled(s, Begin(a)) && t == Apply(s, Begin(a), setup)
    ensures Enabled(t, Begin(b)) && u == Apply(t, Begin(b), setup)
    ensures u.orders == s.orders
    ensures var credits := CreditsOf(purchase, setup.planCredits);
            u.open ==
            map[a.order := Settlement(a, sub.periodEnd, credits), b.order := Settlement(b, sub.periodEnd, credits)]
  {
    t := Apply(s, Begin(a), setup);
    u := Apply(t, Begin(b), setup);
  }

  /** The second commit overwrites the first. */
  lemma BothCommit(s: State, a: Payment, b: Payment, setup: Setup) returns (t: State, u: State)
    requires a.order != b.order && a.order in s.open && b.order in s.open && a.order in s.orders && b.order in s.orders
    requires s.open[a.order].payment == a && s.open[b.order].payment == b
    requires s.orders[a.order].purchase.PlanUpgrade? && s.orders[a.order].purchase == s.orders[b.order].purchase
    requires s.open[a.order].start == s.open[b.order].start
    ensures Enabled(s, Commit(a.order, "")) && t == Apply(s, Commit(a.order, ""), setup)
    ensures Enabled(t, Commit(b.order, "")) && u == Apply(t, Commit(b.order, ""), setup)
    ensures forall p :: p == a || p == b ==>
              && p.order in u.orders && u.orders[p.order].state == Paid(p.id, p.paidAt, "")
              && u.orders[p.order].purchase == s.orders[a.order].purchase
    ensures u.sub.Some?
    ensures u.sub.value.periodEnd == PeriodEnd(s.open[a.order].start, s.orders[a.order].purchase.cycle, setup.zone)
  {
    t := Apply(s, Commit(a.order, ""), setup);
    u := Apply(t, Commit(b.order, ""), setup);
  }

  // ---------- One settlement as it runs ----------

  datatype SettleResult =
    | OrderNotFound
    | AlreadySettled
    | WrongAmount
    | PaymentTaken  // the unique index refuses the update and the transaction rolls back
    | Settled(subscription: Option<Subscription>, creditsAdded: nat, walletBalance: int)

  function BalanceOf(w: Option<CreditWallet.Wallet>): int {
    if w.Some? then w.value.balance else 0
  }

  class BillingRepository {
    const setup: Setup
    const sequences: DocumentNumbers.Sequences
    var orders: map<string, Order>
    var sub: Option<Subscription>
    var wallet: Option<CreditWallet.Wallet>
    ghost var grants: seq<Grant>

    constructor (setup: Setup, sequences: DocumentNumbers.Sequences, sub: Option<Subscription>)
      ensures View() == State(map[], sub, 0, [], map[]) && this.sequences == sequences && this.setup == setup
      ensures wallet == None
    {
      this.setup, this.sequences, this.sub := setup, sequences, sub;
      orders, wallet, grants := map[], None, [];
    }

    ghost function View(): State
      reads this
    {
      State(orders, sub, if wallet.Some? then wallet.value.granted else 0, grants, map[])
    }

    method MarkPaid(p: Payment)
      requires p.order in orders
      modifies this`orders, sequences
      ensures var paid := Paid(p.id, p.paidAt, InvoiceNumber(old(sequences.rows), p));
              orders == old(orders)[p.order := old(orders)[p.order].(state := paid)]
      ensures sequences.rows == InvoiceTaken(old(sequences.rows), p)
    {
      var invoice := sequences.NextDocumentNumber("platform", "INV", InvoiceYear(p.paidAt));
      orders := orders[p.order := orders[p.order].(state := Paid(p.id, p.paidAt, invoice))];
    }

    method Renew(purchase: Purchase, paidAt: int)
      requires purchase.PlanUpgrade?
      modifies this`sub
      ensures sub == Some(Renewed(old(sub), purchase, PeriodStart(old(sub), paidAt), paidAt, setup.zone))
    {
      var start := if sub.Some? && sub.value.status == Active && sub.value.periodEnd > paidAt
                   then sub.value.periodEnd else paidAt;
      var end := PeriodEnd(start, purchase.cycle, setup.zone);
      if sub.Some? {
        sub := Some(sub.value.(plan := purchase.plan, status := Active,
                               periodStart := start, periodEnd := end, graceEndsAt := None));
      } else {
        sub := Some(Subscription(purchase.plan, Active, paidAt, start, end, None));
      }
    }

    /** The wallet upsert, skipped when there is nothing to add. */
    method AddCredits(credits: nat) returns (balance: int)
      modifies this`wallet
      ensures wallet == if credits > 0 then Some(CreditWallet.Granted(old(wallet), credits)) else old(wallet)
      ensures balance == if credits > 0 then wallet.value.balance else 0
    {
      balance := 0;
      if credits > 0 {
        wallet := Some(CreditWallet.Granted(wallet, credits));
        balance := wallet.value.balance;
      }
    }

    method SettlePayment(p: Payment) returns (r: SettleResult)
      modifies this, sequences
      ensures r == OrderNotFound <==> p.order !in old(orders)
      ensures r == AlreadySettled <==> p.order in old(orders) && old(orders)[p.order].state.Paid?
      ensures r == WrongAmount <==>
                && p.order in old(orders) && old(orders)[p.order].state.Unpaid?
                && old(orders)[p.order].amount != p.amount
      ensures r == PaymentTaken <==>
                && p.order in old(orders) && old(orders)[p.order].state.Unpaid?
                && old(orders)[p.order].amount == p.amount && PaymentUsed(old(orders), p.id)
      ensures !r.Settled? ==>
                && View() == old(View()) && wallet == old(wallet) && sequences.rows == old(sequences.rows)
      ensures r.Settled? ==> sequences.rows == InvoiceTaken(old(sequences.rows), p)
      ensures r.Settled? ==>
                View() == SettledState(old(View()), p, InvoiceNumber(old(sequences.rows), p), setup)
      ensures r.Settled? ==>
                && GrantsRight(old(orders)[p.order].purchase, r.creditsAdded, setup)
                && BalanceOf(wallet) == BalanceOf(old(wallet)) + r.creditsAdded
                && wallet == (if r.creditsAdded > 0 then Some(CreditWallet.Granted(old(wallet), r.creditsAdded))
                    else old(wallet))
                && r.walletBalance == (if r.creditsAdded > 0 then wallet.value.balance else 0)
                && r.subscription == (if old(orders)[p.order].purchase.PlanUpgrade? then sub else None)
    {
      if p.order !in orders {
        return OrderNotFound;
      }
      var payment := orders[p.order];
      if payment.state.Paid? {
        return AlreadySettled;
      }
      if payment.amount != p.amount {
        return WrongAmount;
      }
      if PaymentUsed(orders, p.id) {
        return PaymentTaken;
      }
      r := Fulfil(p);
    }

    /** The plan or the credits that were bought. */
    method Deliver(purchase: Purchase, paidAt: int) returns (subscription: Option<Subscription>, creditsAdded: nat)
      modifies this`sub
      ensures sub == if purchase.PlanUpgrade?
                     then Some(Renewed(old(sub), purchase, PeriodStart(old(sub), paidAt), paidAt, setup.zone))
                     else old(sub)
      ensures subscription == if purchase.PlanUpgrade? then sub else None
      ensures creditsAdded == CreditsOf(purchase, setup.planCredits) && GrantsRight(purchase, creditsAdded, setup)
    {
      subscription := None;
      if purchase.PlanUpgrade? {
        Renew(purchase, paidAt);
        subscription := sub;
        creditsAdded := if purchase.plan in setup.planCredits then setup.planCredits[purchase.plan] else 0;
      } else {
        creditsAdded := purchase.credits;
      }
    }

    /** The writes of a settlement that passed its checks. */
    method Fulfil(p: Payment) returns (r: SettleResult)
      requires Decide(orders, p) == Settle
      modifies this, sequences
      ensures sequences.rows == InvoiceTaken(old(sequences.rows), p)
      ensures View() == SettledState(old(View()), p, InvoiceNumber(old(sequences.rows), p), setup)
      ensures r.Settled?
      ensures GrantsRight(old(orders)[p.order].purchase, r.creditsAdded, setup)
      ensures wallet == if r.creditsAdded > 0 then Some(CreditWallet.Granted(old(wallet), r.creditsAdded))
          else old(wallet)
      ensures r.walletBalance == if r.creditsAdded > 0 then wallet.value.balance else 0
      ensures r.subscription == if old(orders)[p.order].purchase.PlanUpgrade? then sub else None
    {
      var payment := orders[p.order];
      MarkPaid(p);
      var subscription, creditsAdded := Deliver(payment.purchase, p.paidAt);
      grants := grants + [Grant(p, creditsAdded)];
      var walletBalance := AddCredits(creditsAdded);
      r := Settled(subscription, creditsAdded, walletBalance);
    }
  }

  /** What one settlement leaves behind. */
  ghost function SettledState(s: State, p: Payment, invoice: string, setup: Setup): State
    requires Decide(s.orders, p) == Settle
  {
    var o := s.orders[p.order];
    var credits := CreditsOf(o.purchase, setup.planCredits);
    State(s.orders[p.order := o.(state := Paid(p.id, p.paidAt, invoice))],
          if o.purchase.PlanUpgrade?
          then Some(Renewed(s.sub, o.purchase, PeriodStart(s.sub, p.paidAt), p.paidAt, setup.zone))
          else s.sub,
          s.granted + credits, s.grants + [Grant(p, credits)], s.open)
  }

  /** It is the begin and the commit of the protocol with nothing in between. */
  lemma SettledAlone(s: State, p: Payment, invoice: string, setup: Setup)
    requires s.open == map[] && Decide(s.orders, p) == Settle && !PaymentUsed(s.orders, p.id)
    ensures Enabled(s, Begin(p))
    ensures Enabled(Apply(s, Begin(p), setup), Commit(p.order, invoice))
    ensures Apply(Apply(s, Begin(p), setup), Commit(p.order, invoice), setup) == SettledState(s, p, invoice, setup)
  {
    var open := Apply(s, Begin(p), setup);
    assert open.open - {p.order} == map[];
  }

  /** The invoice series of a payment's financial year, its next value, and that number as printed. */
  function InvoiceKey(p: Payment): DocumentNumbers.Key {
    DocumentNumbers.Key("platform", DocumentNumbers.Series("INV", InvoiceYear(p.paidAt)))
  }

  function NextInvoice(rows: map<DocumentNumbers.Key, nat>, p: Payment): nat {
    (if InvoiceKey(p) in rows then rows[InvoiceKey(p)] else 0) + 1
  }

  function InvoiceNumber(rows: map<DocumentNumbers.Key, nat>, p: Payment): string {
    DocumentNumbers.Render("INV", InvoiceYear(p.paidAt), NextInvoice(rows, p))
  }

  function InvoiceTaken(rows: map<DocumentNumbers.Key, nat>, p: Payment): map<DocumentNumbers.Key, nat> {
    rows[InvoiceKey(p) := NextInvoice(rows, p)]
  }
}
