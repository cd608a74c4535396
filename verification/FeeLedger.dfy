/**
 * The fee ledger of one coaching (apps/api/src/modules/fees/fee.repository.ts and the payment
 * paths of fee.service.ts). Amounts are whole paise. An instalment's id is its position.
 *
 * A payment holds a lock on its instalment row from its first statement to its commit, so
 * payments and waivers of one instalment exclude each other, while payments of different
 * instalments interleave freely between the duplicate check and the insert.
 */
module FeeLedger {

  datatype Status = Pending | Partial | Paid | Waived | Overdue

  datatype Instalment = Instalment(plan: nat, student: nat, due: int, amount: int, paid: int, status: Status)

  datatype Ref = NoRef | Gateway(id: string)

  datatype Transaction = Transaction(instalment: nat, amount: int, ref: Ref)

  /** A payment between its checks and its commit: what it read under the lock. */
  datatype Payment = Payment(amount: int, ref: Ref, total: int, alreadyPaid: int)

  /** `plans` holds the final amounts; `open` the payments in progress, by locked instalment. */
  datatype Ledger = Ledger(
    plans: seq<int>, instalments: seq<Instalment>, transactions: seq<Transaction>, open: map<nat, Payment>)

  datatype Refusal = InvalidAmount | NotFound | AlreadyPaid | IsWaived | ExceedsBalance

  datatype Decision = Accept | Duplicate | Refuse(reason: Refusal)

  ghost predicate Applied(transactions: seq<Transaction>, ref: Ref) {
    ref.Gateway? && exists i :: 0 <= i < |transactions| && transactions[i].ref == ref
  }

  /** The checks of `recordPaymentTransaction`, in their order, on the committed state. */
  ghost function Decide(s: Ledger, id: int, amount: int, ref: Ref): Decision {
    if amount <= 0 then Refuse(InvalidAmount)
    else if !(0 <= id < |s.instalments|) then Refuse(NotFound)
    else if Applied(s.transactions, ref) then Duplicate
    else if s.instalments[id].status == Paid then Refuse(AlreadyPaid)
    else if s.instalments[id].status == Waived then Refuse(IsWaived)
    else if amount > s.instalments[id].amount - s.instalments[id].paid then Refuse(ExceedsBalance)
    else Accept
  }

  /** The instalment row after a payment of `p.amount` is written. */
  function AfterPayment(inst: Instalment, p: Payment): Instalment {
    inst.(paid := p.alreadyPaid + p.amount,
          status := if p.alreadyPaid + p.amount >= p.total then Paid else Partial)
  }

  datatype Action =
    | CreatePlan(final: int, parts: seq<Instalment>)
    | Begin(id: nat, amount: int, ref: Ref)  // lock, check, read the balance
    | Commit(id: nat)                        // insert and update; the unique index may refuse the insert
    | Abort(id: nat)
    | Waive(id: nat)

  /** What reports add up over instalments. */
  datatype Measure = TotalAmount | PaidAmount | WaivedRest | OpenBalance

  function Value(m: Measure, inst: Instalment): int {
    match m
    case TotalAmount => inst.amount
    case PaidAmount => inst.paid
    case WaivedRest => if inst.status == Waived then inst.amount - inst.paid else 0
    case OpenBalance =>
      // Waiving writes the remainder off
      if inst.status == Waived then 0
      else if inst.amount - inst.paid < 0 then 0 else inst.amount - inst.paid
  }

  function Sum(m: Measure, list: seq<Instalment>): int {
    if list == [] then 0 else Value(m, list[0]) + Sum(m, list[1..])
  }

  ghost predicate Enabled(s: Ledger, x: Action) {
    match x
    case CreatePlan(final, parts) =>
      && Sum(TotalAmount, parts) == final
      && (forall i :: 0 <= i < |parts| ==>
            parts[i].plan == |s.plans| && parts[i].amount > 0 && parts[i].paid == 0 && parts[i].status == Pending)
    case Begin(id, amount, ref) => id !in s.open && Decide(s, id, amount, ref) == Accept
    case Commit(id) => id in s.open && id < |s.instalments|
    case Abort(id) => id in s.open
    case Waive(id) => id !in s.open && id < |s.instalments|
  }

  ghost function Apply(s: Ledger, x: Action): Ledger
    requires Enabled(s, x)
  {
    match x
    case CreatePlan(final, parts) =>
      s.(plans := s.plans + [final], instalments := s.instalments + parts)
    case Begin(id, amount, ref) =>
      s.(open := s.open[id := Payment(amount, ref, s.instalments[id].amount, s.instalments[id].paid)])
    case Commit(id) =>
      var p := s.open[id];
      if Applied(s.transactions, p.ref) then s.(open := s.open - {id})
      else s.(transactions := s.transactions + [Transaction(id, p.amount, p.ref)],
              instalments := s.instalments[id := AfterPayment(s.instalments[id], p)],
              open := s.open - {id})
    case Abort(id) => s.(open := s.open - {id})
    case Waive(id) =>
      var inst := s.instalments[id];
      if inst.status == Pending || inst.status == Partial
      then s.(instalments := s.instalments[id := inst.(status := Waived)])
      else s
  }

  ghost predicate IsRun(states: seq<Ledger>, actions: seq<Action>) {
    && |states| == |actions| + 1
    && states[0] == Ledger([], [], [], map[])
    && (forall i :: 0 <= i < |actions| ==>
          Enabled(states[i], actions[i]) && states[i + 1] == Apply(states[i], actions[i]))
  }

  // ---------- The invariant ----------

  function PaidBy(transactions: seq<Transaction>, id: nat): int {
    if transactions == [] then 0
    else PaidBy(transactions[..|transactions| - 1], id)
         + if transactions[|transactions| - 1].instalment == id then transactions[|transactions| - 1].amount else 0
  }

  /** Balance and status agree: PAID exactly when fully paid, PENDING only when nothing is. */
  ghost predicate InstalmentOk(inst: Instalment) {
    && inst.amount > 0 && 0 <= inst.paid <= inst.amount
    && (match inst.status
        case Pending => inst.paid == 0
        case Partial => 0 < inst.paid < inst.amount
        case Paid => inst.paid == inst.amount
        case Waived => inst.paid < inst.amount
        case Overdue => false)
  }

  ghost predicate PaymentOk(s: Ledger, id: nat, p: Payment) {
    && id < |s.instalments|
    && var inst := s.instalments[id];
       && p.total == inst.amount && p.alreadyPaid == inst.paid
       && 0 < p.amount <= p.total - p.alreadyPaid
       && (inst.status == Pending || inst.status == Partial)
  }

  ghost predicate Balanced(s: Ledger) {
    && (forall i :: 0 <= i < |s.instalments| ==>
          InstalmentOk(s.instalments[i]) && s.instalments[i].paid == PaidBy(s.transactions, i))
    && (forall i :: 0 <= i < |s.transactions| ==>
          s.transactions[i].amount > 0 && s.transactions[i].instalment < |s.instalments|)
    && (forall i, j :: 0 <= i < j < |s.transactions| && s.transactions[i].ref.Gateway? ==>
          s.transactions[i].ref != s.transactions[j].ref)
  }

  ghost predicate Inv(s: Ledger) {
    && Balanced(s)
    && (forall id :: id in s.open ==> PaymentOk(s, id, s.open[id]))
  }

  lemma PaidByAppend(transactions: seq<Transaction>, x: Transaction, id: nat)
    ensures PaidBy(transactions + [x], id) == PaidBy(transactions, id) + if x.instalment == id then x.amount else 0
  {
    assert (transactions + [x])[..|transactions|] == transactions;
  }

  lemma {:induction false} NothingPaidYet(transactions: seq<Transaction>, id: nat)
    requires forall i :: 0 <= i < |transactions| ==> transactions[i].instalment < id
    ensures forall k :: k >= id ==> PaidBy(transactions, k) == 0
  {
    if transactions != [] {
      NothingPaidYet(transactions[..|transactions| - 1], id);
    }
  }

  lemma CommitKeeps(s: Ledger, id: nat)
    requires Inv(s) && Enabled(s, Commit(id))
    ensures Inv(Apply(s, Commit(id)))
  {
    var p, t := s.open[id], Apply(s, Commit(id));
    if !Applied(s.transactions, p.ref) {
      var x := Transaction(id, p.amount, p.ref);
      forall i: nat | i < |t.instalments|
        ensures InstalmentOk(t.instalments[i]) && t.instalments[i].paid == PaidBy(t.transactions, i)
      {
        PaidByAppend(s.transactions, x, i);
      }
    }
  }

  lemma InvKept(s: Ledger, x: Action)
    requires Inv(s) && Enabled(s, x)
    ensures Inv(Apply(s, x))
  {
    if x.Commit? {
      CommitKeeps(s, x.id);
    } else if x.CreatePlan? {
      NothingPaidYet(s.transactions, |s.instalments|);
    }
  }

  lemma {:induction false} Reachable(states: seq<Ledger>, actions: seq<Action>, i: nat)
    requires IsRun(states, actions) && i < |states|
    ensures Inv(states[i])
  {
    if i > 0 {
      Reachable(states, actions, i - 1);
      InvKept(states[i - 1], actions[i - 1]);
    }
  }

  // ---------- Safety over whole runs ----------

  /** In every interleaving each instalment's paid amount is the sum of its transactions and matches its status. */
  lemma LedgerIsBalanced(states: seq<Ledger>, actions: seq<Action>, i: nat)
    requires IsRun(states, actions) && i < |states|
    ensures Balanced(states[i])
  {
    Reachable(states, actions, i);
  }

  /** Instalments keep their place and amount; payments only add up; PAID and WAIVED are final. */
  ghost predicate Later(a: Instalment, b: Instalment) {
    && b.plan == a.plan && b.student == a.student && b.due == a.due && b.amount == a.amount
    && a.paid <= b.paid
    && (a.status == Paid || a.status == Waived ==> b == a)
  }

  lemma {:induction false} StatusIsFinal(states: seq<Ledger>, actions: seq<Action>, i: nat, j: nat, id: nat)
    requires IsRun(states, actions) && i <= j < |states| && id < |states[i].instalments|
    ensures id < |states[j].instalments| && Later(states[i].instalments[id], states[j].instalments[id])
    ensures states[i].transactions <= states[j].transactions
  {
    if i < j {
      StatusIsFinal(states, actions, i, j - 1, id);
      Reachable(states, actions, j - 1);
    }
  }

  /**
   * In every reachable ledger a payment is accepted if and only if it is positive and no more than
   * what is unpaid of a PENDING or PARTIAL instalment, and no transaction carries its gateway id.
   */
  lemma AcceptedExactly(states: seq<Ledger>, actions: seq<Action>, i: nat, id: int, amount: int, ref: Ref)
    requires IsRun(states, actions) && i < |states|
    ensures var list, transactions := states[i].instalments, states[i].transactions;
            Decide(states[i], id, amount, ref) == Accept <==>
              && 0 <= id < |list| && (list[id].status == Pending || list[id].status == Partial)
              && 0 < amount && list[id].paid + amount <= list[id].amount
              && (ref.NoRef? || forall k :: 0 <= k < |transactions| ==> transactions[k].ref != ref)
  {
    Reachable(states, actions, i);
  }

  /**
   * And what it is told otherwise. A used gateway id is a duplicate whatever became of the
   * instalment; only then it is refused as fully paid, as waived, or as more than the balance.
   */
  lemma RefusedBecause(states: seq<Ledger>, actions: seq<Action>, i: nat, id: int, amount: int, ref: Ref)
    requires IsRun(states, actions) && i < |states|
    ensures var s, d := states[i], Decide(states[i], id, amount, ref);
            && (d == Refuse(InvalidAmount) <==> amount <= 0)
            && (d == Refuse(NotFound) <==> amount > 0 && !(0 <= id < |s.instalments|))
            && (amount > 0 && 0 <= id < |s.instalments| ==>
                  var inst := s.instalments[id];
                  var used := ref.Gateway? && exists k :: 0 <= k < |s.transactions| && s.transactions[k].ref == ref;
                  && (d == Duplicate <==> used)
                  && (d == Refuse(AlreadyPaid) <==> !used && inst.paid == inst.amount)
                  && (d == Refuse(IsWaived) <==> !used && inst.status == Waived)
                  && (d == Refuse(ExceedsBalance) <==> !used && inst.paid < inst.amount && inst.status != Waived
                                                       && inst.paid + amount > inst.amount))
  {
    Reachable(states, actions, i);
  }

  /** An accepted payment adds its transaction and its amount; one of the whole balance makes the instalment PAID. */
  lemma PaymentGoesThrough(s: Ledger, id: nat, amount: int, ref: Ref)
    requires Inv(s) && Enabled(s, Begin(id, amount, ref))
    ensures Enabled(Apply(s, Begin(id, amount, ref)), Commit(id))
    ensures var t, inst := Apply(Apply(s, Begin(id, amount, ref)), Commit(id)), s.instalments[id];
            && t.transactions == s.transactions + [Transaction(id, amount, ref)]
            && t.instalments == s.instalments[id := inst.(paid := inst.paid + amount,
                                 status := if inst.paid + amount == inst.amount then Paid else Partial)]
            && t.open == s.open && t.plans == s.plans
  {
    var t := Apply(s, Begin(id, amount, ref));
    assert t.open - {id} == s.open;
  }

  /** A waived instalment keeps what was paid, owes nothing more, and accepts no payment. */
  lemma WaivedOwesNothing(s: Ledger, id: nat, amount: int, ref: Ref)
    requires Inv(s) && Enabled(s, Waive(id)) && s.instalments[id].paid < s.instalments[id].amount
    ensures var t := Apply(s, Waive(id));
            && t.instalments == s.instalments[id := s.instalments[id].(status := Waived)]
            && t.transactions == s.transactions
            && Value(OpenBalance, t.instalments[id]) == 0 && Decide(t, id, amount, ref) != Accept
  {
  }

  /** A payment refused for its amount or its instalment's status is refused, or a repeat, ever after. */
  lemma RefusedForGood(states: seq<Ledger>, actions: seq<Action>, i: nat, j: nat, id: nat, amount: int, ref: Ref)
    requires IsRun(states, actions) && i <= j < |states|
    requires Decide(states[i], id, amount, ref).Refuse? && Decide(states[i], id, amount, ref).reason != NotFound
    ensures Decide(states[j], id, amount, ref) != Accept
  {
    if amount > 0 {
      StatusIsFinal(states, actions, i, j, id);
    }
  }

  /** A gateway payment is applied at most once in the coaching, and every later delivery is a duplicate. */
  lemma AppliedOnce(states: seq<Ledger>, actions: seq<Action>, i: nat, j: nat, id: nat, amount: int, ref: Ref)
    requires IsRun(states, actions) && i <= j < |states| && Applied(states[i].transactions, ref)
    ensures Applied(states[j].transactions, ref)
    ensures forall a, b :: 0 <= a < b < |states[j].transactions| && states[j].transactions[a].ref == ref ==>
              states[j].transactions[b].ref != ref
    ensures amount > 0 && id < |states[j].instalments| ==> Decide(states[j], id, amount, ref) == Duplicate
  {
    Reachable(states, actions, i);
    Reachable(states, actions, j);
    var a :| 0 <= a < |states[i].transactions| && states[i].transactions[a].ref == ref;
    StatusIsFinal(states, actions, i, j, states[i].transactions[a].instalment);
    assert states[j].transactions[a].ref == ref;
  }

  /** A transaction of this instalment carries the reference. */
  ghost predicate AppliedTo(transactions: seq<Transaction>, ref: Ref, id: nat) {
    && ref.Gateway?
    && exists i :: 0 <= i < |transactions| && transactions[i].ref == ref && transactions[i].instalment == id
  }

  /**
   * What the row lock gives by itself: as long as a payment holds its instalment, the gateway id it
   * found unused has not been applied to that instalment.
   */
  lemma {:induction false} LockKeepsOut(states: seq<Ledger>, actions: seq<Action>, i: nat, id: nat)
    requires IsRun(states, actions) && i < |states| && id in states[i].open
    ensures !AppliedTo(states[i].transactions, states[i].open[id].ref, id)
  {
    if i > 0 {
      var s, x := states[i - 1], actions[i - 1];
      if id in s.open {
        LockKeepsOut(states, actions, i - 1, id);
        assert !AppliedTo(s.transactions, s.open[id].ref, id);
      } else {
        assert x.Begin? && x.id == id && !Applied(s.transactions, x.ref);
      }
    }
  }

  /** So the unique index refuses a payment exactly when its gateway id was applied to another instalment meanwhile. */
  lemma IndexRefusesOthersOnly(states: seq<Ledger>, actions: seq<Action>, i: nat, id: nat)
    requires IsRun(states, actions) && i < |states| && Enabled(states[i], Commit(id))
    ensures Apply(states[i], Commit(id)).transactions == states[i].transactions
            <==> exists other :: other != id && AppliedTo(states[i].transactions, states[i].open[id].ref, other)
  {
    var s := states[i];
    var ref := s.open[id].ref;
    LockKeepsOut(states, actions, i, id);
    if Applied(s.transactions, ref) {
      var k :| 0 <= k < |s.transactions| && s.transactions[k].ref == ref;
      assert AppliedTo(s.transactions, ref, s.transactions[k].instalment);
    } else {
      assert |Apply(s, Commit(id)).transactions| == |s.transactions| + 1;
    }
  }

  /**
   * The duplicate check alone does not give this: payments of two instalments may both pass it
   * with one gateway id. Only the unique index then refuses the second insert.
   */
  lemma CheckAloneRaces(id: string) returns (states: seq<Ledger>, actions: seq<Action>)
    ensures IsRun(states, actions) && |states| == 4
    ensures 0 in states[3].open && states[3].open[0].ref == Gateway(id)
    ensures 1 in states[3].open && states[3].open[1].ref == Gateway(id)
  {
    var part := Instalment(0, 0, 0, 1, 0, Pending);
    var s0 := Ledger([], [], [], map[]);
    var x0, x1, x2 := CreatePlan(2, [part, part]), Begin(0, 1, Gateway(id)), Begin(1, 1, Gateway(id));
    assert [part, part][1..] == [part] && Sum(TotalAmount, [part]) == 1;
    var s1 := Apply(s0, x0);
    assert s1.instalments == [part, part];
    var s2 := Apply(s1, x1);
    var s3 := Apply(s2, x2);
    states, actions := [s0, s1, s2, s3], [x0, x1, x2];
  }
}
