/**
 * The payment, waiver and webhook operations as they run (apps/api/src/modules/fees/fee.repository.ts,
 * apps/api/src/modules/fees/fee.service.ts). Each transaction is one method call here; the steps
 * between its lock and its commit are told apart in FeeLedger.
 */
module FeeRepository {
  import opened FeeLedger
  import DocumentNumbers

  /**
   * A gateway webhook after its signature was verified: whether the event is one of a captured
   * payment, whether it names a payment, an instalment, a coaching and a non-zero amount, and
   * whether its currency is INR or not given.
   */
  datatype Webhook = Webhook(captured: bool, complete: bool, inRupees: bool, id: int, paise: int, paymentId: string)

  /** `Rethrown` is the error that makes the gateway deliver again. */
  datatype WebhookStatus = Ignored | Rejected | DuplicateDelivery | Processed | Rethrown

  /** A transient database failure: the transaction is rolled back, or it commits and the answer is lost. */
  datatype Fault = NoFault | RolledBack | Unacknowledged

  function Answer(w: Webhook, d: Decision, fault: Fault): WebhookStatus {
    if !w.captured || !w.complete then Ignored
    else if !w.inRupees then Rejected
    else if fault.RolledBack? then Rethrown
    else match d
      case Refuse(_) => Rejected
      case Accept => if fault.NoFault? then Processed else Rethrown
      case Duplicate => if fault.NoFault? then DuplicateDelivery else Rethrown
  }

  /** The payment is applied, whatever the gateway is told. */
  predicate Applies(w: Webhook, d: Decision, fault: Fault) {
    w.captured && w.complete && w.inRupees && !fault.RolledBack? && d == Accept
  }

  /** The receipt series of a coaching at a time: its settings and the financial year. */
  datatype Receipts = Receipts(settings: DocumentNumbers.Setting, startYear: nat)

  function CounterKey(coaching: string, at: Receipts): DocumentNumbers.Key {
    DocumentNumbers.Key(coaching, DocumentNumbers.Series(DocumentNumbers.ReceiptPrefix(at.settings), at.startYear))
  }

  /** The next number of the series. */
  function NextReceipt(rows: map<DocumentNumbers.Key, nat>, coaching: string, at: Receipts): nat {
    var k := CounterKey(coaching, at);
    (if k in rows then rows[k] else 0) + 1
  }

  /** An instalment that takes this much. */
  predicate Payable(list: seq<Instalment>, id: int, amount: int) {
    && 0 <= id < |list| && list[id].status != Paid && list[id].status != Waived
    && 0 < amount && list[id].paid + amount <= list[id].amount
  }

  /** The payment a webhook reports can still be applied. */
  ghost predicate Takes(s: Ledger, w: Webhook) {
    Payable(s.instalments, w.id, w.paise) && !Applied(s.transactions, Gateway(w.paymentId))
  }

  /** It was applied before, to whatever instalment. */
  ghost predicate Repeats(s: Ledger, w: Webhook) {
    w.paise > 0 && 0 <= w.id < |s.instalments| && Applied(s.transactions, Gateway(w.paymentId))
  }

  /** The row after it took this much. */
  function PaidInto(list: seq<Instalment>, id: int, amount: int): seq<Instalment>
    requires Payable(list, id, amount)
  {
    var paid := list[id].paid + amount;
    list[id := list[id].(paid := paid, status := if paid == list[id].amount then Paid else Partial)]
  }

  class FeeRepository {
    const coaching: string
    const sequences: DocumentNumbers.Sequences
    ghost const plans: seq<int>
    var instalments: seq<Instalment>
    var transactions: seq<Transaction>

    constructor (coaching: string, sequences: DocumentNumbers.Sequences,
                 ghost plans: seq<int>, instalments: seq<Instalment>, transactions: seq<Transaction>)
      ensures View() == Ledger(plans, instalments, transactions, map[])
      ensures this.coaching == coaching && this.sequences == sequences
    {
      this.coaching, this.sequences := coaching, sequences;
      this.plans := plans;
      this.instalments, this.transactions := instalments, transactions;
    }

    /** The committed ledger. */
    ghost function View(): Ledger
      reads this
    {
      Ledger(plans, instalments, transactions, map[])
    }

    /** `findFirst` by gateway id within the tenant. */
    method FindByRef(ref: Ref) returns (found: bool)
      ensures found <==> Applied(transactions, ref)
    {
      if ref.NoRef? {
        return false;
      }
      for i := 0 to |transactions|
        invariant forall k :: 0 <= k < i ==> transactions[k].ref != ref
      {
        if transactions[i].ref == ref {
          return true;
        }
      }
      found := false;
    }

    /**
     * Records a payment, reports a repeat of it, or refuses it. A recorded payment is the begin
     * and commit steps of the ledger and takes the next receipt number; nothing else changes
     * anything or uses up a number.
     */
    method RecordPayment(id: int, amount: int, ref: Ref, at: Receipts)
        returns (r: Decision, remaining: int, receipt: string)
      modifies this, sequences
      ensures r == Decide(old(View()), id, amount, ref)
      ensures r == Accept <==> Payable(old(instalments), id, amount) && !Applied(old(transactions), ref)
      ensures r == Accept ==>
                && transactions == old(transactions) + [Transaction(id, amount, ref)]
                && instalments == PaidInto(old(instalments), id, amount)
      ensures r != Accept ==> View() == old(View()) && sequences.rows == old(sequences.rows)
      ensures r == Accept ==>
                var n := NextReceipt(old(sequences.rows), coaching, at);
                && receipt == DocumentNumbers.Render(DocumentNumbers.ReceiptPrefix(at.settings), at.startYear, n)
                && sequences.rows == old(sequences.rows)[CounterKey(coaching, at) := n]
      ensures r == Accept ==>
                && View() == Apply(Apply(old(View()), Begin(id, amount, ref)), Commit(id))
                && remaining == instalments[id].amount - instalments[id].paid
    {
      if amount <= 0 {
        return Refuse(InvalidAmount), 0, "";
      }
      if id < 0 || id >= |instalments| {
        return Refuse(NotFound), 0, "";
      }
      var repeated := FindByRef(ref);
      if repeated {
        return Duplicate, 0, "";
      }
      var inst := instalments[id];
      if inst.status == Paid {
        return Refuse(AlreadyPaid), 0, "";
      }
      if inst.status == Waived {
        return Refuse(IsWaived), 0, "";
      }
      if amount > inst.amount - inst.paid {
        return Refuse(ExceedsBalance), 0, "";
      }
      receipt := sequences.NextDocumentNumber(coaching, DocumentNumbers.ReceiptPrefix(at.settings), at.startYear);
      transactions := transactions + [Transaction(id, amount, ref)];
      var newPaid := inst.paid + amount;
      var status := if newPaid >= inst.amount then Paid else Partial;
      instalments := instalments[id := inst.(paid := newPaid, status := status)];
      remaining := inst.amount - newPaid;
      r := Accept;
      assert map[id := Payment(amount, ref, inst.amount, inst.paid)] - {id} == map[];
    }

    /** One UPDATE with the old status in its WHERE clause: a paid or waived row is left as it is. */
    method WaiveInstallment(id: nat) returns (waived: bool)
      modifies this
      ensures waived <==> id < |old(instalments)| &&
                          (old(instalments)[id].status == Pending || old(instalments)[id].status == Partial)
      ensures View() == if id < |old(instalments)| then Apply(old(View()), Waive(id)) else old(View())
      ensures waived ==> instalments == old(instalments)[id := old(instalments)[id].(status := Waived)]
    {
      waived := id < |instalments| && (instalments[id].status == Pending || instalments[id].status == Partial);
      if waived {
        instalments := instalments[id := instalments[id].(status := Waived)];
      }
    }

    /** One delivery of a webhook. */
    method HandlePaymentWebhook(w: Webhook, at: Receipts, fault: Fault) returns (status: WebhookStatus)
      modifies this, sequences
      ensures var d := Decide(old(View()), w.id, w.paise, Gateway(w.paymentId));
              && status == Answer(w, d, fault)
              && (!Applies(w, d, fault) ==> View() == old(View()) && sequences.rows == old(sequences.rows))
              && (Applies(w, d, fault) ==>
                    && View() == Apply(Apply(old(View()), Begin(w.id, w.paise, Gateway(w.paymentId))), Commit(w.id))
                    // Delivering it again changes nothing and is reported as a duplicate
                    && Decide(View(), w.id, w.paise, Gateway(w.paymentId)) == Duplicate)
      ensures status == Processed || status == DuplicateDelivery ==> Applied(transactions, Gateway(w.paymentId))
      ensures status == Ignored || status == Rejected || status == DuplicateDelivery ==> View() == old(View())
      ensures status == Ignored <==> !w.captured || !w.complete
      ensures w.captured && w.complete && !w.inRupees ==> status == Rejected
      ensures w.captured && w.complete && w.inRupees && fault.RolledBack? ==>
                status == Rethrown && View() == old(View())
      ensures w.captured && w.complete && w.inRupees && fault.NoFault? && Repeats(old(View()), w) ==>
                status == DuplicateDelivery
      // A payment that can be applied is, unless it is rolled back, and then it will be delivered again
      ensures w.captured && w.complete && w.inRupees && Takes(old(View()), w) ==>
                && status == (if fault.NoFault? then Processed else Rethrown)
                && instalments == (if fault.RolledBack? then old(instalments)
                                   else PaidInto(old(instalments), w.id, w.paise))
      // One that cannot is answered for good
      ensures fault.NoFault? ==> status != Rethrown
      ensures fault.NoFault? && w.captured && w.complete && !Takes(old(View()), w) ==>
                status == Rejected || Applied(transactions, Gateway(w.paymentId))
    {
      if !w.captured || !w.complete {
        return Ignored;
      }
      if !w.inRupees {
        return Rejected;
      }
      if fault.RolledBack? {
        return Rethrown;
      }
      ghost var before := View();
      var r, remaining, receipt := RecordPayment(w.id, w.paise, Gateway(w.paymentId), at);
      match r
      case Accept =>
        assert transactions[|before.transactions|].ref == Gateway(w.paymentId);
        return if fault.NoFault? then Processed else Rethrown;
      case Duplicate => return if fault.NoFault? then DuplicateDelivery else Rethrown;
      case Refuse(_) => return Rejected;
    }
  }
}
