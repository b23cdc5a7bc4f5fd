/**
 * Refund bookkeeping between EDD and Pronamic Pay: a refund started from the
 * EDD order screen is sent to the gateway, and a refunded amount reported by
 * Pronamic Pay is copied into the order's `_pronamic_pay_amount_refunded`
 * meta together with the matching order status. Amounts are in minor units.
 */
module RefundsManager {
  import opened Wrappers
  import opened Php
  import opened Wp
  import opened Statuses
  import opened Store

  const RefundedMetaKey: string := "_pronamic_pay_amount_refunded"
  const TotalMetaKey: string := "_edd_payment_total"
  const RefundFlag: string := "edd-pronamic-pay-refund"
  const GatewayMissingMessage: string := "Unable to process refund because gateway does not exist."

  /** A Pronamic payment as far as refunds are concerned. */
  datatype Payment = Payment(
    id: int,
    configId: Value,
    transactionId: Option<string>,
    total: int,
    refunded: Option<int>)   // `get_refunded_amount()`, null when nothing was ever refunded

  /** A Pronamic gateway as `Plugin::get_gateway` returns it. */
  datatype GatewayService = GatewayService(supportsRefunds: bool)

  /** The Pronamic Pay and EDD lookups the refund code calls. */
  datatype Pay = Pay(
    getGateway: Value -> Option<GatewayService>,               // `Plugin::get_gateway( $config_id )`
    configIdOf: string -> Value,                              // `EasyDigitalDownloads::get_pronamic_config_id( $gateway )`
    paymentByTransaction: Option<string> -> Option<Payment>,  // `get_pronamic_payment_by_transaction_id`
    orderByTransaction: Option<string> -> Option<int>)        // `edd_get_payment( $txn, true )`, None for false

  /** What `Plugin::create_refund` does: returns a reference (maybe null) or throws. */
  datatype RefundReply = RefundCreated(reference: Option<string>) | RefundFailed(message: string)

  /** An amount read from order meta; what is not a stored amount counts as 0. */
  function AmountOf(v: Value): int {
    if v.Int? then v.n else 0
  }

  /**
   * `order_admin_script`: the refund control is offered only for a gateway id
   * starting with "pronamic_" whose Pronamic gateway exists and supports refunds.
   */
  function OffersRefundControl(paymentGateway: string, pay: Pay): (offered: bool)
    ensures offered <==>
      && "pronamic_" <= paymentGateway
      && pay.getGateway(pay.configIdOf(paymentGateway)).Some?
      && pay.getGateway(pay.configIdOf(paymentGateway)).value.supportsRefunds
  {
    if Head(paymentGateway, 9) != "pronamic_" then
      false
    else
      var gateway := pay.getGateway(pay.configIdOf(paymentGateway));
      gateway.Some? && gateway.value.supportsRefunds
  }

  /**
   * `add_refund_payment_note`: the note names the (formatted) amount and the
   * payment link, and adds the gateway reference only when one is given.
   */
  function RefundNoteText(amount: string, paymentLink: string, reference: Option<string>): (text: string)
    ensures "Refunded " + amount + " for " + paymentLink <= text
    ensures reference.None? ==> text == "Refunded " + amount + " for " + paymentLink + "."
    ensures reference.Some? ==>
      text == "Refunded " + amount + " for " + paymentLink + " (gateway reference `" + reference.value + "`)."
  {
    var lead := "Refunded " + amount + " for " + paymentLink;
    match reference
    case None => lead + "."
    case Some(ref) => lead + " (gateway reference `" + ref + "`)."
  }

  /** How `process_refund` ends: by throwing, or with the refund the gateway was asked for. */
  datatype ProcessOutcome =
    | Threw(message: string)
    | RefundDone(transactionId: Option<string>, amount: int)

  /**
   * `process_refund` on a store state: the outcome and the new state. The
   * whole order total is refunded; the refunded-amount meta becomes the
   * payment's previous refunded amount plus that total, and a refund note
   * names the gateway reference when there is one.
   */
  function ProcessRefundSpec(s: State, orderId: int, payment: Payment, pay: Pay, reply: RefundReply)
    : (r: (ProcessOutcome, State))
    ensures pay.getGateway(payment.configId).None? ==> r == (Threw(GatewayMissingMessage), s)
    ensures r.0.Threw? <==> (pay.getGateway(payment.configId).None? || reply.RefundFailed?)
    ensures r.0.Threw? ==> r.1 == s
    ensures r.0.RefundDone? ==>
      && r.0.amount == AmountOf(MetaOf(s.meta, orderId, TotalMetaKey))
      && r.0.transactionId == TransactionIdOf(s.transactionIds, orderId)
      && MetaOf(r.1.meta, orderId, RefundedMetaKey) == Int(payment.refunded.GetOr(0) + r.0.amount)
      && r.1.notes == s.notes + [Note(orderId, RefundNote(r.0.amount, payment.id, reply.reference))]
    ensures r.1.statuses == s.statuses
  {
    if pay.getGateway(payment.configId).None? then
      (Threw(GatewayMissingMessage), s)
    else
      var transactionId := TransactionIdOf(s.transactionIds, orderId);
      var amount := AmountOf(MetaOf(s.meta, orderId, TotalMetaKey));
      match reply
      case RefundFailed(message) => (Threw(message), s)
      case RefundCreated(reference) =>
        var refunded := payment.refunded.GetOr(0) + amount;
        (RefundDone(transactionId, amount),
         s.(meta := s.meta[(orderId, RefundedMetaKey) := Int(refunded)],
            notes := s.notes + [Note(orderId, RefundNote(amount, payment.id, reference))]))
  }

  /** `process_refund`: refunds the order's total at the payment's gateway. */
  method ProcessRefund(store: Store, orderId: int, payment: Payment, pay: Pay, reply: RefundReply)
    returns (outcome: ProcessOutcome)
    modifies store
    ensures (outcome, store.Snapshot()) == ProcessRefundSpec(old(store.Snapshot()), orderId, payment, pay, reply)
  {
    var gateway := pay.getGateway(payment.configId);
    if gateway.None? {
      return Threw(GatewayMissingMessage);
    }
    var transactionId := store.TransactionId(orderId);
    var amount := AmountOf(store.Meta(orderId, TotalMetaKey));
    match reply {
      case RefundFailed(message) =>
        return Threw(message);
      case RefundCreated(reference) =>
        var refunded := payment.refunded.GetOr(0);
        refunded := refunded + amount;
        store.UpdateMeta(orderId, RefundedMetaKey, Int(refunded));
        store.InsertNote(orderId, RefundNote(amount, payment.id, reference));
        outcome := RefundDone(transactionId, amount);
    }
  }

  /** How `maybe_refund_payment` ends. */
  datatype RequestOutcome =
    | NotRequested             // the refund checkbox was not posted
    | NoPronamicPayment        // no Pronamic payment has the order's transaction id
    | Died(message: string)    // `wp_die` with the exception's message
    | Requested(transactionId: Option<string>, amount: int)

  /**
   * `maybe_refund_payment`: does nothing unless the refund flag was posted and
   * a Pronamic payment matches the order's transaction id; otherwise
   * processes the refund, and an exception ends the request.
   */
  method MaybeRefundPayment(store: Store, orderId: int, request: Request, pay: Pay, reply: RefundReply)
    returns (outcome: RequestOutcome)
    modifies store
    ensures StrKey(RefundFlag) !in Keys(request.post)
      ==> outcome == NotRequested && store.Snapshot() == old(store.Snapshot())
    ensures StrKey(RefundFlag) in Keys(request.post) && pay.paymentByTransaction(old(store.TransactionId(orderId))).None?
      ==> outcome == NoPronamicPayment && store.Snapshot() == old(store.Snapshot())
    ensures StrKey(RefundFlag) in Keys(request.post) && pay.paymentByTransaction(old(store.TransactionId(orderId))).Some?
      ==> var r := ProcessRefundSpec(old(store.Snapshot()), orderId,
                     pay.paymentByTransaction(old(store.TransactionId(orderId))).value, pay, reply);
          && store.Snapshot() == r.1
          && outcome == match r.0
             case Threw(message) => Died(message)
             case RefundDone(transactionId, amount) => Requested(transactionId, amount)
  {
    if Lookup(request.post, StrKey(RefundFlag)).None? {
      return NotRequested;
    }
    var payment := pay.paymentByTransaction(store.TransactionId(orderId));
    if payment.None? {
      return NoPronamicPayment;
    }
    var result := ProcessRefund(store, orderId, payment.value, pay, reply);
    match result {
      case Threw(message) =>
        outcome := Died(message);
      case RefundDone(transactionId, amount) =>
        outcome := Requested(transactionId, amount);
    }
  }

  /** What the refunded-amount sync writes: the new meta, the status, and the amount in the note. */
  datatype Resync = Resync(amount: int, status: OrderStatus, difference: int)

  /**
   * The decision of `maybe_update_refunded_payment` for a reported refunded
   * amount: nothing when the stored meta already holds it; otherwise store it,
   * set `partially_refunded` below the total and `refunded` from the total on,
   * and note the difference from what was stored before.
   */
  function SyncDecision(stored: Value, refunded: int, total: int): (r: Option<Resync>)
    ensures r.None? <==> stored == Int(refunded)
    ensures r.Some? ==> r.value.amount == refunded
    ensures r.Some? ==> r.value.status in {PartiallyRefunded, Refunded}
    ensures r.Some? ==> (r.value.status == PartiallyRefunded <==> refunded < total)
    ensures r.Some? ==> r.value.difference == refunded - AmountOf(stored)
  {
    if stored == Int(refunded) then None
    else
      var status := if refunded < total then PartiallyRefunded else Refunded;
      Some(Resync(refunded, status, refunded - AmountOf(stored)))
  }

  /** How `maybe_update_refunded_payment` ends. */
  datatype SyncOutcome =
    | NoRefundedAmount   // the payment reports no refunded amount
    | OrderNotFound      // no EDD order has the payment's transaction id (PHP then fails calling `get_meta` on false)
    | InSync             // the stored meta already holds the amount
    | Synced

  /** `maybe_update_refunded_payment` on a store state: the outcome and the new state. */
  function UpdateRefundedSpec(s: State, payment: Payment, pay: Pay): (r: (SyncOutcome, State))
    ensures payment.refunded.None? ==> r == (NoRefundedAmount, s)
    ensures !r.0.Synced? ==> r.1 == s
    ensures r.0.Synced? ==>
      && payment.refunded.Some?
      && pay.orderByTransaction(payment.transactionId).Some?
      && var id := pay.orderByTransaction(payment.transactionId).value;
         var stored := MetaOf(s.meta, id, RefundedMetaKey);
         var refunded := payment.refunded.value;
         && stored != Int(refunded)
         && MetaOf(r.1.meta, id, RefundedMetaKey) == Int(refunded)
         && r.1.statuses == s.statuses[id := if refunded < payment.total then PartiallyRefunded else Refunded]
         && r.1.notes == s.notes + [Note(id, RefundNote(refunded - AmountOf(stored), payment.id, None))]
  {
    if payment.refunded.None? then
      (NoRefundedAmount, s)
    else
      var refunded := payment.refunded.value;
      match pay.orderByTransaction(payment.transactionId)
      case None => (OrderNotFound, s)
      case Some(id) =>
        match SyncDecision(MetaOf(s.meta, id, RefundedMetaKey), refunded, payment.total)
        case None => (InSync, s)
        case Some(d) =>
          (Synced, s.(meta := s.meta[(id, RefundedMetaKey) := Int(d.amount)],
                      statuses := s.statuses[id := d.status],
                      notes := s.notes + [Note(id, RefundNote(d.difference, payment.id, None))]))
  }

  /** Reporting the same payment twice changes the store once: the second report is a no-op. */
  lemma {:induction false} UpdateRefundedIdempotent(s: State, payment: Payment, pay: Pay)
    ensures var first := UpdateRefundedSpec(s, payment, pay);
      UpdateRefundedSpec(first.1, payment, pay).1 == first.1
  {
    var first := UpdateRefundedSpec(s, payment, pay);
    if first.0.Synced? {
      var id := pay.orderByTransaction(payment.transactionId).value;
      assert MetaOf(first.1.meta, id, RefundedMetaKey) == Int(payment.refunded.value);
    }
  }

  /** `maybe_update_refunded_payment`: copies the reported refunded amount into the order. */
  method MaybeUpdateRefundedPayment(store: Store, payment: Payment, pay: Pay) returns (outcome: SyncOutcome)
    modifies store
    ensures (outcome, store.Snapshot()) == UpdateRefundedSpec(old(store.Snapshot()), payment, pay)
  {
    if payment.refunded.None? {
      return NoRefundedAmount;
    }
    var refunded := payment.refunded.value;
    var order := pay.orderByTransaction(payment.transactionId);
    if order.None? {
      return OrderNotFound;
    }
    var id := order.value;
    var stored := store.Meta(id, RefundedMetaKey);
    if stored == Int(refunded) {
      return InSync;
    }
    store.UpdateMeta(id, RefundedMetaKey, Int(refunded));
    var status := if refunded < payment.total then PartiallyRefunded else Refunded;
    store.UpdateStatus(id, status);
    var difference := refunded - AmountOf(stored);
    store.InsertNote(id, RefundNote(difference, payment.id, None));
    outcome := Synced;
  }
}
