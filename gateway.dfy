/**
 * One Pronamic payment method registered as an EDD gateway: its labels and
 * settings, and the checkout that records a pending order and hands the
 * buyer to the payment provider.
 */
module Gateways {
  import opened Wrappers
  import opened Php
  import opened Wp
  import opened Statuses
  import opened Store

  /** The constructor's arguments; a missing one takes the `wp_parse_args` default. */
  datatype GatewayArgs = GatewayArgs(
    id: Option<string>,
    adminLabel: Option<string>,
    checkoutLabel: Option<Value>,
    supports: Option<Value>,
    paymentMethod: Option<Value>)

  /** What `Plugin::start` and the gateway's error report amount to. */
  datatype StartReply =
    | Started(paymentId: int, transactionId: string)   // the Pronamic payment and its transaction id
    | StartFailed(messages: seq<string>)               // `get_error()` is a WP_Error with these messages

  /** The payment data handed to `edd_insert_payment`, field by field. */
  datatype PaymentRecord = PaymentRecord(
    price: Value, date: Value, userEmail: Value, purchaseKey: Value, currency: Value,
    downloads: Value, userInfo: Value, cartDetails: Value, gateway: Value, status: Value)
  {
    /** The record as the PHP array, in the order the fields are written. */
    function ToEntries(): Entries {
      [(StrKey("price"), price), (StrKey("date"), date), (StrKey("user_email"), userEmail),
       (StrKey("purchase_key"), purchaseKey), (StrKey("currency"), currency),
       (StrKey("downloads"), downloads), (StrKey("user_info"), userInfo),
       (StrKey("cart_details"), cartDetails), (StrKey("gateway"), gateway), (StrKey("status"), status)]
    }
  }

  /** How `process_purchase` ends. */
  datatype PurchaseOutcome =
    | SentBackToCheckout(query: string)   // `edd_send_back_to_checkout( $query )`
    | NoGateway                           // no gateway configured: the order stays pending
    | RedirectedToGateway(paymentId: int) // `$gateway->redirect( $payment )` and exit

  const ErrorKeyPrefix: string := "pronamic_pay_error"
  const PaymentErrorTitle: string := "Payment Error"

  /** The session-error key of the `i`-th gateway error message. */
  function ErrorKey(i: nat): string {
    ErrorKeyPrefix + "_" + Decimal(i)
  }

  /** The keys of the first `n` error messages. */
  function ErrorKeys(n: nat): set<Key> {
    set i | 0 <= i < n :: StrKey(ErrorKey(i))
  }

  /** Distinct message positions get distinct keys, none of them the default error's key. */
  lemma {:induction false} ErrorKeyInjective(i: nat, j: nat)
    ensures ErrorKey(i) == ErrorKey(j) ==> i == j
    ensures ErrorKey(i) != ErrorKeyPrefix
  {
    var p := ErrorKeyPrefix + "_";
    assert |ErrorKey(i)| > |ErrorKeyPrefix|;
    if ErrorKey(i) == ErrorKey(j) {
      assert Digits(i) == ErrorKey(i)[|p|..];
      assert Digits(j) == ErrorKey(j)[|p|..];
      DigitsInjective(i, j);
    }
  }

  /** `edd_set_error( 'pronamic_pay_error_' . $i, $message )` for each message in turn. */
  function SetErrors(errors: Entries, messages: seq<string>): Entries
    decreases |messages|
  {
    if messages == [] then errors
    else
      var n := |messages| - 1;
      Put(SetErrors(errors, messages[..n]), StrKey(ErrorKey(n)), Str(messages[n]))
  }

  /**
   * Every message ends up under its own key, and every key that is not a
   * message key keeps its entry.
   */
  lemma {:induction false} SetErrorsLookup(errors: Entries, messages: seq<string>)
    ensures forall i :: 0 <= i < |messages| ==> Lookup(SetErrors(errors, messages), StrKey(ErrorKey(i))) == Some(Str(messages[i]))
    ensures forall k :: k !in ErrorKeys(|messages|) ==> Lookup(SetErrors(errors, messages), k) == Lookup(errors, k)
    decreases |messages|
  {
    if messages != [] {
      var n := |messages| - 1;
      var prefix := messages[..n];
      SetErrorsLookup(errors, prefix);
      forall i | 0 <= i < |messages|
        ensures Lookup(SetErrors(errors, messages), StrKey(ErrorKey(i))) == Some(Str(messages[i]))
      {
        if i < n {
          ErrorKeyInjective(i, n);
          assert prefix[i] == messages[i];
        }
      }
      ErrorKeysGrow(n, |messages|);
      assert StrKey(ErrorKey(n)) in ErrorKeys(|messages|);
    }
  }

  /** The first `n` message keys are among the first `m` when `n <= m`. */
  lemma ErrorKeysGrow(n: nat, m: nat)
    requires n <= m
    ensures ErrorKeys(n) <= ErrorKeys(m)
  {
  }

  /** The default error's key is none of the message keys. */
  lemma ErrorKeysMissDefault(n: nat)
    ensures StrKey(ErrorKeyPrefix) !in ErrorKeys(n)
  {
    forall i | 0 <= i < n
      ensures StrKey(ErrorKey(i)) != StrKey(ErrorKeyPrefix)
    {
      ErrorKeyInjective(i, i);
    }
  }

  class Gateway {
    var id: string
    var adminLabel: string
    var checkoutLabel: Value
    var supports: Value
    var paymentMethod: Value

    /**
     * Fills the fields from the arguments and their defaults; a non-empty
     * `<id>_checkout_label` setting overrides the checkout label.
     */
    constructor (args: GatewayArgs, site: Site)
      ensures id == args.id.GetOr("")
      ensures adminLabel == args.adminLabel.GetOr("")
      ensures supports == args.supports.GetOr(Arr([]))
      ensures paymentMethod == args.paymentMethod.GetOr(Null)
      ensures var option := GetOption(site, args.id.GetOr("") + "_checkout_label");
        checkoutLabel == if Empty(option) then args.checkoutLabel.GetOr(Str("")) else option
    {
      id := args.id.GetOr("");
      adminLabel := args.adminLabel.GetOr("");
      checkoutLabel := args.checkoutLabel.GetOr(Str(""));
      supports := args.supports.GetOr(Arr([]));
      paymentMethod := args.paymentMethod.GetOr(Null);
      new;
      var option := GetOption(site, id + "_checkout_label");
      if !Empty(option) {
        checkoutLabel := option;
      }
    }

    /** The entry this gateway has in EDD's gateway list. */
    function Registration(): Value
      reads this
    {
      Arr([(StrKey("admin_label"), Str(adminLabel)),
           (StrKey("checkout_label"), checkoutLabel),
           (StrKey("supports"), supports)])
    }

    /** `payment_gateways`: this gateway is registered under its id; other gateways are kept. */
    function PaymentGateways(gateways: Entries): (r: Entries)
      reads this
      ensures Lookup(r, StrKey(id)) == Some(Registration())
      ensures At(At(Arr(r), id), "checkout_label") == checkoutLabel
      ensures forall k :: k != StrKey(id) ==> Lookup(r, k) == Lookup(gateways, k)
      ensures Keys(gateways) <= Keys(r) && |Keys(r)| <= |Keys(gateways)| + 1
    {
      Put(gateways, StrKey(id), Registration())
    }

    /** The settings header of this gateway. */
    function SettingsHeader(): Value
      reads this
    {
      Arr([(StrKey("id"), Str(id)),
           (StrKey("name"), Str("<strong>" + adminLabel + " Settings</strong>")),
           (StrKey("desc"), Str("Configure the " + adminLabel + " settings")),
           (StrKey("type"), Str("header"))])
    }

    /** The configuration select; `configOptions` is `Plugin::get_config_select_options`. */
    function ConfigSetting(configOptions: Value): Value
      reads this
    {
      Arr([(StrKey("id"), Str(id + "_config_id")),
           (StrKey("name"), Str("Gateway Configuration")),
           (StrKey("type"), Str("select")),
           (StrKey("options"), configOptions)])
    }

    /** The checkout-label text field, defaulting to the current label. */
    function CheckoutLabelSetting(): Value
      reads this
    {
      Arr([(StrKey("id"), Str(id + "_checkout_label")),
           (StrKey("name"), Str("Checkout Label")),
           (StrKey("type"), Str("text")),
           (StrKey("std"), checkoutLabel)])
    }

    /**
     * `settings_gateways`: adds the keys `<id>`, `<id>_config_id` and
     * `<id>_checkout_label`; other settings are kept.
     */
    function SettingsGateways(settings: Entries, configOptions: Value): (r: Entries)
      reads this
      ensures Lookup(r, StrKey(id)) == Some(SettingsHeader())
      ensures Lookup(r, StrKey(id + "_config_id")) == Some(ConfigSetting(configOptions))
      ensures Lookup(r, StrKey(id + "_checkout_label")) == Some(CheckoutLabelSetting())
      ensures forall k :: k != StrKey(id) && k != StrKey(id + "_config_id") && k != StrKey(id + "_checkout_label") ==>
        Lookup(r, k) == Lookup(settings, k)
      ensures Keys(settings) <= Keys(r) && |Keys(r)| <= |Keys(settings)| + 3
    {
      var header := StrKey(id);
      var config := StrKey(id + "_config_id");
      var labelKey := StrKey(id + "_checkout_label");
      assert |id| < |id + "_config_id"| < |id + "_checkout_label"|;
      assert header != config && header != labelKey && config != labelKey;
      var withHeader := Put(settings, header, SettingsHeader());
      var withConfig := Put(withHeader, config, ConfigSetting(configOptions));
      var r := Put(withConfig, labelKey, CheckoutLabelSetting());
      assert Keys(settings) <= Keys(withHeader) <= Keys(withConfig) <= Keys(r);
      assert |Keys(withHeader)| <= |Keys(settings)| + 1;
      assert |Keys(withConfig)| <= |Keys(withHeader)| + 1;
      assert Lookup(withConfig, header) == Some(SettingsHeader());
      r
    }

    /**
     * The payment data `process_purchase` records: the purchase's price,
     * date, email, purchase key, downloads, user info and cart details, the
     * shop currency, this gateway's id and the status `pending`.
     */
    function Record(purchaseData: Entries, currency: Value): (r: PaymentRecord)
      reads this
      ensures r.status == Str("pending") && r.gateway == Str(id) && r.currency == currency
      ensures var p := Arr(purchaseData);
        && r.price == At(p, "price") && r.date == At(p, "date") && r.userEmail == At(p, "user_email")
        && r.purchaseKey == At(p, "purchase_key") && r.downloads == At(p, "downloads")
        && r.userInfo == At(p, "user_info") && r.cartDetails == At(p, "cart_details")
    {
      var p := Arr(purchaseData);
      PaymentRecord(At(p, "price"), At(p, "date"), At(p, "user_email"), At(p, "purchase_key"), currency,
                    At(p, "downloads"), At(p, "user_info"), At(p, "cart_details"), Str(id), Str("pending"))
    }

    /**
     * `process_purchase` as a function of the store: the order insertion
     * (refused when `accepted` is false), the lookup of the configured
     * gateway (`gatewayFor` of the `<id>_config_id` setting) and the reply of
     * the payment start.
     */
    function ProcessPurchaseSpec(s: State, purchaseData: Entries, site: Site, accepted: bool,
                                 gatewayFor: Value -> bool, reply: StartReply, defaultError: string): (PurchaseOutcome, State)
      reads this
    {
      var back := SentBackToCheckout(BackToCheckoutQuery(purchaseData));
      if !accepted then
        (back, s.(gatewayErrors := s.gatewayErrors + [GatewayError(PaymentErrorTitle, 0)]))
      else
        var orderId := s.nextId;
        var inserted := s.(orders := s.orders[orderId := Record(purchaseData, site.currency).ToEntries()],
                           statuses := s.statuses[orderId := Pending],
                           nextId := s.nextId + 1);
        if !gatewayFor(GetOption(site, id + "_config_id")) then (NoGateway, inserted)
        else
          match reply
          case StartFailed(messages) =>
            (back, inserted.(gatewayErrors := inserted.gatewayErrors + [GatewayError(PaymentErrorTitle, orderId)],
                             errors := SetErrors(Put(inserted.errors, StrKey(ErrorKeyPrefix), Str(defaultError)), messages)))
          case Started(paymentId, transactionId) =>
            (RedirectedToGateway(paymentId),
             inserted.(transactionIds := inserted.transactionIds[orderId := transactionId],
                       notes := inserted.notes + [Note(orderId, PendingNote(paymentId))]))
    }

    /** `process_purchase`, step by step on the store. */
    method ProcessPurchase(store: Store, purchaseData: Entries, site: Site, accepted: bool,
                           gatewayFor: Value -> bool, reply: StartReply, defaultError: string)
      returns (outcome: PurchaseOutcome)
      requires store.Valid()
      modifies store
      ensures store.Valid()
      ensures (outcome, store.Snapshot()) ==
        ProcessPurchaseSpec(old(store.Snapshot()), purchaseData, site, accepted, gatewayFor, reply, defaultError)
    {
      ghost var s0 := store.Snapshot();
      var configId := GetOption(site, id + "_config_id");
      var record := Record(purchaseData, site.currency).ToEntries();
      var orderId := store.InsertPayment(record, Pending, accepted);
      if orderId == 0 {
        store.RecordGatewayError(PaymentErrorTitle, orderId);
        return SentBackToCheckout(BackToCheckoutQuery(purchaseData));
      }
      ghost var inserted := store.Snapshot();
      assert inserted == s0.(orders := s0.orders[orderId := record],
                             statuses := s0.statuses[orderId := Pending],
                             nextId := s0.nextId + 1);
      if !gatewayFor(configId) {
        return NoGateway;
      }
      match reply {
        case StartFailed(messages) =>
          store.RecordGatewayError(PaymentErrorTitle, orderId);
          store.SetError(ErrorKeyPrefix, defaultError);
          SetErrorMessages(store, messages);
          assert store.Snapshot() == inserted.(
            gatewayErrors := inserted.gatewayErrors + [GatewayError(PaymentErrorTitle, orderId)],
            errors := SetErrors(Put(inserted.errors, StrKey(ErrorKeyPrefix), Str(defaultError)), messages));
          outcome := SentBackToCheckout(BackToCheckoutQuery(purchaseData));
        case Started(paymentId, transactionId) =>
          store.SetTransactionId(orderId, transactionId);
          store.InsertNote(orderId, PendingNote(paymentId));
          outcome := RedirectedToGateway(paymentId);
      }
    }

    /** `get_payment_transaction_id`: this gateway never supplies one. */
    function GetPaymentTransactionId(paymentId: int): (r: Value)
      ensures r.Null?
    {
      Null
    }
  }

  /** `foreach ( $error->get_error_messages() as $i => $message )`: one session error per message. */
  method SetErrorMessages(store: Store, messages: seq<string>)
    modifies store
    ensures store.Snapshot() == old(store.Snapshot()).(errors := SetErrors(old(store.errors), messages))
  {
    ghost var base := store.Snapshot();
    var i := 0;
    while i < |messages|
      invariant 0 <= i <= |messages|
      invariant store.errors == SetErrors(base.errors, messages[..i])
      invariant store.Snapshot() == base.(errors := store.errors)
    {
      store.SetError(ErrorKey(i), messages[i]);
      assert messages[..i + 1][..i] == messages[..i];
      assert SetErrors(base.errors, messages[..i + 1])
          == Put(SetErrors(base.errors, messages[..i]), StrKey(ErrorKey(i)), Str(messages[i]));
      i := i + 1;
    }
    assert messages[..i] == messages;
  }

  /** `'?payment-mode=' . $purchase_data['post_data']['edd-gateway']`. */
  function BackToCheckoutQuery(purchaseData: Entries): (q: string)
    ensures "?payment-mode=" <= q
  {
    "?payment-mode=" + ToStr(At(At(Arr(purchaseData), "post_data"), "edd-gateway"))
  }

  /** When the order cannot be inserted, nothing but the gateway-error log changes and the buyer goes back. */
  lemma InsertRefusedSendsBack(g: Gateway, s: State, purchaseData: Entries, site: Site,
                               gatewayFor: Value -> bool, reply: StartReply, defaultError: string)
    ensures var (outcome, t) := g.ProcessPurchaseSpec(s, purchaseData, site, false, gatewayFor, reply, defaultError);
      && outcome.SentBackToCheckout?
      && t == s.(gatewayErrors := s.gatewayErrors + [GatewayError(PaymentErrorTitle, 0)])
  {
  }

  /**
   * An inserted order is recorded as pending with this gateway's id. When
   * every recorded id is below the next one, as the store keeps it, the new
   * id is fresh and no earlier order is overwritten.
   */
  lemma InsertedOrderIsPending(g: Gateway, s: State, purchaseData: Entries, site: Site,
                               gatewayFor: Value -> bool, reply: StartReply, defaultError: string)
    requires forall id :: id in s.orders ==> id < s.nextId
    ensures s.nextId !in s.orders
    ensures var (_, t) := g.ProcessPurchaseSpec(s, purchaseData, site, true, gatewayFor, reply, defaultError);
      && s.nextId in t.orders
      && t.orders == s.orders[s.nextId := g.Record(purchaseData, site.currency).ToEntries()]
      && t.nextId == s.nextId + 1
      && t.statuses[s.nextId] == Pending
      && t.orders[s.nextId] == g.Record(purchaseData, site.currency).ToEntries()
  {
  }

  /**
   * A gateway error sets the default error and one error per message under
   * its own key, keeps every other session error, stores no transaction id
   * and sends the buyer back.
   */
  lemma {:induction false} GatewayErrorSetsMessages(g: Gateway, s: State, purchaseData: Entries, site: Site,
                                                   gatewayFor: Value -> bool, messages: seq<string>, defaultError: string)
    requires gatewayFor(GetOption(site, g.id + "_config_id"))
    ensures var (outcome, t) := g.ProcessPurchaseSpec(s, purchaseData, site, true, gatewayFor, StartFailed(messages), defaultError);
      && outcome.SentBackToCheckout?
      && t.transactionIds == s.transactionIds
      && t.notes == s.notes
      && Lookup(t.errors, StrKey(ErrorKeyPrefix)) == Some(Str(defaultError))
      && (forall i :: 0 <= i < |messages| ==> Lookup(t.errors, StrKey(ErrorKey(i))) == Some(Str(messages[i])))
      && (forall k :: k != StrKey(ErrorKeyPrefix) && k !in ErrorKeys(|messages|) ==> Lookup(t.errors, k) == Lookup(s.errors, k))
  {
    var withDefault := Put(s.errors, StrKey(ErrorKeyPrefix), Str(defaultError));
    SetErrorsLookup(withDefault, messages);
    ErrorKeysMissDefault(|messages|);
  }

  /** A started payment stores its transaction id and a pending note on the new order. */
  lemma StartedRecordsTransaction(g: Gateway, s: State, purchaseData: Entries, site: Site,
                                  gatewayFor: Value -> bool, paymentId: int, transactionId: string, defaultError: string)
    requires gatewayFor(GetOption(site, g.id + "_config_id"))
    ensures var (outcome, t) := g.ProcessPurchaseSpec(s, purchaseData, site, true, gatewayFor, Started(paymentId, transactionId), defaultError);
      && outcome == RedirectedToGateway(paymentId)
      && t.transactionIds == s.transactionIds[s.nextId := transactionId]
      && t.notes == s.notes + [Note(s.nextId, PendingNote(paymentId))]
      && t.errors == s.errors
  {
  }
}
