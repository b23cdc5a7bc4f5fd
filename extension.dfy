/**
 * The hook subscriber: reconciles an EDD order with a Pronamic payment-status
 * callback, and adds the payment icons to EDD's list.
 */
module Extension {
  import opened Wrappers
  import opened Php
  import opened Wp
  import opened Statuses
  import opened Store
  import opened PaymentData

  /** Which of the payment-data URLs the buyer is sent to. */
  datatype UrlChoice = NormalReturn | CancelPage | ErrorPage | SuccessPage

  /**
   * What `status_update` does to an order: the status it writes (if any), the
   * note it adds (if any), whether it empties the cart, and the URL it picks.
   */
  datatype Effect = Effect(newStatus: Option<OrderStatus>, note: Option<string>, emptyCart: bool, url: UrlChoice)

  /** What `edd_get_payment_status` answers: the stored status string, or false for an unknown order. */
  function PaymentStatusValue(current: Option<OrderStatus>): (v: Value)
    ensures v.Str? <==> current.Some?
    ensures current.None? ==> v == Bool(false)
  {
    match current
    case Some(st) => Str(st.Name())
    case None => Bool(false)
  }

  /**
   * The guard: the answer is strictly compared with the string `publish`, so
   * only an order whose status is not `publish` (or that EDD does not know)
   * is updated.
   */
  function ShouldUpdate(current: Option<OrderStatus>): (r: bool)
    ensures r <==> current != Some(Publish)
  {
    assert current.Some? && current.value.Name() == Publish.Name() ==> current.value == Publish by {
      if current.Some? && current.value.Name() == Publish.Name() {
        NameInjective(current.value, Publish);
      }
    }
    PaymentStatusValue(current) != Str(Publish.Name())
  }

  /** The reconciliation table of `status_update`, given the order's current status. */
  function Reconcile(current: Option<OrderStatus>, status: PaymentStatus): (e: Effect)
    // A completed order is never moved away from `publish` and gets no note.
    ensures !ShouldUpdate(current) ==> e.note.None? && e.newStatus in {None, Some(Publish)}
    // The only statuses ever written.
    ensures e.newStatus in {None, Some(Abandoned), Some(Failed), Some(Publish)}
    // Only a successful payment completes the order and empties the cart.
    ensures e.newStatus == Some(Publish) <==> status.Success?
    ensures e.emptyCart <==> status.Success?
    // An open order hears of every callback except a cancellation.
    ensures ShouldUpdate(current) && !status.Cancelled? ==> e.newStatus.Some? || e.note.Some?
  {
    match status
    case Cancelled =>
      Effect(None, None, false, CancelPage)
    case Expired =>
      Effect(if ShouldUpdate(current) then Some(Abandoned) else None, None, false, ErrorPage)
    case Failure =>
      Effect(if ShouldUpdate(current) then Some(Failed) else None, None, false, ErrorPage)
    case Success =>
      Effect(Some(Publish), if ShouldUpdate(current) then Some("Payment completed.") else None, true, SuccessPage)
    case Open =>
      Effect(None, if ShouldUpdate(current) then Some("Payment open.") else None, false, NormalReturn)
    case Other(_) =>
      Effect(None, if ShouldUpdate(current) then Some("Payment unknown.") else None, false, NormalReturn)
  }

  /** The URL a choice stands for. */
  function UrlFor(choice: UrlChoice, site: Site): string {
    match choice
    case NormalReturn => NormalReturnUrl(site)
    case CancelPage => CancelUrl(site)
    case ErrorPage => ErrorUrl(site)
    case SuccessPage => SuccessUrl(site)
  }

  /** The statuses map after an effect. */
  function ApplyStatus(statuses: map<int, OrderStatus>, id: int, e: Effect): map<int, OrderStatus> {
    if e.newStatus.Some? then statuses[id := e.newStatus.value] else statuses
  }

  /** The note log after an effect. */
  function ApplyNote(notes: seq<Note>, id: int, e: Effect): seq<Note> {
    if e.note.Some? then notes + [Note(id, Text(e.note.value))] else notes
  }

  /**
   * `status_update`: applies the reconciliation table to the order and
   * returns the redirect, which happens only when `canRedirect` is set.
   */
  method StatusUpdate(store: Store, sourceId: int, status: PaymentStatus, canRedirect: bool, site: Site)
    returns (redirect: Option<string>)
    modifies store
    ensures var e := Reconcile(old(store.Status(sourceId)), status);
      && store.Snapshot() == old(store.Snapshot()).(
           statuses := ApplyStatus(old(store.statuses), sourceId, e),
           notes := ApplyNote(old(store.notes), sourceId, e),
           cartEmptied := old(store.cartEmptied) || e.emptyCart)
      && redirect == (if canRedirect then Some(UrlFor(e.url, site)) else None)
  {
    var shouldUpdate := PaymentStatusValue(store.Status(sourceId)) != Str(Publish.Name());
    var url := NormalReturnUrl(site);
    match status {
      case Cancelled =>
        url := CancelUrl(site);
      case Expired =>
        if shouldUpdate {
          store.UpdateStatus(sourceId, Abandoned);
        }
        url := ErrorUrl(site);
      case Failure =>
        if shouldUpdate {
          store.UpdateStatus(sourceId, Failed);
        }
        url := ErrorUrl(site);
      case Success =>
        if shouldUpdate {
          store.InsertNote(sourceId, Text("Payment completed."));
        }
        store.UpdateStatus(sourceId, Publish);
        store.EmptyCart();
        url := SuccessUrl(site);
      case Open =>
        if shouldUpdate {
          store.InsertNote(sourceId, Text("Payment open."));
        }
      case Other(_) =>
        if shouldUpdate {
          store.InsertNote(sourceId, Text("Payment unknown."));
        }
    }
    redirect := if canRedirect then Some(url) else None;
  }

  /** Cancellation changes neither status nor notes and picks the cancel URL. */
  lemma CancelledChangesNothing(current: Option<OrderStatus>)
    ensures Reconcile(current, Cancelled) == Effect(None, None, false, CancelPage)
  {
  }

  /** Expiry abandons an order that is not completed, and always picks the error URL. */
  lemma ExpiredAbandons(current: Option<OrderStatus>)
    ensures Reconcile(current, Expired).newStatus == if ShouldUpdate(current) then Some(Abandoned) else None
    ensures Reconcile(current, Expired).url == ErrorPage
  {
  }

  /** Failure fails an order that is not completed, and always picks the error URL. */
  lemma FailureFails(current: Option<OrderStatus>)
    ensures Reconcile(current, Failure).newStatus == if ShouldUpdate(current) then Some(Failed) else None
    ensures Reconcile(current, Failure).url == ErrorPage
  {
  }

  /**
   * Success always ends in `publish`, an empty cart and the success URL; the
   * "Payment completed." note is added only to an order not yet completed.
   */
  lemma SuccessCompletes(current: Option<OrderStatus>)
    ensures var e := Reconcile(current, Success);
      e.newStatus == Some(Publish) && e.emptyCart && e.url == SuccessPage
      && e.note == if ShouldUpdate(current) then Some("Payment completed.") else None
  {
  }

  /** Open and unknown statuses never change the status and keep the normal-return URL. */
  lemma OpenAndUnknownOnlyNote(current: Option<OrderStatus>, status: PaymentStatus)
    requires status.Open? || status.Other?
    ensures var e := Reconcile(current, status);
      e.newStatus.None? && !e.emptyCart && e.url == NormalReturn
      && (e.note.Some? <==> ShouldUpdate(current))
  {
  }

  /** The URL chosen depends on the payment status alone. */
  lemma UrlIgnoresOrderStatus(a: Option<OrderStatus>, b: Option<OrderStatus>, status: PaymentStatus)
    ensures Reconcile(a, status).url == Reconcile(b, status).url
  {
  }

  /**
   * Two SUCCESS callbacks for one order: it ends completed with the cart
   * emptied, and at most one note is added; none if it was already completed.
   */
  method RepeatedSuccess(store: Store, id: int, site: Site)
    modifies store
    ensures store.Status(id) == Some(Publish) && store.cartEmptied
    ensures |store.notes| <= |old(store.notes)| + 1
    ensures old(store.Status(id)) == Some(Publish) ==> store.notes == old(store.notes)
  {
    var _ := StatusUpdate(store, id, Success, false, site);
    var _ := StatusUpdate(store, id, Success, false, site);
  }

  const IdealIconPath: string := "images/ideal/icon-64x48.png"
  const MisterCashIconPath: string := "images/mister-cash/icon-64x48.png"

  /**
   * `accepted_payment_icons`: sets the iDEAL and Bancontact/Mister Cash icons,
   * keyed by their URLs; every other entry keeps its value and place.
   */
  function AcceptedPaymentIcons(icons: Entries, site: Site): (r: Entries)
    ensures var ideal, misterCash := StrKey(site.pluginsUrl(IdealIconPath)), StrKey(site.pluginsUrl(MisterCashIconPath));
      && Lookup(r, misterCash) == Some(Str("Bancontact/Mister Cash"))
      && (ideal != misterCash ==> Lookup(r, ideal) == Some(Str("iDEAL")))
      && (forall k :: k != ideal && k != misterCash ==> Lookup(r, k) == Lookup(icons, k))
      && Keys(icons) <= Keys(r)
      && |Keys(r)| <= |Keys(icons)| + 2
  {
    var withIdeal := Put(icons, StrKey(site.pluginsUrl(IdealIconPath)), Str("iDEAL"));
    Put(withIdeal, StrKey(site.pluginsUrl(MisterCashIconPath)), Str("Bancontact/Mister Cash"))
  }
}
