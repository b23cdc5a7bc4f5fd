/**
 * The optional company-name field: a required checkout field, stored as
 * order meta, shown on PDF invoices, exported to CSV and offered as an
 * email tag.
 */
module CompanyNameController {
  import opened Wrappers
  import opened Php
  import opened Wp
  import opened Store

  /** The order-meta key holding the company name. */
  const CompanyMetaKey: string := "_edd_payment_company"
  /** The EDD action for which invoice addresses are rewritten. */
  const PdfInvoiceAction: string := "generate_pdf_invoice"

  /** `purchase_form_required_fields`: the entry EDD uses to demand the company. */
  function CompanyRequirement(): Value {
    Arr([(StrKey("error_id"), Str("invalid_company")),
         (StrKey("error_message"), Str("Please enter your company name"))])
  }

  /**
   * `purchase_form_required_fields`: `edd_company` becomes required with the
   * `invalid_company` error; every other required field is kept as it was.
   */
  function PurchaseFormRequiredFields(required: Entries): (r: Entries)
    ensures Lookup(r, StrKey("edd_company")) == Some(CompanyRequirement())
    ensures At(At(Arr(r), "edd_company"), "error_id") == Str("invalid_company")
    ensures forall k :: k != StrKey("edd_company") ==> Lookup(r, k) == Lookup(required, k)
    ensures Keys(r) == if StrKey("edd_company") in Keys(required) then Keys(required) else Keys(required) + [StrKey("edd_company")]
  {
    Put(required, StrKey("edd_company"), CompanyRequirement())
  }

  /** `isset( $_POST[key] ) ? sanitize_text_field( wp_unslash( $_POST[key] ) ) : ''`. */
  function PostedText(post: Entries, key: string, f: TextFilters): (r: string)
    ensures !IsSet(Arr(post), key) ==> r == ""
  {
    if IsSet(Arr(post), key) then SanitizeUnslashed(At(Arr(post), key), f) else ""
  }

  /** `edd_payment_meta`: the submitted company (or "") is added under `company`. */
  function EddPaymentMeta(paymentMeta: Entries, request: Request, f: TextFilters): (r: Entries)
    ensures Lookup(r, StrKey("company")) == Some(Str(PostedText(request.post, "edd_company", f)))
    ensures !IsSet(Arr(request.post), "edd_company") ==> Lookup(r, StrKey("company")) == Some(Str(""))
    ensures forall k :: k != StrKey("company") ==> Lookup(r, k) == Lookup(paymentMeta, k)
    ensures Keys(paymentMeta) <= Keys(r)
  {
    Put(paymentMeta, StrKey("company"), Str(PostedText(request.post, "edd_company", f)))
  }

  /** `edd_insert_payment`: the submitted company (or "") is stored on the new order. */
  method EddInsertPayment(store: Store, paymentId: int, request: Request, f: TextFilters)
    modifies store
    ensures store.Snapshot() == old(store.Snapshot()).(
      meta := old(store.meta)[(paymentId, CompanyMetaKey) := Str(PostedText(request.post, "edd_company", f))])
    ensures store.Meta(paymentId, CompanyMetaKey) == Str(PostedText(request.post, "edd_company", f))
  {
    var company := PostedText(request.post, "edd_company", f);
    store.UpdateMeta(paymentId, CompanyMetaKey, Str(company));
  }

  /**
   * `edd_updated_edited_purchase`: the company edited on the admin screen
   * (or "") replaces the stored one.
   */
  method EddUpdatedEditedPurchase(store: Store, paymentId: int, request: Request, f: TextFilters)
    modifies store
    ensures store.Snapshot() == old(store.Snapshot()).(
      meta := old(store.meta)[(paymentId, CompanyMetaKey) := Str(PostedText(request.post, "edd-payment-company", f))])
  {
    var company := PostedText(request.post, "edd-payment-company", f);
    // EDD's own payment meta and the WordPress post meta are one store here.
    store.UpdateMeta(paymentId, CompanyMetaKey, Str(company));
    store.UpdateMeta(paymentId, CompanyMetaKey, Str(company));
  }

  /** One GET parameter, filtered, names the PDF-invoice action. */
  predicate ActionIs(request: Request, name: string, f: TextFilters) {
    var v := Lookup(request.get, StrKey(name));
    v.Some? && v.value.Str? && f.sanitizeString(v.value.s) == PdfInvoiceAction
  }

  /** EDD PDF Invoices names its action `edd-action` or `edd_action`. */
  predicate PdfInvoiceRequested(request: Request, f: TextFilters) {
    ActionIs(request, "edd-action", f) || ActionIs(request, "edd_action", f)
  }

  /**
   * The invoice address lines with the company put in front: on an empty
   * first line, in place of the first line pushed down to an empty second
   * line, or joined to the first line with " - ".
   */
  function MergeAddressLines(line1: Value, line2: Value, company: Value): (r: (Value, Value))
    ensures Empty(line1) ==> r == (company, line2)
    ensures !Empty(line1) && Empty(line2) ==> r == (company, line1)
    ensures !Empty(line1) && !Empty(line2) ==> r == (Str(ToStr(company) + " - " + ToStr(line1)), line2)
    // The company always heads the first line ...
    ensures ToStr(company) <= ToStr(r.0)
    // ... and no non-empty address line is lost.
    ensures !Empty(line1) ==> r.1 == line1 || ToStr(r.0) == ToStr(company) + " - " + ToStr(line1)
    ensures !Empty(line2) ==> r.1 == line2
  {
    if Empty(line1) then (company, line2)
    else if Empty(line2) then (company, line1)
    else (Str(ToStr(company) + " - " + ToStr(line1)), line2)
  }

  /** Whether `$v[$k] = ...` can write into `v`: arrays, and null or false, which PHP turns into arrays. */
  predicate Writable(v: Value) {
    v.Arr? || v.Null? || v == Bool(false)
  }

  /** The entries `$v[$k] = ...` starts from. */
  function EntriesOf(v: Value): Entries {
    if v.Arr? then v.entries else []
  }

  /** `$meta['user_info']`. */
  function UserInfo(meta: Entries): Value {
    At(Arr(meta), "user_info")
  }

  /** `$meta['user_info']['address']`. */
  function Address(meta: Entries): Value {
    At(UserInfo(meta), "address")
  }

  /** Whether the nested address write changes `meta` (rather than being skipped). */
  predicate Rewrites(meta: Entries, request: Request, f: TextFilters) {
    PdfInvoiceRequested(request, f) && IsSet(Arr(meta), "user_info")
  }

  /**
   * `edd_get_payment_meta`: for a PDF invoice, the company name (the order's
   * stored company meta) is merged into the buyer's address lines; otherwise
   * the meta is returned untouched. None where PHP cannot write into a
   * scalar `user_info` or `address`.
   */
  function EddGetPaymentMeta(meta: Entries, company: Value, request: Request, f: TextFilters): (r: Option<Entries>)
    ensures !Rewrites(meta, request, f) ==> r == Some(meta)
    ensures r.None? <==> Rewrites(meta, request, f) && !(Writable(UserInfo(meta)) && Writable(Address(meta)))
    ensures r.Some? && Rewrites(meta, request, f) ==>
      var lines := MergeAddressLines(At(Address(meta), "line1"), At(Address(meta), "line2"), company);
      && Keys(r.value) == Keys(meta)
      && (forall k :: k != StrKey("user_info") ==> Lookup(r.value, k) == Lookup(meta, k))
      && (forall k :: k != StrKey("address") ==> Lookup(EntriesOf(UserInfo(r.value)), k) == Lookup(EntriesOf(UserInfo(meta)), k))
      && (forall k :: k != StrKey("line1") && k != StrKey("line2") ==>
            Lookup(EntriesOf(Address(r.value)), k) == Lookup(EntriesOf(Address(meta)), k))
      && At(Address(r.value), "line1") == lines.0
      && At(Address(r.value), "line2") == lines.1
  {
    if !Rewrites(meta, request, f) then Some(meta)
    else
      var info := UserInfo(meta);
      var address := Address(meta);
      if !Writable(info) || !Writable(address) then None
      else
        var lines := MergeAddressLines(At(address, "line1"), At(address, "line2"), company);
        var newAddress := Put(Put(EntriesOf(address), StrKey("line1"), lines.0), StrKey("line2"), lines.1);
        var newInfo := Put(EntriesOf(info), StrKey("address"), Arr(newAddress));
        Some(Put(meta, StrKey("user_info"), Arr(newInfo)))
  }

  /** `edd_export_csv_cols_payments`: a `company` column titled "Company". */
  function EddExportCsvColsPayments(cols: Entries): (r: Entries)
    ensures Lookup(r, StrKey("company")) == Some(Str("Company"))
    ensures forall k :: k != StrKey("company") ==> Lookup(r, k) == Lookup(cols, k)
    ensures Keys(cols) <= Keys(r)
  {
    Put(cols, StrKey("company"), Str("Company"))
  }

  /**
   * One exported row: a row with an `id` gains the stored company of that
   * order under `company`; any other row is left as it is.
   */
  function ExportRow(row: Value, companyOf: Value -> Value): (r: Value)
    ensures !IsSet(row, "id") ==> r == row
    ensures IsSet(row, "id") ==>
      && r.Arr?
      && Lookup(r.entries, StrKey("company")) == Some(companyOf(At(row, "id")))
      && (forall k :: k != StrKey("company") ==> Lookup(r.entries, k) == Lookup(row.entries, k))
  {
    if IsSet(row, "id") then Arr(Put(row.entries, StrKey("company"), companyOf(At(row, "id")))) else row
  }

  /**
   * `edd_export_get_data_payments`: every row is rewritten by `ExportRow`,
   * in place and in order; `companyOf` is the order's stored company meta.
   */
  method EddExportGetDataPayments(data: Entries, companyOf: Value -> Value) returns (out: Entries)
    ensures |out| == |data|
    ensures forall i :: 0 <= i < |data| ==> out[i] == (data[i].0, ExportRow(data[i].1, companyOf))
  {
    out := data;
    var i := 0;
    while i < |data|
      invariant 0 <= i <= |data| && |out| == |data|
      invariant forall j :: 0 <= j < i ==> out[j] == (data[j].0, ExportRow(data[j].1, companyOf))
      invariant forall j :: i <= j < |data| ==> out[j] == data[j]
    {
      var (key, payment) := data[i];
      if IsSet(payment, "id") {
        var paymentId := At(payment, "id");
        out := out[i := (key, Arr(Put(out[i].1.entries, StrKey("company"), companyOf(paymentId))))];
      }
      i := i + 1;
    }
  }

  /** `email_tag_company_name`: the stored company, "" when there is none. */
  function EmailTagCompanyName(store: Store, paymentId: int): (r: Value)
    reads store
    ensures (paymentId, CompanyMetaKey) !in store.meta ==> r == Str("")
    ensures (paymentId, CompanyMetaKey) in store.meta ==> r == store.meta[(paymentId, CompanyMetaKey)]
  {
    store.Meta(paymentId, CompanyMetaKey)
  }

  /** After the checkout stores the company, the email tag shows it. */
  method EmailTagAfterInsert(store: Store, paymentId: int, request: Request, f: TextFilters) returns (tag: Value)
    modifies store
    ensures tag == Str(PostedText(request.post, "edd_company", f))
  {
    EddInsertPayment(store, paymentId, request, f);
    tag := EmailTagCompanyName(store, paymentId);
  }
}
