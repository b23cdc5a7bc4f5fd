# Pronamic Pay for Easy Digital Downloads — a Dafny model

This project models the adapter that plugs Pronamic Pay's payment methods
into the Easy Digital Downloads (EDD) shop plugin for WordPress. It covers:

- **Status reconciliation.** A Pronamic payment-status callback is reconciled
  with the EDD order: the order status, the order notes, the cart and the URL
  the buyer is sent to. An order that is already `publish` is never changed.
- **Refund bookkeeping.** A refund is started from the EDD order screen. A
  refunded amount reported by Pronamic Pay is copied into the order's
  `_pronamic_pay_amount_refunded` meta, and the order becomes
  `partially_refunded` or `refunded`.
- **Gateways.** Each Pronamic payment method is registered as an EDD gateway,
  with its labels and settings. At checkout it records a pending order, starts
  the payment, and then either redirects the buyer or sends them back with
  session errors.
- **Payment data.** The proxy handed to Pronamic Pay: the templated
  description, the single line item, customer fields and the return URLs.
- **Company name.** The optional field: required at checkout, stored as
  order meta, merged into PDF-invoice addresses, exported to CSV and offered as
  an email tag.
- **Purchase data.** Reading cleaned optional fields out of EDD's purchase data.
- **Integrations.** The filter that adds the extension to Pronamic Pay's
  integration list, unless one is already there.

## How it is modelled

- PHP values and ordered arrays are modelled in module `Php`. An array is a
  sequence of key/value entries. `Lookup` is `array_key_exists` plus a read.
  `Put` is `$a[$k] = $v`: an existing entry is overwritten where it stands,
  and a new one is appended. Module `Php` also models `empty`, `(string)`,
  `trim`, `is_numeric`, `substr($s, 0, $n)` and `implode`.
- EDD and WordPress persistence is the class `Store.Store`. It holds order
  statuses, order meta, the note log, the cart flag, transaction ids, checkout
  session errors, the gateway-error log and the inserted orders.
- The store's primitive writes are methods of `Store.Store`. The plugin's
  state-changing operations (`StatusUpdate`, `ProcessRefund`,
  `MaybeRefundPayment`, `MaybeUpdateRefundedPayment`, `EddInsertPayment`,
  `EddUpdatedEditedPurchase`, `SetErrorMessages`, `Gateway.ProcessPurchase`)
  are module or gateway methods that take the store. Most are proved equal to
  a named specification function over the store's state (`State`), and the
  properties are proved about those functions. `EddInsertPayment` and
  `EddUpdatedEditedPurchase` state their new store directly as an update of
  the old one.
- `PaymentData.PaymentData.GetDescription` changes only the payment-data
  proxy (its cached description), not the store.
- Everything outside the plugin's own code is a parameter:
  - WordPress's text filters (`wp_unslash`, `sanitize_text_field`,
    `FILTER_SANITIZE_STRING`) are uninterpreted string functions.
  - `plugins_url`, `get_permalink`, `edd_get_payment_number` and the settings
    behind `edd_get_option` are fields of `Wp.Site`.
  - The Pronamic lookups and `Plugin::get_gateway` are fields of
    `RefundsManager.Pay` or function parameters.
  - The replies of `Plugin::start` and `Plugin::create_refund` are
    parameters (`Gateways.StartReply`, `RefundsManager.RefundReply`).
- `__()` is the identity. Amounts are integers in minor units.
- The order-status vocabulary follows what the code writes. The constants in
  src/EasyDigitalDownloads.php:19-54 do not list `partially_refunded`, but
  src/RefundsManager.php:179 writes it, so `Statuses.OrderStatus` includes it.

## Model

| member | source | states |
|---|---|---|
| Statuses.NameInjective | src/EasyDigitalDownloads.php:19-54 | distinct order statuses are stored as distinct strings, `partially_refunded` included |
| Extension.ShouldUpdate | src/Extension.php:62-63 | strictly comparing EDD's answer with the string `publish` updates exactly the orders whose status is not `Publish`, including orders EDD does not know |
| Extension.Reconcile | src/Extension.php:64-124 | an order already `publish` gets no note and is never moved off `publish`; only `abandoned`, `failed` or `publish` is ever written; `publish` and emptying the cart happen exactly on SUCCESS; an order not yet completed hears of every callback except a cancellation |
| Extension.StatusUpdate | src/Extension.php:58-132 | the store afterwards differs from before exactly by the reconciled status, note and cart flag; a redirect to the chosen URL happens if and only if `can_redirect` is set |
| Extension.CancelledChangesNothing | src/Extension.php:74-77 | CANCELLED writes no status and no note, leaves the cart alone and selects the cancel URL |
| Extension.ExpiredAbandons | src/Extension.php:78-85 | EXPIRED sets `abandoned` exactly when the order is not `publish`, and always selects the error URL |
| Extension.FailureFails | src/Extension.php:86-93 | FAILURE sets `failed` exactly when the order is not `publish`, and always selects the error URL |
| Extension.SuccessCompletes | src/Extension.php:94-112 | SUCCESS always ends in `publish` with the cart emptied and the success URL; the "Payment completed." note is added only to an order not yet `publish` |
| Extension.OpenAndUnknownOnlyNote | src/Extension.php:113-124 | OPEN and unknown statuses never change the status or the cart, keep the normal-return URL, and add a note if and only if the order is not `publish` |
| Extension.UrlIgnoresOrderStatus | src/Extension.php:69-124 | the chosen URL depends on the payment status alone, never on the order's status |
| Extension.RepeatedSuccess | src/Extension.php:94-112 | two SUCCESS callbacks leave the order `publish` with the cart emptied and add at most one note, and none when the order was already `publish` |
| Extension.AcceptedPaymentIcons | src/Extension.php:169-182 | the iDEAL and Bancontact/Mister Cash icon URLs map to their labels; every other entry keeps its value; no key is lost and at most two are added |
| RefundsManager.OffersRefundControl | src/RefundsManager.php:40-55 | the refund control is offered if and only if the gateway id starts with `pronamic_` and its Pronamic gateway exists and supports refunds |
| RefundsManager.RefundNoteText | src/RefundsManager.php:199-225 | the note always starts "Refunded <amount> for <payment link>"; the gateway reference sentence is added exactly when a reference is given |
| RefundsManager.ProcessRefundSpec | src/RefundsManager.php:112-148 | with no gateway it throws before any write; it throws exactly when the gateway is missing or the refund fails, and then nothing changes; otherwise the amount refunded is the order's stored total, the refunded meta becomes the payment's previous refunded amount (0 if none) plus that total, and a refund note naming the reply's reference is appended; statuses never change |
| RefundsManager.ProcessRefund | src/RefundsManager.php:112-148 | the outcome and the new store are those of `ProcessRefundSpec` |
| RefundsManager.MaybeRefundPayment | src/RefundsManager.php:82-103 | nothing changes unless the refund flag was posted and a Pronamic payment matches the order's transaction id; otherwise the store becomes that of `ProcessRefundSpec`, and an exception ends the request with its message |
| RefundsManager.SyncDecision | src/RefundsManager.php:170-188 | nothing is written exactly when the stored meta already holds the reported amount; otherwise the meta becomes that amount, the status is `partially_refunded` below the total and `refunded` from the total on, and the note amount is the new amount minus the stored one |
| RefundsManager.UpdateRefundedSpec | src/RefundsManager.php:157-189 | with no refunded amount, no matching order or an unchanged amount the store is untouched; a sync writes the amount to the meta, sets the status by comparing it with the total and appends a refund note without a reference |
| RefundsManager.UpdateRefundedIdempotent | src/RefundsManager.php:159-174 | reporting the same payment a second time leaves the store exactly as the first report left it |
| RefundsManager.MaybeUpdateRefundedPayment | src/RefundsManager.php:157-189 | the outcome and the new store are those of `UpdateRefundedSpec` |
| CompanyNameController.PurchaseFormRequiredFields | src/CompanyNameController.php:196-203 | `edd_company` becomes required with `error_id` `invalid_company`; every other required field keeps its entry and its place |
| CompanyNameController.PostedText | src/CompanyNameController.php:212 | a field that is not posted (or is null) reads as "" |
| CompanyNameController.EddPaymentMeta | src/CompanyNameController.php:211-215 | `company` holds the cleaned posted company, or "" when none was posted; every other entry is kept |
| CompanyNameController.EddInsertPayment | src/CompanyNameController.php:222-226 | only the order's `_edd_payment_company` meta changes, to the cleaned posted company or "" |
| CompanyNameController.EddUpdatedEditedPurchase | src/CompanyNameController.php:233-241 | only the order's `_edd_payment_company` meta changes, to the company edited on the admin screen or "" |
| CompanyNameController.MergeAddressLines | src/CompanyNameController.php:286-296 | an empty line 1 (PHP `empty`, so also "0") becomes the company with line 2 unchanged; with line 2 empty, line 1 moves down and the company takes its place; otherwise line 1 becomes "company - line1"; the company always heads line 1 and no non-empty line is lost |
| CompanyNameController.EddGetPaymentMeta | src/CompanyNameController.php:266-302 | the meta comes back unchanged unless `edd-action` or `edd_action` is `generate_pdf_invoice` and `user_info` is set; then only `user_info.address.line1` and `line2` change, to the merged lines, and every other key at every level is kept |
| CompanyNameController.EddExportCsvColsPayments | src/CompanyNameController.php:309-313 | a `company` column titled "Company" is added and the other columns are kept |
| CompanyNameController.ExportRow | src/CompanyNameController.php:322-326 | a row with a set `id` gains that order's stored company under `company`, other entries kept; any other row is unchanged |
| CompanyNameController.EddExportGetDataPayments | src/CompanyNameController.php:320-330 | the export keeps the number of rows and each row's key and position; every row is transformed by `ExportRow` |
| CompanyNameController.EmailTagCompanyName | src/CompanyNameController.php:340-344 | the tag is the order's stored company, or "" when none is stored |
| CompanyNameController.EmailTagAfterInsert | src/CompanyNameController.php:222-226 | after the checkout stores the company, the email tag shows exactly the cleaned posted company |
| PurchaseDataHelper.Cleaned | src/PurchaseDataHelper.php:44-47 | a cleaned value has no trim character at either end |
| PurchaseDataHelper.CleanedIsTrimmed | src/PurchaseDataHelper.php:44-47 | trimming a cleaned value once more leaves it unchanged |
| PurchaseDataHelper.PostDataValue | src/PurchaseDataHelper.php:29-54 | null when `post_data` is missing or not an array, or lacks the key; otherwise the cleaned value if and only if that is not PHP-empty; a result is never "" or "0" and has no whitespace at either end |
| PurchaseDataHelper.CompanyName | src/PurchaseDataHelper.php:62-69 | the extractor applied to `edd_company` |
| PurchaseDataHelper.VatNumber | src/PurchaseDataHelper.php:77-84 | the extractor applied to `vat_number` |
| PaymentData.LongestMatch | src/PaymentData.php:97-103 | the chosen replace pair is a non-empty key that the text starts with, and no longer key matches; none is chosen only when no non-empty key matches |
| PaymentData.StrtrWithoutKeys | src/PaymentData.php:97-103 | a string in which no key occurs is returned unchanged by the single-pass replacement |
| PaymentData.StrtrReplacesMatch | src/PaymentData.php:97-103 | a matched key is replaced by its value and the scan resumes after the key, so substituted text is never rescanned |
| PaymentData.CartPlaceholderMatches | src/PaymentData.php:97-100 | a template starting with `{edd_cart_details_name}` matches that placeholder and not `{edd_payment_id}` |
| PaymentData.DefaultTemplateIsCartName | src/PaymentData.php:83-103 | the default template yields the cart name verbatim, even when the cart name contains a placeholder |
| PaymentData.PlainTemplateUnchanged | src/PaymentData.php:97-103 | a template with neither placeholder is returned unchanged |
| PaymentData.PluckNames | src/PaymentData.php:91 | plucking yields at most one name per cart item |
| PaymentData.PluckNamesAppend | src/PaymentData.php:91 | plucking keeps cart order: an item added at the end adds its name at the end |
| PaymentData.Strings | src/PaymentData.php:93 | each plucked name is cast to a string, position by position |
| PaymentData.CartDetailsName | src/PaymentData.php:88-94 | the cart name is "" when `cart_details` is not an array |
| PaymentData.CartNameKeepsCartOrder | src/PaymentData.php:88-94 | the cart name lists item names joined by ", " in cart order: adding an item appends ", " and its name |
| PaymentData.PaymentData.constructor | src/PaymentData.php:43-48 | the proxy keeps the payment id and data and starts with no description |
| PaymentData.PaymentData.SourceId | src/PaymentData.php:57-59 | the source id is the payment id given to the constructor |
| PaymentData.PaymentData.Source | src/PaymentData.php:67-69 | the source is `easydigitaldownloads` |
| PaymentData.PaymentData.GetDescription | src/PaymentData.php:82-106 | an empty template becomes `{edd_cart_details_name}` and stays so; the result is the single-pass replacement of both placeholders, so an empty template yields the cart name |
| PaymentData.PaymentData.GetItems | src/PaymentData.php:133-148 | exactly one item: numbered by the payment id, described by the description, priced by `payment_data['price']`, quantity 1 |
| PaymentData.PaymentData.CustomerName | src/PaymentData.php:183-197 | "first last" with both names, "first" without a last name, "" without a first name even when a last name is present |
| PaymentData.NormalReturnUrl | src/PaymentData.php:213-215 | the normal return URL is the home URL |
| PaymentData.PageUrl | src/PaymentData.php:217-245 | the cancel, success and error URLs are the permalink of their page setting when that setting is numeric, else the home URL |
| PaymentData.CancelUrlIsErrorUrl | src/PaymentData.php:217-245 | the cancel and error URLs are always the same |
| Gateways.Gateway.constructor | src/Gateway.php:46-65 | missing arguments take their defaults; a non-empty `<id>_checkout_label` setting overrides the checkout label |
| Gateways.Gateway.PaymentGateways | src/Gateway.php:92-100 | the gateway id maps to (admin label, checkout label, supports); other gateways keep their entries; at most one key is added |
| Gateways.Gateway.SettingsGateways | src/Gateway.php:111-134 | exactly the keys `<id>`, `<id>_config_id` and `<id>_checkout_label` are set, the last defaulting to the current checkout label; other settings are kept; at most three keys are added |
| Gateways.Gateway.Record | src/Gateway.php:183-194 | the recorded payment has status `pending`, gateway = id and the shop currency; price, date, email, purchase key, downloads, user info and cart details are copied from the purchase data |
| Gateways.ErrorKeyInjective | src/Gateway.php:219-223 | distinct message positions get distinct `pronamic_pay_error_<i>` keys, none equal to `pronamic_pay_error` |
| Gateways.SetErrorsLookup | src/Gateway.php:221-223 | after setting the messages, each message is found under its own key, and every other key keeps its entry |
| Gateways.SetErrorMessages | src/Gateway.php:221-223 | the loop leaves the session errors as `SetErrors` describes and changes nothing else |
| Gateways.Gateway.ProcessPurchase | src/Gateway.php:179-251 | the outcome and the new store are those of `ProcessPurchaseSpec` |
| Gateways.InsertRefusedSendsBack | src/Gateway.php:197-204 | when the order cannot be inserted, no gateway is started, only the gateway-error log changes, and the buyer is sent back to checkout |
| Gateways.InsertedOrderIsPending | src/Gateway.php:183-197 | when every recorded id is below the next id (the store's invariant), an inserted order gets a fresh id, the status `pending` and the payment record; the other orders are unchanged and the next id advances by one |
| Gateways.GatewayErrorSetsMessages | src/Gateway.php:214-225 | a gateway error sets the default error and one error per message under its own key, keeps every other session error, stores no transaction id and no note, and sends the buyer back |
| Gateways.StartedRecordsTransaction | src/Gateway.php:226-247 | a started payment stores its transaction id and a pending note on the new order, sets no session error and redirects |
| Gateways.BackToCheckoutQuery | src/Gateway.php:204 | the buyer is sent back with a `?payment-mode=` query |
| Gateways.Gateway.GetPaymentTransactionId | src/Gateway.php:260-262 | the gateway never supplies a transaction id |
| Integrations.AddIntegration | pronamic-pay-easy-digital-downloads.php:30-40 | a list that already holds the extension is returned unchanged; otherwise exactly one extension is appended at the end, earlier entries keep their order, and the result always holds the extension |
| Integrations.FilterIntegrations | pronamic-pay-easy-digital-downloads.php:31-39 | the search loop with its early return computes `AddIntegration` |
| Integrations.AddIntegrationIdempotent | pronamic-pay-easy-digital-downloads.php:31-39 | applying the filter twice gives the same list as applying it once |
| Integrations.AddIntegrationSingleExtension | pronamic-pay-easy-digital-downloads.php:37-39 | when the extension was absent, the result holds it only at the appended position |

## Left out

- HTML and JavaScript output is not modelled: `input_checkbox`, `purchase_form`, `edd_payment_view_details`, the script of `order_admin_script`, `payment_fields`, `source_text`. Only the guard deciding whether the refund control is shown is modelled.
- Hook and settings registration is not modelled: `setup`, `bootstrap`, `plugins_loaded`, `register_settings`, `admin_init`, and the `add_action`/`add_filter` calls in the gateway constructor. They only wire callbacks.
- `Plugin::start`, `Plugin::create_refund`, `Plugin::get_gateway`, `$gateway->redirect`, `wp_redirect`, `exit` and `wp_die` are external services. They become reply parameters and outcome values.
- The per-method gateway subclasses only configure ids, labels and the payment method. The Bancontact and Mister Cash gateways share one id, so `payment_gateways` keeps whichever registers last; this follows from `Gateways.Gateway.PaymentGateways`.
- `get_title` (the text "Easy Digital Downloads order <order id>") and `get_currency_alphabetic_code` (the `currency` setting) are plain formatting and settings reads outside the modelled core; `get_address`, `get_city` and `get_zip` return unset values. None of them is modelled. `get_email`, `get_first_name`, `get_last_name` and `get_order_id` are plain reads without a contract of their own.
- The refund amounts use the `Money` class. Here they are integers in minor units, and `format_i18n` is a string parameter of `RefundsManager.RefundNoteText`.
- `Money::add` and `Money::subtract` are taken to update the amount in place. The refund code ignores their return values and relies on that.
- The store's notes record the amount, payment id and reference of a refund note (`Store.RefundNote`), not its rendered HTML text or the payment edit link.
- The pending note of `process_purchase` is likewise recorded as `Store.PendingNote`.
- `Store.RecordGatewayError` keeps only the title and payment id of an `edd_record_gateway_error` entry. Its message, which embeds the payment data encoded by `json_encode`, is not modelled.
- EDD's own side effects of a status change (its notes, emails and logs) are outside the plugin and not modelled.
- RefundsManager.MaybeUpdateRefundedPayment: the check of line 172 is modelled as equality of the stored meta with the reported amount. PHP's strict `===` between a meta string and a number is type-dependent and is not reproduced.
- RefundsManager.UpdateRefundedSpec: when `edd_get_payment` finds no order, PHP fails when it calls a method on `false`. The model ends with the outcome `OrderNotFound` and writes nothing.
- `edd_get_payment_meta` cannot write into a scalar `user_info` or `address`. `CompanyNameController.EddGetPaymentMeta` returns None in that case. Reading an offset of a scalar is taken to give null.
- CompanyNameController.EddUpdatedEditedPurchase: EDD's payment meta and WordPress's post meta are one meta store here. The two writes of the same value are one observable change.
- Php.IsNumeric: `is_numeric` is modelled for integers and signed decimal strings. Exponents, leading whitespace and floats are not modelled, because no option holds them.
- Numeric-string array keys are not converted to integer keys, and a gateway id is taken to be a string.
- `get_permalink` is assumed to return a string. Its `false` result for a missing page is not distinguished.
- The integration list is a sequence of entries, without PHP array keys. Only this plugin's extension is told apart from other integrations.
