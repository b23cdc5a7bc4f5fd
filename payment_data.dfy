/**
 * The payment-data proxy the gateway hands to Pronamic Pay: identifiers,
 * the templated description, the single line item, customer fields and the
 * return URLs.
 */
module PaymentData {
  import opened Wrappers
  import opened Php
  import opened Wp

  const CartNamePlaceholder: string := "{edd_cart_details_name}"
  const PaymentIdPlaceholder: string := "{edd_payment_id}"

  /** A line item as Pronamic Pay receives it. */
  datatype Item = Item(number: int, description: string, price: Value, quantity: int)

  /**
   * The pair whose key is the longest one that `s` starts with, as `strtr`
   * picks it; empty keys never match.
   */
  function LongestMatch(s: string, pairs: seq<(string, string)>): (r: Option<(string, string)>)
    ensures r.Some? ==> r.value in pairs && r.value.0 != "" && r.value.0 <= s
    ensures r.Some? ==> forall p :: p in pairs && p.0 != "" && p.0 <= s ==> |p.0| <= |r.value.0|
    ensures r.None? ==> forall p :: p in pairs && p.0 != "" ==> !(p.0 <= s)
  {
    if pairs == [] then None
    else
      var rest := LongestMatch(s, pairs[1..]);
      var p := pairs[0];
      if p.0 != "" && p.0 <= s && (rest.None? || |rest.value.0| < |p.0|) then Some(p) else rest
  }

  /**
   * `strtr( $s, $pairs )`: a single left-to-right pass that replaces, at each
   * position, the longest matching key by its value and resumes after it.
   */
  function Strtr(s: string, pairs: seq<(string, string)>): string
    decreases |s|
  {
    if s == [] then ""
    else
      match LongestMatch(s, pairs)
      case Some(p) => p.1 + Strtr(s[|p.0|..], pairs)
      case None => [s[0]] + Strtr(s[1..], pairs)
  }

  /** A string in which no key occurs comes back unchanged. */
  lemma {:induction false} StrtrWithoutKeys(s: string, pairs: seq<(string, string)>)
    requires forall i, p :: 0 <= i < |s| && p in pairs && p.0 != "" ==> !(p.0 <= s[i..])
    ensures Strtr(s, pairs) == s
    decreases |s|
  {
    if s != [] {
      assert s[0..] == s;
      forall i, p | 0 <= i < |s| - 1 && p in pairs && p.0 != ""
        ensures !(p.0 <= s[1..][i..])
      {
        assert s[1..][i..] == s[i + 1..];
      }
      StrtrWithoutKeys(s[1..], pairs);
    }
  }

  /**
   * Once a key is matched, its value is emitted and the scan resumes after
   * the key: the substituted text is never scanned again.
   */
  lemma StrtrReplacesMatch(k: string, v: string, t: string, pairs: seq<(string, string)>)
    requires LongestMatch(k + t, pairs) == Some((k, v))
    ensures Strtr(k + t, pairs) == v + Strtr(t, pairs)
  {
    assert (k + t)[|k|..] == t;
  }

  /** The replace pairs of `get_description`. */
  function DescriptionPairs(cartName: string, orderId: string): seq<(string, string)> {
    [(CartNamePlaceholder, cartName), (PaymentIdPlaceholder, orderId)]
  }

  /** A template that starts with the cart-name placeholder matches exactly that placeholder. */
  lemma {:induction false} CartPlaceholderMatches(cartName: string, orderId: string, t: string)
    ensures LongestMatch(CartNamePlaceholder + t, DescriptionPairs(cartName, orderId))
         == Some((CartNamePlaceholder, cartName))
  {
    var s := CartNamePlaceholder + t;
    assert s[5] == 'c' && PaymentIdPlaceholder[5] == 'p';
    assert !(PaymentIdPlaceholder <= s);
    assert CartNamePlaceholder <= s;
  }

  /**
   * The default template yields the cart name, even when the cart name itself
   * contains a placeholder.
   */
  lemma {:induction false} DefaultTemplateIsCartName(cartName: string, orderId: string)
    ensures Strtr(CartNamePlaceholder, DescriptionPairs(cartName, orderId)) == cartName
  {
    CartPlaceholderMatches(cartName, orderId, "");
    assert CartNamePlaceholder + "" == CartNamePlaceholder;
    StrtrReplacesMatch(CartNamePlaceholder, cartName, "", DescriptionPairs(cartName, orderId));
  }

  /** A template holding neither placeholder is returned unchanged. */
  lemma PlainTemplateUnchanged(template: string, cartName: string, orderId: string)
    requires forall i :: 0 <= i < |template| ==>
      !(CartNamePlaceholder <= template[i..]) && !(PaymentIdPlaceholder <= template[i..])
    ensures Strtr(template, DescriptionPairs(cartName, orderId)) == template
  {
    StrtrWithoutKeys(template, DescriptionPairs(cartName, orderId));
  }

  /**
   * `wp_list_pluck( $items, 'name' )`: the `name` of every item that is an
   * array (null where it has none), in cart order; other items are skipped.
   */
  function PluckNames(items: Entries): (names: seq<Value>)
    ensures |names| <= |items|
  {
    if items == [] then []
    else (if items[0].1.Arr? then [At(items[0].1, "name")] else []) + PluckNames(items[1..])
  }

  lemma {:induction false} PluckNamesAppend(items: Entries, k: Key, item: Value)
    ensures PluckNames(items + [(k, item)])
         == PluckNames(items) + (if item.Arr? then [At(item, "name")] else [])
    decreases |items|
  {
    if items != [] {
      assert (items + [(k, item)])[1..] == items[1..] + [(k, item)];
      PluckNamesAppend(items[1..], k, item);
    }
  }

  /** Each value cast to a string. */
  function Strings(vs: seq<Value>): (r: seq<string>)
    ensures |r| == |vs| && forall i :: 0 <= i < |vs| ==> r[i] == ToStr(vs[i])
  {
    seq(|vs|, i requires 0 <= i < |vs| => ToStr(vs[i]))
  }

  /**
   * The value of `{edd_cart_details_name}`: the item names joined with ", ",
   * or "" when `cart_details` is not an array.
   */
  function CartDetailsName(paymentData: Value): (r: string)
    ensures !At(paymentData, "cart_details").Arr? ==> r == ""
  {
    var cart := At(paymentData, "cart_details");
    if cart.Arr? then Implode(", ", Strings(PluckNames(cart.entries))) else ""
  }

  /** Adding an item to the end of a non-empty cart adds ", " and its name at the end. */
  lemma CartNameKeepsCartOrder(items: Entries, k: Key, item: Value)
    requires item.Arr? && PluckNames(items) != []
    ensures Implode(", ", Strings(PluckNames(items + [(k, item)])))
         == Implode(", ", Strings(PluckNames(items))) + ", " + ToStr(At(item, "name"))
  {
    PluckNamesAppend(items, k, item);
    var names := PluckNames(items);
    assert Strings(names + [At(item, "name")]) == Strings(names) + [ToStr(At(item, "name"))];
    ImplodeSnoc(", ", Strings(names), ToStr(At(item, "name")));
  }

  class PaymentData {
    const paymentId: int
    const paymentData: Value
    var description: string   // the template; "" stands for PHP's unset null

    constructor (paymentId: int, paymentData: Value)
      ensures this.paymentId == paymentId && this.paymentData == paymentData
      ensures description == ""
    {
      this.paymentId := paymentId;
      this.paymentData := paymentData;
      description := "";
    }

    /** `get_source_id()`: the order id the proxy was built for. */
    function SourceId(): (id: int)
      ensures id == paymentId
    {
      paymentId
    }

    /** `get_source()`. */
    function Source(): (source: string)
      ensures source == "easydigitaldownloads"
    {
      "easydigitaldownloads"
    }

    /** `get_order_id()`: EDD's payment number when EDD provides one, else the id. */
    function OrderId(site: Site): string {
      match site.paymentNumber
      case Some(number) => number(paymentId)
      case None => Decimal(paymentId)
    }

    /**
     * `get_description()`: an empty template is first replaced by the cart-name
     * placeholder and kept; then both placeholders are substituted in one pass.
     */
    method GetDescription(site: Site) returns (d: string)
      modifies this
      ensures description == if Empty(Str(old(description))) then CartNamePlaceholder else old(description)
      ensures d == Strtr(description, DescriptionPairs(CartDetailsName(paymentData), OrderId(site)))
      ensures Empty(Str(old(description))) ==> d == CartDetailsName(paymentData)
    {
      if Empty(Str(description)) {
        description := CartNamePlaceholder;
      }
      var cartName := "";
      var cart := At(paymentData, "cart_details");
      if cart.Arr? {
        cartName := Implode(", ", Strings(PluckNames(cart.entries)));
      }
      d := Strtr(description, DescriptionPairs(cartName, OrderId(site)));
      DefaultTemplateIsCartName(cartName, OrderId(site));
    }

    /** `get_items()`: one item for the whole order, quantity 1, numbered by the order id. */
    method GetItems(site: Site) returns (items: seq<Item>)
      modifies this
      ensures description == if Empty(Str(old(description))) then CartNamePlaceholder else old(description)
      ensures |items| == 1
      ensures items[0] == Item(paymentId,
        Strtr(description, DescriptionPairs(CartDetailsName(paymentData), OrderId(site))),
        At(paymentData, "price"), 1)
    {
      var d := GetDescription(site);
      items := [Item(paymentId, d, At(paymentData, "price"), 1)];
    }

    /** `get_email()`. */
    function Email(): Value {
      At(paymentData, "user_email")
    }

    /** `get_first_name()`: `user_info['first_name']` when set, otherwise null. */
    function FirstName(): Value {
      var info := At(paymentData, "user_info");
      if info.Arr? && IsSet(info, "first_name") then At(info, "first_name") else Null
    }

    /** `get_last_name()`: `user_info['last_name']` when set, otherwise null. */
    function LastName(): Value {
      var info := At(paymentData, "user_info");
      if info.Arr? && IsSet(info, "last_name") then At(info, "last_name") else Null
    }

    /**
     * `get_customer_name()`: "first last", or "first" without a last name, and
     * "" without a first name even when a last name is present.
     */
    function CustomerName(): (name: string)
      ensures FirstName() == Null ==> name == ""
      ensures FirstName() != Null && LastName() == Null ==> name == ToStr(FirstName())
      ensures FirstName() != Null && LastName() != Null
        ==> name == ToStr(FirstName()) + " " + ToStr(LastName())
    {
      var info := At(paymentData, "user_info");
      if info.Arr? && IsSet(info, "first_name") then
        var name := "" + ToStr(At(info, "first_name"));
        if IsSet(info, "last_name") then name + " " + ToStr(At(info, "last_name")) else name
      else
        ""
    }
  }

  // The URL getters read no field of the proxy: they depend on the site only.

  /** `get_normal_return_url()`. */
  function NormalReturnUrl(site: Site): (url: string)
    ensures url == site.homeUrl
  {
    site.homeUrl
  }

  /**
   * The URL of the page a setting names: its permalink when the setting is
   * numeric, otherwise the home URL.
   */
  function PageUrl(site: Site, option: string): (url: string)
    ensures IsNumeric(GetOption(site, option)) ==> url == site.permalink(GetOption(site, option))
    ensures !IsNumeric(GetOption(site, option)) ==> url == site.homeUrl
  {
    var pageId := GetOption(site, option);
    if IsNumeric(pageId) then site.permalink(pageId) else site.homeUrl
  }

  /** `get_cancel_url()`: the failure page. */
  function CancelUrl(site: Site): string {
    PageUrl(site, "failure_page")
  }

  /** `get_success_url()`: the success page. */
  function SuccessUrl(site: Site): string {
    PageUrl(site, "success_page")
  }

  /** `get_error_url()`: the failure page. */
  function ErrorUrl(site: Site): string {
    PageUrl(site, "failure_page")
  }

  /** The cancel and error URLs are always the same page. */
  lemma CancelUrlIsErrorUrl(site: Site)
    ensures CancelUrl(site) == ErrorUrl(site)
  {
  }
}
