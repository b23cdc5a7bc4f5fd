/**
 * The WordPress and Easy Digital Downloads environment the plugin reads:
 * text filters, the request, site settings and URLs. Every helper whose
 * implementation lies outside this plugin is a function-valued field.
 */
module Wp {
  import opened Wrappers
  import opened Php

  /** Text filters taken as uninterpreted string functions. */
  datatype TextFilters = TextFilters(
    unslash: string -> string,        // `wp_unslash` applied to a string
    sanitizeText: string -> string,   // `sanitize_text_field` applied to a string
    sanitizeString: string -> string) // PHP's FILTER_SANITIZE_STRING

  /**
   * `sanitize_text_field( wp_unslash( $v ) )`: arrays sanitise to the empty
   * string, `wp_unslash` touches only strings, other scalars are cast.
   */
  function SanitizeUnslashed(v: Value, f: TextFilters): string {
    match v
    case Arr(_) => ""
    case Str(s) => f.sanitizeText(f.unslash(s))
    case _ => f.sanitizeText(ToStr(v))
  }

  /** The superglobals of the current request: `$_GET` and `$_POST`. */
  datatype Request = Request(get: Entries, post: Entries)

  /** The site as the plugin sees it. */
  datatype Site = Site(
    homeUrl: string,                      // `home_url()`
    options: Entries,                     // the EDD settings behind `edd_get_option`
    permalink: Value -> string,           // `get_permalink( $page_id )`
    pluginsUrl: string -> string,         // `plugins_url( $path, Plugin::$file )`
    paymentNumber: Option<int -> string>, // `edd_get_payment_number`, when EDD defines it
    currency: Value)                      // `edd_get_currency()`

  /** `edd_get_option( $key )`: the stored setting, or false when there is none. */
  function GetOption(site: Site, key: string): (v: Value)
    ensures StrKey(key) !in Keys(site.options) ==> v == Bool(false)
  {
    Lookup(site.options, StrKey(key)).GetOr(Bool(false))
  }
}
