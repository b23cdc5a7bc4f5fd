/** Reading optional checkout fields out of EDD's purchase data. */
module PurchaseDataHelper {
  import opened Wrappers
  import opened Php
  import opened Wp

  /** `$purchase_data['post_data']`, null when it is missing. */
  function PostData(purchaseData: Entries): Value {
    At(Arr(purchaseData), "post_data")
  }

  /** The cleaned form of a submitted value: unslashed, sanitised, trimmed. */
  function Cleaned(raw: Value, f: TextFilters): (r: string)
    ensures r == [] || (!IsTrimChar(r[0]) && !IsTrimChar(r[|r| - 1]))
  {
    Trim(SanitizeUnslashed(raw, f))
  }

  /** A cleaned value is stable: trimming it once more changes nothing. */
  lemma CleanedIsTrimmed(raw: Value, f: TextFilters)
    ensures Trim(Cleaned(raw, f)) == Cleaned(raw, f)
  {
    TrimIdempotent(SanitizeUnslashed(raw, f));
  }

  /**
   * `get_post_data_value`: `post_data[key]` cleaned; null when `post_data`
   * is not an array, when it has no entry `key`, or when what is left is
   * empty in PHP's sense (including "0").
   */
  function PostDataValue(purchaseData: Entries, key: string, f: TextFilters): (r: Option<string>)
    ensures !PostData(purchaseData).Arr? ==> r.None?
    ensures PostData(purchaseData).Arr? && StrKey(key) !in Keys(PostData(purchaseData).entries) ==> r.None?
    ensures r.Some? ==> r.value == Cleaned(At(PostData(purchaseData), key), f)
    ensures (PostData(purchaseData).Arr? && StrKey(key) in Keys(PostData(purchaseData).entries)
             && !Empty(Str(Cleaned(At(PostData(purchaseData), key), f)))) ==> r.Some?
    ensures r.Some? ==> r.value != "" && r.value != "0"
    ensures r.Some? ==> !IsTrimChar(r.value[0]) && !IsTrimChar(r.value[|r.value| - 1])
  {
    var postData := PostData(purchaseData);
    if !postData.Arr? || StrKey(key) !in Keys(postData.entries) then None
    else
      var value := Cleaned(At(postData, key), f);
      if value == "" || value == "0" then None
      else
        assert !Empty(Str(value));
        Some(value)
  }

  /** `get_company_name`: the `edd_company` field. */
  function CompanyName(purchaseData: Entries, f: TextFilters): (r: Option<string>)
    ensures r == PostDataValue(purchaseData, "edd_company", f)
  {
    PostDataValue(purchaseData, "edd_company", f)
  }

  /** `get_vat_number`: the `vat_number` field. */
  function VatNumber(purchaseData: Entries, f: TextFilters): (r: Option<string>)
    ensures r == PostDataValue(purchaseData, "vat_number", f)
  {
    PostDataValue(purchaseData, "vat_number", f)
  }
}
