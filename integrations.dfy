/**
 * The `pronamic_pay_plugin_integrations` filter: the plugin's extension is
 * added to Pronamic Pay's integration list unless one is already there.
 */
module Integrations {
  /** An entry of the integration list; only this plugin's extension is told apart. */
  datatype Integration = EddExtension | OtherIntegration(name: string)

  /** Some entry of the list is an instance of this plugin's extension. */
  predicate HasExtension(integrations: seq<Integration>)
  {
    exists i :: 0 <= i < |integrations| && integrations[i].EddExtension?
  }

  /** The filter as a function: the list unchanged, or with the extension appended. */
  function AddIntegration(integrations: seq<Integration>): (r: seq<Integration>)
    ensures HasExtension(integrations) ==> r == integrations
    ensures !HasExtension(integrations) ==> r == integrations + [EddExtension]
    ensures |r| <= |integrations| + 1
    ensures r[..|integrations|] == integrations
    ensures HasExtension(r)
  {
    if HasExtension(integrations) then integrations
    else
      var r := integrations + [EddExtension];
      assert r[|integrations|].EddExtension?;
      r
  }

  /**
   * The filter as written: search the list, returning it as soon as an
   * extension is found, otherwise append one.
   */
  method FilterIntegrations(integrations: seq<Integration>) returns (r: seq<Integration>)
    ensures r == AddIntegration(integrations)
  {
    var i := 0;
    while i < |integrations|
      invariant 0 <= i <= |integrations|
      invariant forall j :: 0 <= j < i ==> !integrations[j].EddExtension?
    {
      if integrations[i].EddExtension? {
        return integrations;
      }
      i := i + 1;
    }
    r := integrations + [EddExtension];
  }

  /** Applying the filter twice gives the same list as applying it once. */
  lemma {:induction false} AddIntegrationIdempotent(integrations: seq<Integration>)
    ensures AddIntegration(AddIntegration(integrations)) == AddIntegration(integrations)
  {
    var once := AddIntegration(integrations);
    assert HasExtension(once);
  }

  /** The extension appears at most once in the result when it was absent before. */
  lemma AddIntegrationSingleExtension(integrations: seq<Integration>)
    requires !HasExtension(integrations)
    ensures var r := AddIntegration(integrations);
      forall i :: 0 <= i < |r| && r[i].EddExtension? ==> i == |integrations|
  {
  }
}
