/** How the three form components decide between creating, editing and inspecting. */
module FormMode {
  import opened Wrappers
  import opened Text

  datatype Mode = New | Edit | View

  /**
   * `ngOnInit`: a route id gives `view` when the lower-cased `mode` query
   * parameter is "view" or the navigation state says `view === true`, and
   * `edit` otherwise; no id (or an empty one) gives `new`.
   */
  function DeriveMode(routeId: Option<string>, queryMode: Option<string>, stateView: bool): (m: Mode)
    ensures m == New <==> !Truthy(routeId)
    ensures m == View <==> Truthy(routeId) && (ToLower(queryMode.GetOr("")) == "view" || stateView)
    ensures m == Edit <==> Truthy(routeId) && ToLower(queryMode.GetOr("")) != "view" && !stateView
  {
    if Truthy(routeId) then
      (if ToLower(queryMode.GetOr("")) == "view" || stateView then View else Edit)
    else New
  }

  /**
   * The links the list views follow open the form in the intended mode:
   * `edit/<id>` edits, `edit/<id>?mode=view` (in any letter case) inspects,
   * `new` creates.
   */
  lemma ListLinksOpenIntendedMode(id: string, stateView: bool)
    requires id != ""
    ensures DeriveMode(Some(id), None, false) == Edit
    ensures DeriveMode(Some(id), Some("view"), stateView) == View
    ensures DeriveMode(Some(id), Some("VIEW"), stateView) == View
    ensures DeriveMode(None, None, stateView) == New
  {
    assert ToLower("") == "";
    assert ToLower("view") == "view";
    assert ToLower("VIEW") == "view";
  }
}
