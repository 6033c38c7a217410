/**
 * The medicine list view: loads the medicines, filters them by name or
 * quantity, keeps a selection of ids and shows the selected medicines in a
 * modal.
 */
module MedicineList {
  import opened Wrappers
  import opened Text
  import opened Records
  import opened Responses
  import opened Selection
  import opened Effects

  const TimeoutMsg: string := "Timeout."

  /** `String(m.quantity ?? '')` */
  function QuantityText(quantity: Option<Num>): string {
    if quantity.Some? then NumToString(quantity.value) else ""
  }

  /**
   * The search predicate: the query occurs in the lower-cased name or in the
   * quantity. The empty query matches every medicine, and the lower-cased name
   * or the rendered quantity finds its own medicine.
   */
  function MedicineMatches(m: Medicine, q: string): (b: bool)
    ensures q == "" ==> b
    ensures q == ToLower(m.name.GetOr("")) || q == QuantityText(m.quantity) ==> b
  {
    ContainsEmptyAndSelf(ToLower(m.name.GetOr("")));
    ContainsEmptyAndSelf(QuantityText(m.quantity));
    Contains(ToLower(m.name.GetOr("")), q) || Contains(QuantityText(m.quantity), q)
  }

  function MatchesQuery(q: string): Medicine -> bool {
    m => MedicineMatches(m, q)
  }

  /** A query of digits finds a medicine by its stock quantity. */
  lemma QuantityQueryFindsMedicine(id: string)
    ensures MedicineMatches(Medicine(Some(id), Some("Ibuprofeno"), Some(Finite(120))), "20")
  {
    assert NatToString(1) == "1";
    assert NatToString(12) == "12";
    assert NatToString(120) == "120";
    ContainsInfix("120", 1, 3);
  }

  class MedicineListComponent {
    var medicines: seq<Medicine>
    var filtered: seq<Medicine>
    var selected: set<string>
    var searchTerm: string
    var isLoading: bool
    var debugMsg: string
    var showModal: bool
    var selectedData: seq<Medicine>
    /** Handles of the watchdog timers that are armed and not yet cleared or fired. */
    var timers: set<nat>
    var nextTimer: nat
    ghost var effects: seq<Effect<Medicine>>

    constructor ()
      ensures medicines == [] && filtered == [] && selected == {} && searchTerm == ""
      ensures !isLoading && debugMsg == "" && !showModal && selectedData == []
      ensures timers == {} && nextTimer == 0 && effects == []
    {
      medicines, filtered, selected, searchTerm := [], [], {}, "";
      isLoading, debugMsg, showModal, selectedData := false, "", false, [];
      timers, nextTimer := {}, 0;
      effects := [];
    }

    function VisibleIdSet(): set<string>
      reads this
    {
      IdSet(VisibleIds(filtered, MedicineId))
    }

    /** The visible records come from the collection and only visible ids are selected. */
    ghost predicate Consistent()
      reads this
    {
      (forall m :: m in filtered ==> m in medicines) && selected <= VisibleIdSet()
    }

    /** `load()`, up to the request: raise the loading flag, arm the watchdog, fetch. */
    method Load() returns (h: nat)
      modifies this`isLoading, this`timers, this`nextTimer, this`effects
      ensures isLoading
      ensures h == old(nextTimer) && nextTimer == h + 1 && timers == old(timers) + {h}
      ensures effects == old(effects) + [FetchList]
    {
      isLoading := true;
      h := nextTimer;
      timers := timers + {h};
      nextTimer := nextTimer + 1;
      effects := effects + [FetchList];
    }

    /**
     * The 5000 ms watchdog fires: if the load is still pending it drops the
     * loading flag and says so, and leaves the lists as they are.
     */
    method OnWatchdog(h: nat)
      requires h in timers
      modifies this`timers, this`isLoading, this`debugMsg
      ensures timers == old(timers) - {h} && !isLoading
      ensures debugMsg == if old(isLoading) then TimeoutMsg else old(debugMsg)
    {
      timers := timers - {h};
      if isLoading {
        isLoading := false;
        debugMsg := TimeoutMsg;
      }
    }

    /** A response body arrives: it replaces the collection whatever happened before. */
    method OnResponse(body: Payload<Medicine>)
      modifies this`medicines, this`filtered, this`selected
      ensures medicines == NormalizeContent(body) && filtered == medicines && selected == {}
      ensures Consistent()
    {
      medicines := NormalizeContent(body);
      filtered := medicines;
      selected := {};
    }

    /** The request fails: the message is recorded and an empty list is delivered. */
    method OnError(err: HttpError)
      modifies this`debugMsg, this`medicines, this`filtered, this`selected
      ensures debugMsg == "Error: " + MessageText(err)
      ensures medicines == [] && filtered == [] && selected == {}
      ensures Consistent()
    {
      debugMsg := "Error: " + MessageText(err);
      medicines := [];
      filtered := [];
      selected := {};
    }

    /** `finalize`: clear the watchdog and drop the loading flag, on every path. */
    method OnFinalize(h: nat)
      modifies this`timers, this`isLoading
      ensures timers == old(timers) - {h} && !isLoading
    {
      timers := timers - {h};
      isLoading := false;
    }

    /**
     * `onSearchInput`: a blank query shows every medicine and keeps the
     * selection; any other query shows the matching medicines in order and
     * drops the selected ids that are no longer visible.
     */
    method OnSearchInput()
      modifies this`filtered, this`selected
      ensures SearchQuery(searchTerm) == "" ==> filtered == medicines && selected == old(selected)
      ensures SearchQuery(searchTerm) != "" ==>
                filtered == Filter(medicines, MatchesQuery(SearchQuery(searchTerm)))
                && selected == old(selected) * VisibleIdSet()
      ensures old(Consistent()) || SearchQuery(searchTerm) != "" ==> Consistent()
    {
      var q := SearchQuery(searchTerm);
      if q == "" {
        ShowAll();
        return;
      }
      ShowMatching(q);
    }

    /** The blank-query branch of `onSearchInput`: show every one of the medicines, keep the selection. */
    method ShowAll()
      modifies this`filtered
      ensures filtered == medicines
      ensures old(Consistent()) ==> Consistent()
    {
      if Consistent() {
        VisibleIdsMonotone(filtered, medicines, MedicineId);
      }
      filtered := medicines;
    }

    /** The other branch: show the medicines matching `q`, in order, and prune the selection to them. */
    method ShowMatching(q: string)
      modifies this`filtered, this`selected
      ensures filtered == Filter(medicines, MatchesQuery(q))
      ensures selected == old(selected) * VisibleIdSet()
      ensures Consistent()
    {
      filtered := Filter(medicines, MatchesQuery(q));
      PruneSelection(VisibleIdSet());
    }

    /** The loop of `onSearchInput` that deletes every selected id that is not visible. */
    method PruneSelection(visible: set<string>)
      modifies this`selected
      ensures selected == old(selected) * visible
    {
      var pending := selected;
      while pending != {}
        invariant pending <= old(selected)
        invariant selected == pending + (old(selected) - pending) * visible
        decreases pending
      {
        var id :| id in pending;
        if id !in visible {
          selected := selected - {id};
        }
        pending := pending - {id};
      }
    }

    /** `toggleSelection`: flip the membership of `id` and of nothing else. */
    method ToggleSelection(id: string)
      modifies this`selected
      ensures selected == Toggled(old(selected), id)
      ensures old(Consistent()) && (id in old(selected) || id in VisibleIdSet()) ==> Consistent()
    {
      if id in selected {
        selected := selected - {id};
      } else {
        selected := selected + {id};
      }
    }

    /** `isSelected` */
    function IsSelected(id: string): (b: bool)
      reads this
      ensures b <==> id in selected
      ensures Consistent() && b ==> id in VisibleIdSet()
    {
      id in selected
    }

    /** `allVisibleSelected` */
    function AllVisibleSelected(): (b: bool)
      reads this
      ensures b <==> VisibleIdSet() != {} && VisibleIdSet() <= selected
    {
      AllSelected(VisibleIds(filtered, MedicineId), selected)
    }

    /** `toggleSelectAll`: deselect every visible id if all are selected, else select them all. */
    method ToggleSelectAll()
      modifies this`selected
      ensures selected == ToggleAll(old(selected), VisibleIds(filtered, MedicineId))
      ensures old(Consistent()) ==> Consistent()
    {
      var vis := VisibleIds(filtered, MedicineId);
      var allSel := AllSelected(vis, selected);
      ForEachVisible(vis, allSel);
    }

    /** The `forEach` of `toggleSelectAll`: delete (or add) each visible id in turn. */
    method ForEachVisible(vis: seq<string>, remove: bool)
      modifies this`selected
      ensures selected == if remove then old(selected) - IdSet(vis) else old(selected) + IdSet(vis)
    {
      var i := 0;
      while i < |vis|
        invariant 0 <= i <= |vis|
        invariant selected == if remove then old(selected) - IdSet(vis[..i]) else old(selected) + IdSet(vis[..i])
      {
        assert IdSet(vis[..i + 1]) == IdSet(vis[..i]) + {vis[i]} by {
          assert vis[..i + 1] == vis[..i] + [vis[i]];
        }
        if remove {
          selected := selected - {vis[i]};
        } else {
          selected := selected + {vis[i]};
        }
        i := i + 1;
      }
      assert vis[..i] == vis;
    }

    /** `editSelected`: open the editor only when exactly one id is selected. */
    method EditSelected()
      modifies this`effects
      ensures |selected| == 1 ==>
                effects == old(effects) + [Navigate(["/medicines/edit", Only(selected)], false)]
      ensures |selected| != 1 ==> effects == old(effects) + [Alert("Selecciona 1.")]
    {
      if |selected| != 1 {
        effects := effects + [Alert("Selecciona 1.")];
        return;
      }
      var id :| id in selected;
      effects := effects + [Navigate(["/medicines/edit", id], false)];
    }

    /** `inspectSelected`: open the read-only view only when exactly one id is selected. */
    method InspectSelected()
      modifies this`effects
      ensures |selected| == 1 ==>
                effects == old(effects) + [Navigate(["/medicines/edit", Only(selected)], true)]
      ensures |selected| != 1 ==> effects == old(effects) + [Alert("Selecciona 1.")]
    {
      if |selected| != 1 {
        effects := effects + [Alert("Selecciona 1.")];
        return;
      }
      var id :| id in selected;
      effects := effects + [Navigate(["/medicines/edit", id], true)];
    }

    /**
     * `viewSelected`: with at least one id selected, open the modal on the
     * selected medicines in collection order; otherwise only alert.
     */
    method ViewSelected()
      modifies this`effects, this`selectedData, this`showModal
      ensures |selected| == 0 ==>
                effects == old(effects) + [Alert("Nada seleccionado.")]
                && selectedData == old(selectedData) && showModal == old(showModal)
      ensures |selected| != 0 ==>
                effects == old(effects) && showModal
                && selectedData == SelectedRecords(medicines, MedicineId, selected)
    {
      if |selected| == 0 {
        effects := effects + [Alert("Nada seleccionado.")];
        return;
      }
      selectedData := SelectedRecords(medicines, MedicineId, selected);
      showModal := true;
    }

    /** `closeModal`: hide the modal and change nothing else. */
    method CloseModal()
      modifies this`showModal
      ensures !showModal
    {
      showModal := false;
    }

    /**
     * `deleteOne`, with the user's answer to the confirmation and the outcome
     * of the request as inputs: nothing without confirmation; a reload after
     * success; an alert and an untouched view after failure.
     */
    method DeleteOne(id: string, confirmed: bool, succeeded: bool) returns (cycle: Option<nat>)
      modifies this`isLoading, this`timers, this`nextTimer, this`effects
      ensures !confirmed ==> cycle == None && effects == old(effects) && isLoading == old(isLoading)
                             && timers == old(timers) && nextTimer == old(nextTimer)
      ensures confirmed && succeeded ==>
                effects == old(effects) + [DeleteById(id), FetchList] && isLoading
                && cycle == Some(old(nextTimer)) && timers == old(timers) + {old(nextTimer)} && nextTimer == old(nextTimer) + 1
      ensures confirmed && !succeeded ==>
                cycle == None && effects == old(effects) + [DeleteById(id), Alert("Error eliminando.")]
                && isLoading == old(isLoading) && timers == old(timers) && nextTimer == old(nextTimer)
    {
      cycle := None;
      if !confirmed {
        return;
      }
      effects := effects + [DeleteById(id)];
      if succeeded {
        var h := Load();
        cycle := Some(h);
      } else {
        effects := effects + [Alert("Error eliminando.")];
      }
    }

    /** `deleteSelected`: needs a non-empty selection and confirmation; reloads after success. */
    method DeleteSelected(confirmed: bool, succeeded: bool) returns (cycle: Option<nat>)
      modifies this`isLoading, this`timers, this`nextTimer, this`effects
      ensures |selected| == 0 ==>
                cycle == None && effects == old(effects) + [Alert("Selecciona algo.")]
                && isLoading == old(isLoading) && timers == old(timers) && nextTimer == old(nextTimer)
      ensures |selected| != 0 && !confirmed ==>
                cycle == None && effects == old(effects) && isLoading == old(isLoading) && timers == old(timers) && nextTimer == old(nextTimer)
      ensures |selected| != 0 && confirmed && succeeded ==>
                effects == old(effects) + [DeleteMany(selected), FetchList] && isLoading
                && cycle == Some(old(nextTimer)) && timers == old(timers) + {old(nextTimer)} && nextTimer == old(nextTimer) + 1
      ensures |selected| != 0 && confirmed && !succeeded ==>
                cycle == None && effects == old(effects) + [DeleteMany(selected), Alert("Error eliminando.")]
                && isLoading == old(isLoading) && timers == old(timers) && nextTimer == old(nextTimer)
    {
      cycle := None;
      if |selected| == 0 {
        effects := effects + [Alert("Selecciona algo.")];
        return;
      }
      if !confirmed {
        return;
      }
      effects := effects + [DeleteMany(selected)];
      if succeeded {
        var h := Load();
        cycle := Some(h);
      } else {
        effects := effects + [Alert("Error eliminando.")];
      }
    }

    /** `refresh`: clear the query and start a new load. */
    method Refresh() returns (h: nat)
      modifies this`searchTerm, this`isLoading, this`timers, this`nextTimer, this`effects
      ensures searchTerm == "" && isLoading
      ensures h == old(nextTimer) && timers == old(timers) + {h} && nextTimer == h + 1
      ensures effects == old(effects) + [FetchList]
    {
      searchTerm := "";
      h := Load();
    }
  }

  /** The medicine watchdog gives up without clearing: the previous load's medicines stay on screen. */
  method TimeoutKeepsPreviousList(body: Payload<Medicine>) returns (shown: seq<Medicine>, msg: string)
    ensures shown == NormalizeContent(body) && msg == TimeoutMsg
  {
    var view := new MedicineListComponent();
    var first := view.Load();
    view.OnResponse(body);
    view.OnFinalize(first);
    var second := view.Load();
    view.OnWatchdog(second);
    shown, msg := view.medicines, view.debugMsg;
  }
}
