/**
 * The staff list view: loads the staff, filters them by name, role or
 * specialization, keeps a selection of ids and shows the selected members in
 * a modal.
 */
module StaffList {
  import opened Wrappers
  import opened Text
  import opened Records
  import opened Responses
  import opened Selection
  import opened Effects

  const TimeoutMsg: string := "Timeout."

  /**
   * The search predicate: the query occurs in the lower-cased name, role or
   * specialization. The empty query matches every member, and the lower-cased
   * name or role finds its own member.
   */
  function StaffMatches(s: Staff, q: string): (b: bool)
    ensures q == "" ==> b
    ensures q == ToLower(s.name.GetOr("")) || q == ToLower(s.role.GetOr("")) ==> b
  {
    ContainsEmptyAndSelf(ToLower(s.name.GetOr("")));
    ContainsEmptyAndSelf(ToLower(s.role.GetOr("")));
    Contains(ToLower(s.name.GetOr("")), q)
    || Contains(ToLower(s.role.GetOr("")), q)
    || Contains(ToLower(s.specialization.GetOr("")), q)
  }

  function MatchesQuery(q: string): Staff -> bool {
    s => StaffMatches(s, q)
  }

  /** Role and specialization are searched like the name, without regard to letter case. */
  lemma RoleQueryFindsStaff(id: string)
    ensures StaffMatches(Staff(Some(id), Some("Eva"), Some("NURSE"), None), "nurse")
  {
    assert ToLower("NURSE") == "nurse";
    ContainsInfix("nurse", 0, 5);
  }

  class StaffListComponent {
    var staffList: seq<Staff>
    var filteredList: seq<Staff>
    var selectedStaff: set<string>
    var searchTerm: string
    var isLoading: bool
    var debugMsg: string
    var showModal: bool
    var selectedData: seq<Staff>
    /** Handles of the watchdog timers that are armed and not yet cleared or fired. */
    var timers: set<nat>
    var nextTimer: nat
    ghost var effects: seq<Effect<Staff>>

    constructor ()
      ensures staffList == [] && filteredList == [] && selectedStaff == {} && searchTerm == ""
      ensures !isLoading && debugMsg == "" && !showModal && selectedData == []
      ensures timers == {} && nextTimer == 0 && effects == []
    {
      staffList, filteredList, selectedStaff, searchTerm := [], [], {}, "";
      isLoading, debugMsg, showModal, selectedData := false, "", false, [];
      timers, nextTimer := {}, 0;
      effects := [];
    }

    function VisibleIdSet(): set<string>
      reads this
    {
      IdSet(VisibleIds(filteredList, StaffId))
    }

    /** The visible records come from the collection and only visible ids are selected. */
    ghost predicate Consistent()
      reads this
    {
      (forall s :: s in filteredList ==> s in staffList) && selectedStaff <= VisibleIdSet()
    }

    /** `loadStaff()`, up to the request: raise the loading flag, arm the watchdog, fetch. */
    method LoadStaff() returns (h: nat)
      modifies this`isLoading, this`timers, this`nextTimer, this`effects
      ensures isLoading
      ensures h == old(nextTimer) && nextTimer == h + 1 && timers == old(timers) + {h}
      ensures effects == old(effects) + [FetchList]
    {
      isLoading := true;
      h := nextTimer;
      timers := timers + {h};
      nextTimer := nextTimer + 1;
      effects := effects + [FetchList];
    }

    /**
     * The 5000 ms watchdog fires: if the load is still pending it drops the
     * loading flag and says so, and leaves the lists as they are.
     */
    method OnWatchdog(h: nat)
      requires h in timers
      modifies this`timers, this`isLoading, this`debugMsg
      ensures timers == old(timers) - {h} && !isLoading
      ensures debugMsg == if old(isLoading) then TimeoutMsg else old(debugMsg)
    {
      timers := timers - {h};
      if isLoading {
        isLoading := false;
        debugMsg := TimeoutMsg;
      }
    }

    /** A response body arrives: it replaces the collection whatever happened before. */
    method OnResponse(body: Payload<Staff>)
      modifies this`staffList, this`filteredList, this`selectedStaff
      ensures staffList == NormalizeContent(body) && filteredList == staffList && selectedStaff == {}
      ensures Consistent()
    {
      staffList := NormalizeContent(body);
      filteredList := staffList;
      selectedStaff := {};
    }

    /** The request fails: the message is recorded and an empty list is delivered. */
    method OnError(err: HttpError)
      modifies this`debugMsg, this`staffList, this`filteredList, this`selectedStaff
      ensures debugMsg == "Error: " + MessageText(err)
      ensures staffList == [] && filteredList == [] && selectedStaff == {}
      ensures Consistent()
    {
      debugMsg := "Error: " + MessageText(err);
      staffList := [];
      filteredList := [];
      selectedStaff := {};
    }

    /** `finalize`: clear the watchdog and drop the loading flag, on every path. */
    method OnFinalize(h: nat)
      modifies this`timers, this`isLoading
      ensures timers == old(timers) - {h} && !isLoading
    {
      timers := timers - {h};
      isLoading := false;
    }

    /**
     * `onSearchInput`: a blank query shows every member and keeps the
     * selection; any other query shows the matching members in order and
     * drops the selected ids that are no longer visible.
     */
    method OnSearchInput()
      modifies this`filteredList, this`selectedStaff
      ensures SearchQuery(searchTerm) == "" ==> filteredList == staffList && selectedStaff == old(selectedStaff)
      ensures SearchQuery(searchTerm) != "" ==>
                filteredList == Filter(staffList, MatchesQuery(SearchQuery(searchTerm)))
                && selectedStaff == old(selectedStaff) * VisibleIdSet()
      ensures old(Consistent()) || SearchQuery(searchTerm) != "" ==> Consistent()
    {
      var q := SearchQuery(searchTerm);
      if q == "" {
        ShowAll();
        return;
      }
      ShowMatching(q);
    }

    /** The blank-query branch of `onSearchInput`: show every one of the members, keep the selection. */
    method ShowAll()
      modifies this`filteredList
      ensures filteredList == staffList
      ensures old(Consistent()) ==> Consistent()
    {
      if Consistent() {
        VisibleIdsMonotone(filteredList, staffList, StaffId);
      }
      filteredList := staffList;
    }

    /** The other branch: show the members matching `q`, in order, and prune the selection to them. */
    method ShowMatching(q: string)
      modifies this`filteredList, this`selectedStaff
      ensures filteredList == Filter(staffList, MatchesQuery(q))
      ensures selectedStaff == old(selectedStaff) * VisibleIdSet()
      ensures Consistent()
    {
      filteredList := Filter(staffList, MatchesQuery(q));
      PruneSelection(VisibleIdSet());
    }

    /** The loop of `onSearchInput` that deletes every selected id that is not visible. */
    method PruneSelection(visible: set<string>)
      modifies this`selectedStaff
      ensures selectedStaff == old(selectedStaff) * visible
    {
      var pending := selectedStaff;
      while pending != {}
        invariant pending <= old(selectedStaff)
        invariant selectedStaff == pending + (old(selectedStaff) - pending) * visible
        decreases pending
      {
        var id :| id in pending;
        if id !in visible {
          selectedStaff := selectedStaff - {id};
        }
        pending := pending - {id};
      }
    }

    /** `toggleSelection`: flip the membership of `id` and of nothing else. */
    method ToggleSelection(id: string)
      modifies this`selectedStaff
      ensures selectedStaff == Toggled(old(selectedStaff), id)
      ensures old(Consistent()) && (id in old(selectedStaff) || id in VisibleIdSet()) ==> Consistent()
    {
      if id in selectedStaff {
        selectedStaff := selectedStaff - {id};
      } else {
        selectedStaff := selectedStaff + {id};
      }
    }

    /** `isSelected` */
    function IsSelected(id: string): (b: bool)
      reads this
      ensures b <==> id in selectedStaff
      ensures Consistent() && b ==> id in VisibleIdSet()
    {
      id in selectedStaff
    }

    /** `allVisibleSelected` */
    function AllVisibleSelected(): (b: bool)
      reads this
      ensures b <==> VisibleIdSet() != {} && VisibleIdSet() <= selectedStaff
    {
      AllSelected(VisibleIds(filteredList, StaffId), selectedStaff)
    }

    /** `toggleSelectAll`: deselect every visible id if all are selected, else select them all. */
    method ToggleSelectAll()
      modifies this`selectedStaff
      ensures selectedStaff == ToggleAll(old(selectedStaff), VisibleIds(filteredList, StaffId))
      ensures old(Consistent()) ==> Consistent()
    {
      var vis := VisibleIds(filteredList, StaffId);
      var allSel := AllSelected(vis, selectedStaff);
      ForEachVisible(vis, allSel);
    }

    /** The `forEach` of `toggleSelectAll`: delete (or add) each visible id in turn. */
    method ForEachVisible(vis: seq<string>, remove: bool)
      modifies this`selectedStaff
      ensures selectedStaff == if remove then old(selectedStaff) - IdSet(vis) else old(selectedStaff) + IdSet(vis)
    {
      var i := 0;
      while i < |vis|
        invariant 0 <= i <= |vis|
        invariant selectedStaff == if remove then old(selectedStaff) - IdSet(vis[..i]) else old(selectedStaff) + IdSet(vis[..i])
      {
        assert IdSet(vis[..i + 1]) == IdSet(vis[..i]) + {vis[i]} by {
          assert vis[..i + 1] == vis[..i] + [vis[i]];
        }
        if remove {
          selectedStaff := selectedStaff - {vis[i]};
        } else {
          selectedStaff := selectedStaff + {vis[i]};
        }
        i := i + 1;
      }
      assert vis[..i] == vis;
    }

    /** `editSelected`: open the editor only when exactly one id is selected. */
    method EditSelected()
      modifies this`effects
      ensures |selectedStaff| == 1 ==>
                effects == old(effects) + [Navigate(["/staff/edit", Only(selectedStaff)], false)]
      ensures |selectedStaff| != 1 ==> effects == old(effects) + [Alert("Selecciona 1 elemento.")]
    {
      if |selectedStaff| != 1 {
        effects := effects + [Alert("Selecciona 1 elemento.")];
        return;
      }
      var id :| id in selectedStaff;
      effects := effects + [Navigate(["/staff/edit", id], false)];
    }

    /** `inspectSelected`: open the read-only view only when exactly one id is selected. */
    method InspectSelected()
      modifies this`effects
      ensures |selectedStaff| == 1 ==>
                effects == old(effects) + [Navigate(["/staff/edit", Only(selectedStaff)], true)]
      ensures |selectedStaff| != 1 ==> effects == old(effects) + [Alert("Selecciona 1 elemento.")]
    {
      if |selectedStaff| != 1 {
        effects := effects + [Alert("Selecciona 1 elemento.")];
        return;
      }
      var id :| id in selectedStaff;
      effects := effects + [Navigate(["/staff/edit", id], true)];
    }

    /**
     * `viewSelected`: with at least one id selected, open the modal on the
     * selected members in collection order; otherwise only alert.
     */
    method ViewSelected()
      modifies this`effects, this`selectedData, this`showModal
      ensures |selectedStaff| == 0 ==>
                effects == old(effects) + [Alert("Nada seleccionado.")]
                && selectedData == old(selectedData) && showModal == old(showModal)
      ensures |selectedStaff| != 0 ==>
                effects == old(effects) && showModal
                && selectedData == SelectedRecords(staffList, StaffId, selectedStaff)
    {
      if |selectedStaff| == 0 {
        effects := effects + [Alert("Nada seleccionado.")];
        return;
      }
      selectedData := SelectedRecords(staffList, StaffId, selectedStaff);
      showModal := true;
    }

    /** `closeModal`: hide the modal and change nothing else. */
    method CloseModal()
      modifies this`showModal
      ensures !showModal
    {
      showModal := false;
    }

    /**
     * `deleteOne`, with the user's answer to the confirmation and the outcome
     * of the request as inputs: nothing without confirmation; a reload after
     * success; an alert and an untouched view after failure.
     */
    method DeleteOne(id: string, confirmed: bool, succeeded: bool) returns (cycle: Option<nat>)
      modifies this`isLoading, this`timers, this`nextTimer, this`effects
      ensures !confirmed ==> cycle == None && effects == old(effects) && isLoading == old(isLoading)
                             && timers == old(timers) && nextTimer == old(nextTimer)
      ensures confirmed && succeeded ==>
                effects == old(effects) + [DeleteById(id), FetchList] && isLoading
                && cycle == Some(old(nextTimer)) && timers == old(timers) + {old(nextTimer)} && nextTimer == old(nextTimer) + 1
      ensures confirmed && !succeeded ==>
                cycle == None && effects == old(effects) + [DeleteById(id), Alert("Error eliminando.")]
                && isLoading == old(isLoading) && timers == old(timers) && nextTimer == old(nextTimer)
    {
      cycle := None;
      if !confirmed {
        return;
      }
      effects := effects + [DeleteById(id)];
      if succeeded {
        var h := LoadStaff();
        cycle := Some(h);
      } else {
        effects := effects + [Alert("Error eliminando.")];
      }
    }

    /** `deleteSelected`: needs a non-empty selection and confirmation; reloads after success. */
    method DeleteSelected(confirmed: bool, succeeded: bool) returns (cycle: Option<nat>)
      modifies this`isLoading, this`timers, this`nextTimer, this`effects
      ensures |selectedStaff| == 0 ==>
                cycle == None && effects == old(effects) + [Alert("Selecciona algo.")]
                && isLoading == old(isLoading) && timers == old(timers) && nextTimer == old(nextTimer)
      ensures |selectedStaff| != 0 && !confirmed ==>
                cycle == None && effects == old(effects) && isLoading == old(isLoading) && timers == old(timers) && nextTimer == old(nextTimer)
      ensures |selectedStaff| != 0 && confirmed && succeeded ==>
                effects == old(effects) + [DeleteMany(selectedStaff), FetchList] && isLoading
                && cycle == Some(old(nextTimer)) && timers == old(timers) + {old(nextTimer)} && nextTimer == old(nextTimer) + 1
      ensures |selectedStaff| != 0 && confirmed && !succeeded ==>
                cycle == None && effects == old(effects) + [DeleteMany(selectedStaff), Alert("Error eliminando.")]
                && isLoading == old(isLoading) && timers == old(timers) && nextTimer == old(nextTimer)
    {
      cycle := None;
      if |selectedStaff| == 0 {
        effects := effects + [Alert("Selecciona algo.")];
        return;
      }
      if !confirmed {
        return;
      }
      effects := effects + [DeleteMany(selectedStaff)];
      if succeeded {
        var h := LoadStaff();
        cycle := Some(h);
      } else {
        effects := effects + [Alert("Error eliminando.")];
      }
    }

    /** `refresh`: clear the query and start a new load. */
    method Refresh() returns (h: nat)
      modifies this`searchTerm, this`isLoading, this`timers, this`nextTimer, this`effects
      ensures searchTerm == "" && isLoading
      ensures h == old(nextTimer) && timers == old(timers) + {h} && nextTimer == h + 1
      ensures effects == old(effects) + [FetchList]
    {
      searchTerm := "";
      h := LoadStaff();
    }
  }

  /**
   * The watchdog gives up without clearing the list: after a timeout the
   * members loaded by the previous cycle stay on screen.
   */
  method TimeoutKeepsPreviousList(body: Payload<Staff>) returns (shown: seq<Staff>, msg: string)
    ensures shown == NormalizeContent(body) && msg == TimeoutMsg
  {
    var view := new StaffListComponent();
    var first := view.LoadStaff();
    view.OnResponse(body);
    view.OnFinalize(first);
    var second := view.LoadStaff();
    view.OnWatchdog(second);
    shown, msg := view.staffList, view.debugMsg;
  }
}
