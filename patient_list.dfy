/**
 * The patient list view: loads the patients, filters them by a text query and
 * keeps a selection of patient ids for the bulk actions.
 */
module PatientList {
  import opened Wrappers
  import opened Text
  import opened Records
  import opened Responses
  import opened Selection
  import opened Effects

  const LoadingMsg: string := "Cargando pacientes..."
  const TimeoutMsg: string := "\U{23F1}\U{FE0F} Timeout: la petición no devolvió respuesta usable."
  const NetworkPrefix: string := "\U{1F6AB} Error de red/CORS (status 0). "
  const HttpPrefix: string := "\U{1F525} Error HTTP "
  const UnknownError: string := "Error desconocido"

  /**
   * `normalizeList`: the body itself when it is an array, else the first
   * array among the fields `content`, `items` and `patients`, else nothing.
   */
  function NormalizeList(p: Payload<Patient>): (r: seq<Patient>)
    ensures p.Array? ==> r == p.items
    ensures !p.Array? && r != [] ==>
              ArrayField(p, "content") == Some(r) || ArrayField(p, "items") == Some(r)
              || ArrayField(p, "patients") == Some(r)
  {
    if p.Array? then p.items
    else if ArrayField(p, "content").Some? then ArrayField(p, "content").value
    else if ArrayField(p, "items").Some? then ArrayField(p, "items").value
    else if ArrayField(p, "patients").Some? then ArrayField(p, "patients").value
    else []
  }

  /** NormalizeList is "the array, else the first array-valued field of content, items, patients". */
  lemma NormalizeListIsFirstArray(p: Payload<Patient>)
    ensures NormalizeList(p) == if p.Array? then p.items
                               else FirstArray(p, ["content", "items", "patients"]).GetOr([])
  {
    var names := ["content", "items", "patients"];
    if !p.Array? {
      assert FirstArray(p, names[2..]) == ArrayField(p, "patients");
      assert FirstArray(p, names[1..]) == if ArrayField(p, "items").Some? then ArrayField(p, "items")
                                          else ArrayField(p, "patients");
    }
  }

  /**
   * The patient normalisation accepts every shape the shared one accepts and
   * gives the same records for it; it differs only on bodies that carry the
   * records under `items` or `patients` and no array `content`.
   */
  lemma NormalizeListExtendsContent(p: Payload<Patient>)
    ensures p.Array? || ArrayField(p, "content").Some? ==> NormalizeList(p) == NormalizeContent(p)
    ensures NormalizeList(p) != NormalizeContent(p) ==>
              NormalizeContent(p) == [] && (ArrayField(p, "items").Some? || ArrayField(p, "patients").Some?)
  {
  }

  /** A paged body `{content: [r], total: 1}` yields `[r]`. */
  lemma PagedBodyYieldsContent(r: Patient)
    ensures NormalizeList(Object(map["content" := Array([r]), "total" := Scalar])) == [r]
  {
    var m: map<string, Payload<Patient>> := map["content" := Array([r]), "total" := Scalar];
    assert "content" in m && m["content"] == Array([r]);
  }

  /**
   * `formatHttpError`: a diagnostic that names a network/CORS failure exactly
   * when the status is 0; any other status (or `?` when there is none) follows
   * "Error HTTP", then the url in parentheses when there is one; the message,
   * or "Error desconocido" when there is none, always ends it.
   */
  function FormatHttpError(err: HttpError): (r: string)
    ensures NetworkPrefix <= r <==> err.status == Some(0)
    ensures err.status != Some(0) ==>
              HttpPrefix + (if err.status.Some? then IntToString(err.status.value) else "?") + " "
              + (if Truthy(err.url) then "(" + err.url.value + ")" else "") + ": " <= r
    ensures var msg := if Truthy(err.message) then err.message.value else UnknownError;
            |msg| <= |r| && r[|r| - |msg|..] == msg
  {
    var msg := if Truthy(err.message) then err.message.value else UnknownError;
    var url := if Truthy(err.url) then err.url.value else "";
    if err.status == Some(0) then NetworkPrefix + msg
    else
      var status := if err.status.Some? then IntToString(err.status.value) else "?";
      var line := HttpPrefix + status + " " + (if url != "" then "(" + url + ")" else "") + ": " + msg;
      assert line[0] == HttpPrefix[0] != NetworkPrefix[0];
      line
  }

  /** `String(p.age ?? '')` */
  function AgeText(age: Option<Num>): string {
    if age.Some? then NumToString(age.value) else ""
  }

  /**
   * The search predicate: the query occurs in the lower-cased name, the age or
   * the lower-cased history. The empty query matches every patient, and the
   * lower-cased name or the rendered age finds its own patient.
   */
  function PatientMatches(p: Patient, q: string): (b: bool)
    ensures q == "" ==> b
    ensures q == ToLower(p.name.GetOr("")) || q == AgeText(p.age) ==> b
  {
    ContainsEmptyAndSelf(ToLower(p.name.GetOr("")));
    ContainsEmptyAndSelf(AgeText(p.age));
    Contains(ToLower(p.name.GetOr("")), q)
    || Contains(AgeText(p.age), q)
    || Contains(ToLower(p.medicalHistory.GetOr("")), q)
  }

  function MatchesQuery(q: string): Patient -> bool {
    p => PatientMatches(p, q)
  }

  /** A query of digits finds a patient by age even when the name does not contain it. */
  lemma AgeQueryFindsPatient(id: string)
    ensures PatientMatches(Patient(Some(id), Some("Ana"), Some(Finite(45)), None), "45")
  {
    assert NatToString(4) == "4";
    assert NatToString(45) == "45";
    ContainsInfix("45", 0, 2);
  }

  /** The line `viewSelected` shows for one patient. */
  function DetailLine(p: Patient): string {
    "\U{2022} " + p.name.GetOr("undefined") + " ("
    + (if p.age.Some? then NumToString(p.age.value) else "undefined") + ") - "
    + p.medicalHistory.GetOr("")
  }

  /** One detail line per patient, in order. */
  function DetailLines(ps: seq<Patient>): (ls: seq<string>)
    ensures |ls| == |ps|
    ensures forall i | 0 <= i < |ps| :: ls[i] == DetailLine(ps[i])
  {
    if ps == [] then [] else [DetailLine(ps[0])] + DetailLines(ps[1..])
  }

  class PatientListComponent {
    var patients: seq<Patient>
    var filtered: seq<Patient>
    var selected: set<string>
    var searchTerm: string
    var isLoading: bool
    var debugMsg: string
    /** Handles of the watchdog timers that are armed and not yet cleared or fired. */
    var timers: set<nat>
    var nextTimer: nat
    ghost var effects: seq<Effect<Patient>>

    constructor ()
      ensures patients == [] && filtered == [] && selected == {} && searchTerm == ""
      ensures !isLoading && debugMsg == "" && timers == {} && nextTimer == 0 && effects == []
    {
      patients, filtered, selected, searchTerm := [], [], {}, "";
      isLoading, debugMsg, timers, nextTimer := false, "", {}, 0;
      effects := [];
    }

    function VisibleIdSet(): set<string>
      reads this
    {
      IdSet(VisibleIds(filtered, PatientId))
    }

    /** The visible records come from the collection and only visible ids are selected. */
    ghost predicate Consistent()
      reads this
    {
      (forall p :: p in filtered ==> p in patients) && selected <= VisibleIdSet()
    }

    /** `load()`, up to the request: raise the loading flag, arm the watchdog, fetch. */
    method Load() returns (h: nat)
      modifies this`isLoading, this`debugMsg, this`timers, this`nextTimer, this`effects
      ensures isLoading && debugMsg == LoadingMsg
      ensures h == old(nextTimer) && nextTimer == h + 1 && timers == old(timers) + {h}
      ensures effects == old(effects) + [FetchList]
    {
      isLoading := true;
      debugMsg := LoadingMsg;
      h := nextTimer;
      timers := timers + {h};
      nextTimer := nextTimer + 1;
      effects := effects + [FetchList];
    }

    /** The 9000 ms watchdog fires: it empties the view only if the load is still pending. */
    method OnWatchdog(h: nat)
      requires h in timers
      modifies this`timers, this`isLoading, this`patients, this`filtered, this`selected, this`debugMsg
      ensures timers == old(timers) - {h}
      ensures old(isLoading) ==>
                !isLoading && patients == [] && filtered == [] && selected == {} && debugMsg == TimeoutMsg
      ensures !old(isLoading) ==>
                !isLoading && patients == old(patients) && filtered == old(filtered)
                && selected == old(selected) && debugMsg == old(debugMsg)
      ensures old(Consistent()) ==> Consistent()
    {
      timers := timers - {h};
      if isLoading {
        isLoading := false;
        patients := [];
        filtered := [];
        selected := {};
        debugMsg := TimeoutMsg;
      }
    }

    /** A response body arrives: it replaces the collection whatever happened before. */
    method OnResponse(body: Payload<Patient>)
      modifies this`patients, this`filtered, this`selected
      ensures patients == NormalizeList(body) && filtered == patients && selected == {}
      ensures Consistent()
    {
      patients := NormalizeList(body);
      filtered := patients;
      selected := {};
    }

    /** The request fails: the diagnostic is recorded and an empty list is delivered. */
    method OnError(err: HttpError)
      modifies this`debugMsg, this`patients, this`filtered, this`selected
      ensures debugMsg == FormatHttpError(err)
      ensures patients == [] && filtered == [] && selected == {}
      ensures Consistent()
    {
      debugMsg := FormatHttpError(err);
      patients := [];
      filtered := [];
      selected := {};
    }

    /** `finalize`: clear the watchdog, drop the loading flag, summarise if nothing went wrong. */
    method OnFinalize(h: nat, elapsedMs: nat)
      modifies this`timers, this`isLoading, this`debugMsg
      ensures timers == old(timers) - {h} && !isLoading
      ensures debugMsg == if old(debugMsg) == "" || "Cargando" <= old(debugMsg)
                          then "OK (" + IntToString(elapsedMs) + " ms) \U{00B7} "
                               + IntToString(|patients|) + " registro(s)"
                          else old(debugMsg)
    {
      timers := timers - {h};
      isLoading := false;
      if debugMsg == "" || "Cargando" <= debugMsg {
        debugMsg := "OK (" + IntToString(elapsedMs) + " ms) \U{00B7} "
                    + IntToString(|patients|) + " registro(s)";
      }
    }

    /**
     * `onSearchInput`: a blank query shows every patient and keeps the
     * selection; any other query shows the matching patients in order and
     * drops the selected ids that are no longer visible.
     */
    method OnSearchInput()
      modifies this`filtered, this`selected
      ensures SearchQuery(searchTerm) == "" ==> filtered == patients && selected == old(selected)
      ensures SearchQuery(searchTerm) != "" ==>
                filtered == Filter(patients, MatchesQuery(SearchQuery(searchTerm)))
                && selected == old(selected) * VisibleIdSet()
      ensures old(Consistent()) || SearchQuery(searchTerm) != "" ==> Consistent()
    {
      var q := SearchQuery(searchTerm);
      if q == "" {
        ShowAll();
        return;
      }
      ShowMatching(q);
    }

    /** The blank-query branch of `onSearchInput`: show every patient, keep the selection. */
    method ShowAll()
      modifies this`filtered
      ensures filtered == patients
      ensures old(Consistent()) ==> Consistent()
    {
      if Consistent() {
        VisibleIdsMonotone(filtered, patients, PatientId);
      }
      filtered := patients;
    }

    /** The other branch: show the patients matching `q`, in order, and prune the selection to them. */
    method ShowMatching(q: string)
      modifies this`filtered, this`selected
      ensures filtered == Filter(patients, MatchesQuery(q))
      ensures selected == old(selected) * VisibleIdSet()
      ensures Consistent()
    {
      filtered := Filter(patients, MatchesQuery(q));
      PruneSelection(VisibleIdSet());
    }

    /** The loop of `onSearchInput` that deletes every selected id that is not visible. */
    method PruneSelection(visible: set<string>)
      modifies this`selected
      ensures selected == old(selected) * visible
    {
      var pending := selected;
      while pending != {}
        invariant pending <= old(selected)
        invariant selected == pending + (old(selected) - pending) * visible
        decreases pending
      {
        var id :| id in pending;
        if id !in visible {
          selected := selected - {id};
        }
        pending := pending - {id};
      }
    }

    /** `toggleSelection`: flip the membership of `id` and of nothing else. */
    method ToggleSelection(id: string)
      modifies this`selected
      ensures selected == Toggled(old(selected), id)
      ensures old(Consistent()) && (id in old(selected) || id in VisibleIdSet()) ==> Consistent()
    {
      if id in selected {
        selected := selected - {id};
      } else {
        selected := selected + {id};
      }
    }

    /** `isSelected` */
    function IsSelected(id: string): (b: bool)
      reads this
      ensures b <==> id in selected
      ensures Consistent() && b ==> id in VisibleIdSet()
    {
      id in selected
    }

    /** `allVisibleSelected` */
    function AllVisibleSelected(): (b: bool)
      reads this
      ensures b <==> VisibleIdSet() != {} && VisibleIdSet() <= selected
    {
      AllSelected(VisibleIds(filtered, PatientId), selected)
    }

    /** `toggleSelectAll`: deselect every visible id if all are selected, else select them all. */
    method ToggleSelectAll()
      modifies this`selected
      ensures selected == ToggleAll(old(selected), VisibleIds(filtered, PatientId))
      ensures old(Consistent()) ==> Consistent()
    {
      var vis := VisibleIds(filtered, PatientId);
      var allSel := AllSelected(vis, selected);
      ForEachVisible(vis, allSel);
    }

    /** The `forEach` of `toggleSelectAll`: delete (or add) each visible id in turn. */
    method ForEachVisible(vis: seq<string>, remove: bool)
      modifies this`selected
      ensures selected == if remove then old(selected) - IdSet(vis) else old(selected) + IdSet(vis)
    {
      var i := 0;
      while i < |vis|
        invariant 0 <= i <= |vis|
        invariant selected == if remove then old(selected) - IdSet(vis[..i]) else old(selected) + IdSet(vis[..i])
      {
        assert IdSet(vis[..i + 1]) == IdSet(vis[..i]) + {vis[i]} by {
          assert vis[..i + 1] == vis[..i] + [vis[i]];
        }
        if remove {
          selected := selected - {vis[i]};
        } else {
          selected := selected + {vis[i]};
        }
        i := i + 1;
      }
      assert vis[..i] == vis;
    }

    /** `editSelected`: open the editor only when exactly one id is selected. */
    method EditSelected()
      modifies this`effects
      ensures |selected| == 1 ==> effects == old(effects) + [Navigate(["/patients/edit", Only(selected)], false)]
      ensures |selected| != 1 ==>
                effects == old(effects) + [Alert("Selecciona EXACTAMENTE 1 paciente para editar.")]
    {
      if |selected| != 1 {
        effects := effects + [Alert("Selecciona EXACTAMENTE 1 paciente para editar.")];
        return;
      }
      var id :| id in selected;
      effects := effects + [Navigate(["/patients/edit", id], false)];
    }

    /** `inspectSelected`: open the read-only view only when exactly one id is selected. */
    method InspectSelected()
      modifies this`effects
      ensures |selected| == 1 ==> effects == old(effects) + [Navigate(["/patients/edit", Only(selected)], true)]
      ensures |selected| != 1 ==>
                effects == old(effects) + [Alert("Selecciona EXACTAMENTE 1 paciente para inspeccionar.")]
    {
      if |selected| != 1 {
        effects := effects + [Alert("Selecciona EXACTAMENTE 1 paciente para inspeccionar.")];
        return;
      }
      var id :| id in selected;
      effects := effects + [Navigate(["/patients/edit", id], true)];
    }

    /** `viewSelected`: list the selected patients, in collection order, in an alert. */
    method ViewSelected()
      modifies this`effects
      ensures |selected| == 0 ==> effects == old(effects) + [Alert("No hay elementos seleccionados.")]
      ensures |selected| != 0 ==>
                effects == old(effects)
                           + [Alert(Join(DetailLines(SelectedRecords(patients, PatientId, selected)), "\n"))]
    {
      if |selected| == 0 {
        effects := effects + [Alert("No hay elementos seleccionados.")];
        return;
      }
      var details := SelectedRecords(patients, PatientId, selected);
      effects := effects + [Alert(Join(DetailLines(details), "\n"))];
    }

    /**
     * `deleteOne`, with the user's answer to the confirmation and the outcome
     * of the request as inputs: nothing without confirmation; a reload after
     * success; an alert and an untouched view after failure.
     */
    method DeleteOne(id: string, confirmed: bool, succeeded: bool) returns (cycle: Option<nat>)
      modifies this`isLoading, this`debugMsg, this`timers, this`nextTimer, this`effects
      ensures !confirmed ==> cycle == None && effects == old(effects) && isLoading == old(isLoading)
                             && debugMsg == old(debugMsg) && timers == old(timers) && nextTimer == old(nextTimer)
      ensures confirmed && succeeded ==>
                effects == old(effects) + [DeleteById(id), FetchList] && isLoading && debugMsg == LoadingMsg
                && cycle == Some(old(nextTimer)) && timers == old(timers) + {old(nextTimer)} && nextTimer == old(nextTimer) + 1
      ensures confirmed && !succeeded ==>
                cycle == None && effects == old(effects) + [DeleteById(id), Alert("No se pudo eliminar.")]
                && isLoading == old(isLoading) && debugMsg == old(debugMsg) && timers == old(timers) && nextTimer == old(nextTimer)
    {
      cycle := None;
      if !confirmed {
        return;
      }
      effects := effects + [DeleteById(id)];
      if succeeded {
        var h := Load();
        cycle := Some(h);
      } else {
        effects := effects + [Alert("No se pudo eliminar.")];
      }
    }

    /** `deleteSelected`: needs a non-empty selection and confirmation; reloads after success. */
    method DeleteSelected(confirmed: bool, succeeded: bool) returns (cycle: Option<nat>)
      modifies this`isLoading, this`debugMsg, this`timers, this`nextTimer, this`effects
      ensures |selected| == 0 ==>
                cycle == None && effects == old(effects) + [Alert("Selecciona al menos 1 paciente para eliminar.")]
                && isLoading == old(isLoading) && debugMsg == old(debugMsg) && timers == old(timers) && nextTimer == old(nextTimer)
      ensures |selected| != 0 && !confirmed ==>
                cycle == None && effects == old(effects) && isLoading == old(isLoading)
                && debugMsg == old(debugMsg) && timers == old(timers) && nextTimer == old(nextTimer)
      ensures |selected| != 0 && confirmed && succeeded ==>
                effects == old(effects) + [DeleteMany(selected), FetchList] && isLoading && debugMsg == LoadingMsg
                && cycle == Some(old(nextTimer)) && timers == old(timers) + {old(nextTimer)} && nextTimer == old(nextTimer) + 1
      ensures |selected| != 0 && confirmed && !succeeded ==>
                cycle == None
                && effects == old(effects) + [DeleteMany(selected), Alert("No se pudo eliminar el/los paciente(s).")]
                && isLoading == old(isLoading) && debugMsg == old(debugMsg) && timers == old(timers) && nextTimer == old(nextTimer)
    {
      cycle := None;
      if |selected| == 0 {
        effects := effects + [Alert("Selecciona al menos 1 paciente para eliminar.")];
        return;
      }
      if !confirmed {
        return;
      }
      effects := effects + [DeleteMany(selected)];
      if succeeded {
        var h := Load();
        cycle := Some(h);
      } else {
        effects := effects + [Alert("No se pudo eliminar el/los paciente(s).")];
      }
    }

    /** `refresh`: clear the query and start a new load. */
    method Refresh() returns (h: nat)
      modifies this`searchTerm, this`isLoading, this`debugMsg, this`timers, this`nextTimer, this`effects
      ensures searchTerm == "" && isLoading && debugMsg == LoadingMsg
      ensures h == old(nextTimer) && timers == old(timers) + {h} && nextTimer == h + 1
      ensures effects == old(effects) + [FetchList]
    {
      searchTerm := "";
      h := Load();
    }
  }

  /**
   * No latch guards the view: a response that arrives after the watchdog has
   * given up still replaces the (emptied) collection.
   */
  method LateResponseIsApplied(list: seq<Patient>) returns (shown: seq<Patient>, loading: bool)
    ensures shown == list && !loading
  {
    var view := new PatientListComponent();
    var h := view.Load();
    view.OnWatchdog(h);
    assert view.patients == [];
    view.OnResponse(Array(list));
    shown, loading := view.patients, view.isLoading;
  }
}
