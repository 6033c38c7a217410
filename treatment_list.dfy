/**
 * The treatment list view: loads treatments, patients, staff and medicines
 * together, shows names instead of ids, and deletes single treatments.
 */
module TreatmentList {
  import opened Wrappers
  import opened Text
  import opened Records
  import opened Responses
  import opened Effects

  const LoadingMsg: string := "Cargando tratamientos completos..."
  const TimeoutMsg: string := "\U{23F1}\U{FE0F} Timeout en carga conjunta."

  /** The outcome of one of the four joined requests. */
  datatype Fetched<R> = Delivered(body: Payload<R>) | Failed

  /** `request.pipe(catchError(() => of([])))`: the body, or an empty array when the request fails. */
  function OrEmpty<R>(f: Fetched<R>): Payload<R> {
    match f
    case Delivered(body) => body
    case Failed => Array([])
  }

  /** A failed source contributes an empty list; a delivered one its normalised body. */
  lemma SourceOutcome<R>(f: Fetched<R>)
    ensures f.Failed? ==> NormalizeContent(OrEmpty(f)) == []
    ensures f.Delivered? ==> NormalizeContent(OrEmpty(f)) == NormalizeContent(f.body)
  {
  }

  /** `rs.find(r => r.id === id)`, as the index of the first record with that id. */
  function FindById<R>(rs: seq<R>, idOf: R -> Option<string>, id: string): (k: Option<nat>)
    ensures k.Some? ==> k.value < |rs| && idOf(rs[k.value]) == Some(id)
                        && forall j :: 0 <= j < k.value ==> idOf(rs[j]) != Some(id)
    ensures k.None? ==> forall j :: 0 <= j < |rs| ==> idOf(rs[j]) != Some(id)
  {
    if rs == [] then None
    else if idOf(rs[0]) == Some(id) then Some(0)
    else
      var k := FindById(rs[1..], idOf, id);
      if k.Some? then Some(k.value + 1) else None
  }

  /** `rs.find(r => r.id === id)?.name || id` */
  function NameOrId<R>(rs: seq<R>, idOf: R -> Option<string>, nameOf: R -> Option<string>, id: string): (r: string)
    ensures r == id || exists k :: 0 <= k < |rs| && idOf(rs[k]) == Some(id) && nameOf(rs[k]) == Some(r) && r != ""
    ensures (forall k :: 0 <= k < |rs| ==> idOf(rs[k]) != Some(id)) ==> r == id
  {
    var k := FindById(rs, idOf, id);
    if k.Some? && Truthy(nameOf(rs[k.value])) then nameOf(rs[k.value]).value else id
  }

  /** The name shown is the one of the first record with the id, when that name is non-empty. */
  lemma NameOfFirstMatch<R>(rs: seq<R>, idOf: R -> Option<string>, nameOf: R -> Option<string>,
                            id: string, k: nat)
    requires k < |rs| && idOf(rs[k]) == Some(id)
    requires forall j :: 0 <= j < k ==> idOf(rs[j]) != Some(id)
    ensures NameOrId(rs, idOf, nameOf, id) == if Truthy(nameOf(rs[k])) then nameOf(rs[k]).value else id
  {
  }

  class TreatmentList {
    var treatments: seq<Treatment>
    var patients: seq<Patient>
    var staffList: seq<Staff>
    var medicines: seq<Medicine>
    var isLoading: bool
    var debugMsg: string
    /** Handles of the watchdog timers that are armed and not yet cleared or fired. */
    var timers: set<nat>
    var nextTimer: nat
    ghost var effects: seq<Effect<Treatment>>

    constructor ()
      ensures treatments == [] && patients == [] && staffList == [] && medicines == []
      ensures !isLoading && debugMsg == "" && timers == {} && nextTimer == 0 && effects == []
    {
      treatments, patients, staffList, medicines := [], [], [], [];
      isLoading, debugMsg, timers, nextTimer := false, "", {}, 0;
      effects := [];
    }

    /** `loadData()`, up to the requests: raise the loading flag, arm the watchdog, fetch the four lists. */
    method LoadData() returns (h: nat)
      modifies this`isLoading, this`debugMsg, this`timers, this`nextTimer, this`effects
      ensures isLoading && debugMsg == LoadingMsg
      ensures h == old(nextTimer) && nextTimer == h + 1 && timers == old(timers) + {h}
      ensures effects == old(effects) + [FetchList]
    {
      isLoading := true;
      debugMsg := LoadingMsg;
      h := nextTimer;
      timers := timers + {h};
      nextTimer := nextTimer + 1;
      effects := effects + [FetchList];
    }

    /** The 12000 ms watchdog fires: it acts only while the load is still pending, and keeps the lists. */
    method OnWatchdog(h: nat)
      requires h in timers
      modifies this`timers, this`isLoading, this`debugMsg
      ensures timers == old(timers) - {h} && !isLoading
      ensures debugMsg == if old(isLoading) then TimeoutMsg else old(debugMsg)
    {
      timers := timers - {h};
      if isLoading {
        isLoading := false;
        debugMsg := TimeoutMsg;
      }
    }

    /**
     * All four requests have settled: each list is replaced by its own source's
     * normalised body, or by nothing when that source failed.
     */
    method OnJoined(t: Fetched<Treatment>, p: Fetched<Patient>, s: Fetched<Staff>, m: Fetched<Medicine>)
      modifies this`treatments, this`patients, this`staffList, this`medicines, this`debugMsg
      ensures treatments == NormalizeContent(OrEmpty(t)) && patients == NormalizeContent(OrEmpty(p))
      ensures staffList == NormalizeContent(OrEmpty(s)) && medicines == NormalizeContent(OrEmpty(m))
      ensures debugMsg == "Cargados: " + IntToString(|treatments|) + " tratamientos"
    {
      treatments := NormalizeContent(OrEmpty(t));
      patients := NormalizeContent(OrEmpty(p));
      staffList := NormalizeContent(OrEmpty(s));
      medicines := NormalizeContent(OrEmpty(m));
      debugMsg := "Cargados: " + IntToString(|treatments|) + " tratamientos";
    }

    /** `finalize`: clear the watchdog and drop the loading flag. */
    method OnFinalize(h: nat)
      modifies this`timers, this`isLoading
      ensures timers == old(timers) - {h} && !isLoading
    {
      timers := timers - {h};
      isLoading := false;
    }

    function GetPatientName(id: string): string
      reads this
    {
      NameOrId(patients, PatientId, PatientName, id)
    }

    function GetStaffName(id: string): string
      reads this
    {
      NameOrId(staffList, StaffId, StaffName, id)
    }

    function GetMedicineName(id: string): string
      reads this
    {
      NameOrId(medicines, MedicineId, MedicineName, id)
    }

    /**
     * `delete`: a request only for a present id and a confirmed dialog; a
     * reload after success and nothing at all after failure.
     */
    method Delete(id: Option<string>, confirmed: bool, succeeded: bool) returns (cycle: Option<nat>)
      modifies this`isLoading, this`debugMsg, this`timers, this`nextTimer, this`effects
      ensures !(Truthy(id) && confirmed) ==>
                cycle == None && effects == old(effects) && isLoading == old(isLoading)
                && debugMsg == old(debugMsg) && timers == old(timers) && nextTimer == old(nextTimer)
      ensures Truthy(id) && confirmed && succeeded ==>
                effects == old(effects) + [DeleteById(id.value), FetchList] && isLoading
                && debugMsg == LoadingMsg && cycle == Some(old(nextTimer))
                && timers == old(timers) + {old(nextTimer)} && nextTimer == old(nextTimer) + 1
      ensures Truthy(id) && confirmed && !succeeded ==>
                cycle == None && effects == old(effects) + [DeleteById(id.value)]
                && isLoading == old(isLoading) && debugMsg == old(debugMsg) && timers == old(timers) && nextTimer == old(nextTimer)
    {
      cycle := None;
      if Truthy(id) && confirmed {
        effects := effects + [DeleteById(id.value)];
        if succeeded {
          var h := LoadData();
          cycle := Some(h);
        }
      }
    }
  }

  /** One failing source leaves its own list empty and the other three are still assigned. */
  method OneFailureDoesNotBlockOthers(t: seq<Treatment>, s: seq<Staff>, m: seq<Medicine>)
    returns (treatments: seq<Treatment>, patients: seq<Patient>, staff: seq<Staff>, medicines: seq<Medicine>)
    ensures treatments == t && patients == [] && staff == s && medicines == m
  {
    var view := new TreatmentList();
    var h := view.LoadData();
    view.OnJoined(Delivered(Array(t)), Failed, Delivered(Array(s)), Delivered(Array(m)));
    view.OnFinalize(h);
    treatments, patients, staff, medicines := view.treatments, view.patients, view.staffList, view.medicines;
  }
}
