/** The patient form: create, edit or inspect one patient. */
module PatientForm {
  import opened Wrappers
  import opened Text
  import opened Records
  import opened Effects
  import opened FormMode

  const NameRequired: string := "El nombre es obligatorio."
  const AgeInvalid: string := "La edad no es válida."
  const LoadFailed: string := "No se pudo cargar el paciente."
  const ListRoute: seq<string> := ["/patients"]

  /** The empty patient the form starts with. */
  const Blank: Patient := Patient(None, Some(""), Some(Finite(0)), Some(""))

  function Title(m: Mode): string {
    match m
    case New => "Nuevo Paciente"
    case Edit => "Editar Paciente"
    case View => "Inspeccionar Paciente"
  }

  /** The header tells the three modes apart. */
  lemma TitleIdentifiesMode(m1: Mode, m2: Mode)
    ensures Title(m1) == Title(m2) <==> m1 == m2
  {
    if m1 != m2 {
      assert Title(m1)[0] != Title(m2)[0];
    }
  }

  /** The alert after a failed save, which depends on whether the patient was new. */
  function SaveFailed(m: Mode): string {
    if m == New then "No se pudo guardar." else "No se pudo actualizar."
  }

  /** A loaded patient with the form's defaults filled in for absent fields (`??`). */
  function FromLoaded(d: Patient): (r: Patient)
    ensures r.id == d.id && r.name.Some? && r.age.Some? && r.medicalHistory.Some?
    ensures d.name.Some? ==> r.name == d.name
    ensures d.age.Some? ==> r.age == d.age
    ensures d.medicalHistory.Some? ==> r.medicalHistory == d.medicalHistory
    ensures d.name.None? ==> r.name == Some("")
    ensures d.age.None? ==> r.age == Some(Finite(0))
    ensures d.medicalHistory.None? ==> r.medicalHistory == Some("")
  {
    Patient(d.id, Some(d.name.GetOr("")), Some(d.age.GetOr(Finite(0))), Some(d.medicalHistory.GetOr("")))
  }

  /** The payload `save` sends: trimmed texts, a missing age as 0, the id unchanged. */
  function BuildPayload(p: Patient): (r: Patient)
    ensures r.id == p.id
    ensures r.name == Some(Trim(p.name.GetOr(""))) && IsTrimmed(r.name.value)
    ensures r.medicalHistory == Some(Trim(p.medicalHistory.GetOr(""))) && IsTrimmed(r.medicalHistory.value)
    ensures r.age == Some(p.age.GetOr(Finite(0)))
  {
    Patient(p.id, Some(Trim(p.name.GetOr(""))), Some(p.age.GetOr(Finite(0))),
            Some(Trim(p.medicalHistory.GetOr(""))))
  }

  /** Building the payload of a payload changes nothing. */
  lemma BuildPayloadIdempotent(p: Patient)
    ensures BuildPayload(BuildPayload(p)) == BuildPayload(p)
  {
    TrimIdempotent(p.name.GetOr(""));
    TrimIdempotent(p.medicalHistory.GetOr(""));
  }

  /** A patient whose texts are present and trimmed and whose age is present is sent as it is. */
  lemma WellFormedSentUnchanged(p: Patient)
    requires p.name.Some? && IsTrimmed(p.name.value)
    requires p.medicalHistory.Some? && IsTrimmed(p.medicalHistory.value)
    requires p.age.Some?
    ensures BuildPayload(p) == p
  {
    TrimOfTrimmed(p.name.value);
    TrimOfTrimmed(p.medicalHistory.value);
  }

  /** `Number.isFinite(age) && age >= 0` */
  predicate ValidAge(a: Option<Num>) {
    a.Some? && a.value.Finite? && a.value.value >= 0
  }

  /** The alert that stops a save, if any: the name is checked before the age. */
  function Rejection(payload: Patient): (r: Option<string>)
    ensures r == None <==> Truthy(payload.name) && ValidAge(payload.age)
    ensures r == Some(NameRequired) <==> !Truthy(payload.name)
    ensures r == Some(AgeInvalid) <==> Truthy(payload.name) && !ValidAge(payload.age)
  {
    if !Truthy(payload.name) then Some(NameRequired)
    else if !ValidAge(payload.age) then Some(AgeInvalid)
    else None
  }

  /** A name made only of white-space is refused, whatever the age. */
  lemma BlankNameRefused(p: Patient)
    requires forall i :: 0 <= i < |p.name.GetOr("")| ==> IsSpace(p.name.GetOr("")[i])
    ensures Rejection(BuildPayload(p)) == Some(NameRequired)
  {
    TrimBlank(p.name.GetOr(""));
  }

  /** A missing age is saved as 0 and so never refused on its own account. */
  lemma MissingAgeAccepted(p: Patient)
    requires p.age.None? && Trim(p.name.GetOr("")) != ""
    ensures Rejection(BuildPayload(p)) == None && BuildPayload(p).age == Some(Finite(0))
  {
  }

  /**
   * A loaded patient with a trimmed non-empty name and a valid age, saved
   * without edits, is accepted and sent back with only its absent texts filled in.
   */
  lemma LoadedPatientSavesUnchanged(d: Patient)
    requires d.name.Some? && d.name.value != "" && IsTrimmed(d.name.value)
    requires d.medicalHistory.None? || IsTrimmed(d.medicalHistory.value)
    requires ValidAge(d.age)
    ensures BuildPayload(FromLoaded(d)) == FromLoaded(d)
    ensures Rejection(BuildPayload(FromLoaded(d))) == None
  {
    WellFormedSentUnchanged(FromLoaded(d));
  }

  class PatientFormComponent {
    var patient: Patient
    var mode: Mode
    var patientId: Option<string>
    var loading: bool
    /** Handles of the watchdog timers that are armed and not yet cleared or fired. */
    var timers: set<nat>
    var nextTimer: nat
    ghost var effects: seq<Effect<Patient>>

    /** The form edits or inspects exactly when the route gave it an id. */
    ghost predicate Valid()
      reads this
    {
      mode == New <==> !Truthy(patientId)
    }

    constructor ()
      ensures patient == Blank && mode == New && patientId == None
      ensures !loading && timers == {} && nextTimer == 0 && effects == []
      ensures Valid()
    {
      patient, mode, patientId := Blank, New, None;
      loading, timers, nextTimer := false, {}, 0;
      effects := [];
    }

    predicate IsView()
      reads this
    {
      mode == View
    }

    /**
     * `ngOnInit` with `loadPatient`: take the mode from the route, and for a
     * route id raise the loading flag, arm the 5000 ms watchdog and fetch the patient.
     */
    method Init(routeId: Option<string>, queryMode: Option<string>, stateView: bool) returns (h: Option<nat>)
      modifies this`patientId, this`mode, this`loading, this`timers, this`nextTimer, this`effects
      ensures patientId == routeId && mode == DeriveMode(routeId, queryMode, stateView)
      ensures Valid()
      ensures Truthy(routeId) ==>
                loading && h == Some(old(nextTimer)) && nextTimer == old(nextTimer) + 1
                && timers == old(timers) + {old(nextTimer)}
                && effects == old(effects) + [FetchById(routeId.value)]
      ensures !Truthy(routeId) ==>
                h == None && loading == old(loading) && timers == old(timers)
                && nextTimer == old(nextTimer) && effects == old(effects)
    {
      patientId := routeId;
      mode := DeriveMode(routeId, queryMode, stateView);
      h := None;
      if Truthy(routeId) {
        loading := true;
        h := Some(nextTimer);
        timers := timers + {nextTimer};
        nextTimer := nextTimer + 1;
        effects := effects + [FetchById(routeId.value)];
      }
    }

    /** The patient arrived: show it with the defaults for absent fields. */
    method OnLoaded(data: Patient)
      modifies this`patient
      ensures patient == FromLoaded(data)
    {
      patient := FromLoaded(data);
    }

    /** The load failed: alert and go back to the list. */
    method OnLoadFailed()
      modifies this`effects
      ensures effects == old(effects) + [Alert(LoadFailed), Navigate(ListRoute, false)]
    {
      effects := effects + [Alert(LoadFailed), Navigate(ListRoute, false)];
    }

    /** A 5000 ms watchdog fires: it only ever lowers the loading flag. */
    method OnWatchdog(h: nat)
      requires h in timers
      modifies this`timers, this`loading
      ensures timers == old(timers) - {h} && !loading
    {
      timers := timers - {h};
      if loading {
        loading := false;
      }
    }

    /** `finalize` of a load or a save: clear its watchdog and lower the loading flag. */
    method OnFinalize(h: nat)
      modifies this`timers, this`loading
      ensures timers == old(timers) - {h} && !loading
    {
      timers := timers - {h};
      loading := false;
    }

    /**
     * `save`: nothing when inspecting; an alert when the payload is refused;
     * otherwise raise the loading flag, arm the watchdog and create the patient
     * (new) or update the one the route named (edit).
     */
    method Save() returns (h: Option<nat>)
      requires Valid()
      modifies this`loading, this`timers, this`nextTimer, this`effects
      ensures IsView() || Rejection(BuildPayload(patient)).Some? ==>
                h == None && loading == old(loading) && timers == old(timers) && nextTimer == old(nextTimer)
      ensures IsView() ==> effects == old(effects)
      ensures !IsView() && Rejection(BuildPayload(patient)).Some? ==>
                effects == old(effects) + [Alert(Rejection(BuildPayload(patient)).value)]
      ensures !IsView() && Rejection(BuildPayload(patient)).None? ==>
                loading && h == Some(old(nextTimer)) && nextTimer == old(nextTimer) + 1
                && timers == old(timers) + {old(nextTimer)}
                && effects == old(effects) + [if mode == New then Create(BuildPayload(patient))
                                              else Update(patientId.value, BuildPayload(patient))]
    {
      h := None;
      if IsView() {
        return;
      }
      var payload := BuildPayload(patient);
      var refused := Rejection(payload);
      if refused.Some? {
        effects := effects + [Alert(refused.value)];
        return;
      }
      h := Send(payload);
    }

    /** The request of an accepted save: raise the loading flag, arm the watchdog, create or update. */
    method Send(payload: Patient) returns (h: Option<nat>)
      requires Valid()
      modifies this`loading, this`timers, this`nextTimer, this`effects
      ensures loading && h == Some(old(nextTimer)) && nextTimer == old(nextTimer) + 1
      ensures timers == old(timers) + {old(nextTimer)}
      ensures effects == old(effects) + [if mode == New then Create(payload) else Update(patientId.value, payload)]
    {
      loading := true;
      h := Some(nextTimer);
      timers := timers + {nextTimer};
      nextTimer := nextTimer + 1;
      if mode == New {
        effects := effects + [Create(payload)];
      } else {
        effects := effects + [Update(patientId.value, payload)];
      }
    }

    /** The save succeeded: back to the list. */
    method OnSaveSucceeded()
      modifies this`effects
      ensures effects == old(effects) + [Navigate(ListRoute, false)]
    {
      effects := effects + [Navigate(ListRoute, false)];
    }

    /** The save failed: an alert worded after the mode; the form stays as it is. */
    method OnSaveFailed()
      modifies this`effects
      ensures effects == old(effects) + [Alert(SaveFailed(mode))]
    {
      effects := effects + [Alert(SaveFailed(mode))];
    }

    method Cancel()
      modifies this`effects
      ensures effects == old(effects) + [Navigate(ListRoute, false)]
    {
      effects := effects + [Navigate(ListRoute, false)];
    }
  }
}
