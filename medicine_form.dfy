/** The medicine form: create, edit or inspect one medicine. */
module MedicineForm {
  import opened Wrappers
  import opened Text
  import opened Records
  import opened Effects
  import opened FormMode

  const NameRequired: string := "El nombre es obligatorio."
  const QuantityInvalid: string := "La cantidad no es válida."
  const LoadFailed: string := "No se pudo cargar la medicina."
  const SaveFailed: string := "No se pudo guardar la medicina."
  const ListRoute: seq<string> := ["/medicines"]

  /** The empty medicine the form starts with. */
  const Blank: Medicine := Medicine(None, Some(""), Some(Finite(0)))

  function Title(m: Mode): string {
    match m
    case New => "Nueva Medicina"
    case Edit => "Editar Medicina"
    case View => "Inspeccionar Medicina"
  }

  /** The header tells the three modes apart. */
  lemma TitleIdentifiesMode(m1: Mode, m2: Mode)
    ensures Title(m1) == Title(m2) <==> m1 == m2
  {
    if m1 != m2 {
      assert Title(m1)[0] != Title(m2)[0];
    }
  }

  /** A loaded medicine with the form's defaults filled in for absent fields (`??`). */
  function FromLoaded(d: Medicine): (r: Medicine)
    ensures r.id == d.id && r.name.Some? && r.quantity.Some?
    ensures d.name.Some? ==> r.name == d.name
    ensures d.quantity.Some? ==> r.quantity == d.quantity
    ensures d.name.None? ==> r.name == Some("")
    ensures d.quantity.None? ==> r.quantity == Some(Finite(0))
  {
    Medicine(d.id, Some(d.name.GetOr("")), Some(d.quantity.GetOr(Finite(0))))
  }

  /** The payload `save` sends: the trimmed name, a missing quantity as 0, the id unchanged. */
  function BuildPayload(m: Medicine): (r: Medicine)
    ensures r.id == m.id
    ensures r.name == Some(Trim(m.name.GetOr(""))) && IsTrimmed(r.name.value)
    ensures r.quantity == Some(m.quantity.GetOr(Finite(0)))
  {
    Medicine(m.id, Some(Trim(m.name.GetOr(""))), Some(m.quantity.GetOr(Finite(0))))
  }

  /** Building the payload of a payload changes nothing. */
  lemma BuildPayloadIdempotent(m: Medicine)
    ensures BuildPayload(BuildPayload(m)) == BuildPayload(m)
  {
    TrimIdempotent(m.name.GetOr(""));
  }

  /** A medicine whose name is present and trimmed and whose quantity is present is sent as it is. */
  lemma WellFormedSentUnchanged(m: Medicine)
    requires m.name.Some? && IsTrimmed(m.name.value)
    requires m.quantity.Some?
    ensures BuildPayload(m) == m
  {
    TrimOfTrimmed(m.name.value);
  }

  /** `Number.isFinite(quantity) && quantity >= 0` */
  predicate ValidQuantity(q: Option<Num>) {
    q.Some? && q.value.Finite? && q.value.value >= 0
  }

  /** The alert that stops a save, if any: the name is checked before the quantity. */
  function Rejection(payload: Medicine): (r: Option<string>)
    ensures r == None <==> Truthy(payload.name) && ValidQuantity(payload.quantity)
    ensures r == Some(NameRequired) <==> !Truthy(payload.name)
    ensures r == Some(QuantityInvalid) <==> Truthy(payload.name) && !ValidQuantity(payload.quantity)
  {
    if !Truthy(payload.name) then Some(NameRequired)
    else if !ValidQuantity(payload.quantity) then Some(QuantityInvalid)
    else None
  }

  /** A name made only of white-space is refused, whatever the quantity. */
  lemma BlankNameRefused(m: Medicine)
    requires forall i :: 0 <= i < |m.name.GetOr("")| ==> IsSpace(m.name.GetOr("")[i])
    ensures Rejection(BuildPayload(m)) == Some(NameRequired)
  {
    TrimBlank(m.name.GetOr(""));
  }

  /** A negative or non-numeric quantity is refused once the name is given. */
  lemma BadQuantityRefused(m: Medicine)
    requires Trim(m.name.GetOr("")) != ""
    requires m.quantity == Some(NotFinite) || (m.quantity.Some? && m.quantity.value.Finite? && m.quantity.value.value < 0)
    ensures Rejection(BuildPayload(m)) == Some(QuantityInvalid)
  {
  }

  /**
   * A loaded medicine with a trimmed non-empty name and a valid quantity,
   * saved without edits, is accepted and sent back as loaded.
   */
  lemma LoadedMedicineSavesUnchanged(d: Medicine)
    requires d.name.Some? && d.name.value != "" && IsTrimmed(d.name.value)
    requires ValidQuantity(d.quantity)
    ensures FromLoaded(d) == d
    ensures BuildPayload(FromLoaded(d)) == d
    ensures Rejection(BuildPayload(FromLoaded(d))) == None
  {
    WellFormedSentUnchanged(d);
  }

  class MedicineFormComponent {
    var medicine: Medicine
    var mode: Mode
    var medicineId: Option<string>
    var loading: bool
    /** Handles of the watchdog timers that are armed and not yet cleared or fired. */
    var timers: set<nat>
    var nextTimer: nat
    ghost var effects: seq<Effect<Medicine>>

    /** The form edits or inspects exactly when the route gave it an id. */
    ghost predicate Valid()
      reads this
    {
      mode == New <==> !Truthy(medicineId)
    }

    constructor ()
      ensures medicine == Blank && mode == New && medicineId == None
      ensures !loading && timers == {} && nextTimer == 0 && effects == []
      ensures Valid()
    {
      medicine, mode, medicineId := Blank, New, None;
      loading, timers, nextTimer := false, {}, 0;
      effects := [];
    }

    predicate IsView()
      reads this
    {
      mode == View
    }

    /**
     * `ngOnInit` with `loadMedicine`: take the mode from the route, and for a
     * route id raise the loading flag, arm the 5000 ms watchdog and fetch the medicine.
     */
    method Init(routeId: Option<string>, queryMode: Option<string>, stateView: bool) returns (h: Option<nat>)
      modifies this`medicineId, this`mode, this`loading, this`timers, this`nextTimer, this`effects
      ensures medicineId == routeId && mode == DeriveMode(routeId, queryMode, stateView)
      ensures Valid()
      ensures Truthy(routeId) ==>
                loading && h == Some(old(nextTimer)) && nextTimer == old(nextTimer) + 1
                && timers == old(timers) + {old(nextTimer)}
                && effects == old(effects) + [FetchById(routeId.value)]
      ensures !Truthy(routeId) ==>
                h == None && loading == old(loading) && timers == old(timers)
                && nextTimer == old(nextTimer) && effects == old(effects)
    {
      medicineId := routeId;
      mode := DeriveMode(routeId, queryMode, stateView);
      h := None;
      if Truthy(routeId) {
        loading := true;
        h := Some(nextTimer);
        timers := timers + {nextTimer};
        nextTimer := nextTimer + 1;
        effects := effects + [FetchById(routeId.value)];
      }
    }

    /** The medicine arrived: show it with the defaults for absent fields. */
    method OnLoaded(data: Medicine)
      modifies this`medicine
      ensures medicine == FromLoaded(data)
    {
      medicine := FromLoaded(data);
    }

    /** The load failed: alert and go back to the list. */
    method OnLoadFailed()
      modifies this`effects
      ensures effects == old(effects) + [Alert(LoadFailed), Navigate(ListRoute, false)]
    {
      effects := effects + [Alert(LoadFailed), Navigate(ListRoute, false)];
    }

    /** A 5000 ms watchdog fires: it only ever lowers the loading flag. */
    method OnWatchdog(h: nat)
      requires h in timers
      modifies this`timers, this`loading
      ensures timers == old(timers) - {h} && !loading
    {
      timers := timers - {h};
      if loading {
        loading := false;
      }
    }

    /** `finalize` of a load or a save: clear its watchdog and lower the loading flag. */
    method OnFinalize(h: nat)
      modifies this`timers, this`loading
      ensures timers == old(timers) - {h} && !loading
    {
      timers := timers - {h};
      loading := false;
    }

    /**
     * `save`: nothing when inspecting; an alert when the payload is refused;
     * otherwise raise the loading flag, arm the watchdog and create the medicine
     * (new) or update the one the route named (edit).
     */
    method Save() returns (h: Option<nat>)
      requires Valid()
      modifies this`loading, this`timers, this`nextTimer, this`effects
      ensures IsView() || Rejection(BuildPayload(medicine)).Some? ==>
                h == None && loading == old(loading) && timers == old(timers) && nextTimer == old(nextTimer)
      ensures IsView() ==> effects == old(effects)
      ensures !IsView() && Rejection(BuildPayload(medicine)).Some? ==>
                effects == old(effects) + [Alert(Rejection(BuildPayload(medicine)).value)]
      ensures !IsView() && Rejection(BuildPayload(medicine)).None? ==>
                loading && h == Some(old(nextTimer)) && nextTimer == old(nextTimer) + 1
                && timers == old(timers) + {old(nextTimer)}
                && effects == old(effects) + [if mode == New then Create(BuildPayload(medicine))
                                              else Update(medicineId.value, BuildPayload(medicine))]
    {
      h := None;
      if IsView() {
        return;
      }
      var payload := BuildPayload(medicine);
      var refused := Rejection(payload);
      if refused.Some? {
        effects := effects + [Alert(refused.value)];
        return;
      }
      h := Send(payload);
    }

    /** The request of an accepted save: raise the loading flag, arm the watchdog, create or update. */
    method Send(payload: Medicine) returns (h: Option<nat>)
      requires Valid()
      modifies this`loading, this`timers, this`nextTimer, this`effects
      ensures loading && h == Some(old(nextTimer)) && nextTimer == old(nextTimer) + 1
      ensures timers == old(timers) + {old(nextTimer)}
      ensures effects == old(effects) + [if mode == New then Create(payload) else Update(medicineId.value, payload)]
    {
      loading := true;
      h := Some(nextTimer);
      timers := timers + {nextTimer};
      nextTimer := nextTimer + 1;
      if mode == New {
        effects := effects + [Create(payload)];
      } else {
        effects := effects + [Update(medicineId.value, payload)];
      }
    }

    /** The save succeeded: back to the list. */
    method OnSaveSucceeded()
      modifies this`effects
      ensures effects == old(effects) + [Navigate(ListRoute, false)]
    {
      effects := effects + [Navigate(ListRoute, false)];
    }

    /** The save failed: one alert for both modes; the form stays as it is. */
    method OnSaveFailed()
      modifies this`effects
      ensures effects == old(effects) + [Alert(SaveFailed)]
    {
      effects := effects + [Alert(SaveFailed)];
    }

    method Cancel()
      modifies this`effects
      ensures effects == old(effects) + [Navigate(ListRoute, false)]
    {
      effects := effects + [Navigate(ListRoute, false)];
    }
  }
}
