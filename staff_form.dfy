/** The staff form: create, edit or inspect one staff member. */
module StaffForm {
  import opened Wrappers
  import opened Text
  import opened Records
  import opened Effects
  import opened FormMode

  const NameRequired: string := "El nombre es obligatorio."
  const LoadFailed: string := "No se pudo cargar el personal."
  const SaveFailed: string := "No se pudo guardar el personal."
  const ListRoute: seq<string> := ["/staff"]
  const DefaultRole: string := "DOCTOR"

  /** The roles the form offers. */
  const Roles: seq<string> := ["DOCTOR", "NURSE"]

  /** The empty staff member the form starts with. */
  const Blank: Staff := Staff(None, Some(""), Some(DefaultRole), Some(""))

  function Title(m: Mode): string {
    match m
    case New => "Nuevo Personal"
    case Edit => "Editar Personal"
    case View => "Inspeccionar Personal"
  }

  /** The header tells the three modes apart. */
  lemma TitleIdentifiesMode(m1: Mode, m2: Mode)
    ensures Title(m1) == Title(m2) <==> m1 == m2
  {
    if m1 != m2 {
      assert Title(m1)[0] != Title(m2)[0];
    }
  }

  /** A loaded staff member with the form's defaults filled in for absent fields (`??`). */
  function FromLoaded(d: Staff): (r: Staff)
    ensures r.id == d.id && r.name.Some? && r.role.Some? && r.specialization.Some?
    ensures d.name.Some? ==> r.name == d.name
    ensures d.role.Some? ==> r.role == d.role
    ensures d.specialization.Some? ==> r.specialization == d.specialization
    ensures d.name.None? ==> r.name == Some("")
    ensures d.role.None? ==> r.role == Some(DefaultRole)
    ensures d.specialization.None? ==> r.specialization == Some("")
    ensures d.role.None? || d.role.value in Roles ==> r.role.value in Roles
  {
    Staff(d.id, Some(d.name.GetOr("")), Some(d.role.GetOr(DefaultRole)), Some(d.specialization.GetOr("")))
  }

  /**
   * The payload `save` sends: the trimmed name, the role as chosen, the trimmed
   * specialization or null when that is blank, the id unchanged.
   */
  function BuildPayload(s: Staff): (r: Staff)
    ensures r.id == s.id && r.role == s.role
    ensures r.name == Some(Trim(s.name.GetOr(""))) && IsTrimmed(r.name.value)
    ensures r.specialization.None? <==> Trim(s.specialization.GetOr("")) == ""
    ensures r.specialization.Some? ==>
              r.specialization.value == Trim(s.specialization.GetOr(""))
              && r.specialization.value != "" && IsTrimmed(r.specialization.value)
  {
    var spec := Trim(s.specialization.GetOr(""));
    Staff(s.id, Some(Trim(s.name.GetOr(""))), s.role, if spec == "" then None else Some(spec))
  }

  /** Building the payload of a payload changes nothing. */
  lemma BuildPayloadIdempotent(s: Staff)
    ensures BuildPayload(BuildPayload(s)) == BuildPayload(s)
  {
    TrimIdempotent(s.name.GetOr(""));
    TrimIdempotent(s.specialization.GetOr(""));
  }

  /**
   * A staff member whose name is present and trimmed and whose specialization is
   * absent or a non-empty trimmed text is sent as it is.
   */
  lemma WellFormedSentUnchanged(s: Staff)
    requires s.name.Some? && IsTrimmed(s.name.value)
    requires s.specialization.None? || (s.specialization.value != "" && IsTrimmed(s.specialization.value))
    ensures BuildPayload(s) == s
  {
    TrimOfTrimmed(s.name.value);
    if s.specialization.Some? {
      TrimOfTrimmed(s.specialization.value);
    }
  }

  /** A blank specialization, present or not, goes out as null. */
  lemma BlankSpecializationSentAsNull(s: Staff)
    requires forall i :: 0 <= i < |s.specialization.GetOr("")| ==> IsSpace(s.specialization.GetOr("")[i])
    ensures BuildPayload(s).specialization == None
  {
    TrimBlank(s.specialization.GetOr(""));
  }

  /** The alert that stops a save, if any: only the name is checked. */
  function Rejection(payload: Staff): (r: Option<string>)
    ensures r == None <==> Truthy(payload.name)
    ensures r.Some? ==> r.value == NameRequired
  {
    if !Truthy(payload.name) then Some(NameRequired) else None
  }

  /** A name made only of white-space is refused. */
  lemma BlankNameRefused(s: Staff)
    requires forall i :: 0 <= i < |s.name.GetOr("")| ==> IsSpace(s.name.GetOr("")[i])
    ensures Rejection(BuildPayload(s)) == Some(NameRequired)
  {
    TrimBlank(s.name.GetOr(""));
  }

  /**
   * A loaded staff member with a trimmed non-empty name and a role, saved
   * without edits, is accepted; its specialization goes back unchanged when it
   * was a non-empty trimmed text, and as null when it was absent.
   */
  lemma LoadedStaffSaves(d: Staff)
    requires d.name.Some? && d.name.value != "" && IsTrimmed(d.name.value) && d.role.Some?
    requires d.specialization.None? || (d.specialization.value != "" && IsTrimmed(d.specialization.value))
    ensures BuildPayload(FromLoaded(d)) == d
    ensures Rejection(BuildPayload(FromLoaded(d))) == None
  {
    var l := FromLoaded(d);
    TrimOfTrimmed(d.name.value);
    if d.specialization.Some? {
      TrimOfTrimmed(d.specialization.value);
    }
    assert BuildPayload(l).name == d.name;
  }

  class StaffFormComponent {
    var staff: Staff
    var mode: Mode
    var staffId: Option<string>
    var loading: bool
    /** Handles of the watchdog timers that are armed and not yet cleared or fired. */
    var timers: set<nat>
    var nextTimer: nat
    ghost var effects: seq<Effect<Staff>>

    /** The form edits or inspects exactly when the route gave it an id. */
    ghost predicate Valid()
      reads this
    {
      mode == New <==> !Truthy(staffId)
    }

    constructor ()
      ensures staff == Blank && mode == New && staffId == None
      ensures !loading && timers == {} && nextTimer == 0 && effects == []
      ensures Valid()
    {
      staff, mode, staffId := Blank, New, None;
      loading, timers, nextTimer := false, {}, 0;
      effects := [];
    }

    predicate IsView()
      reads this
    {
      mode == View
    }

    /**
     * `ngOnInit` with `loadStaff`: take the mode from the route, and for a
     * route id raise the loading flag, arm the 5000 ms watchdog and fetch the staff member.
     */
    method Init(routeId: Option<string>, queryMode: Option<string>, stateView: bool) returns (h: Option<nat>)
      modifies this`staffId, this`mode, this`loading, this`timers, this`nextTimer, this`effects
      ensures staffId == routeId && mode == DeriveMode(routeId, queryMode, stateView)
      ensures Valid()
      ensures Truthy(routeId) ==>
                loading && h == Some(old(nextTimer)) && nextTimer == old(nextTimer) + 1
                && timers == old(timers) + {old(nextTimer)}
                && effects == old(effects) + [FetchById(routeId.value)]
      ensures !Truthy(routeId) ==>
                h == None && loading == old(loading) && timers == old(timers)
                && nextTimer == old(nextTimer) && effects == old(effects)
    {
      staffId := routeId;
      mode := DeriveMode(routeId, queryMode, stateView);
      h := None;
      if Truthy(routeId) {
        loading := true;
        h := Some(nextTimer);
        timers := timers + {nextTimer};
        nextTimer := nextTimer + 1;
        effects := effects + [FetchById(routeId.value)];
      }
    }

    /** The staff member arrived: show it with the defaults for absent fields. */
    method OnLoaded(data: Staff)
      modifies this`staff
      ensures staff == FromLoaded(data)
    {
      staff := FromLoaded(data);
    }

    /** The load failed: alert and go back to the list. */
    method OnLoadFailed()
      modifies this`effects
      ensures effects == old(effects) + [Alert(LoadFailed), Navigate(ListRoute, false)]
    {
      effects := effects + [Alert(LoadFailed), Navigate(ListRoute, false)];
    }

    /** A 5000 ms watchdog fires: it only ever lowers the loading flag. */
    method OnWatchdog(h: nat)
      requires h in timers
      modifies this`timers, this`loading
      ensures timers == old(timers) - {h} && !loading
    {
      timers := timers - {h};
      if loading {
        loading := false;
      }
    }

    /** `finalize` of a load or a save: clear its watchdog and lower the loading flag. */
    method OnFinalize(h: nat)
      modifies this`timers, this`loading
      ensures timers == old(timers) - {h} && !loading
    {
      timers := timers - {h};
      loading := false;
    }

    /**
     * `save`: nothing when inspecting; an alert when the name is blank;
     * otherwise raise the loading flag, arm the watchdog and create the staff
     * member (new) or update the one the route named (edit).
     */
    method Save() returns (h: Option<nat>)
      requires Valid()
      modifies this`loading, this`timers, this`nextTimer, this`effects
      ensures IsView() || Rejection(BuildPayload(staff)).Some? ==>
                h == None && loading == old(loading) && timers == old(timers) && nextTimer == old(nextTimer)
      ensures IsView() ==> effects == old(effects)
      ensures !IsView() && Rejection(BuildPayload(staff)).Some? ==>
                effects == old(effects) + [Alert(NameRequired)]
      ensures !IsView() && Rejection(BuildPayload(staff)).None? ==>
                loading && h == Some(old(nextTimer)) && nextTimer == old(nextTimer) + 1
                && timers == old(timers) + {old(nextTimer)}
                && effects == old(effects) + [if mode == New then Create(BuildPayload(staff))
                                              else Update(staffId.value, BuildPayload(staff))]
    {
      h := None;
      if IsView() {
        return;
      }
      var payload := BuildPayload(staff);
      var refused := Rejection(payload);
      if refused.Some? {
        effects := effects + [Alert(refused.value)];
        return;
      }
      h := Send(payload);
    }

    /** The request of an accepted save: raise the loading flag, arm the watchdog, create or update. */
    method Send(payload: Staff) returns (h: Option<nat>)
      requires Valid()
      modifies this`loading, this`timers, this`nextTimer, this`effects
      ensures loading && h == Some(old(nextTimer)) && nextTimer == old(nextTimer) + 1
      ensures timers == old(timers) + {old(nextTimer)}
      ensures effects == old(effects) + [if mode == New then Create(payload) else Update(staffId.value, payload)]
    {
      loading := true;
      h := Some(nextTimer);
      timers := timers + {nextTimer};
      nextTimer := nextTimer + 1;
      if mode == New {
        effects := effects + [Create(payload)];
      } else {
        effects := effects + [Update(staffId.value, payload)];
      }
    }

    /** The save succeeded: back to the list. */
    method OnSaveSucceeded()
      modifies this`effects
      ensures effects == old(effects) + [Navigate(ListRoute, false)]
    {
      effects := effects + [Navigate(ListRoute, false)];
    }

    /** The save failed: one alert for both modes; the form stays as it is. */
    method OnSaveFailed()
      modifies this`effects
      ensures effects == old(effects) + [Alert(SaveFailed)]
    {
      effects := effects + [Alert(SaveFailed)];
    }

    method Cancel()
      modifies this`effects
      ensures effects == old(effects) + [Navigate(ListRoute, false)]
    {
      effects := effects + [Navigate(ListRoute, false)];
    }
  }
}
