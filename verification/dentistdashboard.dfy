/**
 * The dentist's dashboard (src/components/dashboard/DentistDashboard.tsx):
 * pending appointments with Confirm and Cancel, the first five AI
 * recommendations awaiting review, and the review itself, which writes the
 * dentist's notes and, unless the recommendation is approved as is, a final
 * treatment. Writes and fetches are parameters that succeed or fail.
 */
module DentistDashboard {

  import opened Wrappers
  import opened Queries
  import opened Entities

  function IsPending(): Appointment -> bool {
    (a: Appointment) => a.status == Pending
  }

  function IsRecommended(): Treatment -> bool {
    (t: Treatment) => t.status == Recommended
  }

  function AppointmentDate(): Appointment -> int {
    (a: Appointment) => a.date
  }

  function TreatmentCreated(): Treatment -> int {
    (t: Treatment) => t.createdAt
  }

  /** The pending panel: exactly the pending appointments, in list order. */
  function PendingAppointments(appointments: seq<Appointment>): (r: seq<Appointment>)
    ensures forall a :: a in r <==> a in appointments && a.status == Pending
  {
    Filter(appointments, IsPending())
  }

  /** The recommendations panel: the first five treatments still awaiting review. */
  function RecommendationList(treatments: seq<Treatment>): (r: seq<Treatment>)
    ensures |r| == if |Filter(treatments, IsRecommended())| < 5 then |Filter(treatments, IsRecommended())| else 5
    ensures r == Filter(treatments, IsRecommended())[..|r|]
    ensures forall t :: t in r ==> t in treatments && t.status == Recommended
    ensures |Filter(treatments, IsRecommended())| <= 5 ==>
              forall t :: t in treatments && t.status == Recommended ==> t in r
  {
    Take(Filter(treatments, IsRecommended()), 5)
  }

  /** A button of the pending panel: the appointment it acts on and the status it writes. */
  datatype StatusButton = StatusButton(id: string, target: AppointmentStatus)

  /**
   * The Confirm and Cancel buttons of the page: each pending appointment gets
   * both, and no other appointment gets any.
   */
  function StatusButtons(appointments: seq<Appointment>): (bs: seq<StatusButton>)
    ensures forall b :: b in bs ==> (b.target == Confirmed || b.target == Cancelled)
                                    && exists a :: a in appointments && a.id == b.id && a.status == Pending
    ensures forall a :: a in appointments && a.status == Pending ==>
                          StatusButton(a.id, Confirmed) in bs && StatusButton(a.id, Cancelled) in bs
  {
    if appointments == [] then []
    else
      var a := appointments[0];
      var rest := StatusButtons(appointments[1..]);
      assert forall x :: x in appointments[1..] ==> x in appointments;
      (if a.status == Pending then [StatusButton(a.id, Confirmed), StatusButton(a.id, Cancelled)] else []) + rest
  }

  /** The fields `updateTreatment` writes. */
  datatype TreatmentUpdate = TreatmentUpdate(status: TreatmentStatus, dentistNotes: string, finalTreatment: Option<string>)

  /** The notes are always written; the final treatment is null for an approval and the notes otherwise. */
  function UpdatePayload(status: TreatmentStatus, notes: string): (u: TreatmentUpdate)
    ensures u.status == status && u.dentistNotes == notes
    ensures u.finalTreatment.None? <==> status == Approved
    ensures u.finalTreatment.Some? ==> u.finalTreatment.value == notes
  {
    TreatmentUpdate(status, notes, if status == Approved then None else Some(notes))
  }

  /** `.update({ status }).eq("id", id)` on the appointments table. */
  function SetAppointmentStatus(table: seq<Appointment>, id: string, status: AppointmentStatus): (r: seq<Appointment>)
    ensures |r| == |table|
    ensures forall i :: 0 <= i < |r| ==> r[i] == if table[i].id == id then table[i].(status := status) else table[i]
  {
    seq(|table|, i requires 0 <= i < |table| =>
      if table[i].id == id then table[i].(status := status) else table[i])
  }

  /** `.update(payload).eq("id", id)` on the treatments table. */
  function ApplyTreatmentUpdate(table: seq<Treatment>, id: string, u: TreatmentUpdate): (r: seq<Treatment>)
    ensures |r| == |table|
    ensures forall i :: 0 <= i < |r| ==> r[i] == if table[i].id == id
      then table[i].(status := u.status, dentistNotes := Some(u.dentistNotes), finalTreatment := u.finalTreatment)
      else table[i]
  {
    seq(|table|, i requires 0 <= i < |table| =>
      if table[i].id == id
      then table[i].(status := u.status, dentistNotes := Some(u.dentistNotes), finalTreatment := u.finalTreatment)
      else table[i])
  }

  /**
   * Confirming or cancelling an appointment takes it off the pending panel
   * and leaves every other pending appointment on it.
   */
  lemma DecidedLeavesPending(table: seq<Appointment>, id: string, status: AppointmentStatus)
    requires status != Pending
    ensures forall a :: a in PendingAppointments(SetAppointmentStatus(table, id, status)) ==> a.id != id
    ensures forall a :: a in PendingAppointments(table) && a.id != id ==>
                          a in PendingAppointments(SetAppointmentStatus(table, id, status))
  {
    var r := SetAppointmentStatus(table, id, status);
    forall a | a in PendingAppointments(table) && a.id != id
      ensures a in PendingAppointments(r)
    {
      var i :| 0 <= i < |table| && table[i] == a;
      assert r[i] == a;
    }
  }

  /**
   * Reviewing a recommendation (approving, modifying or rejecting it) takes
   * it off the recommendations panel, and the stored row then carries a final
   * treatment exactly when it was not approved.
   */
  lemma ReviewedLeavesRecommendations(table: seq<Treatment>, id: string, status: TreatmentStatus, notes: string)
    requires status != Recommended
    ensures var r := ApplyTreatmentUpdate(table, id, UpdatePayload(status, notes));
            (forall t :: t in RecommendationList(r) ==> t.id != id)
            && (forall t :: t in r && t.id == id ==>
                  t.dentistNotes == Some(notes) && (t.finalTreatment.None? <==> status == Approved))
  {
  }

  class Dashboard {
    var appointments: seq<Appointment>
    var treatments: seq<Treatment>
    var loading: bool
    var editing: Option<string>
    var notes: string
    /** The appointment status writes issued, in order. */
    var statusWrites: seq<StatusButton>
    /** The treatment updates issued, in order, with the row id. */
    var treatmentWrites: seq<(string, TreatmentUpdate)>

    constructor ()
      ensures appointments == [] && treatments == [] && loading && editing == None && notes == ""
      ensures statusWrites == [] && treatmentWrites == []
    {
      appointments := [];
      treatments := [];
      loading := true;
      editing := None;
      notes := "";
      statusWrites := [];
      treatmentWrites := [];
    }

    /**
     * `fetchData`: appointments by date ascending, treatments newest first;
     * `None` is a query error, and either error keeps both lists.
     */
    method FetchData(appointmentRows: Option<seq<Appointment>>, treatmentRows: Option<seq<Treatment>>)
      modifies this`appointments, this`treatments, this`loading
      ensures !loading
      ensures appointmentRows.Some? && treatmentRows.Some? ==>
                appointments == OrderAscending(appointmentRows.value, AppointmentDate())
                && treatments == OrderDescending(treatmentRows.value, TreatmentCreated())
      ensures appointmentRows.None? || treatmentRows.None? ==>
                appointments == old(appointments) && treatments == old(treatments)
    {
      if appointmentRows.Some? && treatmentRows.Some? {
        appointments := OrderAscending(appointmentRows.value, AppointmentDate());
        treatments := OrderDescending(treatmentRows.value, TreatmentCreated());
      }
      loading := false;
    }

    /** `updateAppointmentStatus`: the write, then a refetch only when it succeeded. */
    method UpdateAppointmentStatus(id: string, status: AppointmentStatus, ok: bool,
                                   appointmentRows: Option<seq<Appointment>>, treatmentRows: Option<seq<Treatment>>)
      modifies this
      ensures statusWrites == old(statusWrites) + [StatusButton(id, status)]
      ensures treatmentWrites == old(treatmentWrites) && editing == old(editing) && notes == old(notes)
      ensures ok && appointmentRows.Some? && treatmentRows.Some? ==>
                appointments == OrderAscending(appointmentRows.value, AppointmentDate())
                && treatments == OrderDescending(treatmentRows.value, TreatmentCreated())
      ensures ok && (appointmentRows.None? || treatmentRows.None?) ==>
                appointments == old(appointments) && treatments == old(treatments)
      ensures ok ==> !loading
      ensures !ok ==> appointments == old(appointments) && treatments == old(treatments) && loading == old(loading)
    {
      statusWrites := statusWrites + [StatusButton(id, status)];
      if ok {
        FetchData(appointmentRows, treatmentRows);
      }
    }

    /**
     * `updateTreatment`: writes the payload built from the current notes;
     * success closes the editor, empties the notes and refetches, failure
     * keeps everything.
     */
    method UpdateTreatment(id: string, status: TreatmentStatus, ok: bool,
                           appointmentRows: Option<seq<Appointment>>, treatmentRows: Option<seq<Treatment>>)
      modifies this
      ensures treatmentWrites == old(treatmentWrites) + [(id, UpdatePayload(status, old(notes)))]
      ensures statusWrites == old(statusWrites)
      ensures ok ==> editing == None && notes == ""
      ensures ok && appointmentRows.Some? && treatmentRows.Some? ==>
                appointments == OrderAscending(appointmentRows.value, AppointmentDate())
                && treatments == OrderDescending(treatmentRows.value, TreatmentCreated())
      ensures ok && (appointmentRows.None? || treatmentRows.None?) ==>
                appointments == old(appointments) && treatments == old(treatments)
      ensures ok ==> !loading
      ensures !ok ==> editing == old(editing) && notes == old(notes)
                      && appointments == old(appointments) && treatments == old(treatments) && loading == old(loading)
    {
      treatmentWrites := treatmentWrites + [(id, UpdatePayload(status, notes))];
      if ok {
        editing := None;
        notes := "";
        FetchData(appointmentRows, treatmentRows);
      }
    }

    /** The Modify button: opens the editor on that treatment, pre-filled with the AI recommendation. */
    method Modify(t: Treatment)
      modifies this`editing, this`notes
      ensures editing == Some(t.id) && notes == t.aiRecommendation
    {
      editing := Some(t.id);
      notes := t.aiRecommendation;
    }

    /** The editor's Cancel button closes it but keeps the typed notes. */
    method CancelEdit()
      modifies this`editing
      ensures editing == None
    {
      editing := None;
    }

    method SetNotes(text: string)
      modifies this`notes
      ensures notes == text
    {
      notes := text;
    }
  }
}
