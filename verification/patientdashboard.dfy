/**
 * The patient's dashboard (src/components/dashboard/PatientDashboard.tsx):
 * the patient's appointments (latest date first), treatments (newest first)
 * and reviews, the upcoming confirmed appointments, and a review prompt for
 * the first completed appointment that has no review yet.
 */
module PatientDashboard {

  import opened Wrappers
  import opened Queries
  import opened Entities

  function AppointmentOf(userId: UserId): Appointment -> bool {
    (a: Appointment) => a.patientId == userId
  }

  function AppointmentDate(): Appointment -> int {
    (a: Appointment) => a.date
  }

  function TreatmentOf(userId: UserId): Treatment -> bool {
    (t: Treatment) => t.patientId == userId
  }

  function TreatmentCreated(): Treatment -> int {
    (t: Treatment) => t.createdAt
  }

  function ReviewOf(userId: UserId): Review -> bool {
    (r: Review) => r.patientId == userId
  }

  /** `.eq("patient_id", userId).order("appointment_date", { ascending: false })`. */
  function PatientAppointments(table: seq<Appointment>, userId: UserId): (r: seq<Appointment>)
    ensures forall a :: a in r <==> a in table && a.patientId == userId
    ensures forall i, j :: 0 <= i < j < |r| ==> r[i].date >= r[j].date
  {
    var mine := Filter(table, AppointmentOf(userId));
    var sorted := OrderDescending(mine, AppointmentDate());
    OrderedMembers(mine, sorted);
    sorted
  }

  /** `.eq("patient_id", userId).order("created_at", { ascending: false })`. */
  function PatientTreatments(table: seq<Treatment>, userId: UserId): (r: seq<Treatment>)
    ensures forall t :: t in r <==> t in table && t.patientId == userId
    ensures forall i, j :: 0 <= i < j < |r| ==> r[i].createdAt >= r[j].createdAt
  {
    var mine := Filter(table, TreatmentOf(userId));
    var sorted := OrderDescending(mine, TreatmentCreated());
    OrderedMembers(mine, sorted);
    sorted
  }

  function UpcomingAt(now: int): Appointment -> bool {
    (a: Appointment) => a.date >= now && a.status == Confirmed
  }

  /** `upcomingAppointments`: confirmed appointments dated now or later, in list order. */
  function Upcoming(appointments: seq<Appointment>, now: int): (r: seq<Appointment>)
    ensures forall a :: a in r <==> a in appointments && a.status == Confirmed && a.date >= now
    ensures |r| <= |appointments|
  {
    Filter(appointments, UpcomingAt(now))
  }

  /** `reviews.some(review => review.appointment_id === id)`. */
  function HasReview(reviews: seq<Review>, id: string): (b: bool)
    ensures b <==> exists i :: 0 <= i < |reviews| && reviews[i].appointmentId == id
  {
    if reviews == [] then false
    else if reviews[0].appointmentId == id then true
    else
      assert forall i :: 1 <= i < |reviews| ==> reviews[i] == reviews[1..][i - 1];
      HasReview(reviews[1..], id)
  }

  function AwaitingReview(reviews: seq<Review>): Appointment -> bool {
    (a: Appointment) => a.status == Completed && !HasReview(reviews, a.id)
  }

  /**
   * `completedAppointmentsWithoutReview`: at most one appointment, the first
   * completed one in list order that no review names; empty exactly when
   * every completed appointment has a review.
   */
  function UnreviewedCompleted(appointments: seq<Appointment>, reviews: seq<Review>): (r: seq<Appointment>)
    ensures |r| <= 1
    ensures r == [] <==> forall i :: 0 <= i < |appointments| ==>
                           appointments[i].status != Completed || HasReview(reviews, appointments[i].id)
    ensures r != [] ==> exists k :: 0 <= k < |appointments| && r[0] == appointments[k]
                           && appointments[k].status == Completed && !HasReview(reviews, appointments[k].id)
                           && forall j :: 0 <= j < k ==>
                                appointments[j].status != Completed || HasReview(reviews, appointments[j].id)
  {
    var p := AwaitingReview(reviews);
    var waiting := Filter(appointments, p);
    FilterEmpty(appointments, p);
    if waiting == [] then []
    else
      FilterHead(appointments, p);
      Take(waiting, 1)
  }

  /** What the review prompt is given: the appointment and its dentist. */
  datatype Prompt = Prompt(appointmentId: string, dentistId: Option<UserId>)

  /** The review prompt, shown only when some completed appointment awaits a review. */
  function ReviewPrompt(appointments: seq<Appointment>, reviews: seq<Review>): (p: Option<Prompt>)
    ensures p.Some? <==> exists i :: 0 <= i < |appointments| &&
                           appointments[i].status == Completed && !HasReview(reviews, appointments[i].id)
    ensures p.Some? ==> exists a :: a in appointments && a.status == Completed && !HasReview(reviews, a.id)
                          && p.value == Prompt(a.id, a.dentistId)
  {
    var r := UnreviewedCompleted(appointments, reviews);
    if r == [] then None else Some(Prompt(r[0].id, r[0].dentistId))
  }

  /**
   * Once a review for the prompted appointment is added, the prompt moves on:
   * it disappears or names a different appointment.
   */
  lemma PromptMovesOn(appointments: seq<Appointment>, reviews: seq<Review>, review: Review)
    requires ReviewPrompt(appointments, reviews).Some?
    requires review.appointmentId == ReviewPrompt(appointments, reviews).value.appointmentId
    ensures var next := ReviewPrompt(appointments, reviews + [review]);
            next.None? || next.value.appointmentId != review.appointmentId
  {
    var next := ReviewPrompt(appointments, reviews + [review]);
    assert HasReview(reviews + [review], review.appointmentId) by {
      assert (reviews + [review])[|reviews|] == review;
    }
  }

  /** `appointments.slice(0, 5)`: the five latest appointments. */
  function ShownAppointments(appointments: seq<Appointment>): (r: seq<Appointment>)
    ensures |r| <= 5 && |r| <= |appointments| && r == appointments[..|r|]
    ensures |appointments| <= 5 ==> r == appointments
  {
    Take(appointments, 5)
  }

  /** `treatments.slice(0, 3)`. */
  function ShownTreatments(treatments: seq<Treatment>): (r: seq<Treatment>)
    ensures |r| <= 3 && |r| <= |treatments| && r == treatments[..|r|]
    ensures |treatments| <= 3 ==> r == treatments
  {
    Take(treatments, 3)
  }

  /** The listed appointments are the latest by date: none left out is later than one listed. */
  lemma ShownAreLatest(table: seq<Appointment>, userId: UserId)
    ensures var all := PatientAppointments(table, userId);
            var shown := ShownAppointments(all);
            forall i, j :: 0 <= i < |shown| <= j < |all| ==> shown[i].date >= all[j].date
  {
  }

  class Dashboard {
    const userId: UserId
    var appointments: seq<Appointment>
    var treatments: seq<Treatment>
    var reviews: seq<Review>
    var loading: bool

    constructor (userId: UserId)
      ensures this.userId == userId && appointments == [] && treatments == [] && reviews == [] && loading
    {
      this.userId := userId;
      appointments := [];
      treatments := [];
      reviews := [];
      loading := true;
    }

    /**
     * `fetchData`: three queries; `None` is a query that returned an error.
     * Any error keeps all three lists as they were; loading always ends.
     * The reviews keep table order rather than the query's `created_at`
     * descending order: they are only read through `HasReview`, which does
     * not depend on order.
     */
    method FetchData(appointmentTable: Option<seq<Appointment>>, treatmentTable: Option<seq<Treatment>>,
                     reviewTable: Option<seq<Review>>)
      modifies this
      ensures !loading
      ensures appointmentTable.Some? && treatmentTable.Some? && reviewTable.Some? ==>
                appointments == PatientAppointments(appointmentTable.value, userId)
                && treatments == PatientTreatments(treatmentTable.value, userId)
                && reviews == Filter(reviewTable.value, ReviewOf(userId))
      ensures appointmentTable.None? || treatmentTable.None? || reviewTable.None? ==>
                appointments == old(appointments) && treatments == old(treatments) && reviews == old(reviews)
    {
      if appointmentTable.Some? && treatmentTable.Some? && reviewTable.Some? {
        appointments := PatientAppointments(appointmentTable.value, userId);
        treatments := PatientTreatments(treatmentTable.value, userId);
        reviews := Filter(reviewTable.value, ReviewOf(userId));
      }
      loading := false;
    }

    function Prompt(): Option<Prompt>
      reads this
    {
      ReviewPrompt(appointments, reviews)
    }
  }
}
