/**
 * The admin's dashboard (src/components/dashboard/AdminDashboard.tsx): four
 * counters computed from three fetched lists, and a form that promotes the
 * user with a given email to admin. Queries and the RPC are parameters;
 * `None` is a query that returned an error.
 */
module AdminDashboard {

  import opened Wrappers
  import opened Queries
  import opened Entities

  datatype Stats = Stats(totalUsers: nat, totalAppointments: nat, totalTreatments: nat, pendingAppointments: nat)

  /**
   * The counters for the fetched profile ids, appointment statuses and
   * treatment ids: the list sizes and the number of pending appointments.
   */
  function ComputeStats(profiles: seq<UserId>, appointments: seq<AppointmentStatus>, treatments: seq<string>): (s: Stats)
    ensures s.totalUsers == |profiles| && s.totalAppointments == |appointments| && s.totalTreatments == |treatments|
    ensures s.pendingAppointments == multiset(appointments)[Pending]
    ensures s.pendingAppointments <= s.totalAppointments
    ensures s.pendingAppointments == 0 <==> Pending !in appointments
    ensures s.pendingAppointments == s.totalAppointments <==> forall i :: 0 <= i < |appointments| ==> appointments[i] == Pending
  {
    Stats(|profiles|, |appointments|, |treatments|, Count(appointments, Pending))
  }

  /** The promote form's guard: the RPC is called only for a non-empty email. */
  function PromoteRequest(email: string): (r: Option<string>)
    ensures r.Some? <==> email != ""
    ensures r.Some? ==> r.value == email
  {
    if email != "" then Some(email) else None
  }

  class Dashboard {
    var stats: Stats
    var loading: bool
    /** The text in the email field. */
    var email: string
    /** The emails passed to `promote_user_to_admin`, in order. */
    var promotions: seq<string>

    constructor ()
      ensures stats == Stats(0, 0, 0, 0) && loading && email == "" && promotions == []
    {
      stats := Stats(0, 0, 0, 0);
      loading := true;
      email := "";
      promotions := [];
    }

    /** `fetchData`: any of the three errors keeps the counters; loading always ends. */
    method FetchData(profiles: Option<seq<UserId>>, appointments: Option<seq<AppointmentStatus>>,
                     treatments: Option<seq<string>>)
      modifies this`stats, this`loading
      ensures !loading
      ensures profiles.Some? && appointments.Some? && treatments.Some? ==>
                stats == ComputeStats(profiles.value, appointments.value, treatments.value)
      ensures profiles.None? || appointments.None? || treatments.None? ==> stats == old(stats)
      ensures stats.pendingAppointments <= stats.totalAppointments || stats == old(stats)
    {
      if profiles.Some? && appointments.Some? && treatments.Some? {
        stats := ComputeStats(profiles.value, appointments.value, treatments.value);
      }
      loading := false;
    }

    method SetEmail(text: string)
      modifies this`email
      ensures email == text
    {
      email := text;
    }

    /**
     * The form's submit: with a non-empty email the RPC is called and the
     * field is cleared, whatever the RPC's outcome; a successful RPC also
     * refetches. An empty email does nothing.
     */
    method Submit(ok: bool, profiles: Option<seq<UserId>>, appointments: Option<seq<AppointmentStatus>>,
                  treatments: Option<seq<string>>)
      modifies this
      ensures old(email) == "" ==> email == old(email) && promotions == old(promotions)
                                   && stats == old(stats) && loading == old(loading)
      ensures old(email) != "" ==> promotions == old(promotions) + [old(email)] && email == ""
      ensures old(email) != "" && ok && profiles.Some? && appointments.Some? && treatments.Some? ==>
                stats == ComputeStats(profiles.value, appointments.value, treatments.value)
      ensures old(email) != "" && ok && (profiles.None? || appointments.None? || treatments.None?) ==> stats == old(stats)
      ensures old(email) != "" && ok ==> !loading
      ensures !ok ==> stats == old(stats) && loading == old(loading)
    {
      var request := PromoteRequest(email);
      if request.Some? {
        promotions := promotions + [request.value];
        if ok {
          FetchData(profiles, appointments, treatments);
        }
        email := "";
      }
    }
  }
}
