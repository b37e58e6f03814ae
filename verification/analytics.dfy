/**
 * The analytics page's counters (src/components/analytics/AnalyticsDashboard.tsx).
 * Each query's `data` is `None` when it came back null (a failed query does
 * not throw here), and a null result counts as zero. The revenue total sums
 * floating-point amounts and is not part of this model.
 */
module Analytics {

  import opened Wrappers
  import opened Queries
  import opened Entities

  datatype Metrics = Metrics(
    totalAppointments: nat,
    pendingAppointments: nat,
    completedAppointments: nat,
    totalPatients: nat,
    activePrescriptions: nat,
    waitlistCount: nat)

  /** `xs?.filter(x => x === v).length || 0`. */
  function CountOrZero<T(==)>(xs: Option<seq<T>>, v: T): (n: nat)
    ensures xs.None? ==> n == 0
    ensures xs.Some? ==> n == multiset(xs.value)[v] && n <= |xs.value|
  {
    if xs.Some? then Count(xs.value, v) else 0
  }

  /**
   * The metrics for the fetched appointment, prescription and waitlist
   * statuses and the profile count.
   */
  function ComputeMetrics(appointments: Option<seq<AppointmentStatus>>, prescriptions: Option<seq<string>>,
                          waitlist: Option<seq<string>>, patients: Option<nat>): (m: Metrics)
    ensures m.totalAppointments == (if appointments.Some? then |appointments.value| else 0)
    ensures m.pendingAppointments == if appointments.Some? then multiset(appointments.value)[Pending] else 0
    ensures m.completedAppointments == if appointments.Some? then multiset(appointments.value)[Completed] else 0
    ensures m.totalPatients == patients.GetOr(0)
    ensures m.activePrescriptions == if prescriptions.Some? then multiset(prescriptions.value)["active"] else 0
    ensures m.waitlistCount == if waitlist.Some? then multiset(waitlist.value)["waiting"] else 0
    ensures m.pendingAppointments + m.completedAppointments <= m.totalAppointments
  {
    var total := if appointments.Some? then |appointments.value| else 0;
    assert CountOrZero(appointments, Pending) + CountOrZero(appointments, Completed) <= total by {
      if appointments.Some? {
        CountTwo(appointments.value, Pending, Completed);
      }
    }
    Metrics(
      total,
      CountOrZero(appointments, Pending),
      CountOrZero(appointments, Completed),
      patients.GetOr(0),
      CountOrZero(prescriptions, "active"),
      CountOrZero(waitlist, "waiting"))
  }

  /** The waitlist counter counts only waiting entries: one more entry of another status leaves it. */
  lemma OnlyWaitingCounted(waitlist: seq<string>, status: string)
    requires status != "waiting"
    ensures CountOrZero(Some(waitlist + [status]), "waiting") == CountOrZero(Some(waitlist), "waiting")
  {
  }

  class AnalyticsPage {
    var metrics: Metrics
    var loading: bool

    constructor ()
      ensures metrics == Metrics(0, 0, 0, 0, 0, 0) && loading
    {
      metrics := Metrics(0, 0, 0, 0, 0, 0);
      loading := true;
    }

    /** `fetchAnalytics`: one assignment of all counters, then loading ends. */
    method FetchAnalytics(appointments: Option<seq<AppointmentStatus>>, prescriptions: Option<seq<string>>,
                          waitlist: Option<seq<string>>, patients: Option<nat>)
      modifies this
      ensures metrics == ComputeMetrics(appointments, prescriptions, waitlist, patients)
      ensures !loading
    {
      metrics := ComputeMetrics(appointments, prescriptions, waitlist, patients);
      loading := false;
    }
  }
}
