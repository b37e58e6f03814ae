/**
 * The prescription list (src/components/prescriptions/PrescriptionList.tsx):
 * prescriptions newest first, narrowed to one patient only when a patient id
 * is given, with Mark Completed and Cancel on active prescriptions.
 */
module Prescriptions {

  import opened Wrappers
  import opened Queries
  import opened Entities

  datatype Prescription = Prescription(id: string, patientId: UserId, medicationName: string, prescribedDate: int, status: string)

  function OfPatient(patientId: UserId): Prescription -> bool {
    (p: Prescription) => p.patientId == patientId
  }

  function PrescribedDate(): Prescription -> int {
    (p: Prescription) => p.prescribedDate
  }

  /**
   * The query: ordered by prescription date, newest first, and filtered by
   * patient only when `patientId` is given and non-empty.
   */
  function Query(table: seq<Prescription>, patientId: Option<UserId>): (r: seq<Prescription>)
    ensures forall p :: p in r <==> p in table && (patientId.GetOr("") == "" || p.patientId == patientId.value)
    ensures forall i, j :: 0 <= i < j < |r| ==> r[i].prescribedDate >= r[j].prescribedDate
  {
    var rows := if patientId.GetOr("") != "" then Filter(table, OfPatient(patientId.value)) else table;
    var sorted := OrderDescending(rows, PrescribedDate());
    OrderedMembers(rows, sorted);
    sorted
  }

  /** Without a patient id every visible prescription is listed, each once. */
  lemma UnfilteredListsAll(table: seq<Prescription>)
    ensures multiset(Query(table, None)) == multiset(table)
  {
  }

  /** The status badge: active is default, completed secondary, anything else outline. */
  function StatusBadge(status: string): (b: BadgeVariant)
    ensures b == Default <==> status == "active"
    ensures b == Secondary <==> status == "completed"
    ensures b == Outline <==> status != "active" && status != "completed"
  {
    if status == "active" then Default else if status == "completed" then Secondary else Outline
  }

  /** The statuses a prescription's buttons write: completed or cancelled while active, none otherwise. */
  function Actions(p: Prescription): (statuses: seq<string>)
    ensures statuses != [] <==> p.status == "active"
    ensures forall s :: s in statuses ==> s != "active"
  {
    if p.status == "active" then ["completed", "cancelled"] else []
  }

  /** `.update({ status }).eq("id", id)`. */
  function SetStatus(table: seq<Prescription>, id: string, status: string): (r: seq<Prescription>)
    ensures |r| == |table|
    ensures forall i :: 0 <= i < |r| ==> r[i] == if table[i].id == id then table[i].(status := status) else table[i]
  {
    seq(|table|, i requires 0 <= i < |table| => if table[i].id == id then table[i].(status := status) else table[i])
  }

  /**
   * Completing or cancelling is final in this view: the prescription then
   * offers no more buttons and shows a non-default badge.
   */
  lemma ActionIsFinal(table: seq<Prescription>, p: Prescription, status: string)
    requires p in table && status in Actions(p)
    ensures forall x :: x in SetStatus(table, p.id, status) && x.id == p.id ==>
                          Actions(x) == [] && StatusBadge(x.status) != Default
  {
  }

  class PrescriptionList {
    const patientId: Option<UserId>
    var prescriptions: seq<Prescription>
    var loading: bool
    var writes: seq<(string, string)>

    constructor (patientId: Option<UserId>)
      ensures this.patientId == patientId && prescriptions == [] && loading && writes == []
    {
      this.patientId := patientId;
      prescriptions := [];
      loading := true;
      writes := [];
    }

    /**
     * `fetchPrescriptions`: without a signed-in user no query is made; a query
     * error (`None`) keeps the list; loading ends in every case.
     */
    method FetchPrescriptions(signedIn: bool, table: Option<seq<Prescription>>)
      modifies this`prescriptions, this`loading
      ensures signedIn && table.Some? ==> prescriptions == Query(table.value, patientId)
      ensures !signedIn || table.None? ==> prescriptions == old(prescriptions)
      ensures !loading
    {
      if signedIn && table.Some? {
        prescriptions := Query(table.value, patientId);
      }
      loading := false;
    }

    /** `updateStatus`: the write, then a refetch only when it succeeded. */
    method UpdateStatus(id: string, status: string, ok: bool, signedIn: bool, table: Option<seq<Prescription>>)
      modifies this
      ensures writes == old(writes) + [(id, status)]
      ensures ok && signedIn && table.Some? ==> prescriptions == Query(table.value, patientId)
      ensures ok && (!signedIn || table.None?) ==> prescriptions == old(prescriptions)
      ensures ok ==> !loading
      ensures !ok ==> prescriptions == old(prescriptions) && loading == old(loading)
    {
      writes := writes + [(id, status)];
      if ok {
        FetchPrescriptions(signedIn, table);
      }
    }
  }
}
