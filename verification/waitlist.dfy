/**
 * The staff view of the waitlist (src/components/waitlist/WaitlistManager.tsx):
 * entries newest first, each joined with its patient's profile, and, while
 * an entry is waiting, three buttons that set its status. The `waitlist`
 * table is held in memory; profiles are a map from user id, and a missing
 * profile (`.single()` finding no row) gives a placeholder.
 */
module Waitlist {

  import opened Wrappers
  import opened Queries
  import opened Entities

  datatype Entry = Entry(id: string, patientId: UserId, reason: string, priority: string, status: string, createdAt: int)

  datatype Profile = Profile(fullName: string, email: string)

  /** The profile used when the patient's profile is not found. */
  const UnknownProfile := Profile("Unknown", "")

  datatype Enriched = Enriched(entry: Entry, profile: Profile)

  /** The profile lookup for one entry: the stored profile, or the placeholder. */
  function ProfileFor(profiles: map<UserId, Profile>, patientId: UserId): (p: Profile)
    ensures patientId in profiles ==> p == profiles[patientId]
    ensures patientId !in profiles ==> p == UnknownProfile
  {
    if patientId in profiles then profiles[patientId] else UnknownProfile
  }

  /** The enrichment: one result per entry, in the same order, each with its patient's profile. */
  function Enrich(entries: seq<Entry>, profiles: map<UserId, Profile>): (r: seq<Enriched>)
    ensures |r| == |entries|
    ensures forall i :: 0 <= i < |r| ==> r[i].entry == entries[i]
    ensures forall i :: 0 <= i < |r| ==> r[i].profile == ProfileFor(profiles, entries[i].patientId)
  {
    seq(|entries|, i requires 0 <= i < |entries| => Enriched(entries[i], ProfileFor(profiles, entries[i].patientId)))
  }

  function CreatedAt(): Entry -> int {
    (e: Entry) => e.createdAt
  }

  /** `order("created_at", { ascending: false })` followed by the enrichment. */
  function Listing(table: seq<Entry>, profiles: map<UserId, Profile>): (r: seq<Enriched>)
    ensures |r| == |table|
    ensures forall i, j :: 0 <= i < j < |r| ==> r[i].entry.createdAt >= r[j].entry.createdAt
    ensures forall e :: e in table <==> exists i :: 0 <= i < |r| && r[i].entry == e
    ensures multiset(EntriesOf(r)) == multiset(table)
  {
    var sorted := OrderDescending(table, CreatedAt());
    OrderedMembers(table, sorted);
    EnrichedEntries(sorted, profiles);
    assert EntriesOf(Enrich(sorted, profiles)) == sorted;
    Enrich(sorted, profiles)
  }

  /** The waitlist entries behind an enriched list, in its order. */
  function EntriesOf(r: seq<Enriched>): (es: seq<Entry>)
    ensures |es| == |r| && forall i :: 0 <= i < |r| ==> es[i] == r[i].entry
  {
    seq(|r|, i requires 0 <= i < |r| => r[i].entry)
  }

  /** The enriched list holds exactly the given entries. */
  lemma EnrichedEntries(entries: seq<Entry>, profiles: map<UserId, Profile>)
    ensures var r := Enrich(entries, profiles);
            forall e :: e in entries <==> exists i :: 0 <= i < |r| && r[i].entry == e
  {
    var r := Enrich(entries, profiles);
    forall e | e in entries ensures exists i :: 0 <= i < |r| && r[i].entry == e {
      var i :| 0 <= i < |entries| && entries[i] == e;
      assert r[i].entry == e;
    }
  }

  /** The title: the profile's name, or "Unknown Patient" when it is empty. */
  function DisplayName(p: Profile): (name: string)
    ensures p.fullName != "" ==> name == p.fullName
    ensures p.fullName == "" ==> name == "Unknown Patient"
  {
    if p.fullName != "" then p.fullName else "Unknown Patient"
  }

  /** The priority badge: urgent is destructive, high is default, any other value secondary. */
  function PriorityBadge(priority: string): (b: BadgeVariant)
    ensures b == Destructive <==> priority == "urgent"
    ensures b == Default <==> priority == "high"
    ensures b == Secondary <==> priority != "urgent" && priority != "high"
  {
    if priority == "urgent" then Destructive else if priority == "high" then Default else Secondary
  }

  /** The statuses an entry's buttons write: three while it is waiting, none otherwise. */
  function Actions(e: Entry): (statuses: seq<string>)
    ensures statuses != [] <==> e.status == "waiting"
    ensures forall s :: s in statuses ==> s != "waiting"
  {
    if e.status == "waiting" then ["contacted", "scheduled", "cancelled"] else []
  }

  /** `.update({ status }).eq("id", id)`. */
  function SetStatus(table: seq<Entry>, id: string, status: string): (r: seq<Entry>)
    ensures |r| == |table|
    ensures forall i :: 0 <= i < |r| ==> r[i] == if table[i].id == id then table[i].(status := status) else table[i]
  {
    seq(|table|, i requires 0 <= i < |table| => if table[i].id == id then table[i].(status := status) else table[i])
  }

  /**
   * An action takes the entry out of the waiting state: after any of its
   * buttons is used, the entry offers no more buttons, and every other
   * entry keeps its own.
   */
  lemma ActionIsFinal(table: seq<Entry>, e: Entry, status: string)
    requires e in table && status in Actions(e)
    ensures forall x :: x in SetStatus(table, e.id, status) && x.id == e.id ==> Actions(x) == []
    ensures forall i :: 0 <= i < |table| && table[i].id != e.id ==> Actions(SetStatus(table, e.id, status)[i]) == Actions(table[i])
  {
  }

  class Manager {
    var entries: seq<Enriched>
    var loading: bool
    /** The status updates issued: entry id and new status. */
    var writes: seq<(string, string)>

    constructor ()
      ensures entries == [] && loading && writes == []
    {
      entries := [];
      loading := true;
      writes := [];
    }

    /** `fetchWaitlist`: `None` is a query error, which keeps the list. */
    method FetchWaitlist(table: Option<seq<Entry>>, profiles: map<UserId, Profile>)
      modifies this`entries, this`loading
      ensures table.Some? ==> entries == Listing(table.value, profiles)
      ensures table.None? ==> entries == old(entries)
      ensures !loading
    {
      if table.Some? {
        entries := Listing(table.value, profiles);
      }
      loading := false;
    }

    /** `updateStatus`: the write, then a refetch only when it succeeded. */
    method UpdateStatus(id: string, status: string, ok: bool, table: Option<seq<Entry>>, profiles: map<UserId, Profile>)
      modifies this
      ensures writes == old(writes) + [(id, status)]
      ensures ok && table.Some? ==> entries == Listing(table.value, profiles)
      ensures !ok || table.None? ==> entries == old(entries)
      ensures ok ==> !loading
      ensures !ok ==> loading == old(loading)
    {
      writes := writes + [(id, status)];
      if ok {
        FetchWaitlist(table, profiles);
      }
    }
  }
}
