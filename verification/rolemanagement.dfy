/**
 * Role management for admins (src/components/admin/RoleManagement.tsx): the
 * list of users with their roles, the roles each can still be given, and the
 * per-user role selection that the add action consumes.
 */
module RoleManagement {

  import opened Wrappers
  import opened Queries
  import opened Entities

  /** `allRoles` in `getAvailableRoles`, in its order. */
  const AllRoles: seq<Role> := [Admin, Dentist, Patient, Receptionist, Nurse, Manager]

  /** The position of a role in `AllRoles`. */
  function RoleIndex(r: Role): (k: nat)
    ensures k < |AllRoles| && AllRoles[k] == r
  {
    match r
    case Admin => 0
    case Dentist => 1
    case Patient => 2
    case Receptionist => 3
    case Nurse => 4
    case Manager => 5
  }

  function NotHeld(held: seq<Role>): Role -> bool {
    (x: Role) => x !in held
  }

  /** `getAvailableRoles`: the roles not held, in the fixed order. */
  function AvailableRoles(held: seq<Role>): (r: seq<Role>)
    ensures forall x :: x in r <==> x !in held
  {
    var av := Filter(AllRoles, NotHeld(held));
    assert forall x: Role :: x in AllRoles by {
      forall x: Role ensures x in AllRoles { assert AllRoles[RoleIndex(x)] == x; }
    }
    av
  }

  /**
   * Every role is either held or available and never both, and the add
   * control (shown when at least one is available) is missing exactly when
   * all six are held.
   */
  lemma AvailablePartition(held: seq<Role>)
    ensures var av := AvailableRoles(held);
            (forall x :: x in av || x in held)
            && (forall x :: !(x in av && x in held))
            && (|av| > 0 <==> exists x :: x !in held)
  {
    var av := AvailableRoles(held);
    if exists x :: x !in held {
      var x :| x !in held;
      assert x in av;
    }
  }

  /** The available roles come in the fixed order, each once. */
  lemma AvailableInOrder(held: seq<Role>)
    ensures var av := AvailableRoles(held);
            forall i, j :: 0 <= i < j < |av| ==> RoleIndex(av[i]) < RoleIndex(av[j])
  {
    var key := (r: Role) => RoleIndex(r) as int;
    forall i | 0 <= i < |AllRoles| ensures key(AllRoles[i]) == i {
    }
    FilterKeepsOrder(AllRoles, key, NotHeld(held));
  }

  /** A `profiles` row. */
  datatype Profile = Profile(id: UserId, fullName: string, email: string)

  /** A `user_roles` row. */
  datatype RoleRow = RoleRow(userId: UserId, role: Role)

  /** A user as listed, with the roles joined in. */
  datatype UserWithRoles = UserWithRoles(id: UserId, fullName: string, email: string, roles: seq<Role>)

  /**
   * The roles of the rows for user `id`, in row order; a user no row names
   * has none.
   */
  function RolesOf(rows: seq<RoleRow>, id: UserId): (rs: seq<Role>)
    ensures forall x :: x in rs <==> RoleRow(id, x) in rows
    ensures rs == [] <==> forall row :: row in rows ==> row.userId != id
    ensures |rs| <= |rows|
  {
    RolesOfMembers(rows, id);
    RolesOfEmpty(rows, id);
    RoleColumn(Filter(rows, ForUser(id)))
  }

  function ForUser(id: UserId): RoleRow -> bool {
    (row: RoleRow) => row.userId == id
  }

  /** `.map(ur => ur.role)`. */
  function RoleColumn(rows: seq<RoleRow>): (rs: seq<Role>)
    ensures |rs| == |rows| && forall i :: 0 <= i < |rows| ==> rs[i] == rows[i].role
  {
    seq(|rows|, i requires 0 <= i < |rows| => rows[i].role)
  }

  lemma RolesOfMembers(rows: seq<RoleRow>, id: UserId)
    ensures forall x :: x in RoleColumn(Filter(rows, ForUser(id))) <==> RoleRow(id, x) in rows
  {
    var mine := Filter(rows, ForUser(id));
    var rs := RoleColumn(mine);
    forall x ensures x in rs <==> RoleRow(id, x) in rows {
      if RoleRow(id, x) in rows {
        assert ForUser(id)(RoleRow(id, x));
        var k :| 0 <= k < |mine| && mine[k] == RoleRow(id, x);
        assert rs[k] == x;
      }
      if x in rs {
        var k :| 0 <= k < |rs| && rs[k] == x;
        assert ForUser(id)(mine[k]);
        assert mine[k] == RoleRow(id, x);
      }
    }
  }

  lemma RolesOfEmpty(rows: seq<RoleRow>, id: UserId)
    ensures RoleColumn(Filter(rows, ForUser(id))) == [] <==> forall row :: row in rows ==> row.userId != id
  {
    FilterEmpty(rows, ForUser(id));
    if forall i :: 0 <= i < |rows| ==> !ForUser(id)(rows[i]) {
      forall row | row in rows ensures row.userId != id {
        var i :| 0 <= i < |rows| && rows[i] == row;
        assert !ForUser(id)(rows[i]);
      }
    } else {
      var i :| 0 <= i < |rows| && ForUser(id)(rows[i]);
      assert rows[i] in rows;
    }
  }

  /** The `profiles.map(...)` join: one entry per profile, in profile order. */
  function JoinRoles(profiles: seq<Profile>, rows: seq<RoleRow>): (us: seq<UserWithRoles>)
    ensures |us| == |profiles|
    ensures forall i :: 0 <= i < |us| ==>
              us[i].id == profiles[i].id && us[i].fullName == profiles[i].fullName
              && us[i].email == profiles[i].email
              && (forall x :: x in us[i].roles <==> RoleRow(profiles[i].id, x) in rows)
              && (us[i].roles == [] <==> forall row :: row in rows ==> row.userId != profiles[i].id)
  {
    seq(|profiles|, i requires 0 <= i < |profiles| =>
      var p := profiles[i];
      UserWithRoles(p.id, p.fullName, p.email, RolesOf(rows, p.id)))
  }

  /** The backend calls the component makes. */
  datatype Rpc = Assign(user: UserId, role: Role) | Remove(user: UserId, role: Role)

  class RoleManager {
    var users: seq<UserWithRoles>
    var loading: bool
    var selected: map<UserId, Role>
    /** The role RPCs made, in order. */
    var rpcs: seq<Rpc>

    constructor ()
      ensures users == [] && loading && selected == map[] && rpcs == []
    {
      users := [];
      loading := true;
      selected := map[];
      rpcs := [];
    }

    /**
     * `fetchUsersWithRoles`: `None` stands for a query that errors. The list is
     * replaced only when both queries succeed; loading ends either way.
     */
    method FetchUsersWithRoles(profiles: Option<seq<Profile>>, rows: Option<seq<RoleRow>>)
      modifies this
      ensures !loading && selected == old(selected) && rpcs == old(rpcs)
      ensures profiles.Some? && rows.Some? ==> users == JoinRoles(profiles.value, rows.value)
      ensures profiles.None? || rows.None? ==> users == old(users)
    {
      loading := true;
      if profiles.Some? && rows.Some? {
        users := JoinRoles(profiles.value, rows.value);
      }
      loading := false;
    }

    /** The role picker's `onValueChange`. */
    method Select(userId: UserId, role: Role)
      modifies this
      ensures selected == old(selected)[userId := role]
      ensures users == old(users) && loading == old(loading) && rpcs == old(rpcs)
    {
      selected := selected[userId := role];
    }

    /**
     * `addRole`: without a selection nothing happens; otherwise the selected
     * role is assigned, and only on success is this user's selection cleared
     * (every other user's kept) and the list refetched.
     */
    method AddRole(userId: UserId, ok: bool, profiles: Option<seq<Profile>>, rows: Option<seq<RoleRow>>)
      modifies this
      ensures userId !in old(selected) ==>
                rpcs == old(rpcs) && selected == old(selected) && users == old(users) && loading == old(loading)
      ensures userId in old(selected) ==> rpcs == old(rpcs) + [Assign(userId, old(selected)[userId])]
      ensures userId in old(selected) && !ok ==>
                selected == old(selected) && users == old(users) && loading == old(loading)
      ensures userId in old(selected) && ok ==> selected == old(selected) - {userId} && !loading
      ensures userId in old(selected) && ok && profiles.Some? && rows.Some? ==>
                users == JoinRoles(profiles.value, rows.value)
      ensures userId in old(selected) && ok && (profiles.None? || rows.None?) ==> users == old(users)
    {
      if userId !in selected {
        return;
      }
      rpcs := rpcs + [Assign(userId, selected[userId])];
      if ok {
        selected := selected - {userId};
        FetchUsersWithRoles(profiles, rows);
      }
    }

    /** `removeRole`: the removal is requested; only on success is the list refetched. */
    method RemoveRole(userId: UserId, role: Role, ok: bool, profiles: Option<seq<Profile>>, rows: Option<seq<RoleRow>>)
      modifies this
      ensures rpcs == old(rpcs) + [Remove(userId, role)] && selected == old(selected)
      ensures !ok ==> users == old(users) && loading == old(loading)
      ensures ok && profiles.Some? && rows.Some? ==> users == JoinRoles(profiles.value, rows.value) && !loading
      ensures ok && (profiles.None? || rows.None?) ==> users == old(users) && !loading
    {
      rpcs := rpcs + [Remove(userId, role)];
      if ok {
        FetchUsersWithRoles(profiles, rows);
      }
    }
  }
}
