/**
 * The dashboard page (src/pages/Dashboard.tsx): the signed-in user's role
 * rows decide a primary role by a fixed precedence, and the primary role
 * decides which of the three dashboards is rendered.
 */
module Dashboard {

  import opened Wrappers
  import opened Entities

  /** The precedence of `fetchUserRole`: earlier entries win. */
  const Precedence: seq<string> := ["admin", "dentist", "manager", "nurse", "receptionist", "patient"]

  /**
   * The primary role: the first entry of `Precedence` that occurs in the
   * fetched role texts, or `None` when none does.
   */
  function PrimaryRole(roles: seq<string>): (p: Option<string>)
    ensures p.Some? ==> p.value in roles
    ensures p.Some? ==> exists k :: 0 <= k < |Precedence| && Precedence[k] == p.value
                                   && forall j :: 0 <= j < k ==> Precedence[j] !in roles
    ensures p.None? <==> forall k :: 0 <= k < |Precedence| ==> Precedence[k] !in roles
  {
    if "admin" in roles then Chosen(roles, 0)
    else if "dentist" in roles then Chosen(roles, 1)
    else if "manager" in roles then Chosen(roles, 2)
    else if "nurse" in roles then Chosen(roles, 3)
    else if "receptionist" in roles then Chosen(roles, 4)
    else if "patient" in roles then Chosen(roles, 5)
    else None
  }

  /** `Some(Precedence[k])`, the choice of the `k`th branch of the chain. */
  function Chosen(roles: seq<string>, k: nat): (p: Option<string>)
    requires k < |Precedence| && Precedence[k] in roles
    requires forall j :: 0 <= j < k ==> Precedence[j] !in roles
    ensures p == Some(Precedence[k])
    ensures exists i :: 0 <= i < |Precedence| && Precedence[i] == p.value
                      && forall j :: 0 <= j < i ==> Precedence[j] !in roles
  {
    Some(Precedence[k])
  }

  /** Only which roles occur matters, not their order or repetitions. */
  lemma PrimaryRoleByMembership(a: seq<string>, b: seq<string>)
    requires forall x :: x in a <==> x in b
    ensures PrimaryRole(a) == PrimaryRole(b)
  {
  }

  /** A user holding the dentist role and not the admin role is a dentist first, whatever else they hold. */
  lemma DentistOverPatient(roles: seq<string>)
    requires "dentist" in roles && "admin" !in roles
    ensures PrimaryRole(roles) == Some("dentist")
    ensures Rendered(PrimaryRole(roles)) == [DentistView]
  {
  }

  /** The three dashboards. */
  datatype View = AdminView | DentistView | PatientView

  /** The `<main>` element: one conditional element per dashboard, in order. */
  function Rendered(primary: Option<string>): (vs: seq<View>)
    ensures |vs| <= 1
    ensures AdminView in vs <==> primary == Some("admin")
    ensures DentistView in vs <==> primary == Some("dentist")
    ensures PatientView in vs <==> primary.Some? && primary.value in ["patient", "receptionist", "nurse", "manager"]
  {
    (if primary == Some("admin") then [AdminView] else [])
    + (if primary == Some("dentist") then [DentistView] else [])
    + (if primary == Some("patient") || primary == Some("receptionist")
          || primary == Some("nurse") || primary == Some("manager") then [PatientView] else [])
  }

  /**
   * From the fetched roles: exactly one dashboard renders when a known role
   * is held, none otherwise; the admin dashboard exactly for admins, the
   * dentist dashboard exactly for non-admin dentists.
   */
  lemma {:induction false} RoutingByRoles(roles: seq<string>)
    ensures |Rendered(PrimaryRole(roles))| == 1 <==> exists k :: 0 <= k < |Precedence| && Precedence[k] in roles
    ensures Rendered(PrimaryRole(roles)) == [AdminView] <==> "admin" in roles
    ensures Rendered(PrimaryRole(roles)) == [DentistView] <==> "dentist" in roles && "admin" !in roles
  {
    var p := PrimaryRole(roles);
    var vs := Rendered(p);
    if p.Some? {
      assert p.value in Precedence;
      assert |vs| == 1;
    } else {
      assert vs == [];
    }
  }

  /** The page's state. `location` is the last route navigated to. */
  class DashboardPage {
    var user: Option<UserId>
    var roles: seq<string>
    var primaryRole: Option<string>
    var loading: bool
    var location: Option<string>
    /** The users whose role rows were queried, in order. */
    var roleQueries: seq<UserId>

    constructor ()
      ensures user == None && roles == [] && primaryRole == None && loading
      ensures location == None && roleQueries == []
    {
      user := None;
      roles := [];
      primaryRole := None;
      loading := true;
      location := None;
      roleQueries := [];
    }

    /**
     * `fetchUserRole`: `result` is the role column of the user's rows, or
     * `None` when the query errors. A role list without a known role keeps the
     * previous primary role; an error keeps both. Loading ends either way.
     */
    method FetchUserRole(userId: UserId, result: Option<seq<string>>)
      modifies this
      ensures roleQueries == old(roleQueries) + [userId] && !loading
      ensures user == old(user) && location == old(location)
      ensures result.None? ==> roles == old(roles) && primaryRole == old(primaryRole)
      ensures result.Some? ==> roles == result.value
      ensures result.Some? && PrimaryRole(result.value).Some? ==> primaryRole == PrimaryRole(result.value)
      ensures result.Some? && PrimaryRole(result.value).None? ==> primaryRole == old(primaryRole)
    {
      roleQueries := roleQueries + [userId];
      if result.Some? {
        roles := result.value;
        var p := PrimaryRole(roles);
        if p.Some? {
          primaryRole := p;
        }
      }
      loading := false;
    }

    /**
     * `checkUser` (and the auth-state listener, which does the same): with no
     * session the page goes to `/auth`, makes no role query and stays loading;
     * otherwise it records the user and fetches the roles.
     */
    method CheckUser(session: Option<UserId>, result: Option<seq<string>>)
      modifies this
      ensures session.None? ==> location == Some("/auth") && user == old(user) && roles == old(roles)
                                && primaryRole == old(primaryRole) && loading == old(loading)
                                && roleQueries == old(roleQueries)
      ensures session.Some? ==> user == session && location == old(location) && !loading
                                && roleQueries == old(roleQueries) + [session.value]
      ensures session.Some? && result.Some? ==> roles == result.value
      ensures session.Some? && result.Some? && PrimaryRole(result.value).Some? ==> primaryRole == PrimaryRole(result.value)
      ensures session.Some? && (result.None? || PrimaryRole(result.value).None?) ==> primaryRole == old(primaryRole)
    {
      if session.None? {
        location := Some("/auth");
        return;
      }
      user := session;
      FetchUserRole(session.value, result);
    }

    /** What the page shows: nothing but a spinner while loading, then the routed dashboard. */
    function Shown(): (vs: seq<View>)
      reads this
      ensures loading ==> vs == []
      ensures !loading ==> vs == Rendered(primaryRole)
      ensures |vs| <= 1
    {
      if loading then [] else Rendered(primaryRole)
    }
  }
}
