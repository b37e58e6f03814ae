/**
 * The admin page's gate (src/pages/Admin.tsx): the page checks for a signed-in
 * user and an `admin` role row, and shows the admin content only after both.
 */
module Admin {

  import opened Wrappers
  import opened Entities

  /** `auth.getUser()`: a user, no user, or a thrown exception. */
  datatype AuthResult = SignedIn(id: UserId) | SignedOut | AuthThrew

  /** The `.eq('role', 'admin').single()` lookup. */
  datatype AdminLookup = RowFound | NoRow | LookupError | LookupThrew

  /** What one `checkAdminAccess` decides. */
  datatype Decision = Decision(redirect: Option<string>, grant: bool, lookedUp: bool)

  function Decide(auth: AuthResult, lookup: AdminLookup): (d: Decision)
    ensures d.grant <==> auth.SignedIn? && lookup == RowFound
    ensures d.grant <==> d.redirect.None?
    ensures d.redirect == Some("/auth") <==> auth.SignedOut?
    ensures d.redirect == Some("/dashboard") <==> auth.AuthThrew? || (auth.SignedIn? && lookup != RowFound)
    ensures d.redirect.Some? ==> d.redirect == Some("/auth") || d.redirect == Some("/dashboard")
    ensures d.lookedUp <==> auth.SignedIn?
  {
    match auth
    case SignedOut => Decision(Some("/auth"), false, false)
    case AuthThrew => Decision(Some("/dashboard"), false, false)
    case SignedIn(_) =>
      if lookup == RowFound then Decision(None, true, true)
      else Decision(Some("/dashboard"), false, true)
  }

  /** What the page renders. */
  datatype Screen = Spinner | Blank | AdminContent

  function Render(loading: bool, isAdmin: bool): (s: Screen)
    ensures s == AdminContent <==> !loading && isAdmin
    ensures s == Spinner <==> loading
  {
    if loading then Spinner else if !isAdmin then Blank else AdminContent
  }

  class AdminPage {
    var userId: string
    var isAdmin: bool
    var loading: bool
    var location: Option<string>
    /** The users whose admin row was looked up, in order. */
    var lookups: seq<UserId>

    constructor ()
      ensures userId == "" && !isAdmin && loading && location == None && lookups == []
    {
      userId := "";
      isAdmin := false;
      loading := true;
      location := None;
      lookups := [];
    }

    /**
     * `checkAdminAccess`. Loading always ends (the `finally`); `isAdmin` is set
     * only when the lookup finds the row; every other outcome navigates away.
     */
    method CheckAdminAccess(auth: AuthResult, lookup: AdminLookup)
      modifies this
      ensures var d := Decide(auth, lookup);
              !loading
              && isAdmin == (old(isAdmin) || d.grant)
              && location == (if d.redirect.Some? then d.redirect else old(location))
              && lookups == old(lookups) + (if d.lookedUp then [auth.id] else [])
              && userId == (if auth.SignedIn? then auth.id else old(userId))
    {
      match auth {
        case AuthThrew =>
          location := Some("/dashboard");
        case SignedOut =>
          location := Some("/auth");
        case SignedIn(id) =>
          userId := id;
          lookups := lookups + [id];
          if lookup != RowFound {
            location := Some("/dashboard");
          } else {
            isAdmin := true;
          }
      }
      loading := false;
    }

    function Screen(): Screen
      reads this
    {
      Render(loading, isAdmin)
    }
  }

  /**
   * From a fresh page, one access check leads to the admin content exactly
   * when a signed-in user has an admin row, and to a redirect otherwise.
   */
  lemma GateFromFreshPage(auth: AuthResult, lookup: AdminLookup)
    ensures var d := Decide(auth, lookup);
            (Render(false, d.grant) == AdminContent <==> auth.SignedIn? && lookup == RowFound)
            && (Render(false, d.grant) != AdminContent <==> d.redirect.Some?)
  {
  }
}
