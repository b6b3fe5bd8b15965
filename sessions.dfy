/** The per-client session and the four authorization guards. The guards are
    repeated in every route file; the API versions answer 401 or 403, the page
    versions redirect to the home path. None of them consults the store: the
    role is the one cached in the session when it was established. */
module Sessions {
  import opened Base

  /** What a session holds: the signed-in user's id, role and name. An empty
      session has no id and empty role and name. */
  datatype SessionData = SessionData(userId: Option<Id>, userRole: string, userName: string)

  const ANONYMOUS := SessionData(None, "", "")

  /** The guards test `userId` for truthiness, and a numeric id 0 is falsy. */
  predicate SignedIn(s: SessionData) {
    s.userId.Some? && s.userId.value != 0
  }

  /** The server-side session of one client. Register and login assign its
      three fields one after the other; logout destroys it. */
  class Session {
    var userId: Option<Id>
    var userRole: string
    var userName: string

    function View(): SessionData
      reads this
    {
      SessionData(userId, userRole, userName)
    }

    constructor ()
      ensures View() == ANONYMOUS
    {
      userId, userRole, userName := None, "", "";
    }

    /** Storing a user in the session: its id, role and name. */
    method SignIn(id: Id, role: string, name: string)
      modifies this
      ensures View() == SessionData(Some(id), role, name)
    {
      userId, userRole, userName := Some(id), role, name;
    }

    /** Destroying a session leaves the client with a fresh, empty one. */
    method Destroy()
      modifies this
      ensures View() == ANONYMOUS
    {
      userId, userRole, userName := None, "", "";
    }
  }

  datatype Guard = RequireAuth | RequireAdmin | RequireStaff | RequireCustomer

  /** The role table the guards implement: any role for `RequireAuth`, admin
      only, staff or admin, customer only. */
  predicate RoleAllowed(g: Guard, role: string) {
    match g
    case RequireAuth => true
    case RequireAdmin => role == "admin"
    case RequireStaff => role in {"staff", "admin"}
    case RequireCustomer => role == "customer"
  }

  predicate Admits(g: Guard, s: SessionData) {
    SignedIn(s) && RoleAllowed(g, s.userRole)
  }

  datatype Verdict = Next | Reject(status: int, message: string)

  const UNAUTHORIZED := "Unauthorized"
  const ADMIN_REQUIRED := "Admin access required"
  const STAFF_REQUIRED := "Staff access required"
  const CUSTOMER_REQUIRED := "Customer access required"

  /** The API guards: the handler runs only on `Next`. A missing session gives
      401 only under `RequireAuth`; the role guards answer 403 both for a
      missing session and for a wrong role. */
  function ApiGuard(g: Guard, s: SessionData): (v: Verdict)
    ensures v.Next? <==> Admits(g, s)
    ensures v.Reject? ==> v.status == (if g == RequireAuth then 401 else 403)
  {
    match g
    case RequireAuth =>
      if !SignedIn(s) then Reject(401, UNAUTHORIZED) else Next
    case RequireAdmin =>
      if !SignedIn(s) || s.userRole != "admin" then Reject(403, ADMIN_REQUIRED) else Next
    case RequireStaff =>
      if !SignedIn(s) || (s.userRole != "staff" && s.userRole != "admin") then Reject(403, STAFF_REQUIRED) else Next
    case RequireCustomer =>
      if !SignedIn(s) || s.userRole != "customer" then Reject(403, CUSTOMER_REQUIRED) else Next
  }

  datatype PageVerdict = Proceed | RedirectTo(location: string)

  /** The page guards: the page is served only on `Proceed`; every rejection
      is a redirect to `/`, never an error status. */
  function PageGuard(g: Guard, s: SessionData): (v: PageVerdict)
    ensures v.Proceed? <==> Admits(g, s)
    ensures v == Proceed || v == RedirectTo("/")
  {
    match g
    case RequireAuth =>
      if !SignedIn(s) then RedirectTo("/") else Proceed
    case RequireAdmin =>
      if !SignedIn(s) || s.userRole != "admin" then RedirectTo("/") else Proceed
    case RequireStaff =>
      if !SignedIn(s) || (s.userRole != "staff" && s.userRole != "admin") then RedirectTo("/") else Proceed
    case RequireCustomer =>
      if !SignedIn(s) || s.userRole != "customer" then RedirectTo("/") else Proceed
  }

  /** The page and API versions of a guard admit exactly the same sessions. */
  lemma PageGuardAgreesWithApiGuard(g: Guard, s: SessionData)
    ensures PageGuard(g, s).Proceed? <==> ApiGuard(g, s).Next?
  {
  }

  /** The staff guard admits admins too; every role guard is stricter than
      `RequireAuth`; no session passes both the customer and the staff guard. */
  lemma GuardHierarchy(s: SessionData)
    ensures Admits(RequireAdmin, s) ==> Admits(RequireStaff, s)
    ensures Admits(RequireStaff, s) <==> Admits(RequireAdmin, s) || (SignedIn(s) && s.userRole == "staff")
    ensures forall g :: Admits(g, s) ==> Admits(RequireAuth, s)
    ensures !(Admits(RequireCustomer, s) && Admits(RequireStaff, s))
  {
  }

  /** An empty session is refused by every guard. */
  lemma AnonymousRefused(g: Guard)
    ensures !Admits(g, ANONYMOUS)
    ensures ApiGuard(g, ANONYMOUS).Reject? && PageGuard(g, ANONYMOUS) == RedirectTo("/")
  {
  }
}
