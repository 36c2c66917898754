/** backend/middleware/auth.middleware.js: the three access guards and the
    expired-session cleanup. A guard either passes the request on or answers
    401 when nobody is signed in and 403 when the signed-in user lacks the
    role. */
module AuthMiddleware {
  import opened Common
  import U = UserModel

  /** What the guards look at: passport's `isAuthenticated()`, whether the
      session carries passport data, and the deserialised user. */
  datatype Request = Request(authenticated: bool, passport: bool, user: Option<U.User>)

  datatype Outcome = Next | Deny(code: int, message: string)

  predicate SignedIn(req: Request)
  {
    req.authenticated && req.passport
  }

  function IsAuthenticated(req: Request): (o: Outcome)
    ensures o == Next <==> SignedIn(req)
    ensures o != Next ==> o == Deny(401, "Unauthorized")
  {
    if SignedIn(req) then Next else Deny(401, "Unauthorized")
  }

  function IsMentor(req: Request): (o: Outcome)
    ensures !SignedIn(req) ==> o == Deny(401, "Unauthorized")
    ensures SignedIn(req) ==>
      (o == Next <==> req.user.Some? && req.user.value.role == U.Mentor && req.user.value.mentorStatus == U.Approved)
    ensures SignedIn(req) && o != Next ==> o == Deny(403, "Access denied. Mentor privileges required.")
  {
    if !SignedIn(req) then Deny(401, "Unauthorized")
    else if req.user.Some? && req.user.value.role == U.Mentor && req.user.value.mentorStatus == U.Approved then Next
    else Deny(403, "Access denied. Mentor privileges required.")
  }

  function IsAdmin(req: Request): (o: Outcome)
    ensures !SignedIn(req) ==> o == Deny(401, "Unauthorized")
    ensures SignedIn(req) ==> (o == Next <==> req.user.Some? && req.user.value.role == U.Admin)
    ensures SignedIn(req) && o != Next ==> o == Deny(403, "Access denied. Admin privileges required.")
  {
    if !SignedIn(req) then Deny(401, "Unauthorized")
    else if req.user.Some? && req.user.value.role == U.Admin then Next
    else Deny(403, "Access denied. Admin privileges required.")
  }

  /** A guard that answers 403 has seen a signed-in request, and any guard
      that passes a request lets the plain authentication guard pass it too;
      no request passes both role guards. */
  lemma {:induction false} GuardsAgree(req: Request)
    ensures IsMentor(req).Deny? && IsMentor(req).code == 403 ==> IsAuthenticated(req) == Next
    ensures IsAdmin(req).Deny? && IsAdmin(req).code == 403 ==> IsAuthenticated(req) == Next
    ensures IsMentor(req) == Next || IsAdmin(req) == Next ==> IsAuthenticated(req) == Next
    ensures !(IsMentor(req) == Next && IsAdmin(req) == Next)
  {
  }

  /** The server-side session the cookie points at. */
  class HttpSession {
    /** The cookie's expiry time, when it has one. */
    var expires: Option<int>
    /** Whether passport still holds a user in the session. */
    var loggedIn: bool
    var destroyed: bool

    constructor (expires: Option<int>)
      ensures this.expires == expires && loggedIn && !destroyed
    {
      this.expires := expires;
      loggedIn := true;
      destroyed := false;
    }
  }

  /** `cleanupSession`: a session past its cookie's expiry is logged out and
      destroyed; the request always continues. `s` is `null` when the request
      has no session. */
  method CleanupSession(s: HttpSession?, now: int) returns (proceed: bool)
    modifies if s == null then {} else {s}
    ensures proceed
    ensures s != null ==> s.expires == old(s.expires)
    ensures s != null && old(s.expires).Some? && now > old(s.expires).value ==> !s.loggedIn && s.destroyed
    ensures s != null && (old(s.expires).None? || now <= old(s.expires).value) ==>
      s.loggedIn == old(s.loggedIn) && s.destroyed == old(s.destroyed)
  {
    if s != null && s.expires.Some? && now > s.expires.value {
      s.loggedIn := false;
      s.destroyed := true;
    }
    proceed := true;
  }
}
