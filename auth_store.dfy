/** frontend/src/store/authStore.js: the browser-side sign-in state. It keeps
    the current user, a loading flag and the last error, reads and writes a
    few localStorage keys, and after sign-in decides where to send the user.
    The browser's storage is a string map, the page location a string, and
    each server call is represented by its outcome. */
module AuthStore {
  import opened Common

  /** The fields of the current-user reply that the redirect decision reads. */
  datatype UserData = UserData(name: string, role: string, mentorStatus: string)

  /** What getCurrentUser resolves to: the cached user when no fetch happens,
      otherwise the fetched user (absent on failure) with a redirect path. */
  datatype Resolved = Cached(user: Option<UserData>) | Routed(user: Option<UserData>, redirect: string)

  const UserKey := "user"
  const LoginTypeKey := "loginType"
  const SignUpFlowKey := "mentorSignUpFlow"
  const RedirectKey := "redirectAfterLogin"

  /** `localStorage.getItem(key)` read as a condition: absent and "" are both falsy. */
  predicate Truthy(storage: map<string, string>, key: string)
  {
    key in storage && storage[key] != ""
  }

  /** The redirect after a successful fetch, given the stored login type and
      redirect path. */
  function Redirect(loginType: Option<string>, stored: Option<string>, d: UserData): (p: string)
    ensures loginType == Some("mentor") ==>
      (p == "/mentor/dashboard" <==> d.role == "mentor" && d.mentorStatus == "approved") &&
      (p == "/mentor/inreview" <==> d.role == "mentor" && d.mentorStatus == "pending") &&
      (p == "/mentor/onboard" <==> !(d.role == "mentor" && d.mentorStatus in {"approved", "pending"}))
    ensures loginType != Some("mentor") && stored.Some? && stored.value != "" ==> p == stored.value
    ensures loginType != Some("mentor") && (stored.None? || stored.value == "") ==> p == "/browse"
  {
    if loginType == Some("mentor") then
      if d.role == "mentor" && d.mentorStatus == "approved" then "/mentor/dashboard"
      else if d.role == "mentor" && d.mentorStatus == "pending" then "/mentor/inreview"
      else "/mentor/onboard"
    else if stored.Some? && stored.value != "" then stored.value
    else "/browse"
  }

  function Lookup(storage: map<string, string>, key: string): Option<string>
  {
    if key in storage then Some(storage[key]) else None
  }

  class Store {
    var user: Option<UserData>
    var isLoading: bool
    var error: Option<string>
    /** The browser's localStorage. */
    var storage: map<string, string>
    /** `window.location.href` */
    var location: string

    constructor (storage: map<string, string>, location: string)
      ensures user.None? && !isLoading && error.None?
      ensures this.storage == storage && this.location == location
    {
      user := None;
      isLoading := false;
      error := None;
      this.storage := storage;
      this.location := location;
    }

    /** `login(loginType = 'normal')`: remember the login type and, for a
        normal login, the current path unless a redirect is already stored;
        then leave for the server's Google sign-in. */
    method Login(loginType: Option<string>, pathname: string, apiUrl: string)
      modifies this`storage, this`location
      ensures var lt := if loginType.Some? then loginType.value else "normal";
        storage == (if lt == "normal" && !Truthy(old(storage), RedirectKey)
                    then old(storage)[LoginTypeKey := lt][RedirectKey := pathname]
                    else old(storage)[LoginTypeKey := lt])
      ensures location == apiUrl + "/auth/google"
    {
      var lt := if loginType.Some? then loginType.value else "normal";
      storage := storage[LoginTypeKey := lt];
      if lt == "normal" && !Truthy(storage, RedirectKey) {
        storage := storage[RedirectKey := pathname];
      }
      location := apiUrl + "/auth/google";
    }

    /** `logout()`: the four keys go and the user is cleared before the server
        is told; `failure` is the server call's error message, if it failed.
        Either way the page goes to "/". */
    method Logout(failure: Option<string>)
      modifies this`storage, this`user, this`isLoading, this`error, this`location
      ensures storage == old(storage) - {UserKey, LoginTypeKey, SignUpFlowKey, RedirectKey}
      ensures user.None? && !isLoading && location == "/"
      ensures error == (if failure.Some? then failure else old(error))
    {
      isLoading := true;
      storage := storage - {UserKey, LoginTypeKey, SignUpFlowKey, RedirectKey};
      user := None;
      if failure.Some? {
        error := failure;
      }
      isLoading := false;
      location := "/";
    }

    /** `getCurrentUser()`. `fetched` is the current-user reply, `None` when
        the request fails (with `failure` as its message). */
    method GetCurrentUser(fetched: Option<UserData>, failure: string) returns (r: Resolved)
      modifies this`storage, this`user, this`isLoading, this`error
      ensures old(isLoading) || old(user).Some? ==>
        r == Cached(old(user)) && user == old(user) && isLoading == old(isLoading) &&
        error == old(error) && storage == old(storage)
      ensures !old(isLoading) && old(user).None? && fetched.None? ==>
        r == Routed(None, "/login") && user.None? && !isLoading && error == Some(failure) &&
        storage == old(storage)
      ensures !old(isLoading) && old(user).None? && fetched.Some? ==>
        var lt := Lookup(old(storage), LoginTypeKey);
        var stored := Lookup(old(storage), RedirectKey);
        r == Routed(fetched, Redirect(lt, stored, fetched.value)) &&
        user == fetched && !isLoading && error.None? &&
        storage == (if lt == Some("mentor") then old(storage) - {LoginTypeKey}
                    else if Truthy(old(storage), RedirectKey) then old(storage) - {RedirectKey}
                    else old(storage))
    {
      if isLoading || user.Some? {
        return Cached(user);
      }
      isLoading := true;
      if fetched.None? {
        error := Some(failure);
        isLoading := false;
        user := None;
        return Routed(None, "/login");
      }
      var d := fetched.value;
      user := fetched;
      isLoading := false;
      error := None;
      var lt := Lookup(storage, LoginTypeKey);
      var stored := Lookup(storage, RedirectKey);
      var path := Redirect(lt, stored, d);
      if lt == Some("mentor") {
        storage := storage - {LoginTypeKey};
      } else if Truthy(storage, RedirectKey) {
        storage := storage - {RedirectKey};
      }
      r := Routed(fetched, path);
    }
  }

  /** A stored redirect is used once: resolving the user, reloading the page
      (which clears the in-memory user but keeps localStorage) and resolving
      again sends the user first to the stored path and then to "/browse". */
  method RedirectUsedOnce(st: Store, d: UserData, path: string) returns (r1: Resolved, r2: Resolved)
    requires path != "" && Lookup(st.storage, LoginTypeKey) != Some("mentor") && Lookup(st.storage, RedirectKey) == Some(path)
    requires st.user.None? && !st.isLoading
    modifies st
    ensures r1 == Routed(Some(d), path)
    ensures r2 == Routed(Some(d), "/browse")
  {
    r1 := st.GetCurrentUser(Some(d), "");
    st.user := None;
    r2 := st.GetCurrentUser(Some(d), "");
  }
}
