/** The client session store as an object whose fields its actions update in
    place, one `set` at a time, and client code that drives it through the
    scenarios the store is meant to support. */
module AuthStore {
  import opened AuthTypes
  import opened AuthSpec

  class Store {
    var authUser: Option<User>
    var isCheckingAuth: bool
    var isSigningUp: bool
    var isLoggingIn: bool
    var isUpdatingProfile: bool

    /** The fields as a value, for the specification functions. */
    function Snapshot(): State
      reads this
    {
      State(authUser, isCheckingAuth, isSigningUp, isLoggingIn, isUpdatingProfile)
    }

    constructor ()
      ensures Snapshot() == Initial()
      ensures authUser == None && isCheckingAuth
      ensures !isSigningUp && !isLoggingIn && !isUpdatingProfile
    {
      authUser := None;
      isCheckingAuth := true;
      isSigningUp := false;
      isLoggingIn := false;
      isUpdatingProfile := false;
    }

    /* ---------------------------- checkAuth ---------------------------- */

    method StartCheckAuth()
      modifies this
      ensures isCheckingAuth
      ensures authUser == old(authUser)
      ensures isSigningUp == old(isSigningUp) && isLoggingIn == old(isLoggingIn)
      ensures isUpdatingProfile == old(isUpdatingProfile)
      ensures Snapshot() == Start(old(Snapshot()), CheckAuth)
    {
      isCheckingAuth := true;
    }

    /** Never fails outward: every response, rejections included, yields a
        boolean and a defined user. */
    method SettleCheckAuth(resp: Response) returns (success: bool)
      modifies this
      ensures success <==> CarriesUser(resp)
      ensures authUser == (if success then resp.body.user else None)
      ensures !isCheckingAuth
      ensures isSigningUp == old(isSigningUp) && isLoggingIn == old(isLoggingIn)
      ensures isUpdatingProfile == old(isUpdatingProfile)
      ensures Settled(Snapshot(), Some(success), None) == AuthSpec.SettleCheckAuth(old(Snapshot()), resp)
    {
      if resp.Ok? && resp.body.Body? && resp.body.user.Some? {
        authUser := resp.body.user;
        success := true;
      } else {
        authUser := None;
        success := false;
      }
      isCheckingAuth := false;
    }

    /* ----------------------------- signup ------------------------------ */

    method StartSignup()
      modifies this
      ensures isSigningUp
      ensures authUser == old(authUser)
      ensures isCheckingAuth == old(isCheckingAuth) && isLoggingIn == old(isLoggingIn)
      ensures isUpdatingProfile == old(isUpdatingProfile)
      ensures Snapshot() == Start(old(Snapshot()), Signup)
    {
      isSigningUp := true;
    }

    method SettleSignup(resp: Response) returns (success: bool, note: Toast)
      modifies this
      ensures success <==> Readable(resp)
      ensures authUser == (if success then resp.body.user else None)
      ensures !success ==> note == ToastError("Signup failed")
      ensures !isSigningUp
      ensures isCheckingAuth == old(isCheckingAuth) && isLoggingIn == old(isLoggingIn)
      ensures isUpdatingProfile == old(isUpdatingProfile)
      ensures Settled(Snapshot(), Some(success), Some(note)) == AuthSpec.SettleSignup(old(Snapshot()), resp)
    {
      if resp.Ok? && resp.body.Body? {
        authUser := resp.body.user;
        note := ToastSuccess("Account created successfully!");
        success := true;
      } else {
        authUser := None;
        note := ToastError("Signup failed");
        success := false;
      }
      isSigningUp := false;
    }

    /* ------------------------------ login ------------------------------ */

    method StartLogin()
      modifies this
      ensures isLoggingIn
      ensures authUser == old(authUser)
      ensures isCheckingAuth == old(isCheckingAuth) && isSigningUp == old(isSigningUp)
      ensures isUpdatingProfile == old(isUpdatingProfile)
      ensures Snapshot() == Start(old(Snapshot()), Login)
    {
      isLoggingIn := true;
    }

    method SettleLogin(resp: Response) returns (success: bool, note: Toast)
      modifies this
      ensures success <==> Readable(resp)
      ensures authUser == (if success then resp.body.user else None)
      ensures !success ==> note == ToastError("Invalid email or password")
      ensures !isLoggingIn
      ensures isCheckingAuth == old(isCheckingAuth) && isSigningUp == old(isSigningUp)
      ensures isUpdatingProfile == old(isUpdatingProfile)
      ensures Settled(Snapshot(), Some(success), Some(note)) == AuthSpec.SettleLogin(old(Snapshot()), resp)
    {
      if resp.Ok? && resp.body.Body? {
        authUser := resp.body.user;
        note := ToastSuccess("Logged in successfully!");
        success := true;
      } else {
        authUser := None;
        note := ToastError("Invalid email or password");
        success := false;
      }
      isLoggingIn := false;
    }

    /* ------------------------------ logout ----------------------------- */

    /** logout has no in-flight flag: the whole call is one step. */
    method Logout(resp: Response) returns (success: bool, note: Toast)
      modifies this
      ensures success <==> resp.Ok?
      ensures authUser == (if success then None else old(authUser))
      ensures isCheckingAuth == old(isCheckingAuth) && isSigningUp == old(isSigningUp)
      ensures isLoggingIn == old(isLoggingIn) && isUpdatingProfile == old(isUpdatingProfile)
      ensures Settled(Snapshot(), Some(success), Some(note)) == SettleLogout(old(Snapshot()), resp)
    {
      if resp.Ok? {
        authUser := None;
        note := ToastSuccess("Logged out successfully");
        success := true;
      } else {
        note := ToastError("Logout failed");
        success := false;
      }
    }

    /* -------------------------- updateProfile -------------------------- */

    method StartUpdateProfile()
      modifies this
      ensures isUpdatingProfile
      ensures authUser == old(authUser)
      ensures isCheckingAuth == old(isCheckingAuth) && isSigningUp == old(isSigningUp)
      ensures isLoggingIn == old(isLoggingIn)
      ensures Snapshot() == Start(old(Snapshot()), UpdateProfile)
    {
      isUpdatingProfile := true;
    }

    /** Resolves to nothing: the only outputs are the new user and the
        notification. */
    method SettleUpdateProfile(resp: Response) returns (note: Toast)
      modifies this
      ensures authUser == (if Readable(resp) then resp.body.user else old(authUser))
      ensures !isUpdatingProfile
      ensures isCheckingAuth == old(isCheckingAuth) && isSigningUp == old(isSigningUp)
      ensures isLoggingIn == old(isLoggingIn)
      ensures Settled(Snapshot(), None, Some(note)) == AuthSpec.SettleUpdateProfile(old(Snapshot()), resp)
    {
      if resp.Ok? && resp.body.Body? {
        authUser := resp.body.user;
        note := ToastSuccess("Profile updated successfully!");
      } else {
        note := ToastError("Profile update failed");
      }
      isUpdatingProfile := false;
    }
  }

  /* ------------------------------ scenarios ------------------------------ */

  /** A fresh store whose first session check finds no user: still signed
      out, resolves false, and the checking flag ends down. */
  method FreshCheckWithoutUser() returns (success: bool, user: Option<User>, checking: bool)
    ensures !success && user == None && !checking
  {
    var store := new Store();
    store.StartCheckAuth();
    success := store.SettleCheckAuth(Ok(Body(None)));
    user, checking := store.authUser, store.isCheckingAuth;
  }

  /** A login the gateway rejects, whatever the error: signed out, resolves
      false, the generic text is shown and the flag ends down. */
  method RejectedLogin(error: ErrorSchema) returns (success: bool, user: Option<User>, note: Toast, loggingIn: bool)
    ensures !success && user == None && !loggingIn
    ensures note == ToastError("Invalid email or password")
  {
    var store := new Store();
    store.StartLogin();
    var during := store.isLoggingIn;
    assert during;
    success, note := store.SettleLogin(Err(error));
    user, loggingIn := store.authUser, store.isLoggingIn;
  }

  /** A signup the gateway accepts with user `u`: `u` is signed in and the
      call resolves true. */
  method AcceptedSignup(u: User) returns (success: bool, user: Option<User>)
    ensures success && user == Some(u)
  {
    var store := new Store();
    store.StartSignup();
    var note;
    success, note := store.SettleSignup(Ok(Body(Some(u))));
    user := store.authUser;
  }

  /** A failed logout after a successful login keeps the session. */
  method RejectedLogout(u: User, error: ErrorSchema) returns (success: bool, user: Option<User>)
    ensures !success && user == Some(u)
  {
    var store := new Store();
    store.StartLogin();
    var _, _ := store.SettleLogin(Ok(Body(Some(u))));
    var note;
    success, note := store.Logout(Err(error));
    user := store.authUser;
  }

  /** Two overlapping logins: the first settlement already brings the flag
      down while the second call is still in flight, and the later
      settlement decides who is signed in. */
  method OverlappingLogins(first: Response, second: Response)
    returns (flagBetween: bool, flagAfter: bool, user: Option<User>)
    ensures !flagBetween && !flagAfter
    ensures user == (if Readable(second) then second.body.user else None)
  {
    var store := new Store();
    store.StartLogin();
    store.StartLogin();
    var _, _ := store.SettleLogin(first);
    flagBetween := store.isLoggingIn;
    var _, _ := store.SettleLogin(second);
    flagAfter, user := store.isLoggingIn, store.authUser;
  }
}
