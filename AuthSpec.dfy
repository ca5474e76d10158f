/** The session store's state as a value, the effect of each step of each
    action on it, and properties of whole sequences of steps.

    Every flagged action is split into a Begin step (its flag goes up) and a
    settle step (the awaited call has produced a Response: `authUser` and the
    result are computed and the flag comes down). Within one settle step the
    `set` calls of the try/catch body and of the `finally` block run with no
    await between them, so the step is atomic. */
module AuthSpec {
  import opened AuthTypes

  datatype State = State(
    authUser: Option<User>,
    isCheckingAuth: bool,
    isSigningUp: bool,
    isLoggingIn: bool,
    isUpdatingProfile: bool)

  /** What a settle step leaves behind: the new state, the value the action
      resolves with (`None` for updateProfile, which resolves to nothing) and
      the notification it emits, if any. */
  datatype Settled = Settled(state: State, success: Option<bool>, toast: Option<Toast>)

  /** One step of the store: an action starts, an action settles with a
      response, or a logout (which has no separate start) completes. */
  datatype Event = Begin(action: Action) | End(action: Action, response: Response) | Logout(response: Response)

  /** The in-flight flag that belongs to an action. */
  function Flag(s: State, a: Action): bool
  {
    match a
    case CheckAuth => s.isCheckingAuth
    case Signup => s.isSigningUp
    case Login => s.isLoggingIn
    case UpdateProfile => s.isUpdatingProfile
  }

  /** `s` and `t` agree on every flag other than `a`'s. */
  predicate OtherFlagsAgree(s: State, t: State, a: Action)
  {
    forall b: Action :: b != a ==> Flag(t, b) == Flag(s, b)
  }

  /** The store as created: no user, the session check assumed to be in
      flight, nothing else in flight. */
  function Initial(): (s: State)
    ensures s.authUser == None
    ensures Flag(s, CheckAuth)
    ensures forall a: Action :: a != CheckAuth ==> !Flag(s, a)
  {
    State(None, true, false, false, false)
  }

  /** The state with `a`'s flag set to `v` and nothing else changed. */
  function SetFlag(s: State, a: Action, v: bool): (r: State)
    ensures Flag(r, a) == v
    ensures OtherFlagsAgree(s, r, a)
    ensures r.authUser == s.authUser
  {
    match a
    case CheckAuth => s.(isCheckingAuth := v)
    case Signup => s.(isSigningUp := v)
    case Login => s.(isLoggingIn := v)
    case UpdateProfile => s.(isUpdatingProfile := v)
  }

  /** The start of a flagged action: only its flag changes, and it is up. */
  function Start(s: State, a: Action): (r: State)
    ensures Flag(r, a)
    ensures OtherFlagsAgree(s, r, a)
    ensures r.authUser == s.authUser
  {
    SetFlag(s, a, true)
  }

  /** checkAuth settling: a response that carries a user installs it and
      resolves true; a user-less body, a `null` body or a rejection clears the
      user and resolves false. No notification. */
  function SettleCheckAuth(s: State, resp: Response): (r: Settled)
    ensures r.success == Some(true) <==> CarriesUser(resp)
    ensures r.success.Some?
    ensures CarriesUser(resp) ==> r.state.authUser == resp.body.user && r.state.authUser.Some?
    ensures !CarriesUser(resp) ==> r.state.authUser == None
    ensures !r.state.isCheckingAuth && OtherFlagsAgree(s, r.state, CheckAuth)
    ensures r.toast == None
  {
    var user := if CarriesUser(resp) then resp.body.user else None;
    Settled(SetFlag(s.(authUser := user), CheckAuth, false), Some(CarriesUser(resp)), None)
  }

  /** signup settling: a readable body installs its `user` field verbatim
      (absent becomes `None`) and resolves true; anything else clears the
      user and resolves false with the fixed failure text. */
  function SettleSignup(s: State, resp: Response): (r: Settled)
    ensures r.success == Some(Readable(resp))
    ensures Readable(resp) ==> r.state.authUser == resp.body.user
    ensures !Readable(resp) ==> r.state.authUser == None
    ensures r.toast == Some(if Readable(resp) then ToastSuccess("Account created successfully!") else ToastError("Signup failed"))
    ensures !r.state.isSigningUp && OtherFlagsAgree(s, r.state, Signup)
  {
    if Readable(resp) then
      Settled(SetFlag(s.(authUser := resp.body.user), Signup, false), Some(true), Some(ToastSuccess("Account created successfully!")))
    else
      Settled(SetFlag(s.(authUser := None), Signup, false), Some(false), Some(ToastError("Signup failed")))
  }

  /** login settling: as signup, with its own flag and texts; every failure,
      whatever its cause, shows the same generic text. */
  function SettleLogin(s: State, resp: Response): (r: Settled)
    ensures r.success == Some(Readable(resp))
    ensures Readable(resp) ==> r.state.authUser == resp.body.user
    ensures !Readable(resp) ==> r.state.authUser == None
    ensures r.toast == Some(if Readable(resp) then ToastSuccess("Logged in successfully!") else ToastError("Invalid email or password"))
    ensures !r.state.isLoggingIn && OtherFlagsAgree(s, r.state, Login)
  {
    if Readable(resp) then
      Settled(SetFlag(s.(authUser := resp.body.user), Login, false), Some(true), Some(ToastSuccess("Logged in successfully!")))
    else
      Settled(SetFlag(s.(authUser := None), Login, false), Some(false), Some(ToastError("Invalid email or password")))
  }

  /** updateProfile settling: a readable body replaces the user with its
      `user` field verbatim; a failure keeps the user. Resolves to nothing. */
  function SettleUpdateProfile(s: State, resp: Response): (r: Settled)
    ensures r.success == None
    ensures Readable(resp) ==> r.state.authUser == resp.body.user
    ensures !Readable(resp) ==> r.state.authUser == s.authUser
    ensures r.toast == Some(if Readable(resp) then ToastSuccess("Profile updated successfully!") else ToastError("Profile update failed"))
    ensures !r.state.isUpdatingProfile && OtherFlagsAgree(s, r.state, UpdateProfile)
  {
    if Readable(resp) then
      Settled(SetFlag(s.(authUser := resp.body.user), UpdateProfile, false), None, Some(ToastSuccess("Profile updated successfully!")))
    else
      Settled(SetFlag(s, UpdateProfile, false), None, Some(ToastError("Profile update failed")))
  }

  /** logout: a resolved call (whatever its body) clears the user and
      resolves true; a rejection keeps the user and resolves false. No flag
      is touched. */
  function SettleLogout(s: State, resp: Response): (r: Settled)
    ensures r.success == Some(resp.Ok?)
    ensures resp.Ok? ==> r.state.authUser == None
    ensures resp.Err? ==> r.state.authUser == s.authUser
    ensures forall a: Action :: Flag(r.state, a) == Flag(s, a)
    ensures r.toast == Some(if resp.Ok? then ToastSuccess("Logged out successfully") else ToastError("Logout failed"))
  {
    if resp.Ok? then
      Settled(s.(authUser := None), Some(true), Some(ToastSuccess("Logged out successfully")))
    else
      Settled(s, Some(false), Some(ToastError("Logout failed")))
  }

  /** Settling any flagged action: its flag is released on every path, the
      other flags are untouched, and the user afterwards is the old one,
      none, or the one the response delivered. */
  function Settle(s: State, a: Action, resp: Response): (r: Settled)
    ensures !Flag(r.state, a)
    ensures OtherFlagsAgree(s, r.state, a)
    ensures r.state.authUser == s.authUser || r.state.authUser == None
         || (Readable(resp) && r.state.authUser == resp.body.user)
  {
    match a
    case CheckAuth => SettleCheckAuth(s, resp)
    case Signup => SettleSignup(s, resp)
    case Login => SettleLogin(s, resp)
    case UpdateProfile => SettleUpdateProfile(s, resp)
  }

  function Apply(s: State, e: Event): State
  {
    match e
    case Begin(a) => Start(s, a)
    case End(a, resp) => Settle(s, a, resp).state
    case Logout(resp) => SettleLogout(s, resp).state
  }

  /** The state after the events of `t`, in order, starting from `s`. */
  function Run(s: State, t: seq<Event>): State
    decreases |t|
  {
    if |t| == 0 then s else Apply(Run(s, t[..|t| - 1]), t[|t| - 1])
  }

  predicate IsEnd(e: Event, a: Action)
  {
    e.End? && e.action == a
  }

  /** No settlement of `a` at or after position `k` of `t`. */
  ghost predicate NoEndFrom(t: seq<Event>, k: nat, a: Action)
  {
    forall j :: k <= j < |t| ==> !IsEnd(t[j], a)
  }

  /** Reference definition of "a's call is in flight after `t`": either the
      flag was up before and nothing in `t` settled `a`, or some start of `a`
      in `t` is followed by no settlement of `a`. */
  ghost predicate Pending(s: State, t: seq<Event>, a: Action)
  {
    (Flag(s, a) && NoEndFrom(t, 0, a))
    || exists i :: 0 <= i < |t| && t[i] == Begin(a) && NoEndFrom(t, i + 1, a)
  }

  /** The flags are plain booleans, not counters: a flag is up exactly when
      the call is pending in the sense above, so with two overlapping calls
      of one action the first settlement already brings the flag down. */
  lemma {:induction false} FlagIsPending(s: State, t: seq<Event>, a: Action)
    ensures Flag(Run(s, t), a) == Pending(s, t, a)
    decreases |t|
  {
    if |t| > 0 {
      var p := t[..|t| - 1];
      var e := t[|t| - 1];
      FlagIsPending(s, p, a);
      assert forall j :: 0 <= j < |p| ==> t[j] == p[j];
      if e == Begin(a) {
        assert NoEndFrom(t, |t|, a);
      } else if IsEnd(e, a) {
        assert !Flag(Run(s, t), a);
        forall i | 0 <= i < |t| ensures !NoEndFrom(t, i, a) {
          assert IsEnd(t[|t| - 1], a);
        }
      } else {
        assert Flag(Run(s, t), a) == Flag(Run(s, p), a);
        forall k | 0 <= k <= |p| ensures NoEndFrom(t, k, a) == NoEndFrom(p, k, a) {
          assert !IsEnd(t[|p|], a);
        }
        if Pending(s, p, a) {
          if !(Flag(s, a) && NoEndFrom(p, 0, a)) {
            var i :| 0 <= i < |p| && p[i] == Begin(a) && NoEndFrom(p, i + 1, a);
            assert t[i] == Begin(a) && NoEndFrom(t, i + 1, a);
          }
        }
      }
    }
  }

  /** A flag moves only on its own action's events: events of the other
      actions and logouts leave it where it was. */
  lemma {:induction false} FlagFrame(s: State, t: seq<Event>, a: Action)
    requires forall j :: 0 <= j < |t| ==> t[j] != Begin(a) && !IsEnd(t[j], a)
    ensures Flag(Run(s, t), a) == Flag(s, a)
    decreases |t|
  {
    if |t| > 0 {
      var p := t[..|t| - 1];
      assert forall j :: 0 <= j < |p| ==> p[j] == t[j];
      FlagFrame(s, p, a);
    }
  }

  /** Some settlement in `t` (not a logout) resolved with a body carrying `u`. */
  ghost predicate Delivered(t: seq<Event>, u: User)
  {
    exists i :: 0 <= i < |t| && t[i].End? && t[i].response == Ok(Body(Some(u)))
  }

  /** The store never invents a user: whoever is signed in after `t` was
      signed in before it or arrived in the body of a settled response. */
  lemma {:induction false} UserProvenance(s: State, t: seq<Event>, u: User)
    requires Run(s, t).authUser == Some(u)
    ensures s.authUser == Some(u) || Delivered(t, u)
    decreases |t|
  {
    if |t| > 0 {
      var p := t[..|t| - 1];
      var e := t[|t| - 1];
      var before := Run(s, p);
      assert forall j :: 0 <= j < |p| ==> p[j] == t[j];
      if before.authUser == Some(u) {
        UserProvenance(s, p, u);
        if !(s.authUser == Some(u)) {
          var i :| 0 <= i < |p| && p[i].End? && p[i].response == Ok(Body(Some(u)));
          assert t[i] == p[i];
        }
      } else {
        assert e.End?;
        assert e.response == Ok(Body(Some(u)));
      }
    }
  }

  /** Right after creation, the session check counts as pending until some
      checkAuth settles, even if checkAuth was never started. */
  lemma CheckingUntilFirstCheckSettles(t: seq<Event>)
    ensures Run(Initial(), t).isCheckingAuth <==>
              NoEndFrom(t, 0, CheckAuth)
              || exists i :: 0 <= i < |t| && t[i] == Begin(CheckAuth) && NoEndFrom(t, i + 1, CheckAuth)
  {
    FlagIsPending(Initial(), t, CheckAuth);
  }
}
