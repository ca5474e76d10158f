# Client session store of the chat app, in Dafny

This project models the browser-side auth store of the chat application
(`client/src/store/useAuthStore.ts`). The store holds the signed-in user
(`authUser`, possibly absent) and four in-flight flags: `isCheckingAuth`,
`isSigningUp`, `isLoggingIn` and `isUpdatingProfile`. It has five actions.
`checkAuth`, `signup`, `login` and `updateProfile` each raise their flag,
await one HTTP call, set `authUser` from the outcome and then clear the flag
in a `finally`. `logout` awaits its call without raising a flag.

The awaited HTTP call is replaced by a parameter, the `Response`. A response
is either `Ok(body)` or `Err(ErrorSchema)`, where the body is JSON `null` or an
object whose `user` field may be absent. Each flagged action becomes two
steps:
- a start step, where the flag goes up;
- a settle step, where the response arrives, `authUser` and the resolved value
  are computed, the notification text is chosen and the flag comes down.

No `await` separates the `set` calls inside one settle step, so that step is
atomic.

- `AuthTypes.dfy`: the value types (user record, error envelope, response,
  notification, the four flagged actions).
- `AuthSpec.dfy`: the store's fields as a value `State`, one function per
  step, the run of a sequence of steps, and lemmas about whole runs.
- `AuthStore.dfy`: class `Store`, whose fields the methods update in place.
  Each method's contract states the new fields directly and ties them to the
  matching function of `AuthSpec`. The file ends with client methods for the
  store's intended scenarios.

Points where the code is followed literally:
- `signup`, `login` and `updateProfile` assign `data.user` verbatim. A body
  without `user` therefore sets `authUser` to none while still reporting
  success.
- Reading `data.user` on a `null` body throws inside the `try`, so those three
  actions take their failure path. `checkAuth` reads `data?.user` and does not
  throw. `logout` ignores the body.
- The server's profile update answers with the user document itself, not
  with `{ user }`. The client as written therefore reads an absent `user`. The
  model keeps the client's reading and does not reconcile the two.
- A comment in `checkAuth`'s catch block says not to clear the user unless the
  session is invalid. The code clears it on every rejection, and the model
  follows the code.
- The flags are booleans, not counters. With two overlapping calls of the same
  action, the first settlement clears the flag (`FlagIsPending`,
  `OverlappingLogins`).

## Model

| member | source | states |
|---|---|---|
| AuthSpec.Initial | client/src/store/useAuthStore.ts:55-62 | a fresh store has no user, the checking flag up and the other three flags down |
| AuthSpec.Start | client/src/store/useAuthStore.ts:65-66 | starting an action raises its own flag and changes neither the user nor any other flag (the same `set` opens signup at line 98, login at 125 and updateProfile at 175) |
| AuthSpec.SettleCheckAuth | client/src/store/useAuthStore.ts:68-93 | resolves true exactly when the response carries a user, and that user is then signed in; a missing user, a null body or a rejection signs out and resolves false; no notification; the checking flag ends down and the other flags are untouched |
| AuthSpec.SettleSignup | client/src/store/useAuthStore.ts:100-120 | a readable body signs in its `user` field verbatim and resolves true with "Account created successfully!"; every failure signs out, resolves false and shows "Signup failed"; only the signing-up flag changes and it ends down |
| AuthSpec.SettleLogin | client/src/store/useAuthStore.ts:127-149 | as signup with the logging-in flag; every failure, whatever the error, shows "Invalid email or password" |
| AuthSpec.SettleLogout | client/src/store/useAuthStore.ts:153-171 | a resolved logout signs out and resolves true with "Logged out successfully"; a rejected one keeps the user, resolves false and shows "Logout failed"; no flag changes |
| AuthSpec.SettleUpdateProfile | client/src/store/useAuthStore.ts:174-193 | a readable body replaces the user with its `user` field verbatim; a failure keeps the user and shows "Profile update failed"; resolves to nothing; the updating flag ends down and the other flags are untouched |
| AuthSpec.Settle | client/src/store/useAuthStore.ts:91-93 | settling any flagged action releases its flag on every path, leaves the other flags alone, and leaves the old user, no user, or the user the response delivered |
| AuthSpec.FlagIsPending | client/src/store/useAuthStore.ts:64-193 | after any sequence of steps a flag is up exactly when its last start has had no settlement of the same action since, or it was up before and nothing settled that action; so the first of two overlapping settlements already clears it |
| AuthSpec.FlagFrame | client/src/store/useAuthStore.ts:64-193 | steps of the other actions and logouts never move an action's flag |
| AuthSpec.UserProvenance | client/src/store/useAuthStore.ts:64-193 | the user signed in after any sequence of steps was signed in before or came in the body of a settled response: the store never invents a user |
| AuthSpec.CheckingUntilFirstCheckSettles | client/src/store/useAuthStore.ts:58 | from a fresh store the checking flag stays up until some checkAuth settles, and afterwards is up exactly while a later-started check is unsettled |
| AuthStore.Store.constructor | client/src/store/useAuthStore.ts:55-62 | the object's fields start at the initial state |
| AuthStore.Store.StartCheckAuth | client/src/store/useAuthStore.ts:66 | the checking flag is up while the call is in flight; nothing else changes |
| AuthStore.Store.SettleCheckAuth | client/src/store/useAuthStore.ts:68-93 | the new fields and the resolved value agree with the checkAuth settle function; never fails outward |
| AuthStore.Store.StartSignup | client/src/store/useAuthStore.ts:98 | the signing-up flag is up; nothing else changes |
| AuthStore.Store.SettleSignup | client/src/store/useAuthStore.ts:100-120 | fields, result and notification agree with the signup settle function |
| AuthStore.Store.StartLogin | client/src/store/useAuthStore.ts:125 | the logging-in flag is up; nothing else changes |
| AuthStore.Store.SettleLogin | client/src/store/useAuthStore.ts:127-149 | fields, result and notification agree with the login settle function |
| AuthStore.Store.Logout | client/src/store/useAuthStore.ts:153-171 | fields, result and notification agree with the logout function; no flag changes |
| AuthStore.Store.StartUpdateProfile | client/src/store/useAuthStore.ts:175 | the updating flag is up; nothing else changes |
| AuthStore.Store.SettleUpdateProfile | client/src/store/useAuthStore.ts:176-192 | fields and notification agree with the updateProfile settle function |
| AuthStore.FreshCheckWithoutUser | client/src/store/useAuthStore.ts:77-79 | a fresh store whose first check gets no user stays signed out, resolves false and ends with the checking flag down |
| AuthStore.RejectedLogin | client/src/store/useAuthStore.ts:135-148 | a rejected login signs out, resolves false, shows the generic text and ends with the flag down |
| AuthStore.AcceptedSignup | client/src/store/useAuthStore.ts:101-107 | an accepted signup signs in exactly the returned user and resolves true |
| AuthStore.RejectedLogout | client/src/store/useAuthStore.ts:161-169 | a rejected logout after a login keeps the signed-in user and resolves false |
| AuthStore.OverlappingLogins | client/src/store/useAuthStore.ts:124-149 | with two overlapping logins the flag is already down after the first settlement, and the later settlement decides the user |

## Left out

- The HTTP transport (axios) is left out. Every awaited call is a `Response` parameter, and the request bodies (form data, profile fields) are not modelled because the store does not inspect them.
- Notifications (`toast`) are modelled only as the chosen success or error text, returned as a value. How they are presented is not modelled.
- The `console.log` error-message extraction in each catch block only logs, so it is left out.
- The zustand `create`/`devtools`/`set` machinery is left out. Each `set` is a field assignment on the `Store` object.
- Real asynchrony and timeouts are left out. Interleavings are modelled only as sequences of start and settle steps. A call that never settles is a start with no settlement.
- Thrown values that are not HTTP errors (such as the TypeError from `data.user` on a `null` body) are not carried as values. The store ignores them apart from logging.
- Truthiness of a `user` field that is present but not an object (an empty string, say) is not modelled. The field is either a user record or absent.
- The server controllers (`server/src/controller/*.js`) are database, media-upload and validation I/O, so they are left out.
- The pages (`client/src/App.tsx`, `client/src/pages/*.tsx`) are UI and routing, so they are left out.
