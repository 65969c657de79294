# Authentication core of the NgRx recipe book, in Dafny

This project models the session logic of an Angular/NgRx recipe application:

- the seven authentication actions and their type tags;
- the logout timer that `AuthService` keeps;
- the authentication effects: login, signup, auto-login from the `userData` record in local storage, redirect after success, and logout;
- the HTTP interceptor that adds the token to every request;
- the normalisation of fetched recipes.

The frameworks are replaced by explicit state:

- Local storage is an `Option<User>` field (`AuthEffects.userData`).
- The router is a recorded list of targets (`AuthEffects.navigations`).
- The browser's timer queue is a map from handle to deadline (`AuthService.pending`).
- `store.dispatch` is a log of dispatched actions (`AuthService.dispatched`).
- The clock is an integer `now` in milliseconds, passed in.
- The remote identity call is an input `Result<AuthResponse, ErrorEnvelope>`.

Modules, one per source file:

- `AuthActions` (`auth.actions.ts`): the `Action` datatype, the type constants, and NgRx's `ofType` filter.
- `AuthTimer` (`auth.service.ts`): the class `AuthService`. Its methods are specified by pure functions over the value `Timers` (`Arm`, `Clear`, `FireAt`). Lemmas about sequences of timer steps (`Run`) sit beside it.
- `AuthOrchestration` (`auth.effects.ts`): `HandleError` and the other pure rules, and the class `AuthEffects`. That class holds the storage and navigation state and a reference to the `AuthService`. Its methods are the effects.
- `AuthInterceptor` (`auth-interceptor.service.ts`): the pure `Intercept` decision.
- `RecipeEffects` (`recipe.effects.ts`): `Normalize` and `FetchRecipes`.
- `UserModel` holds the `User` fields and the abstract `token` getter. `Wrappers` holds `Option` and `Result`.

The `User` class (src/app/auth/user.model.ts) is not part of this model. Its `token` getter decides whether a restored session counts. The effects and the interceptor take that getter as a parameter, `TokenGetter = (User, int) -> Option<string>`, and apply it to the user and the current instant. The two use its result differently:

- Auto-login goes on only when the result is truthy: neither null nor `''` (auth.effects.ts:110).
- The interceptor attaches whatever the getter returns, null or `''` included, without looking at it (auth-interceptor.service.ts:35).

The model follows the code at five points where a careful session design would behave differently:

- **Arming does not cancel.** One would expect arming the logout timer to cancel the earlier one. `setLogoutTimer` only overwrites the handle field. An earlier timer stays pending and can still dispatch `Logout` (`RearmLeavesEarlierTimerPending`).
- **Expired records on restore.** One would expect a record whose expiration has passed to be ignored on restore. The code only checks the truthiness of the getter's token. If the getter still yields a token, the timer is armed with a negative delay, which fires at once.
- **Order of the success steps.** One would expect the record to be stored before the timer is armed. The code arms the timer first (the `tap`) and then saves the record and builds the action (`handleAuthentication`).
- **No e-mail check.** The effects accept an empty e-mail. Only the form rejects one.
- **Empty token.** One would expect a restore with an empty stored `_token` to change nothing. The code asks the getter, not the stored field.

Two methods of the `AuthOrchestration` module are worked examples. They state no contract of their own; their assertions follow from the contracts above:

- `LoginThenExpiryScenario`: a login stores the record, arms timer 1 and redirects to '/'. The timer does not fire one millisecond early. At its deadline it dispatches exactly one `Logout`. Logging out then empties storage and navigates to '/auth'.
- `WrongPasswordScenario`: a login answered with INVALID_PASSWORD gives the mapped failure message, arms no timer and stores nothing.

## Model

| member | source | states |
|---|---|---|
| AuthActions.TypeOf | src/app/auth/store/auth.actions.ts:15-84 | every action object carries the fixed type constant of its class (Logout has '[Auth] Logout', and so on for all seven), which is one of the seven constants |
| AuthActions.TypesDistinct | src/app/auth/store/auth.actions.ts:3-9 | the union has exactly seven type constants, and they are pairwise distinct |
| AuthActions.OfTypeSelectsVariant | src/app/auth/store/auth.effects.ts:82 | an effect filtering with `ofType` on one constant sees exactly the actions of that variant, for each of the seven |
| AuthTimer.Deadline | src/app/auth/auth.service.ts:31-33 | a callback scheduled at `now` with delay `d` is due at `now + d` when `d >= 0` and at `now` when `d < 0`; it is never due before `now` |
| AuthTimer.Arm | src/app/auth/auth.service.ts:29-35 | setLogoutTimer schedules exactly one new timer, due after the delay, and stores its handle as current; every earlier pending timer stays pending with its deadline; nothing is dispatched |
| AuthTimer.Clear | src/app/auth/auth.service.ts:40-45 | clearLogoutTimer cancels the stored timer if there is one, keeps every other pending timer, and always leaves the handle null |
| AuthTimer.FireAt | src/app/auth/auth.service.ts:31-33 | a due timer's callback appends exactly one Logout to the log and removes that timer; the handle field, the handle counter and the other timers with their deadlines are untouched; a timer that is not pending or not yet due does nothing |
| AuthTimer.ClearIdempotent | src/app/auth/auth.service.ts:41-44 | clearing twice equals clearing once; clearing with no stored handle changes nothing |
| AuthTimer.RearmLeavesEarlierTimerPending | src/app/auth/auth.service.ts:31 | after two setLogoutTimer calls and a clearLogoutTimer, the first timer is still pending and still dispatches Logout when due |
| AuthTimer.Run | src/app/auth/auth.service.ts:29-45 | any sequence of setLogoutTimer calls, clearLogoutTimer calls and callbacks keeps every stored and pending handle one already issued, and never issues a handle twice |
| AuthTimer.CancelledNeverFires | src/app/auth/auth.service.ts:42 | a timer that was cancelled or has fired never becomes pending again, so it never fires, whatever sequence of arm, clear and fire steps follows |
| AuthTimer.OnlyLogoutDispatched | src/app/auth/auth.service.ts:31-33 | over any sequence of steps the dispatched log only grows, and only by Logout actions |
| AuthTimer.LogoutAtMostOncePerTimer | src/app/auth/auth.service.ts:29-35 | over any sequence of steps, Logouts dispatched plus timers still pending never exceed the timers pending before plus the timers armed: each timer fires at most once |
| AuthTimer.AuthService.constructor | src/app/auth/auth.service.ts:20-24 | a new service has no pending timer, a null handle and an empty dispatch log |
| AuthTimer.AuthService.SetLogoutTimer | src/app/auth/auth.service.ts:29-35 | the service's new state is `Arm` of its old state |
| AuthTimer.AuthService.ClearLogoutTimer | src/app/auth/auth.service.ts:40-45 | the service's new state is `Clear` of its old state |
| AuthTimer.AuthService.Fire | src/app/auth/auth.service.ts:31-33 | the callback of a timer runs exactly when it is pending and due, and the new state is `FireAt` of the old one |
| AuthOrchestration.HandleError | src/app/auth/store/auth.effects.ts:44-65 | always an Authenticate_fail; the default message when `error` or `error.error` is absent; EMAIL_EXISTS, EMAIL_NOT_FOUND and INVALID_PASSWORD get their messages from the taxonomy table; any other code gets the default |
| AuthOrchestration.ErrorMessageVocabulary | src/app/auth/store/auth.effects.ts:46-60 | every failure message is one of the three mapped messages or 'An unknown error occurred!' |
| AuthOrchestration.ExpirationDate | src/app/auth/store/auth.effects.ts:30 | the expiration instant is never before `now`, and is strictly after it when `expiresIn` is positive |
| AuthOrchestration.SuccessAction | src/app/auth/store/auth.effects.ts:35-41 | the success action has the response's email, `userId = localId`, `token = idToken`, `expirationDate = now + expiresIn*1000` and `redirect = true` |
| AuthOrchestration.RequestFor | src/app/auth/store/auth.effects.ts:150-154 | the posted body carries the payload's email and password, `returnSecureToken = true`, and the chosen endpoint; signup and login posts differ only in the endpoint |
| AuthOrchestration.AutoLoginOutcome | src/app/auth/store/auth.effects.ts:86-135 | DUMMY when no record is stored or the loaded user's token is falsy; otherwise a success with the stored email, id and stored expiration, the getter's token, and `redirect = false` |
| AuthOrchestration.AutoLoginDelay | src/app/auth/store/auth.effects.ts:110-120 | auto-login arms the timer exactly when it emits a success, for the stored expiration minus `now` |
| AuthOrchestration.RedirectTargets | src/app/auth/store/auth.effects.ts:236-240 | a success action navigates to '/' exactly when `redirect` is true, and nowhere otherwise |
| AuthOrchestration.StoredRecordRoundTrip | src/app/auth/store/auth.effects.ts:86-130 | a record written by handleAuthentication and restored later gives back the same email, user id, token and expiration as the login's success, with `redirect = false`, and arms the timer for the time left |
| AuthOrchestration.OnlyInteractiveLoginRedirects | src/app/auth/store/auth.effects.ts:236-240 | the success of a login or signup navigates to '/', and a success from auto-login never navigates |
| AuthOrchestration.DummyMatchesNoAction | src/app/auth/store/auth.effects.ts:98 | the DUMMY type is none of the seven action types, so nothing reacts to it |
| AuthOrchestration.AuthEffects.constructor | src/app/auth/store/auth.effects.ts:70-76 | the effects start with the given service and stored record and no navigation |
| AuthOrchestration.AuthEffects.HandleAuthentication | src/app/auth/store/auth.effects.ts:28-42 | the single `userData` record is replaced by the response's user, and the returned success carries the same fields as that record, with `redirect = true` |
| AuthOrchestration.AuthEffects.Authenticate | src/app/auth/store/auth.effects.ts:155-176 | on success the timer is armed for `expiresIn*1000` and then the record is saved and the success returned; on error no timer is armed, storage is untouched and handleError's action is returned; nothing navigates |
| AuthOrchestration.AuthEffects.AuthSignup | src/app/auth/store/auth.effects.ts:140-181 | posts the signup body to signupNewUser and behaves as `Authenticate` on the answer |
| AuthOrchestration.AuthEffects.AuthLogin | src/app/auth/store/auth.effects.ts:189-228 | posts the login body to verifyPassword and behaves as `Authenticate` on the answer |
| AuthOrchestration.AuthEffects.AuthAutoLogin | src/app/auth/store/auth.effects.ts:80-137 | emits `AutoLoginOutcome` of the stored record, arms the timer for `AutoLoginDelay` when that is present and leaves it alone otherwise, and never writes storage |
| AuthOrchestration.AuthEffects.AuthRedirect | src/app/auth/store/auth.effects.ts:233-243 | records a navigation to '/' exactly when the success has `redirect` set |
| AuthOrchestration.AuthEffects.AuthLogout | src/app/auth/store/auth.effects.ts:249-261 | whatever the prior state, the timer is cleared and the handle nulled, `userData` is removed, and '/auth' is navigated to |
| AuthInterceptor.Intercept | src/app/auth/auth-interceptor.service.ts:18-42 | with no user the request is forwarded unchanged; with a user its params are exactly `{auth: [user.token]}`; every field other than params is preserved |
| AuthInterceptor.ParamsReplaced | src/app/auth/auth-interceptor.service.ts:34-36 | with a user, existing params are replaced, not merged: `auth` is the only parameter and has one value |
| AuthInterceptor.DependsOnlyOnUser | src/app/auth/auth-interceptor.service.ts:23-26 | two auth states with the same user give the same forwarded request; `authError` and `loading` are ignored |
| RecipeEffects.WithIngredients | src/app/recipes/store/recipe.effects.ts:25-28 | a recipe keeps its ingredients when present, otherwise gets `[]`; every other property is unchanged |
| RecipeEffects.Normalize | src/app/recipes/store/recipe.effects.ts:21-29 | the normalised list has the same length and order, each element being its input recipe with ingredients defaulted |
| RecipeEffects.NormalizeKeepsRecipes | src/app/recipes/store/recipe.effects.ts:26-27 | every normalised recipe has ingredients and the other properties of its input; one that had ingredients is unchanged |
| RecipeEffects.NormalizeFixesComplete | src/app/recipes/store/recipe.effects.ts:27 | a list whose recipes all have ingredients is left unchanged |
| RecipeEffects.NormalizeIdempotent | src/app/recipes/store/recipe.effects.ts:25-28 | normalising twice equals normalising once |
| RecipeEffects.FetchRecipes | src/app/recipes/store/recipe.effects.ts:21-34 | the fetched list becomes exactly one SetRecipes action carrying `Normalize` of it: same length, every recipe with ingredients and its other properties, and a recipe that had ingredients unchanged |

## Left out

- HTTP transport: the `http.post`/`get`/`put` calls, the endpoint URLs, the API key and `storeRecipes`. A remote result is an input value; only the endpoint and the posted body are kept.
- RxJS and NgRx plumbing. The model does not capture:
  - `switchMap` dropping an in-flight login when a new one starts;
  - `exhaustMap` and the `take(1)` subscription of the interceptor, which the model reduces to one state snapshot and one forwarded request;
  - `@Effect` auto-dispatch and `dispatch: false`.
  Each effect is a method that returns what it would emit.
- Real time. The model has no `new Date()` and no real timer. Time is an integer number of milliseconds.
- AuthTimer.Deadline: treats a negative delay as zero. It does not model the browser firing at once for delays above 2147483647 ms, because that conversion is the browser's, not the application's.
- String and JSON conversion. The `+resData.expiresIn` parse is left out: `expiresIn` is a `nat`. The ISO text of `_tokenExpirationDate` is modelled as its millisecond value. A malformed `userData` string, on which `JSON.parse` throws, is left out: storage holds a record or nothing.
- The `User` class and its `token` getter. The getter is a parameter; its logic is not visible.
- The auth reducer (`loading`, `authError`, `user` transitions), `ClearError`'s handling and the recipe actions. These files are not part of this model. `ClearError` and `Authenticate_fail` reach only the reducer.
- A `null` body from the recipes database, on which `recipes.map` throws. The fetched list is always a list.
- The router. Navigation is recorded as a target string.
- `src/app/auth/auth.component.ts`: form handling, alert creation and subscriptions. It is UI, with no rule beyond choosing LoginStart or SignupStart.
- The race between a pending login and a logout. Ordering of asynchronous completions is not modelled.
