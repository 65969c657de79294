/** The authentication effects: error mapping, building the success action,
    saving and restoring the 'userData' record, arming and clearing the
    logout timer, and the navigations that follow. */
module AuthOrchestration {
  import opened Wrappers
  import opened AuthActions
  import opened UserModel
  import opened AuthTimer

  /** The identity endpoint's success body. `expiresIn` arrives as a string of
      seconds; here it is already a number. */
  datatype AuthResponse = AuthResponse(
    kind: string,
    idToken: string,
    email: string,
    refreshToken: string,
    expiresIn: nat,
    localId: string,
    registered: Option<bool>)

  /** The HTTP error response: `errorRes.error` is the body, whose `error`
      member carries the endpoint's `message` code. Each layer may be absent. */
  datatype ErrorDetail = ErrorDetail(message: Option<string>)
  datatype ErrorBody = ErrorBody(error: Option<ErrorDetail>)
  datatype ErrorEnvelope = ErrorEnvelope(error: Option<ErrorBody>)

  /** The two remote operations, and the body posted to each. */
  datatype Endpoint = SignupNewUser | VerifyPassword
  datatype AuthRequest = AuthRequest(endpoint: Endpoint, email: string, password: string, returnSecureToken: bool)

  /** What an effect hands back to the store: an auth action, or the
      `{type: "DUMMY"}` object that no reducer or effect reacts to. */
  datatype Emitted = Dispatch(action: Action) | Dummy

  type Route = string

  const Home: Route := "/"
  const AuthPage: Route := "/auth"
  const DummyType: string := "DUMMY"

  const UnknownErrorMessage: string := "An unknown error occurred!"

  /** The error taxonomy: endpoint code to user-facing message. */
  const ErrorMessages: map<string, string> := map[
    "EMAIL_EXISTS" := "This email exists already",
    "EMAIL_NOT_FOUND" := "This email does not exist.",
    "INVALID_PASSWORD" := "This password is not correct."
  ]

  /** The code at `errorRes.error.error.message`, when both outer layers and
      the message are there. */
  function ErrorCode(errorRes: ErrorEnvelope): Option<string> {
    if errorRes.error.Some? && errorRes.error.value.error.Some? then errorRes.error.value.error.value.message
    else None
  }

  /** `handleError`: always an Authenticate_fail; a known code gets its
      message from the taxonomy, everything else the default message. */
  function HandleError(errorRes: ErrorEnvelope): (r: Action)
    ensures r.AuthenticateFail?
    ensures ErrorCode(errorRes).Some? && ErrorCode(errorRes).value in ErrorMessages ==>
              r.message == ErrorMessages[ErrorCode(errorRes).value]
    ensures !(ErrorCode(errorRes).Some? && ErrorCode(errorRes).value in ErrorMessages) ==>
              r.message == UnknownErrorMessage
  {
    if errorRes.error.None? || errorRes.error.value.error.None? then
      AuthenticateFail(UnknownErrorMessage)
    else
      var message := errorRes.error.value.error.value.message;
      var errorMessage :=
        if message == Some("EMAIL_EXISTS") then "This email exists already"
        else if message == Some("EMAIL_NOT_FOUND") then "This email does not exist."
        else if message == Some("INVALID_PASSWORD") then "This password is not correct."
        else UnknownErrorMessage;
      AuthenticateFail(errorMessage)
  }

  /** Every failure message the user can see is one of four. */
  lemma ErrorMessageVocabulary(errorRes: ErrorEnvelope)
    ensures HandleError(errorRes).message in ErrorMessages.Values + {UnknownErrorMessage}
  {
  }

  /** The absolute expiry, in ms, of a token issued at `now`. */
  function ExpirationDate(resData: AuthResponse, now: int): (at: int)
    ensures at >= now
    ensures resData.expiresIn > 0 ==> at > now
  {
    now + resData.expiresIn * 1000
  }

  /** The User built, and saved, from a successful response. */
  function AuthenticatedUser(resData: AuthResponse, now: int): User {
    User(resData.email, resData.localId, resData.idToken, ExpirationDate(resData, now))
  }

  /** The success action `handleAuthentication` returns. */
  function SuccessAction(resData: AuthResponse, now: int): (a: Action)
    ensures a.AuthenticateSuccess? && a.success.redirect
    ensures a.success.email == resData.email && a.success.userId == resData.localId
    ensures a.success.token == resData.idToken
    ensures a.success.expirationDate == now + resData.expiresIn * 1000
  {
    var user := AuthenticatedUser(resData, now);
    AuthenticateSuccess(SuccessPayload(user.email, user.id, user.token, user.tokenExpirationDate, true))
  }

  /** The body posted by the signup and login effects. They differ only in
      the endpoint. */
  function RequestFor(endpoint: Endpoint, credentials: Credentials): (req: AuthRequest)
    ensures req.endpoint == endpoint && req.returnSecureToken
    ensures req.email == credentials.email && req.password == credentials.password
  {
    AuthRequest(endpoint, credentials.email, credentials.password, true)
  }

  /** What `authAutoLogin` emits for the stored record: DUMMY when there is
      none or the loaded user's token is falsy; otherwise a success built from
      the record, with `redirect = false`. */
  function AutoLoginOutcome(stored: Option<User>, getToken: TokenGetter, now: int): (e: Emitted)
    ensures stored.None? ==> e == Dummy
    ensures stored.Some? && !Truthy(getToken(stored.value, now)) ==> e == Dummy
    ensures stored.Some? && Truthy(getToken(stored.value, now)) ==>
              && e.Dispatch? && e.action.AuthenticateSuccess?
              && e.action.success == SuccessPayload(
                   stored.value.email, stored.value.id, getToken(stored.value, now).value,
                   stored.value.tokenExpirationDate, false)
  {
    match stored
    case None => Dummy
    case Some(loadedUser) =>
      var token := getToken(loadedUser, now);
      if Truthy(token) then
        Dispatch(AuthenticateSuccess(SuccessPayload(
          loadedUser.email, loadedUser.id, token.value, loadedUser.tokenExpirationDate, false)))
      else
        Dummy
  }

  /** The delay `authAutoLogin` arms the logout timer with, if it arms it:
      exactly when it emits a success, for the time left until the stored
      expiration. */
  function AutoLoginDelay(stored: Option<User>, getToken: TokenGetter, now: int): (d: Option<int>)
    ensures d.Some? <==> AutoLoginOutcome(stored, getToken, now).Dispatch?
    ensures d.Some? ==> stored.Some? && d.value == stored.value.tokenExpirationDate - now
  {
    match stored
    case None => None
    case Some(loadedUser) =>
      if Truthy(getToken(loadedUser, now)) then Some(loadedUser.tokenExpirationDate - now) else None
  }

  /** Where `authRedirect` navigates after a success action. */
  function RedirectTargets(payload: SuccessPayload): (r: seq<Route>)
    ensures |r| <= 1
    ensures r != [] <==> payload.redirect
    ensures forall i :: 0 <= i < |r| ==> r[i] == Home
  {
    if payload.redirect then [Home] else []
  }

  /** Round trip through storage: the record saved after a login at `t0`,
      restored at `t1` by a getter that yields its token, gives back the same
      email, user id, token and expiration as the login's success action,
      without redirect, and arms the timer for the time left. */
  lemma StoredRecordRoundTrip(resData: AuthResponse, t0: int, t1: int, getToken: TokenGetter)
    requires resData.idToken != ""
    requires getToken(AuthenticatedUser(resData, t0), t1) == Some(resData.idToken)
    ensures var restored := AutoLoginOutcome(Some(AuthenticatedUser(resData, t0)), getToken, t1);
      && restored.Dispatch?
      && restored.action == AuthenticateSuccess(SuccessAction(resData, t0).success.(redirect := false))
    ensures AutoLoginDelay(Some(AuthenticatedUser(resData, t0)), getToken, t1)
              == Some(ExpirationDate(resData, t0) - t1)
  {
  }

  /** An interactive login or signup navigates home; a restored session
      never navigates. */
  lemma OnlyInteractiveLoginRedirects(resData: AuthResponse, now: int, stored: Option<User>, getToken: TokenGetter, later: int)
    ensures RedirectTargets(SuccessAction(resData, now).success) == [Home]
    ensures var e := AutoLoginOutcome(stored, getToken, later);
      e.Dispatch? ==> RedirectTargets(e.action.success) == []
  {
  }

  /** The DUMMY object matches no effect's filter. */
  lemma DummyMatchesNoAction(a: Action)
    ensures !OfType(a, DummyType)
  {
  }

  /** The effects object: the 'userData' entry of local storage, the
      navigations made so far, and the AuthService it uses. */
  class AuthEffects {
    const authService: AuthService
    var userData: Option<User>
    var navigations: seq<Route>

    ghost predicate Valid()
      reads this, authService
    {
      authService.Valid()
    }

    constructor (service: AuthService, stored: Option<User>)
      requires service.Valid()
      ensures Valid()
      ensures authService == service && userData == stored && navigations == []
    {
      authService := service;
      userData := stored;
      navigations := [];
    }

    /** `handleAuthentication(resData)` at `now`: overwrites the stored record
      and returns the success action for the same user. */
    method HandleAuthentication(resData: AuthResponse, now: int) returns (action: Action)
      modifies this`userData
      ensures userData == Some(AuthenticatedUser(resData, now))
      ensures action == SuccessAction(resData, now)
      ensures action.success == SuccessPayload(
                userData.value.email, userData.value.id, userData.value.token,
                userData.value.tokenExpirationDate, true)
    {
      var expirationDate := now + resData.expiresIn * 1000;
      var user := User(resData.email, resData.localId, resData.idToken, expirationDate);
      userData := Some(user);
      action := AuthenticateSuccess(SuccessPayload(resData.email, resData.localId, resData.idToken, expirationDate, true));
    }

    /** The pipeline shared by signup and login, once the remote call has
      answered with `response`: on success arm the timer for `expiresIn`
      seconds and then save and return the success; on error leave the timer
      and storage alone and return `handleError`'s action. */
    method Authenticate(endpoint: Endpoint, credentials: Credentials,
                        response: Result<AuthResponse, ErrorEnvelope>, now: int)
      returns (request: AuthRequest, action: Action)
      requires Valid()
      modifies this`userData, authService
      ensures Valid() && navigations == old(navigations)
      ensures request == RequestFor(endpoint, credentials)
      ensures response.Success? ==>
                && authService.State() == Arm(old(authService.State()), response.value.expiresIn * 1000, now)
                && userData == Some(AuthenticatedUser(response.value, now))
                && action == SuccessAction(response.value, now)
      ensures response.Failure? ==>
                && authService.State() == old(authService.State())
                && userData == old(userData)
                && action == HandleError(response.error)
    {
      request := AuthRequest(endpoint, credentials.email, credentials.password, true);
      match response {
        case Success(resData) =>
          authService.SetLogoutTimer(resData.expiresIn * 1000, now);
          action := HandleAuthentication(resData, now);
        case Failure(errorRes) =>
          action := HandleError(errorRes);
      }
    }

    /** `authSignup` for a SignupStart payload. */
    method AuthSignup(payload: Credentials, response: Result<AuthResponse, ErrorEnvelope>, now: int)
      returns (request: AuthRequest, action: Action)
      requires Valid()
      modifies this`userData, authService
      ensures Valid() && navigations == old(navigations)
      ensures request == RequestFor(SignupNewUser, payload)
      ensures response.Success? ==>
                && authService.State() == Arm(old(authService.State()), response.value.expiresIn * 1000, now)
                && userData == Some(AuthenticatedUser(response.value, now))
                && action == SuccessAction(response.value, now)
      ensures response.Failure? ==>
                && authService.State() == old(authService.State())
                && userData == old(userData)
                && action == HandleError(response.error)
    {
      request, action := Authenticate(SignupNewUser, payload, response, now);
    }

    /** `authLogin` for a LoginStart payload. */
    method AuthLogin(payload: Credentials, response: Result<AuthResponse, ErrorEnvelope>, now: int)
      returns (request: AuthRequest, action: Action)
      requires Valid()
      modifies this`userData, authService
      ensures Valid() && navigations == old(navigations)
      ensures request == RequestFor(VerifyPassword, payload)
      ensures response.Success? ==>
                && authService.State() == Arm(old(authService.State()), response.value.expiresIn * 1000, now)
                && userData == Some(AuthenticatedUser(response.value, now))
                && action == SuccessAction(response.value, now)
      ensures response.Failure? ==>
                && authService.State() == old(authService.State())
                && userData == old(userData)
                && action == HandleError(response.error)
    {
      request, action := Authenticate(VerifyPassword, payload, response, now);
    }

    /** `authAutoLogin` at `now`: reads the record, arms the timer when it
      restores a session, and never writes storage or navigates. */
    method AuthAutoLogin(getToken: TokenGetter, now: int) returns (out: Emitted)
      requires Valid()
      modifies authService
      ensures Valid()
      ensures out == AutoLoginOutcome(userData, getToken, now)
      ensures AutoLoginDelay(userData, getToken, now).Some? ==>
                authService.State() == Arm(old(authService.State()), AutoLoginDelay(userData, getToken, now).value, now)
      ensures AutoLoginDelay(userData, getToken, now).None? ==>
                authService.State() == old(authService.State())
    {
      if userData.None? {
        return Dummy;
      }
      var loadedUser := userData.value;
      var token := getToken(loadedUser, now);
      if Truthy(token) {
        var expirationDuration := loadedUser.tokenExpirationDate - now;
        authService.SetLogoutTimer(expirationDuration, now);
        out := Dispatch(AuthenticateSuccess(SuccessPayload(
          loadedUser.email, loadedUser.id, token.value, loadedUser.tokenExpirationDate, false)));
      } else {
        out := Dummy;
      }
    }

    /** `authRedirect` for a success action. */
    method AuthRedirect(payload: SuccessPayload)
      modifies this`navigations
      ensures navigations == old(navigations) + RedirectTargets(payload)
    {
      if payload.redirect {
        navigations := navigations + [Home];
      }
    }

    /** `authLogout`: whatever the prior state, clear the timer, remove the
      record and navigate to the auth page. */
    method AuthLogout()
      requires Valid()
      modifies this`userData, this`navigations, authService
      ensures Valid()
      ensures authService.State() == Clear(old(authService.State()))
      ensures authService.State().current == None
      ensures userData == None
      ensures navigations == old(navigations) + [AuthPage]
    {
      authService.ClearLogoutTimer();
      userData := None;
      navigations := navigations + [AuthPage];
    }
  }

  /** A login answered with a one-hour token: the record, the success action
      and the armed timer agree; the timer then fires, and the Logout it
      dispatches clears the session. */
  method LoginThenExpiryScenario(now: int) {
    var service := new AuthService();
    var effects := new AuthEffects(service, None);
    var response := AuthResponse("identitytoolkit#VerifyPasswordResponse", "T1", "a@b.com", "R1", 3600, "U1", Some(true));
    var request, action := effects.AuthLogin(Credentials("a@b.com", "pw"), Success(response), now);
    assert request.endpoint == VerifyPassword;
    assert action == AuthenticateSuccess(SuccessPayload("a@b.com", "U1", "T1", now + 3600000, true));
    assert effects.userData == Some(User("a@b.com", "U1", "T1", now + 3600000));
    assert service.pending == map[1 := now + 3600000] && service.tokenExpirationTimer == Some(1);

    effects.AuthRedirect(action.success);
    assert effects.navigations == [Home];

    var early := service.Fire(1, now + 3599999);
    assert !early && service.dispatched == [];
    var fired := service.Fire(1, now + 3600000);
    assert fired && service.dispatched == [Logout];

    effects.AuthLogout();
    assert effects.userData == None && service.pending == map[] && service.tokenExpirationTimer == None;
    assert effects.navigations == [Home, AuthPage];
  }

  /** A login rejected for a wrong password: the mapped message, no timer,
      no record. */
  method WrongPasswordScenario(now: int) {
    var service := new AuthService();
    var effects := new AuthEffects(service, None);
    var errorRes := ErrorEnvelope(Some(ErrorBody(Some(ErrorDetail(Some("INVALID_PASSWORD"))))));
    var _, action := effects.AuthLogin(Credentials("a@b.com", "pw"), Failure(errorRes), now);
    assert action == AuthenticateFail("This password is not correct.");
    assert service.pending == map[] && effects.userData == None;
  }
}
