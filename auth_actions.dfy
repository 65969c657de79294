/** The action vocabulary of the authentication store: seven action kinds,
    each with a fixed type tag and its payload. */
module AuthActions {

  // The type tags. NgRx reducers and effects select actions by comparing
  // these strings.
  const LoginStartType: string := "[Auth] Login start"
  const AuthenticateSuccessType: string := "[Auth] Login"
  const AuthenticateFailType: string := "[Auth] Login fail"
  const SignupStartType: string := "[Auth] Signup Start"
  const LogoutType: string := "[Auth] Logout"
  const ClearErrorType: string := "[Auth] Clear Error"
  const AutoLoginType: string := "[Auth] Auto Login"

  /** The `{email, password}` payload of a login or signup request. */
  datatype Credentials = Credentials(email: string, password: string)

  /** The payload of a successful authentication; `expirationDate` is an
      absolute instant in milliseconds. */
  datatype SuccessPayload = SuccessPayload(
    email: string,
    userId: string,
    token: string,
    expirationDate: int,
    redirect: bool)

  /** The `AuthActions` union. */
  datatype Action =
    | AuthenticateSuccess(success: SuccessPayload)
    | LoginStart(credentials: Credentials)
    | AuthenticateFail(message: string)
    | Logout
    | SignupStart(credentials: Credentials)
    | ClearError
    | AutoLogin

  /** The seven type constants, in the order of the union. */
  const Types: seq<string> := [
    AuthenticateSuccessType, LoginStartType, AuthenticateFailType, LogoutType,
    SignupStartType, ClearErrorType, AutoLoginType
  ]

  /** The readonly `type` field of an action object: every object of a class
      carries that class's constant. */
  function TypeOf(a: Action): (t: string)
    ensures t in Types
    ensures a.Logout? ==> t == LogoutType
    ensures a.LoginStart? ==> t == LoginStartType
    ensures a.SignupStart? ==> t == SignupStartType
    ensures a.AutoLogin? ==> t == AutoLoginType
    ensures a.ClearError? ==> t == ClearErrorType
    ensures a.AuthenticateSuccess? ==> t == AuthenticateSuccessType
    ensures a.AuthenticateFail? ==> t == AuthenticateFailType
  {
    match a
    case AuthenticateSuccess(_) => AuthenticateSuccessType
    case LoginStart(_) => LoginStartType
    case AuthenticateFail(_) => AuthenticateFailType
    case Logout => LogoutType
    case SignupStart(_) => SignupStartType
    case ClearError => ClearErrorType
    case AutoLogin => AutoLoginType
  }

  /** NgRx's `ofType(t)` filter: whether an effect listening for `t` sees `a`. */
  predicate OfType(a: Action, t: string) {
    TypeOf(a) == t
  }

  /** The union has exactly seven variants, with seven pairwise distinct
      type constants. */
  lemma TypesDistinct()
    ensures |Types| == 7
    ensures forall i, j :: 0 <= i < j < |Types| ==> Types[i] != Types[j]
  {
  }

  /** An effect filtering on one variant's constant sees exactly the actions
      of that variant. */
  lemma OfTypeSelectsVariant(a: Action)
    ensures OfType(a, AuthenticateSuccessType) <==> a.AuthenticateSuccess?
    ensures OfType(a, LoginStartType) <==> a.LoginStart?
    ensures OfType(a, AuthenticateFailType) <==> a.AuthenticateFail?
    ensures OfType(a, LogoutType) <==> a.Logout?
    ensures OfType(a, SignupStartType) <==> a.SignupStart?
    ensures OfType(a, ClearErrorType) <==> a.ClearError?
    ensures OfType(a, AutoLoginType) <==> a.AutoLogin?
  {
  }
}
