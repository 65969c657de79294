/** The logged-in user as the effects and the interceptor see it. The class
    that defines it (src/app/auth/user.model.ts) is not part of this model:
    only its four constructor fields are used, and its `token` getter is kept
    abstract, as a function the caller supplies. */
module UserModel {
  import opened Wrappers

  /** `new User(email, id, _token, _tokenExpirationDate)`. The same four
      fields, under the same names, make up the JSON record saved under the
      storage key 'userData'; the expiration is an instant in milliseconds. */
  datatype User = User(email: string, id: string, token: string, tokenExpirationDate: int)

  /** The `token` getter of a User object at a given instant. Its logic (an
      expiry check, say) is not visible, so it is a parameter; `None` stands
      for a null result. */
  type TokenGetter = (User, int) -> Option<string>

  /** JavaScript truthiness of a getter result: null and '' are falsy. */
  predicate Truthy(t: Option<string>) {
    t.Some? && t.value != ""
  }
}
