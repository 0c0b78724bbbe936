/** The entities exchanged by the authentication flow (src/types/auth.ts). */
module AuthTypes {

  /** Absence of a value: JavaScript's `undefined` / `null`. */
  datatype Option<+T> = None | Some(value: T)

  /** A user identifier. The source assigns both strings (`'1'`) and numbers (`0`, or a JWT `sub`). */
  datatype Id = NumId(n: int) | TextId(s: string)

  /**
   * A user. `email` is optional because a user decoded from a token copies the `email`
   * claim without a default, so a token without that claim yields an undefined email.
   */
  datatype User = User(id: Id, email: Option<string>, firstName: string, lastName: string)

  datatype LoginCredentials = LoginCredentials(email: string, password: string)

  datatype RegisterCredentials =
    RegisterCredentials(email: string, firstName: string, lastName: string, password: string)

  /** The outcome of `login` and `register`; `token`, `user` and `message` are optional fields. */
  datatype AuthResponse =
    AuthResponse(success: bool, token: Option<string>, user: Option<User>, message: Option<string>)
}
