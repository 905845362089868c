/** What a handler sends back: a status, a JSON body and what it does to the
    `jwt` cookie; and a step of the session state machine (the response
    together with the collection after the request). */
module Http {
  import opened Common
  import opened UserModel

  datatype SameSite = SameSiteNone | SameSiteLax

  datatype CookieOptions = CookieOptions(httpOnly: bool, secure: bool, sameSite: SameSite, maxAgeMs: Option<nat>)

  datatype CookieEffect = NoCookie | SetJwt(value: string, options: CookieOptions) | ClearJwt(options: CookieOptions)

  /** One entry of express-validator's `errors.array()`. */
  datatype Issue = Issue(field: string, msg: string)

  datatype Body =
    | Message(text: string)
    | LoginResult(message: string, accessToken: string, user: PublicUser)
    | AccessResult(accessToken: string)
    | UserResult(message: string, user: PublicUser)
    | OneUser(user: PublicUser)
    | UserList(users: map<UserId, PublicUser>)
    | SchemaMessage
    | Errors(issues: seq<Issue>)

  datatype Response = Response(status: nat, body: Body, cookie: CookieEffect)

  datatype Step = Step(response: Response, store: Store)

  /** `res.status(status).json({ message })`. */
  function Reply(status: nat, text: string): Response {
    Response(status, Message(text), NoCookie)
  }

  /** The token a response sets as the `jwt` cookie; "" when it sets none. */
  function SetToken(r: Response): string {
    if r.cookie.SetJwt? then r.cookie.value else ""
  }

  const ServerError: string := "Server error"
  const InUse: string := "Username or Email already in use"
  const NotFound: string := "User not found"
}
