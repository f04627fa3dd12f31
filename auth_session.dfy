/**
  The authentication session of the face-wallet web client, as values.

  An `AuthState` holds the three fields of the `auth` store (`token`, `user`,
  `userForVerification`) together with the two shared maps the store writes
  through to: the browser's persisted storage and the default header map of
  the shared HTTP client. Every store action is a function from the state
  before it (and, for an action that calls the server, the outcome of that
  call) to a `Transition`: the state after it, whether it completed or
  threw, and the request it posted.
*/
module AuthSession {

  datatype Option<T> = None | Some(value: T)

  /** The signed-in user, `{id, email}`, as the store keeps it after a login. */
  datatype Identity = Identity(id: int, email: string)

  /** The body of a successful reply to `POST /auth/login/`. */
  datatype LoginData = LoginData(token: string, userId: int, email: string)

  /** An error raised by the HTTP client: a non-2xx reply or a transport failure. */
  datatype RemoteError = RemoteError(detail: string)

  /** What one call to the server resolved to. */
  datatype Outcome<T> = Success(data: T) | Failure(error: RemoteError)

  /** What an action throws: the client's error, rethrown unchanged, or the
      local error of a phone verification with nobody to verify. */
  datatype Error = Remote(cause: RemoteError) | NoPendingVerification

  datatype Status = Completed | Threw(error: Error)

  /** A JSON object or multipart form, as field names to values. */
  type Payload = map<string, string>

  /** A `POST` to the server; `multipart` marks a form-data body. */
  datatype Request = Request(path: string, body: Payload, multipart: bool)

  /** How `user` is written to and read back from string-valued storage
      (JSON.stringify and JSON.parse in the client; `parse` answers None
      for a value that reads back as null). */
  datatype UserCodec = UserCodec(stringify: Identity -> string, parse: string -> Option<Identity>)

  /** The codec reads back every identity it writes. */
  ghost predicate Lawful(c: UserCodec) {
    forall u :: c.parse(c.stringify(u)) == Some(u)
  }

  const TokenKey := "token"
  const UserKey := "user"
  const AuthorizationHeader := "Authorization"

  const LoginPath := "/auth/login/"
  const VerifyFacePath := "/auth/verify-face/"
  const RegisterPath := "/auth/register/"
  const VerifyPhonePath := "/auth/verify-phone/"
  const ResetRequestPath := "/auth/password-reset/request/"
  const ResetConfirmPath := "/auth/password-reset/confirm/"

  /** JavaScript truthiness of a string that may be null: null and "" are falsy. */
  predicate Truthy(s: Option<string>) {
    s.Some? && s.value != ""
  }

  /** The value of the Authorization header for a token. */
  function Bearer(token: string): string {
    "Token " + token
  }

  /** `formData.get(key)`: the field's value, or null when the form lacks it. */
  function FormGet(form: Payload, key: string): Option<string> {
    if key in form then Some(form[key]) else None
  }

  datatype AuthState = AuthState(
    token: Option<string>,
    user: Option<Identity>,
    userForVerification: Option<string>,
    storage: map<string, string>,
    headers: map<string, string>)

  datatype Transition = Transition(after: AuthState, status: Status, sent: Option<Request>)

  /** The `isAuthenticated` getter: `!!state.token`. */
  predicate IsAuthenticated(s: AuthState) {
    Truthy(s.token)
  }

  /** In-memory session, storage and outbound header agree: token and user
      are set together, each is mirrored under its storage key, and the
      Authorization header carries the token exactly when there is one. */
  predicate Consistent(s: AuthState, c: UserCodec) {
    && (s.token.Some? <==> s.user.Some?)
    && (s.token.Some? <==> TokenKey in s.storage)
    && (s.token.Some? ==> s.storage[TokenKey] == s.token.value)
    && (s.user.Some? <==> UserKey in s.storage)
    && (s.user.Some? ==> s.storage[UserKey] == c.stringify(s.user.value))
    && (s.token.Some? <==> AuthorizationHeader in s.headers)
    && (s.token.Some? ==> s.headers[AuthorizationHeader] == Bearer(s.token.value))
  }

  /** The store's initial state, read back from storage: `getItem('token') || null`
      and `JSON.parse(getItem('user')) || null`; nothing is pending verification. */
  function Load(storage: map<string, string>, headers: map<string, string>, c: UserCodec): AuthState {
    AuthState(
      if Truthy(FormGet(storage, TokenKey)) then FormGet(storage, TokenKey) else None,
      if UserKey in storage then c.parse(storage[UserKey]) else None,
      None,
      storage,
      headers)
  }

  /** `init`: installs the Authorization header when the token is truthy. */
  function Init(s: AuthState): (r: AuthState)
    ensures r.(headers := s.headers) == s
    ensures Truthy(s.token) ==> AuthorizationHeader in r.headers && r.headers[AuthorizationHeader] == Bearer(s.token.value)
    ensures !Truthy(s.token) ==> r.headers == s.headers
    ensures r.headers - {AuthorizationHeader} == s.headers - {AuthorizationHeader}
    ensures forall c :: Consistent(s, c) ==> r == s
  {
    if Truthy(s.token) then
      s.(headers := s.headers[AuthorizationHeader := Bearer(s.token.value)])
    else
      s
  }

  /** `login`: on success the token and user are taken from the reply and
      written through to the header and to storage; on failure nothing changes
      and the client's error is rethrown. */
  function Login(s: AuthState, c: UserCodec, credentials: Payload, reply: Outcome<LoginData>): (t: Transition)
    ensures t.sent == Some(Request(LoginPath, credentials, false))
    ensures reply.Failure? ==> t.after == s && t.status == Threw(Remote(reply.error))
    ensures reply.Success? ==>
      && t.status == Completed
      && t.after.token == Some(reply.data.token)
      && t.after.user == Some(Identity(reply.data.userId, reply.data.email))
      && Consistent(t.after, c)
    ensures t.after.userForVerification == s.userForVerification
    ensures t.after.storage - {TokenKey, UserKey} == s.storage - {TokenKey, UserKey}
    ensures t.after.headers - {AuthorizationHeader} == s.headers - {AuthorizationHeader}
  {
    var sent := Some(Request(LoginPath, credentials, false));
    match reply
    case Failure(e) => Transition(s, Threw(Remote(e)), sent)
    case Success(d) =>
      var user := Identity(d.userId, d.email);
      var after := s.(
        token := Some(d.token),
        user := Some(user),
        headers := s.headers[AuthorizationHeader := Bearer(d.token)],
        storage := s.storage[TokenKey := d.token][UserKey := c.stringify(user)]);
      Transition(after, Completed, sent)
  }

  /** `verifyFace`: posts the biometric form; whatever the reply, the session
      is left as it was (the token granted by `login` stays). */
  function VerifyFace(s: AuthState, form: Payload, outcome: Outcome<()>): (t: Transition)
    ensures t.after == s
    ensures t.sent == Some(Request(VerifyFacePath, form, true))
    ensures t.status == Completed <==> outcome.Success?
    ensures outcome.Failure? ==> t.status == Threw(Remote(outcome.error))
  {
    var sent := Some(Request(VerifyFacePath, form, true));
    match outcome
    case Failure(e) => Transition(s, Threw(Remote(e)), sent)
    case Success(_) => Transition(s, Completed, sent)
  }

  /** `logout`: a local step that cannot fail; clears token and user, their
      storage keys and the Authorization header, and nothing else. */
  function Logout(s: AuthState): (r: AuthState)
    ensures r.token == None && r.user == None
    ensures TokenKey !in r.storage && UserKey !in r.storage
    ensures AuthorizationHeader !in r.headers
    ensures r.userForVerification == s.userForVerification
    ensures r.storage == s.storage - {TokenKey, UserKey}
    ensures r.headers == s.headers - {AuthorizationHeader}
    ensures forall c :: Consistent(r, c)
  {
    s.(token := None, user := None,
       storage := s.storage - {TokenKey, UserKey},
       headers := s.headers - {AuthorizationHeader})
  }

  /** `register`: posts the form; on success the form's `username` becomes
      the subject awaiting phone verification. */
  function Register(s: AuthState, form: Payload, outcome: Outcome<()>): (t: Transition)
    ensures t.sent == Some(Request(RegisterPath, form, true))
    ensures outcome.Success? ==> t.status == Completed && t.after == s.(userForVerification := FormGet(form, "username"))
    ensures outcome.Failure? ==> t.after == s && t.status == Threw(Remote(outcome.error))
  {
    var sent := Some(Request(RegisterPath, form, true));
    match outcome
    case Failure(e) => Transition(s, Threw(Remote(e)), sent)
    case Success(_) => Transition(s.(userForVerification := FormGet(form, "username")), Completed, sent)
  }

  /** `verifyPhone`: with no truthy subject pending it throws a local error
      and posts nothing; otherwise it posts the subject with the code and, on
      success, clears the subject. */
  function VerifyPhone(s: AuthState, code: string, outcome: Outcome<()>): (t: Transition)
    ensures !Truthy(s.userForVerification) ==> t == Transition(s, Threw(NoPendingVerification), None)
    ensures Truthy(s.userForVerification) ==>
      t.sent == Some(Request(VerifyPhonePath, map["username" := s.userForVerification.value, "code" := code], false))
    ensures Truthy(s.userForVerification) && outcome.Success? ==>
      t.status == Completed && t.after == s.(userForVerification := None)
    ensures Truthy(s.userForVerification) && outcome.Failure? ==>
      t.status == Threw(Remote(outcome.error)) && t.after == s
  {
    if !Truthy(s.userForVerification) then
      Transition(s, Threw(NoPendingVerification), None)
    else
      var sent := Some(Request(VerifyPhonePath, map["username" := s.userForVerification.value, "code" := code], false));
      match outcome
      case Failure(e) => Transition(s, Threw(Remote(e)), sent)
      case Success(_) => Transition(s.(userForVerification := None), Completed, sent)
  }

  /** `requestPasswordReset` and `confirmPasswordReset`: post the payload and
      leave the session as it was, rethrowing the client's error. */
  function PasswordReset(s: AuthState, path: string, payload: Payload, outcome: Outcome<()>): (t: Transition)
    ensures t.after == s
    ensures t.sent == Some(Request(path, payload, false))
    ensures t.status == Completed <==> outcome.Success?
    ensures outcome.Failure? ==> t.status == Threw(Remote(outcome.error))
  {
    var sent := Some(Request(path, payload, false));
    match outcome
    case Failure(e) => Transition(s, Threw(Remote(e)), sent)
    case Success(_) => Transition(s, Completed, sent)
  }

  /** One call of a store action, with the outcome of its call to the server. */
  datatype Action =
    | InitAction
    | LoginAction(credentials: Payload, reply: Outcome<LoginData>)
    | VerifyFaceAction(form: Payload, outcome: Outcome<()>)
    | LogoutAction
    | RegisterAction(form: Payload, outcome: Outcome<()>)
    | VerifyPhoneAction(code: string, outcome: Outcome<()>)
    | RequestResetAction(payload: Payload, outcome: Outcome<()>)
    | ConfirmResetAction(payload: Payload, outcome: Outcome<()>)

  /** The actions that never write token, user, storage or headers. */
  predicate LeavesCredentials(a: Action) {
    !a.InitAction? && !a.LoginAction? && !a.LogoutAction?
  }

  function Apply(s: AuthState, c: UserCodec, a: Action): (t: Transition)
    ensures Consistent(s, c) ==> Consistent(t.after, c)
    ensures LeavesCredentials(a) ==> t.after == s.(userForVerification := t.after.userForVerification)
    ensures !a.RegisterAction? && s.userForVerification == None ==> t.after.userForVerification == None
  {
    match a
    case InitAction => Transition(Init(s), Completed, None)
    case LoginAction(credentials, reply) => Login(s, c, credentials, reply)
    case VerifyFaceAction(form, outcome) => VerifyFace(s, form, outcome)
    case LogoutAction => Transition(Logout(s), Completed, None)
    case RegisterAction(form, outcome) => Register(s, form, outcome)
    case VerifyPhoneAction(code, outcome) => VerifyPhone(s, code, outcome)
    case RequestResetAction(payload, outcome) => PasswordReset(s, ResetRequestPath, payload, outcome)
    case ConfirmResetAction(payload, outcome) => PasswordReset(s, ResetConfirmPath, payload, outcome)
  }

  /** The state after running the actions one after another. */
  function Run(s: AuthState, c: UserCodec, actions: seq<Action>): AuthState
    decreases |actions|
  {
    if |actions| == 0 then s else Run(Apply(s, c, actions[0]).after, c, actions[1..])
  }
}
