/**
  The `auth` store itself: an object whose actions assign its three fields
  and write through, in place, to persisted storage and to the shared HTTP
  client's default header map (both held here as fields). Each action takes
  the outcome of its call to the server as a parameter and is proved to
  make exactly the transition `AuthSession` gives for it.
*/
module Stores {
  import opened AuthSession

  class AuthStore {
    var token: Option<string>
    var user: Option<Identity>
    var userForVerification: Option<string>
    /** The browser's persisted key-value storage. */
    var storage: map<string, string>
    /** The HTTP client's default headers, sent with every request. */
    var headers: map<string, string>
    /** How `user` is stringified into storage and parsed back. */
    const codec: UserCodec

    function State(): AuthState
      reads this
    {
      AuthState(token, user, userForVerification, storage, headers)
    }

    /** Session, storage and Authorization header agree. */
    predicate Synced()
      reads this
    {
      Consistent(State(), codec)
    }

    /** The `isAuthenticated` getter: true exactly when the token is present
        and not empty; in a synced store the header then carries it. */
    function IsAuthenticated(): (r: bool)
      reads this
      ensures r <==> token != None && token != Some("")
      ensures r && Synced() ==> AuthorizationHeader in headers && headers[AuthorizationHeader] == Bearer(token.value)
    {
      AuthSession.IsAuthenticated(State())
    }

    /** The store's `state()`: token and user read back from storage. */
    constructor (storage: map<string, string>, headers: map<string, string>, codec: UserCodec)
      ensures State() == Load(storage, headers, codec)
      ensures this.codec == codec
    {
      var tokenItem := FormGet(storage, TokenKey);
      this.token := if Truthy(tokenItem) then tokenItem else None;
      this.user := if UserKey in storage then codec.parse(storage[UserKey]) else None;
      this.userForVerification := None;
      this.storage := storage;
      this.headers := headers;
      this.codec := codec;
    }

    method Init()
      modifies this
      ensures State() == AuthSession.Init(old(State()))
      ensures old(Synced()) ==> unchanged(this)
    {
      if Truthy(token) {
        headers := headers[AuthorizationHeader := Bearer(token.value)];
      }
    }

    method Login(credentials: Payload, reply: Outcome<LoginData>) returns (status: Status, sent: Option<Request>)
      modifies this
      ensures var t := AuthSession.Login(old(State()), codec, credentials, reply);
        State() == t.after && status == t.status && sent == t.sent
      ensures reply.Success? ==> Synced()
      ensures reply.Failure? ==> unchanged(this)
    {
      sent := Some(Request(LoginPath, credentials, false));
      match reply
      case Failure(e) =>
        status := Threw(Remote(e));
      case Success(data) =>
        token := Some(data.token);
        user := Some(Identity(data.userId, data.email));
        headers := headers[AuthorizationHeader := Bearer(token.value)];
        storage := storage[TokenKey := token.value];
        storage := storage[UserKey := codec.stringify(user.value)];
        status := Completed;
    }

    method VerifyFace(form: Payload, outcome: Outcome<()>) returns (status: Status, sent: Option<Request>)
      modifies this
      ensures var t := AuthSession.VerifyFace(old(State()), form, outcome);
        State() == t.after && status == t.status && sent == t.sent
      ensures unchanged(this)
    {
      sent := Some(Request(VerifyFacePath, form, true));
      match outcome
      case Failure(e) =>
        status := Threw(Remote(e));
      case Success(_) =>
        status := Completed;
    }

    method Logout()
      modifies this
      ensures State() == AuthSession.Logout(old(State()))
      ensures Synced() && !IsAuthenticated()
    {
      token := None;
      user := None;
      storage := storage - {TokenKey};
      storage := storage - {UserKey};
      headers := headers - {AuthorizationHeader};
    }

    method Register(form: Payload, outcome: Outcome<()>) returns (status: Status, sent: Option<Request>)
      modifies this
      ensures var t := AuthSession.Register(old(State()), form, outcome);
        State() == t.after && status == t.status && sent == t.sent
      ensures outcome.Failure? ==> unchanged(this)
    {
      sent := Some(Request(RegisterPath, form, true));
      match outcome
      case Failure(e) =>
        status := Threw(Remote(e));
      case Success(_) =>
        userForVerification := FormGet(form, "username");
        status := Completed;
    }

    method VerifyPhone(code: string, outcome: Outcome<()>) returns (status: Status, sent: Option<Request>)
      modifies this
      ensures var t := AuthSession.VerifyPhone(old(State()), code, outcome);
        State() == t.after && status == t.status && sent == t.sent
      ensures status != Completed ==> unchanged(this)
    {
      if !Truthy(userForVerification) {
        status, sent := Threw(NoPendingVerification), None;
        return;
      }
      var payload := map["username" := userForVerification.value, "code" := code];
      sent := Some(Request(VerifyPhonePath, payload, false));
      match outcome
      case Failure(e) =>
        status := Threw(Remote(e));
      case Success(_) =>
        userForVerification := None;
        status := Completed;
    }

    method RequestPasswordReset(payload: Payload, outcome: Outcome<()>) returns (status: Status, sent: Option<Request>)
      modifies this
      ensures var t := PasswordReset(old(State()), ResetRequestPath, payload, outcome);
        State() == t.after && status == t.status && sent == t.sent
      ensures unchanged(this)
    {
      sent := Some(Request(ResetRequestPath, payload, false));
      match outcome
      case Failure(e) =>
        status := Threw(Remote(e));
      case Success(_) =>
        status := Completed;
    }

    method ConfirmPasswordReset(payload: Payload, outcome: Outcome<()>) returns (status: Status, sent: Option<Request>)
      modifies this
      ensures var t := PasswordReset(old(State()), ResetConfirmPath, payload, outcome);
        State() == t.after && status == t.status && sent == t.sent
      ensures unchanged(this)
    {
      sent := Some(Request(ResetConfirmPath, payload, false));
      match outcome
      case Failure(e) =>
        status := Threw(Remote(e));
      case Success(_) =>
        status := Completed;
    }
  }
}
