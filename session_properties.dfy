/**
  Properties of the session transitions that relate several actions: the
  agreement of session, storage and header over any run of actions, the
  actions that cannot touch the credentials, restoring the session from
  storage, the face-verification gap after login, and the
  register / verify-phone round trip.
*/
module SessionProperties {
  import opened AuthSession

  /** Whatever the actions and their outcomes, a run that starts with
      session, storage and header in agreement ends with them in agreement. */
  lemma {:induction false} RunKeepsConsistent(s: AuthState, c: UserCodec, actions: seq<Action>)
    requires Consistent(s, c)
    ensures Consistent(Run(s, c, actions), c)
    decreases |actions|
  {
    if |actions| > 0 {
      RunKeepsConsistent(Apply(s, c, actions[0]).after, c, actions[1..]);
    }
  }

  /** A run of `verifyFace`, `register`, `verifyPhone` and password-reset
      calls, succeeding or failing, changes at most `userForVerification`. */
  lemma {:induction false} RunLeavesCredentials(s: AuthState, c: UserCodec, actions: seq<Action>)
    requires forall i :: 0 <= i < |actions| ==> LeavesCredentials(actions[i])
    ensures Run(s, c, actions) == s.(userForVerification := Run(s, c, actions).userForVerification)
    decreases |actions|
  {
    if |actions| > 0 {
      RunLeavesCredentials(Apply(s, c, actions[0]).after, c, actions[1..]);
    }
  }

  /** Only `register` makes a subject pending: a run without it, from a state
      with nothing pending, ends with nothing pending. */
  lemma {:induction false} NothingPendingWithoutRegister(s: AuthState, c: UserCodec, actions: seq<Action>)
    requires s.userForVerification == None
    requires forall i :: 0 <= i < |actions| ==> !actions[i].RegisterAction?
    ensures Run(s, c, actions).userForVerification == None
    decreases |actions|
  {
    if |actions| > 0 {
      NothingPendingWithoutRegister(Apply(s, c, actions[0]).after, c, actions[1..]);
    }
  }

  /** Restarting the client from what a consistent session left in storage
      (a fresh header map without Authorization, then `init`) gives back the
      same user and the same authentication; it gives back the very same
      state, with nothing pending, unless the token was the empty string,
      which `|| null` reads back as null. */
  lemma Rehydrate(s: AuthState, c: UserCodec)
    requires Lawful(c)
    requires Consistent(s, c)
    ensures var r := Init(Load(s.storage, s.headers - {AuthorizationHeader}, c));
      && r.user == s.user
      && (IsAuthenticated(r) <==> IsAuthenticated(s))
      && (s.token != Some("") ==> r == s.(userForVerification := None))
  {
  }

  /** `login` issues the token before face verification: after a successful
      login the token is set, and a following `verifyFace`, whether it
      succeeds or fails, leaves it set. */
  lemma TokenIssuedBeforeFaceCheck(s: AuthState, c: UserCodec, credentials: Payload, data: LoginData,
                                   form: Payload, face: Outcome<()>)
    ensures var loggedIn := Login(s, c, credentials, Success(data)).after;
      var checked := VerifyFace(loggedIn, form, face).after;
      && checked.token == Some(data.token)
      && (data.token != "" ==> IsAuthenticated(loggedIn) && IsAuthenticated(checked))
      && AuthorizationHeader in checked.headers
      && checked.headers[AuthorizationHeader] == Bearer(data.token)
  {
  }

  /** A successful `register` followed by a successful `verifyPhone` posts
      the registered username and leaves nothing pending and everything else
      as it was. */
  lemma RegisterThenVerifyPhone(s: AuthState, form: Payload, code: string)
    requires "username" in form && form["username"] != ""
    ensures var registered := Register(s, form, Success(()));
      var verified := VerifyPhone(registered.after, code, Success(()));
      && registered.after.userForVerification == Some(form["username"])
      && verified.sent == Some(Request(VerifyPhonePath, map["username" := form["username"], "code" := code], false))
      && verified.status == Completed
      && verified.after == s.(userForVerification := None)
  {
  }
}
