# Face-wallet authentication store, modelled in Dafny

The face-wallet web client keeps its session in a Pinia store named `auth`.
The store has three fields:

- `token`: the credential issued by the server;
- `user`: `{id, email}`;
- `userForVerification`: the username of an account that has registered but
  has not yet verified its phone.

Its getter `isAuthenticated` is `!!token`. Its actions are `init`, `login`,
`verifyFace`, `logout`, `register`, `verifyPhone`, `requestPasswordReset` and
`confirmPasswordReset`. Besides its own fields, the store writes through to
two shared maps: the browser's persisted storage (keys `token` and `user`)
and the default headers of the shared HTTP client (`Authorization:
Token <token>`).

The project has three files:

- `auth_session.dfy`, module `AuthSession`: the store as values. `AuthState`
  holds the three fields and both maps. Each action is a function from the
  state before it, and the outcome of its server call, to a `Transition`: the
  state after, the `Status` (completed, or threw the client's error
  unchanged, or threw the local "nobody pending verification" error) and the
  request it posted. `Consistent` is the cross-structure invariant: token and
  user are set together, storage mirrors both, and the Authorization header
  is present exactly when a token is, with the value `"Token " + token`.
  `Apply` and `Run` replay any sequence of actions.
- `session_properties.dfy`, module `SessionProperties`: lemmas that relate
  several actions. They cover the invariant over any run, the actions that
  cannot touch the credentials, restoring the session from storage, the
  face-verification gap, and the register then verify-phone round trip.
- `auth_store.dfy`, module `Stores`: class `AuthStore`. Its fields are the
  three store fields plus `storage` and `headers` as `map<string, string>`.
  Every action is a method with `modifies this` that assigns the fields step
  by step as the source does. Each method is proved to produce exactly the
  `AuthSession` transition for its inputs, with the key frame facts also
  stated directly.

Modelling choices:

- A remote call is a parameter `Outcome<T>`: `Success(data)` or
  `Failure(error)`. For `login`, `data` is the reply `{token, user_id, email}`.
- JavaScript truthiness is written out as `Truthy`: null and `""` are falsy.
  So an empty token is present but not authenticated, an empty token in
  storage reads back as null, and an empty pending username makes
  `verifyPhone` throw the local error.
- `formData.get('username')` is a lookup in the form's field map. It yields
  null when the field is absent.
- `JSON.stringify`/`JSON.parse` of `user` are a codec parameter
  (`UserCodec`). Only the restore lemma assumes anything about it: that
  parsing gives back what was stringified (`Lawful`).

The invariant `Consistent` is not established when the store is built from
arbitrary storage. A stored empty token, for example, loads as null while its
key stays in storage. A successful `login` and any `logout` establish it, and
every action preserves it.

## Model

| member | source | states |
|---|---|---|
| `AuthSession.Init` | src/stores/authStore.js:17-21 | only the header map may change; a truthy token installs `Authorization: Token <token>`, a falsy one leaves the headers untouched, and a consistent state is left as it is |
| `AuthSession.Login` | src/stores/authStore.js:23-39 | posts the credentials to `/auth/login/`; on success token and user come from the reply and the result is consistent (storage mirrors both, header is `Token <token>`); on failure the state is unchanged and the client's error is rethrown; other storage keys and headers and `userForVerification` never change |
| `AuthSession.VerifyFace` | src/stores/authStore.js:41-51 | posts the form as multipart to `/auth/verify-face/`; the state is unchanged on success and on failure; completes exactly when the call succeeds, otherwise rethrows its error |
| `AuthSession.Logout` | src/stores/authStore.js:53-63 | cannot fail; token and user become null, both storage keys and the Authorization header are removed and nothing else is; `userForVerification` is kept; the result is consistent for any codec |
| `AuthSession.Register` | src/stores/authStore.js:65-78 | posts the form as multipart to `/auth/register/`; on success only `userForVerification` changes, to the form's `username` (null if absent); on failure nothing changes and the error is rethrown |
| `AuthSession.VerifyPhone` | src/stores/authStore.js:79-96 | with no truthy pending subject: the local error and no request; otherwise posts `{username, code}` to `/auth/verify-phone/`, clears the subject on success, keeps everything and rethrows on failure |
| `AuthSession.PasswordReset` | src/stores/authStore.js:98-115 | posts the payload to the reset path; the state is unchanged on success and on failure; completes exactly when the call succeeds, otherwise rethrows its error |
| `AuthSession.Apply` | src/stores/authStore.js:16-116 | every action preserves `Consistent`; `verifyFace`, `register`, `verifyPhone` and the password resets change at most `userForVerification`; only `register` can make a subject pending |
| `SessionProperties.RunKeepsConsistent` | src/stores/authStore.js:16-116 | after any sequence of actions, with any outcomes, session, storage and header still agree if they agreed at the start |
| `SessionProperties.RunLeavesCredentials` | src/stores/authStore.js:41-115 | any run of `verifyFace`, `register`, `verifyPhone` and password-reset calls leaves token, user, storage and headers exactly as they were |
| `SessionProperties.NothingPendingWithoutRegister` | src/stores/authStore.js:65-96 | a run without `register`, from a state with nothing pending, ends with nothing pending |
| `SessionProperties.Rehydrate` | src/stores/authStore.js:6-21 | reloading a consistent session from storage and running `init` restores the same user and the same authentication; it restores the same state, with nothing pending, unless the token was `""` |
| `SessionProperties.TokenIssuedBeforeFaceCheck` | src/stores/authStore.js:23-51 | after a successful login the token and its header are set, and a following `verifyFace` leaves both set whether it succeeds or fails (a non-empty token is authenticated before the face check) |
| `SessionProperties.RegisterThenVerifyPhone` | src/stores/authStore.js:65-96 | a successful register followed by a successful verifyPhone posts the registered username and returns to the starting state with nothing pending |
| `Stores.AuthStore.IsAuthenticated` | src/stores/authStore.js:12-14 | true exactly when the token is neither null nor empty; in a synced store the Authorization header then carries that token |
| `Stores.AuthStore.constructor` | src/stores/authStore.js:6-10 | the fields are read back from storage (a missing or empty token becomes null, the user is parsed) with nothing pending |
| `Stores.AuthStore.Init` | src/stores/authStore.js:17-21 | makes the `AuthSession.Init` transition; a synced store is left unchanged |
| `Stores.AuthStore.Login` | src/stores/authStore.js:23-39 | makes the `AuthSession.Login` transition; after a success the store is synced, after a failure nothing changed |
| `Stores.AuthStore.VerifyFace` | src/stores/authStore.js:41-51 | makes the `AuthSession.VerifyFace` transition; no field changes |
| `Stores.AuthStore.Logout` | src/stores/authStore.js:53-63 | makes the `AuthSession.Logout` transition; afterwards the store is synced and not authenticated |
| `Stores.AuthStore.Register` | src/stores/authStore.js:65-78 | makes the `AuthSession.Register` transition; after a failure nothing changed |
| `Stores.AuthStore.VerifyPhone` | src/stores/authStore.js:79-96 | makes the `AuthSession.VerifyPhone` transition; when it does not complete nothing changed |
| `Stores.AuthStore.RequestPasswordReset` | src/stores/authStore.js:98-105 | makes the `AuthSession.PasswordReset` transition for `/auth/password-reset/request/`; no field changes |
| `Stores.AuthStore.ConfirmPasswordReset` | src/stores/authStore.js:107-115 | makes the `AuthSession.PasswordReset` transition for `/auth/password-reset/confirm/`; no field changes |

## Left out

- `src/service/cardService.js` has four one-line passthroughs to the HTTP client. They have no state or logic of their own.
- The HTTP client (`src/service/api`) is not part of this model. Each call's result is the `Outcome` parameter, and the request body is recorded only as a field map plus a multipart flag.
- Router navigation (`router.push`) after each action is a UI side effect, not session state.
- `console.error` logging, and picking `error.response?.data` out of the error, are left out. The error is rethrown as the opaque `RemoteError` it was.
- JSON encoding of `user` is the `UserCodec` parameter. `JSON.parse` throwing on corrupt storage, and parsed values that are truthy but not identity objects, are not modelled.
- Reply fields missing from the login reply (`undefined` token or id) are not modelled. The reply is assumed to carry a string token, an integer id and a string email.
- A `localStorage.setItem` that throws (quota exceeded) is not modelled, so `login` is atomic in the model.
- Asynchronous scheduling, Pinia reactivity and interleaved actions are left out. Each action is one atomic step.
- Binary form fields (the face image) are left out. A form is a map from field names to strings.
