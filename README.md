# Authentication client and account service, modelled in Dafny

This project models the parts of the `auth` repository that have
precise behaviour:

- **The client session** (`project/src/context/AuthContext.tsx`). The session record
  `AuthState` and its reducer are pure (`AuthReducer`). The provider that owns the
  session is a class (`AuthContext.AuthProvider`). It holds the session, the browser's
  `localStorage` as a `map<string, string>`, and a log of the HTTP requests it has
  issued. Mounting the provider restores a persisted session. `login`, `register`,
  `logout`, `updateProfile`, `requestPasswordReset`, `updatePassword` and `clearError`
  are methods. Each method that awaits a reply takes that reply as an input.
  `logout` ignores what its request returns, so it takes none, and `clearError`
  sends no request.
- **The stored user record** (`UserCodec`). This is the `JSON.stringify` text that
  `login` and `updateProfile` write under `"user"`, plus a reader standing for
  `JSON.parse`. The two are proved inverse in both directions.
- **The request options** (`project/src/config/api.ts`, module `ApiConfig`). This covers
  the endpoint paths, `defaultFetchOptions` and `withAuth`.
- **The account service** (`app.py`, module `AccountServer`). It is a class holding the
  user table keyed by email, with one method per route.

The session is meant to be authenticated exactly when it holds a user and a token
(`Coherent`). The UPDATE_USER action alone does not preserve that
(`UpdateUserNeedsPriorUser`). The model proves a stronger invariant that every action
preserves: coherence, and no token without a user (`SessionInv`). From that it follows
that every state reachable from the initial state is coherent
(`ReachableStatesCoherent`).

Two behaviours of the source show up in the contracts:
- `clearError` dispatches a failure with a null message. Because of that it resets the
  whole session to the initial state (`ClearError`), but it leaves storage as it was.
- A failed `login` or `register` also empties the session without touching storage.

## Model

| member | source | states |
|---|---|---|
| `Json.ToText` | project/src/context/AuthContext.tsx:124 | the text of `new Error(message)`: a string message is kept as is, null gives "null", a number gives its decimal digits without a leading zero (after a "-" when negative), whose value read back is the number |
| `Json.DecimalValue` | project/src/context/AuthContext.tsx:124 | the decimal digits written for a number read back as that number |
| `Json.ErrorMessage` | project/src/context/AuthContext.tsx:123-125 | `data.message \|\| fallback` as error text: a falsy message gives the fallback, a truthy one gives its own text (a string verbatim, a number its decimal digits), and the result is never empty when the fallback is not |
| `Json.ReadEscapedBody` | project/src/context/AuthContext.tsx:133 | reading an escaped string body followed by a closing quote yields the original text and the untouched rest |
| `Json.ReadBodyIsEscaped` | project/src/context/AuthContext.tsx:98 | whatever the string reader accepts is exactly an escaped body, a quote and the rest |
| `Json.ReadQuoted` | project/src/context/AuthContext.tsx:133 | a quoted JSON string followed by anything reads back as that string |
| `Json.ReadStringIsQuoted` | project/src/context/AuthContext.tsx:98 | a successful string read consumed exactly one quoted string |
| `UserCodec.ParseSerialize` | project/src/context/AuthContext.tsx:133 | the user record written at login reads back as the same user |
| `UserCodec.SerializeParse` | project/src/context/AuthContext.tsx:98 | a record that parses is exactly the serialisation of the user it yields |
| `ApiConfig.Path` | project/src/config/api.ts:5-12 | every endpoint path begins with "/" and has a name after it |
| `ApiConfig.PathsDistinct` | project/src/config/api.ts:5-12 | the six endpoint paths are pairwise distinct |
| `ApiConfig.WithAuth` | project/src/config/api.ts:23-30 | the result has the keys credentials, headers and those of `options`; its headers are exactly Content-Type JSON plus `Bearer <token>`, so headers passed in `options` are discarded; credentials is "include" unless `options` sets it; every other option is carried through unchanged |
| `ApiConfig.WithAuthDefaults` | project/src/config/api.ts:15-30 | with no options, the result is exactly the credentials and the two headers |
| `AuthReducer.Reduce` | project/src/context/AuthContext.tsx:44-85 | LOGIN_SUCCESS, LOGIN_FAILURE and LOGOUT always end coherent; UPDATE_USER keeps coherence when a user was held; every action preserves the session invariant |
| `AuthReducer.LoginRequestKeepsSession` | project/src/context/AuthContext.tsx:46-51 | LOGIN_REQUEST sets loading, clears the error, and keeps user, token and the authenticated flag |
| `AuthReducer.LoginSuccessInstalls` | project/src/context/AuthContext.tsx:52-60 | LOGIN_SUCCESS yields exactly the given user and token, authenticated, not loading, no error |
| `AuthReducer.LoginFailureClears` | project/src/context/AuthContext.tsx:61-69 | LOGIN_FAILURE yields no user, no token, not authenticated, not loading, and the given message |
| `AuthReducer.LogoutKeepsStatus` | project/src/context/AuthContext.tsx:70-76 | LOGOUT clears user, token and the authenticated flag and leaves loading and error as they were |
| `AuthReducer.UpdateUserOnlyUser` | project/src/context/AuthContext.tsx:77-81 | UPDATE_USER changes the user and no other field |
| `AuthReducer.UpdateUserCoherence` | project/src/context/AuthContext.tsx:77-81 | from a coherent state, UPDATE_USER ends coherent exactly when the state did not hold a token without a user |
| `AuthReducer.UpdateUserNeedsPriorUser` | project/src/context/AuthContext.tsx:77-81 | there is a coherent state (token but no user) that UPDATE_USER makes incoherent |
| `AuthReducer.ReplayKeepsInv` | project/src/context/AuthContext.tsx:44-85 | any sequence of actions preserves the session invariant |
| `AuthReducer.ReachableStatesCoherent` | project/src/context/AuthContext.tsx:14-20 | every state reached from the initial state is authenticated exactly when it holds a user and a token, and holds no token without a user |
| `AuthContext.FailureMessage` | project/src/context/AuthContext.tsx:139-143 | a transport error keeps its own message; a rejected reply gives the text of the server's message when it is truthy and the fallback otherwise, never empty when the fallback is not |
| `AuthContext.AuthProvider.Mount` | project/src/context/AuthContext.tsx:89-108 | with no stored token or user the session is initial; when the stored user parses the session equals LOGIN_SUCCESS applied to the initial state with that user and token; when it does not parse, both keys are removed and the session stays initial; no request is made |
| `AuthContext.AuthProvider.Dispatch` | project/src/context/AuthContext.tsx:89 | the new session is the reducer applied to the old one and the action, and the invariant is kept |
| `AuthContext.AuthProvider.Login` | project/src/context/AuthContext.tsx:111-146 | one login request is sent; on success "token" and the serialised user are stored and the session holds exactly them; on failure storage is untouched, the session is empty, not loading, and carries the message that is rethrown |
| `AuthContext.AuthProvider.Register` | project/src/context/AuthContext.tsx:149-174 | a rejected registration sends one request and ends like a failed login with its message; an accepted one is followed by a login request and ends as that login does |
| `AuthContext.AuthProvider.Logout` | project/src/context/AuthContext.tsx:177-192 | a logout request carrying the bearer token is sent only when a non-empty token is held; both storage keys are always removed; the session is emptied with loading and error unchanged |
| `AuthContext.AuthProvider.UpdateProfile` | project/src/context/AuthContext.tsx:195-230 | without a token it throws "Not authenticated" with no request and nothing changed; a rejected request changes nothing; an accepted one renames the user, keeps the email, rewrites only the "user" key and changes no other session field |
| `AuthContext.AuthProvider.RequestPasswordReset` | project/src/context/AuthContext.tsx:233-251 | one request is sent; the reply's message (the code) is returned on success and the error message thrown otherwise; session and storage are not touched |
| `AuthContext.AuthProvider.UpdatePassword` | project/src/context/AuthContext.tsx:254-270 | one request carrying the email, the code (null when it is not a number) and the new password is sent; session and storage are not touched |
| `AuthContext.AuthProvider.ClearError` | project/src/context/AuthContext.tsx:273-278 | the error is cleared and, because a failure action is used, the session returns to the initial state |
| `AuthContext.LoginSurvivesReload` | project/src/context/AuthContext.tsx:92-138 | after a successful login with a non-empty token, a fresh mount over the stored entries restores exactly the same session |
| `AuthContext.LogoutSurvivesReload` | project/src/context/AuthContext.tsx:177-192 | after a logout, a fresh mount starts from the initial session |
| `AccountServer.CheckHashExact` | app.py:95 | a stored hash accepts the password it was made from and no other |
| `AccountServer.CheckOtp` | app.py:137-138 | a code is accepted exactly when it equals the stored one and the time is not past the expiry; when both codes are null the comparison with a null expiry fails with a server error |
| `AccountServer.UserStore.constructor` | app.py:43-64 | the server starts with the rows stored by earlier runs in the database file (none on a new file), which must satisfy the table invariant, and keeps them unchanged |
| `AccountServer.UserStore.Register` | app.py:67-83 | a known email gives 400 "User already exists" and no change; otherwise exactly one row is added under that email with the hashed password, the name and no code; emails stay unique and ids distinct |
| `AccountServer.UserStore.Login` | app.py:86-106 | 200 exactly when a row with that email exists and the password checks, with tokens for that email and the row's name; otherwise 401 "Invalid credentials"; the table is not changed |
| `AccountServer.UserStore.ResetPassword` | app.py:109-125 | an unknown email gives 404 and no change; otherwise the row gets a code in 100000..999999, expiring five minutes after now, which is returned; no other row or field changes |
| `AccountServer.UserStore.UpdatePassword` | app.py:128-145 | with a matching, unexpired code the password hash is replaced and code and expiry are cleared; an unknown email, another code or an expired one gives 400 and no change |
| `AccountServer.UserStore.Logout` | app.py:148-152 | always 200 "Logout successful"; the table is not changed |
| `AccountServer.UserStore.UpdateProfile` | app.py:155-170 | an unknown identity gives 404 and no change; otherwise only the name of that identity's row changes |
| `AccountServer.OtpIsSingleUse` | app.py:140-145 | once a code has changed a password, sending the same code again is refused with 400 |
| `AccountServer.IssuedOtpUnlocks` | app.py:119-143 | the code a reset returns changes the password when sent back within five minutes |
| `AccountServer.IssuedOtpExpires` | app.py:120-138 | the code a reset returns is refused once five minutes have passed |

## Left out

- React machinery is not modelled: the context object, `useReducer`/`useEffect` scheduling and re-rendering. The provider is a class whose session field changes only through `Dispatch`.
- The UI components are not part of this model. This includes the confirm-password check in `ForgotPassword.tsx` and `UpdatePassword.tsx`, which stops a submission before `updatePassword` is called.
- Operations are atomic steps. Overlapping asynchronous operations, such as a double submit racing on one session, are not modelled.
- `fetch` and `response.json()` are replaced by a `Reply` input. A reply is either a thrown error with its message, or an ok flag plus a body with `message`, `token`, `username` and `email`. Fields the server omits are empty strings there. `console.error` in `logout` is dropped.
- `AuthContext.AuthProvider.Mount` takes `JSON.parse` as a function parameter from text to an optional user. A stored value that parses to some other JSON shape is outside the model.
- `Json.ToText`: JSON numbers are modelled as integers only, so fractions, and the exponent form JavaScript's `String` uses from 1e21 upward, are not modelled.
- `UserCodec.ParseUser` reads only the form the client writes. `UserCodec.SerializeUser` escapes only quote and backslash, not control characters as `JSON.stringify` does.
- `AuthContext.AuthProvider.RequestPasswordReset` returns the reply's message value. `as number` is only a compile-time cast, so no conversion is modelled.
- On the server, Flask routing, CORS, the SQLAlchemy session, bcrypt salting and JWT signing and verification are left out.
  - A password hash is a value that determines its password.
  - A token carries only its identity.
  - The route that checks the token receives that identity as an argument.
- `AccountServer.CheckHashExact` treats a hash as determined by the whole password, which bcrypt is not.
  - bcrypt uses at most the first 72 bytes of a password: older releases drop the rest, newer ones raise an error.
  - Flask-Bcrypt raises an error when asked to hash an empty password.
  - So with an empty password, `UserStore.Register` and `UserStore.UpdatePassword` answer 200 and make the change in the model. The real server answers 500: no row is added, the password is unchanged and the code is not spent.
- The clock is an integer time in microseconds, passed as an argument. The random code is a nondeterministic choice in 100000..999999.
- Request fields the server reads with `data.get` are taken as present and of the expected type. A missing `username` (a null name) or a missing email is not modelled.
- `AccountServer.UserStore.UpdatePassword`: when both the submitted and the stored code are null, Python raises comparing the clock with a null expiry. The model only says that the reply has status 500 and the table is unchanged; it does not model the exception or the error page.
