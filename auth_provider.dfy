/**
  The authentication provider: the session record driven by the reducer, the
  two persisted entries in browser storage, and the operations that call the
  API. Each network reply is an input of the operation that awaits it; the
  requests an operation issues are appended to a log, so that "no request is
  made" can be stated.
 */
module AuthContext {
  import opened Wrappers
  import opened Json
  import ApiConfig
  import opened AuthReducer
  import opened UserCodec

  const TokenKey: string := "token"
  const UserKey: string := "user"

  /** The decoded body of a reply; fields the server leaves out are empty here. */
  datatype ReplyBody = ReplyBody(message: JsonValue, token: string, username: string, email: string)

  /**
    What awaiting `fetch(...)` and then `response.json()` gives: either one of
    them threw (with the error's message), or a status flag and a body.
   */
  datatype Reply = NetworkError(reason: string) | Response(ok: bool, body: ReplyBody)

  /** The value an asynchronous operation resolves with, or the message of the error it throws. */
  datatype Outcome<T> = Returned(value: T) | Thrown(message: string)

  predicate Succeeded(r: Reply) {
    r.Response? && r.ok
  }

  /**
    The message of the error an operation ends with when its reply is not a
    success: the thrown error's own message, or the server's message with the
    operation's fallback text.
   */
  function FailureMessage(r: Reply, fallback: string): (m: string)
    requires !Succeeded(r)
    ensures r.NetworkError? ==> m == r.reason
    ensures r.Response? && !Truthy(r.body.message) ==> m == fallback
    ensures r.Response? && Truthy(r.body.message) ==> m == ToText(r.body.message)
    ensures r.Response? && fallback != "" ==> m != ""
  {
    match r
    case NetworkError(reason) => reason
    case Response(_, body) => ErrorMessage(body.message, fallback)
  }

  /** JavaScript truthiness of a `string | null`: present and not empty. */
  predicate Present(t: Option<string>) {
    t.Some? && t.value != ""
  }

  /** Storage holds a token and a user record that start-up will try to restore. */
  predicate HasRecord(saved: map<string, string>) {
    Present(Lookup(saved, TokenKey)) && Present(Lookup(saved, UserKey))
  }

  function LoginCall(email: string, password: string): ApiConfig.Request {
    ApiConfig.Request("POST", ApiConfig.Url(ApiConfig.Login), ApiConfig.DefaultFetchOptions,
      Some(map["email" := JStr(email), "password" := JStr(password)]))
  }

  function RegisterCall(email: string, password: string, username: string): ApiConfig.Request {
    ApiConfig.Request("POST", ApiConfig.Url(ApiConfig.Register), ApiConfig.DefaultFetchOptions,
      Some(map["email" := JStr(email), "password" := JStr(password), "username" := JStr(username)]))
  }

  function LogoutCall(token: string): ApiConfig.Request {
    ApiConfig.Request("POST", ApiConfig.Url(ApiConfig.Logout), ApiConfig.WithAuth(token, map[]), None)
  }

  function UpdateProfileCall(token: string, name: string): ApiConfig.Request {
    ApiConfig.Request("PUT", ApiConfig.Url(ApiConfig.UpdateProfile), ApiConfig.WithAuth(token, map[]),
      Some(map["name" := JStr(name)]))
  }

  function ResetPasswordCall(email: string): ApiConfig.Request {
    ApiConfig.Request("POST", ApiConfig.Url(ApiConfig.ResetPassword), ApiConfig.DefaultFetchOptions,
      Some(map["email" := JStr(email)]))
  }

  /** `parseInt` of the code field: a number, or NaN, which serialises as null. */
  function OtpField(otp: Option<int>): JsonValue {
    if otp.Some? then JNum(otp.value) else JNull
  }

  function UpdatePasswordCall(email: string, otp: Option<int>, newPassword: string): ApiConfig.Request {
    ApiConfig.Request("POST", ApiConfig.Url(ApiConfig.UpdatePassword), ApiConfig.DefaultFetchOptions,
      Some(map["email" := JStr(email), "otp" := OtpField(otp), "new_password" := JStr(newPassword)]))
  }

  class AuthProvider {
    var state: AuthState
    var storage: map<string, string>
    var sent: seq<ApiConfig.Request>

    ghost predicate Valid()
      reads this
    {
      SessionInv(state)
    }

    /**
      Mounting: the reducer starts from the initial state, then the persisted
      entries are restored. A user record that does not parse is discarded
      together with the token.
     */
    constructor Mount(saved: map<string, string>, parse: string -> Option<User>)
      ensures Valid() && sent == []
      ensures !HasRecord(saved) ==> state == InitialState && storage == saved
      ensures HasRecord(saved) && parse(saved[UserKey]).Some? ==>
        state == Reduce(InitialState, LoginSuccess(parse(saved[UserKey]).value, saved[TokenKey])) &&
        storage == saved
      ensures HasRecord(saved) && parse(saved[UserKey]).None? ==>
        state == InitialState && storage == saved - {TokenKey, UserKey}
    {
      state := InitialState;
      storage := saved;
      sent := [];
      new;
      var token := Lookup(storage, TokenKey);
      var userStr := Lookup(storage, UserKey);
      if Present(token) && Present(userStr) {
        match parse(userStr.value)
        case Some(user) =>
          Dispatch(LoginSuccess(user, token.value));
        case None =>
          storage := storage - {TokenKey};
          storage := storage - {UserKey};
      }
    }

    /** Applies one action through the reducer. */
    method Dispatch(a: Action)
      requires Valid()
      modifies this`state
      ensures Valid()
      ensures state == Reduce(old(state), a)
    {
      state := Reduce(state, a);
    }

    /**
      Logs in. On success both entries are stored and the session holds exactly
      the returned user and token; on any failure the session is emptied, the
      message recorded, storage untouched, and the error rethrown.
     */
    method Login(email: string, password: string, reply: Reply) returns (out: Outcome<()>)
      requires Valid()
      modifies this
      ensures Valid()
      ensures sent == old(sent) + [LoginCall(email, password)]
      ensures Succeeded(reply) ==>
        var user := User(reply.body.username, reply.body.email);
        out == Returned(()) &&
        storage == old(storage)[TokenKey := reply.body.token][UserKey := SerializeUser(user)] &&
        state == AuthState(Some(user), Some(reply.body.token), true, false, None)
      ensures !Succeeded(reply) ==>
        var m := FailureMessage(reply, "Login failed");
        out == Thrown(m) && storage == old(storage) &&
        state == AuthState(None, None, false, false, Some(m))
    {
      Dispatch(LoginRequest);
      sent := sent + [LoginCall(email, password)];
      if !Succeeded(reply) {
        var m := FailureMessage(reply, "Login failed");
        Dispatch(LoginFailure(Some(m)));
        return Thrown(m);
      }
      var user := User(reply.body.username, reply.body.email);
      storage := storage[TokenKey := reply.body.token];
      storage := storage[UserKey := SerializeUser(user)];
      Dispatch(LoginSuccess(user, reply.body.token));
      out := Returned(());
    }

    /**
      Registers, then logs in with the same credentials. A rejected
      registration ends like a failed login; otherwise the result is the
      login's.
     */
    method Register(email: string, password: string, username: string, reply: Reply, loginReply: Reply)
      returns (out: Outcome<()>)
      requires Valid()
      modifies this
      ensures Valid()
      ensures !Succeeded(reply) ==>
        var m := FailureMessage(reply, "Registration failed");
        sent == old(sent) + [RegisterCall(email, password, username)] &&
        out == Thrown(m) && storage == old(storage) &&
        state == AuthState(None, None, false, false, Some(m))
      ensures Succeeded(reply) ==>
        sent == old(sent) + [RegisterCall(email, password, username), LoginCall(email, password)]
      ensures Succeeded(reply) && Succeeded(loginReply) ==>
        var user := User(loginReply.body.username, loginReply.body.email);
        out == Returned(()) &&
        storage == old(storage)[TokenKey := loginReply.body.token][UserKey := SerializeUser(user)] &&
        state == AuthState(Some(user), Some(loginReply.body.token), true, false, None)
      ensures Succeeded(reply) && !Succeeded(loginReply) ==>
        var m := FailureMessage(loginReply, "Login failed");
        out == Thrown(m) && storage == old(storage) &&
        state == AuthState(None, None, false, false, Some(m))
    {
      Dispatch(LoginRequest);
      sent := sent + [RegisterCall(email, password, username)];
      if !Succeeded(reply) {
        var m := FailureMessage(reply, "Registration failed");
        Dispatch(LoginFailure(Some(m)));
        return Thrown(m);
      }
      out := Login(email, password, loginReply);
      if out.Thrown? {
        Dispatch(LoginFailure(Some(out.message)));
      }
    }

    /**
      Logs out. The server is told only when a token is held; whatever the
      request does, both entries are removed and the session is emptied.
     */
    method Logout()
      requires Valid()
      modifies this
      ensures Valid()
      ensures sent == if Present(old(state.token)) then old(sent) + [LogoutCall(old(state.token).value)] else old(sent)
      ensures storage == old(storage) - {TokenKey, UserKey}
      ensures state == AuthState(None, None, false, old(state.isLoading), old(state.error))
    {
      if Present(state.token) {
        sent := sent + [LogoutCall(state.token.value)];
      }
      storage := storage - {TokenKey};
      storage := storage - {UserKey};
      Dispatch(Action.Logout);
    }

    /**
      Renames the signed-in user. Without a token it throws before any request;
      after an accepted request only the user's name changes, in the session
      and in the stored record.
     */
    method UpdateProfile(name: string, reply: Reply) returns (out: Outcome<()>)
      requires Valid()
      modifies this
      ensures Valid()
      ensures !Present(old(state.token)) ==>
        out == Thrown("Not authenticated") &&
        state == old(state) && storage == old(storage) && sent == old(sent)
      ensures Present(old(state.token)) ==>
        sent == old(sent) + [UpdateProfileCall(old(state.token).value, name)]
      ensures Present(old(state.token)) && !Succeeded(reply) ==>
        out == Thrown(FailureMessage(reply, "Profile update failed")) &&
        state == old(state) && storage == old(storage)
      ensures Present(old(state.token)) && Succeeded(reply) ==>
        var user := User(name, old(state.user).value.email);
        out == Returned(()) &&
        state == old(state).(user := Some(user)) &&
        storage == old(storage)[UserKey := SerializeUser(user)]
    {
      if !Present(state.token) {
        return Thrown("Not authenticated");
      }
      sent := sent + [UpdateProfileCall(state.token.value, name)];
      if !Succeeded(reply) {
        return Thrown(FailureMessage(reply, "Profile update failed"));
      }
      if state.user.Some? {
        var updated := state.user.value.(username := name);
        storage := storage[UserKey := SerializeUser(updated)];
        Dispatch(UpdateUser(updated));
      }
      out := Returned(());
    }

    /**
      Asks the server for a reset code and resolves with the reply's message
      (the code); the session and storage are not touched.
     */
    method RequestPasswordReset(email: string, reply: Reply) returns (out: Outcome<JsonValue>)
      modifies this`sent
      ensures sent == old(sent) + [ResetPasswordCall(email)]
      ensures Succeeded(reply) ==> out == Returned(reply.body.message)
      ensures !Succeeded(reply) ==> out == Thrown(FailureMessage(reply, "Password reset request failed"))
    {
      sent := sent + [ResetPasswordCall(email)];
      if !Succeeded(reply) {
        return Thrown(FailureMessage(reply, "Password reset request failed"));
      }
      out := Returned(reply.body.message);
    }

    /** Submits a reset code and a new password; the session and storage are not touched. */
    method UpdatePassword(email: string, otp: Option<int>, newPassword: string, reply: Reply)
      returns (out: Outcome<()>)
      modifies this`sent
      ensures sent == old(sent) + [UpdatePasswordCall(email, otp, newPassword)]
      ensures Succeeded(reply) ==> out == Returned(())
      ensures !Succeeded(reply) ==> out == Thrown(FailureMessage(reply, "Password update failed"))
    {
      sent := sent + [UpdatePasswordCall(email, otp, newPassword)];
      if !Succeeded(reply) {
        return Thrown(FailureMessage(reply, "Password update failed"));
      }
      out := Returned(());
    }

    /**
      Clears the error by dispatching a failure with a null message, which
      also drops the session: the result is the initial state.
     */
    method ClearError()
      requires Valid()
      modifies this`state
      ensures Valid()
      ensures state == InitialState
    {
      Dispatch(LoginFailure(None));
    }
  }

  /** A login that succeeds with a non-empty token is restored exactly by the next mount. */
  method LoginSurvivesReload(p: AuthProvider, email: string, password: string, reply: Reply)
    returns (q: AuthProvider)
    requires p.Valid() && Succeeded(reply) && reply.body.token != ""
    modifies p
    ensures q.state == p.state && q.storage == p.storage
  {
    var _ := p.Login(email, password, reply);
    var user := User(reply.body.username, reply.body.email);
    ParseSerialize(user);
    q := new AuthProvider.Mount(p.storage, ParseUser);
  }

  /** After a logout the next mount starts signed out, whatever the stored record parser does. */
  method LogoutSurvivesReload(p: AuthProvider, parse: string -> Option<User>) returns (q: AuthProvider)
    requires p.Valid()
    modifies p
    ensures q.state == InitialState && q.storage == p.storage
  {
    p.Logout();
    q := new AuthProvider.Mount(p.storage, parse);
  }
}
