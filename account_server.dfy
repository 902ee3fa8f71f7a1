/**
  The account service: a table of users keyed by their unique email, and the
  routes that register, authenticate, issue one-time reset codes, change
  passwords and rename users. Password hashing, token issuing, the clock and
  the random code are abstracted (see the README).
 */
module AccountServer {
  import opened Wrappers

  /**
    A stored password hash, standing for bcrypt's output. The model treats it
    as determined by the whole password; bcrypt's own limits are not modelled.
   */
  datatype Digest = Digest(of: string)

  function Hash(password: string): Digest {
    Digest(password)
  }

  /** `check_password_hash`: does the stored hash accept this password. */
  predicate CheckHash(d: Digest, password: string) {
    d == Hash(password)
  }

  /** A hash accepts the password it was made from and no other. */
  lemma CheckHashExact(password: string, guess: string)
    ensures CheckHash(Hash(password), guess) <==> guess == password
  {
  }

  /** A signed token; only the identity it carries matters to this model. */
  datatype Jwt = AccessToken(identity: string) | RefreshToken(identity: string)

  /** A row of the user table; the clock is in microseconds. */
  datatype UserRow = UserRow(
    id: nat,
    email: string,
    password: Digest,
    name: string,
    otp: Option<int>,
    otpExpiry: Option<int>)

  /** A JSON response body. */
  datatype Body =
    | Message(text: string)
    | OtpIssued(code: int)
    | Tokens(token: Jwt, refresh: Jwt, username: string, email: string)

  datatype Reply = Reply(status: int, body: Body)

  const OtpMin: int := 100000
  const OtpMax: int := 999999
  /** `timedelta(minutes=5)` in microseconds. */
  const OtpLifetime: int := 5 * 60 * 1000000

  /** A code is held exactly when its expiry is, and is six digits. */
  predicate OtpWellFormed(row: UserRow) {
    (row.otp.Some? <==> row.otpExpiry.Some?) &&
    (row.otp.Some? ==> OtpMin <= row.otp.value <= OtpMax)
  }

  /** The result of update_password for a row and a submitted code at time `now`. */
  datatype OtpVerdict = Accepted | Rejected | Crashed

  /**
    The guard of update_password. A stored code equal to the submitted one
    passes only before its expiry; when both are null the comparison with the
    null expiry raises (a server error) instead.
   */
  function CheckOtp(row: UserRow, otp: Option<int>, now: int): (v: OtpVerdict)
    requires OtpWellFormed(row)
    ensures v == Accepted <==> otp.Some? && row.otp == otp && now <= row.otpExpiry.value
    ensures v == Crashed <==> otp.None? && row.otp.None?
  {
    if row.otp != otp then Rejected
    else if row.otpExpiry.None? then Crashed
    else if now > row.otpExpiry.value then Rejected
    else Accepted
  }

  /** Rows are filed under their own email, ids are distinct and below `nextId`, codes are well formed. */
  ghost predicate TableValid(users: map<string, UserRow>, nextId: nat) {
    (forall e :: e in users ==> users[e].email == e && users[e].id < nextId && OtpWellFormed(users[e])) &&
    (forall e1, e2 :: e1 in users && e2 in users && e1 != e2 ==> users[e1].id != users[e2].id)
  }

  class UserStore {
    var users: map<string, UserRow>
    var nextId: nat

    ghost predicate Valid()
      reads this
    {
      TableValid(users, nextId)
    }

    /**
      Server start: `create_all` keeps the rows an earlier run stored in
      `users.db` (none on a new file); `nextId` is the id the next insert gets.
     */
    constructor (stored: map<string, UserRow>, next: nat)
      requires TableValid(stored, next)
      ensures Valid() && users == stored && nextId == next
    {
      users := stored;
      nextId := next;
    }

    /** POST /register: refuses a known email, otherwise adds exactly one row. */
    method Register(email: string, password: string, username: string) returns (r: Reply)
      requires Valid()
      modifies this
      ensures Valid()
      ensures email in old(users) ==>
        r == Reply(400, Message("User already exists")) && users == old(users) && nextId == old(nextId)
      ensures email !in old(users) ==>
        r == Reply(200, Message("User registered successfully")) &&
        users == old(users)[email := UserRow(old(nextId), email, Hash(password), username, None, None)] &&
        nextId == old(nextId) + 1
    {
      if email in users {
        return Reply(400, Message("User already exists"));
      }
      var row := UserRow(nextId, email, Hash(password), username, None, None);
      users := users[email := row];
      nextId := nextId + 1;
      r := Reply(200, Message("User registered successfully"));
    }

    /** POST /login: tokens for the row's email when the password checks, 401 otherwise. */
    method Login(email: string, password: string) returns (r: Reply)
      requires Valid()
      ensures r.status == 200 <==> email in users && CheckHash(users[email].password, password)
      ensures r.status == 200 ==>
        r.body == Tokens(AccessToken(email), RefreshToken(email), users[email].name, email)
      ensures r.status != 200 ==> r == Reply(401, Message("Invalid credentials"))
    {
      if email !in users || !CheckHash(users[email].password, password) {
        return Reply(401, Message("Invalid credentials"));
      }
      var user := users[email];
      r := Reply(200, Tokens(AccessToken(email), RefreshToken(email), user.name, user.email));
    }

    /**
      POST /reset-password: gives a known user a fresh six-digit code valid
      for five minutes and returns it; nothing else changes.
     */
    method ResetPassword(email: string, now: int) returns (r: Reply)
      requires Valid()
      modifies this
      ensures Valid() && nextId == old(nextId)
      ensures email !in old(users) ==> r == Reply(404, Message("User not found")) && users == old(users)
      ensures email in old(users) ==>
        r.status == 200 && r.body.OtpIssued? && OtpMin <= r.body.code <= OtpMax &&
        users == old(users)[email := old(users)[email].(otp := Some(r.body.code), otpExpiry := Some(now + OtpLifetime))]
    {
      if email !in users {
        return Reply(404, Message("User not found"));
      }
      var otp :| OtpMin <= otp <= OtpMax;
      var expiry := now + OtpLifetime;
      var user := users[email];
      users := users[email := user.(otp := Some(otp), otpExpiry := Some(expiry))];
      r := Reply(200, OtpIssued(otp));
    }

    /**
      POST /update-password: with a matching, unexpired code, replaces the
      password and spends the code; otherwise nothing changes.
     */
    method UpdatePassword(email: string, otp: Option<int>, newPassword: string, now: int) returns (r: Reply)
      requires Valid()
      modifies this
      ensures Valid() && nextId == old(nextId)
      ensures email in old(users) && CheckOtp(old(users)[email], otp, now) == Accepted ==>
        r == Reply(200, Message("Password updated successfully")) &&
        users == old(users)[email := old(users)[email].(password := Hash(newPassword), otp := None, otpExpiry := None)]
      ensures email in old(users) && CheckOtp(old(users)[email], otp, now) == Crashed ==>
        r.status == 500 && users == old(users)
      ensures email !in old(users) || CheckOtp(old(users)[email], otp, now) == Rejected ==>
        r == Reply(400, Message("Invalid or expired OTP")) && users == old(users)
    {
      if email !in users {
        return Reply(400, Message("Invalid or expired OTP"));
      }
      var user := users[email];
      var verdict := CheckOtp(user, otp, now);
      if verdict == Crashed {
        return Reply(500, Message("Internal Server Error"));
      } else if verdict == Rejected {
        return Reply(400, Message("Invalid or expired OTP"));
      }
      users := users[email := user.(password := Hash(newPassword), otp := None, otpExpiry := None)];
      r := Reply(200, Message("Password updated successfully"));
    }

    /** POST /logout: acknowledges; the table is not touched. */
    method Logout(identity: string) returns (r: Reply)
      requires Valid()
      ensures r == Reply(200, Message("Logout successful"))
    {
      r := Reply(200, Message("Logout successful"));
    }

    /** PUT /update-profile: renames the row of the token's identity, or 404 when there is none. */
    method UpdateProfile(identity: string, newName: string) returns (r: Reply)
      requires Valid()
      modifies this
      ensures Valid() && nextId == old(nextId)
      ensures identity !in old(users) ==> r == Reply(404, Message("User not found")) && users == old(users)
      ensures identity in old(users) ==>
        r == Reply(200, Message("Profile updated successfully")) &&
        users == old(users)[identity := old(users)[identity].(name := newName)]
    {
      if identity !in users {
        return Reply(404, Message("User not found"));
      }
      var user := users[identity];
      users := users[identity := user.(name := newName)];
      r := Reply(200, Message("Profile updated successfully"));
    }
  }

  /** A code that changed a password is spent: submitting it again is refused. */
  method OtpIsSingleUse(s: UserStore, email: string, otp: Option<int>, first: string, second: string, now: int, later: int)
    returns (r1: Reply, r2: Reply)
    requires s.Valid()
    modifies s
    ensures r1.status == 200 ==> r2 == Reply(400, Message("Invalid or expired OTP"))
  {
    r1 := s.UpdatePassword(email, otp, first, now);
    r2 := s.UpdatePassword(email, otp, second, later);
  }

  /** The code a reset hands out changes the password when sent back within five minutes. */
  method IssuedOtpUnlocks(s: UserStore, email: string, newPassword: string, now: int, later: int)
    returns (r1: Reply, r2: Reply)
    requires s.Valid() && email in s.users && now <= later <= now + OtpLifetime
    modifies s
    ensures r1.status == 200 && r2.status == 200
    ensures email in s.users && CheckHash(s.users[email].password, newPassword)
  {
    r1 := s.ResetPassword(email, now);
    r2 := s.UpdatePassword(email, Some(r1.body.code), newPassword, later);
  }

  /** After the five minutes the issued code no longer works. */
  method IssuedOtpExpires(s: UserStore, email: string, newPassword: string, now: int, later: int)
    returns (r1: Reply, r2: Reply)
    requires s.Valid() && email in s.users && later > now + OtpLifetime
    modifies s
    ensures r2 == Reply(400, Message("Invalid or expired OTP"))
  {
    r1 := s.ResetPassword(email, now);
    r2 := s.UpdatePassword(email, Some(r1.body.code), newPassword, later);
  }
}
