/**
 * Password reset by e-mailed one-time password: a request row per OTP, at
 * most five wrong guesses, a verified flag, and a single-use reset token.
 */
module PasswordResets {
  import opened Wrappers
  import opened Tables
  import opened Store
  import opened Request
  import Accounts

  /** Wrong guesses allowed before a request is locked. */
  const MaxAttempts := 5
  const MinuteMs := 60000
  /** Default lifetimes in minutes (`OTP_TTL_MINUTES`, `RESET_TOKEN_TTL_MINUTES`). */
  const DefaultOtpTtl := 2
  const DefaultResetTtl := 15

  const NeutralMessage := "Jika email terdaftar, OTP akan dikirim."
  const InvalidOtp := "OTP tidak valid."
  const ExpiredOtp := "OTP sudah kadaluarsa."
  const TooManyAttempts := "Terlalu banyak percobaan. Minta OTP baru."
  const OtpSentMessage := "OTP dikirim."
  const OtpValidMessage := "OTP valid."

  /** A lifetime setting in minutes, or its default when unset. */
  function TtlMinutes(setting: Option<int>, default: int): (m: int)
    ensures setting.None? ==> m == default
    ensures setting.Some? ==> m == setting.value
  {
    if setting.Some? then setting.value else default
  }

  /** `now + minutes` in milliseconds. */
  function ExpiryAfter(now: int, minutes: int): int
  {
    now + minutes * MinuteMs
  }

  /** The requests of `user` not yet verified. */
  function Unverified(user: nat): PasswordReset -> bool
  {
    (r: PasswordReset) => r.userId == user && !r.verified
  }

  /** The requests carrying reset-token hash `h` whose user exists (the join). */
  function HoldsToken(users: Table<User>, h: string): PasswordReset -> bool
  {
    (r: PasswordReset) => r.resetTokenHash == Some(h) && r.userId in users.rows
  }

  /** A fresh request: no attempts yet, not verified, no reset token. */
  function NewReset(user: nat, otpHash: string, expiresAt: int, now: int): (r: PasswordReset)
    ensures r.attempts == 0 && !r.verified && r.resetTokenHash.None? && r.resetTokenExpiresAt.None?
    ensures r.userId == user && r.otpHash == otpHash && r.expiresAt == expiresAt && r.createdAt == now
  {
    PasswordReset(user, otpHash, expiresAt, 0, false, None, None, now)
  }

  /** `UPDATE password_resets SET attempts = attempts + 1 WHERE id = ?`. */
  function WrongGuess(t: Table<PasswordReset>, id: nat): (u: Table<PasswordReset>)
    requires t.Valid()
    ensures u.Valid() && u.next == t.next && u.rows.Keys == t.rows.Keys
    ensures forall k :: k in t.rows && k != id ==> u.rows[k] == t.rows[k]
    ensures id in t.rows ==> u.rows[id] == t.rows[id].(attempts := t.rows[id].attempts + 1)
  {
    if id in t.rows then UpdateRow(t, id, t.rows[id].(attempts := t.rows[id].attempts + 1)) else t
  }

  /** `UPDATE password_resets SET verified = 1, reset_token_hash = ?, reset_token_expires_at = ?`. */
  function MarkVerified(t: Table<PasswordReset>, id: nat, tokenHash: string, expiresAt: int): (u: Table<PasswordReset>)
    requires t.Valid()
    ensures u.Valid() && u.next == t.next && u.rows.Keys == t.rows.Keys
    ensures forall k :: k in t.rows && k != id ==> u.rows[k] == t.rows[k]
    ensures id in t.rows ==>
      u.rows[id] == t.rows[id].(verified := true, resetTokenHash := Some(tokenHash), resetTokenExpiresAt := Some(expiresAt))
  {
    if id in t.rows then
      UpdateRow(t, id, t.rows[id].(verified := true, resetTokenHash := Some(tokenHash), resetTokenExpiresAt := Some(expiresAt)))
    else t
  }

  /** `UPDATE password_resets SET reset_token_hash = NULL, reset_token_expires_at = NULL`. */
  function ClearToken(t: Table<PasswordReset>, id: nat): (u: Table<PasswordReset>)
    requires t.Valid()
    ensures u.Valid() && u.next == t.next && u.rows.Keys == t.rows.Keys
    ensures forall k :: k in t.rows && k != id ==> u.rows[k] == t.rows[k]
    ensures id in t.rows ==> u.rows[id] == t.rows[id].(resetTokenHash := None, resetTokenExpiresAt := None)
  {
    if id in t.rows then UpdateRow(t, id, t.rows[id].(resetTokenHash := None, resetTokenExpiresAt := None)) else t
  }

  /** `UPDATE users SET password_hash = ? WHERE id = ?`. */
  function SetPasswordHash(t: Table<User>, id: nat, hash: string): (u: Table<User>)
    requires t.Valid()
    ensures u.Valid() && u.next == t.next && u.rows.Keys == t.rows.Keys
    ensures forall k :: k in t.rows && k != id ==> u.rows[k] == t.rows[k]
    ensures id in t.rows ==> u.rows[id] == t.rows[id].(passwordHash := hash)
  {
    if id in t.rows then UpdateRow(t, id, t.rows[id].(passwordHash := hash)) else t
  }

  /** Every request has between 0 and `MaxAttempts` wrong guesses. */
  ghost predicate AttemptsBounded(t: Table<PasswordReset>)
  {
    forall id :: id in t.rows ==> 0 <= t.rows[id].attempts <= MaxAttempts
  }

  /** A new request starts within the bound. */
  lemma NewResetKeepsBound(t: Table<PasswordReset>, r: PasswordReset)
    requires t.Valid() && AttemptsBounded(t) && r.attempts == 0
    ensures AttemptsBounded(t.Insert(r))
  {
  }

  /** A wrong guess is counted only below the limit, so the bound holds afterwards. */
  lemma WrongGuessKeepsBound(t: Table<PasswordReset>, id: nat)
    requires t.Valid() && AttemptsBounded(t)
    requires id in t.rows ==> t.rows[id].attempts < MaxAttempts
    ensures AttemptsBounded(WrongGuess(t, id))
  {
  }

  /** Verifying and clearing tokens do not touch the attempt counts. */
  lemma TokenWritesKeepBound(t: Table<PasswordReset>, id: nat, tokenHash: string, expiresAt: int)
    requires t.Valid() && AttemptsBounded(t)
    ensures AttemptsBounded(MarkVerified(t, id, tokenHash, expiresAt))
    ensures AttemptsBounded(ClearToken(t, id))
  {
  }

  /** A verified request is never again the one `verifyOtp` considers. */
  lemma VerifiedIsNotPickedAgain(t: Table<PasswordReset>, id: nat, tokenHash: string, expiresAt: int)
    requires t.Valid() && id in t.rows
    ensures var u := MarkVerified(t, id, tokenHash, expiresAt);
      Newest(u, Unverified(t.rows[id].userId)) != Some(id)
  {
    var u := MarkVerified(t, id, tokenHash, expiresAt);
    NewestSpec(u, Unverified(t.rows[id].userId));
  }

  /**
   * After a reset the used token matches no request it did not match before,
   * and not the used one; a token held by one request only is then rejected.
   */
  lemma TokenIsSingleUse(users: Table<User>, t: Table<PasswordReset>, id: nat, h: string)
    requires t.Valid() && id in t.rows
    ensures var u := ClearToken(t, id);
      forall k :: k in u.rows && HoldsToken(users, h)(u.rows[k]) ==> k != id && HoldsToken(users, h)(t.rows[k])
    ensures (forall k :: k in t.rows && HoldsToken(users, h)(t.rows[k]) ==> k == id) ==>
      Newest(ClearToken(t, id), HoldsToken(users, h)).None?
  {
    var u := ClearToken(t, id);
    NewestSpec(u, HoldsToken(users, h));
  }

  datatype EmailBody = EmailBody(email: Field)
  datatype VerifyBody = VerifyBody(email: Field, otp: Field)
  datatype ResetBody = ResetBody(resetToken: Field, newPassword: Field, confirmPassword: Field)

  /** The answers of the three handlers. */
  datatype Reply =
    | Message(message: string)
    | OtpSent(message: string, devOtp: Option<string>, expiresAt: int)
    | OtpValid(message: string, resetToken: string, resetTokenExpiresAt: int)

  /**
   * `forgotPassword`: for a registered e-mail, record a new request holding
   * the hash of `otp`; the answer for an unknown e-mail is neutral and writes
   * nothing. The OTP is returned except when `APP_ENV` is `production`.
   */
  method ForgotPassword(db: Db, body: EmailBody, isEmail: string -> bool, hash: string -> string,
                        otp: string, now: int, otpTtl: Option<int>, appEnv: Option<string>)
    returns (status: int, reply: Reply)
    requires db.Valid()
    modifies db
    ensures db.Valid()
    ensures Email(body.email, isEmail).None? ==>
      status == 400 && reply == Message("Invalid payload") && db.State() == old(db.State())
    ensures Email(body.email, isEmail).Some? && Accounts.UserByEmail(old(db.users), Email(body.email, isEmail).value).None? ==>
      status == 200 && reply == Message(NeutralMessage) && db.State() == old(db.State())
    ensures Email(body.email, isEmail).Some? && Accounts.UserByEmail(old(db.users), Email(body.email, isEmail).value).Some? ==>
      var user := Accounts.UserByEmail(old(db.users), Email(body.email, isEmail).value).value;
      var expiresAt := ExpiryAfter(now, TtlMinutes(otpTtl, DefaultOtpTtl));
      status == 200 &&
      reply == OtpSent(OtpSentMessage, if appEnv == Some("production") then None else Some(otp), expiresAt) &&
      db.State() == old(db.State()).(resets := old(db.resets).Insert(NewReset(user, hash(otp), expiresAt, now)))
    ensures AttemptsBounded(old(db.resets)) ==> AttemptsBounded(db.resets)
  {
    var email := Email(body.email, isEmail);
    if email.None? {
      return 400, Message("Invalid payload");
    }
    var user := Accounts.UserByEmail(db.users, email.value);
    if user.None? {
      return 200, Message(NeutralMessage);
    }
    var otpHash := hash(otp);
    var ttl := TtlMinutes(otpTtl, DefaultOtpTtl);
    var expiresAt := ExpiryAfter(now, ttl);
    if AttemptsBounded(db.resets) {
      NewResetKeepsBound(db.resets, NewReset(user.value, otpHash, expiresAt, now));
    }
    db.resets := db.resets.Insert(NewReset(user.value, otpHash, expiresAt, now));
    var devOtp := if (if Truthy(appEnv) then appEnv.value else "development") != "production" then Some(otp) else None;
    return 200, OtpSent(OtpSentMessage, devOtp, expiresAt);
  }

  /** The request `verifyOtp` works on: the newest unverified one of the e-mail's user. */
  function PendingReset(users: Table<User>, resets: Table<PasswordReset>, email: string): Option<nat>
  {
    match Accounts.UserByEmail(users, email)
    case None => None
    case Some(user) => Newest(resets, Unverified(user))
  }

  /** `z.string().email()` and `z.string().min(4).max(8)`. */
  function ParseVerify(b: VerifyBody, isEmail: string -> bool): (r: Option<(string, string)>)
    ensures r.Some? <==> Email(b.email, isEmail).Some? && StringBetween(b.otp, 4, 8).Some?
    ensures r.Some? ==> r.value == (Email(b.email, isEmail).value, StringBetween(b.otp, 4, 8).value)
  {
    match (Email(b.email, isEmail), StringBetween(b.otp, 4, 8))
    case (Some(e), Some(o)) => Some((e, o))
    case _ => None
  }

  /**
   * `verifyOtp`. Expiry is checked before the attempt limit, and a locked
   * request answers 429 without the OTP being compared; a wrong OTP counts
   * one attempt; a right one verifies the request and stores the hash of the
   * new reset token.
   */
  method VerifyOtp(db: Db, body: VerifyBody, isEmail: string -> bool, hash: string -> string,
                   resetToken: string, now: int, resetTtl: Option<int>)
    returns (status: int, reply: Reply)
    requires db.Valid()
    modifies db
    ensures db.Valid()
    ensures ParseVerify(body, isEmail).None? ==>
      status == 400 && reply == Message("Invalid payload") && db.State() == old(db.State())
    ensures ParseVerify(body, isEmail).Some? &&
            PendingReset(old(db.users), old(db.resets), ParseVerify(body, isEmail).value.0).None? ==>
      status == 400 && reply == Message(InvalidOtp) && db.State() == old(db.State())
    ensures ParseVerify(body, isEmail).Some? &&
            PendingReset(old(db.users), old(db.resets), ParseVerify(body, isEmail).value.0).Some? ==>
      var otp := ParseVerify(body, isEmail).value.1;
      var id := PendingReset(old(db.users), old(db.resets), ParseVerify(body, isEmail).value.0).value;
      var r := old(db.resets.rows[id]);
      if r.expiresAt < now then
        status == 400 && reply == Message(ExpiredOtp) && db.State() == old(db.State())
      else if r.attempts >= MaxAttempts then
        status == 429 && reply == Message(TooManyAttempts) && db.State() == old(db.State())
      else if hash(otp) != r.otpHash then
        status == 400 && reply == Message(InvalidOtp) &&
        db.State() == old(db.State()).(resets := WrongGuess(old(db.resets), id))
      else
        var expiresAt := ExpiryAfter(now, TtlMinutes(resetTtl, DefaultResetTtl));
        status == 200 && reply == OtpValid(OtpValidMessage, resetToken, expiresAt) &&
        db.State() == old(db.State()).(resets := MarkVerified(old(db.resets), id, hash(resetToken), expiresAt))
    ensures AttemptsBounded(old(db.resets)) ==> AttemptsBounded(db.resets)
  {
    var parsed := ParseVerify(body, isEmail);
    if parsed.None? {
      return 400, Message("Invalid payload");
    }
    var (email, otp) := parsed.value;
    var user := Accounts.UserByEmail(db.users, email);
    if user.None? {
      return 400, Message(InvalidOtp);
    }
    var pending := Newest(db.resets, Unverified(user.value));
    if pending.None? {
      return 400, Message(InvalidOtp);
    }
    var id := pending.value;
    NewestSpec(db.resets, Unverified(user.value));
    var r := db.resets.rows[id];
    if r.expiresAt < now {
      return 400, Message(ExpiredOtp);
    }
    if r.attempts >= MaxAttempts {
      return 429, Message(TooManyAttempts);
    }
    if hash(otp) != r.otpHash {
      if AttemptsBounded(db.resets) {
        WrongGuessKeepsBound(db.resets, id);
      }
      db.resets := WrongGuess(db.resets, id);
      return 400, Message(InvalidOtp);
    }
    var ttl := TtlMinutes(resetTtl, DefaultResetTtl);
    var expiresAt := ExpiryAfter(now, ttl);
    if AttemptsBounded(db.resets) {
      TokenWritesKeepBound(db.resets, id, hash(resetToken), expiresAt);
    }
    db.resets := MarkVerified(db.resets, id, hash(resetToken), expiresAt);
    return 200, OtpValid(OtpValidMessage, resetToken, expiresAt);
  }

  /** `resetSchema`: a token of at least 20 characters, passwords of at least 8. */
  function ParseReset(b: ResetBody): (r: Option<(string, string, string)>)
    ensures r.Some? <==>
      StringAtLeast(b.resetToken, 20).Some? && StringAtLeast(b.newPassword, 8).Some? &&
      StringAtLeast(b.confirmPassword, 8).Some?
    ensures r.Some? ==> |r.value.0| >= 20 && |r.value.1| >= 8 && |r.value.2| >= 8
    ensures r.Some? ==> b.newPassword == Some(JStr(r.value.1)) && b.confirmPassword == Some(JStr(r.value.2))
  {
    match (StringAtLeast(b.resetToken, 20), StringAtLeast(b.newPassword, 8), StringAtLeast(b.confirmPassword, 8))
    case (Some(t), Some(p), Some(c)) => Some((t, p, c))
    case _ => None
  }

  /** A reset token's expiry: missing or past means expired. */
  predicate TokenExpired(r: PasswordReset, now: int)
  {
    r.resetTokenExpiresAt.None? || r.resetTokenExpiresAt.value < now
  }

  /**
   * `resetPassword`: with matching passwords and a live token, store the new
   * password's hash and clear the token so that it cannot be used again.
   */
  method ResetPassword(db: Db, body: ResetBody, hash: string -> string, hashPassword: string -> string, now: int)
    returns (status: int, reply: Reply)
    requires db.Valid()
    modifies db
    ensures db.Valid()
    ensures ParseReset(body).None? ==>
      status == 400 && reply == Message("Invalid payload") && db.State() == old(db.State())
    ensures ParseReset(body).Some? && ParseReset(body).value.1 != ParseReset(body).value.2 ==>
      status == 400 && reply == Message("Konfirmasi password tidak sama.") && db.State() == old(db.State())
    ensures ParseReset(body).Some? && ParseReset(body).value.1 == ParseReset(body).value.2 ==>
      var (token, password, _) := ParseReset(body).value;
      match Newest(old(db.resets), HoldsToken(old(db.users), hash(token)))
      case None =>
        status == 400 && reply == Message("Reset token tidak valid.") && db.State() == old(db.State())
      case Some(id) =>
        if TokenExpired(old(db.resets.rows[id]), now) then
          status == 400 && reply == Message("Reset token sudah kadaluarsa.") && db.State() == old(db.State())
        else
          status == 200 && reply == Message("Password berhasil diubah.") &&
          db.State() == old(db.State()).(
            users := SetPasswordHash(old(db.users), old(db.resets.rows[id].userId), hashPassword(password)),
            resets := ClearToken(old(db.resets), id))
    ensures AttemptsBounded(old(db.resets)) ==> AttemptsBounded(db.resets)
  {
    var parsed := ParseReset(body);
    if parsed.None? {
      return 400, Message("Invalid payload");
    }
    var (token, password, confirm) := parsed.value;
    if password != confirm {
      return 400, Message("Konfirmasi password tidak sama.");
    }
    var tokenHash := hash(token);
    var row := Newest(db.resets, HoldsToken(db.users, tokenHash));
    if row.None? {
      return 400, Message("Reset token tidak valid.");
    }
    var id := row.value;
    NewestSpec(db.resets, HoldsToken(db.users, tokenHash));
    var r := db.resets.rows[id];
    if r.resetTokenExpiresAt.None? || r.resetTokenExpiresAt.value < now {
      return 400, Message("Reset token sudah kadaluarsa.");
    }
    CompleteReset(db, id, r.userId, hashPassword(password));
    return 200, Message("Password berhasil diubah.");
  }

  /** The two writes of a successful reset: the new password hash, then the spent token. */
  method CompleteReset(db: Db, id: nat, user: nat, passwordHash: string)
    requires db.Valid()
    modifies db
    ensures db.Valid()
    ensures db.State() == old(db.State()).(
      users := SetPasswordHash(old(db.users), user, passwordHash),
      resets := ClearToken(old(db.resets), id))
    ensures AttemptsBounded(old(db.resets)) ==> AttemptsBounded(db.resets)
  {
    db.users := SetPasswordHash(db.users, user, passwordHash);
    if AttemptsBounded(db.resets) {
      TokenWritesKeepBound(db.resets, id, "", 0);
    }
    db.resets := ClearToken(db.resets, id);
  }
}
