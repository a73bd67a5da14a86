/**
 * The authentication controller: register, login, social login, forgot password
 * and reset password, run over the user table, the password-reset token table and
 * the seeded role names. Each handler is a method that either succeeds with `Ok`
 * or stops with `Err(kind)`, one kind per error response of the controller.
 */
module Auth {
  import opened Optional
  import opened Crypto
  import opened Users

  /** One kind per failure the handlers report. */
  datatype Error =
    | EmailExists           // register: "Email already exists"
    | RoleNotFound          // "Role 'user' not found" (a seeding error, raised as an exception)
    | UserNotFound          // login, forgot password: "User not found"
    | WrongPassword         // login: "Wrong password"
    | InvalidFirebaseToken  // social login: the identity token did not verify
    | InvalidToken          // reset password: no such reset token
    | TokenExpired          // reset password: the token's expiry lies before now
    | MailFailure           // forgot password: the mail sender threw an unchecked exception

  datatype Result<+T> = Ok(value: T) | Err(error: Error)

  /** What a successful register or login hands back: the session token and the user. */
  datatype Session = Session(token: string, userId: nat, user: User)

  /** A password-reset token's row: the user it belongs to and its expiry, in seconds. */
  datatype ResetToken = ResetToken(owner: nat, expiry: int)

  /** One call of the mail service: recipient, subject and body. */
  datatype Mail = Mail(to: string, subject: string, body: string)

  /**
   * How a call of the mail service ends: it sends, or the message could not be
   * built (a checked exception the service catches and logs), or the sender
   * throws an unchecked exception, which the service does not catch.
   */
  datatype SendOutcome = Sent | Swallowed | Thrown

  /** The claims of a verified identity token: uid, and the email, name and picture claims. */
  datatype Claims = Claims(uid: string, email: Option<string>, name: Option<string>, picture: Option<string>)

  /** A reset token lives one hour (`plusHours(1)`). */
  const TokenLifetime: int := 3600

  const ResetSubject: string := "Reset Password"
  const ResetLinkPrefix: string := "http://localhost:8080/api/reset-password?token="

  function ResetMailBody(token: string): string
  {
    "Click here to reset: " + ResetLinkPrefix + token
  }

  /** `isBefore` is strict: a token whose expiry equals now is still accepted. */
  predicate Expired(t: ResetToken, now: int)
  {
    t.expiry < now
  }

  /** The record register saves: email, hashed password and the default role, nothing else. */
  function LocalUser(email: string, hash: string): User
  {
    User(Some(email), Some(hash), None, None, None, None, DefaultRole)
  }

  /** The record social login creates when no user matches: the claims, the link, no password. */
  function SocialUser(provider: string, c: Claims): User
  {
    User(c.email, None, c.name, c.picture, Some(provider), Some(c.uid), DefaultRole)
  }

  /** An email-matched user after social login merges into it: link, name and avatar overwritten. */
  function Linked(u: User, provider: string, c: Claims): User
  {
    u.(socialProvider := Some(provider), socialId := Some(c.uid), fullName := c.name, avatarUrl := c.picture)
  }

  /** Every reset token belongs to an existing user. */
  ghost predicate TokenOwnersExist(users: seq<User>, tokens: map<string, ResetToken>)
  {
    forall t :: t in tokens ==> tokens[t].owner < |users|
  }

  class AuthController {
    var users: seq<User>
    var tokens: map<string, ResetToken>
    /** The mails handed to the mail service, oldest first. */
    var outbox: seq<Mail>
    const roles: set<string>
    const encoder: PasswordEncoder
    /**
     * The session-token issuer: a token for the user's email (which may be null),
     * signed at the given clock reading.
     */
    const issue: (Option<string>, int) -> string

    ghost predicate Valid()
      reads this
    {
      EmailsUnique(users) && SocialLinksUnique(users) && Reachable(users) && TokenOwnersExist(users, tokens)
    }

    constructor (users0: seq<User>, tokens0: map<string, ResetToken>, roles0: set<string>,
                 encoder0: PasswordEncoder, issue0: (Option<string>, int) -> string)
      requires EmailsUnique(users0) && SocialLinksUnique(users0) && Reachable(users0)
      requires TokenOwnersExist(users0, tokens0)
      ensures Valid()
      ensures users == users0 && tokens == tokens0 && outbox == []
      ensures roles == roles0 && encoder == encoder0 && issue == issue0
    {
      users, tokens, outbox := users0, tokens0, [];
      roles, encoder, issue := roles0, encoder0, issue0;
    }

    /** POST /register, at clock reading `now`. */
    method Register(email: string, password: string, now: int) returns (r: Result<Session>)
      requires Valid()
      modifies this
      ensures Valid()
      ensures tokens == old(tokens) && outbox == old(outbox)
      ensures old(FindByEmail(users, email)).Some? ==> r == Err(EmailExists) && users == old(users)
      ensures old(FindByEmail(users, email)).None? && DefaultRole !in roles ==>
        r == Err(RoleNotFound) && users == old(users)
      ensures old(FindByEmail(users, email)).None? && DefaultRole in roles ==>
        var u := LocalUser(email, encoder.encode(password));
        && users == old(users) + [u]
        && r == Ok(Session(issue(Some(email), now), |old(users)|, u))
        && FindByEmail(users, email) == Some(|old(users)|)
    {
      if FindByEmail(users, email).Some? {
        return Err(EmailExists);
      }
      var hash := encoder.encode(password);
      if DefaultRole !in roles {
        return Err(RoleNotFound);
      }
      var user := LocalUser(email, hash);
      var id := |users|;
      SaveNewKeepsUnique(users, user);
      FindByEmailAfterSave(users, user, email);
      users := users + [user];
      r := Ok(Session(issue(user.email, now), id, user));
    }

    /** POST /login, at clock reading `now`. Changes nothing. */
    method Login(email: string, password: string, now: int) returns (r: Result<Session>)
      requires Valid()
      ensures r.Err? ==> r.error == UserNotFound || r.error == WrongPassword
      ensures r == Err(UserNotFound) <==> forall i :: 0 <= i < |users| ==> users[i].email != Some(email)
      ensures r == Err(WrongPassword) <==>
        exists i :: 0 <= i < |users| && users[i].email == Some(email) && !Matches(encoder, password, users[i].password)
      ensures r.Ok? ==>
        && r.value.userId < |users|
        && users[r.value.userId].email == Some(email)
        && Matches(encoder, password, users[r.value.userId].password)
        && r.value == Session(issue(Some(email), now), r.value.userId, users[r.value.userId])
    {
      var found := FindByEmail(users, email);
      if found.None? {
        return Err(UserNotFound);
      }
      var id := found.value;
      var user := users[id];
      if !Matches(encoder, password, user.password) {
        return Err(WrongPassword);
      }
      r := Ok(Session(issue(user.email, now), id, user));
    }

    /**
     * POST /login/social, at clock reading `now`. `verified` is the identity verifier's
     * answer for the request's token.
     */
    method SocialLogin(provider: string, verified: Option<Claims>, now: int) returns (r: Result<Session>)
      requires Valid()
      modifies this
      ensures Valid()
      ensures tokens == old(tokens) && outbox == old(outbox)
      ensures verified.None? ==> r == Err(InvalidFirebaseToken) && users == old(users)
      ensures verified.Some? && old(FindBySocial(users, provider, verified.value.uid)).Some? ==>
        var i := old(FindBySocial(users, provider, verified.value.uid)).value;
        users == old(users) && r == Ok(Session(issue(users[i].email, now), i, users[i]))
      ensures verified.Some? && old(FindBySocial(users, provider, verified.value.uid)).None? &&
              verified.value.email.Some? && old(FindByEmail(users, verified.value.email.value)).Some? ==>
        var i := old(FindByEmail(users, verified.value.email.value)).value;
        var u := Linked(old(users)[i], provider, verified.value);
        users == old(users)[i := u] && r == Ok(Session(issue(u.email, now), i, u))
      ensures verified.Some? && old(FindBySocial(users, provider, verified.value.uid)).None? &&
              (verified.value.email.None? || old(FindByEmail(users, verified.value.email.value)).None?) ==>
        var u := SocialUser(provider, verified.value);
        if DefaultRole in roles then
          users == old(users) + [u] && r == Ok(Session(issue(u.email, now), |old(users)|, u))
        else
          users == old(users) && r == Err(RoleNotFound)
      ensures r.Ok? ==>
        && r.value.userId < |users| && r.value.user == users[r.value.userId]
        && r.value.token == issue(r.value.user.email, now)
        && FindBySocial(users, provider, verified.value.uid) == Some(r.value.userId)
    {
      if verified.None? {
        return Err(InvalidFirebaseToken);
      }
      var claims := verified.value;
      var linked := FindBySocial(users, provider, claims.uid);
      if linked.Some? {
        var user := users[linked.value];
        return Ok(Session(issue(user.email, now), linked.value, user));
      }
      var existing := if claims.email.Some? then FindByEmail(users, claims.email.value) else None;
      if existing.Some? {
        var i := existing.value;
        var user := Linked(users[i], provider, claims);
        SaveExistingKeepsUnique(users, i, user);
        FindBySocialAfterLink(users, i, user, provider, claims.uid);
        users := users[i := user];
        return Ok(Session(issue(user.email, now), i, user));
      }
      if DefaultRole !in roles {
        return Err(RoleNotFound);
      }
      var user := SocialUser(provider, claims);
      var id := |users|;
      SaveNewKeepsUnique(users, user);
      FindBySocialAfterSave(users, user, provider, claims.uid);
      users := users + [user];
      r := Ok(Session(issue(user.email, now), id, user));
    }

    /**
     * POST /forgot-password. `uuid` is the random token string, `now` the clock's
     * reading and `send` how the mail service's call ends, all supplied by the caller.
     */
    method ForgotPassword(email: string, uuid: string, now: int, send: SendOutcome) returns (r: Result<()>)
      requires Valid()
      requires uuid !in tokens
      modifies this
      ensures Valid()
      ensures users == old(users)
      ensures old(FindByEmail(users, email)).None? ==>
        r == Err(UserNotFound) && tokens == old(tokens) && outbox == old(outbox)
      ensures old(FindByEmail(users, email)).Some? ==>
        && r == (if send == Thrown then Err(MailFailure) else Ok(()))
        && tokens == old(tokens)[uuid := ResetToken(old(FindByEmail(users, email)).value, now + TokenLifetime)]
        && outbox == old(outbox) + [Mail(email, ResetSubject, ResetMailBody(uuid))]
    {
      var found := FindByEmail(users, email);
      if found.None? {
        return Err(UserNotFound);
      }
      var resetToken := ResetToken(found.value, now + TokenLifetime);
      tokens := tokens[uuid := resetToken];
      outbox := outbox + [Mail(email, ResetSubject, ResetMailBody(uuid))];
      if send == Thrown {
        return Err(MailFailure);
      }
      r := Ok(());
    }

    /** POST /reset-password, at clock reading `now`. */
    method ResetPassword(token: string, newPassword: string, now: int) returns (r: Result<()>)
      requires Valid()
      modifies this
      ensures Valid()
      ensures outbox == old(outbox)
      ensures token !in old(tokens) ==>
        r == Err(InvalidToken) && users == old(users) && tokens == old(tokens)
      ensures token in old(tokens) && Expired(old(tokens)[token], now) ==>
        r == Err(TokenExpired) && users == old(users) && tokens == old(tokens)
      ensures token in old(tokens) && !Expired(old(tokens)[token], now) ==>
        var owner := old(tokens)[token].owner;
        && r == Ok(())
        && users == old(users)[owner := old(users)[owner].(password := Some(encoder.encode(newPassword)))]
        && tokens == old(tokens) - {token}
    {
      if token !in tokens {
        return Err(InvalidToken);
      }
      var resetToken := tokens[token];
      if Expired(resetToken, now) {
        return Err(TokenExpired);
      }
      var owner := resetToken.owner;
      var user := users[owner].(password := Some(encoder.encode(newPassword)));
      SaveExistingKeepsUnique(users, owner, user);
      users := users[owner := user];
      tokens := tokens - {token};
      r := Ok(());
    }
  }
}
