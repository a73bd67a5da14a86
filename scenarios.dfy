/**
 * Sequences of requests against one controller, and what the handlers' contracts
 * let a client conclude about them.
 */
module Scenarios {
  import opened Optional
  import opened Crypto
  import opened Users
  import opened Auth

  /**
   * A fresh email registers at `now`, and the same credentials log in at `later` as
   * the same user; each session is signed for the email at its own time.
   */
  method RegisterThenLogin(c: AuthController, email: string, password: string, now: int, later: int)
    returns (reg: Result<Session>, login: Result<Session>)
    requires c.Valid() && Sound(c.encoder) && DefaultRole in c.roles
    requires FindByEmail(c.users, email).None?
    modifies c
    ensures reg.Ok? && login.Ok?
    ensures login.value.userId == reg.value.userId && login.value.user == reg.value.user
    ensures reg.value.token == c.issue(Some(email), now) && login.value.token == c.issue(Some(email), later)
  {
    reg := c.Register(email, password, now);
    EncodedMatches(c.encoder, password);
    var id := reg.value.userId;
    OnlyOwnerHasEmail(c.users, id);
    login := c.Login(email, password, later);
  }

  /** Once an email is registered, registering it again fails whatever the password. */
  method RegisterTwice(c: AuthController, email: string, password1: string, password2: string, now: int)
    returns (first: Result<Session>, second: Result<Session>)
    requires c.Valid()
    modifies c
    ensures first.Ok? ==> second == Err(EmailExists) && c.users == old(c.users) + [first.value.user]
  {
    first := c.Register(email, password1, now);
    second := c.Register(email, password2, now);
  }

  /**
   * A second social login with the same identity returns the same account, with a
   * session signed at the second call's time, and leaves the stored record as it was.
   */
  method SocialLoginTwice(c: AuthController, provider: string, claims: Claims, now: int, later: int)
    returns (first: Result<Session>, second: Result<Session>)
    requires c.Valid()
    modifies c
    ensures first.Ok? ==> second.Ok? && second.value.userId == first.value.userId && second.value.user == first.value.user
    ensures first.Ok? ==> second.value.token == c.issue(first.value.user.email, later)
    ensures first.Ok? ==> first.value.userId < |c.users| && c.users[first.value.userId] == first.value.user
    ensures first.Ok? ==> |c.users| == |old(c.users)| || |c.users| == |old(c.users)| + 1
  {
    first := c.SocialLogin(provider, Some(claims), now);
    ghost var afterFirst := c.users;
    second := c.SocialLogin(provider, Some(claims), later);
    assert first.Ok? ==> c.users == afterFirst;
  }

  /**
   * An account registered with a password and later signed in through a provider
   * asserting the same email is merged, not duplicated: same id, password kept.
   */
  method RegisterThenSocialLogin(c: AuthController, email: string, password: string,
                                 provider: string, claims: Claims, now: int, later: int)
    returns (reg: Result<Session>, social: Result<Session>)
    requires c.Valid() && DefaultRole in c.roles
    requires FindByEmail(c.users, email).None?
    requires FindBySocial(c.users, provider, claims.uid).None?
    requires claims.email == Some(email)
    modifies c
    ensures reg.Ok? && social.Ok? && social.value.userId == reg.value.userId
    ensures |c.users| == |old(c.users)| + 1
    ensures social.value.user.password == Some(c.encoder.encode(password))
    ensures social.value.user.role == DefaultRole
    ensures SocialKey(social.value.user) == Some((provider, claims.uid))
  {
    FindBySocialAfterSave(c.users, LocalUser(email, c.encoder.encode(password)), provider, claims.uid);
    reg := c.Register(email, password, now);
    social := c.SocialLogin(provider, Some(claims), later);
  }

  /**
   * A reset link used within the hour sets the new password, after which the new
   * password logs in and the token table is back as it was; used later than that,
   * the link is refused and no password changes. The token is saved before the mail
   * is sent, so it works even when the mail service threw and the request failed.
   */
  method ForgotThenReset(c: AuthController, email: string, uuid: string, now: int, later: int,
                         newPassword: string, send: SendOutcome)
    returns (forgot: Result<()>, reset: Result<()>, login: Result<Session>)
    requires c.Valid() && Sound(c.encoder)
    requires uuid !in c.tokens && FindByEmail(c.users, email).Some?
    modifies c
    ensures forgot == if send == Thrown then Err(MailFailure) else Ok(())
    ensures later <= now + TokenLifetime ==>
      var i := old(FindByEmail(c.users, email)).value;
      && reset.Ok?
      && c.users == old(c.users)[i := old(c.users)[i].(password := Some(c.encoder.encode(newPassword)))]
      && c.tokens == old(c.tokens)
      && login.Ok? && login.value.userId == i
    ensures later > now + TokenLifetime ==>
      reset == Err(TokenExpired) && c.users == old(c.users) && uuid in c.tokens
  {
    ghost var i := FindByEmail(c.users, email).value;
    forgot := c.ForgotPassword(email, uuid, now, send);
    reset := c.ResetPassword(uuid, newPassword, later);
    EncodedMatches(c.encoder, newPassword);
    FindByEmailAfterUpdate(old(c.users), i, c.users[i], email);
    if later <= now + TokenLifetime {
      assert c.users[i].email == Some(email) && Matches(c.encoder, newPassword, c.users[i].password);
      OnlyOwnerHasEmail(c.users, i);
    }
    login := c.Login(email, newPassword, later);
    assert later <= now + TokenLifetime ==> c.tokens == old(c.tokens) by {
      if later <= now + TokenLifetime {
        assert c.tokens == old(c.tokens)[uuid := ResetToken(i, now + TokenLifetime)] - {uuid};
      }
    }
  }

  /** A reset token is consumed at most once: after a successful reset, the same token is unknown. */
  method ResetTwice(c: AuthController, token: string, password1: string, password2: string,
                    now1: int, now2: int)
    returns (first: Result<()>, second: Result<()>)
    requires c.Valid()
    modifies c
    ensures first.Ok? ==> second == Err(InvalidToken)
    ensures first.Ok? ==> token !in c.tokens
  {
    first := c.ResetPassword(token, password1, now1);
    second := c.ResetPassword(token, password2, now2);
  }
}
