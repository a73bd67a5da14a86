# Authentication controller model

A Dafny model of the authentication controller of a Spring Boot backend
(`AuthController`): its five request handlers — register, login, social login,
forgot password and reset password — over the user table, the password-reset
token table and the seeded role names.

- `optional.dfy` (`Optional`): `Option`, standing for a nullable reference.
- `crypto.dfy` (`Crypto`): the password encoder as a pair of functions
  (`encode`, `check`) given to the controller, `Matches` (a null stored hash
  never matches) and `Sound`, the one property assumed of BCrypt where needed:
  a password matches its own hash.
- `users.dfy` (`Users`): the `User` record, the user repository's two finders
  (`findByEmail`, `findBySocialProviderAndSocialId`) and the two uniqueness
  invariants: no two users share a non-null email, no two users share a
  (provider, social id) link.
- `auth.dfy` (`Auth`): the class `AuthController` with mutable `users`,
  `tokens` and `outbox` (the mails sent), constant `roles`, `encoder` and
  session-token issuer `issue`, and one method per handler returning
  `Ok(...)` or `Err(kind)`. `Valid()` is the invariant every handler keeps:
  both uniqueness invariants, every user can be found by email or by its social
  link (or both), and every reset token belongs to an existing user. The session
  token is `issue(email, now)`: the user's email (possibly null) signed at the
  request's clock reading.
- `scenarios.dfy` (`Scenarios`): request sequences and what the handlers'
  contracts guarantee about them (register then login, duplicate register,
  repeated social login, merge on email, forgot then reset, single use of a
  reset token).

The user table is a sequence: a user's id is its position. The database hands
out ids in order and this core never deletes a user, so saving a new user
appends and saving a fetched user writes its record back at its id.
Time is an integer number of seconds passed in as `now`; one hour is 3600.
How the mail service's call ends (sent, a caught `MessagingException`, or an
uncaught runtime exception from the sender) is passed in as a `SendOutcome`.
The random reset token string is passed in as `uuid`, required to be new.
The identity-token verification result is passed in as an `Option<Claims>`.

A reset token is refused only when its expiry lies strictly before now
(`isBefore`), so a token whose expiry equals now is still accepted.

## Model

| member | source | states |
|---|---|---|
| Users.FindByEmail | SpringBoot-BE/src/main/java/com/example/SpringBoot_BE/Repository/UserRepository.java:9 | the result is a user whose email is the given one and no earlier user has it; none exactly when no user has that email |
| Users.FindBySocial | SpringBoot-BE/src/main/java/com/example/SpringBoot_BE/Repository/UserRepository.java:10 | the result is a user linked to (provider, social id) and no earlier user is; none exactly when no user is linked to it |
| Users.FindByEmailFindsOwner | SpringBoot-BE/src/main/java/com/example/SpringBoot_BE/Repository/UserRepository.java:9 | with unique emails, looking up a user's email returns that very user |
| Users.FindBySocialFindsOwner | SpringBoot-BE/src/main/java/com/example/SpringBoot_BE/Repository/UserRepository.java:10 | with unique links, looking up a user's link returns that very user |
| Users.OnlyOwnerHasEmail | SpringBoot-BE/src/main/java/com/example/SpringBoot_BE/Repository/UserRepository.java:9 | with unique emails, the user the email finder returns is the only user with that email |
| Users.SaveNewKeepsUnique | SpringBoot-BE/src/main/java/com/example/SpringBoot_BE/Controller/AuthController.java:106-117 | saving a new user after both lookups failed keeps emails and links unique |
| Users.SaveExistingKeepsUnique | SpringBoot-BE/src/main/java/com/example/SpringBoot_BE/Controller/AuthController.java:97-103 | writing back a fetched user with its email kept and its link unchanged or free keeps emails and links unique |
| Users.FindByEmailAfterSave | SpringBoot-BE/src/main/java/com/example/SpringBoot_BE/Controller/AuthController.java:59 | after a save, earlier owners of an email are still found first, otherwise the new user if it has that email |
| Users.FindBySocialAfterSave | SpringBoot-BE/src/main/java/com/example/SpringBoot_BE/Controller/AuthController.java:117 | after a save, earlier holders of a link are still found first, otherwise the new user if it holds the link |
| Users.FindByEmailAfterUpdate | SpringBoot-BE/src/main/java/com/example/SpringBoot_BE/Controller/AuthController.java:163-165 | writing back a user with the same email leaves every email lookup unchanged |
| Users.FindBySocialAfterLink | SpringBoot-BE/src/main/java/com/example/SpringBoot_BE/Controller/AuthController.java:98-103 | a user given a link nobody held is then what the social finder returns for it |
| Crypto.EncodedMatches | SpringBoot-BE/src/main/java/com/example/SpringBoot_BE/Controller/AuthController.java:74 | under a sound encoder, a stored hash of a password accepts that password |
| Auth.AuthController.constructor | SpringBoot-BE/src/main/java/com/example/SpringBoot_BE/Controller/AuthController.java:31-39 | the controller starts on the given tables, roles, encoder and issuer, with no mail sent, and its invariant (unique emails and links, every user reachable by email or link, token owners exist) holds |
| Auth.AuthController.Register | SpringBoot-BE/src/main/java/com/example/SpringBoot_BE/Controller/AuthController.java:43-63 | a taken email fails with EmailExists and a missing role "user" with RoleNotFound, both changing nothing; otherwise exactly one user is appended with the email, Encode(password), no name, avatar or link, and role "user", the email finder now returns it, and the session is issued for the email at now; invariant kept, tokens and mail untouched |
| Auth.AuthController.Login | SpringBoot-BE/src/main/java/com/example/SpringBoot_BE/Controller/AuthController.java:67-80 | changes nothing; UserNotFound exactly when no user has the email, WrongPassword exactly when the email's user does not match the password (a null hash never matches), otherwise the session of that user issued for the email at now |
| Auth.AuthController.SocialLogin | SpringBoot-BE/src/main/java/com/example/SpringBoot_BE/Controller/AuthController.java:84-126 | an unverified token fails and changes nothing; a user already linked to (provider, uid) is returned unchanged; else a user with the claims' non-null email gets provider, uid, name and avatar overwritten, keeping email, password and role; else a new user with the claims, the link, no password and role "user" is appended, or RoleNotFound when that role is missing; on success the returned user is what the social finder now returns; invariant kept |
| Auth.AuthController.ForgotPassword | SpringBoot-BE/src/main/java/com/example/SpringBoot_BE/Controller/AuthController.java:130-148 | an unknown email fails and adds no token and no mail; otherwise exactly one token is added, owned by the email's user and expiring at now + 3600, and one mail with the reset link goes to the requested email; the request then succeeds unless the sender threw an unchecked exception, when it fails with MailFailure and the token stays; users untouched |
| Auth.AuthController.ResetPassword | SpringBoot-BE/src/main/java/com/example/SpringBoot_BE/Controller/AuthController.java:152-170 | an unknown token fails with InvalidToken; a token whose expiry is before now fails with TokenExpired, leaving password and token; otherwise only the owner's password becomes Encode(newPassword) and only that token is removed |
| Scenarios.RegisterThenLogin | SpringBoot-BE/src/main/java/com/example/SpringBoot_BE/Controller/AuthController.java:43-79 | a fresh email registers and the same credentials then log in to the same user and record, each session signed for the email at its own time |
| Scenarios.RegisterTwice | SpringBoot-BE/src/main/java/com/example/SpringBoot_BE/Controller/AuthController.java:47-49 | after a successful register, registering the same email fails with EmailExists whatever the password |
| Scenarios.SocialLoginTwice | SpringBoot-BE/src/main/java/com/example/SpringBoot_BE/Controller/AuthController.java:95-96 | a second social login with the same identity returns the same user and record, with a session signed at the second call's time; the stored record is still the one the first call returned, and at most one user was added in all |
| Scenarios.RegisterThenSocialLogin | SpringBoot-BE/src/main/java/com/example/SpringBoot_BE/Controller/AuthController.java:97-104 | a social login asserting a registered email merges into that account: same id, no new user, password and role kept, link attached |
| Scenarios.ForgotThenReset | SpringBoot-BE/src/main/java/com/example/SpringBoot_BE/Controller/AuthController.java:131-169 | the forgot request fails only when the mail sender threw, and the token is saved either way; a reset within the hour sets only that user's password, leaves the token table as before and the new password logs in; a later reset fails with TokenExpired and changes no user |
| Scenarios.ResetTwice | SpringBoot-BE/src/main/java/com/example/SpringBoot_BE/Controller/AuthController.java:156-167 | after a successful reset the same token is gone and a second reset fails with InvalidToken |

## Left out

- HTTP routing, response status codes, the JSON bodies and the exact message strings: each failure is one `Error` kind.
- Request bodies with a missing field (a null email, password, provider, token or new password) are not modelled; every request field is a string.
- The login and forgot-password "User not found" and the reset-password "Invalid token" are exceptions in the source (a server error response); the model returns them as error kinds like the others.
- BCrypt internals (salt, cost factor, constant-time comparison) are not modelled: `encode` and `check` are arbitrary functions, so that a stored hash differs from the plaintext, or that two hashes of one password differ, cannot be stated.
- JWT signing is the arbitrary function `issue` of the user's email (possibly null) and the clock reading; the token's format, signature and lifetime are not modelled.
- Firebase token verification is an input; a `name` or `picture` claim that is not a string (a cast failure in the source) is not modelled.
- Mail transport: `outbox` records each call to the mail service, whatever its outcome; delivery itself is not modelled.
- The random token string is a parameter; Auth.AuthController.ForgotPassword requires it to be absent from the token table, the model's reading of a UUID's uniqueness.
- Entities are records: setters on a fetched user followed by `save` are one write of the updated record at the user's id; aliasing between entity objects is not modelled. A role is held by its name.
- The repositories' failure when a finder meets two matching rows cannot arise: the uniqueness invariants rule it out.
- Concurrency: races between the check and the create in register and social login are not modelled; the source relies on database unique constraints.
- Expired reset tokens are never purged, as in the source; several outstanding tokens per user are allowed.
