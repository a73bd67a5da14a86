/**
 * The user table and the two finders of the user repository.
 * The table is a sequence: a user's id is its position. Ids are handed out in
 * order by the database and this core never deletes a user, so saving a new
 * user appends and saving a fetched user writes its record back at its id.
 */
module Users {
  import opened Optional

  /** The name of the role every new account receives. */
  const DefaultRole: string := "user"

  /** A user record. Email, password hash, name, avatar and the social link may be null. */
  datatype User = User(
    email: Option<string>,
    password: Option<string>,
    fullName: Option<string>,
    avatarUrl: Option<string>,
    socialProvider: Option<string>,
    socialId: Option<string>,
    role: string)

  /** The (provider, social id) pair a user is linked to, when both are set. */
  function SocialKey(u: User): Option<(string, string)>
  {
    if u.socialProvider.Some? && u.socialId.Some? then Some((u.socialProvider.value, u.socialId.value))
    else None
  }

  /** No two users share a non-null email. */
  ghost predicate EmailsUnique(users: seq<User>)
  {
    forall i, j :: 0 <= i < |users| && 0 <= j < |users| && i != j && users[i].email.Some? ==>
      users[i].email != users[j].email
  }

  /** No two users are linked to the same (provider, social id) pair. */
  ghost predicate SocialLinksUnique(users: seq<User>)
  {
    forall i, j :: 0 <= i < |users| && 0 <= j < |users| && i != j && SocialKey(users[i]).Some? ==>
      SocialKey(users[i]) != SocialKey(users[j])
  }

  /** Every user can be found by email, by (provider, social id), or by both. */
  ghost predicate Reachable(users: seq<User>)
  {
    forall i :: 0 <= i < |users| ==> users[i].email.Some? || SocialKey(users[i]).Some?
  }

  /** `findByEmail`: the (first) user whose email is `email`. */
  function FindByEmail(users: seq<User>, email: string): (r: Option<nat>)
    ensures r.Some? ==> r.value < |users| && users[r.value].email == Some(email)
    ensures r.Some? ==> forall j :: 0 <= j < r.value ==> users[j].email != Some(email)
    ensures r.None? ==> forall j :: 0 <= j < |users| ==> users[j].email != Some(email)
  {
    if users == [] then None
    else
      var prior := FindByEmail(users[..|users| - 1], email);
      if prior.Some? then prior
      else if users[|users| - 1].email == Some(email) then Some(|users| - 1)
      else None
  }

  /** `findBySocialProviderAndSocialId`: the (first) user linked to (provider, socialId). */
  function FindBySocial(users: seq<User>, provider: string, socialId: string): (r: Option<nat>)
    ensures r.Some? ==> r.value < |users| && SocialKey(users[r.value]) == Some((provider, socialId))
    ensures r.Some? ==> forall j :: 0 <= j < r.value ==> SocialKey(users[j]) != Some((provider, socialId))
    ensures r.None? ==> forall j :: 0 <= j < |users| ==> SocialKey(users[j]) != Some((provider, socialId))
  {
    if users == [] then None
    else
      var prior := FindBySocial(users[..|users| - 1], provider, socialId);
      if prior.Some? then prior
      else if SocialKey(users[|users| - 1]) == Some((provider, socialId)) then Some(|users| - 1)
      else None
  }

  /** With unique emails, looking up a user's email finds exactly that user. */
  lemma FindByEmailFindsOwner(users: seq<User>, i: nat)
    requires EmailsUnique(users)
    requires i < |users| && users[i].email.Some?
    ensures FindByEmail(users, users[i].email.value) == Some(i)
  {
  }

  /** With unique links, looking up a user's link finds exactly that user. */
  lemma FindBySocialFindsOwner(users: seq<User>, i: nat)
    requires SocialLinksUnique(users)
    requires i < |users| && SocialKey(users[i]).Some?
    ensures FindBySocial(users, SocialKey(users[i]).value.0, SocialKey(users[i]).value.1) == Some(i)
  {
  }

  /** Under unique emails, the one user the email finder returns is the only one with that email. */
  lemma OnlyOwnerHasEmail(users: seq<User>, i: nat)
    requires EmailsUnique(users)
    requires i < |users| && users[i].email.Some?
    ensures forall j :: 0 <= j < |users| && users[j].email == users[i].email ==> j == i
  {
    forall j | 0 <= j < |users| && users[j].email == users[i].email
      ensures j == i
    {
      FindByEmailFindsOwner(users, i);
      FindByEmailFindsOwner(users, j);
    }
  }

  /** Saving a new user whose email and link are both free keeps both tables of keys unique. */
  lemma SaveNewKeepsUnique(users: seq<User>, u: User)
    requires EmailsUnique(users) && SocialLinksUnique(users)
    requires u.email.Some? ==> FindByEmail(users, u.email.value).None?
    requires SocialKey(u).Some? ==> FindBySocial(users, SocialKey(u).value.0, SocialKey(u).value.1).None?
    ensures EmailsUnique(users + [u]) && SocialLinksUnique(users + [u])
  {
  }

  /**
   * Writing back a fetched user that keeps its email, and whose link is either
   * unchanged or free, keeps both tables of keys unique.
   */
  lemma SaveExistingKeepsUnique(users: seq<User>, i: nat, u: User)
    requires EmailsUnique(users) && SocialLinksUnique(users)
    requires i < |users| && u.email == users[i].email
    requires SocialKey(u) == SocialKey(users[i]) ||
             SocialKey(u).None? ||
             FindBySocial(users, SocialKey(u).value.0, SocialKey(u).value.1).None?
    ensures EmailsUnique(users[i := u]) && SocialLinksUnique(users[i := u])
  {
  }

  /** After a new user is saved, the email finder still finds earlier owners and otherwise the new user. */
  lemma FindByEmailAfterSave(users: seq<User>, u: User, email: string)
    ensures FindByEmail(users + [u], email) ==
      if FindByEmail(users, email).Some? then FindByEmail(users, email)
      else if u.email == Some(email) then Some(|users|)
      else None
  {
  }

  /** After a new user is saved, the social finder still finds earlier owners and otherwise the new user. */
  lemma FindBySocialAfterSave(users: seq<User>, u: User, provider: string, socialId: string)
    ensures FindBySocial(users + [u], provider, socialId) ==
      if FindBySocial(users, provider, socialId).Some? then FindBySocial(users, provider, socialId)
      else if SocialKey(u) == Some((provider, socialId)) then Some(|users|)
      else None
  {
  }

  /** Writing back a user with the same email changes no answer of the email finder. */
  lemma FindByEmailAfterUpdate(users: seq<User>, i: nat, u: User, email: string)
    requires i < |users| && u.email == users[i].email
    ensures FindByEmail(users[i := u], email) == FindByEmail(users, email)
  {
    var after := users[i := u];
    assert forall j :: 0 <= j < |users| ==> after[j].email == users[j].email;
    var a, b := FindByEmail(after, email), FindByEmail(users, email);
    if a.Some? && b.Some? {
      assert !(a.value < b.value) && !(b.value < a.value);
    }
  }

  /** A user linked to a pair nobody held is what the social finder then returns for that pair. */
  lemma FindBySocialAfterLink(users: seq<User>, i: nat, u: User, provider: string, socialId: string)
    requires i < |users| && SocialKey(u) == Some((provider, socialId))
    requires FindBySocial(users, provider, socialId).None?
    ensures FindBySocial(users[i := u], provider, socialId) == Some(i)
  {
    var after := users[i := u];
    assert forall j :: 0 <= j < |users| && j != i ==> after[j] == users[j];
    var r := FindBySocial(after, provider, socialId);
    assert after[i] == u;
  }
}
