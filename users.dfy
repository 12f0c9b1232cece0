/** The user account registry of the backend (`UserService`): a user table
    keyed by id in which emails are unique, registration, profile and
    password changes, activation, and credential checks. The password
    encoder is a pair of functions given to the service. */
module Users {
  import opened Common

  datatype User = User(
    id: int,
    email: string,
    password: string,
    fullName: string,
    avatarUrl: Option<string>,
    role: Role,
    isActive: bool,
    updatedAt: Option<int>)

  /** Spring's `PasswordEncoder`: `encode` hashes a raw password and
      `matches(raw, stored)` checks a raw password against a stored hash. */
  datatype PasswordEncoder = PasswordEncoder(encode: string -> string, matches: (string, string) -> bool)

  /** An encoder accepts the password it encoded. */
  ghost predicate Sound(encoder: PasswordEncoder)
  {
    forall raw :: encoder.matches(raw, encoder.encode(raw))
  }

  /** The failures of the service; each constructor's comment gives the
      exception's message. */
  datatype UserError =
    | UserNotFoundWithEmail(email: string)  // "User not found with email: " + email
    | EmailTaken                            // "Email is already taken!"
    | UserNotFound                          // "User not found"
    | OldPasswordIncorrect                  // "Old password is incorrect"

  /** The emails the table holds. */
  ghost function Emails(users: map<int, User>): set<string>
  {
    set id | id in users :: users[id].email
  }

  /** `existsByEmail` over a table. */
  predicate EmailIn(users: map<int, User>, email: string)
  {
    exists id | id in users :: users[id].email == email
  }

  /** No two users share an email. */
  ghost predicate UniqueEmails(users: map<int, User>)
  {
    forall a, b | a in users && b in users :: users[a].email == users[b].email ==> a == b
  }

  /** What `validateCredentials` accepts: a user with that email who is
      active and whose stored hash matches the password. */
  ghost predicate CredentialsHold(users: map<int, User>, encoder: PasswordEncoder, email: string, password: string)
  {
    exists id | id in users ::
      users[id].email == email && users[id].isActive && encoder.matches(password, users[id].password)
  }

  /** The user `registerUser` saves: an active USER with the encoded
      password. */
  function Registered(id: int, email: string, encoded: string, fullName: string): (u: User)
    ensures u.id == id && u.email == email && u.password == encoded && u.fullName == fullName
    ensures u.role == USER && u.isActive && u.avatarUrl.None?
  {
    User(id, email, encoded, fullName, None, USER, true, None)
  }

  /** The setters of `updateUserProfile`. */
  function WithProfile(u: User, fullName: string, avatarUrl: Option<string>, now: int): (r: User)
    ensures r == u.(fullName := r.fullName, avatarUrl := r.avatarUrl, updatedAt := r.updatedAt)
    ensures r.fullName == fullName && r.avatarUrl == avatarUrl && r.updatedAt == Some(now)
  {
    u.(fullName := fullName, avatarUrl := avatarUrl, updatedAt := Some(now))
  }

  /** The setters of `changePassword` once the old password matched. */
  function WithPassword(u: User, encoded: string, now: int): (r: User)
    ensures r == u.(password := r.password, updatedAt := r.updatedAt)
    ensures r.password == encoded && r.updatedAt == Some(now)
  {
    u.(password := encoded, updatedAt := Some(now))
  }

  /** The setters of `activateUser` (`active` true) and `deactivateUser`
      (`active` false). */
  function WithActive(u: User, active: bool, now: int): (r: User)
    ensures r == u.(isActive := r.isActive, updatedAt := r.updatedAt)
    ensures r.isActive == active && r.updatedAt == Some(now)
  {
    u.(isActive := active, updatedAt := Some(now))
  }

  // ---------------------------------------------------------------------
  // Lemmas

  /** Activating or deactivating twice is doing it once, at the later time. */
  lemma WithActiveIdempotent(u: User, active: bool, t1: int, t2: int)
    ensures WithActive(WithActive(u, active, t1), active, t2) == WithActive(u, active, t2)
  {
  }

  /** Registering an email that is not taken keeps emails unique. */
  lemma {:induction false} RegisterKeepsUniqueEmails(users: map<int, User>, id: int, u: User)
    requires UniqueEmails(users)
    requires id !in users
    requires !EmailIn(users, u.email)
    ensures UniqueEmails(users[id := u])
  {
    forall k | k in users
      ensures users[k].email != u.email
    {
    }
  }

  /** Changing anything but the email keeps emails unique. */
  lemma {:induction false} SameEmailKeepsUnique(users: map<int, User>, id: int, u: User)
    requires UniqueEmails(users)
    requires id in users && u.email == users[id].email
    ensures UniqueEmails(users[id := u])
  {
    var t := users[id := u];
    forall a, b | a in t && b in t && t[a].email == t[b].email
      ensures a == b
    {
      assert users[a].email == t[a].email && users[b].email == t[b].email;
    }
  }

  /** A newly registered user signs in with the password it registered. */
  lemma RegisteredValidates(users: map<int, User>, encoder: PasswordEncoder, id: int, email: string,
                            password: string, fullName: string)
    requires Sound(encoder)
    ensures CredentialsHold(users[id := Registered(id, email, encoder.encode(password), fullName)], encoder, email, password)
  {
    var t := users[id := Registered(id, email, encoder.encode(password), fullName)];
    assert t[id].email == email && t[id].isActive && encoder.matches(password, t[id].password);
  }

  /** After a password change an active user signs in with the new password. */
  lemma ChangedPasswordValidates(users: map<int, User>, encoder: PasswordEncoder, id: int, newPassword: string,
                                 now: int)
    requires Sound(encoder)
    requires id in users && users[id].isActive
    ensures CredentialsHold(users[id := WithPassword(users[id], encoder.encode(newPassword), now)], encoder,
                            users[id].email, newPassword)
  {
    var t := users[id := WithPassword(users[id], encoder.encode(newPassword), now)];
    assert t[id].email == users[id].email && t[id].isActive && encoder.matches(newPassword, t[id].password);
  }

  /** A deactivated user is refused whatever the password, as long as emails
      are unique. */
  lemma DeactivatedIsRefused(users: map<int, User>, encoder: PasswordEncoder, id: int, password: string, now: int)
    requires UniqueEmails(users)
    requires id in users
    ensures !CredentialsHold(users[id := WithActive(users[id], false, now)], encoder, users[id].email, password)
  {
    var t := users[id := WithActive(users[id], false, now)];
    forall k | k in t && t[k].email == users[id].email
      ensures !t[k].isActive
    {
      assert users[k].email == t[k].email;
    }
  }

  // ---------------------------------------------------------------------
  // The service

  /** `UserService` over its user table; `nextId` stands for the database's
      id generator. */
  class UserService {
    const encoder: PasswordEncoder
    var users: map<int, User>
    var nextId: int

    ghost predicate Valid()
      reads this
    {
      && UniqueEmails(users)
      && (forall id | id in users :: id < nextId && users[id].id == id)
    }

    constructor (encoder: PasswordEncoder)
      ensures Valid() && this.encoder == encoder && users == map[]
    {
      this.encoder := encoder;
      users := map[];
      nextId := 1;
    }

    /** `existsByEmail`: some stored user carries that email. */
    function ExistsByEmail(email: string): (r: bool)
      reads this
      ensures r <==> email in Emails(users)
    {
      EmailIn(users, email)
    }

    /** `findByEmail`: the one user with that email, if any. */
    method FindByEmail(email: string) returns (u: Option<User>)
      requires Valid()
      ensures u.None? <==> !EmailIn(users, email)
      ensures u.Some? ==> u.value.id in users && users[u.value.id] == u.value && u.value.email == email
    {
      if !exists id | id in users :: users[id].email == email {
        return None;
      }
      var id :| id in users && users[id].email == email;
      u := Some(users[id]);
    }

    /** `loadUserByUsername`. */
    method LoadUserByUsername(email: string) returns (r: Result<User, UserError>)
      requires Valid()
      ensures r.Err? <==> !EmailIn(users, email)
      ensures r.Err? ==> r.error == UserNotFoundWithEmail(email)
      ensures r.Ok? ==> r.value.id in users && users[r.value.id] == r.value && r.value.email == email
    {
      var u := FindByEmail(email);
      if u.None? {
        return Err(UserNotFoundWithEmail(email));
      }
      r := Ok(u.value);
    }

    /** `validateCredentials`. */
    method ValidateCredentials(email: string, password: string) returns (ok: bool)
      requires Valid()
      ensures ok <==> CredentialsHold(users, encoder, email, password)
      ensures !EmailIn(users, email) ==> !ok
    {
      var u := FindByEmail(email);
      if u.None? {
        return false;
      }
      ok := u.value.isActive && encoder.matches(password, u.value.password);
    }

    /** `registerUser`. */
    method RegisterUser(email: string, password: string, fullName: string) returns (r: Result<int, UserError>)
      requires Valid()
      modifies this
      ensures Valid()
      ensures r.Err? <==> old(EmailIn(users, email))
      ensures r.Err? ==> r.error == EmailTaken && users == old(users)
      ensures r.Ok? ==>
        && r.value !in old(users)
        && users == old(users)[r.value := Registered(r.value, email, encoder.encode(password), fullName)]
      ensures EmailIn(users, email)
    {
      if ExistsByEmail(email) {
        return Err(EmailTaken);
      }
      var u := Registered(nextId, email, encoder.encode(password), fullName);
      RegisterKeepsUniqueEmails(users, nextId, u);
      users := users[nextId := u];
      assert users[nextId].email == email;
      r := Ok(nextId);
      nextId := nextId + 1;
    }

    /** `updateUserProfile`. */
    method UpdateUserProfile(userId: int, fullName: string, avatarUrl: Option<string>, now: int)
      returns (r: Result<User, UserError>)
      requires Valid()
      modifies this
      ensures Valid() && nextId == old(nextId)
      ensures userId !in old(users) ==> r == Err(UserNotFound) && users == old(users)
      ensures userId in old(users) ==>
        && r == Ok(WithProfile(old(users)[userId], fullName, avatarUrl, now))
        && users == old(users)[userId := r.value]
    {
      if userId !in users {
        return Err(UserNotFound);
      }
      var u := WithProfile(users[userId], fullName, avatarUrl, now);
      SameEmailKeepsUnique(users, userId, u);
      users := users[userId := u];
      r := Ok(u);
    }

    /** `changePassword`. */
    method ChangePassword(userId: int, oldPassword: string, newPassword: string, now: int)
      returns (r: Result<(), UserError>)
      requires Valid()
      modifies this
      ensures Valid() && nextId == old(nextId)
      ensures userId !in old(users) ==> r == Err(UserNotFound) && users == old(users)
      ensures userId in old(users) && !encoder.matches(oldPassword, old(users)[userId].password) ==>
        r == Err(OldPasswordIncorrect) && users == old(users)
      ensures userId in old(users) && encoder.matches(oldPassword, old(users)[userId].password) ==>
        && r == Ok(())
        && users == old(users)[userId := WithPassword(old(users)[userId], encoder.encode(newPassword), now)]
    {
      if userId !in users {
        return Err(UserNotFound);
      }
      if !encoder.matches(oldPassword, users[userId].password) {
        return Err(OldPasswordIncorrect);
      }
      var u := WithPassword(users[userId], encoder.encode(newPassword), now);
      SameEmailKeepsUnique(users, userId, u);
      users := users[userId := u];
      r := Ok(());
    }

    /** `deactivateUser` (`active` false) and `activateUser` (`active`
        true). */
    method SetActive(userId: int, active: bool, now: int) returns (r: Result<(), UserError>)
      requires Valid()
      modifies this
      ensures Valid() && nextId == old(nextId)
      ensures userId !in old(users) ==> r == Err(UserNotFound) && users == old(users)
      ensures userId in old(users) ==>
        r == Ok(()) && users == old(users)[userId := WithActive(old(users)[userId], active, now)]
    {
      if userId !in users {
        return Err(UserNotFound);
      }
      var u := WithActive(users[userId], active, now);
      SameEmailKeepsUnique(users, userId, u);
      users := users[userId := u];
      r := Ok(());
    }

    method DeactivateUser(userId: int, now: int) returns (r: Result<(), UserError>)
      requires Valid()
      modifies this
      ensures Valid() && nextId == old(nextId)
      ensures userId !in old(users) ==> r == Err(UserNotFound) && users == old(users)
      ensures userId in old(users) ==>
        r == Ok(()) && users == old(users)[userId := WithActive(old(users)[userId], false, now)]
    {
      r := SetActive(userId, false, now);
    }

    method ActivateUser(userId: int, now: int) returns (r: Result<(), UserError>)
      requires Valid()
      modifies this
      ensures Valid() && nextId == old(nextId)
      ensures userId !in old(users) ==> r == Err(UserNotFound) && users == old(users)
      ensures userId in old(users) ==>
        r == Ok(()) && users == old(users)[userId := WithActive(old(users)[userId], true, now)]
    {
      r := SetActive(userId, true, now);
    }
  }
}
