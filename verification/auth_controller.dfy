/** `AuthController` (`app/controllers/auth_controller.py`): sign-up with a
    unique username, sign-in, and the client's liveness ping.

    Password hashing (bcrypt) and checking are outside the model: the hash
    of a new password is a parameter, and the check is an arbitrary
    predicate `verify(password, hash)`. The access token is modelled by the
    claims it carries; signing it is not part of this model. */
module AuthController {
  import opened Wrappers
  import opened Models
  import opened Sorting

  const DuplicateUsername := HttpError(409, "Username already exists")
  const BadCredentials := HttpError(401, "Incorrect username or password")

  /** `ACCESS_TOKEN_EXPIRE_MINUTES`: one week. */
  const TokenLifetimeMinutes := 60 * 24 * 7

  datatype Registration = Registration(username: string, password: string, phone: string, storeName: string)

  datatype Credentials = Credentials(username: string, password: string)

  /** The login answer: the token's subject, user id and lifetime, and its type. */
  datatype Token = Token(subject: string, userId: nat, expiresInMinutes: int, tokenType: string)

  /** The answer to a liveness ping. */
  datatype Heartbeat = Heartbeat(status: string, lastHeartbeat: int)

  /** The user with this username, if any. */
  function FindUser(us: seq<User>, name: string): Option<nat> {
    First(us, (u: User) => u.username == name)
  }

  /** The row `register_user` creates: an owner, with no heartbeat yet. */
  function NewUser(id: nat, input: Registration, passwordHash: string): User {
    User(id, input.username, passwordHash, input.phone, input.storeName, "OWNER", None, false)
  }

  /** `register_user`: a taken username is refused with 409 and nothing is
      stored; otherwise one owner row is added. */
  method RegisterUser(db: Db, input: Registration, passwordHash: string) returns (r: Result<User, HttpError>)
    requires db.Valid()
    modifies db
    ensures db.Valid()
    ensures FindUser(old(db.users), input.username).Some? ==> r == Err(DuplicateUsername) && unchanged(db)
    ensures FindUser(old(db.users), input.username).None? ==>
      r == Ok(NewUser(|old(db.users)| + 1, input, passwordHash)) && db.users == old(db.users) + [r.value]
    ensures db.reports == old(db.reports) && db.notifications == old(db.notifications)
    ensures db.releases == old(db.releases) && db.logs == old(db.logs)
  {
    var existing := FindUser(db.users, input.username);
    if existing.Some? {
      return Err(DuplicateUsername);
    }
    var user := User(|db.users| + 1, input.username, passwordHash, input.phone, input.storeName, "OWNER", None, false);
    db.users := db.users + [user];
    return Ok(user);
  }

  /** `login_user`: an unknown username and a wrong password give the same
      401, so the answer does not tell which of the two was wrong. */
  function LoginUser(us: seq<User>, input: Credentials, verify: (string, string) -> bool): (r: Result<Token, HttpError>)
    ensures r.Err? ==> r.error == BadCredentials
    ensures r.Ok? ==>
      r.value.subject == input.username && r.value.tokenType == "bearer"
      && r.value.expiresInMinutes == TokenLifetimeMinutes
      && exists i :: 0 <= i < |us| && us[i].username == input.username && us[i].id == r.value.userId
                     && verify(input.password, us[i].passwordHash)
  {
    match FindUser(us, input.username)
    case None => Err(BadCredentials)
    case Some(i) =>
      if !verify(input.password, us[i].passwordHash) then Err(BadCredentials)
      else Ok(Token(us[i].username, us[i].id, TokenLifetimeMinutes, "bearer"))
  }

  /** The user after a ping at time `now`: stamped, and no longer marked as
      notified of being offline. */
  function Beat(u: User, now: int): User {
    u.(lastHeartbeat := Some(now), offlineNotified := false)
  }

  /** `process_heartbeat` for the signed-in user `db.users[me]`. */
  method ProcessHeartbeat(db: Db, me: nat, now: int) returns (r: Heartbeat)
    requires db.Valid() && me < |db.users|
    modifies db
    ensures db.Valid()
    ensures db.users == old(db.users)[me := Beat(old(db.users)[me], now)]
    ensures r == Heartbeat("alive", now)
    ensures db.reports == old(db.reports) && db.notifications == old(db.notifications)
    ensures db.releases == old(db.releases) && db.logs == old(db.logs)
  {
    var user := db.users[me];
    user := user.(lastHeartbeat := Some(now));
    if user.offlineNotified {
      user := user.(offlineNotified := false);
    }
    db.users := db.users[me := user];
    return Heartbeat("alive", user.lastHeartbeat.value);
  }

  // ---------------------------------------------------------------- lemmas

  /** Registration keeps usernames unique and ids in step. */
  lemma RegisterKeepsUsersValid(us: seq<User>, input: Registration, passwordHash: string)
    requires UsersValid(us) && FindUser(us, input.username).None?
    ensures UsersValid(us + [NewUser(|us| + 1, input, passwordHash)])
  {
    assert forall i :: 0 <= i < |us| ==> us[i].username != input.username;
  }

  /** The new row copies username, phone and store name from the request,
      gets the owner role and is the only row with that username. */
  lemma RegisteredUserIsOwner(us: seq<User>, input: Registration, passwordHash: string)
    requires UsersValid(us) && FindUser(us, input.username).None?
    ensures var us' := us + [NewUser(|us| + 1, input, passwordHash)];
      FindUser(us', input.username) == Some(|us|)
      && us'[|us|].role == "OWNER" && us'[|us|].phone == input.phone
      && us'[|us|].storeName == input.storeName && us'[|us|].lastHeartbeat.None?
  {
    var us' := us + [NewUser(|us| + 1, input, passwordHash)];
    FirstIs(us', (u: User) => u.username == input.username, |us|);
  }

  /** Sign-in succeeds exactly when some user has the username and the
      password checks against that user's hash; every failure is the same
      401; a success names that user. */
  lemma LoginSpec(us: seq<User>, input: Credentials, verify: (string, string) -> bool)
    requires UsersValid(us)
    ensures LoginUser(us, input, verify).Ok? <==>
      exists i :: 0 <= i < |us| && us[i].username == input.username && verify(input.password, us[i].passwordHash)
    ensures LoginUser(us, input, verify).Err? ==> LoginUser(us, input, verify).error == BadCredentials
    ensures LoginUser(us, input, verify).Ok? ==>
      var t := LoginUser(us, input, verify).value;
      t.subject == input.username && 0 < t.userId <= |us| && us[t.userId - 1].username == input.username
      && t.tokenType == "bearer" && t.expiresInMinutes == 10080
  {
    match FindUser(us, input.username)
    case None =>
    case Some(k) =>
      forall i | 0 <= i < |us| && us[i].username == input.username
        ensures i == k
      {
      }
  }

  /** An owner who has just registered can sign in with the same password,
      provided the stored hash checks against it. */
  lemma RegisteredCanLogIn(us: seq<User>, input: Registration, passwordHash: string, verify: (string, string) -> bool)
    requires UsersValid(us) && FindUser(us, input.username).None?
    requires verify(input.password, passwordHash)
    ensures LoginUser(us + [NewUser(|us| + 1, input, passwordHash)],
                      Credentials(input.username, input.password), verify)
         == Ok(Token(input.username, |us| + 1, TokenLifetimeMinutes, "bearer"))
  {
    RegisteredUserIsOwner(us, input, passwordHash);
  }

  /** A ping changes nothing but the two liveness fields, and clears the
      offline mark whatever it was. */
  lemma BeatTouchesOnlyLiveness(u: User, now: int)
    ensures Beat(u, now).(lastHeartbeat := u.lastHeartbeat, offlineNotified := u.offlineNotified) == u
    ensures !Beat(u, now).offlineNotified && Beat(u, now).lastHeartbeat == Some(now)
  {
  }
}
