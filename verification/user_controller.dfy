/** `UserController.update_profile` (`app/controllers/user_controller.py`):
    an owner may change the phone number and the store name, and nothing
    else. */
module UserController {
  import opened Wrappers
  import opened Models

  /** The request: each field is present (to be replaced) or absent. */
  datatype ProfileUpdate = ProfileUpdate(phone: Option<string>, storeName: Option<string>)

  /** The user with the present fields of the request replaced. */
  function ApplyProfile(u: User, input: ProfileUpdate): User {
    var withPhone := if input.phone.Some? then u.(phone := input.phone.value) else u;
    if input.storeName.Some? then withPhone.(storeName := input.storeName.value) else withPhone
  }

  /** `update_profile` for the signed-in user `db.users[me]`; `saved` tells
      whether the session was committed, which happens exactly when some
      field was given. */
  method UpdateProfile(db: Db, me: nat, input: ProfileUpdate) returns (u: User, saved: bool)
    requires db.Valid() && me < |db.users|
    modifies db
    ensures db.Valid()
    ensures u == ApplyProfile(old(db.users[me]), input)
    ensures db.users == old(db.users)[me := u]
    ensures saved <==> input.phone.Some? || input.storeName.Some?
    ensures !saved ==> u == old(db.users[me])
    ensures db.reports == old(db.reports) && db.notifications == old(db.notifications)
    ensures db.releases == old(db.releases) && db.logs == old(db.logs)
  {
    u := db.users[me];
    var updatesMade := false;
    if input.phone.Some? {
      u := u.(phone := input.phone.value);
      updatesMade := true;
    }
    if input.storeName.Some? {
      u := u.(storeName := input.storeName.value);
      updatesMade := true;
    }
    if updatesMade {
      db.users := db.users[me := u];
    }
    ProfileKeepsUsersValid(old(db.users), me, input);
    return u, updatesMade;
  }

  // ---------------------------------------------------------------- lemmas

  /** Whitelist: only the phone and the store name can differ afterwards; a
      field changes only when it was given, and a given field takes the
      given value. */
  lemma ProfileWhitelist(u: User, input: ProfileUpdate)
    ensures ApplyProfile(u, input).(phone := u.phone, storeName := u.storeName) == u
    ensures ApplyProfile(u, input).phone != u.phone ==> input.phone == Some(ApplyProfile(u, input).phone)
    ensures ApplyProfile(u, input).storeName != u.storeName ==>
      input.storeName == Some(ApplyProfile(u, input).storeName)
    ensures input.phone.Some? ==> ApplyProfile(u, input).phone == input.phone.value
    ensures input.storeName.Some? ==> ApplyProfile(u, input).storeName == input.storeName.value
  {
  }

  /** Sending the same update twice is the same as once; an empty update is
      no change at all. */
  lemma ProfileIdempotent(u: User, input: ProfileUpdate)
    ensures ApplyProfile(ApplyProfile(u, input), input) == ApplyProfile(u, input)
    ensures ApplyProfile(u, ProfileUpdate(None, None)) == u
  {
  }

  /** Usernames and ids are untouched, so the table keeps its constraints. */
  lemma ProfileKeepsUsersValid(us: seq<User>, me: nat, input: ProfileUpdate)
    requires UsersValid(us) && me < |us|
    ensures UsersValid(us[me := ApplyProfile(us[me], input)])
  {
  }
}
