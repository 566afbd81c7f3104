/** The user repository (repositories/user_repository.py) over an in-memory
    collection keyed by `user_id`. The database keeps unique indexes on
    `user_id` and on `email`, so an insert that repeats either fails and
    e-mail addresses identify at most one record. */
module UserStore {
  import opened Common

  datatype UserRecord = UserRecord(
    userId: string,
    name: string,
    email: string,
    passwordHash: string,
    phoneNumber: string,
    createdAt: Instant,
    lastActive: Instant,
    isActive: bool,
    loginAttempts: int)

  /** The test by which both the login and the chat greeting recognise a
      user who has never been active since registering. */
  predicate IsNewUser(u: UserRecord)
  {
    u.createdAt == u.lastActive
  }

  /** The document `create_user` inserts, as written: `created_at` and
      `last_active` come from two separate readings of the clock. */
  function StoredUserAsWritten(userId: string, name: string, email: string, passwordHash: string,
                               phoneNumber: string, firstReading: Instant, secondReading: Instant): (u: UserRecord)
    ensures u.createdAt == firstReading && u.lastActive == secondReading
    ensures u.isActive && u.loginAttempts == 0
  {
    UserRecord(userId, name, email, passwordHash, phoneNumber, firstReading, secondReading, true, 0)
  }

  /** When the clock advances between the two readings, a user who has just
      registered is not recognised as new. */
  lemma FreshUserNotNewAsWritten()
    ensures !IsNewUser(StoredUserAsWritten("u1", "Ada", "ada@example.org", "h", "0123456789", 999, 1000))
  {
  }

  /** The document `create_user` is meant to insert: one clock reading for
      both timestamps, so that a registered user starts out new. */
  function NewUserRecord(userId: string, name: string, email: string, passwordHash: string,
                         phoneNumber: string, now: Instant): (u: UserRecord)
    ensures IsNewUser(u)
    ensures u.createdAt == now && u.isActive && u.loginAttempts == 0
    ensures u.userId == userId && u.name == name && u.email == email
    ensures u.passwordHash == passwordHash && u.phoneNumber == phoneNumber
  {
    UserRecord(userId, name, email, passwordHash, phoneNumber, now, now, true, 0)
  }

  datatype StoreError = DuplicateKey

  class UserRepository {
    var users: map<string, UserRecord>

    ghost predicate Valid()
      reads this
    {
      (forall id :: id in users ==> users[id].userId == id)
      && (forall a, b :: a in users && b in users && users[a].email == users[b].email ==> a == b)
    }

    constructor ()
      ensures Valid() && users == map[]
    {
      users := map[];
    }

    predicate EmailTaken(email: string)
      reads this
    {
      exists id :: id in users && users[id].email == email
    }

    /** Inserts a new record under the fresh identifier `newId` (the
        source's `str(ObjectId())`) and returns that identifier. */
    method CreateUser(name: string, email: string, passwordHash: string, phoneNumber: string,
                      newId: string, now: Instant) returns (r: Result<string, StoreError>)
      requires Valid()
      modifies this
      ensures Valid()
      ensures r.Ok? <==> newId !in old(users) && !old(EmailTaken(email))
      ensures r.Ok? ==> r.value == newId
                        && users == old(users)[newId := NewUserRecord(newId, name, email, passwordHash, phoneNumber, now)]
      ensures r.Err? ==> users == old(users)
    {
      if newId in users || EmailTaken(email) {
        r := Err(DuplicateKey);
      } else {
        users := users[newId := NewUserRecord(newId, name, email, passwordHash, phoneNumber, now)];
        r := Ok(newId);
      }
    }

    /** `find_one({"email": email})`. */
    function GetUserByEmail(email: string): (r: Option<UserRecord>)
      reads this
      requires Valid()
      ensures r.None? <==> !EmailTaken(email)
      ensures r.Some? ==> r.value.email == email && r.value.userId in users && users[r.value.userId] == r.value
    {
      if EmailTaken(email) then
        var id :| id in users && users[id].email == email;
        Some(users[id])
      else None
    }

    /** `find_one({"user_id": user_id})`. */
    function GetUserById(userId: string): (r: Option<UserRecord>)
      reads this
      requires Valid()
      ensures r.None? <==> userId !in users
      ensures r.Some? ==> r.value == users[userId] && r.value.userId == userId
    {
      if userId in users then Some(users[userId]) else None
    }

    method UpdateLastActive(userId: string, now: Instant)
      requires Valid()
      modifies this
      ensures Valid()
      ensures users == if userId in old(users) then old(users)[userId := old(users)[userId].(lastActive := now)]
                       else old(users)
    {
      if userId in users {
        users := users[userId := users[userId].(lastActive := now)];
      }
    }

    /** `$inc` of `login_attempts` on the record with that e-mail address. */
    method IncrementLoginAttempts(email: string)
      requires Valid()
      modifies this
      ensures Valid()
      ensures match old(GetUserByEmail(email))
              case None => users == old(users)
              case Some(u) => users == old(users)[u.userId := u.(loginAttempts := u.loginAttempts + 1)]
    {
      var found := GetUserByEmail(email);
      if found.Some? {
        var u := found.value;
        users := users[u.userId := u.(loginAttempts := u.loginAttempts + 1)];
      }
    }

    method ResetLoginAttempts(email: string)
      requires Valid()
      modifies this
      ensures Valid()
      ensures match old(GetUserByEmail(email))
              case None => users == old(users)
              case Some(u) => users == old(users)[u.userId := u.(loginAttempts := 0)]
    {
      var found := GetUserByEmail(email);
      if found.Some? {
        var u := found.value;
        users := users[u.userId := u.(loginAttempts := 0)];
      }
    }
  }
}
