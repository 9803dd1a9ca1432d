/**
 * The `User` collection as the routes see it: records keyed by id, a unique
 * index on `email`, lookups that cast their key to an ObjectId first, and
 * writes (`User.create`, `user.save()`) that validate the record and may fail.
 */
module Store {
  import opened Wrappers
  import opened Schema

  /**
   * Every record sits under its own canonical id and validates; the email
   * index maps each stored email to the one record that holds it.
   */
  ghost predicate TableValid(users: map<UserId, User>, byEmail: map<string, UserId>) {
    && KeyedById(users)
    && (forall id :: id in users ==>
          IsCanonicalId(id) && Validates(users[id])
          && users[id].email in byEmail && byEmail[users[id].email] == id)
    && (forall e :: e in byEmail ==> byEmail[e] in users && users[byEmail[e]].email == e)
  }

  /** Every record is stored under its own id. */
  ghost predicate KeyedById(users: map<UserId, User>) {
    forall id :: id in users ==> users[id].id == id
  }

  /** The unique index on `email`: no two records share an email. */
  lemma EmailIsUnique(users: map<UserId, User>, byEmail: map<string, UserId>, a: UserId, b: UserId)
    requires TableValid(users, byEmail)
    requires a in users && b in users && users[a].email == users[b].email
    ensures a == b
  {
  }

  /** The message of the error a failed ObjectId cast throws. */
  function CastErrorMessage(id: string): string {
    "Cast to ObjectId failed for value \"" + id + "\" (type string) at path \"_id\" for model \"User\""
  }

  /**
   * `User.findById(id)` and `User.findOne({ _id: id })`: a key that is not an
   * ObjectId makes the query throw; otherwise the record under its canonical
   * form, if there is one.
   */
  function FindById(users: map<UserId, User>, id: string): (r: Result<Option<User>, string>)
    ensures r.Failure? <==> !IsObjectIdText(id)
    ensures r.Failure? ==> r.error == CastErrorMessage(id)
    ensures r.Success? ==> (r.value.Some? <==> CanonicalId(id) in users)
    ensures r.Success? && r.value.Some? ==> r.value.value == users[CanonicalId(id)]
  {
    if !IsObjectIdText(id) then Failure(CastErrorMessage(id))
    else if CanonicalId(id) in users then Success(Some(users[CanonicalId(id)]))
    else Success(None)
  }

  /** `User.findOne({ email })`, answered through the unique index. */
  function FindByEmail(users: map<UserId, User>, byEmail: map<string, UserId>, email: string): (r: Option<User>)
    requires TableValid(users, byEmail)
    ensures r.Some? ==> r.value.email == email && r.value.id in users && users[r.value.id] == r.value
    ensures r.None? <==> forall id :: id in users ==> users[id].email != email
  {
    if email in byEmail then Some(users[byEmail[email]]) else None
  }

  const ValidationFailed := "User validation failed"
  const DuplicateEmail := "E11000 duplicate key error collection: users index: email_1 dup key"

  class UserStore {
    var users: map<UserId, User>
    var byEmail: map<string, UserId>

    ghost predicate Valid()
      reads this
    {
      TableValid(users, byEmail)
    }

    constructor ()
      ensures Valid() && users == map[] && byEmail == map[]
    {
      users, byEmail := map[], map[];
    }

    /**
     * `User.create(u)`: the record is validated before anything is sent;
     * a valid record may still fail in the store itself (`storeError`) or on
     * the unique email index. On success exactly that record is added.
     */
    method Create(u: User, storeError: Option<string>) returns (r: Result<User, string>)
      requires Valid() && u.id !in users && IsCanonicalId(u.id)
      modifies this
      ensures Valid()
      ensures r.Success? <==> storeError.None? && Validates(u) && u.email !in old(byEmail)
      ensures r.Success? ==> r.value == u
      ensures r.Success? ==> users == old(users)[u.id := u] && byEmail == old(byEmail)[u.email := u.id]
      ensures r.Failure? ==> users == old(users) && byEmail == old(byEmail)
      ensures r.Failure? ==> r.error == if !Validates(u) then ValidationFailed
                                       else if storeError.Some? then storeError.value
                                       else DuplicateEmail
    {
      if !Validates(u) {
        return Failure(ValidationFailed);
      }
      if storeError.Some? {
        return Failure(storeError.value);
      }
      if u.email in byEmail {
        return Failure(DuplicateEmail);
      }
      users := users[u.id := u];
      byEmail := byEmail[u.email := u.id];
      r := Success(u);
    }

    /**
     * `user.save()` of a record read from the store, with its email
     * unchanged: it validates first, and a valid record may still fail in
     * the store; on success the record replaces the stored one and nothing
     * else changes.
     */
    method Save(u: User, storeError: Option<string>) returns (err: Option<string>)
      requires Valid() && u.id in users && users[u.id].email == u.email
      modifies this
      ensures Valid()
      ensures err.None? <==> storeError.None? && Validates(u)
      ensures err.Some? ==> err == if !Validates(u) then Some(ValidationFailed) else storeError
      ensures byEmail == old(byEmail)
      ensures users == if err.None? then old(users)[u.id := u] else old(users)
    {
      if !Validates(u) {
        return Some(ValidationFailed);
      }
      if storeError.Some? {
        return storeError;
      }
      users := users[u.id := u];
      err := None;
    }
  }
}
