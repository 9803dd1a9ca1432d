/**
 * `POST /api/register`: refuse an email already on file, otherwise create an
 * unverified record holding the password's hash and a one-hour verification
 * token, and send the verification mail, whose failure the mailer swallows.
 */
module Register {
  import opened Wrappers
  import opened Schema
  import opened Store
  import opened Http

  /** `verificationTokenExpiry`: one hour after registration. */
  const VerificationTtlMillis := 3_600_000

  const EmailTaken := Reply(400, ErrorBody("El usuario con este correo ya existe."))
  const Welcome := "Usuario registrado exitosamente. Por favor, verifica tu correo."

  /** `error.message || '…'`: the message of a failed insert, or the fallback when it is empty. */
  const ServerError := "Error en el servidor al registrar usuario."

  function ErrorText(message: string): (t: string)
    ensures t != ""
    ensures message != "" ==> t == message
  {
    if message == "" then ServerError else message
  }

  /** The user summary a successful registration returns: no password, no token. */
  datatype Summary = Summary(name: string, email: string, isVerified: bool)

  datatype RegisterReply =
    | Refused(reply: Reply)
    | Created(message: string, user: Summary)
  {
    function Status(): int {
      if Refused? then reply.status else 201
    }
  }

  /** The record registration creates: the defaults plus the given paths. */
  function Record(id: UserId, name: string, email: string, hashed: string,
                  token: string, now: Millis): (u: User)
    ensures u.id == id && u.name == name && u.email == email && u.password == hashed
    ensures u.verificationToken == Some(token)
    ensures u.verificationTokenExpiry == Some(now + VerificationTtlMillis)
    ensures !u.isVerified && u.subscription.status == Free && u.subscription.plan == "free"
    ensures u.usage.summariesThisMonth == 0
  {
    NewUser(id, name, email, hashed, Some(token), Some(now + VerificationTtlMillis), now)
  }

  /**
   * The route's answer, given the table before it: 400 for a taken email;
   * otherwise 201 with the summary when the record validates and the store
   * accepts it, and 500 with the error's message when it does not: the
   * validation error first, then the store's own.
   */
  function Outcome(byEmail: map<string, UserId>, id: UserId, name: string, email: string,
                   hashed: string, token: string, now: Millis, storeError: Option<string>): (r: RegisterReply)
    ensures email in byEmail ==> r == Refused(EmailTaken)
    ensures r.Created? <==> email !in byEmail && storeError.None? && Validates(Record(id, name, email, hashed, token, now))
    ensures r.Created? ==> r.user == Summary(name, email, false)
    ensures email !in byEmail && !r.Created? ==>
              r == Refused(Reply(500, ErrorBody(
                     if !Validates(Record(id, name, email, hashed, token, now)) then ValidationFailed
                     else ErrorText(storeError.value))))
    ensures r.Status() in {201, 400, 500}
  {
    if email in byEmail then Refused(EmailTaken)
    else if !Validates(Record(id, name, email, hashed, token, now)) then Refused(Reply(500, ErrorBody(ValidationFailed)))
    else if storeError.Some? then Refused(Reply(500, ErrorBody(ErrorText(storeError.value))))
    else Created(Welcome, Summary(name, email, false))
  }

  /**
   * The route against the store. `hash` stands for bcrypt, `token` for the
   * random verification token, `id` for the ObjectId the ORM assigns, and
   * `mailSent` for the mailer's outcome, on which nothing depends.
   */
  method Register(store: UserStore, name: string, email: string, password: string,
                  hash: string -> string, token: string, id: UserId, now: Millis,
                  storeError: Option<string>, mailSent: bool)
    returns (reply: RegisterReply)
    requires store.Valid()
    requires id !in store.users && IsCanonicalId(id)
    modifies store
    ensures store.Valid()
    ensures reply == Outcome(old(store.byEmail), id, name, email, hash(password), token, now, storeError)
    ensures reply.Created? ==>
              && store.users == old(store.users)[id := Record(id, name, email, hash(password), token, now)]
              && store.byEmail == old(store.byEmail)[email := id]
              && |store.users| == |old(store.users)| + 1
    ensures !reply.Created? ==> store.users == old(store.users) && store.byEmail == old(store.byEmail)
  {
    var existing := FindByEmail(store.users, store.byEmail, email);
    if existing.Some? {
      return Refused(EmailTaken);
    }
    var hashed := hash(password);
    var expiry := now + VerificationTtlMillis;
    var created := store.Create(NewUser(id, name, email, hashed, Some(token), Some(expiry), now), storeError);
    if created.Failure? {
      return Refused(Reply(500, ErrorBody(ErrorText(created.error))));
    }
    // sendVerificationEmail(email, token): the mailer catches and logs its own
    // failures, so `mailSent` cannot change the answer.
    reply := Created(Welcome, Summary(created.value.name, created.value.email, created.value.isVerified));
  }
}
