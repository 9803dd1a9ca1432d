/**
 * `POST /api/login`: look the account up by email, refuse it while it is
 * unverified, compare the password with its hash, and on success answer
 * with the account's public fields and a 24-hour session cookie.
 */
module Login {
  import opened Wrappers
  import opened Schema
  import opened Store
  import opened Http

  /** The payload `jwt.sign` receives: `{ userId }`, with `expiresIn: '24h'`. */
  datatype Claims = Claims(userId: UserId, expiresInSeconds: nat)

  /** The session cookie's attributes as `response.cookies.set` receives them. */
  datatype SessionCookie = SessionCookie(
    name: string, value: string, httpOnly: bool, secure: bool, sameSite: string, maxAge: nat)

  /** The `user` object of a successful answer. */
  datatype SessionUser = SessionUser(id: UserId, name: string, email: string, subscriptionStatus: string)

  datatype LoginReply =
    | Refused(reply: Reply)
    | LoggedIn(message: string, user: SessionUser, cookie: SessionCookie)

  const SessionSeconds: nat := 60 * 60 * 24
  const BadCredentials := Reply(401, ErrorBody("Credenciales inválidas"))
  const NotVerified := Reply(401, ErrorBody("Por favor, verifica tu correo electrónico antes de iniciar sesión"))
  const Welcome := "Inicio de sesión exitoso"

  /**
   * `user.subscription?.status || 'inactive'`. The schema gives every record a
   * status, and no status name is empty, so the fallback never shows.
   */
  function StatusText(u: User): (s: string)
    ensures s == StatusName(u.subscription.status)
    ensures s != "inactive" && s in {"free", "active", "canceled", "pending"}
    ensures s == "active" <==> u.subscription.status == Active
  {
    StatusName(u.subscription.status)
  }

  /** The cookie the session travels in; `secure` only when `NODE_ENV` is `production`. */
  function Cookie(token: string, nodeEnv: Option<string>): (c: SessionCookie)
    ensures c.name == "token" && c.value == token
    ensures c.httpOnly && c.sameSite == "strict" && c.maxAge == 86_400
    ensures c.secure <==> nodeEnv == Some("production")
  {
    SessionCookie("token", token, true, nodeEnv == Some("production"), "strict", SessionSeconds)
  }

  /**
   * The route's decision. `matches` stands for `bcrypt.compare` and `sign`
   * for `jwt.sign` with the session secret.
   */
  function Login(users: map<UserId, User>, byEmail: map<string, UserId>,
                 email: string, password: string,
                 matches: (string, string) -> bool, sign: Claims -> string,
                 nodeEnv: Option<string>): (r: LoginReply)
    requires TableValid(users, byEmail)
    ensures r.LoggedIn? <==>
              exists id :: id in users && users[id].email == email
                           && users[id].isVerified && matches(password, users[id].password)
    ensures FindByEmail(users, byEmail, email).None? ==> r == Refused(BadCredentials)
    ensures (FindByEmail(users, byEmail, email).Some? && !FindByEmail(users, byEmail, email).value.isVerified)
            ==> r == Refused(NotVerified)
    ensures r.LoggedIn? ==>
              var u := FindByEmail(users, byEmail, email).value;
              && r.user == SessionUser(u.id, u.name, u.email, StatusText(u))
              && r.cookie == Cookie(sign(Claims(u.id, SessionSeconds)), nodeEnv)
    ensures r.Refused? ==> r.reply == BadCredentials || r.reply == NotVerified
  {
    match FindByEmail(users, byEmail, email)
    case None => Refused(BadCredentials)
    case Some(u) =>
      if !u.isVerified then Refused(NotVerified)
      else if !matches(password, u.password) then Refused(BadCredentials)
      else
        var token := sign(Claims(u.id, SessionSeconds));
        LoggedIn(Welcome, SessionUser(u.id, u.name, u.email, StatusText(u)), Cookie(token, nodeEnv))
  }

  /**
   * The verification check comes before the password check: an unverified
   * account gets the same answer whatever password is tried, so the answer
   * tells anyone that the email is registered.
   */
  lemma UnverifiedAnswerIgnoresPassword(users: map<UserId, User>, byEmail: map<string, UserId>,
                                        email: string, p1: string, p2: string,
                                        matches: (string, string) -> bool, sign: Claims -> string,
                                        nodeEnv: Option<string>)
    requires TableValid(users, byEmail)
    requires email in byEmail && !users[byEmail[email]].isVerified
    ensures Login(users, byEmail, email, p1, matches, sign, nodeEnv) == Refused(NotVerified)
    ensures Login(users, byEmail, email, p1, matches, sign, nodeEnv)
            == Login(users, byEmail, email, p2, matches, sign, nodeEnv)
  {
  }

  /** An unknown email and a wrong password get the very same answer. */
  lemma WrongPasswordLooksLikeUnknownEmail(users: map<UserId, User>, byEmail: map<string, UserId>,
                                           known: string, unknown: string, password: string,
                                           matches: (string, string) -> bool, sign: Claims -> string,
                                           nodeEnv: Option<string>)
    requires TableValid(users, byEmail)
    requires known in byEmail && users[byEmail[known]].isVerified
    requires !matches(password, users[byEmail[known]].password)
    requires unknown !in byEmail
    ensures Login(users, byEmail, known, password, matches, sign, nodeEnv)
            == Login(users, byEmail, unknown, password, matches, sign, nodeEnv)
            == Refused(BadCredentials)
  {
  }
}
