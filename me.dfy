/**
 * `GET /api/user/me`: the caller's own record, found through the session
 * token, with the password and the verification token left out.
 */
module Me {
  import opened Wrappers
  import opened Schema
  import opened Cookie
  import opened Store
  import opened Http
  import Login

  /** The record as `.select('-password -verificationToken -verificationTokenExpiry')` returns it. */
  datatype PublicUser = PublicUser(
    id: UserId,
    email: string,
    name: string,
    isVerified: bool,
    subscription: Subscription,
    usage: Usage,
    createdAt: Millis)

  function Public(u: User): PublicUser {
    PublicUser(u.id, u.email, u.name, u.isVerified, u.subscription, u.usage, u.createdAt)
  }

  /**
   * The projection forgets exactly the three secret paths: two records look
   * the same through it if and only if they differ at most in those.
   */
  lemma PublicForgetsOnlySecrets(u: User, v: User)
    ensures Public(u) == Public(v) <==>
            u.(password := v.password, verificationToken := v.verificationToken,
               verificationTokenExpiry := v.verificationTokenExpiry) == v
  {
  }

  datatype MeReply = Refused(reply: Reply) | Profile(user: PublicUser)

  const NoToken := Reply(401, ErrorBody("No autorizado: Token no encontrado"))
  const BadToken := Reply(401, ErrorBody("No autorizado: Token inválido o expirado"))
  const NoUser := Reply(404, ErrorBody("Usuario no encontrado"))
  const Failed := Reply(500, ErrorBody("Error al obtener datos del usuario"))

  /** The route's decision; `verify` stands for `jwt.verify` and yields `decoded.userId`. */
  function Me(users: map<UserId, User>, cookie: Option<string>, verify: string -> Option<string>): (r: MeReply)
    ensures !HasToken(TokenFromCookie(cookie)) ==> r == Refused(NoToken)
    ensures HasToken(TokenFromCookie(cookie)) && verify(TokenFromCookie(cookie).value).None?
            ==> r == Refused(BadToken)
    ensures r.Profile? <==>
              HasToken(TokenFromCookie(cookie)) && verify(TokenFromCookie(cookie).value).Some?
              && FindById(users, verify(TokenFromCookie(cookie).value).value).Success?
              && FindById(users, verify(TokenFromCookie(cookie).value).value).value.Some?
    ensures r.Profile? ==>
              r.user == Public(FindById(users, verify(TokenFromCookie(cookie).value).value).value.value)
    ensures HasToken(TokenFromCookie(cookie)) && verify(TokenFromCookie(cookie).value).Some? ==>
              var lookup := FindById(users, verify(TokenFromCookie(cookie).value).value);
              && (lookup.Failure? ==> r == Refused(Failed))
              && (lookup == Success(None) ==> r == Refused(NoUser))
    ensures r.Refused? ==> r.reply in {NoToken, BadToken, NoUser, Failed}
  {
    var token := TokenFromCookie(cookie);
    if !HasToken(token) then Refused(NoToken)
    else match verify(token.value)
      case None => Refused(BadToken)
      case Some(userId) =>
        match FindById(users, userId)
        case Failure(_) => Refused(Failed)
        case Success(None) => Refused(NoUser)
        case Success(Some(u)) => Profile(Public(u))
  }

  /** The characters a JSON Web Token is written in: base64url and the dots between its parts. */
  predicate IsJwtText(s: string) {
    forall i :: 0 <= i < |s| ==>
      ('A' <= s[i] <= 'Z') || ('a' <= s[i] <= 'z') || ('0' <= s[i] <= '9')
      || s[i] == '-' || s[i] == '_' || s[i] == '.'
  }

  /** A JSON Web Token never holds a `;`, nor the `=` that ends `token=`. */
  lemma JwtTextHasNoSeparators(s: string)
    requires IsJwtText(s)
    ensures !Contains(s, ";") && !Contains(s, TokenKey)
  {
    forall j: nat
      ensures !OccursAt(s, ";", j) && !OccursAt(s, TokenKey, j)
    {
      if j + 1 <= |s| {
        assert s[j..j + 1][0] == s[j];
      }
      if j + |TokenKey| <= |s| {
        assert s[j..j + |TokenKey|][5] == s[j + 5];
      }
    }
  }

  /**
   * A session started by login is recognised by this route: the browser
   * sends `token=<jwt>` (first among the cookies that end in `token=`), the
   * token verifies to the account's id while it is valid, and the answer is
   * that account, without its secrets.
   */
  lemma LoginSessionReachesProfile(users: map<UserId, User>, byEmail: map<string, UserId>,
                                   email: string, password: string,
                                   matches: (string, string) -> bool, sign: Login.Claims -> string,
                                   nodeEnv: Option<string>, verify: string -> Option<string>,
                                   before: string, after: string)
    requires TableValid(users, byEmail)
    requires Login.Login(users, byEmail, email, password, matches, sign, nodeEnv).LoggedIn?
    requires var c := Login.Login(users, byEmail, email, password, matches, sign, nodeEnv).cookie;
             IsJwtText(c.value) && c.value != "" && verify(c.value) == Some(byEmail[email])
    requires !Contains(before, TokenKey)
    requires after == [] || after[0] == ';'
    ensures var c := Login.Login(users, byEmail, email, password, matches, sign, nodeEnv).cookie;
            Me(users, Some(before + c.name + "=" + c.value + after), verify)
            == Profile(Public(users[byEmail[email]]))
  {
    var c := Login.Login(users, byEmail, email, password, matches, sign, nodeEnv).cookie;
    JwtTextHasNoSeparators(c.value);
    assert before + c.name + "=" + c.value + after == before + TokenKey + c.value + after;
    ExtractsPairValue(before, c.value, after);
    var id := byEmail[email];
    assert IsCanonicalId(id);
    assert CanonicalId(id) == id;
  }
}
