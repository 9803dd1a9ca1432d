/**
 * `POST /api/create-payment`: look up the requested plan in the `prices`
 * table and build the gateway's payment preference for the caller, carrying
 * the caller's id as the external reference and the plan key as metadata.
 */
module Checkout {
  import opened Wrappers
  import opened Schema
  import opened Cookie
  import opened Store
  import opened Http

  /** An entry of `prices`; `price` in integer cents (9.99 is 999). */
  datatype PlanInfo = PlanInfo(priceCents: nat, name: string, features: seq<string>)

  const Pro := PlanInfo(999, "Plan Pro", [
    "50 resúmenes por mes",
    "PDFs hasta 50MB",
    "Resúmenes avanzados",
    "Acceso prioritario a la API",
    "Soporte por email"])

  const Enterprise := PlanInfo(2999, "Plan Empresarial", [
    "Resúmenes ilimitados",
    "PDFs hasta 100MB",
    "Resúmenes premium",
    "API dedicada",
    "Soporte 24/7",
    "Panel de administración"])

  /**
   * The names a plain object literal inherits from `Object.prototype`;
   * `prices[key]` yields a function or object for each of them.
   */
  const InheritedKeys: set<string> := {
    "constructor", "__proto__", "hasOwnProperty", "isPrototypeOf",
    "propertyIsEnumerable", "toString", "toLocaleString", "valueOf",
    "__defineGetter__", "__defineSetter__", "__lookupGetter__", "__lookupSetter__"}

  /** What `prices[plan]` yields: one of the two plans, an inherited member, or `undefined`. */
  datatype Selection = Own(info: PlanInfo) | Inherited | Missing

  /** `prices[plan as keyof typeof prices]`; an absent plan is looked up as `"undefined"`. */
  function SelectPlan(plan: Option<string>): (s: Selection)
    ensures s.Own? <==> plan == Some("pro") || plan == Some("enterprise")
    ensures s == Own(Pro) <==> plan == Some("pro")
    ensures s == Own(Enterprise) <==> plan == Some("enterprise")
    ensures s.Inherited? <==> plan.Some? && plan.value in InheritedKeys
  {
    match plan
    case None => Missing
    case Some(key) =>
      if key == "pro" then Own(Pro)
      else if key == "enterprise" then Own(Enterprise)
      else if key in InheritedKeys then Inherited
      else Missing
  }

  /** `features.join('\n')`. */
  function JoinLines(xs: seq<string>): string {
    if xs == [] then ""
    else if |xs| == 1 then xs[0]
    else xs[0] + "\n" + JoinLines(xs[1..])
  }

  /** `s.split('\n')`. */
  function SplitLines(s: string): (r: seq<string>)
    ensures |r| > 0
    decreases |s|
  {
    match Find(s, "\n")
    case None => [s]
    case Some(i) => [s[..i]] + SplitLines(s[i + 1..])
  }

  /**
   * The description keeps the features apart: splitting it at line breaks
   * gives back the feature list, as long as no feature holds a line break.
   */
  lemma {:induction false} SplitJoinLines(xs: seq<string>)
    requires |xs| > 0
    requires forall k :: 0 <= k < |xs| ==> !Contains(xs[k], "\n")
    ensures SplitLines(JoinLines(xs)) == xs
  {
    if |xs| == 1 {
      assert Find(xs[0], "\n").None?;
    } else {
      var x := xs[0];
      var s := JoinLines(xs);
      assert s == x + "\n" + JoinLines(xs[1..]);
      assert s[|x|..|x| + 1] == "\n";
      forall j: nat | j < |x|
        ensures !OccursAt(s, "\n", j)
      {
        assert !OccursAt(x, "\n", j);
        assert s[j..j + 1] == x[j..j + 1];
      }
      FindIs(s, "\n", |x|);
      assert s[..|x|] == x;
      assert s[|x| + 1..] == JoinLines(xs[1..]);
      SplitJoinLines(xs[1..]);
    }
  }

  datatype Item = Item(title: string, description: string, unitPriceCents: nat, quantity: nat, currencyId: string)
  datatype BackUrls = BackUrls(success: string, failure: string, pending: string)
  datatype Metadata = Metadata(userId: UserId, plan: string)
  datatype Preference = Preference(
    items: seq<Item>,
    backUrls: BackUrls,
    autoReturn: string,
    externalReference: string,
    notificationUrl: string,
    metadata: Metadata)

  /** `${process.env.NEXT_PUBLIC_BASE_URL}`: an unset variable prints as `undefined`. */
  function BaseText(baseUrl: Option<string>): string {
    if baseUrl.Some? then baseUrl.value else "undefined"
  }

  /** The preference the route sends to the gateway for `user` and plan `key`. */
  function BuildPreference(user: User, key: string, info: PlanInfo, baseUrl: Option<string>): (p: Preference)
    ensures |p.items| == 1
    ensures p.items[0] == Item(info.name, JoinLines(info.features), info.priceCents, 1, "PEN")
    ensures p.externalReference == user.id && p.metadata == Metadata(user.id, key)
    ensures p.backUrls.success == BaseText(baseUrl) + "/dashboard?success=true"
    ensures p.backUrls.failure == BaseText(baseUrl) + "/pricing?error=payment_failed"
    ensures p.backUrls.pending == BaseText(baseUrl) + "/dashboard?status=pending"
    ensures p.notificationUrl == BaseText(baseUrl) + "/api/webhooks/mercadopago"
    ensures p.autoReturn == "approved"
  {
    var base := BaseText(baseUrl);
    Preference(
      [Item(info.name, JoinLines(info.features), info.priceCents, 1, "PEN")],
      BackUrls(base + "/dashboard?success=true", base + "/pricing?error=payment_failed",
               base + "/dashboard?status=pending"),
      "approved",
      user.id,
      base + "/api/webhooks/mercadopago",
      Metadata(user.id, key))
  }

  /** The gateway's answer to `preferences.create`. */
  datatype Created = Created(initPoint: string, id: string)

  datatype CheckoutReply = Refused(reply: Reply) | Started(initPoint: string, preferenceId: string)

  const NoToken := Reply(401, ErrorBody("No autorizado"))
  const NoUser := Reply(404, ErrorBody("Usuario no encontrado"))
  const InvalidPlan := Reply(400, ErrorBody("Plan no válido"))
  const Failed := Reply(500, ErrorBody("Error al procesar el pago"))

  /**
   * The route's decision. The raw cookie value is used as the record's `_id`;
   * a key that is not an ObjectId, an inherited `prices` member (whose
   * missing `features` makes `join` throw) and a gateway failure all end in
   * the route's handler, which answers 500.
   */
  function CreatePayment(users: map<UserId, User>, cookie: Option<string>, plan: Option<string>,
                         baseUrl: Option<string>, create: Preference -> Result<Created, string>): (r: CheckoutReply)
    ensures !HasToken(TokenFromCookie(cookie)) ==> r == Refused(NoToken)
    ensures r.Started? <==>
              && HasToken(TokenFromCookie(cookie))
              && FindById(users, TokenFromCookie(cookie).value).Success?
              && FindById(users, TokenFromCookie(cookie).value).value.Some?
              && SelectPlan(plan).Own?
              && create(BuildPreference(FindById(users, TokenFromCookie(cookie).value).value.value,
                                        plan.value, SelectPlan(plan).info, baseUrl)).Success?
    ensures HasToken(TokenFromCookie(cookie)) && !IsObjectIdText(TokenFromCookie(cookie).value) ==> r == Refused(Failed)
    ensures r.Refused? && r.reply == InvalidPlan ==> !SelectPlan(plan).Own?
    ensures HasToken(TokenFromCookie(cookie)) ==>
              var lookup := FindById(users, TokenFromCookie(cookie).value);
              && (lookup.Failure? ==> r == Refused(Failed))
              && (lookup == Success(None) ==> r == Refused(NoUser))
              && (lookup.Success? && lookup.value.Some? ==>
                    && (SelectPlan(plan).Missing? ==> r == Refused(InvalidPlan))
                    && (SelectPlan(plan).Inherited? ==> r == Refused(Failed))
                    && (SelectPlan(plan).Own? ==>
                          var made := create(BuildPreference(lookup.value.value, plan.value, SelectPlan(plan).info, baseUrl));
                          r == if made.Success? then Started(made.value.initPoint, made.value.id) else Refused(Failed)))
    ensures r.Refused? ==> r.reply in {NoToken, NoUser, InvalidPlan, Failed}
  {
    var token := TokenFromCookie(cookie);
    if !HasToken(token) then Refused(NoToken)
    else match FindById(users, token.value)
      case Failure(_) => Refused(Failed)
      case Success(None) => Refused(NoUser)
      case Success(Some(user)) =>
        match SelectPlan(plan)
        case Missing => Refused(InvalidPlan)
        case Inherited => Refused(Failed)
        case Own(info) =>
          match create(BuildPreference(user, plan.value, info, baseUrl))
          case Failure(_) => Refused(Failed)
          case Success(c) => Started(c.initPoint, c.id)
  }

  /** A missing token is refused before the store is consulted: the table plays no part. */
  lemma MissingTokenIgnoresStore(u1: map<UserId, User>, u2: map<UserId, User>, cookie: Option<string>,
                                 plan: Option<string>, baseUrl: Option<string>,
                                 create: Preference -> Result<Created, string>)
    requires !HasToken(TokenFromCookie(cookie))
    ensures CreatePayment(u1, cookie, plan, baseUrl, create) == CreatePayment(u2, cookie, plan, baseUrl, create)
  {
  }

  /**
   * The cookie login sets holds a JSON Web Token, whose dots are no hex
   * digit: used as an `_id` it fails the cast, and the route answers 500.
   */
  lemma SessionTokenNeverFindsUser(users: map<UserId, User>, cookie: Option<string>, plan: Option<string>,
                                   baseUrl: Option<string>, create: Preference -> Result<Created, string>, dot: nat)
    requires HasToken(TokenFromCookie(cookie))
    requires dot < |TokenFromCookie(cookie).value| && TokenFromCookie(cookie).value[dot] == '.'
    ensures CreatePayment(users, cookie, plan, baseUrl, create) == Refused(Failed)
  {
    assert !IsHexDigit(TokenFromCookie(cookie).value[dot]);
  }

  /** A key inherited from `Object.prototype` answers 500, not the 400 of an unknown plan. */
  lemma InheritedKeyIsServerError(users: map<UserId, User>, cookie: Option<string>,
                                  baseUrl: Option<string>, create: Preference -> Result<Created, string>)
    requires HasToken(TokenFromCookie(cookie))
    requires FindById(users, TokenFromCookie(cookie).value).Success?
    requires FindById(users, TokenFromCookie(cookie).value).value.Some?
    ensures CreatePayment(users, cookie, Some("toString"), baseUrl, create) == Refused(Failed)
    ensures CreatePayment(users, cookie, Some("plus"), baseUrl, create) == Refused(InvalidPlan)
  {
  }
}
