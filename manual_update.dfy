/**
 * `POST /api/update-subscription-manual`: the client reports a payment id
 * after checkout; the route authenticates the caller, fetches the payment
 * from the gateway and, if it is approved and belongs to the caller,
 * activates the caller's subscription and extends its period.
 */
module ManualUpdate {
  import opened Wrappers
  import opened Schema
  import opened Cookie
  import opened Store
  import opened Http

  /** The fields of the gateway's payment record the route reads. */
  datatype Payment = Payment(
    id: Option<nat>,
    status: string,
    externalReference: Option<string>,
    metadataPlan: Option<string>)

  const DayMillis := 24 * 60 * 60 * 1000
  const DefaultPlan := "mensual"
  const AnnualPlan := "anual"

  const NoToken := Reply(401, ErrorBody("No autorizado"))
  const BadToken := Reply(401, ErrorBody("Token inválido"))
  const NoPaymentId := Reply(400, ErrorBody("ID de pago faltante"))
  const NoUser := Reply(404, ErrorBody("Usuario no encontrado"))
  const GatewayFailed := Reply(500, ErrorBody("Error al obtener datos del pago"))
  const PaymentNotFound := Reply(200, MessageBody("Pago no encontrado"))
  const PaymentNotApproved := Reply(200, MessageBody("Pago no aprobado"))
  const NotPayer := Reply(403, ErrorBody("Pago no corresponde al usuario"))
  const Updated := Reply(200, SuccessBody("Suscripción actualizada correctamente"))
  const AlreadyActive := Reply(200, SuccessBody("Usuario ya tiene una suscripción activa"))
  const SaveFailed := Reply(500, ErrorBody("Error al actualizar la suscripción"))

  /** `paymentData.metadata?.plan || 'mensual'`: an absent or empty plan falls back. */
  function PlanOf(p: Payment): (plan: string)
    ensures plan != ""
    ensures p.metadataPlan.Some? && p.metadataPlan.value != "" ==> plan == p.metadataPlan.value
    ensures p.metadataPlan.None? || p.metadataPlan.value == "" ==> plan == DefaultPlan
  {
    if p.metadataPlan.Some? && p.metadataPlan.value != "" then p.metadataPlan.value else DefaultPlan
  }

  /** The period a plan buys: a year for `anual`, thirty days for any other plan text. */
  function PeriodMillis(plan: string): (d: int)
    ensures d == 365 * 86_400_000 <==> plan == AnnualPlan
    ensures d != 365 * 86_400_000 ==> d == 30 * 86_400_000
  {
    if plan == AnnualPlan then 365 * DayMillis else 30 * DayMillis
  }

  /** The point the new period starts from: the current end while it is still ahead, else now. */
  function PeriodBase(end: Option<Millis>, now: Millis): (b: Millis)
    ensures b >= now
    ensures end.Some? ==> b >= end.value
    ensures b == now || (end.Some? && b == end.value)
  {
    if end.Some? && end.value > now then end.value else now
  }

  /** A decimal digit. */
  function Digit(d: nat): (c: char)
    requires d < 10
    ensures '0' <= c <= '9'
    ensures c as int - '0' as int == d
  {
    (d + '0' as int) as char
  }

  /** `n.toString()` for a non-negative integer. */
  function Decimal(n: nat): (s: string)
    ensures |s| > 0 && forall i :: 0 <= i < |s| ==> '0' <= s[i] <= '9'
    ensures s[0] == '0' ==> n == 0
    decreases n
  {
    if n < 10 then [Digit(n)] else Decimal(n / 10) + [Digit(n % 10)]
  }

  /** The number a string of decimal digits denotes. */
  function DigitsValue(s: string): (n: nat)
    requires forall i :: 0 <= i < |s| ==> '0' <= s[i] <= '9'
  {
    if s == [] then 0 else 10 * DigitsValue(s[..|s| - 1]) + (s[|s| - 1] as int - '0' as int)
  }

  /** The stored subscription id reads back as the gateway's payment id. */
  lemma {:induction false} DecimalRoundTrip(n: nat)
    ensures DigitsValue(Decimal(n)) == n
  {
    var s := Decimal(n);
    if n >= 10 {
      DecimalRoundTrip(n / 10);
      assert s[..|s| - 1] == Decimal(n / 10);
    }
  }

  /** `if (paymentData.id)`: an absent id and the id 0 are both falsy. */
  predicate HasPaymentId(p: Payment) {
    p.id.Some? && p.id.value != 0
  }

  /**
   * The subscription after an approved payment is applied: active, on the
   * payment's plan, with the period extended from `PeriodBase` by the plan's
   * duration, and the gateway id recorded when the payment has one.
   */
  function Activate(sub: Subscription, p: Payment, now: Millis): (s: Subscription)
    ensures s.status == Active && s.plan == PlanOf(p)
    ensures s.currentPeriodEnd.Some?
    ensures s.currentPeriodEnd.value - PeriodBase(sub.currentPeriodEnd, now) == PeriodMillis(PlanOf(p))
    ensures s.currentPeriodEnd.value >= now + PeriodMillis(PlanOf(p))
    ensures sub.currentPeriodEnd.Some? ==>
              s.currentPeriodEnd.value >= sub.currentPeriodEnd.value + PeriodMillis(PlanOf(p))
    ensures s.mercadopagoCustomerId == sub.mercadopagoCustomerId
    ensures HasPaymentId(p) ==> s.mercadopagoSubscriptionId == Some(Decimal(p.id.value))
    ensures !HasPaymentId(p) ==> s.mercadopagoSubscriptionId == sub.mercadopagoSubscriptionId
  {
    var base := PeriodBase(sub.currentPeriodEnd, now);
    var plan := PlanOf(p);
    sub.(status := Active,
         plan := plan,
         currentPeriodEnd := Some(base + PeriodMillis(plan)),
         mercadopagoSubscriptionId :=
           if HasPaymentId(p) then Some(Decimal(p.id.value)) else sub.mercadopagoSubscriptionId)
  }

  /** The outcome of the guard chain: an early answer, or the caller and their approved payment. */
  datatype Check = Stop(reply: Reply) | Proceed(user: User, payment: Payment)

  /** Everything the guard chain demands of a request before it may write. */
  ghost predicate Authorized(users: map<UserId, User>, cookie: Option<string>,
                             verify: string -> Option<string>, paymentId: Option<string>,
                             getPayment: string -> Result<Option<Payment>, string>,
                             user: User, p: Payment)
  {
    var token := TokenFromCookie(cookie);
    && HasToken(token)
    && verify(token.value).Some?
    && paymentId.Some? && paymentId.value != ""
    && FindById(users, verify(token.value).value) == Success(Some(user))
    && getPayment(paymentId.value) == Success(Some(p))
    && p.status == "approved"
    && p.externalReference == Some(user.id)
  }

  /**
   * The guards of the route, in their order: session token, its signature,
   * the payment id, the caller's record, the gateway's answer, approval and
   * ownership. A cast failure of the decoded id reaches the route's outer
   * handler, which answers 500 with the error's message.
   */
  function Checks(users: map<UserId, User>, cookie: Option<string>,
                  verify: string -> Option<string>, paymentId: Option<string>,
                  getPayment: string -> Result<Option<Payment>, string>): (c: Check)
    ensures c.Proceed? ==> Authorized(users, cookie, verify, paymentId, getPayment, c.user, c.payment)
    ensures !HasToken(TokenFromCookie(cookie)) ==> c == Stop(NoToken)
    ensures HasToken(TokenFromCookie(cookie)) && verify(TokenFromCookie(cookie).value).None? ==> c == Stop(BadToken)
    ensures (HasToken(TokenFromCookie(cookie)) && verify(TokenFromCookie(cookie).value).Some?
             && (paymentId.None? || paymentId.value == "")) ==> c == Stop(NoPaymentId)
    ensures c.Stop? ==> c.reply.status in {200, 400, 401, 403, 404, 500}
  {
    var token := TokenFromCookie(cookie);
    if !HasToken(token) then Stop(NoToken)
    else match verify(token.value)
      case None => Stop(BadToken)
      case Some(userId) =>
        if paymentId.None? || paymentId.value == "" then Stop(NoPaymentId)
        else match FindById(users, userId)
          case Failure(message) => Stop(Reply(500, ErrorBody(message)))
          case Success(None) => Stop(NoUser)
          case Success(Some(user)) =>
            match getPayment(paymentId.value)
            case Failure(_) => Stop(GatewayFailed)
            case Success(None) => Stop(PaymentNotFound)
            case Success(Some(p)) =>
              if p.status != "approved" then Stop(PaymentNotApproved)
              else if p.externalReference != Some(user.id) then Stop(NotPayer)
              else Proceed(user, p)
  }

  /** The answer of the route and the user table after it. */
  datatype Confirmation = Confirmation(reply: Reply, users: map<UserId, User>)

  /**
   * The whole route as a function of the table before it: the guards, then
   * either the already-active answer or the activation, written only if
   * `save()` succeeds.
   */
  function Confirm(users: map<UserId, User>, cookie: Option<string>,
                   verify: string -> Option<string>, paymentId: Option<string>,
                   getPayment: string -> Result<Option<Payment>, string>,
                   now: Millis, storeError: Option<string>): (r: Confirmation)
    requires KeyedById(users)
    ensures r.users.Keys == users.Keys
    ensures r.reply == Updated <==> r.users != users
    ensures Checks(users, cookie, verify, paymentId, getPayment).Stop? ==>
              r == Confirmation(Checks(users, cookie, verify, paymentId, getPayment).reply, users)
    ensures Checks(users, cookie, verify, paymentId, getPayment).Proceed?
            && Checks(users, cookie, verify, paymentId, getPayment).user.subscription.status == Active
            ==> r == Confirmation(AlreadyActive, users)
    ensures var c := Checks(users, cookie, verify, paymentId, getPayment);
            c.Proceed? && c.user.subscription.status != Active ==>
              var u := c.user.(subscription := Activate(c.user.subscription, c.payment, now));
              r == if storeError.None? && Validates(u) then Confirmation(Updated, users[c.user.id := u])
                   else Confirmation(SaveFailed, users)
  {
    match Checks(users, cookie, verify, paymentId, getPayment)
    case Stop(reply) => Confirmation(reply, users)
    case Proceed(user, p) =>
      if user.subscription.status == Active then Confirmation(AlreadyActive, users)
      else
        var u := user.(subscription := Activate(user.subscription, p, now));
        if storeError.None? && Validates(u) then Confirmation(Updated, users[user.id := u])
        else Confirmation(SaveFailed, users)
  }

  /**
   * Once the token, its signature and the payment id have passed, the
   * remaining guards answer in this order: the lookup's cast error (500 with
   * its message), no record (404), the gateway's failure (500), no payment
   * (200), a payment not approved (200), a payment of someone else (403).
   */
  lemma LaterGuardsAnswer(users: map<UserId, User>, cookie: Option<string>,
                          verify: string -> Option<string>, paymentId: Option<string>,
                          getPayment: string -> Result<Option<Payment>, string>, userId: string)
    requires HasToken(TokenFromCookie(cookie)) && verify(TokenFromCookie(cookie).value) == Some(userId)
    requires paymentId.Some? && paymentId.value != ""
    ensures var c := Checks(users, cookie, verify, paymentId, getPayment);
            && (FindById(users, userId).Failure? ==> c == Stop(Reply(500, ErrorBody(FindById(users, userId).error))))
            && (FindById(users, userId) == Success(None) ==> c == Stop(NoUser))
            && (FindById(users, userId).Success? && FindById(users, userId).value.Some? ==>
                  var u := FindById(users, userId).value.value;
                  && (getPayment(paymentId.value).Failure? ==> c == Stop(GatewayFailed))
                  && (getPayment(paymentId.value) == Success(None) ==> c == Stop(PaymentNotFound))
                  && (forall p: Payment :: getPayment(paymentId.value) == Success(Some(p)) ==>
                        (p.status != "approved" ==> c == Stop(PaymentNotApproved))
                        && (p.status == "approved" && p.externalReference != Some(u.id) ==> c == Stop(NotPayer))))
  {
  }

  /** A request that passes every guard proceeds, with the caller's record and payment. */
  lemma AuthorizedRequestProceeds(users: map<UserId, User>, cookie: Option<string>,
                                  verify: string -> Option<string>, paymentId: Option<string>,
                                  getPayment: string -> Result<Option<Payment>, string>,
                                  user: User, p: Payment)
    requires Authorized(users, cookie, verify, paymentId, getPayment, user, p)
    ensures Checks(users, cookie, verify, paymentId, getPayment) == Proceed(user, p)
  {
  }

  /**
   * The only record a confirmation can change is the caller's, only from a
   * non-active status, only for an approved payment that references the
   * caller, and only to the activated subscription.
   */
  lemma ConfirmWritesOnlyThePayer(users: map<UserId, User>, cookie: Option<string>,
                                  verify: string -> Option<string>, paymentId: Option<string>,
                                  getPayment: string -> Result<Option<Payment>, string>,
                                  now: Millis, storeError: Option<string>, id: UserId)
    requires KeyedById(users)
    requires id in users
    requires Confirm(users, cookie, verify, paymentId, getPayment, now, storeError).users[id] != users[id]
    ensures var c := Checks(users, cookie, verify, paymentId, getPayment);
            && c.Proceed? && c.user == users[id]
            && Authorized(users, cookie, verify, paymentId, getPayment, users[id], c.payment)
            && c.payment.externalReference == Some(id)
            && users[id].subscription.status != Active
            && Confirm(users, cookie, verify, paymentId, getPayment, now, storeError).users[id]
               == users[id].(subscription := Activate(users[id].subscription, c.payment, now))
  {
  }

  /**
   * Confirming the same payment again changes nothing: the first
   * confirmation leaves the subscription active, so the second one meets the
   * already-active guard, whatever the clock and the store say then.
   */
  lemma ConfirmIsIdempotent(users: map<UserId, User>, cookie: Option<string>,
                            verify: string -> Option<string>, paymentId: Option<string>,
                            getPayment: string -> Result<Option<Payment>, string>,
                            now: Millis, storeError: Option<string>,
                            later: Millis, laterError: Option<string>)
    requires KeyedById(users)
    requires Confirm(users, cookie, verify, paymentId, getPayment, now, storeError).reply == Updated
    ensures var first := Confirm(users, cookie, verify, paymentId, getPayment, now, storeError);
            KeyedById(first.users)
            && Confirm(first.users, cookie, verify, paymentId, getPayment, later, laterError)
               == Confirmation(AlreadyActive, first.users)
  {
    var first := Confirm(users, cookie, verify, paymentId, getPayment, now, storeError);
    var c := Checks(users, cookie, verify, paymentId, getPayment);
    var user, p := c.user, c.payment;
    var u := user.(subscription := Activate(user.subscription, p, now));
    assert first.users == users[user.id := u];
    var token := TokenFromCookie(cookie);
    var key := CanonicalId(verify(token.value).value);
    assert user.id == key;
    assert FindById(first.users, verify(token.value).value) == Success(Some(u));
    assert Authorized(first.users, cookie, verify, paymentId, getPayment, u, p);
    AuthorizedRequestProceeds(first.users, cookie, verify, paymentId, getPayment, u, p);
  }

  /**
   * The route as it runs against the store: the guard chain, then the
   * in-place update of the caller's subscription and `save()`. Its answer
   * and the table it leaves are those `Confirm` gives; the email index is
   * untouched.
   */
  method UpdateSubscriptionManual(store: UserStore, cookie: Option<string>,
                                  verify: string -> Option<string>, paymentId: Option<string>,
                                  getPayment: string -> Result<Option<Payment>, string>,
                                  now: Millis, storeError: Option<string>)
    returns (reply: Reply)
    requires store.Valid()
    modifies store
    ensures store.Valid()
    ensures Confirmation(reply, store.users)
            == Confirm(old(store.users), cookie, verify, paymentId, getPayment, now, storeError)
    ensures store.byEmail == old(store.byEmail)
  {
    var check := Checks(store.users, cookie, verify, paymentId, getPayment);
    if check.Stop? {
      return check.reply;
    }
    var user, payment := check.user, check.payment;
    if user.subscription.status != Active {
      var sub := user.subscription;
      sub := sub.(status := Active);
      var period := 30 * DayMillis;
      var plan := PlanOf(payment);
      if plan == AnnualPlan {
        period := 365 * DayMillis;
      }
      sub := sub.(plan := plan);
      var base := if sub.currentPeriodEnd.Some? && sub.currentPeriodEnd.value > now
                  then sub.currentPeriodEnd.value else now;
      sub := sub.(currentPeriodEnd := Some(base + period));
      if HasPaymentId(payment) {
        sub := sub.(mercadopagoSubscriptionId := Some(Decimal(payment.id.value)));
      }
      assert sub == Activate(user.subscription, payment, now);
      var err := store.Save(user.(subscription := sub), storeError);
      reply := if err.None? then Updated else SaveFailed;
    } else {
      reply := AlreadyActive;
    }
  }
}
