/**
 * The plan keys the parts of the system use do not agree. The pricing page
 * sends `mensual` or `anual`; checkout accepts only `pro` and `enterprise`;
 * the manual confirmation writes the payment's plan, defaulting to
 * `mensual`, and gives a year only to `anual`; the schema admits only
 * `free`, `pro` and `enterprise`. These lemmas state the consequences of the
 * code as written.
 */
module PlanIds {
  import opened Wrappers
  import opened Schema
  import opened Store
  import opened Http
  import Checkout
  import ManualUpdate

  /**
   * The keys the pricing page derives from "Plan Mensual" and "Plan Anual"
   * by lower-casing and dropping "plan ".
   */
  const PricingKeys: set<string> := {"mensual", "anual"}

  /** No checkout started from the pricing page reaches the gateway. */
  lemma PricingKeysNeverReachGateway(users: map<UserId, User>, cookie: Option<string>, key: string,
                                     baseUrl: Option<string>,
                                     create: Checkout.Preference -> Result<Checkout.Created, string>)
    requires key in PricingKeys
    ensures !Checkout.CreatePayment(users, cookie, Some(key), baseUrl, create).Started?
    ensures Checkout.SelectPlan(Some(key)) == Checkout.Missing
  {
  }

  /**
   * The keys checkout does accept are admitted by the schema, and none of
   * them is `anual`: a payment started by checkout always buys thirty days.
   */
  lemma CheckoutKeysBuyThirtyDays(key: string)
    requires Checkout.SelectPlan(Some(key)).Own?
    ensures PlanAllowed(key)
    ensures ManualUpdate.PeriodMillis(key) == 30 * 86_400_000
  {
  }

  /**
   * A payment with no plan in its metadata (hence `mensual`) or with `anual`
   * activates a record that fails the plan enum when it is saved: the route
   * answers 500 and the table is unchanged.
   */
  lemma ManualPlansFailValidation(users: map<UserId, User>, cookie: Option<string>,
                                  verify: string -> Option<string>, paymentId: Option<string>,
                                  getPayment: string -> Result<Option<ManualUpdate.Payment>, string>,
                                  now: Millis, storeError: Option<string>,
                                  user: User, p: ManualUpdate.Payment)
    requires KeyedById(users)
    requires ManualUpdate.Authorized(users, cookie, verify, paymentId, getPayment, user, p)
    requires user.subscription.status != Active
    requires ManualUpdate.PlanOf(p) in PricingKeys
    ensures ManualUpdate.Confirm(users, cookie, verify, paymentId, getPayment, now, storeError)
            == ManualUpdate.Confirmation(ManualUpdate.SaveFailed, users)
  {
    ManualUpdate.AuthorizedRequestProceeds(users, cookie, verify, paymentId, getPayment, user, p);
  }

  /**
   * The path that does work end to end: a payment created from the
   * preference checkout built for this user, approved and confirmed by the
   * same user, activates the subscription on the checkout key for thirty
   * days from `PeriodBase`.
   */
  lemma CheckoutPaymentActivates(users: map<UserId, User>,
                                 cookie: Option<string>, verify: string -> Option<string>,
                                 paymentId: Option<string>,
                                 getPayment: string -> Result<Option<ManualUpdate.Payment>, string>,
                                 now: Millis, user: User, key: string, baseUrl: Option<string>,
                                 p: ManualUpdate.Payment)
    requires KeyedById(users) && Validates(user)
    requires Checkout.SelectPlan(Some(key)).Own?
    requires var pref := Checkout.BuildPreference(user, key, Checkout.SelectPlan(Some(key)).info, baseUrl);
             p.metadataPlan == Some(pref.metadata.plan) && p.externalReference == Some(pref.externalReference)
    requires p.status == "approved"
    requires ManualUpdate.Authorized(users, cookie, verify, paymentId, getPayment, user, p)
    requires user.subscription.status != Active
    ensures var r := ManualUpdate.Confirm(users, cookie, verify, paymentId, getPayment, now, None);
            && r.reply == ManualUpdate.Updated
            && r.users[user.id].subscription.status == Active
            && r.users[user.id].subscription.plan == key
            && r.users[user.id].subscription.currentPeriodEnd
               == Some(ManualUpdate.PeriodBase(user.subscription.currentPeriodEnd, now) + 30 * 86_400_000)
  {
    // The metadata plan is the checkout key, which is never empty.
    assert ManualUpdate.PlanOf(p) == key;
    CheckoutKeysBuyThirtyDays(key);
    AllowedPlanActivates(users, cookie, verify, paymentId, getPayment, now, user, p);
  }

  /** A confirmation whose plan passes the enum writes the activated subscription. */
  lemma AllowedPlanActivates(users: map<UserId, User>, cookie: Option<string>,
                             verify: string -> Option<string>, paymentId: Option<string>,
                             getPayment: string -> Result<Option<ManualUpdate.Payment>, string>,
                             now: Millis, user: User, p: ManualUpdate.Payment)
    requires KeyedById(users) && Validates(user)
    requires ManualUpdate.Authorized(users, cookie, verify, paymentId, getPayment, user, p)
    requires user.subscription.status != Active
    requires PlanAllowed(ManualUpdate.PlanOf(p))
    ensures var r := ManualUpdate.Confirm(users, cookie, verify, paymentId, getPayment, now, None);
            && r.reply == ManualUpdate.Updated
            && user.id in r.users
            && r.users[user.id] == user.(subscription := ManualUpdate.Activate(user.subscription, p, now))
  {
    ManualUpdate.AuthorizedRequestProceeds(users, cookie, verify, paymentId, getPayment, user, p);
    var u := user.(subscription := ManualUpdate.Activate(user.subscription, p, now));
    assert Validates(u);
  }
}
