/**
 * The user document of models/User.ts: its fields, enums and defaults, and
 * the validation the ORM runs before a document is created or saved.
 * Time is in integer milliseconds since the epoch.
 */
module Schema {
  import opened Wrappers

  /** `user._id.toString()`: the 24-digit lower-case hex form of an ObjectId. */
  type UserId = string
  type Millis = int

  /** `subscription.status`, enum free | active | canceled | pending. */
  datatype SubscriptionStatus = Free | Active | Canceled | Pending

  /**
   * `subscription.plan` is stored as the text it was given; the schema's enum
   * is checked only when the record is validated (see `PlanAllowed`).
   */
  datatype Subscription = Subscription(
    status: SubscriptionStatus,
    plan: string,
    mercadopagoCustomerId: Option<string>,
    mercadopagoSubscriptionId: Option<string>,
    currentPeriodEnd: Option<Millis>)

  datatype Usage = Usage(summariesThisMonth: int, lastResetDate: Millis)

  /** `password` holds the bcrypt hash, never the plain text. */
  datatype User = User(
    id: UserId,
    email: string,
    name: string,
    password: string,
    isVerified: bool,
    verificationToken: Option<string>,
    verificationTokenExpiry: Option<Millis>,
    subscription: Subscription,
    usage: Usage,
    createdAt: Millis)

  /** The string the status enum stores: each status has its own name. */
  function StatusName(s: SubscriptionStatus): (r: string)
    ensures r in {"free", "active", "canceled", "pending"}
    ensures r == "free" <==> s == Free
    ensures r == "active" <==> s == Active
    ensures r == "canceled" <==> s == Canceled
    ensures r == "pending" <==> s == Pending
  {
    match s
    case Free => "free"
    case Active => "active"
    case Canceled => "canceled"
    case Pending => "pending"
  }

  /** The values the plan enum admits. */
  predicate PlanAllowed(plan: string) {
    plan == "free" || plan == "pro" || plan == "enterprise"
  }

  /** A required string path fails validation when it is missing or empty. */
  predicate Present(s: string) {
    s != ""
  }

  /**
   * What validation demands before `create` or `save` writes the record:
   * email, name and password required, and the plan within its enum (the
   * status enum holds by construction of `SubscriptionStatus`).
   */
  predicate Validates(u: User) {
    Present(u.email) && Present(u.name) && Present(u.password) && PlanAllowed(u.subscription.plan)
  }

  /** The subscription a new record receives from the schema's defaults. */
  function DefaultSubscription(): (s: Subscription)
    ensures s.status == Free && s.plan == "free" && PlanAllowed(s.plan)
    ensures s.mercadopagoCustomerId.None? && s.mercadopagoSubscriptionId.None?
    ensures s.currentPeriodEnd.None?
  {
    Subscription(Free, "free", None, None, None)
  }

  /**
   * A record built from the given paths with every other path at its default:
   * not verified, free subscription, no summaries used, and `lastResetDate`
   * and `createdAt` at `now` (`Date.now`).
   */
  function NewUser(id: UserId, name: string, email: string, password: string,
                   token: Option<string>, expiry: Option<Millis>, now: Millis): (u: User)
    ensures u.id == id && u.name == name && u.email == email && u.password == password
    ensures u.verificationToken == token && u.verificationTokenExpiry == expiry
    ensures !u.isVerified
    ensures u.subscription == DefaultSubscription()
    ensures u.usage.summariesThisMonth == 0 && u.usage.lastResetDate == now && u.createdAt == now
    ensures Validates(u) <==> name != "" && email != "" && password != ""
  {
    User(id, email, name, password, false, token, expiry, DefaultSubscription(), Usage(0, now), now)
  }

  /** A hex digit as `ObjectId` casting accepts it, in either case. */
  predicate IsHexDigit(c: char) {
    ('0' <= c <= '9') || ('a' <= c <= 'f') || ('A' <= c <= 'F')
  }

  /** A string the ORM can cast to an ObjectId. */
  predicate IsObjectIdText(s: string) {
    |s| == 24 && forall i :: 0 <= i < |s| ==> IsHexDigit(s[i])
  }

  /** The canonical form `ObjectId.toString()` gives: lower-case hex. */
  predicate IsCanonicalId(s: string) {
    IsObjectIdText(s) && forall i :: 0 <= i < |s| ==> !('A' <= s[i] <= 'F')
  }

  function LowerHex(c: char): (d: char)
    ensures 'A' <= c <= 'F' ==> 'a' <= d <= 'f'
    ensures !('A' <= c <= 'F') ==> d == c
  {
    if 'A' <= c <= 'F' then (c as int - 'A' as int + 'a' as int) as char else c
  }

  /** The id an ObjectId cast of `s` denotes, as `toString()` prints it. */
  function CanonicalId(s: string): (r: UserId)
    requires IsObjectIdText(s)
    ensures IsCanonicalId(r)
    ensures |r| == |s| && forall i :: 0 <= i < |s| ==> r[i] == LowerHex(s[i])
    ensures IsCanonicalId(s) ==> r == s
  {
    seq(|s|, i requires 0 <= i < |s| => LowerHex(s[i]))
  }
}
