/**
 * Plans and tiers: which usage policy a user gets (UsagePolicyFactory),
 * whether a plan-restricted endpoint lets the user in (PlanAccessAspect),
 * and the mobile app's client-side gate (PlanGate's `meets`).
 */
module Plans {
  import opened Wrappers
  import opened Text
  import opened Calendar

  /** Subscription.PlanType. */
  datatype PlanType = Free | Pro | Premium

  /** The enum constant's `name()`. */
  function Name(p: PlanType): string {
    match p
    case Free => "FREE"
    case Pro => "PRO"
    case Premium => "PREMIUM"
  }

  /** The fields of a Subscription entity; every one of them may be null. */
  datatype Subscription = Subscription(
    planType: Option<PlanType>,
    startDate: Option<DateTime>,
    endDate: Option<DateTime>,
    status: Option<string>,
    paymentId: Option<string>,
    orderId: Option<string>)

  datatype User = User(subscription: Option<Subscription>, currency: Option<string>)

  /** `"ACTIVE".equalsIgnoreCase(sub.getStatus())` on a present subscription. */
  predicate ActiveIgnoringCase(sub: Option<Subscription>) {
    sub.Some? && sub.value.status.Some? && EqualsIgnoreCase(sub.value.status.value, "ACTIVE")
  }

  // ---------------------------------------------------------------------
  // UsagePolicyFactory
  // ---------------------------------------------------------------------

  /** A UsagePolicy. `combinedBankLimit` is `None` where the call throws NullPointerException. */
  datatype Policy = Policy(plan: string, statementLimit: int, pagesPerStatement: int,
                           combinedBankLimit: Option<int>, startDate: Option<DateTime>, endDate: Option<DateTime>)

  /** A row of the plans table. */
  datatype PlanRow = PlanRow(planType: string, statementsPerMonth: int, pagesPerStatement: int, combinedBank: Option<int>)

  /** DefaultPolicies: FREE 3 statements of 10 pages and 2 banks; PRO 10/25/3; PREMIUM unlimited (-1)/50/5. */
  function DefaultFor(key: string): (p: Policy)
    ensures p.plan == (if key == "PRO" || key == "PREMIUM" then key else "FREE")
    ensures p.combinedBankLimit.Some? && p.startDate.None? && p.endDate.None?
    ensures p.statementLimit == -1 <==> p.plan == "PREMIUM"
  {
    if key == "PRO" then Policy("PRO", 10, 25, Some(3), None, None)
    else if key == "PREMIUM" then Policy("PREMIUM", -1, 50, Some(5), None, None)
    else Policy("FREE", 3, 10, Some(2), None, None)
  }

  /** `defaults.map().get(planType).combinedBankLimit()`: `None` for a plan type the map lacks. */
  function DefaultCombined(planType: string): Option<int> {
    if planType == "FREE" || planType == "PRO" || planType == "PREMIUM" then DefaultFor(planType).combinedBankLimit
    else None
  }

  /** The plan the user is billed on: the subscription's only while it is active. */
  function PlanKey(u: User): string {
    var sub := u.subscription;
    if sub.Some? && sub.value.planType.Some? && ActiveIgnoringCase(sub) then Name(sub.value.planType.value)
    else "FREE"
  }

  function Currency(u: User): string {
    if u.currency.Some? then u.currency.value else "USD"
  }

  /** YEARLY when the subscription ends more than two months after it starts. */
  function BillingPeriod(sub: Option<Subscription>): string {
    if sub.Some? && sub.value.endDate.Some? && sub.value.startDate.Some?
       && IsAfter(sub.value.endDate.value, PlusMonths(sub.value.startDate.value, 2))
    then "YEARLY" else "MONTHLY"
  }

  /** `fromPlan`: the row's limits; the subscription's dates only while it is active. */
  function FromPlan(plan: PlanRow, sub: Option<Subscription>): Policy {
    Policy(plan.planType, plan.statementsPerMonth, plan.pagesPerStatement,
           if plan.combinedBank.Some? then plan.combinedBank else DefaultCombined(plan.planType),
           if ActiveIgnoringCase(sub) then sub.value.startDate else None,
           if ActiveIgnoringCase(sub) then sub.value.endDate else None)
  }

  /** The plan row looked up for the user: the billing period's, else the monthly one for a yearly period. */
  function FoundPlan(u: User, find: (string, string, string) -> Option<PlanRow>): Option<PlanRow> {
    var key, currency, period := PlanKey(u), Currency(u), BillingPeriod(u.subscription);
    var plan := find(key, currency, period);
    if plan.None? && period == "YEARLY" then find(key, currency, "MONTHLY") else plan
  }

  /** `forUser(user)`; `find` is the plans query (its cache returns what the query returns). */
  function ForUser(u: User, find: (string, string, string) -> Option<PlanRow>): Policy {
    var plan := FoundPlan(u, find);
    if plan.None? then DefaultFor(PlanKey(u)) else FromPlan(plan.value, u.subscription)
  }

  /** The plan key is one of the three plan names, and a paid one only for an active subscription. */
  lemma PlanKeyRule(u: User)
    ensures PlanKey(u) in {"FREE", "PRO", "PREMIUM"}
    ensures !ActiveIgnoringCase(u.subscription) ==> PlanKey(u) == "FREE"
    ensures PlanKey(u) != "FREE" ==> ActiveIgnoringCase(u.subscription) && u.subscription.value.planType.Some?
                                      && u.subscription.value.planType.value != Free
  {
  }

  /**
   * The lookups `forUser` makes: the plan row for the plan key, currency and
   * billing period; for a yearly period without a row, the monthly row; and
   * without any row, the defaults for the plan key.
   */
  lemma ForUserLookups(u: User, find: (string, string, string) -> Option<PlanRow>)
    ensures var key, currency, period := PlanKey(u), Currency(u), BillingPeriod(u.subscription);
      (find(key, currency, period).Some? ==> ForUser(u, find) == FromPlan(find(key, currency, period).value, u.subscription))
      && (find(key, currency, period).None? && period == "YEARLY" && find(key, currency, "MONTHLY").Some? ==>
            ForUser(u, find) == FromPlan(find(key, currency, "MONTHLY").value, u.subscription))
      && (find(key, currency, period).None? && (period == "MONTHLY" || find(key, currency, "MONTHLY").None?) ==>
            ForUser(u, find) == DefaultFor(key))
  {
  }

  /** Without an active subscription and without a plan row, the user gets the FREE defaults: 3 statements. */
  lemma FreeUserFallsBack(u: User, find: (string, string, string) -> Option<PlanRow>)
    requires !ActiveIgnoringCase(u.subscription)
    requires forall p :: find("FREE", Currency(u), p).None?
    ensures ForUser(u, find).plan == "FREE" && ForUser(u, find).statementLimit == 3
    ensures ForUser(u, find).startDate.None? && ForUser(u, find).endDate.None?
  {
  }

  /**
   * An active PRO subscriber paying in USD, with no dates, gets the monthly
   * PRO row's limits.
   */
  lemma ActiveProUsesPlanRow(find: (string, string, string) -> Option<PlanRow>)
    requires find("PRO", "USD", "MONTHLY") == Some(PlanRow("PRO", 77, 99, Some(9)))
    ensures var u := User(Some(Subscription(Some(Pro), None, None, Some("ACTIVE"), None, None)), Some("USD"));
      ForUser(u, find) == Policy("PRO", 77, 99, Some(9), None, None)
  {
    var u := User(Some(Subscription(Some(Pro), None, None, Some("ACTIVE"), None, None)), Some("USD"));
    assert Lower("ACTIVE") == "active";
    assert PlanKey(u) == "PRO";
  }

  /** A plan row without a bank limit takes the default of its plan type. */
  lemma CombinedBankFallback(plan: PlanRow, sub: Option<Subscription>)
    requires plan.combinedBank.None?
    ensures plan.planType == "FREE" ==> FromPlan(plan, sub).combinedBankLimit == Some(2)
    ensures plan.planType == "PRO" ==> FromPlan(plan, sub).combinedBankLimit == Some(3)
    ensures plan.planType == "PREMIUM" ==> FromPlan(plan, sub).combinedBankLimit == Some(5)
    ensures plan.planType !in {"FREE", "PRO", "PREMIUM"} ==> FromPlan(plan, sub).combinedBankLimit.None?
  {
  }

  /**
   * A higher plan's defaults never allow fewer pages or banks, and its
   * statement quota is larger unless it is unlimited (-1).
   */
  lemma DefaultsGrow(lower: Tier, higher: Tier)
    requires Ordinal(lower) <= Ordinal(higher)
    ensures var a, b := DefaultFor(TierName(lower)), DefaultFor(TierName(higher));
      a.pagesPerStatement <= b.pagesPerStatement
      && a.combinedBankLimit.value <= b.combinedBankLimit.value
      && (b.statementLimit == -1 || (a.statementLimit != -1 && a.statementLimit <= b.statementLimit))
  {
  }

  // ---------------------------------------------------------------------
  // PlanAccessAspect
  // ---------------------------------------------------------------------

  /** PlanTier, ordered FREE < PRO < PREMIUM. */
  datatype Tier = FreeTier | ProTier | PremiumTier

  function Ordinal(t: Tier): nat {
    match t
    case FreeTier => 0
    case ProTier => 1
    case PremiumTier => 2
  }

  /** The annotations on the intercepted method and on its class. */
  datatype Annotations = Annotations(methodPlan: Option<Tier>, classPlan: Option<Tier>, methodPaid: bool, classPaid: bool)

  /** The switch from a plan name to a tier; anything else is FREE. */
  function TierOf(plan: string): Tier {
    if plan == "PREMIUM" then PremiumTier else if plan == "PRO" then ProTier else FreeTier
  }

  /**
   * The user's tier: FREE unless the subscription is active; an active
   * subscription without a plan type throws NullPointerException (`None`).
   */
  function UserTier(u: User): Option<Tier> {
    var sub := u.subscription;
    if ActiveIgnoringCase(sub) then
      if sub.value.planType.None? then None else Some(TierOf(Name(sub.value.planType.value)))
    else Some(FreeTier)
  }

  /** The required tier: the method's RequiresPlan, else the class's, else PRO for a legacy RequiresPaidPlan. */
  function Required(a: Annotations): Option<Tier> {
    if a.methodPlan.Some? then a.methodPlan
    else if a.classPlan.Some? then a.classPlan
    else if a.methodPaid || a.classPaid then Some(ProTier)
    else None
  }

  const UpgradePrompt: string := "Upgrade to Pro or Premium to unlock advanced analytics and multi-bank support."

  /** The FeatureLockedException message for the tier that was required. */
  function LockedMessage(required: Tier): string {
    match required
    case ProTier => "Upgrade to Pro or Premium to access this feature."
    case PremiumTier => "Upgrade to Premium to access this feature."
    case FreeTier => UpgradePrompt
  }

  datatype Access = Proceed | FeatureLocked(message: string) | NullPlanType

  /** `ensurePlan`: the advice run before a plan-restricted method. */
  function EnsurePlan(u: User, a: Annotations): Access {
    match UserTier(u)
    case None => NullPlanType
    case Some(userTier) =>
      var required := Required(a);
      if required.Some? && Ordinal(userTier) < Ordinal(required.value) then FeatureLocked(LockedMessage(required.value))
      else Proceed
  }

  /**
   * Access is refused exactly when the user's tier is below the required one,
   * with the message for that tier; nothing is required means no refusal.
   */
  lemma LockedIff(u: User, a: Annotations)
    requires UserTier(u).Some?
    ensures EnsurePlan(u, a).FeatureLocked? <==> Required(a).Some? && Ordinal(UserTier(u).value) < Ordinal(Required(a).value)
    ensures EnsurePlan(u, a).FeatureLocked? ==> EnsurePlan(u, a).message == LockedMessage(Required(a).value)
    ensures Required(a).None? ==> EnsurePlan(u, a) == Proceed
    ensures EnsurePlan(u, a).FeatureLocked? ==> Required(a).value != FreeTier
  {
  }

  /** Without an active subscription the user is FREE and only FREE endpoints let them in. */
  lemma InactiveIsFree(u: User, a: Annotations)
    requires !ActiveIgnoringCase(u.subscription)
    ensures UserTier(u) == Some(FreeTier)
    ensures EnsurePlan(u, a) == Proceed <==> Required(a).None? || Required(a) == Some(FreeTier)
  {
  }

  /** The user's tier is the tier of the plan key the usage policy uses. */
  lemma TierMatchesPlanKey(u: User)
    requires UserTier(u).Some?
    ensures UserTier(u) == Some(TierOf(PlanKey(u)))
  {
  }

  /** The method's annotation wins over the class's, which wins over the legacy one. */
  lemma RequiredPrecedence(a: Annotations)
    ensures a.methodPlan.Some? ==> Required(a) == a.methodPlan
    ensures a.methodPlan.None? && a.classPlan.Some? ==> Required(a) == a.classPlan
    ensures a.methodPlan.None? && a.classPlan.None? ==> (Required(a) == Some(ProTier) <==> a.methodPaid || a.classPaid)
  {
  }

  // ---------------------------------------------------------------------
  // PlanGate (mobile)
  // ---------------------------------------------------------------------

  const TierOrder: seq<string> := ["FREE", "PRO", "PREMIUM"]

  /** `order.indexOf(plan)`: -1 for a string outside the list. */
  function OrderIndex(plan: string): (i: int)
    ensures -1 <= i < |TierOrder|
    ensures i >= 0 ==> TierOrder[i] == plan
    ensures i == -1 <==> plan !in TierOrder
  {
    if plan == "FREE" then 0 else if plan == "PRO" then 1 else if plan == "PREMIUM" then 2 else -1
  }

  /** `meets(current, min)`: an undefined or empty plan never meets; otherwise compare positions. */
  predicate Meets(current: Option<string>, min: Option<string>) {
    current.Some? && current.value != [] && min.Some? && min.value != []
    && OrderIndex(current.value) >= OrderIndex(min.value)
  }

  /** What the gate renders. */
  datatype Gate = Children | InlineLock(minPlan: string) | LockScreen(minPlan: string)

  function PlanGate(current: Option<string>, minPlan: string, inline: bool): (g: Gate)
    ensures g == Children <==> Meets(current, Some(minPlan))
  {
    if Meets(current, Some(minPlan)) then Children
    else if inline then InlineLock(minPlan) else LockScreen(minPlan)
  }

  /** Among the three tiers, `meets` is the order FREE < PRO < PREMIUM. */
  lemma MeetsIsOrder(current: Tier, min: Tier)
    ensures Meets(Some(TierName(current)), Some(TierName(min))) <==> Ordinal(current) >= Ordinal(min)
  {
  }

  function TierName(t: Tier): string {
    match t
    case FreeTier => "FREE"
    case ProTier => "PRO"
    case PremiumTier => "PREMIUM"
  }

  /** Every tier meets FREE, PREMIUM meets every tier, and an undefined plan meets nothing. */
  lemma MeetsExtremes(t: Tier, s: Option<string>)
    ensures Meets(Some(TierName(t)), Some("FREE"))
    ensures Meets(Some("PREMIUM"), Some(TierName(t)))
    ensures !Meets(None, s) && !Meets(s, None)
  {
  }

  /**
   * At run time the plan strings are not checked: an unknown minimum is met
   * by every known tier, and an unknown current plan meets no known tier.
   */
  lemma MeetsUnknown(t: Tier, other: string)
    requires other != [] && other !in TierOrder
    ensures Meets(Some(TierName(t)), Some(other))
    ensures !Meets(Some(other), Some(TierName(t)))
  {
  }

  /**
   * The mobile gate and the server's check agree: for a user whose tier the
   * server computes, the gate shows the content iff the server lets them in.
   */
  lemma GateAgreesWithServer(u: User, required: Tier)
    requires UserTier(u).Some?
    ensures var a := Annotations(Some(required), None, false, false);
      Meets(Some(TierName(UserTier(u).value)), Some(TierName(required))) <==> EnsurePlan(u, a) == Proceed
  {
    MeetsIsOrder(UserTier(u).value, required);
  }
}
