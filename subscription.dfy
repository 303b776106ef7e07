/** The plan table of src/types/subscription.ts: the plan identifiers, the
    Google services a plan may integrate, and the constant configuration
    every plan lookup reads. */
module Subscriptions {
  import opened Wrappers

  datatype Subscription = FREE | BASIC | PRO | DEV {
    /** The enum's string value. */
    function Id(): string {
      match this
      case FREE => "FREE"
      case BASIC => "BASIC"
      case PRO => "PRO"
      case DEV => "DEV"
    }
  }

  datatype GoogleService = MEET | GMAIL | DRIVE | CALENDAR

  /** A numeric limit, where `Infinity` is JavaScript's unbounded number. */
  datatype Limit = Finite(n: int) | Infinity

  /** `a < b` on numbers with `Infinity`. */
  predicate Below(a: Limit, b: Limit) {
    match (a, b)
    case (Finite(x), Finite(y)) => x < y
    case (Finite(_), Infinity) => true
    case (Infinity, _) => false
  }

  /** `count >= limit`: never true against `Infinity`. */
  predicate AtLeast(count: int, limit: Limit) {
    match limit
    case Finite(n) => count >= n
    case Infinity => false
  }

  datatype PlanFeatures = PlanFeatures(maxReminders: Limit, services: seq<GoogleService>,
                                       aiPowered: bool, maxRepeatCount: Option<Limit>)

  datatype PlanDetails = PlanDetails(id: Subscription, name: string, description: string,
                                     features: PlanFeatures, price: Option<real>, currency: Option<string>)

  /** `Object.values(GoogleServices)`, in declaration order. */
  const AllGoogleServices: seq<GoogleService> := [MEET, GMAIL, DRIVE, CALENDAR]

  /** `SUBSCRIPTION_CONFIG`. */
  const SubscriptionConfig: seq<PlanDetails> := [
    PlanDetails(FREE, "Free Plan", "Get started with essential reminder features.",
                PlanFeatures(Finite(5), [], false, Some(Finite(10))), None, None),
    PlanDetails(BASIC, "Basic Plan", "More reminders and basic integrations.",
                PlanFeatures(Finite(50), [CALENDAR], false, Some(Finite(50))), Some(4.99), Some("USD")),
    PlanDetails(PRO, "Pro Plan", "Unlimited reminders and all advanced features.",
                PlanFeatures(Finite(9999), [CALENDAR, MEET, GMAIL], true, Some(Finite(500))), Some(9.99), Some("USD")),
    PlanDetails(DEV, "Dev Plan", "You are not admin! XD",
                PlanFeatures(Infinity, AllGoogleServices, true, Some(Infinity)), Some(0.01), Some("USD"))
  ]

  /** Every plan identifier names exactly one entry of the table. */
  lemma EachPlanOnce(s: Subscription)
    ensures exists i :: 0 <= i < |SubscriptionConfig| && SubscriptionConfig[i].id == s
    ensures forall i, j :: 0 <= i < j < |SubscriptionConfig| ==> SubscriptionConfig[i].id != SubscriptionConfig[j].id
  {
    match s
    case FREE => assert SubscriptionConfig[0].id == s;
    case BASIC => assert SubscriptionConfig[1].id == s;
    case PRO => assert SubscriptionConfig[2].id == s;
    case DEV => assert SubscriptionConfig[3].id == s;
  }

  /** Distinct plans have distinct string values. */
  lemma IdInjective(a: Subscription, b: Subscription)
    ensures a.Id() == b.Id() <==> a == b
  {
  }

  /** The free plan: five reminders, ten repeats, no services, no AI. */
  lemma FreePlanLimits()
    ensures SubscriptionConfig[0].id == FREE
    ensures SubscriptionConfig[0].features == PlanFeatures(Finite(5), [], false, Some(Finite(10)))
  {
  }

  /** The reminder limit strictly increases along the table, from five to
      unbounded. */
  lemma MaxRemindersIncrease()
    ensures forall i, j :: 0 <= i < j < |SubscriptionConfig| ==>
      Below(SubscriptionConfig[i].features.maxReminders, SubscriptionConfig[j].features.maxReminders)
    ensures SubscriptionConfig[|SubscriptionConfig| - 1].features.maxReminders == Infinity
  {
  }

  /** The developer plan integrates every service and repeats without bound. */
  lemma DevPlanUnbounded()
    ensures SubscriptionConfig[3].id == DEV
    ensures forall g: GoogleService :: g in SubscriptionConfig[3].features.services
    ensures SubscriptionConfig[3].features.maxRepeatCount == Some(Infinity)
  {
    forall g: GoogleService ensures g in SubscriptionConfig[3].features.services {
      assert SubscriptionConfig[3].features.services == AllGoogleServices;
      match g
      case MEET => assert AllGoogleServices[0] == g;
      case GMAIL => assert AllGoogleServices[1] == g;
      case DRIVE => assert AllGoogleServices[2] == g;
      case CALENDAR => assert AllGoogleServices[3] == g;
    }
  }
}
