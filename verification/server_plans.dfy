/**
 * The server's plan table `PLAN_PRICES` (functions/src/index.ts) and the
 * hard-coded grant durations of the payment webhook.
 */
module ServerPlans {

  datatype PlanPrice = PlanPrice(amount: nat, description: string, period: string)

  /** Prices in kopecks, keyed by plan id. */
  const PlanPrices: map<string, PlanPrice> := map[
    "plan_monthly" := PlanPrice(19900, "SociaLynx PRO — месяц", "month"),
    "plan_quarterly" := PlanPrice(49900, "SociaLynx PRO — 3 месяца", "quarter"),
    "plan_yearly" := PlanPrice(149900, "SociaLynx PRO — год", "year")
  ]

  /** `24 * 60 * 60 * 1000`. */
  const MsPerDay: nat := 86_400_000

  /**
   * The names every plain JavaScript object inherits from
   * `Object.prototype`; indexing `PLAN_PRICES` with one of them yields a
   * truthy value although it is not a plan.
   */
  const ObjectPrototypeNames: set<string> := {
    "constructor", "hasOwnProperty", "isPrototypeOf", "propertyIsEnumerable",
    "toString", "toLocaleString", "valueOf", "__proto__",
    "__defineGetter__", "__defineSetter__", "__lookupGetter__", "__lookupSetter__"
  }

  /** The plan is one of the table's own keys. */
  predicate IsKnownPlan(plan: string) {
    plan in PlanPrices
  }

  /** `PLAN_PRICES[plan]` is truthy, as the handlers test it. */
  predicate PriceLookupTruthyAsWritten(plan: string) {
    plan in PlanPrices || plan in ObjectPrototypeNames
  }

  /**
   * Days granted by the webhook's ternary: monthly 30, quarterly 90, and
   * 365 for every other plan string.
   */
  function GrantDays(plan: string): (d: nat)
    ensures d == 30 <==> plan == "plan_monthly"
    ensures d == 90 <==> plan == "plan_quarterly"
    ensures d == 365 <==> plan != "plan_monthly" && plan != "plan_quarterly"
  {
    if plan == "plan_monthly" then 30
    else if plan == "plan_quarterly" then 90
    else 365
  }

  /** Every known plan has a positive price and a positive grant duration. */
  lemma KnownPlansArePositive(plan: string)
    requires IsKnownPlan(plan)
    ensures PlanPrices[plan].amount > 0
    ensures GrantDays(plan) > 0
    ensures plan == "plan_yearly" <==> GrantDays(plan) == 365
  {
  }

  /** The truthiness check lets through names that are not plans. */
  lemma InheritedNamePassesLookupAsWritten()
    ensures PriceLookupTruthyAsWritten("toString") && !IsKnownPlan("toString")
    ensures forall p :: IsKnownPlan(p) ==> PriceLookupTruthyAsWritten(p)
  {
  }
}
