/** src/Models/Feature.php, subscription side: a feature's usage and
    remaining allowance in a given subscription. */
module FeatureUsage {
  import opened Base
  import opened Records
  import Ledger
  import Entitlements

  /** totalUsageInSubscription($subscription): the subscription's usage
      rows narrowed by `where('feature_id', ...)`, summed over `used`. */
  function TotalUsageInSubscription(f: Feature, sub: Subscription, ledger: Ledger.Tables): (r: int)
    ensures (forall u :: u in ledger.usages ==> !Ledger.UsageIsFor(u, sub, f)) ==> r == 0
  {
    var rows := Filter(Filter(ledger.usages, (u: Usage) => u.subscriptionId == sub.id),
                       (u: Usage) => u.featureId == f.id);
    assert |rows| > 0 ==> rows[0] in rows;
    Sum(rows, Ledger.Used)
  }

  /** The feature-side and subscription-side totals are the same query. */
  lemma TotalUsageAgrees(f: Feature, sub: Subscription, ledger: Ledger.Tables)
    ensures TotalUsageInSubscription(f, sub, ledger) == Ledger.TotalUsageOf(ledger.usages, sub, f)
    ensures TotalUsageInSubscription(f, sub, ledger) == Ledger.UsageRowByRow(ledger.usages, sub, f)
  {
    Ledger.TotalUsageIsRowByRow(ledger.usages, sub, f);
  }

  /** remainingUsageInSubscription as the source writes it: it calls
      `remainingUsageOfFeature`, which Subscription does not define, so
      every call raises. */
  function RemainingUsageInSubscriptionAsWritten(f: Feature, plan: Plan, sub: Subscription,
                                                 ledger: Ledger.Tables): (r: Result<int>)
    requires plan.id == sub.planId
    ensures r.Failure? && r.error == UndefinedMethod("remainingUsageOfFeature")
  {
    Failure(UndefinedMethod("remainingUsageOfFeature"))
  }

  /** remainingUsageInSubscription delegating to the subscription's
      remainingUsageOf, as intended. */
  function RemainingUsageInSubscription(f: Feature, plan: Plan, sub: Subscription, ledger: Ledger.Tables): (r: int)
    requires plan.id == sub.planId
    ensures r == Entitlements.ValueInPlan(f, plan)
                 + Ledger.SupplementRowByRow(ledger.supplements, sub, f)
                 - Ledger.UsageRowByRow(ledger.usages, sub, f)
  {
    Ledger.RemainingIsAllowancePlusGrantsMinusUse(plan, sub, f, ledger);
    Ledger.RemainingUsageOf(plan, sub, f, ledger)
  }

  /** A plan granting 5 units and an empty ledger: the written method
      raises where the intended one answers 5. */
  lemma RemainingUsageInSubscriptionAsWrittenRaises()
    ensures var f := Feature(1, "api_calls", 0, true, false, false, None);
            var plan := Plan(7, "basic", 10, 0, false, [PlanFeature(f, Some(5), None, None)]);
            var sub := Subscription(3, SubscriberRef("user", 1), 7, 10, None, None, None, None, 0);
            && RemainingUsageInSubscriptionAsWritten(f, plan, sub, Ledger.Tables([], [])).Failure?
            && RemainingUsageInSubscription(f, plan, sub, Ledger.Tables([], [])) == 5
  {
    Ledger.RemainingUsageOfAsWrittenRaises();
  }
}
