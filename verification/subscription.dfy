/** src/Models/Subscription.php: the usage and supplement ledger of a
    subscription, the remaining allowance of a feature, the features a
    subscription inherits from its plan, and the ending-soon scope. */
module Ledger {
  import opened Base
  import opened Records
  import opened Entitlements
  import Plans
  import HasFeatureTrait
  import Periods

  /** The `usages` and `supplements` tables. */
  datatype Tables = Tables(usages: seq<Usage>, supplements: seq<Supplement>)

  /** Which ledger row a (subscription, feature) query reads. */
  predicate UsageIsFor(u: Usage, sub: Subscription, f: Feature) {
    u.subscriptionId == sub.id && u.featureId == f.id
  }

  predicate SupplementIsFor(x: Supplement, sub: Subscription, f: Feature) {
    x.subscriptionId == sub.id && x.featureId == f.id
  }

  function Used(u: Usage): int { u.used }

  function Granted(x: Supplement): int { x.value }

  /** totalUsageOf($feature): the subscription's `usages()` relation,
      narrowed by `where('feature_id', ...)`, summed over `used`. */
  function TotalUsageOf(usages: seq<Usage>, sub: Subscription, f: Feature): (r: int)
    ensures (forall u :: u in usages ==> !UsageIsFor(u, sub, f)) ==> r == 0
  {
    var rows := Filter(Filter(usages, (u: Usage) => u.subscriptionId == sub.id),
                       (u: Usage) => u.featureId == f.id);
    assert |rows| > 0 ==> rows[0] in rows;
    Sum(rows, Used)
  }

  /** totalSupplementOf($feature): the same query on `supplements()`,
      summed over `value`. */
  function TotalSupplementOf(supplements: seq<Supplement>, sub: Subscription, f: Feature): (r: int)
    ensures (forall x :: x in supplements ==> !SupplementIsFor(x, sub, f)) ==> r == 0
  {
    var rows := Filter(Filter(supplements, (x: Supplement) => x.subscriptionId == sub.id),
                       (x: Supplement) => x.featureId == f.id);
    assert |rows| > 0 ==> rows[0] in rows;
    Sum(rows, Granted)
  }

  /** Reference definition: every usage row contributes its amount when it
      belongs to this subscription and feature, and nothing otherwise. */
  function UsageRowByRow(usages: seq<Usage>, sub: Subscription, f: Feature): int {
    if usages == [] then 0
    else (if UsageIsFor(usages[0], sub, f) then usages[0].used else 0)
         + UsageRowByRow(usages[1..], sub, f)
  }

  function SupplementRowByRow(supplements: seq<Supplement>, sub: Subscription, f: Feature): int {
    if supplements == [] then 0
    else (if SupplementIsFor(supplements[0], sub, f) then supplements[0].value else 0)
         + SupplementRowByRow(supplements[1..], sub, f)
  }

  /** The query total is the row-by-row sum: rows of other features or
      other subscriptions do not count. */
  lemma {:induction false} TotalUsageIsRowByRow(usages: seq<Usage>, sub: Subscription, f: Feature)
    ensures TotalUsageOf(usages, sub, f) == UsageRowByRow(usages, sub, f)
  {
    if usages != [] {
      TotalUsageIsRowByRow(usages[1..], sub, f);
      var p := (u: Usage) => u.subscriptionId == sub.id;
      var q := (u: Usage) => u.featureId == f.id;
      assert usages == [usages[0]] + usages[1..];
      FilterAppend([usages[0]], usages[1..], p);
      FilterAppend(Filter([usages[0]], p), Filter(usages[1..], p), q);
      SumAppend(Filter(Filter([usages[0]], p), q), Filter(Filter(usages[1..], p), q), Used);
    }
  }

  lemma {:induction false} TotalSupplementIsRowByRow(supplements: seq<Supplement>, sub: Subscription, f: Feature)
    ensures TotalSupplementOf(supplements, sub, f) == SupplementRowByRow(supplements, sub, f)
  {
    if supplements != [] {
      TotalSupplementIsRowByRow(supplements[1..], sub, f);
      var p := (x: Supplement) => x.subscriptionId == sub.id;
      var q := (x: Supplement) => x.featureId == f.id;
      assert supplements == [supplements[0]] + supplements[1..];
      FilterAppend([supplements[0]], supplements[1..], p);
      FilterAppend(Filter([supplements[0]], p), Filter(supplements[1..], p), q);
      SumAppend(Filter(Filter([supplements[0]], p), q), Filter(Filter(supplements[1..], p), q), Granted);
    }
  }

  /** Appending a usage row changes the total of its own (subscription,
      feature) pair by its amount and no other total. */
  lemma TotalUsageAppend(usages: seq<Usage>, u: Usage, sub: Subscription, f: Feature)
    ensures TotalUsageOf(usages + [u], sub, f)
         == TotalUsageOf(usages, sub, f) + (if UsageIsFor(u, sub, f) then u.used else 0)
  {
    var p := (x: Usage) => x.subscriptionId == sub.id;
    var q := (x: Usage) => x.featureId == f.id;
    FilterAppend(usages, [u], p);
    FilterAppend(Filter(usages, p), Filter([u], p), q);
    SumAppend(Filter(Filter(usages, p), q), Filter(Filter([u], p), q), Used);
  }

  lemma TotalSupplementAppend(supplements: seq<Supplement>, x: Supplement, sub: Subscription, f: Feature)
    ensures TotalSupplementOf(supplements + [x], sub, f)
         == TotalSupplementOf(supplements, sub, f) + (if SupplementIsFor(x, sub, f) then x.value else 0)
  {
    var p := (y: Supplement) => y.subscriptionId == sub.id;
    var q := (y: Supplement) => y.featureId == f.id;
    FilterAppend(supplements, [x], p);
    FilterAppend(Filter(supplements, p), Filter([x], p), q);
    SumAppend(Filter(Filter(supplements, p), q), Filter(Filter([x], p), q), Granted);
  }

  /** remainingUsageOf($feature), with the plan's allowance read through
      valueInPlan: allowance plus supplements minus usage, possibly
      negative. `plan` is the subscription's own plan. */
  function RemainingUsageOf(plan: Plan, sub: Subscription, f: Feature, ledger: Tables): (r: int)
    requires plan.id == sub.planId
    ensures ledger.usages == [] && ledger.supplements == [] ==> r == ValueInPlan(f, plan)
    ensures ledger.usages == [] && ledger.supplements == [] && !ExistsInPlan(f, plan) ==> r == 0
  {
    ValueInPlan(f, plan) + TotalSupplementOf(ledger.supplements, sub, f) - TotalUsageOf(ledger.usages, sub, f)
  }

  /** The ledger-sum invariant, stated row by row. */
  lemma RemainingIsAllowancePlusGrantsMinusUse(plan: Plan, sub: Subscription, f: Feature, ledger: Tables)
    requires plan.id == sub.planId
    ensures RemainingUsageOf(plan, sub, f, ledger)
         == ValueInPlan(f, plan) + SupplementRowByRow(ledger.supplements, sub, f)
            - UsageRowByRow(ledger.usages, sub, f)
  {
    TotalUsageIsRowByRow(ledger.usages, sub, f);
    TotalSupplementIsRowByRow(ledger.supplements, sub, f);
  }

  /** Recording `amount` of use of `f` lowers its remaining allowance by
      exactly `amount`, and leaves every other (subscription, feature)
      pair's remaining allowance as it was. */
  lemma RecordingUsageLowersRemaining(plan: Plan, sub: Subscription, f: Feature, ledger: Tables, amount: int,
                                      otherPlan: Plan, other: Subscription, g: Feature)
    requires plan.id == sub.planId && otherPlan.id == other.planId
    requires other.id != sub.id || g.id != f.id
    ensures var after := ledger.(usages := ledger.usages + [Usage(sub.id, f.id, amount)]);
            && RemainingUsageOf(plan, sub, f, after) == RemainingUsageOf(plan, sub, f, ledger) - amount
            && RemainingUsageOf(otherPlan, other, g, after) == RemainingUsageOf(otherPlan, other, g, ledger)
  {
    TotalUsageAppend(ledger.usages, Usage(sub.id, f.id, amount), sub, f);
    TotalUsageAppend(ledger.usages, Usage(sub.id, f.id, amount), other, g);
  }

  /** Granting a supplement of `value` for `f` raises its remaining
      allowance by exactly `value`, and no other pair's. */
  lemma GrantingSupplementRaisesRemaining(plan: Plan, sub: Subscription, f: Feature, ledger: Tables,
                                          price: int, value: int,
                                          otherPlan: Plan, other: Subscription, g: Feature)
    requires plan.id == sub.planId && otherPlan.id == other.planId
    requires other.id != sub.id || g.id != f.id
    ensures var after := ledger.(supplements := ledger.supplements + [Supplement(sub.id, f.id, price, value)]);
            && RemainingUsageOf(plan, sub, f, after) == RemainingUsageOf(plan, sub, f, ledger) + value
            && RemainingUsageOf(otherPlan, other, g, after) == RemainingUsageOf(otherPlan, other, g, ledger)
  {
    TotalSupplementAppend(ledger.supplements, Supplement(sub.id, f.id, price, value), sub, f);
    TotalSupplementAppend(ledger.supplements, Supplement(sub.id, f.id, price, value), other, g);
  }

  /** remainingUsageOf as the source writes it: it calls `valueIn`, a
      method Feature does not define, so every call raises. */
  function RemainingUsageOfAsWritten(plan: Plan, sub: Subscription, f: Feature, ledger: Tables): (r: Result<int>)
    requires plan.id == sub.planId
    ensures r.Failure? && r.error == UndefinedMethod("valueIn")
  {
    Failure(UndefinedMethod("valueIn"))
  }

  /** A plan granting 5 units and an empty ledger: the written method
      raises where the intended one answers 5. */
  lemma RemainingUsageOfAsWrittenRaises()
    ensures var f := Feature(1, "api_calls", 0, true, false, false, None);
            var plan := Plan(7, "basic", 10, 0, false, [PlanFeature(f, Some(5), None, None)]);
            var sub := Subscription(3, SubscriberRef("user", 1), 7, 10, None, None, None, None, 0);
            && RemainingUsageOfAsWritten(plan, sub, f, Tables([], [])).Failure?
            && RemainingUsageOf(plan, sub, f, Tables([], [])) == 5
  {
    var f := Feature(1, "api_calls", 0, true, false, false, None);
    var plan := Plan(7, "basic", 10, 0, false, [PlanFeature(f, Some(5), None, None)]);
    assert FeatureQuery.IsFirstNamed(plan.features, 0, f.name);
  }

  /** The subscription's features() relation is its plan's (through the
      plan relation of src/Models/Subscription.php). */
  function Features(sub: Subscription, plan: Plan): (r: seq<PlanFeature>)
    requires plan.id == sub.planId
    ensures forall pf :: pf in r <==> pf in plan.features
    ensures forall names: seq<string> :: HasFeatureTrait.HasFeature(r, names) == Plans.HasFeature(plan, names)
  {
    forall names: seq<string> ensures HasFeatureTrait.HasFeature(plan.features, names) == Plans.HasFeature(plan, names) {
      HasFeatureTrait.AgreesWithPlan(plan, names);
    }
    plan.features
  }

  /** Subscription itself declares no feature-set query; a class using the
      HasFeature trait over this relation would answer as the plan does. */
  lemma SubscriptionFeaturesAreThePlans(sub: Subscription, plan: Plan, names: seq<string>)
    requires plan.id == sub.planId
    ensures HasFeatureTrait.HasFeature(Features(sub, plan), names) == Plans.HasFeature(plan, names)
    ensures HasFeatureTrait.HasAnyFeature(Features(sub, plan), names) == Plans.HasAnyFeature(plan, names)
  {
    HasFeatureTrait.AgreesWithPlan(plan, names);
  }

  /** scopeFindEndingPeriod($dayRange = 3): `whereBetween('ends_at',
      [now, now + dayRange days])`, both bounds inclusive. */
  function FindEndingPeriod(subs: seq<Subscription>, now: int, dayRange: int := 3): (r: seq<Subscription>)
    ensures forall s :: s in r <==>
              s in subs && s.endsAt.Some? && now <= s.endsAt.value <= now + dayRange * Periods.SecondsPerDay
  {
    Filter(subs, (s: Subscription) =>
      s.endsAt.Some? && now <= s.endsAt.value && s.endsAt.value <= now + dayRange * Periods.SecondsPerDay)
  }

  /** A wider range selects at least the same rows; a negative range
      selects none; with the default range a subscription ending exactly
      three days from now is still selected. */
  lemma FindEndingPeriodRange(subs: seq<Subscription>, now: int, d1: int, d2: int)
    requires d1 <= d2
    ensures forall s :: s in FindEndingPeriod(subs, now, d1) ==> s in FindEndingPeriod(subs, now, d2)
    ensures d2 < 0 ==> FindEndingPeriod(subs, now, d2) == []
    ensures forall s :: s in subs && s.endsAt == Some(now + 3 * Periods.SecondsPerDay) ==> s in FindEndingPeriod(subs, now)
  {
    var r := FindEndingPeriod(subs, now, d2);
    assert |r| > 0 ==> r[0] in r;
  }
}
