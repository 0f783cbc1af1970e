/** src/Models/Feature.php, plan side: the countable and resettable
    scopes over the features table, and the entitlement lookups that read
    a feature's pivot row in a plan. */
module Entitlements {
  import opened Base
  import opened Records
  import opened FeatureQuery
  import Plans

  /** scopeCountable: `where('countable', '=', 1)`. */
  function Countable(fs: seq<Feature>): (r: seq<Feature>)
    ensures forall f :: f in r <==> f in fs && f.countable
  {
    Filter(fs, (f: Feature) => f.countable)
  }

  /** scopeResettable: `where('resettable', '=', 1)`. */
  function Resettable(fs: seq<Feature>): (r: seq<Feature>)
    ensures forall f :: f in r <==> f in fs && f.resettable
  {
    Filter(fs, (f: Feature) => f.resettable)
  }

  /** scopeNotResettable: `where('resettable', '=', 0)`. */
  function NotResettable(fs: seq<Feature>): (r: seq<Feature>)
    ensures forall f :: f in r <==> f in fs && !f.resettable
  {
    Filter(fs, (f: Feature) => !f.resettable)
  }

  /** The two resettable scopes split any set of features between them:
      each feature is in exactly one, and together they hold every row. */
  lemma ResettableScopesPartition(fs: seq<Feature>)
    ensures multiset(Resettable(fs)) + multiset(NotResettable(fs)) == multiset(fs)
    ensures |Resettable(fs)| + |NotResettable(fs)| == |fs|
    ensures forall f :: f in fs ==> (f in Resettable(fs) <==> f !in NotResettable(fs))
  {
    FilterPartition(fs, (f: Feature) => f.resettable, (f: Feature) => !f.resettable);
  }

  /** existsInPlan: the plan's hasFeature on this feature's name. */
  function ExistsInPlan(f: Feature, plan: Plan): (r: bool)
    ensures r <==> exists pf :: pf in plan.features && pf.feature.name == f.name
  {
    var r := Plans.HasFeature(plan, [f.name]);
    assert forall pf :: NamedByAll(pf, [f.name]) <==> pf.feature.name == f.name;
    r
  }

  /** valueInPlan: the `value` pivot column of the plan's first feature
      row named like this feature; 0 when no row has the name or the
      column is NULL. */
  function ValueInPlan(f: Feature, plan: Plan): (r: int)
    ensures !ExistsInPlan(f, plan) ==> r == 0
    ensures forall i :: IsFirstNamed(plan.features, i, f.name) ==> r == plan.features[i].value.GetOr(0)
  {
    match FirstWhereName(plan.features, f.name)
    case None => 0
    case Some(pf) => pf.value.GetOr(0)
  }

  /** resettablePeriodInPlan: the `resettable_period` pivot column, or 0. */
  function ResettablePeriodInPlan(f: Feature, plan: Plan): (r: int)
    ensures !ExistsInPlan(f, plan) ==> r == 0
    ensures forall i :: IsFirstNamed(plan.features, i, f.name) ==>
              r == plan.features[i].resettablePeriod.GetOr(0)
  {
    match FirstWhereName(plan.features, f.name)
    case None => 0
    case Some(pf) => pf.resettablePeriod.GetOr(0)
  }

  /** resettableIntervalInPlan: the `resettable_interval` pivot column, or
      null; unlike the period its default is null, not 0. */
  function ResettableIntervalInPlan(f: Feature, plan: Plan): (r: Option<string>)
    ensures !ExistsInPlan(f, plan) ==> r.None?
    ensures forall i :: IsFirstNamed(plan.features, i, f.name) ==>
              r == plan.features[i].resettableInterval
  {
    match FirstWhereName(plan.features, f.name)
    case None => None
    case Some(pf) => pf.resettableInterval
  }

  /** Exactly one row carries the name: the lookups read that row. */
  lemma {:induction false} LookupsReadTheOnlyRow(f: Feature, plan: Plan, i: int)
    requires 0 <= i < |plan.features| && plan.features[i].feature.name == f.name
    requires forall j :: 0 <= j < |plan.features| && j != i ==> plan.features[j].feature.name != f.name
    ensures ExistsInPlan(f, plan)
    ensures ValueInPlan(f, plan) == plan.features[i].value.GetOr(0)
    ensures ResettablePeriodInPlan(f, plan) == plan.features[i].resettablePeriod.GetOr(0)
    ensures ResettableIntervalInPlan(f, plan) == plan.features[i].resettableInterval
  {
    assert plan.features[i] in plan.features;
    assert IsFirstNamed(plan.features, i, f.name);
  }
}
