/** src/Models/Plan.php: feature-set queries on a plan, the plan scope
    over a table of plans, and the per-row test of activeSubscriptions. */
module Plans {
  import opened Base
  import opened Records
  import opened FeatureQuery

  /** hasFeature($names): the plan's features relation narrowed by one
      `where('name', ...)` per name, then `exists()`. */
  function HasFeature(plan: Plan, names: seq<string>): (r: bool)
    ensures r <==> exists pf :: pf in plan.features && NamedByAll(pf, names)
  {
    var rows := WhereEachName(plan.features, names);
    assert |rows| > 0 ==> rows[0] in rows;
    Exists(rows)
  }

  /** hasAnyFeature(...$names): `whereIn('name', $names)->exists()`. */
  function HasAnyFeature(plan: Plan, names: seq<string>): (r: bool)
    ensures r <==> exists pf :: pf in plan.features && pf.feature.name in names
  {
    var rows := WhereNameIn(plan.features, names);
    assert |rows| > 0 ==> rows[0] in rows;
    Exists(rows)
  }

  /** With no name the chain has no clause: any attached feature will do. */
  lemma HasFeatureOfNoNames(plan: Plan)
    ensures HasFeature(plan, []) <==> |plan.features| > 0
  {
  }

  /** One row cannot carry two different names, so asking for "all" of
      two distinct features is always false. */
  lemma HasFeatureOfDistinctNames(plan: Plan, names: seq<string>, i: int, j: int)
    requires 0 <= i < |names| && 0 <= j < |names|
    requires names[i] != names[j]
    ensures !HasFeature(plan, names)
  {
  }

  /** hasAnyFeature with no name is always false. */
  lemma HasAnyFeatureOfNoNames(plan: Plan)
    ensures !HasAnyFeature(plan, [])
  {
  }

  /** For a single name, "all of" and "any of" agree. */
  lemma HasFeatureOfOneName(plan: Plan, name: string)
    ensures HasFeature(plan, [name]) == HasAnyFeature(plan, [name])
  {
  }

  /** scopeWithAnyFeature(...$names): `whereHas('features', whereIn(...))`
      over a table of plans. */
  function WithAnyFeature(plans: seq<Plan>, names: seq<string>): (r: seq<Plan>)
    ensures forall p :: p in r <==> p in plans && HasAnyFeature(p, names)
    ensures |r| <= |plans|
  {
    Filter(plans, (p: Plan) => Exists(WhereNameIn(p.features, names)))
  }

  /** The condition of activeSubscriptions() for one subscription row:
      running now and not canceled, or canceled. A NULL start or end
      fails its comparison, as in SQL. */
  predicate IsActiveRow(s: Subscription, now: int) {
    || (&& s.startsAt.Some? && s.startsAt.value <= now
        && s.endsAt.Some? && now < s.endsAt.value
        && s.canceledAt.None?)
    || s.canceledAt.Some?
  }

  /** activeSubscriptions(): the plan's subscription rows meeting the
      condition above. */
  function ActiveSubscriptions(plan: Plan, subs: seq<Subscription>, now: int): (r: seq<Subscription>)
    ensures forall s :: s in r ==> s in subs && s.planId == plan.id
    ensures forall s :: s in subs && s.planId == plan.id && s.canceledAt.Some? ==> s in r
    ensures forall s :: s in subs && s.planId == plan.id && s.canceledAt.None? ==>
              (s in r <==> s.startsAt.Some? && s.endsAt.Some? && s.startsAt.value <= now < s.endsAt.value)
  {
    Filter(subs, (s: Subscription) => s.planId == plan.id && IsActiveRow(s, now))
  }

  /** The running window is closed at the start and open at the end. */
  lemma ActiveWindowIsHalfOpen(s: Subscription, now: int)
    requires s.canceledAt.None? && s.startsAt.Some? && s.endsAt.Some?
    requires s.startsAt.value < s.endsAt.value
    ensures s.startsAt.value == now ==> IsActiveRow(s, now)
    ensures s.endsAt.value == now ==> !IsActiveRow(s, now)
    ensures s.startsAt.value - 1 == now ==> !IsActiveRow(s, now)
  {
  }
}
