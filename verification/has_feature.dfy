/** src/Traits/HasFeature.php: the same two feature-set queries as the
    plan's, written against whatever `features()` relation the using
    class provides. */
module HasFeatureTrait {
  import opened Records
  import opened FeatureQuery
  import Plans

  /** hasFeature($names) over a features relation. */
  function HasFeature(features: seq<PlanFeature>, names: seq<string>): (r: bool)
    ensures r <==> exists pf :: pf in features && NamedByAll(pf, names)
  {
    var rows := WhereEachName(features, names);
    assert |rows| > 0 ==> rows[0] in rows;
    Exists(rows)
  }

  /** hasAnyFeature(...$names) over a features relation. */
  function HasAnyFeature(features: seq<PlanFeature>, names: seq<string>): (r: bool)
    ensures r <==> exists pf :: pf in features && pf.feature.name in names
  {
    var rows := WhereNameIn(features, names);
    assert |rows| > 0 ==> rows[0] in rows;
    Exists(rows)
  }

  /** On a plan's own features the trait answers exactly as the plan does. */
  lemma AgreesWithPlan(plan: Plan, names: seq<string>)
    ensures HasFeature(plan.features, names) == Plans.HasFeature(plan, names)
    ensures HasAnyFeature(plan.features, names) == Plans.HasAnyFeature(plan, names)
  {
  }

  /** An empty list asks only whether some feature is attached; for
      hasAnyFeature it is always false. */
  lemma OfNoNames(features: seq<PlanFeature>)
    ensures HasFeature(features, []) <==> |features| > 0
    ensures !HasAnyFeature(features, [])
  {
    if |features| > 0 {
      assert features[0] in features && NamedByAll(features[0], []);
    }
  }

  /** For a single name, "all of" and "any of" agree. */
  lemma OfOneName(features: seq<PlanFeature>, name: string)
    ensures HasFeature(features, [name]) == HasAnyFeature(features, [name])
  {
    if HasAnyFeature(features, [name]) {
      var pf :| pf in features && pf.feature.name in [name];
      assert NamedByAll(pf, [name]);
    }
  }
}
