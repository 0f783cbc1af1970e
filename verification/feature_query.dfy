/** The query-builder calls the package makes on a `features()` relation
    (the feature rows attached to a plan, with their pivot columns),
    modelled on the rows the relation would return. */
module FeatureQuery {
  import opened Base
  import opened Records

  function NameIs(name: string): PlanFeature -> bool {
    (pf: PlanFeature) => pf.feature.name == name
  }

  function NameIn(names: seq<string>): PlanFeature -> bool {
    (pf: PlanFeature) => pf.feature.name in names
  }

  /** A row whose feature name equals every one of `names`. */
  ghost predicate NamedByAll(pf: PlanFeature, names: seq<string>) {
    forall k :: 0 <= k < |names| ==> pf.feature.name == names[k]
  }

  /** One `where('name', $n)` per listed name, chained: every clause
      narrows the same query, so a row survives only when its name
      equals all of the names. */
  function WhereEachName(rows: seq<PlanFeature>, names: seq<string>): (r: seq<PlanFeature>)
    ensures forall pf :: pf in r <==> pf in rows && NamedByAll(pf, names)
    decreases |names|
  {
    if names == [] then rows
    else
      var narrowed := Filter(rows, NameIs(names[0]));
      var r := WhereEachName(narrowed, names[1..]);
      assert forall pf :: NamedByAll(pf, names) <==>
        pf.feature.name == names[0] && NamedByAll(pf, names[1..]) by {
        forall pf
          ensures NamedByAll(pf, names) <==> pf.feature.name == names[0] && NamedByAll(pf, names[1..])
        {
          if pf.feature.name == names[0] && NamedByAll(pf, names[1..]) {
            forall k | 0 <= k < |names| ensures pf.feature.name == names[k] {
              if k > 0 { assert names[k] == names[1..][k - 1]; }
            }
          }
        }
      }
      r
  }

  /** `whereIn('name', $names)`. */
  function WhereNameIn(rows: seq<PlanFeature>, names: seq<string>): (r: seq<PlanFeature>)
    ensures forall pf :: pf in r <==> pf in rows && pf.feature.name in names
  {
    Filter(rows, NameIn(names))
  }

  /** `exists()`: the query returns at least one row. */
  predicate Exists(rows: seq<PlanFeature>) {
    |rows| > 0
  }

  /** The position `firstWhere('name', $name)` reads: the earliest row with
      that name. */
  ghost predicate IsFirstNamed(rows: seq<PlanFeature>, i: int, name: string) {
    && 0 <= i < |rows|
    && rows[i].feature.name == name
    && forall j :: 0 <= j < i ==> rows[j].feature.name != name
  }

  /** `firstWhere('name', $name)`: the first row with that name, or null. */
  function FirstWhereName(rows: seq<PlanFeature>, name: string): (r: Option<PlanFeature>)
    ensures r.None? <==> forall pf :: pf in rows ==> pf.feature.name != name
    ensures forall i :: IsFirstNamed(rows, i, name) ==> r == Some(rows[i])
  {
    if rows == [] then None
    else if rows[0].feature.name == name then Some(rows[0])
    else
      var r := FirstWhereName(rows[1..], name);
      assert forall i :: IsFirstNamed(rows, i, name) ==> i > 0 && IsFirstNamed(rows[1..], i - 1, name);
      r
  }
}
