# plan-subscription-system, modelled in Dafny

A model of the core of a Laravel subscription package: plans with
attached features (each attachment carrying a pivot `value`,
`resettable_period` and `resettable_interval`), subscriptions owned by an
arbitrary subscriber, and append-only usage and supplement ledgers.
Every query and method of the core is written as a pure function over
in-memory rows:

- `Periods` — the period calculator (start, interval unit, count → end).
  Instants are integer seconds; a day is 86400 seconds and a week seven
  days. Months and years go through an abstract `Calendar` whose only
  assumed property is that adding one or more units moves forward. The
  clock reading `now` is a parameter.
- `FeatureQuery` — the query-builder calls made on a plan's `features()`
  relation: chained `where('name', …)`, `whereIn('name', …)`,
  `firstWhere('name', …)` and `exists()`.
- `Plans` — `hasFeature`, `hasAnyFeature`, the `withAnyFeature` scope and
  the per-row condition of `activeSubscriptions`.
- `HasFeatureTrait` — the trait copies of the two feature-set queries.
- `Entitlements` — the countable/resettable scopes and the pivot lookups
  `existsInPlan`, `valueInPlan`, `resettablePeriodInPlan`,
  `resettableIntervalInPlan`.
- `Ledger` — `totalUsageOf`, `totalSupplementOf`, `remainingUsageOf`, the
  subscription's `features()` and the `findEndingPeriod` scope.
- `FeatureUsage` — the feature-side `totalUsageInSubscription` and
  `remainingUsageInSubscription`.
- `Subscribing` — `lastSubscription` and `subscribe`, over a store of
  subscription rows, a key counter and a log of the effects subscribe
  triggers (the caller's action and the `NewSubscription` event).

`isActive()`, which `subscribe` calls on the last subscription, is not
defined by this code; it is the parameter `isActive`.

In three places the code does not do what its documentation or its
own field lists suggest; the model follows the code:

- `subscribe` does not stamp `starts_at`/`ends_at`: no creation hook
  exists in src/Models/Subscription.php, although its `$fillable` lists
  `ends_at` and a misspelt `stars_at` and its `$casts` list both dates.
  The created row has both unset.
- `hasFeature` is documented as "has all the specified features", but
  chaining one `where('name', …)` per name asks for one row whose name
  equals all of them.
- `resettablePeriodInPlan` of a feature that is not attached is 0, not
  null; only `resettableIntervalInPlan` defaults to null.

## Model

| member | source | states |
|---|---|---|
| Periods.NewPeriod | src/Services/Period.php:47-60 | an unknown unit is an error; the start is the given one or now and is returned unchanged; the count is the given one when positive, else 1; the end lies strictly after the start whenever months and years move forward, for days and weeks is start + count·86400 and start + count·7·86400 seconds, and for months and years is the calendar's addition of count months or count years to the start; the interval is returned as passed |
| Periods.DefaultIsOneMonthFromNow | src/Services/Period.php:36-59 | with no arguments the period starts now, has interval "month" and count 1, and ends one month later |
| Periods.ExactUnitsCompose | src/Services/Period.php:57-59 | for days and weeks a period of a+b units ends where a b-unit period started at the end of an a-unit period ends |
| Periods.ParseInterval | src/Services/Period.php:58 | exactly "day", "week", "month" and "year" name a unit |
| Base.FilterCounts | src/Models/Feature.php:88-113 | a `where` scope keeps each matching row exactly as many times as the table holds it, and no other row |
| FeatureQuery.WhereEachName | src/Models/Plan.php:102-106 | after one chained name clause per listed name, a row remains iff its name equals every listed name |
| FeatureQuery.FirstWhereName | src/Models/Feature.php:144 | null iff no row has the name, otherwise the earliest row with it |
| Plans.HasFeature | src/Models/Plan.php:100-109 | true iff some attached feature's name equals every listed name |
| Plans.HasAnyFeature | src/Models/Plan.php:117-120 | true iff some attached feature's name is in the list |
| Plans.HasFeatureOfNoNames | src/Models/Plan.php:104-108 | an empty list means "the plan has any feature" |
| Plans.HasFeatureOfDistinctNames | src/Models/Plan.php:104-108 | a list holding two different names always gives false |
| Plans.HasAnyFeatureOfNoNames | src/Models/Plan.php:119 | an empty list always gives false |
| Plans.HasFeatureOfOneName | src/Models/Plan.php:100-120 | for one name hasFeature and hasAnyFeature agree |
| Plans.WithAnyFeature | src/Models/Plan.php:129-134 | keeps exactly the plans for which hasAnyFeature holds |
| Plans.ActiveSubscriptions | src/Models/Plan.php:83-92 | keeps only the plan's rows; a canceled row is always kept; an uncanceled row is kept iff starts_at ≤ now < ends_at with both set |
| Plans.ActiveWindowIsHalfOpen | src/Models/Plan.php:86-88 | an uncanceled subscription counts from its start instant and stops counting at its end instant |
| HasFeatureTrait.HasFeature | src/Traits/HasFeature.php:23-32 | true iff one row's name equals every listed name |
| HasFeatureTrait.HasAnyFeature | src/Traits/HasFeature.php:40-43 | true iff some row's name is in the list |
| HasFeatureTrait.AgreesWithPlan | src/Traits/HasFeature.php:23-43 | on a plan's features the trait answers exactly as the plan's own methods |
| HasFeatureTrait.OfNoNames | src/Traits/HasFeature.php:27-31 | an empty list reduces to "some feature attached", and hasAnyFeature of it is false |
| HasFeatureTrait.OfOneName | src/Traits/HasFeature.php:23-43 | for one name the two queries agree |
| Entitlements.Countable | src/Models/Feature.php:88-91 | keeps exactly the countable features |
| Entitlements.Resettable | src/Models/Feature.php:99-102 | keeps exactly the resettable features |
| Entitlements.NotResettable | src/Models/Feature.php:110-113 | keeps exactly the non-resettable features |
| Entitlements.ResettableScopesPartition | src/Models/Feature.php:99-113 | the two scopes split any feature list: as multisets they add up to it and no feature is in both |
| Entitlements.ExistsInPlan | src/Models/Feature.php:131-134 | true iff the plan has a feature row with this feature's name |
| Entitlements.ValueInPlan | src/Models/Feature.php:142-145 | the pivot value of the first row with this name, 0 when that column is null or no row has the name |
| Entitlements.ResettablePeriodInPlan | src/Models/Feature.php:153-156 | the pivot resettable_period of the first row with this name, else 0 |
| Entitlements.ResettableIntervalInPlan | src/Models/Feature.php:164-167 | the pivot resettable_interval of the first row with this name, else null |
| Entitlements.LookupsReadTheOnlyRow | src/Models/Feature.php:131-167 | when exactly one row carries the name, the feature exists in the plan and all three lookups read that row |
| Ledger.TotalUsageOf | src/Models/Subscription.php:129-132 | 0 when no usage row belongs to this subscription and feature |
| Ledger.TotalUsageIsRowByRow | src/Models/Subscription.php:129-132 | the total equals the sum of `used` over exactly the rows of this subscription and feature |
| Ledger.TotalSupplementOf | src/Models/Subscription.php:140-143 | 0 when no supplement row belongs to this subscription and feature |
| Ledger.TotalSupplementIsRowByRow | src/Models/Subscription.php:140-143 | the total equals the sum of `value` over exactly the rows of this subscription and feature |
| Ledger.TotalUsageAppend | src/Models/Subscription.php:131 | appending a usage row adds its amount to its own pair's total only |
| Ledger.TotalSupplementAppend | src/Models/Subscription.php:142 | appending a supplement row adds its value to its own pair's total only |
| Ledger.RemainingUsageOf | src/Models/Subscription.php:151-154 | with empty ledgers the remaining allowance is the plan's allowance, 0 for a feature not attached |
| Ledger.RemainingIsAllowancePlusGrantsMinusUse | src/Models/Subscription.php:151-154 | remaining = allowance + Σ supplement values − Σ used over this pair's rows, with no lower bound |
| Ledger.RecordingUsageLowersRemaining | src/Models/Subscription.php:131-153 | a usage row of amount a lowers the pair's remaining by exactly a and leaves every other pair's unchanged |
| Ledger.GrantingSupplementRaisesRemaining | src/Models/Subscription.php:142-153 | a supplement of value v raises the pair's remaining by exactly v and leaves every other pair's unchanged |
| Ledger.RemainingUsageOfAsWritten | src/Models/Subscription.php:151-154 | as written the method always raises: `valueIn` is not defined |
| Ledger.RemainingUsageOfAsWrittenRaises | src/Models/Subscription.php:153 | on a plan granting 5 units with empty ledgers the written method raises where the intended one answers 5 |
| Ledger.Features | src/Models/Subscription.php:88-101 | the subscription's feature rows are its plan's: the same rows, and the chained-name query over them answers as the plan's hasFeature for every list of names |
| Ledger.SubscriptionFeaturesAreThePlans | src/Models/Subscription.php:88-101 | a subscription's `features()` relation is its plan's, so a class applying the HasFeature trait's queries to it would answer as the plan does (Subscription itself declares neither query) |
| Ledger.FindEndingPeriod | src/Models/Subscription.php:163-169 | keeps exactly the rows with now ≤ ends_at ≤ now + dayRange days, both bounds inclusive, dayRange defaulting to 3 |
| Ledger.FindEndingPeriodRange | src/Models/Subscription.php:163-169 | a wider range keeps at least the same rows, a negative range keeps none, the default keeps a row ending exactly three days ahead |
| FeatureUsage.TotalUsageInSubscription | src/Models/Feature.php:175-178 | 0 when no usage row belongs to this subscription and feature |
| FeatureUsage.TotalUsageAgrees | src/Models/Feature.php:175-178 | equals the subscription's totalUsageOf for this feature |
| FeatureUsage.RemainingUsageInSubscriptionAsWritten | src/Models/Feature.php:186-189 | as written the method always raises: `remainingUsageOfFeature` is not defined |
| FeatureUsage.RemainingUsageInSubscription | src/Models/Feature.php:186-189 | the intended delegation: allowance + Σ supplement values − Σ used for this subscription and feature |
| FeatureUsage.RemainingUsageInSubscriptionAsWrittenRaises | src/Models/Feature.php:188 | on a plan granting 5 units with empty ledgers the written method raises where the intended one answers 5 |
| Subscribing.SubscriptionsOf | src/Traits/CanSubscribeToPlan.php:35-38 | keeps exactly the rows owned by the subscriber |
| Subscribing.LastSubscription | src/Traits/CanSubscribeToPlan.php:45-48 | none iff the subscriber owns no row; otherwise an owned row whose created_at is the greatest among the owned rows |
| Subscribing.Subscribe | src/Traits/CanSubscribeToPlan.php:60-77 | refused with AlreadyActive, store and log untouched, iff a last subscription exists and is active; otherwise, when the action or an event listener throws, subscribe fails and the insert is rolled back (rows and key counter untouched), while the log keeps what already ran: the action call alone when the action throws, the action call and the event dispatch when a listener throws; otherwise exactly one row is appended, owned by the subscriber, with the plan's key, the plan's price at call time, the given timezone and a fresh key; the action runs once on it, then one NewSubscription event |
| Subscribing.SubscribeAddsOneRow | src/Traits/CanSubscribeToPlan.php:65-70 | on success the subscriber's own rows grow by the new row and every other subscriber's rows are unchanged |
| Subscribing.SubscribeBecomesLast | src/Traits/CanSubscribeToPlan.php:47-75 | with a clock that has not gone backwards, the new row is the subscriber's last subscription |
| Subscribing.SubscribeSucceedsUnlessLastActive | src/Traits/CanSubscribeToPlan.php:62-76 | a subscriber owning no active subscription, or none at all, subscribes successfully exactly when neither a passed action nor a listener throws |
| Subscribing.SubscribeAsWritten | src/Traits/CanSubscribeToPlan.php:62 | as written, a subscriber without any subscription makes the activity check raise on null |
| Subscribing.FirstSubscribeRaisesAsWritten | src/Traits/CanSubscribeToPlan.php:62 | a subscriber's first subscribe raises as written and succeeds as intended |

## Left out

- Date parsing: a start given as a string is converted by the date
  library; here the start is already an instant or absent. Calendar
  rules for months and years, time zones and daylight-saving shifts are
  not modelled (a day is always 86400 seconds).
- Periods.ParseInterval: units other than the four named ones that the
  date library would also accept (hours, minutes, quarters, case
  variants of the names) are treated as unknown.
- Periods.ExactUnitsCompose: stated for days and weeks only; for months
  and years it depends on calendar rules that are not modelled.
- The price snapshot holds by construction: a stored subscription keeps
  a copied integer, and nothing here links it back to its plan.
- The effects of the caller's action: it is recorded as invoked once on
  the new subscription, but whatever it does is code outside this model.
- The `$tries` retry count of `subscribe`: the framework retries the
  transaction only after a concurrency error, which is not modelled.
- Subscribing.Subscribe: the active-subscription check runs before and
  outside the transaction, so two concurrent calls can both pass it; the
  model checks and creates in one step. The action may change the new
  row before the event carries it; the modelled event carries the row as
  created. A rolled-back insert may still consume a key on some
  databases; the model leaves the key counter unchanged.
- Feature names are compared exactly, as under a binary collation; under
  a case-insensitive database collation `where('name', …)`, `whereIn` and
  `firstWhere` would also match names differing in case or trailing
  spaces.
- No class in these sources uses the HasFeature trait (Plan declares its
  own copies of the two queries, and Subscription declares neither); the
  trait is modelled over whatever feature rows it is applied to.
- src/Services/Period.php:53 keeps a start date passed in as a date object by
  reference, so the caller's object and `getStartDate` alias each other;
  the model's periods are values, and only the end is computed on a copy
  in both.
- The SQL precedence of `orWhere` in `activeSubscriptions` (src/Models/Plan.php:89):
  the generated query can also return canceled subscriptions of other
  plans; the model applies the condition to the plan's own rows.
- Subscribing.LastSubscription: ties on `created_at` are not ordered by
  the query; the model takes the row stored last.
- `hasAnyFeature` given a nested array, and the cast of a single string
  to a one-element list: names are always a flat list here.
- Float columns (`price`, `used`, `value`) are integers.
- Event classes, the service provider, the model-binding configuration,
  soft deletes, translations and serialisation: framework wiring without
  logic. `Feature::byName` is a plain lookup and is not modelled.
- Cancellation, renewal, plan change, usage increment/decrement and
  `isActive`: not implemented in these sources.

## Findings

| source | as written | input that shows it | evidently intended | confidence | as-written member | corrected member |
|---|---|---|---|---|---|---|
| src/Models/Subscription.php:153 | `remainingUsageOf` calls `$feature->valueIn(...)`, which no class defines, so it always raises | any call, e.g. a plan granting 5 units and empty ledgers | read the allowance with `valueInPlan` | high (not executed) | Ledger.RemainingUsageOfAsWritten | Ledger.RemainingUsageOf |
| src/Models/Feature.php:188 | `remainingUsageInSubscription` calls `remainingUsageOfFeature`, which Subscription does not define, so it always raises | any call, e.g. a plan granting 5 units and empty ledgers | delegate to `remainingUsageOf` | high (not executed) | FeatureUsage.RemainingUsageInSubscriptionAsWritten | FeatureUsage.RemainingUsageInSubscription |
| src/Traits/CanSubscribeToPlan.php:62 | `lastSubscription()->isActive()` dereferences null for a subscriber with no subscription, so nobody can ever subscribe a first time | a subscriber owning no subscription | no subscription counts as not active | high (not executed) | Subscribing.SubscribeAsWritten | Subscribing.Subscribe |
