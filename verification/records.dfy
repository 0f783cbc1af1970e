/** The package's database rows as immutable values. Amounts that the
    database stores as floats are integers here; instants are integer
    seconds. */
module Records {
  import opened Base

  /** A row of the `features` table. */
  datatype Feature = Feature(
    id: int,
    name: string,
    price: int,
    countable: bool,
    resettable: bool,
    extendable: bool,
    quantifier: Option<string>)

  /** A feature attached to a plan together with its `plan_features`
      pivot columns; each pivot column may be NULL. */
  datatype PlanFeature = PlanFeature(
    feature: Feature,
    value: Option<int>,
    resettablePeriod: Option<int>,
    resettableInterval: Option<string>)

  /** A row of the `plans` table with its attached features, in the order
      the database returns them. */
  datatype Plan = Plan(
    id: int,
    name: string,
    price: int,
    signupFee: int,
    dedicated: bool,
    features: seq<PlanFeature>)

  /** The polymorphic owner of a subscription: its model type and key. */
  datatype SubscriberRef = SubscriberRef(kind: string, key: int)

  /** A row of the `subscriptions` table. */
  datatype Subscription = Subscription(
    id: int,
    subscriber: SubscriberRef,
    planId: int,
    price: int,
    startsAt: Option<int>,
    endsAt: Option<int>,
    canceledAt: Option<int>,
    timezone: Option<string>,
    createdAt: int)

  /** An append-only usage entry; `used` is signed. */
  datatype Usage = Usage(subscriptionId: int, featureId: int, used: int)

  /** An append-only grant of extra allowance. */
  datatype Supplement = Supplement(subscriptionId: int, featureId: int, price: int, value: int)
}
