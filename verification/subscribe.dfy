/** src/Traits/CanSubscribeToPlan.php: a subscriber's last subscription
    and the subscribe operation, over an explicit store of subscription
    rows and an explicit log of what subscribe triggers. */
module Subscribing {
  import opened Base
  import opened Records

  /** What subscribe triggers besides the row it creates: the caller's
      optional action, invoked on the new subscription, and the
      NewSubscription event. */
  datatype Effect = ActionInvoked(subscription: Subscription) | NewSubscription(subscription: Subscription)

  /** The `subscriptions` table, the next key it hands out, and the log of
      effects. */
  datatype Store = Store(subscriptions: seq<Subscription>, nextId: int, effects: seq<Effect>)

  /** Every stored key is below the next key to be handed out. */
  ghost predicate FreshKeys(st: Store) {
    forall i :: 0 <= i < |st.subscriptions| ==> st.subscriptions[i].id < st.nextId
  }

  /** subscriptions(): the rows owned by `who`. */
  function SubscriptionsOf(subs: seq<Subscription>, who: SubscriberRef): (r: seq<Subscription>)
    ensures forall s :: s in r <==> s in subs && s.subscriber == who
  {
    Filter(subs, (s: Subscription) => s.subscriber == who)
  }

  /** lastSubscription(): `latest()->first()`, the owned row with the
      greatest `created_at`, or null when `who` owns none. Among rows
      created at the same instant the one stored last is taken. */
  function LastSubscription(subs: seq<Subscription>, who: SubscriberRef): (r: Option<Subscription>)
    ensures r.None? <==> forall s :: s in subs ==> s.subscriber != who
    ensures r.Some? ==> r.value in subs && r.value.subscriber == who
    ensures r.Some? ==> forall s :: s in subs && s.subscriber == who ==> s.createdAt <= r.value.createdAt
    decreases |subs|
  {
    if subs == [] then None
    else
      var earlier := subs[..|subs| - 1];
      var x := subs[|subs| - 1];
      var rest := LastSubscription(earlier, who);
      assert subs == earlier + [x];
      if x.subscriber != who then rest
      else if rest.None? || rest.value.createdAt <= x.createdAt then Some(x)
      else rest
  }

  datatype Outcome = Outcome(store: Store, result: Result<Subscription>)

  /** Which callback of the transaction throws, if any: the caller's
      action, or a listener of the NewSubscription event. */
  datatype Thrown = NothingThrows | ActionThrows | ListenerThrows

  /** Whether the transaction is aborted: an action can only throw when
      one was passed. */
  predicate Aborts(thrown: Thrown, withAction: bool) {
    thrown == ListenerThrows || (thrown == ActionThrows && withAction)
  }

  /** The subscription row subscribe creates: owned by `who`, on `plan`,
      priced at the plan's price at this moment, with the given timezone
      and stamped `now`. Neither start nor end is set by this code. */
  function NewRow(st: Store, who: SubscriberRef, plan: Plan, timezone: Option<string>, now: int): Subscription {
    Subscription(st.nextId, who, plan.id, plan.price, None, None, None, timezone, now)
  }

  /** The effects of a successful subscribe, in order. */
  function EffectsOf(s: Subscription, withAction: bool): seq<Effect> {
    (if withAction then [ActionInvoked(s)] else []) + [NewSubscription(s)]
  }

  /** subscribe($plan, $timezone, $action): refused when the last
      subscription is active; otherwise one transaction that stores the
      new row, runs the action on it and raises NewSubscription. When the
      action or a listener of the event throws, the insert is rolled back
      and the exception leaves subscribe, but the action call and the
      event dispatch that had already happened stay in the effect log. A
      subscriber with no subscription at all is taken as not active.
      `isActive` is the subscription's activity test, which this code
      does not define. */
  function Subscribe(st: Store, who: SubscriberRef, plan: Plan, timezone: Option<string>, withAction: bool,
                     thrown: Thrown, isActive: Subscription -> bool, now: int): (r: Outcome)
    ensures var last := LastSubscription(st.subscriptions, who);
            r.result.Failure? <==> (last.Some? && isActive(last.value)) || Aborts(thrown, withAction)
    ensures r.result.Failure? ==> r.store.subscriptions == st.subscriptions && r.store.nextId == st.nextId
    ensures var last := LastSubscription(st.subscriptions, who);
            last.Some? && isActive(last.value) ==> r == Outcome(st, Failure(AlreadyActive))
    ensures var last := LastSubscription(st.subscriptions, who);
            var s := NewRow(st, who, plan, timezone, now);
            !(last.Some? && isActive(last.value)) && Aborts(thrown, withAction) ==>
              && r.result == Failure(CallbackRaised)
              && r.store.effects == st.effects + (if thrown == ActionThrows then [ActionInvoked(s)]
                                                  else EffectsOf(s, withAction))
    ensures r.result.Success? ==>
              var s := r.result.value;
              && s.subscriber == who && s.planId == plan.id && s.price == plan.price
              && s.timezone == timezone && s.createdAt == now
              && s.startsAt.None? && s.endsAt.None? && s.canceledAt.None?
              && r.store.subscriptions == st.subscriptions + [s]
              && (FreshKeys(st) ==> forall t :: t in st.subscriptions ==> t.id != s.id)
    ensures r.result.Success? && withAction ==>
              r.store.effects == st.effects + [ActionInvoked(r.result.value), NewSubscription(r.result.value)]
    ensures r.result.Success? && !withAction ==>
              r.store.effects == st.effects + [NewSubscription(r.result.value)]
    ensures FreshKeys(st) ==> FreshKeys(r.store)
  {
    var last := LastSubscription(st.subscriptions, who);
    if last.Some? && isActive(last.value) then
      Outcome(st, Failure(AlreadyActive))
    else
      var s := NewRow(st, who, plan, timezone, now);
      if Aborts(thrown, withAction) then
        var done := if thrown == ActionThrows then [ActionInvoked(s)] else EffectsOf(s, withAction);
        Outcome(st.(effects := st.effects + done), Failure(CallbackRaised))
      else
        assert FreshKeys(st) ==> forall t :: t in st.subscriptions ==> t.id != s.id by {
          if FreshKeys(st) {
            forall t | t in st.subscriptions ensures t.id != s.id {
              var i :| 0 <= i < |st.subscriptions| && st.subscriptions[i] == t;
            }
          }
        }
        Outcome(Store(st.subscriptions + [s], st.nextId + 1, st.effects + EffectsOf(s, withAction)), Success(s))
  }

  /** A successful subscribe adds exactly one row to the subscriber's own
      subscriptions and none to anybody else's. */
  lemma SubscribeAddsOneRow(st: Store, who: SubscriberRef, plan: Plan, timezone: Option<string>,
                            withAction: bool, thrown: Thrown, isActive: Subscription -> bool, now: int, other: SubscriberRef)
    requires other != who
    ensures var r := Subscribe(st, who, plan, timezone, withAction, thrown, isActive, now);
            r.result.Success? ==>
              && SubscriptionsOf(r.store.subscriptions, who) == SubscriptionsOf(st.subscriptions, who) + [r.result.value]
              && SubscriptionsOf(r.store.subscriptions, other) == SubscriptionsOf(st.subscriptions, other)
  {
    var r := Subscribe(st, who, plan, timezone, withAction, thrown, isActive, now);
    if r.result.Success? {
      var s := r.result.value;
      FilterAppend(st.subscriptions, [s], (t: Subscription) => t.subscriber == who);
      FilterAppend(st.subscriptions, [s], (t: Subscription) => t.subscriber == other);
    }
  }

  /** With a clock that has not gone backwards, the subscription just
      created is the subscriber's last one. */
  lemma SubscribeBecomesLast(st: Store, who: SubscriberRef, plan: Plan, timezone: Option<string>,
                             withAction: bool, thrown: Thrown, isActive: Subscription -> bool, now: int)
    requires forall s :: s in st.subscriptions ==> s.createdAt <= now
    ensures var r := Subscribe(st, who, plan, timezone, withAction, thrown, isActive, now);
            r.result.Success? ==> LastSubscription(r.store.subscriptions, who) == Some(r.result.value)
  {
    var r := Subscribe(st, who, plan, timezone, withAction, thrown, isActive, now);
    if r.result.Success? {
      var subs := r.store.subscriptions;
      assert subs[..|subs| - 1] == st.subscriptions;
    }
  }

  /** When the subscriber owns no active subscription (in particular when
      it owns none at all), subscribe succeeds exactly when neither the
      action nor a listener throws. */
  lemma SubscribeSucceedsUnlessLastActive(st: Store, who: SubscriberRef, plan: Plan, timezone: Option<string>,
                                          withAction: bool, thrown: Thrown, isActive: Subscription -> bool, now: int)
    requires forall s :: s in st.subscriptions && s.subscriber == who ==> !isActive(s)
    ensures Subscribe(st, who, plan, timezone, withAction, thrown, isActive, now).result.Success?
            <==> !Aborts(thrown, withAction)
  {
  }

  /** subscribe as the source writes it: `lastSubscription()->isActive()`
      is called on null when the subscriber has no subscription, which
      raises instead of subscribing. */
  function SubscribeAsWritten(st: Store, who: SubscriberRef, plan: Plan, timezone: Option<string>, withAction: bool,
                              thrown: Thrown, isActive: Subscription -> bool, now: int): (r: Outcome)
    ensures LastSubscription(st.subscriptions, who).None? ==>
              r == Outcome(st, Failure(NullDereference("isActive")))
    ensures LastSubscription(st.subscriptions, who).Some? ==>
              r == Subscribe(st, who, plan, timezone, withAction, thrown, isActive, now)
  {
    if LastSubscription(st.subscriptions, who).None? then Outcome(st, Failure(NullDereference("isActive")))
    else Subscribe(st, who, plan, timezone, withAction, thrown, isActive, now)
  }

  /** A subscriber's first subscription: the written code raises, the
      intended one stores the row. */
  lemma FirstSubscribeRaisesAsWritten(plan: Plan, isActive: Subscription -> bool, now: int)
    ensures var st := Store([], 1, []);
            var who := SubscriberRef("user", 1);
            && SubscribeAsWritten(st, who, plan, None, false, NothingThrows, isActive, now).result.Failure?
            && Subscribe(st, who, plan, None, false, NothingThrows, isActive, now).result.Success?
  {
  }
}
