/**
 * The observable / subscription lifecycle. Closures are represented by
 * datatypes naming each kind of closure the system builds: an `Observable`
 * value is the subscriber closure an `IndefiniteObservable` stores, and a
 * `Teardown` value is the closure a subscriber returns.
 */
module IndefiniteObservable {
  import opened Wrappers
  import opened Operators
  import opened Observers
  import opened Generator

  /** A teardown closure returned by a subscriber. */
  datatype Teardown =
    | /** `{ didUnsubscribe = true }`: raises the test's flag. */
      Raise(flag: nat)
    | /** `{ generator.removeObserver(observer) }`. */
      RemoveObserver(generator: DeferredGenerator, observer: AnyObserver)
    | /** An operator's teardown: the upstream subscription's `unsubscribe`. */
      UnsubscribeUpstream(upstream: UpstreamSubscription)

  /** The closure `{ subscription?() }` that `subscribe` stores: it invokes the subscriber's teardown, if any. */
  datatype Unsubscriber = Unsubscriber(teardown: Option<Teardown>)

  /**
   * The subscriber closure of an observable. Building an observable, including
   * through `map` and `filter`, only builds one of these values: no work is done
   * until `Subscribe`.
   */
  datatype Observable =
    | /** Pushes `values` synchronously, then returns `{ didUnsubscribe = true }` or, for `None`, `noUnsubscription`. */
      Producer(values: seq<int>, flag: Option<nat>)
    | /** Registers the observer with a `DeferredGenerator` and returns its removal as teardown. */
      Generated(generator: DeferredGenerator)
    | /** `upstream.map(transform)`. */
      Mapped(upstream: Observable, transform: int -> int)
    | /** `upstream.filter(passesTest)`. */
      Filtered(upstream: Observable, passesTest: int -> bool)

  /** The producer at the head of an operator chain. */
  function Root(observable: Observable): (r: Observable)
    ensures r.Producer? || r.Generated?
  {
    match observable
    case Mapped(upstream, _) => Root(upstream)
    case Filtered(upstream, _) => Root(upstream)
    case _ => observable
  }

  /** The generators that subscribing to `observable` registers with. */
  function Generators(observable: Observable): set<DeferredGenerator> {
    if Root(observable).Generated? then {Root(observable).generator} else {}
  }

  /** The values the head of the chain pushes synchronously while it is subscribed. */
  function Pushed(observable: Observable): seq<int> {
    if Root(observable).Producer? then Root(observable).values else []
  }

  /** How an operator chain turns the values emitted at its head into the values it delivers. */
  function Pipeline(observable: Observable, values: seq<int>): seq<int> {
    match observable
    case Mapped(upstream, transform) => MapValues(transform, Pipeline(upstream, values))
    case Filtered(upstream, passesTest) => FilterValues(passesTest, Pipeline(upstream, values))
    case _ => values
  }

  /** The observer behaviour that reaches the head of the chain when `next` subscribes to it. */
  function RootSink(observable: Observable, next: Sink): Sink {
    match observable
    case Mapped(upstream, transform) => RootSink(upstream, Transform(transform, next))
    case Filtered(upstream, passesTest) => RootSink(upstream, Test(passesTest, next))
    case _ => next
  }

  /** The number of observables in the chain, the head included. */
  function Height(observable: Observable): nat {
    match observable
    case Mapped(upstream, _) => 1 + Height(upstream)
    case Filtered(upstream, _) => 1 + Height(upstream)
    case _ => 1
  }

  function FlagTeardown(flag: Option<nat>): Option<Teardown> {
    if flag.Some? then Some(Raise(flag.value)) else None
  }

  /**
   * Operator chains of any depth: whatever the head of the chain pushes into
   * the observer it was given reaches `next` transformed and filtered by the
   * chain, in order.
   */
  lemma {:induction false} RootSinkDelivers(observable: Observable, next: Sink, values: seq<int>)
    ensures DeliverAll(RootSink(observable, next), values) == DeliverAll(next, Pipeline(observable, values))
  {
    match observable
    case Mapped(upstream, transform) =>
      RootSinkDelivers(upstream, Transform(transform, next), values);
      DeliverTransform(transform, next, Pipeline(upstream, values));
    case Filtered(upstream, passesTest) =>
      RootSinkDelivers(upstream, Test(passesTest, next), values);
      DeliverTest(passesTest, next, Pipeline(upstream, values));
    case _ =>
  }

  /** `pending` is the removal of an observer with behaviour `sink` from `generator`. */
  ghost predicate Registered(pending: Option<Teardown>, generator: DeferredGenerator, sink: Sink) {
    pending.Some? && pending.value.RemoveObserver? &&
    pending.value.generator == generator && pending.value.observer.sink == sink
  }

  /**
   * The subscription `subscribe` returns. It holds the observable (keeping the
   * chain alive) and the closure that runs the subscriber's teardown;
   * `unsubscribe` runs it and clears both.
   */
  class UpstreamSubscription {
    var unsubscribe: Option<Unsubscriber>
    var observable: Option<Observable>
    /** The subscriber teardowns this subscription has invoked so far. */
    ghost var torndown: seq<Teardown>
    /** This subscription and the upstream subscriptions its teardown reaches. */
    ghost var Repr: set<UpstreamSubscription>

    /** The upstream subscription the stored teardown unsubscribes, for an operator's subscription. */
    ghost function Upstream(): Option<UpstreamSubscription>
      reads this
    {
      if unsubscribe.Some? && unsubscribe.value.teardown.Some? && unsubscribe.value.teardown.value.UnsubscribeUpstream?
      then Some(unsubscribe.value.teardown.value.upstream)
      else None
    }

    ghost predicate Valid()
      reads this, Repr
      decreases Repr
    {
      this in Repr &&
      |torndown| <= 1 &&
      (unsubscribe.Some? <==> observable.Some?) &&
      (unsubscribe.Some? ==> torndown == []) &&
      (Upstream().Some? ==>
        var upstream := Upstream().value;
        upstream in Repr && upstream.Repr <= Repr && this !in upstream.Repr && upstream.Valid())
    }

    /** Active and holding `o`: nothing has been torn down yet. */
    ghost predicate Holds(o: Observable)
      reads this
    {
      unsubscribe.Some? && observable == Some(o) && torndown == []
    }

    /**
     * The teardown that unsubscribing now would invoke at the head of the chain:
     * an operator's delegates to its upstream subscription. None once
     * unsubscribed, or when the subscriber returned `noUnsubscription`.
     */
    ghost function Pending(): (r: Option<Teardown>)
      reads this, Repr
      requires Valid()
      decreases Repr
      ensures r.Some? ==> !r.value.UnsubscribeUpstream?
    {
      if Upstream().Some? then Upstream().value.Pending()
      else if unsubscribe.Some? then unsubscribe.value.teardown
      else None
    }

    /** The generator that unsubscribing now would change. */
    ghost function PendingGenerators(): set<DeferredGenerator>
      reads this, Repr
      requires Valid()
    {
      if Pending().Some? && Pending().value.RemoveObserver? then {Pending().value.generator} else {}
    }

    /** This subscription, then the subscriptions further up the chain its stored teardown reaches. */
    ghost function Chain(): (r: seq<UpstreamSubscription>)
      reads this, Repr
      requires Valid()
      decreases Repr
      ensures |r| >= 1 && r[0] == this
      ensures forall i :: 0 <= i < |r| ==> r[i] in Repr
      ensures forall i, j :: 0 <= i < j < |r| ==> r[i] != r[j]
    {
      if Upstream().Some? then [this] + Upstream().value.Chain() else [this]
    }

    /** `UpstreamSubscription(observable:_:)`: holds the observable and the teardown. */
    constructor (observable: Observable, teardown: Option<Teardown>)
      requires teardown.Some? && teardown.value.UnsubscribeUpstream? ==> teardown.value.upstream.Valid()
      ensures Valid() && Holds(observable)
      ensures unsubscribe == Some(Unsubscriber(teardown))
      ensures teardown.Some? && teardown.value.UnsubscribeUpstream? ==>
        var upstream := teardown.value.upstream;
        Repr == {this} + upstream.Repr && Pending() == upstream.Pending() && Chain() == [this] + upstream.Chain()
      ensures !(teardown.Some? && teardown.value.UnsubscribeUpstream?) ==>
        Repr == {this} && Pending() == teardown && Chain() == [this]
    {
      this.unsubscribe := Some(Unsubscriber(teardown));
      this.observable := Some(observable);
      torndown := [];
      if teardown.Some? && teardown.value.UnsubscribeUpstream? {
        Repr := {this} + teardown.value.upstream.Repr;
      } else {
        Repr := {this};
      }
    }

    /** The teardowns the stored closure `u` invokes when called. */
    static function Invokes(u: Option<Unsubscriber>): seq<Teardown> {
      if u.Some? && u.value.teardown.Some? then [u.value.teardown.value] else []
    }

    /**
     * `unsubscribe()`: runs the stored closure, if any, then clears both fields.
     * A second call finds nothing to run, so a subscriber's teardown is invoked
     * at most once (`Valid` keeps `|torndown| <= 1`), and afterwards the
     * subscription holds no reference to the observable.
     */
    method Unsubscribe() returns (raised: seq<nat>)
      requires Valid()
      modifies Repr, PendingGenerators()
      decreases Repr
      ensures Valid() && Repr == old(Repr)
      ensures unsubscribe.None? && observable.None? && Pending().None?
      // The direct upstream's case of the next clause, stated on its own so that callers need not unfold `Chain`.
      ensures old(Upstream()).Some? ==>
        old(Upstream()).value.unsubscribe.None? && old(Upstream()).value.observable.None?
      ensures forall s :: s in old(Chain()) ==> s.unsubscribe.None? && s.observable.None?
      ensures forall s :: s in old(Chain()) ==> s.torndown == old(s.torndown) + Invokes(old(s.unsubscribe))
      ensures old(unsubscribe).None? ==> unchanged(Repr)
      ensures torndown == old(torndown) + Invokes(old(unsubscribe))
      ensures old(unsubscribe).None? ==> torndown == old(torndown) && raised == []
      ensures old(Pending().Some? && Pending().value.RemoveObserver?) ==>
        var removal := old(Pending().value);
        removal.generator.observers == RemoveFirst(old(removal.generator.observers), removal.observer)
      ensures raised == if old(Pending().Some? && Pending().value.Raise?) then [old(Pending().value.flag)] else []
    {
      raised := [];
      if unsubscribe.Some? && unsubscribe.value.teardown.Some? {
        var teardown := unsubscribe.value.teardown.value;
        match teardown {
          case Raise(flag) =>
            raised := [flag];
          case RemoveObserver(generator, observer) =>
            generator.RemoveObserver(observer);
          case UnsubscribeUpstream(upstream) =>
            raised := upstream.Unsubscribe();
        }
        torndown := torndown + [teardown];
      }
      unsubscribe := None;
      observable := None;
    }
  }

  /** What running `teardown` would invoke at the head of the chain. */
  ghost function Resolve(teardown: Option<Teardown>): (r: Option<Teardown>)
    reads if teardown.Some? && teardown.value.UnsubscribeUpstream?
          then {teardown.value.upstream} + teardown.value.upstream.Repr else {}
    requires teardown.Some? && teardown.value.UnsubscribeUpstream? ==> teardown.value.upstream.Valid()
  {
    if teardown.Some? && teardown.value.UnsubscribeUpstream? then teardown.value.upstream.Pending() else teardown
  }

  /**
   * `subscriber(observer)`: runs the subscriber closure of `observable` once.
   * A producer pushes its values into `observer` and returns its teardown; a
   * generator-backed observable registers `observer`; `map` and `filter`
   * subscribe upstream exactly once with their wrapping observer and return
   * that subscription's `unsubscribe`.
   */
  method Connect(observable: Observable, observer: AnyObserver) returns (teardown: Option<Teardown>, delivered: seq<int>)
    modifies Generators(observable)
    decreases observable, 0
    ensures delivered == DeliverAll(observer.sink, Pipeline(observable, Pushed(observable)))
    ensures match observable
      case Producer(_, flag) => teardown == FlagTeardown(flag)
      case Generated(generator) => teardown == Some(RemoveObserver(generator, observer))
      case Mapped(upstream, _) =>
        teardown.Some? && teardown.value.UnsubscribeUpstream? && teardown.value.upstream.Holds(upstream)
      case Filtered(upstream, _) =>
        teardown.Some? && teardown.value.UnsubscribeUpstream? && teardown.value.upstream.Holds(upstream)
    ensures teardown.Some? && teardown.value.UnsubscribeUpstream? ==>
      var upstream := teardown.value.upstream;
      upstream.Valid() && fresh(upstream.Repr) && 1 + |upstream.Chain()| == Height(observable)
    ensures Root(observable).Producer? ==> Resolve(teardown) == FlagTeardown(Root(observable).flag)
    ensures Root(observable).Generated? ==>
      var generator := Root(observable).generator;
      Registered(Resolve(teardown), generator, RootSink(observable, observer.sink)) &&
      (Resolve(teardown).value.observer == observer || fresh(Resolve(teardown).value.observer)) &&
      generator.observers == old(generator.observers) + [Resolve(teardown).value.observer]
  {
    match observable
    case Producer(values, flag) =>
      delivered := DeliverAll(observer.sink, values);
      teardown := FlagTeardown(flag);
    case Generated(generator) =>
      generator.AddObserver(observer);
      delivered := [];
      teardown := Some(RemoveObserver(generator, observer));
    case Mapped(upstream, transform) =>
      var subscription;
      subscription, delivered := Subscribe(upstream, Transform(transform, observer.sink));
      DeliverTransform(transform, observer.sink, Pipeline(upstream, Pushed(upstream)));
      teardown := Some(UnsubscribeUpstream(subscription));
    case Filtered(upstream, passesTest) =>
      var subscription;
      subscription, delivered := Subscribe(upstream, Test(passesTest, observer.sink));
      DeliverTest(passesTest, observer.sink, Pipeline(upstream, Pushed(upstream)));
      teardown := Some(UnsubscribeUpstream(subscription));
  }

  /**
   * `subscribe(next:)`: wraps `next` in an observer, invokes the subscriber
   * exactly once with a forwarding observer, and returns a fresh subscription holding the observable and
   * the teardown. Values the chain's head pushes synchronously reach `next`,
   * through the chain, before `Subscribe` returns.
   */
  method Subscribe(observable: Observable, next: Sink) returns (subscription: UpstreamSubscription, delivered: seq<int>)
    modifies Generators(observable)
    decreases observable, 1
    ensures subscription.Valid() && fresh(subscription.Repr) && subscription.Holds(observable)
    ensures |subscription.Chain()| == Height(observable)
    ensures (observable.Mapped? || observable.Filtered?) ==>
      subscription.Upstream().Some? && subscription.Upstream().value.Holds(observable.upstream)
    ensures delivered == DeliverAll(next, Pipeline(observable, Pushed(observable)))
    ensures Root(observable).Producer? ==> subscription.Pending() == FlagTeardown(Root(observable).flag)
    ensures Root(observable).Generated? ==>
      var generator := Root(observable).generator;
      Registered(subscription.Pending(), generator, RootSink(observable, next)) &&
      fresh(subscription.Pending().value.observer) &&
      generator.observers == old(generator.observers) + [subscription.Pending().value.observer]
  {
    var observer := new AnyObserver(next);
    // The subscriber receives a second observer whose `next` forwards to `observer.next`.
    var forwarding := new AnyObserver(observer.sink);
    var teardown;
    teardown, delivered := Connect(observable, forwarding);
    ghost var resolved := Resolve(teardown);
    subscription := new UpstreamSubscription(observable, teardown);
    assert subscription.Pending() == resolved;
    assert Root(observable).Generated? ==>
      Root(observable).generator.observers == old(Root(observable).generator.observers) + [resolved.value.observer];
  }
}
