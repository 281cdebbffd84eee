/**
 * The repository's test scenarios, stated on the model: each method builds
 * the observables and subscriptions a test builds, in the same order, and its
 * postcondition is the test's assertion.
 */
module Scenarios {
  import opened Wrappers
  import opened Operators
  import opened Observers
  import opened Generator
  import opened IndefiniteObservable

  /** The tests' terminal closures: `{ valuesObserved.append($0) }` and `{ valuesObserved.append($0 * 2) }`. */
  function Identity(x: int): int { x }
  function Double(x: int): int { x * 2 }

  lemma BroadcastTwo(a: AnyObserver, b: AnyObserver, value: int)
    ensures Broadcast([a, b], value) == Deliver(a.sink, value) + Deliver(b.sink, value)
  {
    assert [a, b][1..] == [b];
    BroadcastOne(b, value);
  }

  lemma BroadcastOne(a: AnyObserver, value: int)
    ensures Broadcast([a], value) == Deliver(a.sink, value)
  {
    assert [a][1..] == [];
    assert Deliver(a.sink, value) + [] == Deliver(a.sink, value);
  }

  /** A synchronous producer's value reaches the observer before `subscribe` returns. */
  method SubscriptionReceivesValue() returns (valuesObserved: seq<int>)
    ensures valuesObserved == [10]
  {
    var observable := Producer([10], None);
    var subscription, delivered := Subscribe(observable, Append(x => x));
    valuesObserved := delivered;
  }

  /**
   * Two subscriptions to one observable run the subscriber twice, each
   * delivering its own value; unsubscribing a `noUnsubscription` subscriber
   * invokes nothing.
   */
  method TwoParallelSubscriptions() returns (first: seq<int>, second: seq<int>, raised: seq<nat>)
    ensures first == [10] && second == [10]
    ensures raised == []
  {
    var observable := Producer([10], None);
    var subscription1, subscription2;
    subscription1, first := Subscribe(observable, Append(x => x));
    subscription2, second := Subscribe(observable, Append(x => x));
    var raised1 := subscription1.Unsubscribe();
    var raised2 := subscription2.Unsubscribe();
    assert subscription1.torndown == [] && subscription2.torndown == [];
    raised := raised1 + raised2;
  }

  /** `map { $0 * $0 }` on a producer of 10 delivers 100. */
  method MappingValues() returns (valuesObserved: seq<int>)
    ensures valuesObserved == [100]
  {
    var observable := Mapped(Producer([10], None), x => x * x);
    var subscription, delivered := Subscribe(observable, Append(x => x));
    RootSinkDelivers(observable, Append(x => x), [10]);
    valuesObserved := delivered;
  }

  /**
   * Letting a subscription go without unsubscribing does not run the teardown:
   * the flag-raising teardown is still pending and none has been invoked.
   */
  method DoesNotUnsubscribeOnDeallocation() returns (subscription: UpstreamSubscription)
    ensures subscription.Valid()
    ensures subscription.torndown == [] && subscription.Pending() == Some(Raise(0))
  {
    var observable := Producer([], Some(0));
    var delivered;
    subscription, delivered := Subscribe(observable, Append(x => x));
  }

  /** `unsubscribe` runs the subscriber's teardown; a second call runs nothing. */
  method UnsubscribesOnUnsubscribe() returns (didUnsubscribe: bool, teardownRuns: nat)
    ensures didUnsubscribe && teardownRuns == 1
  {
    var observable := Producer([], Some(0));
    var subscription, delivered := Subscribe(observable, Append(x => x));
    var raised := subscription.Unsubscribe();
    didUnsubscribe := 0 in raised;
    var raisedAgain := subscription.Unsubscribe();
    teardownRuns := |raised + raisedAgain|;
    assert subscription.torndown == [Raise(0)];
  }

  /**
   * Through `map`, the producer's teardown runs exactly once over two
   * `unsubscribe` calls, on the upstream subscription `map` made; the second
   * call leaves that subscription as the first left it.
   */
  method MappedTeardownRunsOnce()
    returns (didUnsubscribe: bool, teardownRuns: nat, ghost subscription: UpstreamSubscription, ghost upstream: UpstreamSubscription)
    ensures didUnsubscribe && teardownRuns == 1
    ensures upstream != subscription && upstream in subscription.Repr
    ensures upstream.torndown == [Raise(0)] && upstream.unsubscribe.None? && upstream.observable.None?
  {
    var observable := Mapped(Producer([], Some(0)), x => x * x);
    var s, delivered := Subscribe(observable, Append(x => x));
    subscription := s;
    upstream := s.Upstream().value;
    var raised := s.Unsubscribe();
    didUnsubscribe := 0 in raised;
    var raisedAgain := s.Unsubscribe();
    teardownRuns := |raised + raisedAgain|;
  }

  /**
   * Unsubscribing from a mapped observable releases the producer: neither the
   * subscription nor the upstream subscription `map` made still holds an
   * observable.
   */
  method UnsubscribedOperatorReleasesChain()
    returns (stillHeld: bool, ghost subscription: UpstreamSubscription, ghost upstream: UpstreamSubscription)
    ensures !stillHeld
    ensures upstream != subscription && upstream in subscription.Repr
    ensures subscription.observable.None? && upstream.observable.None?
  {
    var observable := Mapped(Producer([5], None), x => x * x);
    var s, delivered := Subscribe(observable, Append(x => x));
    subscription := s;
    upstream := subscription.Upstream().value;
    var raised := s.Unsubscribe();
    stillHeld := s.observable.Some?;
  }

  /**
   * Unsubscribing from `map`s stacked two deep clears the observable and the
   * stored closure on three distinct subscriptions, one per level of the chain.
   */
  method UnsubscribedNestedChainReleasesEveryLevel() returns (subscription: UpstreamSubscription, ghost chain: seq<UpstreamSubscription>)
    ensures |chain| == 3 && chain[0] == subscription
    ensures chain[0] != chain[1] && chain[1] != chain[2] && chain[0] != chain[2]
    ensures forall s :: s in chain ==> s in subscription.Repr
    ensures forall s :: s in chain ==> s.unsubscribe.None? && s.observable.None?
  {
    var observable := Mapped(Mapped(Producer([5], None), x => x + 1), x => x * 2);
    var delivered;
    subscription, delivered := Subscribe(observable, Append(x => x));
    chain := subscription.Chain();
    var raised := subscription.Unsubscribe();
  }

  /**
   * The setup the generator tests share: a `DeferredGenerator`-backed
   * observable, a first subscription recording each value and a second one
   * doubling it, either in its own closure or through `map { $0 * 2 }`.
   */
  method SubscribeTwiceToGenerator(mapSecond: bool)
    returns (generator: DeferredGenerator, subscription1: UpstreamSubscription, subscription2: UpstreamSubscription,
             ghost o1: AnyObserver, ghost o2: AnyObserver)
    ensures fresh(generator) && fresh(subscription1.Repr) && fresh(subscription2.Repr)
    ensures subscription1.Repr !! subscription2.Repr
    ensures subscription1.Valid() && subscription2.Valid()
    ensures subscription1.Pending() == Some(RemoveObserver(generator, o1))
    ensures subscription2.Pending() == Some(RemoveObserver(generator, o2))
    ensures o1 != o2 && generator.observers == [o1, o2]
    ensures o1.sink == Append(Identity)
    ensures o2.sink == if mapSecond then Transform(Double, Append(Identity)) else Append(Double)
  {
    generator := new DeferredGenerator();
    var observable := Generated(generator);
    var d1, d2;
    subscription1, d1 := Subscribe(observable, Append(Identity));
    if mapSecond {
      subscription2, d2 := Subscribe(Mapped(observable, Double), Append(Identity));
      assert RootSink(Mapped(observable, Double), Append(Identity)) == Transform(Double, Append(Identity));
    } else {
      subscription2, d2 := Subscribe(observable, Append(Double));
    }
    o1 := subscription1.Pending().value.observer;
    o2 := subscription2.Pending().value.observer;
  }

  /** Emitting to the two subscriptions of the setup: the first records `value`, the second `value * 2`. */
  lemma EmitToBoth(o1: AnyObserver, o2: AnyObserver, value: int)
    requires o1.sink == Append(Identity)
    requires o2.sink == Append(Double) || o2.sink == Transform(Double, Append(Identity))
    ensures Broadcast([o1, o2], value) == [value, value * 2]
  {
    BroadcastTwo(o1, o2, value);
  }

  /**
   * Unsubscribing one of the setup's subscriptions runs its teardown, which
   * removes that subscription's observer from the generator.
   */
  method Detach(generator: DeferredGenerator, subscription: UpstreamSubscription, ghost observer: AnyObserver)
    requires subscription.Valid() && subscription.Pending() == Some(RemoveObserver(generator, observer))
    modifies subscription.Repr, generator
    ensures generator.observers == RemoveFirst(old(generator.observers), observer)
    ensures subscription.observable.None?
  {
    var raised := subscription.Unsubscribe();
  }

  /** Two subscriptions, identity and doubling, then three emissions. */
  method GeneratedValuesAreReceived() returns (valuesObserved: seq<int>)
    ensures valuesObserved == [5, 10, 10, 20, 2, 4]
  {
    var generator, subscription1, subscription2;
    ghost var o1, o2;
    generator, subscription1, subscription2, o1, o2 := SubscribeTwiceToGenerator(false);
    var e1 := generator.Emit(5);
    EmitToBoth(o1, o2, 5);
    var e2 := generator.Emit(10);
    EmitToBoth(o1, o2, 10);
    var e3 := generator.Emit(2);
    EmitToBoth(o1, o2, 2);
    valuesObserved := e1 + e2 + e3;
    Detach(generator, subscription1, o1);
    Detach(generator, subscription2, o2);
  }

  /** After the doubling subscription unsubscribes, a later emission reaches only the first. */
  method GeneratedValuesAreNotReceivedAfterUnsubscription() returns (valuesObserved: seq<int>)
    ensures valuesObserved == [5, 10, 10, 20, 2]
  {
    var generator, subscription1, subscription2;
    ghost var o1, o2;
    generator, subscription1, subscription2, o1, o2 := SubscribeTwiceToGenerator(false);
    EmitToBoth(o1, o2, 5);
    EmitToBoth(o1, o2, 10);
    valuesObserved := [];
    var e := generator.Emit(5);
    valuesObserved := valuesObserved + e;
    e := generator.Emit(10);
    valuesObserved := valuesObserved + e;
    assert valuesObserved == [5, 10, 10, 20];
    Detach(generator, subscription2, o2);
    RemoveFirstAt([o1, o2], o2, 1);
    BroadcastOne(o1, 2);
    e := generator.Emit(2);
    valuesObserved := valuesObserved + e;
    assert valuesObserved == [5, 10, 10, 20, 2];
    Detach(generator, subscription1, o1);
  }

  /**
   * A plain subscription and a `map { $0 * 2 }` subscription on one generator;
   * after the plain one unsubscribes, the mapped one alone receives the later
   * emission.
   */
  method GeneratedValuesAreNotReceivedAfterUnsubscriptionOrder2() returns (valuesObserved: seq<int>)
    ensures valuesObserved == [5, 10, 10, 20, 4]
  {
    var generator, subscription1, subscription2;
    ghost var o1, o2;
    generator, subscription1, subscription2, o1, o2 := SubscribeTwiceToGenerator(true);
    EmitToBoth(o1, o2, 5);
    EmitToBoth(o1, o2, 10);
    valuesObserved := [];
    var e := generator.Emit(5);
    valuesObserved := valuesObserved + e;
    e := generator.Emit(10);
    valuesObserved := valuesObserved + e;
    assert valuesObserved == [5, 10, 10, 20];
    Detach(generator, subscription1, o1);
    RemoveFirstAt([o1, o2], o1, 0);
    BroadcastOne(o2, 2);
    e := generator.Emit(2);
    valuesObserved := valuesObserved + e;
    assert valuesObserved == [5, 10, 10, 20, 4];
    Detach(generator, subscription2, o2);
  }
}
