# indefinite-observable, modelled in Dafny

This project models the core of *IndefiniteObservable*. It is a small, push-based
observable library for Swift, written for streams that never complete.

An `IndefiniteObservable` stores a *subscriber* closure and does nothing until
someone calls `subscribe`. Then:

- `subscribe` wraps the `next` closure in an `AnyObserver`.
- It invokes the subscriber exactly once, with a forwarding observer.
- It returns an `UpstreamSubscription` that holds the observable and a closure `{ subscription?() }`, which invokes the teardown the subscriber returned.
- `unsubscribe` runs that closure, if there is one, and then clears both fields.

The model also covers:

- the operators `map` and `filter`. Each operator builds a new observable whose subscriber subscribes upstream with a wrapping observer and hands back the upstream subscription's `unsubscribe` as its own teardown.
- `MotionObservable.map`, which maps the `next` channel and forwards the `state` channel.
- the tests' `DeferredGenerator`, a fan-out producer over a list of observers compared by identity.
- the test scenarios, whose delivery logs and teardown flags are proved as method postconditions.

Closures are represented by datatypes that name each kind of closure the system builds:

- `Observers.Sink` is what an observer's `next` does: append to the test's log, transform and forward (`map`), or test and forward (`filter`). Calling `next` returns the values it appends.
- `IndefiniteObservable.Observable` is a subscriber closure. The variants are:
  - a synchronous producer of a fixed list, with an optional `{ didUnsubscribe = true }` teardown;
  - a `DeferredGenerator`-backed producer;
  - `map`;
  - `filter`.
- `IndefiniteObservable.Teardown` is a teardown closure: raise a flag, remove an observer from a generator, or unsubscribe the upstream subscription.

Objects that change in place or are compared by identity are classes:

- `UpstreamSubscription`, with fields `unsubscribe` and `observable`, which `Unsubscribe` clears;
- `DeferredGenerator`, whose `observers` list is appended to and removed from;
- `AnyObserver`, for its reference identity (`===`).

Files:

- `wrappers.dfy`: `Option`.
- `operators.dfy`: the value-level meaning of the operators, with reference definitions `MapValues` and `FilterValues`, and the `MotionObservable` channels.
- `observers.dfy`: observer behaviour and `AnyObserver`.
- `generator.dfy`: `DeferredGenerator` and its reference functions `RemoveFirst` and `Broadcast`.
- `observable.dfy`: observables, `subscribe`, and `UpstreamSubscription`.
- `scenarios.dfy`: the unit tests, as methods whose postconditions are the tests' assertions.

Where the two test suites differ:

- The unit tests return `noopUnsubscription` and the earlier suite returns `noopDisconnect`. Neither name is defined in `src/IndefiniteObservable.swift`, which defines `noUnsubscription` as `nil`. All three are modelled as the absent teardown (`FlagTeardown(None)`).
- `ValueObservable.subscribe(_:)` forwards to `subscribe(observer:)` in the tests, while the library defines `subscribe(next:)`. Both are modelled by `IndefiniteObservable.Subscribe`, which takes the observer's behaviour.

## Model

| member | source | states |
|---|---|---|
| Operators.MapValues | tests/unit/SimpleOperators.swift:41-47 | `map(transform)` delivers one value per upstream value, the i-th being `transform` of the i-th upstream value |
| Operators.FilterValues | tests/unit/SimpleOperators.swift:50-58 | `filter` never delivers more values than upstream emitted |
| Operators.MapValuesAppend | tests/unit/SimpleOperators.swift:41-47 | `map` handles emissions one at a time: mapping a concatenation maps each part, in order |
| Operators.FilterValuesAppend | tests/unit/SimpleOperators.swift:50-58 | `filter` handles emissions one at a time: filtering a concatenation filters each part, in order |
| Operators.FilterValuesSingle | tests/unit/SimpleOperators.swift:53-55 | a single value is forwarded unchanged if it passes the test, and dropped otherwise |
| Operators.FilterValuesMembers | tests/unit/SimpleOperators.swift:50-58 | a value is delivered iff it was emitted upstream and passes the test; if every value passes, the stream is unchanged; if none passes, nothing is delivered |
| Operators.MapMapFusion | examples/OperatorExample.swift:41-47 | two chained `map`s deliver the composed transform of each value |
| Operators.FilterMapMapChain | examples/OperatorExample.swift:132-139 | `filter(p).map(f).map(g)` delivers `g(f(v))` exactly for the upstream values `v` with `p(v)` (both directions), in order |
| Operators.FilteringValuesExample | tests/unit/ObservableTests.swift:128-142 | filtering `[(false, a), (true, a)]` on the flag and mapping to the payload delivers exactly `[a]` (also the earlier suite, tests/IndefiniteObservableTests/ObservableTests.swift:156-170) |
| Operators.MapMotion | examples/OperatorExample.swift:87-95 | `MotionObservable.map` turns each `next(v)` into `next(transform(v))` and each `state(s)` into `state(s)`, one for one and in the same interleaving |
| Operators.MapMotionChannels | examples/OperatorExample.swift:87-95 | the `next` channel downstream is the upstream `next` channel mapped, and the `state` channel is forwarded unchanged and in order |
| Observers.DeliverAllAppend | src/IndefiniteObservable.swift:120-122 | successive `next` calls append their values one after another |
| Observers.DeliverAppend | tests/unit/ObservableTests.swift:173-179 | a terminal `{ valuesObserved.append(...) }` closure records each value it receives, in order |
| Observers.DeliverTransform | tests/unit/SimpleOperators.swift:42-45 | `map`'s wrapping observer passes `transform(v)` downstream for every `v`, in order |
| Observers.DeliverTest | tests/unit/SimpleOperators.swift:51-56 | `filter`'s wrapping observer passes downstream exactly the values that pass the test, in order |
| Observers.AnyObserver.constructor | src/IndefiniteObservable.swift:116-118 | the observer stores exactly the closure it is given (as `ValueObserver.init`, tests/unit/SimpleOperators.swift:25-27) |
| Observers.AnyObserver.Next | src/IndefiniteObservable.swift:120-122 | `next(value)` has exactly the effect of calling the wrapped closure with `value` |
| Generator.FirstIndex | tests/unit/ObservableTests.swift:150 | `index(where: { $0 === observer })` finds nothing iff the observer is absent; otherwise it returns an in-range index holding the observer, with no earlier occurrence |
| Generator.RemoveFirstAt | tests/unit/ObservableTests.swift:149-153 | removal drops the entry at the first occurrence and keeps the others in their relative order |
| Generator.RemoveFirstAbsent | tests/unit/ObservableTests.swift:150-152 | removing an unregistered observer leaves the list unchanged |
| Generator.RemoveFirstMultiset | tests/unit/ObservableTests.swift:149-153 | removal takes out exactly one occurrence of the observer, if there is one, and nothing else |
| Generator.RemoveFirstAfterAdd | tests/unit/ObservableTests.swift:145-153 | removing an observer that was just added, and was not registered before, restores the list |
| Generator.BroadcastAppend | tests/unit/ObservableTests.swift:155-159 | emitting to a concatenated list of observers emits to each part, in order |
| Generator.DeferredGenerator.constructor | tests/unit/ObservableTests.swift:160 | a new generator has no observers |
| Generator.DeferredGenerator.AddObserver | tests/unit/ObservableTests.swift:145-147 | `addObserver` appends the observer at the end and changes nothing else |
| Generator.DeferredGenerator.RemoveObserver | tests/unit/ObservableTests.swift:149-153 | `removeObserver` removes the first identical entry; an absent observer leaves the list unchanged (also the earlier copy, tests/IndefiniteObservableTests/ObservableTests.swift:177-181) |
| Generator.DeferredGenerator.Emit | tests/unit/ObservableTests.swift:155-159 | `emit(v)` calls `next(v)` on every registered observer in registration order, and does not modify the list (also tests/IndefiniteObservableTests/ObservableTests.swift:183-187) |
| IndefiniteObservable.RootSinkDelivers | tests/unit/SimpleOperators.swift:41-58 | for an operator chain of any depth, whatever the chain's head pushes reaches the subscriber transformed and filtered by the chain, in order |
| IndefiniteObservable.Connect | tests/unit/SimpleOperators.swift:42-56 | running a subscriber: a producer pushes its values and returns its teardown; a generator registers the observer; `map` and `filter` subscribe upstream exactly once and return that subscription's `unsubscribe` as their teardown |
| IndefiniteObservable.Subscribe | src/IndefiniteObservable.swift:68-79 | `subscribe` invokes the subscriber once. Values pushed synchronously reach `next` through the chain before it returns. The fresh subscription holds the observable and a teardown. Each operator adds exactly one upstream subscription. A generator-backed chain registers one fresh observer, whose removal is the pending teardown |
| IndefiniteObservable.UpstreamSubscription.constructor | src/IndefiniteObservable.swift:133-136 | a new subscription holds the observable and the `{ subscription?() }` closure, and nothing has been torn down yet |
| IndefiniteObservable.UpstreamSubscription.Unsubscribe | src/IndefiniteObservable.swift:138-142 | `unsubscribe` invokes the stored teardown, if any, exactly once, and clears both fields on every subscription of the operator chain it reaches. A repeated call invokes nothing and changes no subscription of the chain. Each subscription of the chain logs the teardown its own closure invoked, so each teardown runs at most once. A `noUnsubscription` subscription invokes nothing. A generator's observer is removed; a flag teardown raises its flag |
| Scenarios.SubscriptionReceivesValue | tests/unit/ObservableTests.swift:23-39 | a producer of 10 delivers `[10]` to its subscriber |
| Scenarios.TwoParallelSubscriptions | tests/unit/ObservableTests.swift:66-92 | two subscriptions each receive `[10]`; unsubscribing them invokes nothing (also tests/IndefiniteObservableTests/ObservableTests.swift:72-120 and tests/unit/ObservableTests.swift:41-64) |
| Scenarios.MappingValues | tests/unit/ObservableTests.swift:94-109 | `map { $0 * $0 }` on a producer of 10 delivers `[100]` |
| Scenarios.DoesNotUnsubscribeOnDeallocation | tests/IndefiniteObservableTests/ObservableTests.swift:41-55 | a subscription that is never unsubscribed has invoked no teardown: its log of invoked teardowns is empty, and the `{ didUnsubscribe = true }` teardown is still pending |
| Scenarios.UnsubscribesOnUnsubscribe | tests/IndefiniteObservableTests/ObservableTests.swift:57-70 | `unsubscribe` runs the teardown; with a second call, it has still run exactly once |
| Scenarios.MappedTeardownRunsOnce | tests/IndefiniteObservableTests/ObservableTests.swift:57-70 | through `map`, two `unsubscribe` calls run the producer's `{ didUnsubscribe = true }` teardown exactly once, on the distinct upstream subscription `map` made, which ends with both fields cleared (the operator's teardown being `.unsubscribe`, tests/unit/SimpleOperators.swift:43-45) |
| Scenarios.UnsubscribedOperatorReleasesChain | tests/unit/MemoryLeakTests.swift:100-121 | after unsubscribing from a mapped observable, neither the subscription nor the distinct upstream subscription `map` made still holds an observable, so nothing keeps the producer alive |
| Scenarios.UnsubscribedNestedChainReleasesEveryLevel | src/IndefiniteObservable.swift:138-142 | unsubscribing from two stacked `map`s clears both fields on three distinct subscriptions of its footprint, one per level of the chain (the operators' teardown is their upstream's `unsubscribe`, tests/unit/SimpleOperators.swift:43-45) |
| Scenarios.SubscribeTwiceToGenerator | tests/unit/ObservableTests.swift:163-180 | two subscriptions to a generator-backed observable register two distinct observers, in order, each removable by its own subscription |
| Scenarios.EmitToBoth | tests/unit/ObservableTests.swift:173-183 | one emission to the identity and doubling observers appends `[v, v * 2]` |
| Scenarios.Detach | tests/unit/ObservableTests.swift:166-171 | unsubscribing a generator subscription removes its observer from the generator |
| Scenarios.GeneratedValuesAreReceived | tests/unit/ObservableTests.swift:163-190 | emitting 5, 10 and 2 to the two subscriptions yields `[5, 10, 10, 20, 2, 4]` (also tests/IndefiniteObservableTests/ObservableTests.swift:191-215) |
| Scenarios.GeneratedValuesAreNotReceivedAfterUnsubscription | tests/unit/ObservableTests.swift:192-219 | after the doubling subscription unsubscribes, `emit(2)` reaches only the first: `[5, 10, 10, 20, 2]` (also tests/IndefiniteObservableTests/ObservableTests.swift:217-242) |
| Scenarios.GeneratedValuesAreNotReceivedAfterUnsubscriptionOrder2 | tests/unit/ObservableTests.swift:221-251 | after the plain subscription unsubscribes, the `map { $0 * 2 }` subscription alone receives `emit(2)`: `[5, 10, 10, 20, 4]` (also tests/IndefiniteObservableTests/ObservableTests.swift:244-272) |

## Left out

- Constructing an observable (src/IndefiniteObservable.swift:52-55) is only the construction of an `Observable` value, so it invokes nothing by construction. No member states this separately.
- `Operators.FilterValues`: its own contract bounds only the length. Membership in both directions and order are stated by `Operators.FilterValuesMembers`, `Operators.FilterValuesAppend` and `Observers.DeliverTest`.
- Swift generics and type erasure are not modelled. Values in the subscription model are `int`, because the tests use `Int`. The operator functions in `operators.dfy` are generic. `AnyObserver` and `ValueObserver` are one class.
- `CGPoint` and `CGFloat` payloads are not modelled (floating point). The `testMappingTypes` projection `$0.y` is an instance of the generic `Operators.MapValues`. `testFilteringValues` is stated over an arbitrary payload type by `Operators.FilteringValuesExample`.
- `MotionObservable.map` is modelled on the sequence of calls its observer receives. Its subscription and teardown follow the same path as `ValueObservable.map`, which is modelled in full.
- Observer closures are modelled by their only effect in the tests: the values they append. XCTest expectations (`fulfill`, `waitForExpectations`) are stated as the values delivered.
- Synchronous producers push a fixed list of values. Producers that call `next` from callbacks after `subscribe` returns are represented only by `DeferredGenerator`.
- Reentrant `unsubscribe` from inside a teardown or `next`, and thread safety, are not modelled. The source has no locking, and it runs the teardown before clearing the field, so repeated calls are proved to be no-ops only when made one after another.
- Swift's `Int` is 64 bits wide and traps on overflow; the model's `int` is unbounded, so the closures `$0 * $0` and `$0 * 2` never trap here. The values in the scenarios stay at 100 or below.
- ARC deallocation, `weak` references and `autoreleasepool` are not modelled (the MemoryLeakTests files). The only residue modelled is that a subscription no longer holds its observable after `unsubscribe`. Operators capturing only `self` (examples/OperatorExample.swift:124-129) is a retain-cycle concern, so it is not modelled either.
- The forwarding observer `AnyObserver { observer.next($0) }` is a separate object with the same behaviour as the observer it forwards to.
- The UIKit view controllers are not modelled, and neither is `examples/DelegateObservableExample.swift`. They are UI glue.
