/**
 * Observers: the sinks values are pushed into. An observer's `next` closure is
 * represented by a `Sink`, a description of what calling it does; the only
 * effect the closures in the system have is appending to a list of observed
 * values, so `Deliver` returns the values a call appends.
 */
module Observers {
  import opened Operators

  datatype Sink =
    | /** A terminal closure `{ valuesObserved.append(record($0)) }` given to `subscribe`. */
      Append(record: int -> int)
    | /** The observer `map(transform)` subscribes upstream with: `{ observer.next(transform($0)) }`. */
      Transform(transform: int -> int, down: Sink)
    | /** The observer `filter(passesTest)` subscribes upstream with: `{ if passesTest($0) { observer.next($0) } }`. */
      Test(passesTest: int -> bool, down: Sink)

  /** The values appended when `next(value)` is called on an observer with behaviour `sink`. */
  function Deliver(sink: Sink, value: int): seq<int> {
    match sink
    case Append(record) => [record(value)]
    case Transform(transform, down) => Deliver(down, transform(value))
    case Test(passesTest, down) => if passesTest(value) then Deliver(down, value) else []
  }

  /** The values appended when `next` is called with each of `values`, in order. */
  function DeliverAll(sink: Sink, values: seq<int>): seq<int> {
    if values == [] then [] else Deliver(sink, values[0]) + DeliverAll(sink, values[1..])
  }

  lemma {:induction false} DeliverAllAppend(sink: Sink, a: seq<int>, b: seq<int>)
    ensures DeliverAll(sink, a + b) == DeliverAll(sink, a) + DeliverAll(sink, b)
  {
    if a == [] {
      assert a + b == b;
    } else {
      assert (a + b)[0] == a[0] && (a + b)[1..] == a[1..] + b;
      DeliverAllAppend(sink, a[1..], b);
    }
  }

  /** A terminal closure records each value it is called with, in order. */
  lemma {:induction false} DeliverAppend(record: int -> int, values: seq<int>)
    ensures DeliverAll(Append(record), values) == MapValues(record, values)
  {
    if values != [] {
      DeliverAppend(record, values[1..]);
    }
  }

  /** `map`'s wrapping observer: downstream receives `transform(v)` for every upstream `v`, in order. */
  lemma {:induction false} DeliverTransform(transform: int -> int, down: Sink, values: seq<int>)
    ensures DeliverAll(Transform(transform, down), values) == DeliverAll(down, MapValues(transform, values))
  {
    if values != [] {
      DeliverTransform(transform, down, values[1..]);
    }
  }

  /** `filter`'s wrapping observer: downstream receives exactly the values passing the test, in order. */
  lemma {:induction false} DeliverTest(passesTest: int -> bool, down: Sink, values: seq<int>)
    ensures DeliverAll(Test(passesTest, down), values) == DeliverAll(down, FilterValues(passesTest, values))
  {
    if values != [] {
      DeliverTest(passesTest, down, values[1..]);
    }
  }

  /**
   * A type-erased observer (`AnyObserver`, and the tests' `ValueObserver`): an
   * object with reference identity whose `next` is a fixed closure.
   */
  class AnyObserver {
    const sink: Sink

    constructor (next: Sink)
      ensures sink == next
    {
      sink := next;
    }

    /** `next` forwards its argument unchanged to the wrapped closure. */
    method Next(value: int) returns (appended: seq<int>)
      ensures appended == DeliverAll(sink, [value])
    {
      appended := Deliver(sink, value);
      assert [value][1..] == [];
    }
  }
}
