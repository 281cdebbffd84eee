/**
 * What the `map` and `filter` operators do to the sequence of values an upstream
 * producer emits, and what `MotionObservable.map` does to a mixed sequence of
 * `next` and `state` calls. These functions are the reference definitions the
 * observer-level model is proved against.
 */
module Operators {

  /** The values `map(transform)` delivers downstream for upstream values `s`. */
  function MapValues<T, U>(transform: T -> U, s: seq<T>): (r: seq<U>)
    ensures |r| == |s|
    ensures forall i :: 0 <= i < |s| ==> r[i] == transform(s[i])
  {
    if s == [] then [] else [transform(s[0])] + MapValues(transform, s[1..])
  }

  /** The values `filter(passesTest)` delivers downstream for upstream values `s`. */
  function FilterValues<T>(passesTest: T -> bool, s: seq<T>): (r: seq<T>)
    ensures |r| <= |s|
  {
    if s == [] then []
    else if passesTest(s[0]) then [s[0]] + FilterValues(passesTest, s[1..])
    else FilterValues(passesTest, s[1..])
  }

  lemma {:induction false} MapValuesAppend<T, U>(transform: T -> U, a: seq<T>, b: seq<T>)
    ensures MapValues(transform, a + b) == MapValues(transform, a) + MapValues(transform, b)
  {
    if a != [] {
      assert (a + b)[1..] == a[1..] + b;
      MapValuesAppend(transform, a[1..], b);
    } else {
      assert a + b == b;
    }
  }

  /** Emissions reach downstream one at a time: filtering a concatenation filters each part, in order. */
  lemma {:induction false} FilterValuesAppend<T>(passesTest: T -> bool, a: seq<T>, b: seq<T>)
    ensures FilterValues(passesTest, a + b) == FilterValues(passesTest, a) + FilterValues(passesTest, b)
  {
    if a != [] {
      assert (a + b)[0] == a[0] && (a + b)[1..] == a[1..] + b;
      FilterValuesAppend(passesTest, a[1..], b);
      if passesTest(a[0]) {
        assert FilterValues(passesTest, a + b) == [a[0]] + FilterValues(passesTest, a[1..] + b);
      } else {
        assert FilterValues(passesTest, a + b) == FilterValues(passesTest, a[1..] + b);
      }
    } else {
      assert a + b == b;
    }
  }

  /** A value passes `filter` unchanged exactly when it satisfies the predicate: a one-element emission. */
  lemma FilterValuesSingle<T>(passesTest: T -> bool, v: T)
    ensures FilterValues(passesTest, [v]) == if passesTest(v) then [v] else []
  {
    assert [v][1..] == [];
  }

  /** `filter` delivers exactly the upstream values that satisfy the predicate; all pass or none pass are the two extremes. */
  lemma {:induction false} FilterValuesMembers<T>(passesTest: T -> bool, s: seq<T>)
    ensures forall x :: x in FilterValues(passesTest, s) <==> x in s && passesTest(x)
    ensures (forall x :: x in s ==> passesTest(x)) ==> FilterValues(passesTest, s) == s
    ensures (forall x :: x in s ==> !passesTest(x)) ==> FilterValues(passesTest, s) == []
  {
    if s != [] {
      FilterValuesMembers(passesTest, s[1..]);
    }
  }

  /** A chain of two maps delivers the composed transform of each value. */
  lemma {:induction false} MapMapFusion<T, U, W>(f: T -> U, g: U -> W, s: seq<T>)
    ensures MapValues(g, MapValues(f, s)) == MapValues(x => g(f(x)), s)
  {
    if s != [] {
      MapMapFusion(f, g, s[1..]);
    }
  }

  /**
   * The chain `filter(p).map(f).map(g)` delivers `g(f(v))` for exactly the
   * upstream values `v` with `p(v)`, in order.
   */
  lemma FilterMapMapChain<T, U, W>(p: T -> bool, f: T -> U, g: U -> W, s: seq<T>)
    ensures MapValues(g, MapValues(f, FilterValues(p, s))) == MapValues(x => g(f(x)), FilterValues(p, s))
    ensures forall y :: y in MapValues(g, MapValues(f, FilterValues(p, s))) <==> exists v :: v in s && p(v) && y == g(f(v))
  {
    MapMapFusion(f, g, FilterValues(p, s));
    FilterValuesMembers(p, s);
    var r := MapValues(x => g(f(x)), FilterValues(p, s));
    forall y ensures y in r <==> exists v :: v in s && p(v) && y == g(f(v)) {
      if y in r {
        var i :| 0 <= i < |r| && r[i] == y;
        var v := FilterValues(p, s)[i];
        assert v in FilterValues(p, s);
      }
      if exists v :: v in s && p(v) && y == g(f(v)) {
        var v :| v in s && p(v) && y == g(f(v));
        assert v in FilterValues(p, s);
        var i :| 0 <= i < |FilterValues(p, s)| && FilterValues(p, s)[i] == v;
        assert r[i] == y;
      }
    }
  }

  /**
   * The filtering test: a producer emits `(false, a)` then `(true, a)`;
   * filtering on the flag and mapping to the payload delivers exactly `[a]`.
   */
  lemma FilteringValuesExample<P>(a: P)
    ensures MapValues((x: (bool, P)) => x.1, FilterValues((x: (bool, P)) => x.0, [(false, a), (true, a)])) == [a]
  {
    var s := [(false, a), (true, a)];
    assert s[1..] == [(true, a)];
    assert s[1..][1..] == [];
  }

  // MotionObservable: an observer with two channels, `next` and `state`.

  datatype MotionState = AtRest | Active

  /** One call the upstream producer makes on a `MotionObserver`. */
  datatype MotionEvent<T> = Next(value: T) | State(state: MotionState)

  /**
   * The calls the downstream `MotionObserver` receives from `MotionObservable.map(transform)`
   * when the upstream makes the calls `es`: each `next` value is transformed, each `state` is
   * forwarded unchanged, and the interleaving is kept.
   */
  function MapMotion<T, U>(transform: T -> U, es: seq<MotionEvent<T>>): (r: seq<MotionEvent<U>>)
    ensures |r| == |es|
    ensures forall i :: 0 <= i < |es| ==>
      (es[i].Next? ==> r[i] == Next(transform(es[i].value))) &&
      (es[i].State? ==> r[i] == State(es[i].state))
  {
    if es == [] then []
    else
      var head := match es[0]
        case Next(v) => Next(transform(v))
        case State(s) => State(s);
      [head] + MapMotion(transform, es[1..])
  }

  /** The values received on the `next` channel, in order. */
  function NextValues<T>(es: seq<MotionEvent<T>>): seq<T> {
    if es == [] then []
    else if es[0].Next? then [es[0].value] + NextValues(es[1..])
    else NextValues(es[1..])
  }

  /** The values received on the `state` channel, in order. */
  function States<T>(es: seq<MotionEvent<T>>): seq<MotionState> {
    if es == [] then []
    else if es[0].State? then [es[0].state] + States(es[1..])
    else States(es[1..])
  }

  /** `MotionObservable.map` maps the `next` channel and forwards the `state` channel unchanged, in order. */
  lemma {:induction false} MapMotionChannels<T, U>(transform: T -> U, es: seq<MotionEvent<T>>)
    ensures NextValues(MapMotion(transform, es)) == MapValues(transform, NextValues(es))
    ensures States(MapMotion(transform, es)) == States(es)
  {
    if es != [] {
      MapMotionChannels(transform, es[1..]);
      assert MapMotion(transform, es)[1..] == MapMotion(transform, es[1..]);
    }
  }
}
