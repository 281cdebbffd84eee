/**
 * `DeferredGenerator`, the multi-observer producer used by the tests: a list of
 * observers with reference identity that `emit` pushes each value to.
 */
module Generator {
  import opened Wrappers
  import opened Observers

  /** The first index of `observer` in `s`, compared by identity (`index(where: { $0 === observer })`). */
  function FirstIndex(s: seq<AnyObserver>, observer: AnyObserver): (r: Option<nat>)
    ensures r.None? <==> observer !in s
    ensures r.Some? ==> r.value < |s| && s[r.value] == observer && observer !in s[..r.value]
  {
    if s == [] then None
    else if s[0] == observer then Some(0)
    else
      match FirstIndex(s[1..], observer)
      case None => None
      case Some(i) =>
        assert s[..i + 1] == [s[0]] + s[1..][..i];
        Some(i + 1)
  }

  /** Reference definition of removal: drop the first entry identical to `observer`. */
  function RemoveFirst(s: seq<AnyObserver>, observer: AnyObserver): seq<AnyObserver> {
    if s == [] then []
    else if s[0] == observer then s[1..]
    else [s[0]] + RemoveFirst(s[1..], observer)
  }

  /** Removal takes out the entry at the first occurrence and keeps the others in their relative order. */
  lemma {:induction false} RemoveFirstAt(s: seq<AnyObserver>, observer: AnyObserver, i: nat)
    requires i < |s| && s[i] == observer && observer !in s[..i]
    ensures RemoveFirst(s, observer) == s[..i] + s[i + 1..]
  {
    if i > 0 {
      assert s[0] in s[..i];
      assert s[1..][..i - 1] == s[1..i];
      RemoveFirstAt(s[1..], observer, i - 1);
      assert s[..i] == [s[0]] + s[1..i];
      assert s[i + 1..] == s[1..][i..];
    }
  }

  /** Removing an observer that is not registered leaves the list unchanged. */
  lemma {:induction false} RemoveFirstAbsent(s: seq<AnyObserver>, observer: AnyObserver)
    requires observer !in s
    ensures RemoveFirst(s, observer) == s
  {
    if s != [] {
      assert s[0] != observer;
      RemoveFirstAbsent(s[1..], observer);
    }
  }

  /** Removal drops exactly one occurrence of a registered observer and nothing else. */
  lemma {:induction false} RemoveFirstMultiset(s: seq<AnyObserver>, observer: AnyObserver)
    ensures multiset(RemoveFirst(s, observer)) == multiset(s) - multiset{observer}
  {
    if s != [] {
      assert s == [s[0]] + s[1..];
      assert multiset(s) == multiset{s[0]} + multiset(s[1..]);
      if s[0] != observer {
        RemoveFirstMultiset(s[1..], observer);
        assert multiset(RemoveFirst(s, observer)) == multiset{s[0]} + multiset(RemoveFirst(s[1..], observer));
      }
    }
  }

  /** Removing an observer just added, and not registered before, restores the list: `removeObserver` undoes `addObserver`. */
  lemma RemoveFirstAfterAdd(s: seq<AnyObserver>, observer: AnyObserver)
    requires observer !in s
    ensures RemoveFirst(s + [observer], observer) == s
  {
    assert (s + [observer])[..|s|] == s;
    RemoveFirstAt(s + [observer], observer, |s|);
    assert (s + [observer])[|s| + 1..] == [];
  }

  /** The values appended when every observer of `observers` is called with `value`, in list order. */
  function Broadcast(observers: seq<AnyObserver>, value: int): seq<int> {
    if observers == [] then [] else Deliver(observers[0].sink, value) + Broadcast(observers[1..], value)
  }

  lemma {:induction false} BroadcastAppend(a: seq<AnyObserver>, b: seq<AnyObserver>, value: int)
    ensures Broadcast(a + b, value) == Broadcast(a, value) + Broadcast(b, value)
  {
    if a == [] {
      assert a + b == b;
    } else {
      assert (a + b)[0] == a[0] && (a + b)[1..] == a[1..] + b;
      BroadcastAppend(a[1..], b, value);
    }
  }

  class DeferredGenerator {
    var observers: seq<AnyObserver>

    constructor ()
      ensures observers == []
    {
      observers := [];
    }

    /** `addObserver` appends at the end and changes nothing else. */
    method AddObserver(observer: AnyObserver)
      modifies this
      ensures observers == old(observers) + [observer]
    {
      observers := observers + [observer];
    }

    /** `removeObserver` removes the first identical entry, if there is one. */
    method RemoveObserver(observer: AnyObserver)
      modifies this
      ensures observers == RemoveFirst(old(observers), observer)
      ensures observer !in old(observers) ==> observers == old(observers)
    {
      var index := FirstIndex(observers, observer);
      if index.Some? {
        RemoveFirstAt(observers, observer, index.value);
        observers := observers[..index.value] + observers[index.value + 1..];
      } else {
        RemoveFirstAbsent(observers, observer);
      }
    }

    /** `emit` calls `next(value)` on every registered observer, in registration order. */
    method Emit(value: int) returns (delivered: seq<int>)
      ensures delivered == Broadcast(observers, value)
    {
      delivered := [];
      for i := 0 to |observers|
        invariant delivered == Broadcast(observers[..i], value)
      {
        var appended := observers[i].Next(value);
        assert observers[..i + 1] == observers[..i] + [observers[i]];
        BroadcastAppend(observers[..i], [observers[i]], value);
        assert [observers[i]][1..] == [];
        assert [value][1..] == [];
        delivered := delivered + appended;
      }
      assert observers[..|observers|] == observers;
    }
  }
}
