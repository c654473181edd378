/**
 * The listener list that every DirectoryNotifier broadcasts through
 * (notifier/Listener.java): an ArrayList of listeners guarded by a
 * ReentrantReadWriteLock. Only one thread is modelled, so the lock is
 * reduced to the hold count of its write lock.
 */
module Listeners {

  /**
   * List.indexOf: the position of the first element equal to `x`, with
   * |s| (rather than -1) when there is none.
   */
  function IndexOf<X(==)>(s: seq<X>, x: X): (i: nat)
    ensures i <= |s|
    ensures i < |s| ==> s[i] == x
    ensures forall j :: 0 <= j < i ==> s[j] != x
    ensures i == |s| <==> x !in s
  {
    if s == [] then 0
    else if s[0] == x then 0
    else 1 + IndexOf(s[1..], x)
  }

  /** List.remove(Object): drop the first element equal to `x`, if any. */
  function RemoveFirst<X(==)>(s: seq<X>, x: X): (r: seq<X>)
    ensures |r| == if x in s then |s| - 1 else |s|
  {
    if s == [] then []
    else if s[0] == x then s[1..]
    else [s[0]] + RemoveFirst(s[1..], x)
  }

  /** Exactly one copy of `x` goes, and only if there was one. */
  lemma {:induction false} RemoveFirstMultiset<X>(s: seq<X>, x: X)
    ensures multiset(RemoveFirst(s, x)) == multiset(s) - multiset{x}
  {
    if s != [] {
      assert s == [s[0]] + s[1..];
      if s[0] != x {
        RemoveFirstMultiset(s[1..], x);
      }
    }
  }

  /** Removing an absent listener leaves the list as it was. */
  lemma {:induction false} RemoveFirstAbsent<X>(s: seq<X>, x: X)
    requires x !in s
    ensures RemoveFirst(s, x) == s
  {
    if s != [] {
      RemoveFirstAbsent(s[1..], x);
    }
  }

  /**
   * Removing a present listener deletes exactly its first occurrence and
   * keeps every other element in its relative order.
   */
  lemma {:induction false} RemoveFirstPresent<X>(s: seq<X>, x: X)
    requires x in s
    ensures RemoveFirst(s, x) == s[..IndexOf(s, x)] + s[IndexOf(s, x) + 1..]
  {
    if s[0] != x {
      RemoveFirstPresent(s[1..], x);
      var i := IndexOf(s[1..], x);
      assert s[..i + 1] == [s[0]] + s[1..][..i];
      assert s[i + 2..] == s[1..][i + 1..];
    }
  }

  /** Adding a listener that was not registered and then removing it gives back the old list. */
  lemma {:induction false} AddThenRemoveRestores<X>(s: seq<X>, x: X)
    requires x !in s
    ensures RemoveFirst(s + [x], x) == s
  {
    if s != [] {
      assert (s + [x])[1..] == s[1..] + [x];
      AddThenRemoveRestores(s[1..], x);
    }
  }

  /**
   * A listener registered once is no longer in the list after its removal,
   * so no later notifyListeners reaches it.
   */
  lemma RemovedOnceIsGone<X>(s: seq<X>, x: X)
    requires multiset(s)[x] == 1
    ensures x !in RemoveFirst(s, x)
  {
    RemoveFirstMultiset(s, x);
  }

  class ListenerList<L(==)> {
    /** The `listeners` ArrayList. */
    var listeners: seq<L>
    /** How many times the write lock is held (0 = free). */
    var writeHolds: nat

    constructor ()
      ensures listeners == [] && writeHolds == 0
    {
      listeners := [];
      writeHolds := 0;
    }

    /** addListener: append under the write lock, then release it. */
    method AddListener(listener: L)
      modifies this
      ensures listeners == old(listeners) + [listener]
      ensures writeHolds == old(writeHolds)
    {
      writeHolds := writeHolds + 1;
      listeners := listeners + [listener];
      writeHolds := writeHolds - 1;
    }

    /**
     * removeListener as written: the write lock is taken before the removal
     * and taken a second time after it, and never released.
     */
    method RemoveListener(listener: L)
      modifies this
      ensures listeners == RemoveFirst(old(listeners), listener)
      ensures writeHolds == old(writeHolds) + 2
    {
      writeHolds := writeHolds + 1;
      listeners := RemoveFirst(listeners, listener);
      writeHolds := writeHolds + 1;
    }

    /** removeListener with the second `lock()` read as the intended `unlock()`. */
    method RemoveListenerReleasing(listener: L)
      modifies this
      ensures listeners == RemoveFirst(old(listeners), listener)
      ensures writeHolds == old(writeHolds)
    {
      writeHolds := writeHolds + 1;
      listeners := RemoveFirst(listeners, listener);
      writeHolds := writeHolds - 1;
    }

    /**
     * notifyListeners: hand every listener, in list order, to `consumer`.
     * The consumer's side effect on each listener is recorded as the value
     * it returns; the list itself is only read.
     */
    method NotifyListeners<A>(consumer: L -> A) returns (effects: seq<A>)
      ensures |effects| == |listeners|
      ensures forall k :: 0 <= k < |listeners| ==> effects[k] == consumer(listeners[k])
    {
      effects := [];
      var i := 0;
      while i < |listeners|
        invariant 0 <= i <= |listeners|
        invariant |effects| == i
        invariant forall k :: 0 <= k < i ==> effects[k] == consumer(listeners[k])
      {
        effects := effects + [consumer(listeners[i])];
        i := i + 1;
      }
    }
  }

  /**
   * A single add and remove of one listener, as written, leaves the write
   * lock held twice: no other thread can take it again.
   */
  method RemoveLeavesWriteLockHeld() returns (holds: nat)
    ensures holds == 2
  {
    var list := new ListenerList<int>();
    list.AddListener(7);
    list.RemoveListener(7);
    assert list.listeners == [] by {
      assert RemoveFirst([7], 7) == [];
    }
    holds := list.writeHolds;
  }

  /** The same calls with the corrected removal leave the write lock free. */
  method RemoveReleasesWriteLock() returns (holds: nat)
    ensures holds == 0
  {
    var list := new ListenerList<int>();
    list.AddListener(7);
    list.RemoveListenerReleasing(7);
    holds := list.writeHolds;
  }
}
