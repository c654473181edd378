/**
 * What the event-processing step of DirectoryNotifier guarantees, proved
 * about the functions of module Watch.
 */
module WatchProperties {
  import opened Wrappers
  import opened Paths
  import opened Watch

  /**
   * One event either fires (not OVERFLOW, a payload, an acquired lock and a
   * path not yet notified: the path is added and the payload fired) or
   * leaves the state exactly as it was.
   */
  lemma HandleCases<T, L>(s: Log<T, L>, env: Env<T, L>, lock: Path -> LockOutcome, ev: WatchEvent)
    ensures var full := Resolve(env.dir, ev.context);
      if ev.kind != Overflow && env.transform(full).Some? && lock(full) == Acquired && full !in s.notified
      then Handle(s, env, lock, ev)
           == Log(s.notified + {full},
                  s.fired + [(full, env.transform(full).value)],
                  s.delivered + Broadcast(env.listeners, ChangedEvent(env.source, env.transform(full).value)))
      else Handle(s, env, lock, ev) == s
  {
  }

  lemma BroadcastSource<T, L>(listeners: seq<L>, e: ChangedEvent<T>)
    ensures forall d :: d in Broadcast(listeners, e) ==> d.1 == e
  {
  }

  lemma PathsOfAppend<T>(fired: seq<(Path, T)>, path: Path, payload: T)
    ensures PathsOf(fired + [(path, payload)]) == PathsOf(fired) + [path]
  {
  }

  /** notifyEvent keeps the notifier's state consistent: it fires only a path not yet in the set, and adds that path. */
  lemma NotifyPreservesConsistent<T, L>(s: Log<T, L>, path: Path, payload: T, lock: LockOutcome, listeners: seq<L>, source: object)
    requires Consistent(s, source)
    ensures Consistent(Notify(s, path, payload, lock, listeners, source), source)
  {
    if lock == Acquired && path !in s.notified {
      var n := Notify(s, path, payload, lock, listeners, source);
      PathsOfAppend(s.fired, path, payload);
      assert path !in PathsOf(s.fired);
      assert (set p | p in PathsOf(n.fired)) == (set p | p in PathsOf(s.fired)) + {path};
      BroadcastSource(listeners, ChangedEvent(source, payload));
    }
  }

  /** Handling one event keeps the notifier's state consistent. */
  lemma HandlePreservesConsistent<T, L>(s: Log<T, L>, env: Env<T, L>, lock: Path -> LockOutcome, ev: WatchEvent)
    requires Consistent(s, env.source)
    ensures Consistent(Handle(s, env, lock, ev), env.source)
  {
    var full := Resolve(env.dir, ev.context);
    if ev.kind != Overflow && env.transform(full).Some? {
      NotifyPreservesConsistent(s, full, env.transform(full).value, lock(full), env.listeners, env.source);
    }
  }

  /**
   * A batch keeps the state consistent: over the notifier's lifetime no
   * path is fired twice and the notified set holds exactly the fired paths.
   */
  lemma {:induction false} BatchPreservesConsistent<T, L>(s: Log<T, L>, env: Env<T, L>, lock: Path -> LockOutcome, events: seq<WatchEvent>)
    requires Consistent(s, env.source)
    ensures Consistent(Batch(s, env, lock, events), env.source)
    decreases |events|
  {
    if events != [] {
      HandlePreservesConsistent(s, env, lock, events[0]);
      BatchPreservesConsistent(Handle(s, env, lock, events[0]), env, lock, events[1..]);
    }
  }

  /** A batch only adds: the notified set grows, and both logs are extended, never rewritten. */
  lemma {:induction false} BatchGrows<T, L>(s: Log<T, L>, env: Env<T, L>, lock: Path -> LockOutcome, events: seq<WatchEvent>)
    ensures var b := Batch(s, env, lock, events);
      s.notified <= b.notified && s.fired <= b.fired && s.delivered <= b.delivered
    decreases |events|
  {
    if events != [] {
      HandleCases(s, env, lock, events[0]);
      BatchGrows(Handle(s, env, lock, events[0]), env, lock, events[1..]);
    }
  }

  /** Events are handled strictly in batch order: a batch is its prefix followed by its suffix. */
  lemma {:induction false} BatchSplit<T, L>(s: Log<T, L>, env: Env<T, L>, lock: Path -> LockOutcome, front: seq<WatchEvent>, back: seq<WatchEvent>)
    ensures Batch(s, env, lock, front + back) == Batch(Batch(s, env, lock, front), env, lock, back)
    decreases |front|
  {
    if front != [] {
      assert (front + back)[0] == front[0];
      assert (front + back)[1..] == front[1..] + back;
      BatchSplit(Handle(s, env, lock, front[0]), env, lock, front[1..], back);
    } else {
      assert front + back == back;
    }
  }

  /**
   * Every fire of a batch comes from one of its events: the path was not
   * notified before, it is the event's name resolved against the watched
   * directory, the payload is what the transform gave for it unchanged,
   * and its lock was acquired.
   */
  lemma {:induction false} BatchFiresOnlyCompleted<T, L>(s: Log<T, L>, env: Env<T, L>, lock: Path -> LockOutcome, events: seq<WatchEvent>)
    ensures var b := Batch(s, env, lock, events);
      |s.fired| <= |b.fired| &&
      forall k :: |s.fired| <= k < |b.fired| ==>
        b.fired[k].0 !in s.notified &&
        exists i :: 0 <= i < |events| && Completed(env, lock, events[i], b.fired[k].0, b.fired[k].1)
    decreases |events|
  {
    BatchGrows(s, env, lock, events);
    if events != [] {
      var h := Handle(s, env, lock, events[0]);
      var b := Batch(s, env, lock, events);
      HandleCases(s, env, lock, events[0]);
      BatchFiresOnlyCompleted(h, env, lock, events[1..]);
      forall k | |s.fired| <= k < |b.fired|
        ensures b.fired[k].0 !in s.notified
        ensures exists i :: 0 <= i < |events| && Completed(env, lock, events[i], b.fired[k].0, b.fired[k].1)
      {
        if k < |h.fired| {
          BatchGrows(h, env, lock, events[1..]);
          assert b.fired[k] == h.fired[k];
          assert Completed(env, lock, events[0], b.fired[k].0, b.fired[k].1);
        } else {
          var i :| 0 <= i < |events[1..]| && Completed(env, lock, events[1..][i], b.fired[k].0, b.fired[k].1);
          assert Completed(env, lock, events[i + 1], b.fired[k].0, b.fired[k].1);
        }
      }
    }
  }

  /**
   * Conversely, every event whose path has a payload and an acquired lock
   * ends the batch in the notified set (now or from an earlier fire).
   */
  lemma {:induction false} BatchNotifiesCompleted<T, L>(s: Log<T, L>, env: Env<T, L>, lock: Path -> LockOutcome, events: seq<WatchEvent>)
    ensures forall i, x :: 0 <= i < |events| && Completed(env, lock, events[i], Resolve(env.dir, events[i].context), x) ==>
      Resolve(env.dir, events[i].context) in Batch(s, env, lock, events).notified
    decreases |events|
  {
    if events != [] {
      var h := Handle(s, env, lock, events[0]);
      HandleCases(s, env, lock, events[0]);
      BatchGrows(h, env, lock, events[1..]);
      BatchNotifiesCompleted(h, env, lock, events[1..]);
      forall i, x | 0 <= i < |events| && Completed(env, lock, events[i], Resolve(env.dir, events[i].context), x)
        ensures Resolve(env.dir, events[i].context) in Batch(s, env, lock, events).notified
      {
        if i > 0 {
          assert events[i] == events[1..][i - 1];
        }
      }
    }
  }

  /** The listener callbacks of a batch are, in order, one broadcast to every listener per fire of that batch. */
  lemma {:induction false} BatchDeliversFires<T, L>(s: Log<T, L>, env: Env<T, L>, lock: Path -> LockOutcome, events: seq<WatchEvent>)
    ensures var b := Batch(s, env, lock, events);
      |s.fired| <= |b.fired| &&
      b.delivered == s.delivered + Broadcasts(env.listeners, env.source, b.fired[|s.fired|..])
    decreases |events|
  {
    BatchGrows(s, env, lock, events);
    if events != [] {
      var h := Handle(s, env, lock, events[0]);
      var b := Batch(s, env, lock, events);
      HandleCases(s, env, lock, events[0]);
      BatchGrows(h, env, lock, events[1..]);
      BatchDeliversFires(h, env, lock, events[1..]);
      if |h.fired| != |s.fired| {
        var added := b.fired[|s.fired|..];
        assert added[0] == h.fired[|s.fired|];
        assert added[1..] == b.fired[|h.fired|..];
      } else {
        assert h == s;
      }
    }
  }

  /** A transform that never yields a value makes a batch change nothing. */
  lemma {:induction false} BatchWithoutPayloadsChangesNothing<T, L>(s: Log<T, L>, env: Env<T, L>, lock: Path -> LockOutcome, events: seq<WatchEvent>)
    requires forall p :: env.transform(p).None?
    ensures Batch(s, env, lock, events) == s
    decreases |events|
  {
    if events != [] {
      BatchWithoutPayloadsChangesNothing(Handle(s, env, lock, events[0]), env, lock, events[1..]);
    }
  }

  /** A batch in which no lock is ever acquired changes nothing. */
  lemma {:induction false} BatchWithoutLocksChangesNothing<T, L>(s: Log<T, L>, env: Env<T, L>, lock: Path -> LockOutcome, events: seq<WatchEvent>)
    requires forall p :: lock(p) != Acquired
    ensures Batch(s, env, lock, events) == s
    decreases |events|
  {
    if events != [] {
      BatchWithoutLocksChangesNothing(Handle(s, env, lock, events[0]), env, lock, events[1..]);
    }
  }

  /** In a sequence without repeats every element occurs at most once. */
  lemma {:induction false} DistinctAtMostOnce<X>(xs: seq<X>, x: X)
    requires Distinct(xs)
    ensures multiset(xs)[x] <= 1
  {
    if xs != [] {
      assert xs == [xs[0]] + xs[1..];
      assert Distinct(xs[1..]) by {
        forall i, j | 0 <= i < j < |xs[1..]| ensures xs[1..][i] != xs[1..][j] {
          assert xs[1..][i] == xs[i + 1] && xs[1..][j] == xs[j + 1];
        }
      }
      DistinctAtMostOnce(xs[1..], x);
      if xs[0] == x {
        assert x !in xs[1..] by {
          forall j | 0 <= j < |xs[1..]| ensures xs[1..][j] != x {
            assert xs[1..][j] == xs[j + 1];
          }
        }
      }
    }
  }

  /**
   * In a consistent state a path is in the notified set exactly when it
   * has been fired, and it has been fired at most once.
   */
  lemma FiredAtMostOnce<T, L>(s: Log<T, L>, source: object, path: Path)
    requires Consistent(s, source)
    ensures path in s.notified <==> path in PathsOf(s.fired)
    ensures multiset(PathsOf(s.fired))[path] <= 1
  {
    DistinctAtMostOnce(PathsOf(s.fired), path);
  }

  /** A take after which the loop goes on: a key whose reset() says valid. */
  predicate Continues(t: Take)
  {
    t.Signalled? && t.key.resetValid
  }

  /** Why the loop stops at a take that does not let it go on. */
  function HaltOf(t: Take): Halt
  {
    match t
    case TakeInterrupted => Interrupted
    case TakeClosed => ServiceClosed
    case Signalled(_) => KeyInvalidated
  }

  /**
   * The loop stops at the first take that is an interrupt, a close, or a
   * key whose reset() is invalid (that key's batch is still handled), and
   * whatever follows that take has no effect.
   */
  lemma {:induction false} WatchingStopsAtFirstHalt<T, L>(s: Log<T, L>, env: Env<T, L>, takes: seq<Take>, k: nat)
    requires k < |takes| && !Continues(takes[k])
    requires forall j :: 0 <= j < k ==> Continues(takes[j])
    ensures Watching(s, env, takes).1 == HaltOf(takes[k])
    ensures Watching(s, env, takes) == Watching(s, env, takes[..k + 1])
    decreases k
  {
    var t := takes[..k + 1];
    assert t[0] == takes[0];
    if k > 0 {
      var next := Batch(s, env, takes[0].key.lock, takes[0].key.events);
      assert t[1..] == takes[1..][..k];
      WatchingStopsAtFirstHalt(next, env, takes[1..], k - 1);
    }
  }

  /** The watch loop keeps the state consistent: each path fires at most once over the whole run. */
  lemma {:induction false} WatchingPreservesConsistent<T, L>(s: Log<T, L>, env: Env<T, L>, takes: seq<Take>)
    requires Consistent(s, env.source)
    ensures Consistent(Watching(s, env, takes).0, env.source)
    decreases |takes|
  {
    if takes != [] && takes[0].Signalled? {
      var key := takes[0].key;
      BatchPreservesConsistent(s, env, key.lock, key.events);
      WatchingPreservesConsistent(Batch(s, env, key.lock, key.events), env, takes[1..]);
    }
  }

  /** Over the watch loop the notified set only grows and both logs are only extended. */
  lemma {:induction false} WatchingGrows<T, L>(s: Log<T, L>, env: Env<T, L>, takes: seq<Take>)
    ensures var w := Watching(s, env, takes).0;
      s.notified <= w.notified && s.fired <= w.fired && s.delivered <= w.delivered
    decreases |takes|
  {
    if takes != [] && takes[0].Signalled? {
      var key := takes[0].key;
      BatchGrows(s, env, key.lock, key.events);
      WatchingGrows(Batch(s, env, key.lock, key.events), env, takes[1..]);
    }
  }

  /** Every payload the loop fires is exactly what the transform gave for the fired path. */
  lemma {:induction false} WatchingFiresTransformPayloads<T, L>(s: Log<T, L>, env: Env<T, L>, takes: seq<Take>)
    ensures var w := Watching(s, env, takes).0;
      |s.fired| <= |w.fired| &&
      forall k :: |s.fired| <= k < |w.fired| ==> env.transform(w.fired[k].0) == Some(w.fired[k].1)
    decreases |takes|
  {
    WatchingGrows(s, env, takes);
    if takes != [] && takes[0].Signalled? {
      var key := takes[0].key;
      var b := Batch(s, env, key.lock, key.events);
      var w := Watching(s, env, takes).0;
      BatchFiresOnlyCompleted(s, env, key.lock, key.events);
      WatchingGrows(b, env, takes[1..]);
      WatchingFiresTransformPayloads(b, env, takes[1..]);
      forall k | |s.fired| <= k < |w.fired| ensures env.transform(w.fired[k].0) == Some(w.fired[k].1) {
        if k < |b.fired| {
          assert w.fired[k] == b.fired[k];
          var i :| 0 <= i < |key.events| && Completed(env, key.lock, key.events[i], b.fired[k].0, b.fired[k].1);
        }
      }
    }
  }

  /** With the identity transform of observe(Path), every fired payload is the fired path itself. */
  lemma DefaultTransformFiresPaths<L>(s: Log<Path, L>, env: Env<Path, L>, takes: seq<Take>)
    requires forall p :: env.transform(p) == DefaultTransform(p)
    ensures var w := Watching(s, env, takes).0;
      |s.fired| <= |w.fired| &&
      forall k :: |s.fired| <= k < |w.fired| ==> w.fired[k].1 == w.fired[k].0
  {
    WatchingFiresTransformPayloads(s, env, takes);
  }

  /** A transform that never yields a value makes the whole loop change nothing. */
  lemma {:induction false} WatchingWithoutPayloadsChangesNothing<T, L>(s: Log<T, L>, env: Env<T, L>, takes: seq<Take>)
    requires forall p :: env.transform(p).None?
    ensures Watching(s, env, takes).0 == s
    decreases |takes|
  {
    if takes != [] && takes[0].Signalled? {
      var key := takes[0].key;
      BatchWithoutPayloadsChangesNothing(s, env, key.lock, key.events);
      WatchingWithoutPayloadsChangesNothing(s, env, takes[1..]);
    }
  }
}
