/**
 * notifier/DirectoryNotifier.java: watches one directory for ENTRY_CREATE
 * events and, once a new file can be locked, fires the transformed payload
 * once per path to the notifier's listeners.
 */
module Notifier {
  import opened Wrappers
  import opened Paths
  import opened Listeners
  import opened Watch
  import opened WatchProperties

  class DirectoryNotifier<T, L(==)> {
    /** The inherited Listener state (composition in place of `extends Listener`). */
    const registry: ListenerList<L>
    /** Whether the WatchService is still open. */
    var serviceOpen: bool
    /** The register(watchService, kind) calls made, in order. */
    var registrations: seq<(Path, EventKind)>
    /** The keys of `alreadyNotitfiedFiles` (every value is `true`). */
    var notified: set<Path>
    /** One entry per fireDirectoryChangedEvent call: the path and its payload. */
    var fired: seq<(Path, T)>
    /** One entry per onDirectoryChanged callback: the listener and the event it was given. */
    var delivered: seq<(L, ChangedEvent<T>)>

    ghost function State(): Log<T, L>
      reads this
    {
      Log(notified, fired, delivered)
    }

    ghost predicate Valid()
      reads this
    {
      Consistent(State(), this)
    }

    /** A new notifier: an open watch service, no listeners, nothing notified. */
    constructor ()
      ensures Valid() && serviceOpen && registrations == []
      ensures notified == {} && fired == [] && delivered == []
      ensures fresh(registry) && registry.listeners == [] && registry.writeHolds == 0
    {
      registry := new ListenerList<L>();
      serviceOpen := true;
      registrations := [];
      notified := {};
      fired := [];
      delivered := [];
    }

    /**
     * observe(watchedPath, transform): reject null arguments and a path that
     * is not a directory, register for ENTRY_CREATE, then run the watch loop
     * over the given take() results.
     */
    method Observe(dir: Option<Path>, transform: Option<Path -> Option<T>>, isDirectory: bool, takes: seq<Take>)
      returns (exit: Exit)
      requires Valid()
      modifies this
      ensures Valid()
      ensures dir.None? || transform.None? ==> exit == Threw(NullArgument) && unchanged(this)
      ensures dir.Some? && transform.Some? && !isDirectory ==> exit == Threw(IllegalArgument) && unchanged(this)
      ensures dir.Some? && transform.Some? && isDirectory && !old(serviceOpen) ==>
        exit == Threw(ClosedWatchService) && unchanged(this)
      ensures dir.Some? && transform.Some? && isDirectory && old(serviceOpen) ==>
        var run := Watching(old(State()), Env(dir.value, transform.value, registry.listeners, this), takes);
        && registrations == old(registrations) + [(dir.value, EntryCreate)]
        && State() == run.0
        && serviceOpen == (run.1 != ServiceClosed)
        && exit == (match run.1
                    case Interrupted => Returned(true)
                    case NoHalt => Blocked
                    case _ => Returned(false))
    {
      if dir.None? || transform.None? {
        return Threw(NullArgument);
      }
      var watchedPath, generate := dir.value, transform.value;
      if !isDirectory {
        return Threw(IllegalArgument);
      }
      if !serviceOpen {
        return Threw(ClosedWatchService);
      }
      registrations := registrations + [(watchedPath, EntryCreate)];
      ghost var env := Env(watchedPath, generate, registry.listeners, this);
      var i := 0;
      while i < |takes|
        invariant 0 <= i <= |takes|
        invariant Valid() && serviceOpen
        invariant registrations == old(registrations) + [(watchedPath, EntryCreate)]
        invariant Watching(State(), env, takes[i..]) == Watching(old(State()), env, takes)
      {
        assert takes[i..][0] == takes[i] && takes[i..][1..] == takes[i + 1..];
        match takes[i] {
          case TakeInterrupted =>
            // the interrupt flag cleared by take() is set again
            return Returned(true);
          case TakeClosed =>
            serviceOpen := false;
            return Returned(false);
          case Signalled(key) =>
            ExtractEventToNotify(watchedPath, generate, key);
            if !key.resetValid {
              return Returned(false);
            }
        }
        i := i + 1;
      }
      return Blocked;
    }

    /** extractEventToNotify: handle the key's events in order. */
    method ExtractEventToNotify(watchedPath: Path, transform: Path -> Option<T>, key: WatchKey)
      requires Valid()
      modifies this
      ensures Valid()
      ensures State() == Batch(old(State()), Env(watchedPath, transform, registry.listeners, this), key.lock, key.events)
      ensures serviceOpen == old(serviceOpen) && registrations == old(registrations)
    {
      var events := key.events;
      ghost var env := Env(watchedPath, transform, registry.listeners, this);
      var i := 0;
      while i < |events|
        invariant 0 <= i <= |events|
        invariant Valid()
        invariant serviceOpen == old(serviceOpen) && registrations == old(registrations)
        invariant Batch(State(), env, key.lock, events[i..]) == Batch(old(State()), env, key.lock, events)
      {
        assert events[i..][0] == events[i] && events[i..][1..] == events[i + 1..];
        var event := events[i];
        if event.kind != Overflow {
          var fullPath := Resolve(watchedPath, event.context);
          var information := transform(fullPath);
          if information.Some? {
            NotifyEvent(fullPath, information.value, key.lock);
          }
        }
        i := i + 1;
      }
    }

    /**
     * notifyEvent: open the file for writing and try to lock it; on a lock
     * and a path not yet notified, record the path, then fire.
     */
    method NotifyEvent(fullPath: Path, information: T, lock: Path -> LockOutcome)
      requires Valid()
      modifies this
      ensures Valid()
      ensures State() == Notify(old(State()), fullPath, information, lock(fullPath), registry.listeners, this)
      ensures serviceOpen == old(serviceOpen) && registrations == old(registrations)
    {
      NotifyPreservesConsistent(State(), fullPath, information, lock(fullPath), registry.listeners, this);
      var outcome := lock(fullPath);
      if outcome == Acquired && fullPath !in notified {
        notified := notified + {fullPath};
        FireDirectoryChangedEvent(fullPath, information);
      }
    }

    /**
     * fireDirectoryChangedEvent: build ChangedEvent(this, payload) and hand
     * it to every listener through notifyListeners. The path is already in
     * the notified set when the listeners run.
     */
    method FireDirectoryChangedEvent(path: Path, information: T)
      requires path in notified
      modifies this
      ensures State() == Fire(old(State()), path, information, registry.listeners, this)
      ensures serviceOpen == old(serviceOpen) && registrations == old(registrations)
    {
      var event := ChangedEvent(this, information);
      var calls := registry.NotifyListeners(listener => (listener, event));
      assert calls == Broadcast(registry.listeners, event);
      fired := fired + [(path, information)];
      delivered := delivered + calls;
    }

    /** close: close the watch service (a second close has no effect). */
    method Close()
      modifies this
      ensures !serviceOpen
      ensures State() == old(State()) && registrations == old(registrations)
    {
      serviceOpen := false;
    }
  }

  /**
   * observe(watchedPath): observe with the identity transform, so that each
   * payload fired is the path of the new file.
   */
  method ObserveDefault<L(==)>(notifier: DirectoryNotifier<Path, L>, dir: Option<Path>, isDirectory: bool, takes: seq<Take>)
    returns (exit: Exit)
    requires notifier.Valid()
    modifies notifier
    ensures notifier.Valid()
    ensures dir.None? ==> exit == Threw(NullArgument) && unchanged(notifier)
    ensures dir.Some? && !isDirectory ==> exit == Threw(IllegalArgument) && unchanged(notifier)
    ensures dir.Some? && isDirectory && !old(notifier.serviceOpen) ==>
      exit == Threw(ClosedWatchService) && unchanged(notifier)
    ensures dir.Some? && isDirectory && old(notifier.serviceOpen) ==>
      var run := Watching(old(notifier.State()), Env(dir.value, DefaultTransform, notifier.registry.listeners, notifier), takes);
      && notifier.registrations == old(notifier.registrations) + [(dir.value, EntryCreate)]
      && notifier.State() == run.0
      && notifier.serviceOpen == (run.1 != ServiceClosed)
      && exit == (match run.1
                  case Interrupted => Returned(true)
                  case NoHalt => Blocked
                  case _ => Returned(false))
    ensures |old(notifier.fired)| <= |notifier.fired|
    ensures forall k :: |old(notifier.fired)| <= k < |notifier.fired| ==> notifier.fired[k].1 == notifier.fired[k].0
  {
    ghost var env := Env(if dir.Some? then dir.value else Path(false, []), DefaultTransform, notifier.registry.listeners, notifier);
    DefaultTransformFiresPaths(notifier.State(), env, takes);
    exit := notifier.Observe(dir, Some(DefaultTransform), isDirectory, takes);
  }
}
