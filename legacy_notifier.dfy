/**
 * DirectoryNotifier.java in the default package: the older copy of the
 * notifier. Same per-event rule, but it watches ENTRY_MODIFY, returns
 * silently on a path that is not a directory, inlines the event loop,
 * does not restore the interrupt flag and does not catch
 * ClosedWatchServiceException.
 */
module LegacyNotifier {
  import opened Wrappers
  import opened Paths
  import opened Listeners
  import opened Watch
  import opened WatchProperties

  class DirectoryNotifier<T, L(==)> {
    /** The inherited Listener state (composition in place of `extends Listener`). */
    const registry: ListenerList<L>
    /** Whether the WatchService is still open. */
    var serviceOpen: bool
    /** The register(watchService, kind) calls made, in order. */
    var registrations: seq<(Path, EventKind)>
    /** The keys of `alreadyNotitfiedFiles` (every value is `true`). */
    var notified: set<Path>
    /** One entry per fireDirectoryChangedEvent call: the path and its payload. */
    var fired: seq<(Path, T)>
    /** One entry per onDirectoryChanged callback: the listener and the event it was given. */
    var delivered: seq<(L, ChangedEvent<T>)>

    ghost function State(): Log<T, L>
      reads this
    {
      Log(notified, fired, delivered)
    }

    ghost predicate Valid()
      reads this
    {
      Consistent(State(), this)
    }

    /** A new notifier: an open watch service, no listeners, nothing notified. */
    constructor ()
      ensures Valid() && serviceOpen && registrations == []
      ensures notified == {} && fired == [] && delivered == []
      ensures fresh(registry) && registry.listeners == [] && registry.writeHolds == 0
    {
      registry := new ListenerList<L>();
      serviceOpen := true;
      registrations := [];
      notified := {};
      fired := [];
      delivered := [];
    }

    /**
     * observe(watchedPath, transform): only a directory is watched (anything
     * else returns at once); register for ENTRY_MODIFY, then run the watch
     * loop with the event handling written inline.
     */
    method Observe(watchedPath: Path, transform: Path -> Option<T>, isDirectory: bool, takes: seq<Take>)
      returns (exit: Exit)
      requires Valid()
      modifies this
      ensures Valid()
      ensures !isDirectory ==> exit == Returned(false) && unchanged(this)
      ensures isDirectory && !old(serviceOpen) ==> exit == Threw(ClosedWatchService) && unchanged(this)
      ensures isDirectory && old(serviceOpen) ==>
        var run := Watching(old(State()), Env(watchedPath, transform, registry.listeners, this), takes);
        && registrations == old(registrations) + [(watchedPath, EntryModify)]
        && State() == run.0
        && serviceOpen == (run.1 != ServiceClosed)
        && exit == (match run.1
                    case ServiceClosed => Threw(ClosedWatchService)
                    case NoHalt => Blocked
                    case _ => Returned(false))
    {
      if !isDirectory {
        return Returned(false);
      }
      if !serviceOpen {
        return Threw(ClosedWatchService);
      }
      registrations := registrations + [(watchedPath, EntryModify)];
      ghost var env := Env(watchedPath, transform, registry.listeners, this);
      var i := 0;
      while i < |takes|
        invariant 0 <= i <= |takes|
        invariant Valid() && serviceOpen
        invariant registrations == old(registrations) + [(watchedPath, EntryModify)]
        invariant Watching(State(), env, takes[i..]) == Watching(old(State()), env, takes)
      {
        assert takes[i..][0] == takes[i] && takes[i..][1..] == takes[i + 1..];
        match takes[i] {
          case TakeInterrupted =>
            // take() cleared the interrupt flag and nothing sets it again
            return Returned(false);
          case TakeClosed =>
            // ClosedWatchServiceException is not caught
            serviceOpen := false;
            return Threw(ClosedWatchService);
          case Signalled(key) =>
            var events := key.events;
            ghost var before := State();
            var j := 0;
            while j < |events|
              invariant 0 <= j <= |events|
              invariant Valid() && serviceOpen
              invariant registrations == old(registrations) + [(watchedPath, EntryModify)]
              invariant Batch(State(), env, key.lock, events[j..]) == Batch(before, env, key.lock, events)
            {
              assert events[j..][0] == events[j] && events[j..][1..] == events[j + 1..];
              ghost var previous := State();
              HandlePreservesConsistent(previous, env, key.lock, events[j]);
              var event := events[j];
              if event.kind != Overflow {
                var fullPath := Resolve(watchedPath, event.context);
                var information := transform(fullPath);
                if information.Some? {
                  var outcome := key.lock(fullPath);
                  if outcome == Acquired {
                    if fullPath !in notified {
                      notified := notified + {fullPath};
                      FireDirectoryChangedEvent(fullPath, information.value);
                    }
                  }
                }
              }
              assert State() == Handle(previous, env, key.lock, event);
              j := j + 1;
            }
            if !key.resetValid {
              return Returned(false);
            }
        }
        i := i + 1;
      }
      return Blocked;
    }

    /**
     * fireDirectoryChangedEvent: build ChangedEvent(this, payload) and hand
     * it to every listener through notifyListeners. The path is already in
     * the notified set when the listeners run.
     */
    method FireDirectoryChangedEvent(path: Path, information: T)
      requires path in notified
      modifies this
      ensures State() == Fire(old(State()), path, information, registry.listeners, this)
      ensures serviceOpen == old(serviceOpen) && registrations == old(registrations)
    {
      var event := ChangedEvent(this, information);
      var calls := registry.NotifyListeners(listener => (listener, event));
      assert calls == Broadcast(registry.listeners, event);
      fired := fired + [(path, information)];
      delivered := delivered + calls;
    }

    /** close: close the watch service (a second close has no effect). */
    method Close()
      modifies this
      ensures !serviceOpen
      ensures State() == old(State()) && registrations == old(registrations)
    {
      serviceOpen := false;
    }
  }

  /**
   * observe(watchedPath): observe with the identity transform, so that each
   * payload fired is the path of the new file.
   */
  method ObserveDefault<L(==)>(notifier: DirectoryNotifier<Path, L>, watchedPath: Path, isDirectory: bool, takes: seq<Take>)
    returns (exit: Exit)
    requires notifier.Valid()
    modifies notifier
    ensures notifier.Valid()
    ensures !isDirectory ==> exit == Returned(false) && unchanged(notifier)
    ensures isDirectory && !old(notifier.serviceOpen) ==> exit == Threw(ClosedWatchService) && unchanged(notifier)
    ensures isDirectory && old(notifier.serviceOpen) ==>
      var run := Watching(old(notifier.State()), Env(watchedPath, DefaultTransform, notifier.registry.listeners, notifier), takes);
      && notifier.registrations == old(notifier.registrations) + [(watchedPath, EntryModify)]
      && notifier.State() == run.0
      && notifier.serviceOpen == (run.1 != ServiceClosed)
      && exit == (match run.1
                  case ServiceClosed => Threw(ClosedWatchService)
                  case NoHalt => Blocked
                  case _ => Returned(false))
    ensures |old(notifier.fired)| <= |notifier.fired|
    ensures forall k :: |old(notifier.fired)| <= k < |notifier.fired| ==> notifier.fired[k].1 == notifier.fired[k].0
  {
    DefaultTransformFiresPaths(notifier.State(), Env(watchedPath, DefaultTransform, notifier.registry.listeners, notifier), takes);
    exit := notifier.Observe(watchedPath, DefaultTransform, isDirectory, takes);
  }
}
