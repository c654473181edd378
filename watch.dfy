/**
 * The event-processing step shared by both DirectoryNotifier variants, as
 * functions over the notifier's observable state: the set of paths already
 * notified (the keys of `alreadyNotitfiedFiles`), the log of fires (one per
 * fireDirectoryChangedEvent call) and the log of listener callbacks.
 *
 * The watch service, the file lock and the caller's transform are given as
 * values: a batch of events, the lock outcome the file system gives for
 * each path while the batch is handled, and a total function to Option.
 */
module Watch {
  import opened Wrappers
  import opened Paths

  /** StandardWatchEventKinds. */
  datatype EventKind = EntryCreate | EntryDelete | EntryModify | Overflow

  /** A WatchEvent: its kind and its context, the name relative to the watched directory. */
  datatype WatchEvent = WatchEvent(kind: EventKind, context: Path)

  /**
   * FileChannel.open(path, WRITE) followed by tryLock(): a lock, null
   * (another program holds it), or an IOException.
   */
  datatype LockOutcome = Acquired | NotAcquired | OpenFailed

  /** ChangedEvent: the notifier as source and the transformed payload. */
  datatype ChangedEvent<T> = ChangedEvent(source: object, payload: T)

  /**
   * A signalled WatchKey: the events pollEvents() returns, the lock outcome
   * per path while they are handled, and what reset() answers afterwards.
   */
  datatype WatchKey = WatchKey(events: seq<WatchEvent>, lock: Path -> LockOutcome, resetValid: bool)

  /** What one call of WatchService.take() does. */
  datatype Take = Signalled(key: WatchKey) | TakeInterrupted | TakeClosed

  /** The exceptions that can leave observe. */
  datatype Failure = NullArgument | IllegalArgument | ClosedWatchService

  /**
   * How a call of observe ends: it throws, it returns (with the calling
   * thread's interrupt flag as it is then), or it is still blocked in
   * take() when the given takes run out.
   */
  datatype Exit = Threw(failure: Failure) | Returned(interruptFlag: bool) | Blocked

  /** Why the watch loop stopped, or NoHalt while it is still waiting in take(). */
  datatype Halt = KeyInvalidated | Interrupted | ServiceClosed | NoHalt

  /** What an observe call works with: the watched directory, the transform, the listeners and the event source. */
  datatype Env<T, L> = Env(dir: Path, transform: Path -> Option<T>, listeners: seq<L>, source: object)

  /** The notifier's observable state. */
  datatype Log<T, L> = Log(notified: set<Path>, fired: seq<(Path, T)>, delivered: seq<(L, ChangedEvent<T>)>)

  /** The callbacks notifyListeners makes for one event: one per listener, in list order. */
  function Broadcast<T, L>(listeners: seq<L>, e: ChangedEvent<T>): seq<(L, ChangedEvent<T>)>
  {
    seq(|listeners|, k requires 0 <= k < |listeners| => (listeners[k], e))
  }

  /** The callbacks for a sequence of fires, in order. */
  function Broadcasts<T, L>(listeners: seq<L>, source: object, fired: seq<(Path, T)>): seq<(L, ChangedEvent<T>)>
  {
    if fired == [] then []
    else Broadcast(listeners, ChangedEvent(source, fired[0].1)) + Broadcasts(listeners, source, fired[1..])
  }

  /** fireDirectoryChangedEvent: build the event and notify every listener. */
  function Fire<T, L>(s: Log<T, L>, path: Path, payload: T, listeners: seq<L>, source: object): (r: Log<T, L>)
    ensures r.notified == s.notified
    ensures r.fired == s.fired + [(path, payload)]
    ensures |r.delivered| == |s.delivered| + |listeners|
    ensures r.delivered[..|s.delivered|] == s.delivered
    ensures forall k :: 0 <= k < |listeners| ==>
      r.delivered[|s.delivered| + k] == (listeners[k], ChangedEvent(source, payload))
  {
    s.(fired := s.fired + [(path, payload)],
       delivered := s.delivered + Broadcast(listeners, ChangedEvent(source, payload)))
  }

  /**
   * notifyEvent: on an acquired lock and a path not yet notified, record
   * the path and then fire; otherwise nothing.
   */
  function Notify<T, L>(s: Log<T, L>, path: Path, payload: T, lock: LockOutcome, listeners: seq<L>, source: object): (r: Log<T, L>)
    ensures r.notified == if lock == Acquired then s.notified + {path} else s.notified
    ensures s.fired <= r.fired
    ensures |r.fired| == if lock == Acquired && path !in s.notified then |s.fired| + 1 else |s.fired|
  {
    if lock == Acquired && path !in s.notified then
      Fire(s.(notified := s.notified + {path}), path, payload, listeners, source)
    else
      s
  }

  /** One event of a batch: skip OVERFLOW, resolve, transform, and notify if a payload is present. */
  function Handle<T, L>(s: Log<T, L>, env: Env<T, L>, lock: Path -> LockOutcome, ev: WatchEvent): (r: Log<T, L>)
    ensures ev.kind == Overflow ==> r == s
    ensures s.notified <= r.notified && s.fired <= r.fired
    ensures |r.fired| <= |s.fired| + 1
  {
    if ev.kind == Overflow then s
    else
      var full := Resolve(env.dir, ev.context);
      match env.transform(full)
      case None => s
      case Some(payload) => Notify(s, full, payload, lock(full), env.listeners, env.source)
  }

  /** A whole batch, event by event in the order pollEvents() gives them. */
  function Batch<T, L>(s: Log<T, L>, env: Env<T, L>, lock: Path -> LockOutcome, events: seq<WatchEvent>): (r: Log<T, L>)
    ensures |r.fired| <= |s.fired| + |events|
    decreases |events|
  {
    if events == [] then s
    else Batch(Handle(s, env, lock, events[0]), env, lock, events[1..])
  }

  /**
   * The watch loop over a finite sequence of take() results: each key's
   * batch is handled, then the loop goes on only if reset() said valid.
   */
  function Watching<T, L>(s: Log<T, L>, env: Env<T, L>, takes: seq<Take>): (r: (Log<T, L>, Halt))
    ensures r.1 == NoHalt <==> forall j :: 0 <= j < |takes| ==> takes[j].Signalled? && takes[j].key.resetValid
    decreases |takes|
  {
    if takes == [] then (s, NoHalt)
    else
      match takes[0]
      case TakeInterrupted => (s, Interrupted)
      case TakeClosed => (s, ServiceClosed)
      case Signalled(key) =>
        var next := Batch(s, env, key.lock, key.events);
        if key.resetValid then Watching(next, env, takes[1..]) else (next, KeyInvalidated)
  }

  /** The identity transform of `observe(Path)`: the path is its own payload. */
  function DefaultTransform(p: Path): Option<Path>
  {
    Some(p)
  }

  function PathsOf<T>(fired: seq<(Path, T)>): seq<Path>
  {
    seq(|fired|, k requires 0 <= k < |fired| => fired[k].0)
  }

  predicate Distinct<X(==)>(s: seq<X>)
  {
    forall i, j :: 0 <= i < j < |s| ==> s[i] != s[j]
  }

  /**
   * The invariant of a notifier's state: no path fired twice, the notified
   * set is exactly the set of fired paths, and every callback names the
   * notifier as source.
   */
  ghost predicate Consistent<T, L>(s: Log<T, L>, source: object)
  {
    Distinct(PathsOf(s.fired))
    && s.notified == (set p | p in PathsOf(s.fired))
    && forall d :: d in s.delivered ==> d.1.source == source
  }

  /** A path fires for an event when the event is not OVERFLOW, the transform yields the payload and the lock was acquired. */
  ghost predicate Completed<T, L>(env: Env<T, L>, lock: Path -> LockOutcome, ev: WatchEvent, path: Path, payload: T)
  {
    ev.kind != Overflow
    && path == Resolve(env.dir, ev.context)
    && env.transform(path) == Some(payload)
    && lock(path) == Acquired
  }
}
