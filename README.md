# DirectoryNotifier in Dafny

A model of DirectoryNotifier, a Java component that watches one directory. For each event about a file it turns the file's path into a payload with a transform the caller supplies. If there is a payload, it tries once, without blocking, to lock the file for writing, and takes a lock to mean the file is complete. When the lock is not obtained the event is dropped and nothing retries it; otherwise the payload is fired, at most once per path, to a list of listeners.

The repository holds two copies of the notifier:

- `notifier/DirectoryNotifier.java`, the packaged one;
- `DirectoryNotifier.java` in the default package, the legacy one.

Both are modelled, as two classes that share one specification of the per-event rule.

Files (one module each):

- `wrappers.dfy`: `Option`, which stands for `java.util.Optional`.
- `paths.dfy`: `Path` and `Resolve`, which stands for `Path.resolve`.
- `listeners.dfy`: `ListenerList`, a class modelling `notifier/Listener.java`. It holds the `listeners` list as a `seq` field. The `ReentrantReadWriteLock` is reduced to the hold count of its write lock. The file also defines `IndexOf` and `RemoveFirst`, the specification of `ArrayList.remove(Object)`.
- `watch.dfy`: the shared vocabulary of watch events, lock outcomes, `ChangedEvent`, take() results and exits. It also holds the specification functions over the notifier's observable state `Log` (notified set, fire log, listener-callback log):
  - `Notify`: `notifyEvent`;
  - `Fire`: `fireDirectoryChangedEvent`;
  - `Handle`: one event of the `forEach`;
  - `Batch`: one key's events in order;
  - `Watching`: the watch loop over a finite sequence of take() results;
  - `DefaultTransform`: `defaultFunction`.
- `watch_properties.dfy`: the lemmas about those functions: at-most-once firing, growth, soundness and completeness of firing, broadcast to every listener, and where the loop stops.
- `notifier.dfy`: the packaged `DirectoryNotifier`, a class. Its fields are the notified set (the keys of `alreadyNotitfiedFiles`), the fire log, the listener-callback log, the registrations made, and whether the watch service is open. Each method is proved against the functions of `watch.dfy`. Its class invariant `Valid()` states:
  - no path is fired twice;
  - the notified set is exactly the set of fired paths;
  - every callback names the notifier as its source.
- `legacy_notifier.dfy`: the legacy `DirectoryNotifier`, with the same fields and invariant. Its event loop is written inline, as in its source.

How the environment is represented:

- The watch service becomes a finite sequence of take() results: a key, an interrupt, or a closed service.
- Each key carries:
  - its events;
  - the lock outcome for each path while the batch is handled (`Acquired`, `NotAcquired` for a null lock, `OpenFailed` for an IOException);
  - what reset() answers afterwards.
- When the sequence runs out, `observe` is still blocked in take(), which is the `Blocked` exit.
- Whether the watched path is a directory is a boolean parameter.
- A null argument is `None`.

The inheritance `DirectoryNotifier extends Listener` is modelled by composition: the notifier has a `registry: ListenerList`. `fireDirectoryChangedEvent` calls the registry's `NotifyListeners`.

The two variants differ as their sources do:

| | packaged | legacy |
|---|---|---|
| null directory or transform | `Threw(NullArgument)` | not checked (arguments are plain values) |
| not a directory | `Threw(IllegalArgument)` | returns at once, nothing registered |
| kind registered | `ENTRY_CREATE` | `ENTRY_MODIFY` |
| interrupted in take() | returns with the interrupt flag set again | returns with the flag cleared |
| watch service closed in take() | returns normally | `ClosedWatchServiceException` escapes |

## Model

| member | source | states |
|---|---|---|
| Paths.Resolve | src/main/java/notifier/DirectoryNotifier.java:107-108 | an absolute name is returned unchanged; a relative one gives the directory's names followed by the file name's |
| Paths.ResolveInjective | src/main/java/DirectoryNotifier.java:85-86 | two relative file names resolved against the same directory give the same full path only if they are equal, so deduplicating on the full path is deduplicating on the reported name |
| Listeners.IndexOf | src/main/java/notifier/Listener.java:34 | the position of the first equal element; no earlier element is equal; it is the length exactly when the element is absent |
| Listeners.RemoveFirst | src/main/java/notifier/Listener.java:34 | removal shortens the list by one exactly when the listener is present |
| Listeners.RemoveFirstMultiset | src/main/java/notifier/Listener.java:34 | removal takes out exactly one copy of the listener if there is one and leaves every other element |
| Listeners.RemoveFirstAbsent | src/main/java/notifier/Listener.java:34 | removing an absent listener leaves the list unchanged |
| Listeners.RemoveFirstPresent | src/main/java/notifier/Listener.java:32-34 | removing a present listener deletes only its first occurrence and keeps the others in their order |
| Listeners.AddThenRemoveRestores | src/main/java/notifier/Listener.java:22-34 | adding a listener that was not registered and then removing it gives back the old list |
| Listeners.RemovedOnceIsGone | src/main/java/notifier/Listener.java:32-34 | a listener registered once is absent after its removal, so later notifications do not reach it |
| Listeners.ListenerList.constructor | src/main/java/notifier/Listener.java:15-16 | a new list is empty and its write lock is free |
| Listeners.ListenerList.AddListener | src/main/java/notifier/Listener.java:22-26 | the new list is the old list followed by the listener, and the write-lock hold count is unchanged |
| Listeners.ListenerList.RemoveListener | src/main/java/notifier/Listener.java:32-36 | the list loses the first occurrence of the listener, and the write-lock hold count rises by 2 and is never released |
| Listeners.ListenerList.RemoveListenerReleasing | src/main/java/notifier/Listener.java:32-36 | the corrected removal: the same list change, with the hold count back where it was |
| Listeners.ListenerList.NotifyListeners | src/main/java/notifier/Listener.java:42-44 | the consumer is applied to every listener exactly once, in list order, and the list is not modified (the method has no modifies clause) |
| Listeners.RemoveLeavesWriteLockHeld | src/main/java/notifier/Listener.java:33-35 | after adding and removing one listener, the write lock is held twice |
| Listeners.RemoveReleasesWriteLock | src/main/java/notifier/Listener.java:33-35 | with the corrected removal, the same calls leave the write lock free |
| Watch.Fire | src/main/java/notifier/DirectoryNotifier.java:130-133 | the definition of fireDirectoryChangedEvent: the notified set is untouched, the fire log gains exactly (path, payload), and the callback log gains, in list order, one (listener, ChangedEvent(source, payload)) per listener; BatchDeliversFires carries this over a batch |
| Watch.Notify | src/main/java/notifier/DirectoryNotifier.java:116-128 | the definition of notifyEvent: the set gains the path exactly when the lock is acquired (it may already hold it), and one fire is added exactly when the lock is acquired and the path was not yet notified; NotifyPreservesConsistent keeps the invariant |
| Watch.Handle | src/main/java/notifier/DirectoryNotifier.java:101-112 | the definition of one event of the forEach: OVERFLOW changes nothing, and any event adds at most one fire and only grows the set; HandleCases gives the full case split |
| Watch.Batch | src/main/java/notifier/DirectoryNotifier.java:99-113 | the definition of extractEventToNotify: a batch fires at most once per event; BatchGrows, BatchSplit, BatchFiresOnlyCompleted, BatchNotifiesCompleted and BatchPreservesConsistent carry its properties |
| Watch.Watching | src/main/java/notifier/DirectoryNotifier.java:75-94 | the definition of the watch loop (also src/main/java/DirectoryNotifier.java:67-117): it is still waiting exactly when every take was a key whose reset() was valid; WatchingStopsAtFirstHalt, WatchingPreservesConsistent and WatchingGrows carry its other properties |
| Watch.DefaultTransform | src/main/java/notifier/DirectoryNotifier.java:42 | the definition of defaultFunction (also src/main/java/DirectoryNotifier.java:39): the path is its own payload; DefaultTransformFiresPaths carries its consequence |
| WatchProperties.HandleCases | src/main/java/notifier/DirectoryNotifier.java:99-127 | an event fires exactly when all four hold: it is not OVERFLOW, the transform gives a value, the lock is acquired, and the path is not yet notified. The path is then added and the unchanged payload is broadcast with the notifier as source. Any other event leaves the state exactly as it was. |
| WatchProperties.NotifyPreservesConsistent | src/main/java/notifier/DirectoryNotifier.java:116-128 | notifyEvent keeps no-repeat firing, and keeps the notified set equal to the fired paths |
| WatchProperties.HandlePreservesConsistent | src/main/java/notifier/DirectoryNotifier.java:99-113 | handling one event keeps the state consistent |
| WatchProperties.BatchPreservesConsistent | src/main/java/notifier/DirectoryNotifier.java:97-114 | a whole batch keeps the state consistent: no path is fired twice, and the set equals the fired paths |
| WatchProperties.BatchGrows | src/main/java/notifier/DirectoryNotifier.java:120-123 | a batch only adds: the notified set grows, and the fire and callback logs are only extended |
| WatchProperties.BatchSplit | src/main/java/notifier/DirectoryNotifier.java:99 | events are handled in batch order: a batch is its prefix followed by its suffix |
| WatchProperties.BatchFiresOnlyCompleted | src/main/java/notifier/DirectoryNotifier.java:101-124 | every fire of a batch comes from one of its events. That event is not OVERFLOW, and the fired path is its name resolved against the watched directory. The path was not notified before. The transform gave exactly the fired payload, and the lock was acquired. |
| WatchProperties.BatchNotifiesCompleted | src/main/java/notifier/DirectoryNotifier.java:117-124 | every event whose path has a payload and an acquired lock leaves that path in the notified set |
| WatchProperties.BatchDeliversFires | src/main/java/notifier/DirectoryNotifier.java:130-133 | the callbacks of a batch are, in order, one per listener for each fire, carrying that fire's payload and the notifier as source |
| WatchProperties.BatchWithoutPayloadsChangesNothing | src/main/java/notifier/DirectoryNotifier.java:111-112 | a transform that always returns empty makes a batch change nothing |
| WatchProperties.BatchWithoutLocksChangesNothing | src/main/java/notifier/DirectoryNotifier.java:117-127 | if no lock is acquired (null lock or IOException), a batch changes nothing |
| WatchProperties.DistinctAtMostOnce | src/main/java/notifier/DirectoryNotifier.java:120-121 | in a sequence without repeats, every element occurs at most once |
| WatchProperties.FiredAtMostOnce | src/main/java/notifier/DirectoryNotifier.java:120-123 | in a consistent state, a path is notified exactly when it was fired, and it was fired at most once |
| WatchProperties.WatchingStopsAtFirstHalt | src/main/java/notifier/DirectoryNotifier.java:75-94 | the loop stops at the first take that is an interrupt, a close, or a key whose reset() is invalid; later takes have no effect |
| WatchProperties.WatchingPreservesConsistent | src/main/java/notifier/DirectoryNotifier.java:75-94 | over the whole loop each path is fired at most once, and the set equals the fired paths |
| WatchProperties.WatchingGrows | src/main/java/notifier/DirectoryNotifier.java:28 | over the loop, the notified set only grows and the logs are only extended |
| WatchProperties.WatchingFiresTransformPayloads | src/main/java/notifier/DirectoryNotifier.java:111-112 | every payload the loop fires is what the transform gave for the fired path |
| WatchProperties.DefaultTransformFiresPaths | src/main/java/notifier/DirectoryNotifier.java:42 | with the identity transform, every fired payload is the fired path |
| WatchProperties.WatchingWithoutPayloadsChangesNothing | src/main/java/notifier/DirectoryNotifier.java:111-112 | a transform that always returns empty makes the whole loop fire nothing and change nothing |
| Notifier.DirectoryNotifier.constructor | src/main/java/notifier/DirectoryNotifier.java:37-39 | a new notifier has an open watch service, no listeners, no registrations and nothing notified |
| Notifier.DirectoryNotifier.Observe | src/main/java/notifier/DirectoryNotifier.java:63-95 | a null argument or a non-directory throws before any registration, and nothing changes. So does a closed service at register. Otherwise ENTRY_CREATE is registered and the new state is the watch loop's. On an interrupt it returns with the flag set again. On a closed service it returns normally and the service is closed. On an invalid reset it returns normally. |
| Notifier.DirectoryNotifier.ExtractEventToNotify | src/main/java/notifier/DirectoryNotifier.java:97-114 | the new state is the key's batch handled in order, and the invariant is kept |
| Notifier.DirectoryNotifier.NotifyEvent | src/main/java/notifier/DirectoryNotifier.java:116-128 | the path is recorded and fired only on an acquired lock and a path not yet notified; the invariant is kept |
| Notifier.DirectoryNotifier.FireDirectoryChangedEvent | src/main/java/notifier/DirectoryNotifier.java:130-133 | called only once the path is in the set; it logs one fire and one callback per listener with ChangedEvent(this, payload) |
| Notifier.DirectoryNotifier.Close | src/main/java/notifier/DirectoryNotifier.java:140-142 | the watch service is closed, and nothing else changes |
| Notifier.ObserveDefault | src/main/java/notifier/DirectoryNotifier.java:50-52 | observe with the identity transform, with every exit of the two-argument observe: a null path throws NullArgument, a non-directory throws IllegalArgument and a closed service at register throws, each with nothing changed; otherwise ENTRY_CREATE is registered, the state is the watch loop's, an interrupt returns with the flag set again and a closed service returns normally; every payload fired is the path itself |
| LegacyNotifier.DirectoryNotifier.constructor | src/main/java/DirectoryNotifier.java:34-36 | a new notifier has an open watch service, no listeners, no registrations and nothing notified |
| LegacyNotifier.DirectoryNotifier.Observe | src/main/java/DirectoryNotifier.java:58-119 | a non-directory returns at once with nothing registered, fired or changed. Otherwise ENTRY_MODIFY is registered and the new state is the same watch loop's. On an interrupt it returns with the flag cleared. A closed service throws ClosedWatchServiceException. On an invalid reset it returns normally. |
| LegacyNotifier.DirectoryNotifier.FireDirectoryChangedEvent | src/main/java/DirectoryNotifier.java:121-124 | logs one fire and one callback per listener with ChangedEvent(this, payload) |
| LegacyNotifier.DirectoryNotifier.Close | src/main/java/DirectoryNotifier.java:130-132 | the watch service is closed, and nothing else changes |
| LegacyNotifier.ObserveDefault | src/main/java/DirectoryNotifier.java:46-48 | observe with the identity transform, with every exit of the two-argument observe: a non-directory returns at once with nothing registered or changed; otherwise ENTRY_MODIFY is registered, the state is the watch loop's, an interrupt returns with the flag cleared and a closed service throws ClosedWatchServiceException; every payload fired is the path itself |

## Findings

| source | as written | input that shows it | evidently intended | confidence | as-written member | corrected member |
|---|---|---|---|---|---|---|
| src/main/java/notifier/Listener.java:35 | `removeListener` calls `writeLock().lock()` a second time after the removal | add one listener, then remove it: the write lock is held twice and never released | `writeLock().unlock()`, as in `addListener` | high; not executed | Listeners.RemoveLeavesWriteLockHeld | Listeners.RemoveReleasesWriteLock |

## Left out

- Threads and locking. One thread is modelled. The read/write lock is only its write-lock hold count, so a second thread blocking on the leaked lock is not shown. `synchronized` and the missing read lock in `notifyListeners` are not modelled. The listener list is fixed for the length of an `observe` call, because nobody else runs while it does.
- The watch service (`newWatchService`, `register`, `take`, `pollEvents`, `reset`) is operating-system I/O. It is replaced by the sequence of take() results described above. An IOException from `newWatchService` or `register` is not modelled; a closed service at register is.
- File locking (`FileChannel.open`, `tryLock`, the lock's release) is I/O and is replaced by the lock outcome each key carries. That outcome is one answer per path for the whole batch, not one per event.
- The legacy variant's early `ch.close()` at src/main/java/DirectoryNotifier.java:102 is not modelled. The channel closes before the lock is released, and the IOException this raises is swallowed after the listeners have run, so nothing observable changes.
- `OverlappingFileLockException`, an unchecked exception from `tryLock`, is not modelled.
- Logging (log4j) is not modelled, and neither are exceptions thrown by listener callbacks.
- `Validator.validateNotNull` is not part of this model. A null argument of the packaged `observe` is modelled as the `NullArgument` failure.
- The legacy variant has its null checks commented out, and it takes non-null arguments here. The exception a null argument would raise at its first use is not modelled.
- The default-package `Listener` class that the legacy notifier extends is not part of this model. The legacy notifier uses the same `ListenerList` as the packaged one.
- Event kinds other than OVERFLOW are treated alike, as both sources do. The registered kind is recorded, but nothing restricts which kinds a key may carry.
- `defaultFunction`'s unchecked cast is a Java typing artefact. The identity transform is modelled with `T = Path` (`ObserveDefault` takes a notifier whose payload type is `Path`).
- The calling thread's interrupt flag is taken to be clear when `observe` is entered. `Returned(false)` therefore stands for "the flag is clear"; on the legacy early return for a non-directory (src/main/java/DirectoryNotifier.java:61) the real flag is whatever it was on entry.
- `ChangedEvent` and the `DirectoryChangedListener` interfaces are a value holder and a callback signature. They appear as the `ChangedEvent` datatype and as an opaque listener type `L` with equality. A callback is recorded as a (listener, event) pair.
