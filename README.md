# Notification center, modelled in Dafny

This project models the notification registry of CPP-NotificationCenter, an in-process publish/subscribe center. It maps a notification key to an ordered list of observers. Each observer holds one callback. Callers can:

- add an observer, by key or through a locator, and get back a handle to it;
- remove one observer through its handle;
- remove a whole notification;
- post a notification, which calls every observer of that notification in registration order;
- look up a locator for a notification;
- get the process-wide default center.

The repository holds two implemented revisions of the same class:

- `NotificationCenter.cpp`: string keys, callbacks that take no argument.
- `src/NotificationCenter.cpp`: string keys, callbacks that receive a payload.

`include/NotificationCenter.h` declares a third variant with `int` keys and no implementation. One generic class, `NotificationCenter<K, P>`, models all three:

- `K` is the key type (`string` or `int`).
- `P` is the payload type. The revision without a payload is the instance `P = ()`.

Files:

- `channels.dfy` (module `Channels`) holds the value-level view: observers, the record of calls a post makes (`Dispatch`), list erase (`Erase`), the map transitions (`Added`, `Removed`), the registry invariant (`WellFormed`) and the lemmas about them.
- `notification_center.dfy` (module `NotificationCenters`) holds the class `NotificationCenter`. Its field `channels: map<K, seq<Observer>>` is the `std::map` of `std::list`s, and its methods update it in place. It also holds the loop that posts (`Notify`) and the storage behind the default center (`DefaultCenter`).
- `demo.dfy` (module `Demo`) replays the demonstration program and two client-side promises of the header documentation.

Callbacks are foreign code. Each callback is an opaque `CallbackId`, and a post returns the sequence of calls it made (`Call(callback, payload)`). That sequence is what the proofs talk about. A callback's return value is discarded by the center, so a `Call` does not record one.

A handle is the identity of a list node (`Observer.id`). Each center issues these identities from a counter, so one identity never denotes two observers. This mirrors the stability of `std::list` iterators: erasing one node never invalidates another.

## Model

| member | source | states |
|---|---|---|
| `Channels.Dispatch` | NotificationCenter.cpp:94-97 | the calls of one walk from begin() to end(): exactly as many calls as observers |
| `Channels.Erase` | NotificationCenter.cpp:59 | `list::erase` of one node: the list shrinks by at most one node and gains none (its multiset of observers only loses) |
| `Channels.Added` | NotificationCenter.cpp:33-36 | `_observers[name].push_back`: the key is tracked afterwards, every other key keeps its list, and the key's list is its old list (empty if new) with the observer at the end |
| `Channels.Removed` | NotificationCenter.cpp:56-60 | find then erase: the tracked keys are unchanged, every other key keeps its list, and the key's list only loses observers |
| `Channels.DispatchCallsEachInOrder` | src/NotificationCenter.cpp:87-99 | a post makes exactly one call per observer, in list order, and every call gets the same, unchanged payload |
| `Channels.EraseAt` | NotificationCenter.cpp:53-61 | erasing the observer at position i removes exactly that observer; the others keep their relative order |
| `Channels.EraseAbsent` | NotificationCenter.cpp:57-60 | erasing a handle that is not in the list leaves the list unchanged |
| `Channels.EraseIds` | include/NotificationCenter.h:69-85 | removing through a handle removes exactly that handle's identity from the list, and the list still has no repeated identities |
| `Channels.EraseKeepsOthers` | NotificationCenter.hpp:68-80 | every observer with a different handle is still in the list after an erase |
| `Channels.AddedWellFormed` | NotificationCenter.cpp:30-37 | appending an observer with a freshly issued handle keeps the invariant: handles unique across the center and below the counter |
| `Channels.RemovedWellFormed` | NotificationCenter.cpp:63-70 | removing an observer keeps that invariant |
| `Channels.DroppedWellFormed` | include/NotificationCenter.h:87-101 | dropping a whole notification keeps that invariant |
| `Channels.HandleInOneChannel` | include/NotificationCenter.h:45-48 | in a well-formed center a handle denotes an observer of one notification only |
| `Channels.AddThenRemove` | include/NotificationCenter.h:51-85 | adding an observer and then removing it through the returned handle restores every list; a notification that was new stays tracked with an empty list |
| `Channels.RemoveFiresSurvivors` | NotificationCenter.hpp:68-80 | after the observer at position i is removed, a post makes the same calls as before minus that one, in the same order |
| `Channels.RemoveNeverPrunes` | NotificationCenter.cpp:53-70 | every removal of an observer keeps the set of tracked notifications; removing the only observer leaves an empty list |
| `Channels.HandleStable` | NotificationCenter.hpp:49-52 | an observer stays under its notification when another observer is added anywhere or one with another handle is removed anywhere |
| `Channels.RemoveIsIdempotent` | NotificationCenter.cpp:53-61 | removing through the same handle twice equals removing once; removing through a handle of another notification changes nothing |
| `NotificationCenters.Notify` | src/NotificationCenter.cpp:93-97 | the loop from begin() to end() makes exactly the calls `Dispatch` describes |
| `NotificationCenters.NotificationCenter.constructor` | NotificationCenter.hpp:43-46 | a new center tracks no notification and satisfies the invariant |
| `NotificationCenters.NotificationCenter.AddObserver` | NotificationCenter.cpp:30-37 | appends one observer with the given callback at the end of the notification's list, creating the list if absent; other notifications unchanged; returns the new observer's handle |
| `NotificationCenters.NotificationCenter.AddObserverAt` | NotificationCenter.cpp:39-51 | through a live locator it appends like `AddObserver`; otherwise nothing changes and the handle is `End` |
| `NotificationCenters.NotificationCenter.RemoveObserver` | NotificationCenter.cpp:53-61 | if the notification is tracked, erases exactly the handle's observer from its list; otherwise no change |
| `NotificationCenters.NotificationCenter.RemoveObserverAt` | src/NotificationCenter.cpp:63-70 | through a live locator it erases the handle's observer; through the not-found value it changes nothing |
| `NotificationCenters.NotificationCenter.RemoveAllObservers` | NotificationCenter.cpp:72-76 | the notification's key is removed with all its observers; every other key is untouched; no-op if absent |
| `NotificationCenters.NotificationCenter.RemoveAllObserversAt` | src/NotificationCenter.cpp:78-85 | through a live locator it removes only that entry; otherwise nothing |
| `NotificationCenters.NotificationCenter.PostNotification` | NotificationCenter.cpp:87-105 | returns true exactly when the notification is tracked; then the calls are those of its observers in list order, otherwise none; the center is not modified |
| `NotificationCenters.NotificationCenter.PostNotificationAt` | NotificationCenter.cpp:107-124 | the same through a locator: true and the observers' calls when the locator is live, false and no call otherwise |
| `NotificationCenters.NotificationCenter.GetNotificationIterator` | NotificationCenter.cpp:126-135 | yields a live locator for the given key exactly when the key is tracked, the not-found value otherwise; no mutation |
| `NotificationCenters.DefaultCenter.constructor` | NotificationCenter.cpp:28 | the default center does not exist before the first call |
| `NotificationCenters.DefaultCenter.DefaultNotificationCenter` | NotificationCenter.cpp:137-147 | the first call creates a new, empty center; every later call returns that same instance; the returned center always satisfies the invariant, so every caller can use it |
| `Demo.PosterDemo` | main.cpp:41-86 | adds observers 1 to 8, then removes handles 1 to 5 one at a time; each post fires exactly the survivors in order; after removeAllObservers the post returns false |
| `Demo.SecondPosterDemo` | main.cpp:90-98 | a post through the locator fires the one observer; after a second observer is added, a post by name fires both in order; the second call of the accessor returns the same center as the first (`same`) |
| `Demo.IndependentCenters` | include/NotificationCenter.h:134-137 | the default accessor yields the same center twice, and a center constructed separately shares no observers with it |
| `Demo.LocatorPostAgrees` | NotificationCenter.hpp:108-113 | posting through the locator from `GetNotificationIterator` has the same outcome and calls as posting by name |

## Left out

- Concurrency. The model leaves out `std::mutex`, `std::recursive_mutex`, every `lock_guard`, and the locked lazy start-up of the default center. Each operation is one atomic, sequential step.
- Callbacks are assumed to return normally and not to re-enter the center. Each callback runs while the post holds the center's lock (`NotificationCenter.cpp:89-97`, `src/NotificationCenter.cpp:89-97`), and there is no `try`/`catch`. A callback that throws would cut the post short: the remaining observers would not be called and `true` would not be returned. A callback that calls back into the center would deadlock on the non-recursive `std::mutex`. `Channels.Dispatch` and `PostNotification` always record every call and return `true` for a tracked notification.
- The console warning printed when posting to an unknown notification. This is I/O; only the `false` result is modelled.
- Callback bodies, `std::function`, `std::any` and `std::bind`. These are foreign code. A callback is an opaque identifier, and what a post does to it is the recorded `Call`. A payload is a value of the type parameter `P`. The int-keyed demo uses `AnyValue.Null` for the header's `nullptr` default payload.
- The ordering of `std::map` and the node layout of `std::list`. A Dafny `map` of sequences of observers with unique identities has the same observable behaviour.
- Behaviour that is undefined in C++ becomes defined in the model:
  - The by-locator `addObserver` reads `end()` before testing it. The model tests first and returns `End`.
  - The by-locator post's warning dereferences `end()`. The model only returns false.
  - `getNotificationIterator` returns a default-constructed iterator, not `end()`, for an unknown key. The model returns `NotFound`.
  - Erasing through a handle that was already removed, belongs to another notification, or is `End` is undefined for `std::list`. The model treats it as a no-op (`Channels.RemoveIsIdempotent`).
  - Using a locator whose entry was since removed is undefined in C++, because the map erase (`NotificationCenter.cpp:75`, `src/NotificationCenter.cpp:83`) leaves it dangling. The model identifies a locator with its key. While the key is untracked, the old locator is not found. Once the key is tracked again, the old locator denotes the new entry, and every `...At` method acts on that entry.
- Empty notifications are not pruned. `removeAllObservers` stops tracking a notification (its documentation is at `NotificationCenter.hpp:83-86`). `removeObserver` never does, even when it empties the list: a later post returns true. The model follows the code (`Channels.RemoveNeverPrunes`).
- Node identities are unbounded naturals and are never reused. C++ may reuse the memory of a freed node, but using a stale iterator is undefined there anyway.
- `include/NotificationCenter.h` has no implementation here. Its `int` keys and `std::any` payloads are covered by the generic class. `src/NotificationCenter.cpp` uses class and member names that differ from that header. This build mismatch is not modelled, and that revision's interface is taken from its `.cpp`.
- In `src/NotificationCenter.cpp` the default center is a function-local static, not a lazily filled pointer. Both give the same center on every call, and `DefaultCenter.DefaultNotificationCenter` models both.
- The demonstration program's printing and the `Foo` class are not modelled. The bound member function in the demo is callback 10. The two halves of the demo are verified as two methods, each starting from a fresh default center.
