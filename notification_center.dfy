/** The notification center itself: an object that owns the map from
    notification key to observer list and changes it in place. The key type
    `K` is the notification name (a string in both implemented revisions, an
    `int` in the snake_case header); `P` is the payload handed to every
    callback (the unit type `()` for the revision whose callbacks take no
    argument). */
module NotificationCenters {
  import opened Channels

  /** An observer iterator as returned by `addObserver`: either the node just
      appended, or the list's `end()` when there was no notification to add
      to. */
  datatype ObserverHandle = Handle(id: nat) | End

  /** A notification iterator as returned by `getNotificationIterator`:
      either the entry of a tracked notification, or the not-found value. */
  datatype Locator<K> = Entry(key: K) | NotFound

  /** Posts the notification to `observers`: walks the list from begin() to
      end() and calls each callback with `payload`. The returned sequence is
      the record of the calls made. */
  method Notify<P>(observers: seq<Observer>, payload: P) returns (calls: seq<Call<P>>)
    ensures calls == Dispatch(observers, payload)
  {
    calls := [];
    var i := 0;
    while i < |observers|
      invariant i <= |observers|
      invariant calls == Dispatch(observers[..i], payload)
    {
      assert observers[..i + 1][..i] == observers[..i];
      calls := calls + [Call(observers[i].callback, payload)];
      i := i + 1;
    }
    assert observers[..i] == observers;
  }

  class NotificationCenter<K(==), P> {
    /** The tracked notifications and their observers, in registration order. */
    var channels: map<K, seq<Observer>>
    /** The identity the next list node will get. */
    var nextId: nat

    ghost predicate Valid()
      reads this
    {
      WellFormed(channels, nextId)
    }

    /** A locator still denotes a tracked notification. */
    ghost predicate Live(loc: Locator<K>)
      reads this
    {
      loc.Entry? && loc.key in channels
    }

    constructor ()
      ensures Valid() && channels == map[] && nextId == 0
    {
      channels := map[];
      nextId := 0;
    }

    /** Appends a new observer holding `callback` to the notification `name`,
        which starts being tracked if it was not, and returns the handle of
        the new observer. */
    method AddObserver(callback: CallbackId, name: K) returns (h: ObserverHandle)
      requires Valid()
      modifies this
      ensures Valid()
      ensures h == Handle(old(nextId)) && nextId == old(nextId) + 1
      ensures channels == Added(old(channels), name, Observer(old(nextId), callback))
    {
      AddedWellFormed(channels, nextId, name, callback);
      var observers := if name in channels then channels[name] else [];
      channels := channels[name := observers + [Observer(nextId, callback)]];
      h := Handle(nextId);
      nextId := nextId + 1;
    }

    /** Like `AddObserver`, through a notification locator. When the locator
        does not denote a tracked notification, nothing changes and the
        handle is `End`. */
    method AddObserverAt(callback: CallbackId, loc: Locator<K>) returns (h: ObserverHandle)
      requires Valid()
      modifies this
      ensures Valid()
      ensures old(Live(loc)) ==>
                h == Handle(old(nextId)) && nextId == old(nextId) + 1 &&
                channels == Added(old(channels), loc.key, Observer(old(nextId), callback))
      ensures !old(Live(loc)) ==> h == End && channels == old(channels) && nextId == old(nextId)
    {
      h := End;
      if loc.Entry? && loc.key in channels {
        AddedWellFormed(channels, nextId, loc.key, callback);
        channels := channels[loc.key := channels[loc.key] + [Observer(nextId, callback)]];
        h := Handle(nextId);
        nextId := nextId + 1;
      }
    }

    /** Erases the observer `h` from the notification `name`, if `name` is
        tracked. The notification stays tracked even when its list becomes
        empty. */
    method RemoveObserver(name: K, h: ObserverHandle)
      requires Valid()
      modifies this
      ensures Valid() && nextId == old(nextId)
      ensures channels == if h.Handle? then Removed(old(channels), name, h.id) else old(channels)
    {
      if name in channels && h.Handle? {
        RemovedWellFormed(channels, nextId, name, h.id);
        channels := channels[name := Erase(channels[name], h.id)];
      }
    }

    /** Like `RemoveObserver`, through a notification locator; nothing
        changes when the locator does not denote a tracked notification. */
    method RemoveObserverAt(loc: Locator<K>, h: ObserverHandle)
      requires Valid()
      modifies this
      ensures Valid() && nextId == old(nextId)
      ensures channels == if old(Live(loc)) && h.Handle? then Removed(old(channels), loc.key, h.id)
                          else old(channels)
    {
      if loc.Entry? && loc.key in channels && h.Handle? {
        RemovedWellFormed(channels, nextId, loc.key, h.id);
        channels := channels[loc.key := Erase(channels[loc.key], h.id)];
      }
    }

    /** Stops tracking the notification `name` with all its observers;
        nothing changes if `name` is not tracked. */
    method RemoveAllObservers(name: K)
      requires Valid()
      modifies this
      ensures Valid() && nextId == old(nextId)
      ensures channels == old(channels) - {name}
      ensures name !in channels
    {
      DroppedWellFormed(channels, nextId, name);
      channels := channels - {name};
    }

    /** Like `RemoveAllObservers`, through a notification locator. */
    method RemoveAllObserversAt(loc: Locator<K>)
      requires Valid()
      modifies this
      ensures Valid() && nextId == old(nextId)
      ensures channels == if old(Live(loc)) then old(channels) - {loc.key} else old(channels)
    {
      if loc.Entry? && loc.key in channels {
        DroppedWellFormed(channels, nextId, loc.key);
        channels := channels - {loc.key};
      }
    }

    /** Posts the notification `name` with `payload`. When it is tracked, its
        callbacks are called in registration order and the result is true;
        otherwise no callback runs and the result is false. The center is
        not changed. */
    method PostNotification(name: K, payload: P) returns (found: bool, calls: seq<Call<P>>)
      ensures found <==> name in channels
      ensures found ==> calls == Dispatch(channels[name], payload)
      ensures !found ==> calls == []
    {
      if name in channels {
        calls := Notify(channels[name], payload);
        found := true;
      } else {
        found, calls := false, [];
      }
    }

    /** Like `PostNotification`, through a notification locator. */
    method PostNotificationAt(loc: Locator<K>, payload: P) returns (found: bool, calls: seq<Call<P>>)
      ensures found <==> Live(loc)
      ensures found ==> calls == Dispatch(channels[loc.key], payload)
      ensures !found ==> calls == []
    {
      if loc.Entry? && loc.key in channels {
        calls := Notify(channels[loc.key], payload);
        found := true;
      } else {
        found, calls := false, [];
      }
    }

    /** The locator of the notification `name`: its entry when tracked, the
        not-found value otherwise. The center is not changed. */
    method GetNotificationIterator(name: K) returns (loc: Locator<K>)
      ensures Live(loc) <==> name in channels
      ensures loc == if name in channels then Entry(name) else NotFound
    {
      if name in channels {
        loc := Entry(name);
      } else {
        loc := NotFound;
      }
    }
  }

  /** The process-wide storage behind `defaultNotificationCenter`: empty
      until the first call. */
  class DefaultCenter<K(==), P> {
    var instance: NotificationCenter?<K, P>

    /** The stored center, once it exists, satisfies the center's invariant. */
    ghost predicate Valid()
      reads this, instance
    {
      instance != null ==> instance.Valid()
    }

    constructor ()
      ensures Valid() && instance == null
    {
      instance := null;
    }

    /** The default center: created, empty, by the first call; the very same
        object on every later call. */
    method DefaultNotificationCenter() returns (center: NotificationCenter<K, P>)
      requires Valid()
      modifies this
      ensures Valid() && center.Valid()
      ensures old(instance) == null ==>
                fresh(center) && center.Valid() && center.channels == map[] && center.nextId == 0
      ensures old(instance) != null ==> center == old(instance)
      ensures instance == center
    {
      if instance == null {
        instance := new NotificationCenter();
      }
      center := instance;
    }
  }
}
