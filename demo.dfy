/** Client code of the notification center: the demonstration program run
    as a whole, and two client-side facts the center's documentation
    promises. */
module Demo {
  import opened Channels
  import opened NotificationCenters

  /** The calls made by the callbacks `lo` .. `hi - 1` of the demonstration,
      in that order, with the empty payload. */
  function Announcements(lo: nat, hi: nat): (calls: seq<Call<()>>)
    requires lo <= hi
  {
    seq(hi - lo, k requires 0 <= k < hi - lo => Call(lo + k, ()))
  }

  /** The observers of "Poster" with handles `lo` .. `hi - 1`: the observer
      with handle `j` was the `j + 1`-th added and holds callback `j + 1`,
      which announces "notification j + 1". */
  function Poster(lo: nat, hi: nat): (observers: seq<Observer>)
    requires lo <= hi
  {
    seq(hi - lo, j requires 0 <= j < hi - lo => Observer(lo + j, lo + j + 1))
  }

  /** Posting to the observers with handles `lo` .. 7 announces `lo + 1` .. 8. */
  lemma PosterAnnounces(lo: nat)
    requires lo <= 8
    ensures Dispatch(Poster(lo, 8), ()) == Announcements(lo + 1, 9)
  {
    DispatchCallsEachInOrder(Poster(lo, 8), ());
  }

  /** One step of the demonstration's first part: the observer with callback
      `k + 1` is added to "Poster", the only notification tracked, and gets
      handle `k`. */
  method AddPosterObserver(center: NotificationCenter<string, ()>, k: nat) returns (h: ObserverHandle)
    requires center.Valid() && center.nextId == k
    requires center.channels == map["Poster" := Poster(0, k)]
    modifies center
    ensures center.Valid() && center.nextId == k + 1 && h == Handle(k)
    ensures center.channels == map["Poster" := Poster(0, k + 1)]
  {
    h := center.AddObserver(k + 1, "Poster");
    assert Poster(0, k) + [Observer(k, k + 1)] == Poster(0, k + 1);
  }

  /** One round of the demonstration: post "Poster", which fires the
      observers added `k + 1`-th to 8th, then remove the first of them
      through its handle. */
  method PostThenRemove(center: NotificationCenter<string, ()>, k: nat, h: ObserverHandle)
    returns (found: bool, fired: seq<Call<()>>)
    requires k < 8 && h == Handle(k)
    requires center.Valid() && center.channels == map["Poster" := Poster(k, 8)]
    modifies center
    ensures center.Valid() && center.channels == map["Poster" := Poster(k + 1, 8)]
    ensures found && fired == Announcements(k + 1, 9)
  {
    PosterAnnounces(k);
    found, fired := center.PostNotification("Poster", ());
    center.RemoveObserver("Poster", h);
    assert Poster(k, 8)[0].id == k;
    assert Poster(k, 8)[1..] == Poster(k + 1, 8);
  }

  /** The first part of the demonstration program: observers 1 to 8 are
      added to "Poster" on an empty center; the first five handles are
      kept. */
  method AddPosterObservers(center: NotificationCenter<string, ()>)
    returns (i1: ObserverHandle, i2: ObserverHandle, i3: ObserverHandle, i4: ObserverHandle, i5: ObserverHandle)
    requires center.Valid() && center.channels == map[] && center.nextId == 0
    modifies center
    ensures center.Valid() && center.channels == map["Poster" := Poster(0, 8)]
    ensures i1 == Handle(0) && i2 == Handle(1) && i3 == Handle(2) && i4 == Handle(3) && i5 == Handle(4)
  {
    ghost var none: map<string, seq<Observer>> := map[];
    i1 := center.AddObserver(1, "Poster");
    assert ListOf(none, "Poster") + [Observer(0, 1)] == Poster(0, 1);
    i2 := AddPosterObserver(center, 1);
    i3 := AddPosterObserver(center, 2);
    i4 := AddPosterObserver(center, 3);
    i5 := AddPosterObserver(center, 4);
    var _ := AddPosterObserver(center, 5);
    var _ := AddPosterObserver(center, 6);
    var _ := AddPosterObserver(center, 7);
  }

  /** The demonstration program on the default center. Observers 1 to 8
      are added to "Poster"; then they are removed through their handles
      one at a time from the first, and each post fires exactly the
      survivors in registration order. After the whole notification is
      removed a post finds nothing. */
  method PosterDemo() returns (delivered: seq<bool>, calls: seq<seq<Call<()>>>)
    ensures delivered == [true, true, true, true, true, true, false]
    ensures calls == [Announcements(1, 9), Announcements(2, 9), Announcements(3, 9),
                      Announcements(4, 9), Announcements(5, 9), Announcements(6, 9), []]
  {
    var process := new DefaultCenter<string, ()>();
    var center := process.DefaultNotificationCenter();
    var i1, i2, i3, i4, i5 := AddPosterObservers(center);
    assert Poster(0, 8) == Poster(0, 8)[0..];

    var found1, fired1 := PostThenRemove(center, 0, i1);
    var found2, fired2 := PostThenRemove(center, 1, i2);
    var found3, fired3 := PostThenRemove(center, 2, i3);
    var found4, fired4 := PostThenRemove(center, 3, i4);
    var found5, fired5 := PostThenRemove(center, 4, i5);
    PosterAnnounces(5);
    var found6, fired6 := center.PostNotification("Poster", ());

    center.RemoveAllObservers("Poster");
    var found7, fired7 := center.PostNotification("Poster", ());
    delivered := [found1, found2, found3, found4, found5, found6, found7];
    calls := [fired1, fired2, fired3, fired4, fired5, fired6, fired7];
  }

  /** Posting to one observer, then to two, calls their callbacks in order. */
  lemma DispatchTwo(first: Observer, second: Observer)
    ensures Dispatch([first], ()) == [Call(first.callback, ())]
    ensures Dispatch([first, second], ()) == [Call(first.callback, ()), Call(second.callback, ())]
  {
    DispatchCallsEachInOrder([first], ());
    DispatchCallsEachInOrder([first, second], ());
  }

  /** The locator post of the demonstration's second part: "Second Poster"
      has the one observer with callback 9. */
  method PostThroughLocator(center: NotificationCenter<string, ()>) returns (found: bool, fired: seq<Call<()>>)
    requires center.channels == map["Second Poster" := [Observer(0, 9)]]
    ensures found && fired == [Call(9, ())]
  {
    var loc := center.GetNotificationIterator("Second Poster");
    found, fired := center.PostNotificationAt(loc, ());
    DispatchCallsEachInOrder([Observer(0, 9)], ());
  }

  /** The bound member function (callback 10) joins "Second Poster", and a
      post by name fires both observers in registration order. */
  method AddThenPostBoth(center: NotificationCenter<string, ()>) returns (found: bool, fired: seq<Call<()>>)
    requires center.Valid() && center.nextId == 1
    requires center.channels == map["Second Poster" := [Observer(0, 9)]]
    modifies center
    ensures found && fired == [Call(9, ()), Call(10, ())]
  {
    var _ := center.AddObserver(10, "Second Poster");
    assert center.channels["Second Poster"] == [Observer(0, 9), Observer(1, 10)];
    found, fired := center.PostNotification("Second Poster", ());
    DispatchTwo(Observer(0, 9), Observer(1, 10));
  }

  /** The end of the demonstration program, on a fresh default center: an observer of "Second Poster" is posted
      to through a locator, then a second observer (the bound member
      function, callback 10) joins it and both are posted to by name. Every
      call to the accessor yields the same center. */
  method SecondPosterDemo() returns (delivered: seq<bool>, calls: seq<seq<Call<()>>>, same: bool)
    ensures delivered == [true, true] && same
    ensures calls == [[Call(9, ())], [Call(9, ()), Call(10, ())]]
  {
    var process := new DefaultCenter<string, ()>();
    var center := process.DefaultNotificationCenter();
    ghost var none: map<string, seq<Observer>> := map[];
    var _ := center.AddObserver(9, "Second Poster");
    assert ListOf(none, "Second Poster") + [Observer(0, 9)] == [Observer(0, 9)];
    var again := process.DefaultNotificationCenter();
    same := again == center;
    var found1, fired1 := PostThroughLocator(again);
    var found2, fired2 := AddThenPostBoth(again);
    delivered := [found1, found2];
    calls := [fired1, fired2];
  }

  /** A payload as the int-keyed revision's callbacks receive it; `Null` is
      the default argument of a post. */
  datatype AnyValue = Null | Value(n: int)

  /** A privately constructed center shares nothing with the default one,
      and the default center is the same object on every call. */
  method IndependentCenters() returns (privateFound: bool, defaultFound: bool, same: bool, calls: seq<Call<AnyValue>>)
    ensures privateFound && !defaultFound && same
    ensures calls == [Call(7, Null)]
  {
    var process := new DefaultCenter<int, AnyValue>();
    var shared := process.DefaultNotificationCenter();
    var own := new NotificationCenter<int, AnyValue>();
    var _ := own.AddObserver(7, 1);
    privateFound, calls := own.PostNotification(1, Null);
    var again := process.DefaultNotificationCenter();
    same := again == shared;
    var none;
    defaultFound, none := again.PostNotification(1, Null);
  }

  /** A locator from `GetNotificationIterator` can stand in for the name:
      posting through it has the same outcome as posting by name. */
  method LocatorPostAgrees<K(==), P>(center: NotificationCenter<K, P>, name: K, payload: P)
    returns (byName: bool, byLocator: bool, callsByName: seq<Call<P>>, callsByLocator: seq<Call<P>>)
    ensures byName == byLocator && callsByName == callsByLocator
  {
    byName, callsByName := center.PostNotification(name, payload);
    var loc := center.GetNotificationIterator(name);
    byLocator, callsByLocator := center.PostNotificationAt(loc, payload);
  }
}
