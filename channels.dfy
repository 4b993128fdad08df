/** The value-level view of a notification center: one map from a
    notification key to the ordered list of observers of that notification,
    the transitions that `addObserver`, `removeObserver` and
    `removeAllObservers` make on it, and the sequence of callback invocations
    that `postNotification` performs. */
module Channels {

  /** The callback an observer holds. Callback bodies are foreign code, so
      the model names each callback by an opaque identifier. */
  type CallbackId = nat

  /** One node of a notification's observer list. `id` is the identity of
      the list node (what an observer iterator points at); `callback` is the
      one function the observer holds. */
  datatype Observer = Observer(id: nat, callback: CallbackId)

  /** One invocation made while posting: which callback ran, with which payload.
      The callback's return value is discarded by the center, so it is not
      recorded. */
  datatype Call<P> = Call(callback: CallbackId, payload: P)

  // ---------------------------------------------------------------------
  // Posting
  // ---------------------------------------------------------------------

  /** The invocations a post makes over `observers`: the list is walked from
      begin() to end(), each observer's callback is called once with the
      same payload. Defined by the last step so that it follows the loop. */
  function Dispatch<P>(observers: seq<Observer>, payload: P): (calls: seq<Call<P>>)
    ensures |calls| == |observers|
  {
    if observers == [] then []
    else Dispatch(observers[..|observers| - 1], payload)
         + [Call(observers[|observers| - 1].callback, payload)]
  }

  /** A post calls every observer exactly once, in list order, and hands each
      of them the same, unchanged payload. */
  lemma {:induction false} DispatchCallsEachInOrder<P>(observers: seq<Observer>, payload: P)
    ensures |Dispatch(observers, payload)| == |observers|
    ensures forall k :: 0 <= k < |observers| ==>
              Dispatch(observers, payload)[k] == Call(observers[k].callback, payload)
  {
    if observers != [] {
      DispatchCallsEachInOrder(observers[..|observers| - 1], payload);
    }
  }

  // ---------------------------------------------------------------------
  // Observer lists
  // ---------------------------------------------------------------------

  /** The node identities present in a list. */
  function Ids(observers: seq<Observer>): set<nat>
  {
    set o | o in observers :: o.id
  }

  /** No two nodes of a list share an identity. */
  ghost predicate Distinct(observers: seq<Observer>)
  {
    forall i, j :: 0 <= i < j < |observers| ==> observers[i].id != observers[j].id
  }

  /** `list::erase` of the node with identity `id`: the first node with that
      identity is unlinked and every other node stays where it was. */
  function Erase(observers: seq<Observer>, id: nat): (rest: seq<Observer>)
    ensures |rest| <= |observers| <= |rest| + 1
    ensures multiset(rest) <= multiset(observers)
  {
    if observers == [] then []
    else
      assert observers == [observers[0]] + observers[1..];
      if observers[0].id == id then observers[1..]
      else [observers[0]] + Erase(observers[1..], id)
  }

  lemma IdsAppend(observers: seq<Observer>, o: Observer)
    ensures Ids(observers + [o]) == Ids(observers) + {o.id}
  {
    assert o in observers + [o];
    forall x | x in Ids(observers) ensures x in Ids(observers + [o]) {
      var p :| p in observers && p.id == x;
      assert p in observers + [o];
    }
  }

  /** Erasing a node whose identity is not in the list changes nothing. */
  lemma {:induction false} EraseAbsent(observers: seq<Observer>, id: nat)
    requires id !in Ids(observers)
    ensures Erase(observers, id) == observers
  {
    if observers != [] {
      assert observers[0] in observers;
      assert Ids(observers[1..]) <= Ids(observers) by {
        forall x | x in Ids(observers[1..]) ensures x in Ids(observers) {
          var p :| p in observers[1..] && p.id == x;
          assert p in observers;
        }
      }
      EraseAbsent(observers[1..], id);
    }
  }

  /** Erasing the node at position `i` of a list without repeated
      identities removes exactly that node; the others keep their order. */
  lemma {:induction false} EraseAt(observers: seq<Observer>, i: nat)
    requires i < |observers| && Distinct(observers)
    ensures Erase(observers, observers[i].id) == observers[..i] + observers[i + 1..]
  {
    if i > 0 {
      var tail := observers[1..];
      assert observers[0].id != observers[i].id;
      assert tail[i - 1] == observers[i];
      EraseAt(tail, i - 1);
      assert observers[..i] == [observers[0]] + tail[..i - 1];
      assert observers[i + 1..] == tail[i..];
    }
  }

  /** The identities of a list with one more node in front. */
  lemma IdsCons(o: Observer, observers: seq<Observer>)
    ensures Ids([o] + observers) == {o.id} + Ids(observers)
  {
    assert o in [o] + observers;
    forall x | x in Ids(observers) ensures x in Ids([o] + observers) {
      var p :| p in observers && p.id == x;
      assert p in [o] + observers;
    }
  }

  /** A list with one more node in front has no repeated identities exactly
      when the rest has none and does not hold the new node's identity. */
  lemma DistinctCons(o: Observer, observers: seq<Observer>)
    ensures Distinct([o] + observers) <==> o.id !in Ids(observers) && Distinct(observers)
  {
    var s := [o] + observers;
    if Distinct(s) {
      forall p | p in observers ensures p.id != o.id {
        var j :| 0 <= j < |observers| && observers[j] == p;
        assert s[0] == o && s[j + 1] == p;
      }
      forall i, j | 0 <= i < j < |observers| ensures observers[i].id != observers[j].id {
        assert observers[i] == s[i + 1] && observers[j] == s[j + 1];
      }
    }
    if o.id !in Ids(observers) && Distinct(observers) {
      forall i, j | 0 <= i < j < |s| ensures s[i].id != s[j].id {
        assert s[j] == observers[j - 1];
        if i == 0 {
          assert observers[j - 1] in observers;
        } else {
          assert s[i] == observers[i - 1];
        }
      }
    }
  }

  /** Erasing keeps the list free of repeated identities and removes exactly
      the erased identity from it. */
  lemma {:induction false} EraseIds(observers: seq<Observer>, id: nat)
    requires Distinct(observers)
    ensures Distinct(Erase(observers, id))
    ensures Ids(Erase(observers, id)) == Ids(observers) - {id}
  {
    if observers != [] {
      var o, tail := observers[0], observers[1..];
      assert observers == [o] + tail;
      DistinctCons(o, tail);
      IdsCons(o, tail);
      if o.id != id {
        EraseIds(tail, id);
        DistinctCons(o, Erase(tail, id));
        IdsCons(o, Erase(tail, id));
      }
    }
  }

  /** Erasing one node leaves every node with another identity in the list:
      an observer's handle survives the removal of its siblings. */
  lemma {:induction false} EraseKeepsOthers(observers: seq<Observer>, id: nat, o: Observer)
    requires o in observers && o.id != id
    ensures o in Erase(observers, id)
  {
    if observers[0] != o {
      assert o in observers[1..];
      if observers[0].id != id {
        EraseKeepsOthers(observers[1..], id, o);
      }
    }
  }

  // ---------------------------------------------------------------------
  // The registry map and its transitions
  // ---------------------------------------------------------------------

  /** The observers of `name`, or the empty list `std::map::operator[]`
      default-constructs when `name` is not tracked yet. */
  function ListOf<K>(channels: map<K, seq<Observer>>, name: K): seq<Observer>
  {
    if name in channels then channels[name] else []
  }

  /** `_observers[name].push_back(o)`. */
  function Added<K>(channels: map<K, seq<Observer>>, name: K, o: Observer): (after: map<K, seq<Observer>>)
    ensures after.Keys == channels.Keys + {name}
    ensures forall k :: k in channels && k != name ==> after[k] == channels[k]
    ensures |after[name]| == |ListOf(channels, name)| + 1 && after[name][|after[name]| - 1] == o
    ensures after[name][..|after[name]| - 1] == ListOf(channels, name)
  {
    channels[name := ListOf(channels, name) + [o]]
  }

  /** `find(name)` and, when found, `erase` of node `id` from its list. */
  function Removed<K>(channels: map<K, seq<Observer>>, name: K, id: nat): (after: map<K, seq<Observer>>)
    ensures after.Keys == channels.Keys
    ensures forall k :: k in channels && k != name ==> after[k] == channels[k]
    ensures name in channels ==> multiset(after[name]) <= multiset(channels[name])
  {
    if name in channels then channels[name := Erase(channels[name], id)] else channels
  }

  /** The registry invariant: node identities are unique across the whole
      center (so a handle belongs to one notification only) and all of them
      were issued before `next`. */
  ghost predicate WellFormed<K>(channels: map<K, seq<Observer>>, next: nat)
  {
    && (forall k :: k in channels ==> Distinct(channels[k]))
    && (forall k, id :: k in channels && id in Ids(channels[k]) ==> id < next)
    && (forall k1, k2 :: k1 in channels && k2 in channels && k1 != k2 ==>
          Ids(channels[k1]) !! Ids(channels[k2]))
  }

  /** Adding an observer with a freshly issued identity keeps the invariant. */
  lemma AddedWellFormed<K>(channels: map<K, seq<Observer>>, next: nat, name: K, callback: CallbackId)
    requires WellFormed(channels, next)
    ensures WellFormed(Added(channels, name, Observer(next, callback)), next + 1)
  {
    var o := Observer(next, callback);
    var l := ListOf(channels, name);
    IdsAppend(l, o);
    assert next !in Ids(l);
    var r := Added(channels, name, o);
    forall k | k in r ensures Distinct(r[k]) {
      if k == name {
        forall i, j | 0 <= i < j < |r[k]| ensures r[k][i].id != r[k][j].id {
          if j == |l| {
            assert r[k][i] in l;
          } else {
            assert r[k][i] == l[i] && r[k][j] == l[j];
          }
        }
      }
    }
  }

  /** Removing an observer keeps the invariant. */
  lemma RemovedWellFormed<K>(channels: map<K, seq<Observer>>, next: nat, name: K, id: nat)
    requires WellFormed(channels, next)
    ensures WellFormed(Removed(channels, name, id), next)
  {
    if name in channels {
      EraseIds(channels[name], id);
    }
  }

  /** Dropping a whole notification keeps the invariant. */
  lemma DroppedWellFormed<K>(channels: map<K, seq<Observer>>, next: nat, name: K)
    requires WellFormed(channels, next)
    ensures WellFormed(channels - {name}, next)
  {
  }

  /** In a well-formed center a handle denotes an observer of one
      notification only. */
  lemma HandleInOneChannel<K>(channels: map<K, seq<Observer>>, next: nat, k1: K, k2: K, o1: Observer, o2: Observer)
    requires WellFormed(channels, next)
    requires k1 in channels && k2 in channels && o1 in channels[k1] && o2 in channels[k2]
    requires o1.id == o2.id
    ensures k1 == k2
  {
    assert o1.id in Ids(channels[k1]);
    assert o2.id in Ids(channels[k2]);
  }

  /** Erasing the node just appended gives back the list it was appended to. */
  lemma EraseLast(observers: seq<Observer>, o: Observer)
    requires Distinct(observers + [o])
    ensures Erase(observers + [o], o.id) == observers
  {
    var l := observers + [o];
    EraseAt(l, |observers|);
    assert l[..|observers|] + l[|observers| + 1..] == observers;
  }

  /** Adding an observer and then removing it through the returned handle
      puts every list back as it was. The notification itself stays tracked:
      when it was new, it is left with an empty list. */
  lemma AddThenRemove<K>(channels: map<K, seq<Observer>>, next: nat, name: K, callback: CallbackId)
    requires WellFormed(channels, next)
    ensures Removed(Added(channels, name, Observer(next, callback)), name, next)
            == if name in channels then channels else channels[name := []]
  {
    var l := ListOf(channels, name);
    var o := Observer(next, callback);
    AddedWellFormed(channels, next, name, callback);
    var a := Added(channels, name, o);
    assert a[name] == l + [o];
    EraseLast(l, o);
    assert Removed(a, name, next) == channels[name := l];
  }

  /** A post after removing the observer at position `i` fires the same
      calls as before, minus that one, in the same relative order. */
  lemma RemoveFiresSurvivors<P>(observers: seq<Observer>, i: nat, payload: P)
    requires i < |observers| && Distinct(observers)
    ensures |Dispatch(observers, payload)| == |observers|
    ensures Dispatch(Erase(observers, observers[i].id), payload)
            == Dispatch(observers, payload)[..i] + Dispatch(observers, payload)[i + 1..]
  {
    EraseAt(observers, i);
    var rest := observers[..i] + observers[i + 1..];
    var before := Dispatch(observers, payload);
    var after := Dispatch(rest, payload);
    DispatchCallsEachInOrder(observers, payload);
    DispatchCallsEachInOrder(rest, payload);
    var expected := before[..i] + before[i + 1..];
    assert |after| == |expected|;
    assert after == expected;
  }

  /** `removeObserver` never stops tracking a notification: every removal
      keeps the keys, and removing the only observer leaves an empty list,
      so a later post still finds the notification and calls nothing. */
  lemma RemoveNeverPrunes<K>(channels: map<K, seq<Observer>>, name: K, id: nat)
    ensures Removed(channels, name, id).Keys == channels.Keys
    ensures name in channels && |channels[name]| == 1 && channels[name][0].id == id ==>
              Removed(channels, name, id)[name] == []
  {
  }

  /** Handles are stable: an observer stays registered under its notification
      when another observer is added anywhere, or when an observer with a
      different handle is removed anywhere. */
  lemma HandleStable<K>(channels: map<K, seq<Observer>>, k: K, o: Observer, name: K, other: Observer)
    requires k in channels && o in channels[k] && other.id != o.id
    ensures o in Added(channels, name, other)[k]
    ensures o in Removed(channels, name, other.id)[k]
  {
    if k == name {
      assert o in ListOf(channels, name) + [other];
      EraseKeepsOthers(channels[k], other.id, o);
    }
  }

  /** Removing through a handle a second time has no effect; neither does
      removing through a handle issued for another notification. */
  lemma RemoveIsIdempotent<K>(channels: map<K, seq<Observer>>, next: nat, name: K, id: nat)
    requires WellFormed(channels, next)
    ensures Removed(Removed(channels, name, id), name, id) == Removed(channels, name, id)
    ensures (exists k :: k in channels && k != name && id in Ids(channels[k])) ==>
              Removed(channels, name, id) == channels
  {
    if name in channels {
      EraseIds(channels[name], id);
      EraseAbsent(Erase(channels[name], id), id);
      if exists k :: k in channels && k != name && id in Ids(channels[k]) {
        EraseAbsent(channels[name], id);
      }
    }
  }
}
