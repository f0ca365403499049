/**
  `OrderNotifier` and its two observers. An observer's `update` prints one
  line; here it returns that line, and notifying returns the lines in the
  order they are printed.
 */
module Notification {

  /** `MobileAppObserver` and `EmailObserver`, compared structurally. */
  datatype Observer = MobileApp | Email

  /** The channel prefix each observer prints before the order text. */
  function Prefix(o: Observer): string
  {
    match o
    case MobileApp => "[Мобильное приложение] "
    case Email => "[Email уведомление] "
  }

  /** Neither channel prefix is a prefix of the other. */
  lemma PrefixFree(o1: Observer, o2: Observer)
    ensures Prefix(o1) <= Prefix(o2) ==> o1 == o2
  {
    assert Prefix(MobileApp)[1] != Prefix(Email)[1];
  }

  /** Two prefixes of one sequence are comparable: the shorter is a prefix of the longer. */
  lemma PrefixesComparable<T>(a: seq<T>, b: seq<T>, c: seq<T>)
    requires a <= c && b <= c
    ensures a <= b || b <= a
  {
    if |a| <= |b| {
      assert a == b[..|a|];
    } else {
      assert b == a[..|b|];
    }
  }

  /**
    The line `update(orderInfo)` prints. The ensures spells out the
    concatenation so that the lemmas below can take the line apart.
   */
  function Update(o: Observer, orderInfo: string): (line: string)
    ensures Prefix(o) <= line && line[|Prefix(o)|..] == orderInfo
  {
    Prefix(o) + orderInfo
  }

  /** A printed line determines both the channel and the order text it carries. */
  lemma UpdateInjective(o1: Observer, info1: string, o2: Observer, info2: string)
    requires Update(o1, info1) == Update(o2, info2)
    ensures o1 == o2 && info1 == info2
  {
    PrefixesComparable(Prefix(o1), Prefix(o2), Update(o1, info1));
    PrefixFree(o1, o2);
    PrefixFree(o2, o1);
  }

  /** The lines printed by notifying `observers`, one per entry, in list order. */
  function Notifications(observers: seq<Observer>, orderInfo: string): (lines: seq<string>)
    ensures |lines| == |observers|
  {
    if observers == [] then []
    else [Update(observers[0], orderInfo)] + Notifications(observers[1..], orderInfo)
  }

  /** The k-th line comes from the k-th observer and carries the same order text. */
  lemma {:induction false} NotificationsAt(observers: seq<Observer>, orderInfo: string, k: nat)
    requires k < |observers|
    ensures Notifications(observers, orderInfo)[k] == Prefix(observers[k]) + orderInfo
  {
    if k > 0 {
      NotificationsAt(observers[1..], orderInfo, k - 1);
    }
  }

  /** Notifying a concatenation prints the first part's lines, then the second's. */
  lemma {:induction false} NotificationsAppend(a: seq<Observer>, b: seq<Observer>, orderInfo: string)
    ensures Notifications(a + b, orderInfo) == Notifications(a, orderInfo) + Notifications(b, orderInfo)
  {
    if a == [] {
      assert a + b == b;
    } else {
      assert (a + b)[1..] == a[1..] + b;
      NotificationsAppend(a[1..], b, orderInfo);
    }
  }

  /** `List.remove(Object)`: drop the first element equal to `x`, if any. */
  function RemoveFirst<T(==)>(s: seq<T>, x: T): (r: seq<T>)
    ensures |r| == if x in s then |s| - 1 else |s|
  {
    if s == [] then []
    else if s[0] == x then s[1..]
    else [s[0]] + RemoveFirst(s[1..], x)
  }

  /** The least index at which `x` occurs (`List.indexOf` when `x` is present). */
  function FirstIndex<T(==)>(s: seq<T>, x: T): (i: nat)
    requires x in s
    ensures i < |s| && s[i] == x && x !in s[..i]
  {
    if s[0] == x then 0
    else
      var j := FirstIndex(s[1..], x);
      assert s[..j + 1] == [s[0]] + s[1..][..j];
      j + 1
  }

  /** Removing an absent element leaves the list as it was. */
  lemma {:induction false} RemoveFirstAbsent<T>(s: seq<T>, x: T)
    requires x !in s
    ensures RemoveFirst(s, x) == s
  {
    if s != [] {
      RemoveFirstAbsent(s[1..], x);
    }
  }

  /** Removing a present element deletes exactly its first occurrence. */
  lemma {:induction false} RemoveFirstAt<T>(s: seq<T>, x: T)
    requires x in s
    ensures RemoveFirst(s, x) == s[..FirstIndex(s, x)] + s[FirstIndex(s, x) + 1..]
  {
    if s[0] != x {
      var j := FirstIndex(s[1..], x);
      RemoveFirstAt(s[1..], x);
      assert s[..j + 1] == [s[0]] + s[1..][..j];
      assert s[j + 2..] == s[1..][j + 1..];
    }
  }

  /** Removal takes away one copy of `x` when present and nothing else. */
  lemma {:induction false} RemoveFirstMultiset<T>(s: seq<T>, x: T)
    ensures multiset(RemoveFirst(s, x)) == multiset(s) - multiset{x}
  {
    if s != [] {
      assert s == [s[0]] + s[1..];
      RemoveFirstMultiset(s[1..], x);
    }
  }

  /** Registering `x` and then removing it restores the list if `x` was new. */
  lemma {:induction false} RemoveAfterRegister<T>(s: seq<T>, x: T)
    ensures RemoveFirst(s + [x], x) == if x in s then RemoveFirst(s, x) + [x] else s
  {
    if s == [] {
      assert s + [x] == [x];
    } else {
      assert (s + [x])[1..] == s[1..] + [x];
      RemoveAfterRegister(s[1..], x);
      assert x in s <==> s[0] == x || x in s[1..];
    }
  }

  /** Registering appends exactly one line, the new observer's, after the old ones. */
  lemma NotifyAfterRegister(observers: seq<Observer>, o: Observer, orderInfo: string)
    ensures Notifications(observers + [o], orderInfo)
         == Notifications(observers, orderInfo) + [Prefix(o) + orderInfo]
  {
    NotificationsAppend(observers, [o], orderInfo);
  }

  /** Notifying prints the lines before entry `i`, then entry `i`'s, then the rest. */
  lemma NotificationsSplit(observers: seq<Observer>, orderInfo: string, i: nat)
    requires i < |observers|
    ensures Notifications(observers, orderInfo)
         == Notifications(observers[..i], orderInfo) + [Update(observers[i], orderInfo)]
            + Notifications(observers[i + 1..], orderInfo)
  {
    var before, after := observers[..i], observers[i + 1..];
    assert observers == before + ([observers[i]] + after);
    NotificationsAppend(before, [observers[i]] + after, orderInfo);
    NotificationsAppend([observers[i]], after, orderInfo);
  }

  /**
    After removing a registered observer, notifying prints every old line
    except the one of its first occurrence, the others in their old order.
   */
  lemma NotifyAfterRemove(observers: seq<Observer>, o: Observer, orderInfo: string)
    requires o in observers
    ensures var i := FirstIndex(observers, o);
            var lines := Notifications(observers, orderInfo);
            Notifications(RemoveFirst(observers, o), orderInfo) == lines[..i] + lines[i + 1..]
  {
    var i := FirstIndex(observers, o);
    var lines := Notifications(observers, orderInfo);
    var head := Notifications(observers[..i], orderInfo);
    var tail := Notifications(observers[i + 1..], orderInfo);
    NotificationsSplit(observers, orderInfo, i);
    assert lines[..i] == head;
    assert lines[i + 1..] == tail;
    RemoveFirstAt(observers, o);
    NotificationsAppend(observers[..i], observers[i + 1..], orderInfo);
  }

  class OrderNotifier {
    /** The `observers` ArrayList, in registration order. */
    var observers: seq<Observer>

    /** A new notifier has no observers. */
    constructor ()
      ensures observers == []
    {
      observers := [];
    }

    /** `observers.add(observer)`: appends; duplicates are kept. */
    method RegisterObserver(o: Observer)
      modifies this
      ensures observers == old(observers) + [o]
    {
      observers := observers + [o];
    }

    /** `observers.remove(observer)`: drops the first equal entry, if there is one. */
    method RemoveObserver(o: Observer)
      modifies this
      ensures observers == RemoveFirst(old(observers), o)
      ensures o !in old(observers) ==> observers == old(observers)
      ensures o in old(observers) ==>
                var i := FirstIndex(old(observers), o);
                observers == old(observers)[..i] + old(observers)[i + 1..]
    {
      if o in observers {
        RemoveFirstAt(observers, o);
      } else {
        RemoveFirstAbsent(observers, o);
      }
      observers := RemoveFirst(observers, o);
    }

    /**
      Calls every observer's `update` in list order, returning the lines they
      print; the list itself is left alone.
     */
    method NotifyObservers(orderInfo: string) returns (lines: seq<string>)
      ensures |lines| == |observers|
      ensures forall k :: 0 <= k < |observers| ==> lines[k] == Prefix(observers[k]) + orderInfo
      ensures lines == Notifications(observers, orderInfo)
    {
      lines := [];
      for k := 0 to |observers|
        invariant |lines| == k
        invariant forall j :: 0 <= j < k ==> lines[j] == Prefix(observers[j]) + orderInfo
      {
        lines := lines + [Update(observers[k], orderInfo)];
      }
      forall k | 0 <= k < |observers|
        ensures lines[k] == Notifications(observers, orderInfo)[k]
      {
        NotificationsAt(observers, orderInfo, k);
      }
    }
  }
}
