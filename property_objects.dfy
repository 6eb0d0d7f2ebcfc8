/** The objects behind bdn/property.h: the owners' property storage, their
    lazily allocated changed notifiers and the weak references that bindings
    hold. The getter, setter, notification and binding methods of World
    are proved against the functions of the same name in module Property,
    through Abs(); SubscribeTo against Property.Subscribe after
    Property.Changed. NewOwner, Destroy and Notifier.Subscribe have no
    counterpart there and state the new fields directly. */
module PropertyObjects {
  import opened Property

  /** A property's changed notifier (bdn::PropertyNotifier): its subscriber
      list, appended to by subscribe(). */
  class Notifier {
    var subscribers: seq<Subscriber>

    constructor ()
      ensures subscribers == []
    {
      subscribers := [];
    }

    method Subscribe(sub: Subscriber)
      modifies this
      ensures subscribers == old(subscribers) + [sub]
    {
      subscribers := subscribers + [sub];
    }
  }

  /** All owner objects of a program together: `store` holds each property's
      `_propertyValue_` member, `notifiers` each `_pPropertyChanged_` pointer
      that is no longer null, `live` the owners a WeakP still resolves to. */
  class World {
    var store: map<PropRef, int>
    var notifiers: map<PropRef, Notifier>
    var live: set<OwnerId>
    var nextOwner: nat
    ghost var fired: seq<Firing>

    /** Each property has its own notifier, and only owners that have been
        created have stored values or notifiers. */
    ghost predicate Valid()
      reads this
    {
      && (forall q, q' :: q in notifiers && q' in notifiers && q != q' ==> notifiers[q] != notifiers[q'])
      && (forall q :: q in store ==> q.owner < nextOwner)
      && (forall q :: q in notifiers ==> q.owner < nextOwner)
      && (forall o :: o in live ==> o < nextOwner)
    }

    /** The state as module Property sees it. */
    ghost function Abs(): State
      reads this, notifiers.Values
    {
      State(store, map q | q in notifiers :: notifiers[q].subscribers, live, fired)
    }

    /** Notifiers, once created, stay the same objects; new ones are new; no
        owner id is issued. */
    twostate predicate NotifiersKept()
      reads this
    {
      && nextOwner == old(nextOwner)
      && (forall q :: q in old(notifiers) ==> q in notifiers && notifiers[q] == old(notifiers[q]))
      && (forall q :: q in notifiers && q !in old(notifiers) ==> fresh(notifiers[q]))
    }

    constructor ()
      ensures Valid() && Abs() == State(map[], map[], {}, [])
    {
      store, notifiers, live, nextOwner, fired := map[], map[], {}, 0, [];
    }

    /** The getter: the value the state holds for p. */
    function Get(p: PropRef): (v: int)
      reads this, notifiers.Values
      ensures v == Value(Abs(), p)
    {
      Lookup(store, p)
    }

    /** Constructs an owner object: its properties hold the default value
        and none of its notifiers exists yet. */
    method NewOwner() returns (o: OwnerId)
      requires Valid()
      modifies this
      ensures Valid()
      ensures o !in old(live) && live == old(live) + {o}
      ensures o == old(nextOwner) && nextOwner == old(nextOwner) + 1
      ensures store == old(store) && notifiers == old(notifiers) && fired == old(fired)
      ensures forall name :: Get(PropRef(o, name)) == Default && PropRef(o, name) !in notifiers
    {
      o := nextOwner;
      nextOwner := nextOwner + 1;
      live := live + {o};
    }

    /** Destroys an owner object: weak references to it no longer resolve. */
    method Destroy(o: OwnerId)
      requires Valid() && o in live
      modifies this
      ensures Valid()
      ensures live == old(live) - {o} && nextOwner == old(nextOwner)
      ensures store == old(store) && notifiers == old(notifiers) && fired == old(fired)
    {
      live := live - {o};
    }

    /** The "changed" accessor: allocates p's notifier on first access and
        returns that same object on every later one. */
    method Changed(p: PropRef) returns (n: Notifier)
      requires Valid() && p.owner in live
      modifies this
      ensures Valid() && NotifiersKept()
      ensures Abs() == Property.Changed(old(Abs()), p)
      ensures p in notifiers && n == notifiers[p]
      ensures p in old(notifiers) ==> n == old(notifiers[p]) && notifiers == old(notifiers)
      ensures p !in old(notifiers) ==> fresh(n) && n.subscribers == [] && notifiers == old(notifiers)[p := n]
      ensures store == old(store) && live == old(live) && nextOwner == old(nextOwner) && fired == old(fired)
    {
      if p in notifiers {
        n := notifiers[p];
        assert p in Abs().subs;
      } else {
        n := new Notifier();
        notifiers := notifiers[p := n];
        ghost var subs := old(Abs()).subs[p := []];
        assert forall q :: q in notifiers <==> q in subs;
        assert forall q :: q in notifiers ==> notifiers[q].subscribers == subs[q];
        assert Abs().subs == subs;
        assert Abs() == old(Abs()).(subs := subs);
      }
    }

    /** The generated setter. */
    method Set(p: PropRef, v: int, fuel: nat) returns (r: Outcome)
      requires Valid() && p.owner in live
      modifies this
      ensures Valid() && NotifiersKept()
      ensures Step(r, Abs()) == Property.Set(old(Abs()), p, v, fuel)
      decreases fuel, 0
    {
      if Get(p) == v {
        return Ok;
      }
      if fuel == 0 {
        return Exhausted;
      }
      store := store[p := v];
      assert Abs() == Store(old(Abs()), p, v);
      r := NotifyChanged(p, fuel - 1);
    }

    /** BDN_NOTIFY_PROPERTY_CHANGED */
    method NotifyChanged(p: PropRef, fuel: nat) returns (r: Outcome)
      requires Valid() && p.owner in live
      modifies this
      ensures Valid() && NotifiersKept()
      ensures Step(r, Abs()) == Property.NotifyChanged(old(Abs()), p, fuel)
      decreases fuel, 3
    {
      var n := Changed(p);
      ghost var s1 := Abs();
      assert n.subscribers == s1.subs[p];
      var payload := Get(p);
      fired := fired + [Firing(p, payload)];
      assert Abs() == s1.(fired := s1.fired + [Firing(p, payload)]);
      r := Notify(n.subscribers, payload, fuel);
    }

    /** The notifier's notify(): calls the subscribers in order and stops at
        the first one that throws. */
    method Notify(subs: seq<Subscriber>, value: int, fuel: nat) returns (r: Outcome)
      requires Valid()
      modifies this
      ensures Valid() && NotifiersKept()
      ensures Step(r, Abs()) == Property.Notify(old(Abs()), subs, value, fuel)
      decreases fuel, 2
    {
      var i := 0;
      while i < |subs|
        invariant 0 <= i <= |subs|
        invariant Valid() && NotifiersKept()
        invariant Property.Notify(Abs(), subs[i..], value, fuel) == Property.Notify(old(Abs()), subs, value, fuel)
      {
        assert subs[i..][0] == subs[i] && subs[i..][1..] == subs[i + 1..];
        var o := Invoke(subs[i], value, fuel);
        if o != Ok {
          return o;
        }
        i := i + 1;
      }
      r := Ok;
    }

    /** Calls one subscriber callback. */
    method Invoke(sub: Subscriber, value: int, fuel: nat) returns (r: Outcome)
      requires Valid()
      modifies this
      ensures Valid() && NotifiersKept()
      ensures Step(r, Abs()) == Property.Invoke(old(Abs()), sub, value, fuel)
      decreases fuel, 1
    {
      match sub
      case RawFilteredSetter(target, filter) =>
        if target.owner !in live {
          // the raw pointer dangles; C++ calls the setter on freed memory
          return UseAfterFree;
        }
        r := Set(target, filter(value), fuel);
      case _ =>
        // WeakP::toStrong
        if sub.target.owner !in live {
          return DanglingFunctionError;
        }
        r := Set(sub.target, Filtered(sub, value), fuel);
    }

    /** `senderChanged().subscribe(sub)`: appends `sub` to the sender's
        notifier, creating the notifier first if needed. */
    method SubscribeTo(sender: PropRef, sub: Subscriber)
      requires Valid() && sender.owner in live
      modifies this, notifiers.Values
      ensures Valid() && NotifiersKept()
      ensures Abs() == Subscribe(Property.Changed(old(Abs()), sender), sender, sub)
    {
      var n := Changed(sender);
      ghost var s0 := Abs();
      ghost var subs := s0.subs[sender := s0.subs[sender] + [sub]];
      n.Subscribe(sub);
      forall q | q in notifiers
        ensures notifiers[q].subscribers == subs[q]
      {
        if q != sender {
          assert notifiers[q] != n;
        }
      }
      assert Abs().subs == subs;
    }

    /** Subscribes `sub` on the sender's notifier, then calls the receiver's
        setter with the (filtered) current value of the sender. */
    method Bind(sender: PropRef, sub: Subscriber, fuel: nat) returns (r: Outcome)
      requires Valid() && sender.owner in live && sub.target.owner in live
      modifies this, notifiers.Values
      ensures Valid() && NotifiersKept()
      ensures Step(r, Abs()) == Property.Bind(old(Abs()), sender, sub, fuel)
    {
      SubscribeTo(sender, sub);
      r := Set(sub.target, Filtered(sub, Get(sender)), fuel);
    }

    /** BDN_BIND_TO_PROPERTY */
    method BindToProperty(receiver: PropRef, sender: PropRef, fuel: nat) returns (r: Outcome)
      requires Valid() && sender.owner in live && receiver.owner in live
      modifies this, notifiers.Values
      ensures Valid() && NotifiersKept()
      ensures Step(r, Abs()) == Property.BindToProperty(old(Abs()), receiver, sender, fuel)
    {
      r := Bind(sender, MakePropertySubscriber(receiver), fuel);
    }

    /** BDN_BIND_TO_PROPERTY_WITH_FILTER */
    method BindToPropertyWithFilter(receiver: PropRef, sender: PropRef, filter: int -> int, fuel: nat)
      returns (r: Outcome)
      requires Valid() && sender.owner in live && receiver.owner in live
      modifies this, notifiers.Values
      ensures Valid() && NotifiersKept()
      ensures Step(r, Abs()) == Property.BindToPropertyWithFilter(old(Abs()), receiver, sender, filter, fuel)
    {
      r := Bind(sender, MakePropertySubscriberWithFilter(receiver, filter), fuel);
    }

    /** BDN_BIND_PROPERTIES */
    method BindProperties(a: PropRef, b: PropRef, fuel: nat) returns (r: Outcome)
      requires Valid() && a.owner in live && b.owner in live
      modifies this, notifiers.Values
      ensures Valid() && NotifiersKept()
      ensures Step(r, Abs()) == Property.BindProperties(old(Abs()), a, b, fuel)
    {
      r := BindToProperty(a, b, fuel);
      if r != Ok {
        return;
      }
      r := BindToProperty(b, a, fuel);
    }
  }

  /** A destroyed owner is never revived: owners created later get new ids,
      so weak references to the destroyed one keep failing to resolve. */
  method DestroyedOwnerStaysDestroyed(w: World) returns (o: OwnerId, o2: OwnerId)
    requires w.Valid()
    modifies w
    ensures w.Valid() && o2 != o && o !in w.live && o2 in w.live
  {
    o := w.NewOwner();
    w.Destroy(o);
    o2 := w.NewOwner();
  }
}
