/** What bdn/property.h promises about setters, notifiers and bindings,
    proved of the functions in module Property. */
module PropertyLemmas {
  import opened Property

  /** No subscriber of `subs` writes to q. */
  ghost predicate Untargeted(subs: seq<Subscriber>, q: PropRef)
  {
    forall i :: 0 <= i < |subs| ==> subs[i].target != q
  }

  /** The subscribers of b write to distinct live properties other than b
      that have no subscribers of their own, so a change of b reaches each
      of them once and goes no further. */
  ghost predicate FanOut(s: State, b: PropRef)
  {
    var subs := SubsOf(s, b);
    && Untargeted(subs, b)
    && (forall i :: 0 <= i < |subs| ==> subs[i].target.owner in s.live && SubsOf(s, subs[i].target) == [])
    && (forall i, j :: 0 <= i < j < |subs| ==> subs[i].target != subs[j].target)
  }

  /** Every receiver bound to b holds the filtered value of b. */
  ghost predicate InSync(s: State, b: PropRef)
  {
    var subs := SubsOf(s, b);
    forall i :: 0 <= i < |subs| ==> Value(s, subs[i].target) == Filtered(subs[i], Value(s, b))
  }

  /** a and b are bound to each other by BDN_BIND_PROPERTIES and nothing
      else, and hold the same value. */
  ghost predicate TwoWay(s: State, a: PropRef, b: PropRef)
  {
    && a != b
    && a.owner in s.live && b.owner in s.live
    && SubsOf(s, a) == [MakePropertySubscriber(b)]
    && SubsOf(s, b) == [MakePropertySubscriber(a)]
    && Value(s, a) == Value(s, b)
  }

  /** The firings a fan-out of `value` to `subs` causes: one for each
      receiver whose value changes, in subscription order. */
  ghost function FanOutFirings(s: State, subs: seq<Subscriber>, value: int): seq<Firing>
  {
    if subs == [] then []
    else
      var t, v := subs[0].target, Filtered(subs[0], value);
      (if Value(s, t) != v then [Firing(t, v)] else []) + FanOutFirings(s, subs[1..], value)
  }

  lemma ConcatAssociative<T>(a: seq<T>, b: seq<T>, c: seq<T>)
    ensures (a + b) + c == a + (b + c)
  {
  }

  /** FanOutFirings only looks at the receivers' values. */
  lemma {:induction false} FanOutFiringsOfReceivers(s: State, t: State, subs: seq<Subscriber>, value: int)
    requires forall i :: 0 <= i < |subs| ==> Value(t, subs[i].target) == Value(s, subs[i].target)
    ensures FanOutFirings(t, subs, value) == FanOutFirings(s, subs, value)
    decreases |subs|
  {
    if subs != [] {
      assert forall i :: 0 <= i < |subs[1..]| ==> subs[1..][i] == subs[i + 1];
      FanOutFiringsOfReceivers(s, t, subs[1..], value);
    }
  }

  // ---------------------------------------------------------------------
  // The getter

  /** The getter reads back what was stored last for that property, and
      storing one property leaves every other one's value. */
  lemma ValueOfStore(s: State, p: PropRef, q: PropRef, v: int)
    ensures Value(Store(s, p, v), q) == (if q == p then v else Value(s, q))
  {
  }

  // ---------------------------------------------------------------------
  // The setter rule

  /** Setting a property to the value it already holds changes nothing and
      fires no notification. */
  lemma SetSameValueIsNoOp(s: State, p: PropRef, v: int, fuel: nat)
    requires Value(s, p) == v
    ensures Set(s, p, v, fuel) == Step(Ok, s)
  {
  }

  /** Setting a property to a new value fires its notifier, and the payload
      is the new value read back through the getter; the notifier exists
      from then on. */
  lemma SetNewValueFires(s: State, p: PropRef, v: int, fuel: nat)
    requires Value(s, p) != v && fuel > 0
    ensures var r := Set(s, p, v, fuel);
      && p in r.state.subs
      && |s.fired| < |r.state.fired|
      && r.state.fired[|s.fired|] == Firing(p, v)
  {
  }

  /** The changed case of the setter, unfolded: store, create the notifier,
      fire with v, notify the subscribers p had. */
  lemma SetUnfold(s: State, p: PropRef, v: int, fuel: nat)
    requires Value(s, p) != v && fuel > 0
    ensures var s1 := Changed(Store(s, p, v), p);
      Set(s, p, v, fuel) == Notify(s1.(fired := s1.fired + [Firing(p, v)]), SubsOf(s, p), v, fuel - 1)
  {
  }

  /** A property without subscribers: setting it writes it and nothing else,
      and a change fires its notifier exactly once. */
  lemma SetWithoutSubscribers(s: State, p: PropRef, v: int, fuel: nat)
    requires SubsOf(s, p) == [] && fuel > 0
    ensures var r := Set(s, p, v, fuel);
      && r.outcome == Ok
      && Value(r.state, p) == v
      && (forall q :: q != p ==> Value(r.state, q) == Value(s, q))
      && r.state.fired == s.fired + (if Value(s, p) != v then [Firing(p, v)] else [])
  {
    if Value(s, p) != v {
      SetUnfold(s, p, v, fuel);
    }
  }

  // ---------------------------------------------------------------------
  // The lazy notifier

  /** The first access creates an empty notifier; every later access finds
      the same one, with its subscribers, and changes nothing. */
  lemma ChangedIsCreatedOnce(s: State, p: PropRef)
    ensures p !in s.subs ==> SubsOf(Changed(s, p), p) == [] && Changed(s, p) != s
    ensures Changed(Changed(s, p), p) == Changed(s, p)
    ensures SubsOf(Changed(s, p), p) == SubsOf(s, p)
  {
  }

  // ---------------------------------------------------------------------
  // Subscribers

  /** A weak subscriber whose receiver owner is gone throws
      DanglingFunctionError and calls no setter; with a live owner it is one
      call of the receiver's setter with the filtered value. */
  lemma InvokeWeakSubscriber(s: State, sub: Subscriber, value: int, fuel: nat)
    requires !sub.RawFilteredSetter?
    ensures sub.target.owner !in s.live ==> Invoke(s, sub, value, fuel) == Step(DanglingFunctionError, s)
    ensures sub.target.owner in s.live ==>
      Invoke(s, sub, value, fuel) == Set(s, sub.target, Filtered(sub, value), fuel)
  {
  }

  /** The raw-pointer subscriber performs no liveness check: it calls the
      receiver's setter, and on a destroyed owner it dereferences a dangling
      pointer instead of throwing DanglingFunctionError. */
  lemma InvokeRawSubscriber(s: State, receiver: PropRef, filter: int -> int, value: int, fuel: nat)
    ensures var sub := MakeRawPropertySubscriberWithFilter(receiver, filter);
      && (receiver.owner in s.live ==> Invoke(s, sub, value, fuel) == Set(s, receiver, filter(value), fuel))
      && (receiver.owner !in s.live ==> Invoke(s, sub, value, fuel) == Step(UseAfterFree, s))
  {
  }

  /** The first call of a fan-out: its receiver gets the filtered value and
      nothing else changes, so the rest of the fan-out sees the same
      receivers and subscriber lists. */
  lemma FanOutHead(s: State, subs: seq<Subscriber>, value: int, fuel: nat)
    requires subs != [] && fuel > 0
    requires subs[0].target.owner in s.live && SubsOf(s, subs[0].target) == []
    ensures var t, v := subs[0].target, Filtered(subs[0], value);
      var r0 := Invoke(s, subs[0], value, fuel);
      && r0.outcome == Ok
      && Notify(s, subs, value, fuel) == Notify(r0.state, subs[1..], value, fuel)
      && Value(r0.state, t) == v
      && (forall q :: q != t ==> Value(r0.state, q) == Value(s, q))
      && r0.state.fired == s.fired + (if Value(s, t) != v then [Firing(t, v)] else [])
      && r0.state.live == s.live && (forall q :: SubsOf(r0.state, q) == SubsOf(s, q))
  {
    SetWithoutSubscribers(s, subs[0].target, Filtered(subs[0], value), fuel);
  }

  /** Notifying subscribers that write to distinct live properties without
      subscribers of their own: each receiver ends up with its filtered value
      and every other property is untouched. */
  lemma {:induction false} NotifyFanOut(s: State, subs: seq<Subscriber>, value: int, fuel: nat)
    requires fuel > 0
    requires forall i :: 0 <= i < |subs| ==> subs[i].target.owner in s.live && SubsOf(s, subs[i].target) == []
    requires forall i, j :: 0 <= i < j < |subs| ==> subs[i].target != subs[j].target
    ensures var r := Notify(s, subs, value, fuel);
      && r.outcome == Ok
      && (forall i :: 0 <= i < |subs| ==> Value(r.state, subs[i].target) == Filtered(subs[i], value))
      && (forall q :: Untargeted(subs, q) ==> Value(r.state, q) == Value(s, q))
    decreases |subs|
  {
    if subs != [] {
      var t := subs[0].target;
      var r0 := Invoke(s, subs[0], value, fuel);
      FanOutHead(s, subs, value, fuel);
      var rest := subs[1..];
      assert forall i :: 0 <= i < |rest| ==> rest[i] == subs[i + 1];
      NotifyFanOut(r0.state, rest, value, fuel);
      var r := Notify(s, subs, value, fuel);
      assert Untargeted(rest, t);
      forall i | 0 <= i < |subs|
        ensures Value(r.state, subs[i].target) == Filtered(subs[i], value)
      {
        if i > 0 {
          assert subs[i] == rest[i - 1];
        }
      }
      forall q | Untargeted(subs, q)
        ensures Value(r.state, q) == Value(s, q)
      {
        assert q != t;
        assert Untargeted(rest, q) by {
          forall i | 0 <= i < |rest| ensures rest[i].target != q {
            assert rest[i] == subs[i + 1];
          }
        }
      }
    }
  }

  /** The same fan-out fires each receiver whose value changes once, in
      subscription order, and nothing else. */
  lemma {:induction false} NotifyFanOutFirings(s: State, subs: seq<Subscriber>, value: int, fuel: nat)
    requires fuel > 0
    requires forall i :: 0 <= i < |subs| ==> subs[i].target.owner in s.live && SubsOf(s, subs[i].target) == []
    requires forall i, j :: 0 <= i < j < |subs| ==> subs[i].target != subs[j].target
    ensures Notify(s, subs, value, fuel).state.fired == s.fired + FanOutFirings(s, subs, value)
    decreases |subs|
  {
    if subs != [] {
      var t, v := subs[0].target, Filtered(subs[0], value);
      var r0 := Invoke(s, subs[0], value, fuel);
      FanOutHead(s, subs, value, fuel);
      var rest := subs[1..];
      assert forall i :: 0 <= i < |rest| ==> rest[i] == subs[i + 1];
      NotifyFanOutFirings(r0.state, rest, value, fuel);
      FanOutFiringsOfReceivers(s, r0.state, rest, value);
      var head := if Value(s, t) != v then [Firing(t, v)] else [];
      calc {
        Notify(s, subs, value, fuel).state.fired;
        Notify(r0.state, rest, value, fuel).state.fired;
        r0.state.fired + FanOutFirings(r0.state, rest, value);
        (s.fired + head) + FanOutFirings(s, rest, value);
        { ConcatAssociative(s.fired, head, FanOutFirings(s, rest, value)); }
        s.fired + (head + FanOutFirings(s, rest, value));
        s.fired + FanOutFirings(s, subs, value);
      }
    } else {
      assert s.fired + [] == s.fired;
    }
  }

  // ---------------------------------------------------------------------
  // One-way bindings

  /** Every later change of a sender sets each bound receiver to the
      (filtered) new value: the bindings stay in sync, and a set with the
      current value keeps them in sync by doing nothing. A change fires the
      sender's notifier once, then the receivers' in subscription order. */
  lemma SetKeepsBindingsInSync(s: State, b: PropRef, v: int, fuel: nat)
    requires FanOut(s, b) && InSync(s, b) && fuel >= 2
    ensures var r := Set(s, b, v, fuel);
      && r.outcome == Ok
      && Value(r.state, b) == v
      && FanOut(r.state, b) && InSync(r.state, b)
      && (forall q :: q != b && Untargeted(SubsOf(s, b), q) ==> Value(r.state, q) == Value(s, q))
      && r.state.fired == s.fired +
        (if Value(s, b) != v then [Firing(b, v)] + FanOutFirings(s, SubsOf(s, b), v) else [])
  {
    if Value(s, b) != v {
      SetUnfold(s, b, v, fuel);
      ChangeReachesBoundReceivers(s, b, v, fuel);
    } else {
      assert s.fired + [] == s.fired;
    }
  }

  /** The changed case of SetKeepsBindingsInSync, on the unfolded setter. */
  lemma ChangeReachesBoundReceivers(s: State, b: PropRef, v: int, fuel: nat)
    requires FanOut(s, b) && Value(s, b) != v && fuel >= 2
    ensures var s1 := Changed(Store(s, b, v), b);
      var r := Notify(s1.(fired := s1.fired + [Firing(b, v)]), SubsOf(s, b), v, fuel - 1);
      && r.outcome == Ok
      && Value(r.state, b) == v
      && FanOut(r.state, b) && InSync(r.state, b)
      && (forall q :: q != b && Untargeted(SubsOf(s, b), q) ==> Value(r.state, q) == Value(s, q))
      && r.state.fired == s.fired + ([Firing(b, v)] + FanOutFirings(s, SubsOf(s, b), v))
  {
    var subs := SubsOf(s, b);
    var s1 := Changed(Store(s, b, v), b);
    var s2 := s1.(fired := s1.fired + [Firing(b, v)]);
    assert Frame(s, s2);
    NotifyFanOut(s2, subs, v, fuel - 1);
    NotifyFanOutFirings(s2, subs, v, fuel - 1);
    FanOutFiringsOfReceivers(s, s2, subs, v);
    ConcatAssociative(s.fired, [Firing(b, v)], FanOutFirings(s, subs, v));
    var r := Notify(s2, subs, v, fuel - 1);
    assert Frame(s2, r.state);
    assert SubsOf(r.state, b) == subs;
    assert Value(r.state, b) == v;
    forall i | 0 <= i < |subs|
      ensures SubsOf(r.state, subs[i].target) == []
      ensures Value(r.state, subs[i].target) == Filtered(subs[i], Value(r.state, b))
    {
      assert SubsOf(r.state, subs[i].target) == SubsOf(s, subs[i].target);
    }
  }

  /** Binding a receiver without subscribers of its own to a sender: the
      receiver holds the (filtered) current value of the sender at once, no
      other property changes (the sender in particular), and the receiver's
      callback is the last subscriber of the sender. */
  lemma BindSynchronizes(s: State, sender: PropRef, sub: Subscriber, fuel: nat)
    requires sub.target != sender && sub.target.owner in s.live
    requires SubsOf(s, sub.target) == [] && fuel > 0
    ensures var r := Bind(s, sender, sub, fuel);
      && r.outcome == Ok
      && Value(r.state, sub.target) == Filtered(sub, Value(s, sender))
      && (forall q :: q != sub.target ==> Value(r.state, q) == Value(s, q))
      && SubsOf(r.state, sender) == SubsOf(s, sender) + [sub]
      && (forall q :: q != sender ==> SubsOf(r.state, q) == SubsOf(s, q))
      && r.state.live == s.live
  {
    var s1 := Subscribe(Changed(s, sender), sender, sub);
    assert SubsOf(s1, sub.target) == [];
    assert forall q :: q != sender ==> SubsOf(s1, q) == SubsOf(s, q);
    SetWithoutSubscribers(s1, sub.target, Filtered(sub, Value(s1, sender)), fuel);
  }

  /** BDN_BIND_TO_PROPERTY: after binding, the receiver equals the sender. */
  lemma BindToPropertySynchronizes(s: State, receiver: PropRef, sender: PropRef, fuel: nat)
    requires receiver != sender && receiver.owner in s.live
    requires SubsOf(s, receiver) == [] && fuel > 0
    ensures var r := BindToProperty(s, receiver, sender, fuel);
      && r.outcome == Ok
      && Value(r.state, receiver) == Value(s, sender)
      && Value(r.state, sender) == Value(s, sender)
  {
    BindSynchronizes(s, sender, MakePropertySubscriber(receiver), fuel);
  }

  /** BDN_BIND_TO_PROPERTY_WITH_FILTER: after binding, the receiver equals
      the filtered sender. */
  lemma BindWithFilterSynchronizes(s: State, receiver: PropRef, sender: PropRef, filter: int -> int, fuel: nat)
    requires receiver != sender && receiver.owner in s.live
    requires SubsOf(s, receiver) == [] && fuel > 0
    ensures var r := BindToPropertyWithFilter(s, receiver, sender, filter, fuel);
      && r.outcome == Ok
      && Value(r.state, receiver) == filter(Value(s, sender))
      && Value(r.state, sender) == Value(s, sender)
  {
    BindSynchronizes(s, sender, MakePropertySubscriberWithFilter(receiver, filter), fuel);
  }

  /** Adding a binding to a sender whose bindings are in sync keeps them all
      in sync, so SetKeepsBindingsInSync applies to every later change. */
  lemma BindKeepsBindingsInSync(s: State, sender: PropRef, sub: Subscriber, fuel: nat)
    requires FanOut(s, sender) && InSync(s, sender)
    requires sub.target != sender && sub.target.owner in s.live
    requires SubsOf(s, sub.target) == [] && Untargeted(SubsOf(s, sender), sub.target)
    requires fuel > 0
    ensures var r := Bind(s, sender, sub, fuel);
      r.outcome == Ok && FanOut(r.state, sender) && InSync(r.state, sender)
  {
    BindSynchronizes(s, sender, sub, fuel);
    var r := Bind(s, sender, sub, fuel);
    var old_subs := SubsOf(s, sender);
    var subs := SubsOf(r.state, sender);
    assert subs == old_subs + [sub];
    forall i | 0 <= i < |subs|
      ensures Value(r.state, subs[i].target) == Filtered(subs[i], Value(r.state, sender))
      ensures subs[i].target.owner in r.state.live && SubsOf(r.state, subs[i].target) == []
      ensures subs[i].target != sender
    {
      if i < |old_subs| {
        assert subs[i] == old_subs[i];
      }
    }
  }

  /** Why the binding lemmas ask for a receiver without subscribers: here
      the receiver a is bound onward to c, and c back to a through a constant
      filter, so right after a is bound to b it holds 99, not b's value 5. */
  lemma BindReceiverCanDiverge()
    ensures var a, b, c := PropRef(0, "a"), PropRef(1, "b"), PropRef(2, "c");
      var s := State(map[b := 5], map[a := [WeakSetter(c)], c := [WeakFilteredSetter(a, x => 99)]], {0, 1, 2}, []);
      var r := BindToProperty(s, a, b, 10);
      r.outcome == Ok && Value(r.state, a) == 99 && Value(r.state, b) == 5
  {
    var a, b, c := PropRef(0, "a"), PropRef(1, "b"), PropRef(2, "c");
    var back := WeakFilteredSetter(a, x => 99);
    var s := State(map[b := 5], map[a := [WeakSetter(c)], c := [back]], {0, 1, 2}, []);
    var s1 := Subscribe(Changed(s, b), b, MakePropertySubscriber(a));
    assert BindToProperty(s, a, b, 10) == Set(s1, a, 5, 10);
    // a: 0 -> 5, notifies c
    var t1 := Changed(Store(s1, a, 5), a).(fired := s1.fired + [Firing(a, 5)]);
    SetUnfold(s1, a, 5, 10);
    assert Set(s1, a, 5, 10) == Invoke(t1, WeakSetter(c), 5, 9);
    // c: 0 -> 5, notifies a through the constant filter
    var t2 := Changed(Store(t1, c, 5), c).(fired := t1.fired + [Firing(c, 5)]);
    SetUnfold(t1, c, 5, 9);
    assert Invoke(t1, WeakSetter(c), 5, 9) == Invoke(t2, back, 5, 8);
    // a: 5 -> 99, notifies c
    var t3 := Changed(Store(t2, a, 99), a).(fired := t2.fired + [Firing(a, 99)]);
    SetUnfold(t2, a, 99, 8);
    assert Invoke(t2, back, 5, 8) == Invoke(t3, WeakSetter(c), 99, 7);
    // c: 5 -> 99, notifies a, which already holds 99
    var t4 := Changed(Store(t3, c, 99), c).(fired := t3.fired + [Firing(c, 99)]);
    SetUnfold(t3, c, 99, 7);
    assert Invoke(t3, WeakSetter(c), 99, 7) == Invoke(t4, back, 99, 6);
    SetSameValueIsNoOp(t4, a, 99, 6);
    assert Invoke(t4, back, 99, 6) == Step(Ok, t4);
  }

  /** The binding is one-way: BDN_BIND_TO_PROPERTY subscribes nothing on the
      receiver, so a later write to the receiver leaves the sender, and
      every other property, as it was. */
  lemma ReceiverWriteIsOneWay(s: State, receiver: PropRef, sender: PropRef, v: int, fuel: nat)
    requires receiver != sender && receiver.owner in s.live
    requires SubsOf(s, receiver) == [] && fuel > 0
    ensures var r1 := BindToProperty(s, receiver, sender, fuel);
      var r2 := Set(r1.state, receiver, v, fuel);
      && r2.outcome == Ok
      && Value(r2.state, receiver) == v
      && Value(r2.state, sender) == Value(s, sender)
      && (forall q :: q != receiver ==> Value(r2.state, q) == Value(r1.state, q))
  {
    var r1 := BindToProperty(s, receiver, sender, fuel);
    BindSynchronizes(s, sender, MakePropertySubscriber(receiver), fuel);
    SetWithoutSubscribers(r1.state, receiver, v, fuel);
  }

  /** A weak subscriber whose receiver owner has been destroyed: the next
      change of the sender stores the new value, then fails with
      DanglingFunctionError and leaves the receiver untouched. */
  lemma DanglingReceiverFails(s: State, b: PropRef, v: int, fuel: nat)
    requires Value(s, b) != v && fuel > 0
    requires SubsOf(s, b) != [] && !SubsOf(s, b)[0].RawFilteredSetter?
    requires SubsOf(s, b)[0].target.owner !in s.live
    ensures var r := Set(s, b, v, fuel);
      && r.outcome == DanglingFunctionError
      && Value(r.state, b) == v
      && (forall q :: q != b ==> Value(r.state, q) == Value(s, q))
  {
    SetUnfold(s, b, v, fuel);
  }

  // ---------------------------------------------------------------------
  // Two-way bindings

  /** BDN_BIND_PROPERTIES where a has no subscribers yet: both end up holding
      b's original value, each subscribed to the other, and no other
      property or subscriber list changes. b may already have subscribers:
      the second binding sets b to the value it holds, which does nothing. */
  lemma BindPropertiesSynchronizes(s: State, a: PropRef, b: PropRef, fuel: nat)
    requires a != b && a.owner in s.live && b.owner in s.live
    requires SubsOf(s, a) == [] && fuel > 0
    ensures var r := BindProperties(s, a, b, fuel);
      && r.outcome == Ok
      && Value(r.state, a) == Value(s, b) && Value(r.state, b) == Value(s, b)
      && SubsOf(r.state, a) == [MakePropertySubscriber(b)]
      && SubsOf(r.state, b) == SubsOf(s, b) + [MakePropertySubscriber(a)]
      && (forall q :: q != a ==> Value(r.state, q) == Value(s, q))
      && (forall q :: q != a && q != b ==> SubsOf(r.state, q) == SubsOf(s, q))
  {
    BindSynchronizes(s, b, MakePropertySubscriber(a), fuel);
    var r1 := BindToProperty(s, a, b, fuel);
    var s1 := Subscribe(Changed(r1.state, a), a, MakePropertySubscriber(b));
    assert Value(s1, b) == Value(s1, a);
    SetSameValueIsNoOp(s1, b, Value(s1, a), fuel);
  }

  /** When neither property had subscribers, BDN_BIND_PROPERTIES leaves them
      bound to each other and nothing else, holding the same value. */
  lemma BindPropertiesMakesTwoWay(s: State, a: PropRef, b: PropRef, fuel: nat)
    requires a != b && a.owner in s.live && b.owner in s.live
    requires SubsOf(s, a) == [] && SubsOf(s, b) == [] && fuel > 0
    ensures var r := BindProperties(s, a, b, fuel);
      r.outcome == Ok && TwoWay(r.state, a, b)
  {
    BindPropertiesSynchronizes(s, a, b, fuel);
  }

  /** Setting either side of a two-way binding to v leaves both equal to v
      and still bound; the echo back to the first property is a no-op on an
      equal value, so two levels of fuel suffice. Since TwoWay(s, a, b) and
      TwoWay(s, b, a) are the same, this covers setting b as well. */
  lemma TwoWaySetConverges(s: State, a: PropRef, b: PropRef, v: int, fuel: nat)
    requires TwoWay(s, a, b) && fuel >= 2
    ensures var r := Set(s, a, v, fuel);
      && r.outcome == Ok
      && Value(r.state, a) == v && Value(r.state, b) == v
      && TwoWay(r.state, a, b)
      && (forall q :: q != a && q != b ==> Value(r.state, q) == Value(s, q))
  {
    if Value(s, a) != v {
      var s1 := Changed(Store(s, a, v), a);
      var s2 := s1.(fired := s1.fired + [Firing(a, v)]);
      SetUnfold(s, a, v, fuel);
      assert Invoke(s2, MakePropertySubscriber(b), v, fuel - 1) == Set(s2, b, v, fuel - 1);
      var t1 := Changed(Store(s2, b, v), b);
      var t2 := t1.(fired := t1.fired + [Firing(b, v)]);
      SetUnfold(s2, b, v, fuel - 1);
      SetSameValueIsNoOp(t2, a, v, fuel - 2);
      assert Invoke(t2, MakePropertySubscriber(a), v, fuel - 2) == Step(Ok, t2);
      assert Set(s2, b, v, fuel - 1) == Step(Ok, t2);
      assert Set(s, a, v, fuel) == Step(Ok, t2);
    }
  }
}
