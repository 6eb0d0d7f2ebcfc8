/** The observable-property and binding mechanism of bdn/property.h, as values.

    A property is addressed by its owner object and its name. A state holds the
    stored value of every property, the subscriber list of every property whose
    "changed" notifier has been created, and the set of owners that are still
    alive (what a WeakP resolves against). Setting a property and the
    notifications it triggers are the mutually recursive functions Set,
    NotifyChanged, Notify and Invoke. Filters are arbitrary functions, so
    bindings can form cycles that never settle; `fuel` bounds the number of
    nested value changes and `Exhausted` stands for the unbounded recursion
    the C++ code would run into. */
module Property {

  type OwnerId = nat

  /** A property: the owner object it belongs to and its name. */
  datatype PropRef = PropRef(owner: OwnerId, name: string)

  /** The value a property holds before its setter is first called
      (the value-initialised `valueType{}` of an int). */
  const Default: int := 0

  /** A subscriber callback registered on a notifier.
      WeakSetter and WeakFilteredSetter hold a weak reference to the receiver's
      owner and check it before calling the receiver's setter; RawFilteredSetter
      holds a plain pointer and checks nothing. */
  datatype Subscriber =
    | WeakSetter(target: PropRef)
    | WeakFilteredSetter(target: PropRef, filter: int -> int)
    | RawFilteredSetter(target: PropRef, filter: int -> int)

  /** One call of notify() on a property's changed notifier, with its payload. */
  datatype Firing = Firing(prop: PropRef, value: int)

  /** How a setter call ends: normally, with the DanglingFunctionError a weak
      subscriber throws, with a raw subscriber dereferencing a destroyed owner
      (undefined behaviour in C++), or with the fuel used up. */
  datatype Outcome = Ok | DanglingFunctionError | UseAfterFree | Exhausted

  datatype State = State(
    store: map<PropRef, int>,
    subs: map<PropRef, seq<Subscriber>>,
    live: set<OwnerId>,
    fired: seq<Firing>)

  datatype Step = Step(outcome: Outcome, state: State)

  function Lookup(store: map<PropRef, int>, p: PropRef): int
  {
    if p in store then store[p] else Default
  }

  /** The getter: the value last stored, or the default when the setter
      has never stored one. */
  function Value(s: State, p: PropRef): int
  {
    Lookup(s.store, p)
  }

  /** The subscribers of p's notifier; a notifier not created yet has none. */
  function SubsOf(s: State, p: PropRef): seq<Subscriber>
  {
    if p in s.subs then s.subs[p] else []
  }

  /** The value a subscriber hands to its receiver's setter. */
  function Filtered(sub: Subscriber, value: int): int
  {
    match sub
    case WeakSetter(_) => value
    case WeakFilteredSetter(_, f) => f(value)
    case RawFilteredSetter(_, f) => f(value)
  }

  /** _makePropertySubscriber: a weak-owner setter callback. */
  function MakePropertySubscriber(receiver: PropRef): (sub: Subscriber)
    ensures sub.target == receiver && !sub.RawFilteredSetter?
    ensures forall x :: Filtered(sub, x) == x
  {
    WeakSetter(receiver)
  }

  /** _makePropertySubscriberWithFilter: a weak-owner setter callback that
      applies `filter` first. */
  function MakePropertySubscriberWithFilter(receiver: PropRef, filter: int -> int): (sub: Subscriber)
    ensures sub.target == receiver && !sub.RawFilteredSetter?
    ensures forall x :: Filtered(sub, x) == filter(x)
  {
    WeakFilteredSetter(receiver, filter)
  }

  /** makePropertySubscriberWithFilter: a callback over a raw owner pointer. */
  function MakeRawPropertySubscriberWithFilter(receiver: PropRef, filter: int -> int): (sub: Subscriber)
    ensures sub.target == receiver && sub.RawFilteredSetter?
    ensures forall x :: Filtered(sub, x) == filter(x)
  {
    RawFilteredSetter(receiver, filter)
  }

  /** What notification may do to a state: no owner is created or destroyed,
      no subscriber list changes (notifiers are only created, empty), and the
      record of notifications only grows. */
  ghost predicate Frame(s: State, t: State)
  {
    && t.live == s.live
    && s.subs.Keys <= t.subs.Keys
    && (forall q :: SubsOf(t, q) == SubsOf(s, q))
    && s.fired <= t.fired
  }

  /** The "changed" accessor: creates p's notifier on first access. */
  function Changed(s: State, p: PropRef): (t: State)
    ensures p in t.subs
    ensures p in s.subs ==> t == s
    ensures Frame(s, t) && t.store == s.store
    ensures t.fired == s.fired && t.subs.Keys == s.subs.Keys + {p}
  {
    if p in s.subs then s else s.(subs := s.subs[p := []])
  }

  /** Stores v as p's value, leaving everything else. */
  function Store(s: State, p: PropRef, v: int): (t: State)
  {
    s.(store := s.store[p := v])
  }

  /** The generated setter: a no-op when v equals the current value;
      otherwise v is stored and the notifier fires. */
  function Set(s: State, p: PropRef, v: int, fuel: nat): (r: Step)
    ensures Frame(s, r.state)
    decreases fuel, 0
  {
    if Value(s, p) == v then Step(Ok, s)
    else if fuel == 0 then Step(Exhausted, s)
    else NotifyChanged(Store(s, p, v), p, fuel - 1)
  }

  /** BDN_NOTIFY_PROPERTY_CHANGED: fetches (creating it if needed) the
      notifier and notifies with the value read through the getter. */
  function NotifyChanged(s: State, p: PropRef, fuel: nat): (r: Step)
    ensures Frame(s, r.state)
    decreases fuel, 3
  {
    var s1 := Changed(s, p);
    var payload := Value(s1, p);
    Notify(s1.(fired := s1.fired + [Firing(p, payload)]), s1.subs[p], payload, fuel)
  }

  /** The notifier's notify(): every subscriber in subscription order; a
      subscriber that throws ends the notification with its error. */
  function Notify(s: State, subs: seq<Subscriber>, value: int, fuel: nat): (r: Step)
    ensures Frame(s, r.state)
    decreases fuel, 2, |subs|
  {
    if subs == [] then Step(Ok, s)
    else
      var r0 := Invoke(s, subs[0], value, fuel);
      if r0.outcome != Ok then r0 else Notify(r0.state, subs[1..], value, fuel)
  }

  /** Calling one subscriber: a weak one resolves its owner and throws when
      it is gone; a raw one calls the setter without looking. */
  function Invoke(s: State, sub: Subscriber, value: int, fuel: nat): (r: Step)
    ensures Frame(s, r.state)
    decreases fuel, 1
  {
    if sub.target.owner in s.live then Set(s, sub.target, Filtered(sub, value), fuel)
    else if sub.RawFilteredSetter? then Step(UseAfterFree, s)
    else Step(DanglingFunctionError, s)
  }

  /** The notifier's subscribe(): appends to the subscriber list. */
  function Subscribe(s: State, sender: PropRef, sub: Subscriber): (t: State)
    requires sender in s.subs
    ensures SubsOf(t, sender) == SubsOf(s, sender) + [sub]
    ensures forall q :: q != sender ==> SubsOf(t, q) == SubsOf(s, q)
    ensures t.store == s.store && t.live == s.live && t.fired == s.fired
  {
    s.(subs := s.subs[sender := s.subs[sender] + [sub]])
  }

  /** Shared by both bind macros: subscribe the receiver's callback on the
      sender's notifier, then call the receiver's setter once directly with
      the (filtered) current value of the sender. Whatever that call does,
      the callback stays subscribed, last in the sender's list. */
  function Bind(s: State, sender: PropRef, sub: Subscriber, fuel: nat): (r: Step)
    ensures SubsOf(r.state, sender) == SubsOf(s, sender) + [sub]
    ensures forall q :: q != sender ==> SubsOf(r.state, q) == SubsOf(s, q)
    ensures r.state.live == s.live && s.fired <= r.state.fired
  {
    var s1 := Subscribe(Changed(s, sender), sender, sub);
    Set(s1, sub.target, Filtered(sub, Value(s1, sender)), fuel)
  }

  /** BDN_BIND_TO_PROPERTY */
  function BindToProperty(s: State, receiver: PropRef, sender: PropRef, fuel: nat): (r: Step)
    ensures SubsOf(r.state, sender) == SubsOf(s, sender) + [MakePropertySubscriber(receiver)]
    ensures forall q :: q != sender ==> SubsOf(r.state, q) == SubsOf(s, q)
    ensures r.state.live == s.live
  {
    Bind(s, sender, MakePropertySubscriber(receiver), fuel)
  }

  /** BDN_BIND_TO_PROPERTY_WITH_FILTER */
  function BindToPropertyWithFilter(s: State, receiver: PropRef, sender: PropRef, filter: int -> int, fuel: nat): (r: Step)
    ensures SubsOf(r.state, sender) == SubsOf(s, sender) + [MakePropertySubscriberWithFilter(receiver, filter)]
    ensures forall q :: q != sender ==> SubsOf(r.state, q) == SubsOf(s, q)
    ensures r.state.live == s.live
  {
    Bind(s, sender, MakePropertySubscriberWithFilter(receiver, filter), fuel)
  }

  /** BDN_BIND_PROPERTIES: a bound to b, then b bound to a; an exception
      from the first binding skips the second, leaving b subscribed to a
      but not a to b. */
  function BindProperties(s: State, a: PropRef, b: PropRef, fuel: nat): (r: Step)
    ensures a != b ==> SubsOf(r.state, b) == SubsOf(s, b) + [MakePropertySubscriber(a)]
    ensures a != b ==>
      var first := BindToProperty(s, a, b, fuel).outcome == Ok;
      SubsOf(r.state, a) == SubsOf(s, a) + (if first then [MakePropertySubscriber(b)] else [])
    ensures r.outcome == Ok ==> BindToProperty(s, a, b, fuel).outcome == Ok
    ensures a == b ==> SubsOf(r.state, a) == SubsOf(s, a) + [MakePropertySubscriber(a), MakePropertySubscriber(a)]
    ensures forall q :: q != a && q != b ==> SubsOf(r.state, q) == SubsOf(s, q)
    ensures r.state.live == s.live
  {
    var r1 := BindToProperty(s, a, b, fuel);
    if r1.outcome != Ok then r1 else BindToProperty(r1.state, b, a, fuel)
  }
}
