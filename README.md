# Observable properties and bindings of boden, in Dafny

Boden is a cross-platform UI toolkit. Its object model exposes state as
*properties*. The macros in `boden/include/bdn/property.h` generate these properties and the
bindings between them. A property is a stored value with a getter, a setter
and a "changed" notifier. The setter stores a new value and fires the notifier
only when the value differs from the current one. The notifier is allocated on
first access. A *binding* subscribes the receiver's setter on the sender's
notifier and copies the sender's value into the receiver at once. The
subscriber holds a weak reference to the receiver's owner. When that owner is
gone, the subscriber throws `DanglingFunctionError`. A two-way binding is two
one-way bindings. The project also models `checkEquality`, the test helper
that checks a type's `==` and `!=` against each other, as its test case pins
it down.

Files:

- `property.dfy` (module `Property`): the mechanism as functions on a value
  `State`. The state holds stored values, the subscriber lists of the
  notifiers created so far, the live owners and a record of notifier firings.
  `Set`, `NotifyChanged`, `Notify` and `Invoke` are mutually recursive, as the
  setter, the notify macro, the notifier and the subscriber lambdas are.
- `property_lemmas.dfy` (module `PropertyLemmas`): the setter rule, lazy
  notifiers, subscribers, one-way, filtered and two-way bindings, proved of
  those functions.
- `property_objects.dfy` (module `PropertyObjects`): a `World` class holding
  every owner's property values, its `Notifier` objects (allocated lazily,
  kept by identity) and the live owners. The setter, notification and binding
  methods are proved against the functions of the same name through `Abs()`,
  and the getter `Get` against `Property.Value`. `SubscribeTo` is proved against `Property.Subscribe` after
  `Property.Changed`. `NewOwner`, `Destroy` and `Notifier.Subscribe` have no
  such counterpart and state their new fields directly.
- `equality_check.dfy` (module `EqualityCheck`): `checkEquality` and the
  test's `Comparer`.

Filters are arbitrary functions, so bindings can form cycles that never
settle. In C++ such a cycle recurses until the stack overflows. The model
bounds the number of nested value changes with a `fuel` argument and ends
with `Exhausted` when it runs out. A two-way binding needs a fuel of 2. The
echo write back to the first property is a no-op on an equal value.

## Model

| member | source | states |
|---|---|---|
| `Property.MakePropertySubscriber` | boden/include/bdn/property.h:374-386 | the callback targets the receiver, checks the owner (weak) and hands the value on unchanged |
| `Property.MakePropertySubscriberWithFilter` | boden/include/bdn/property.h:389-401 | the callback targets the receiver, checks the owner (weak) and hands on `filter(value)` |
| `Property.MakeRawPropertySubscriberWithFilter` | boden/include/bdn/property.h:440-446 | the callback targets the receiver through a raw pointer and hands on `filter(value)` |
| `Property.Changed` | boden/include/bdn/property.h:173-180 | after an access the notifier exists; an existing one is kept with its subscribers; exactly p's notifier is added when missing; values and firings are untouched |
| `Property.Set` | boden/include/bdn/property.h:263-280 | a set never creates or destroys owners, never alters a subscriber list, and only adds to the record of firings |
| `Property.NotifyChanged` | boden/include/bdn/property.h:341-342 | same frame as `Set` for the notification of a change |
| `Property.Notify` | boden/include/bdn/property.h:342 | same frame for calling a notifier's subscribers in order |
| `Property.Invoke` | boden/include/bdn/property.h:379-385 | same frame for one subscriber call |
| `Property.Subscribe` | boden/include/bdn/property.h:431 | subscribing appends the callback to the end of the sender's list and changes no other list, no value and no owner |
| `Property.Bind` | boden/include/bdn/property.h:431-437 | whatever the receiver's setter then does, the callback stays last in the sender's list, no other list changes and no owner is created or destroyed |
| `Property.BindToProperty` | boden/include/bdn/property.h:430-437 | the sender's list gains the receiver's weak callback at its end; every other list is unchanged |
| `Property.BindToPropertyWithFilter` | boden/include/bdn/property.h:515-523 | the sender's list gains the receiver's weak filtering callback at its end; every other list is unchanged |
| `Property.BindProperties` | boden/include/bdn/property.h:543-545 | for distinct a and b: b always gains a's callback, and a gains b's callback exactly when the first binding returned normally; a property bound to itself gains its own callback twice; no other list changes |
| `PropertyLemmas.ValueOfStore` | boden/include/bdn/property.h:264-272 | the getter reads back the value last stored for that property, and storing one property leaves every other property's value (the default `0` of a new owner's properties is `World.NewOwner`'s) |
| `PropertyLemmas.SetSameValueIsNoOp` | boden/include/bdn/property.h:268-275 | setting the current value returns normally and leaves the whole state, firings included, unchanged |
| `PropertyLemmas.SetNewValueFires` | boden/include/bdn/property.h:270-273 | setting a different value fires the notifier first with that value read back through the getter, and the notifier exists afterwards |
| `PropertyLemmas.SetWithoutSubscribers` | boden/include/bdn/property.h:212-218 | on a property without subscribers a set stores the value, changes no other property, and fires the notifier exactly once with `v` when the value changes and not at all otherwise |
| `PropertyLemmas.ChangedIsCreatedOnce` | boden/include/bdn/property.h:175-177 | the first access creates an empty notifier; later accesses change nothing and see the same subscribers |
| `PropertyLemmas.InvokeWeakSubscriber` | boden/include/bdn/property.h:377-385 | a weak subscriber with a destroyed owner throws `DanglingFunctionError` and changes nothing; with a live owner it is one setter call with the filtered value |
| `PropertyLemmas.InvokeRawSubscriber` | boden/include/bdn/property.h:443-445 | the raw subscriber never checks: with a live owner it is one setter call with `filter(value)`; with a destroyed one it dereferences freed memory instead of throwing |
| `PropertyLemmas.NotifyFanOut` | boden/include/bdn/property.h:392-400 | notifying subscribers whose receivers are distinct, live and without subscribers sets each receiver to its filtered value and leaves every other property alone |
| `PropertyLemmas.NotifyFanOutFirings` | boden/include/bdn/property.h:392-400 | in that fan-out each receiver whose value changes fires its own notifier once, in subscription order, and nothing else fires |
| `PropertyLemmas.SetKeepsBindingsInSync` | boden/include/bdn/property.h:394-399 | every later change of a sender sets each bound receiver to the filtered new value; the sender's notifier fires once, followed by those of the receivers that change, in subscription order; a set to the current value keeps them in sync by doing nothing and fires nothing |
| `PropertyLemmas.BindSynchronizes` | boden/include/bdn/property.h:430-437 | binding appends the receiver's callback to the sender's subscribers, sets the receiver to the filtered sender value and changes no other property or list |
| `PropertyLemmas.BindToPropertySynchronizes` | boden/include/bdn/property.h:413-418 | after `BDN_BIND_TO_PROPERTY` the receiver equals the sender, and the sender is unchanged |
| `PropertyLemmas.BindWithFilterSynchronizes` | boden/include/bdn/property.h:515-523 | after `BDN_BIND_TO_PROPERTY_WITH_FILTER` the receiver equals `filter(sender)`, and the sender is unchanged |
| `PropertyLemmas.BindKeepsBindingsInSync` | boden/include/bdn/property.h:431-437 | adding a binding to a sender whose bindings are in sync keeps all of them in sync, when the sender's receivers are distinct, live and without subscribers and the new receiver is another such property |
| `PropertyLemmas.BindReceiverCanDiverge` | boden/include/bdn/property.h:413-414 | a receiver bound onward to c, with c bound back through a constant filter, holds 99 rather than the sender's 5 right after binding |
| `PropertyLemmas.ReceiverWriteIsOneWay` | boden/include/bdn/property.h:416-418 | after `BDN_BIND_TO_PROPERTY` onto a receiver without subscribers of its own, a write to the receiver stores the value and leaves the sender and every other property as the binding left them |
| `PropertyLemmas.DanglingReceiverFails` | boden/include/bdn/property.h:380-382 | when the first subscriber is weak and its owner is gone, a change of the sender stores the value and then fails with `DanglingFunctionError`, leaving all other properties alone |
| `PropertyLemmas.BindPropertiesSynchronizes` | boden/include/bdn/property.h:527-545 | after `BDN_BIND_PROPERTIES` both properties hold b's original value, a's list is b's callback alone, b's list gains a's callback, and nothing else changes; b may already have subscribers |
| `PropertyLemmas.BindPropertiesMakesTwoWay` | boden/include/bdn/property.h:532-533 | two properties without subscribers end up bound only to each other, holding the same value |
| `PropertyLemmas.TwoWaySetConverges` | boden/include/bdn/property.h:543-545 | setting either side of a two-way binding to v leaves both equal to v and still bound, with fuel 2, so the propagation terminates |
| `PropertyObjects.World.constructor` | boden/include/bdn/property.h:277 | the world starts with no stored values, no notifiers and no owners |
| `PropertyObjects.World.NewOwner` | boden/include/bdn/property.h:221 | a new owner gets an id never issued before; its properties all hold the default value and have no notifier yet |
| `PropertyObjects.World.Destroy` | boden/include/bdn/property.h:380-381 | after destruction weak references to the owner no longer resolve, and its id is not reissued |
| `PropertyObjects.DestroyedOwnerStaysDestroyed` | boden/include/bdn/property.h:377-382 | an owner created after another was destroyed gets a new id, so the destroyed owner stays dead and weak references to it keep failing |
| `PropertyObjects.World.Get` | boden/include/bdn/property.h:264-267 | the getter returns the value `Property.Value` gives for the abstract state |
| `PropertyObjects.World.Changed` | boden/include/bdn/property.h:173-180 | the first access allocates a fresh empty notifier; every later access returns that same object |
| `PropertyObjects.Notifier.Subscribe` | boden/include/bdn/property.h:431 | the notifier's list is the old list with the callback appended |
| `PropertyObjects.World.Set` | boden/include/bdn/property.h:268-275 | the new state and outcome are those of `Property.Set`; existing notifiers keep their identity |
| `PropertyObjects.World.NotifyChanged` | boden/include/bdn/property.h:341-342 | the new state and outcome are those of `Property.NotifyChanged` |
| `PropertyObjects.World.Notify` | boden/include/bdn/property.h:342 | the loop over the subscribers yields the state and outcome of `Property.Notify` |
| `PropertyObjects.World.Invoke` | boden/include/bdn/property.h:392-400 | the state and outcome of `Property.Invoke` |
| `PropertyObjects.World.SubscribeTo` | boden/include/bdn/property.h:431-436 | the sender's notifier (created if needed) gains the callback at the end of its list; no other list, value or owner changes |
| `PropertyObjects.World.Bind` | boden/include/bdn/property.h:431-437 | the state and outcome of `Property.Bind` |
| `PropertyObjects.World.BindToProperty` | boden/include/bdn/property.h:430-437 | the state and outcome of `Property.BindToProperty` |
| `PropertyObjects.World.BindToPropertyWithFilter` | boden/include/bdn/property.h:515-523 | the state and outcome of `Property.BindToPropertyWithFilter` |
| `PropertyObjects.World.BindProperties` | boden/include/bdn/property.h:543-545 | the state and outcome of `Property.BindProperties` |
| `EqualityCheck.CheckEquality` | bodentest/src/testTest.cpp:46-78 | true exactly when the two `==` agree, the two `!=` agree, `==` and `!=` disagree, and `==` says `expected` |
| `EqualityCheck.ComparerOperators` | bodentest/src/testTest.cpp:19-37 | without invert flags `==` and `!=` are symmetric and each other's negation; `==` (or `!=`) inverted on one side only makes the two argument orders disagree |
| `EqualityCheck.CheckEqualityMeansConsistent` | bodentest/src/testTest.cpp:46-78 | a true result means both `==` agree, both `!=` agree, `==` and `!=` disagree, and `==` says `expected` |
| `EqualityCheck.InconsistentIsRejected` | bodentest/src/testTest.cpp:56-78 | self-contradicting operators give false for every `expected` |
| `EqualityCheck.ArgumentOrderIrrelevant` | bodentest/src/testTest.cpp:46-54 | the result does not depend on the order of the arguments |
| `EqualityCheck.ConsistentComparersDecide` | bodentest/src/testTest.cpp:46-54 | with consistent operators the result is true exactly when `expected` says whether the values are equal |
| `EqualityCheck.InvertedEqualIsRejected` | bodentest/src/testTest.cpp:57-66 | `==` inverted on one side gives false for both expectations, in both argument orders |
| `EqualityCheck.InvertedNotEqualIsRejected` | bodentest/src/testTest.cpp:69-78 | `!=` inverted on one side gives false for both expectations, in both argument orders |
| `EqualityCheck.CheckEqualityTestCase` | bodentest/src/testTest.cpp:42-78 | every assertion of the test case on a(0), b(0), c(1) |

## Left out

- All property values are `int`, with default `0` (`int{}`). Filters are pure `int -> int` functions. The `double` and `String` examples (property.h:104-123 and :465-503) are not modelled. Neither are filters with side effects.
- Every binding callback is modelled as calling the setter that `BDN_PROPERTY` generates. A derived class can override a property's getter and setter (property.h:245-246), and a custom property brings its own setter (property.h:77-83); such setters, and the different behaviour of bindings onto them, are not modelled.
- `BDN_PROPERTY_WITH_CUSTOM_ACCESS` (property.h:205-224) differs from `BDN_PROPERTY` only in C++ access specifiers, so the same getter and setter model both.
- The `BDN_FINALIZE_*` macros, `BDN_ABSTRACT_PROPERTY`, `override`/`final` and the `PropertyValueType_` typedefs are left out. They only have an effect at compile time.
- `BDN_DISAMBIGUATE_PROPERTY` is left out. It only forwards the getter, setter and notifier to the chosen base class's property. The model addresses that property directly.
- The internals of `PropertyNotifier` and `PropertyNotifier.h` are not part of this model. `notify` is modelled as calling the subscribers in subscription order and stopping at the first one that throws. `DanglingReceiverFails` depends on this choice: its conclusion that no other property changes holds only because the subscribers after the failing one are not called. There is no unsubscribe, because none is shown.
- `BDN_PROPERTY_READ_ACCESSOR` (used at property.h:342) is not part of this model. The model reads the property through its getter once, when the notification starts, and hands that value to every subscriber, even when an earlier subscriber has changed the property again.
- The reference counting of `P`/`WeakP` is modelled as a set of live owner ids. `Destroy` only removes the owner from that set. The storage and notifiers of a destroyed owner stay in the model, but no operation reaches them any more.
- A raw subscriber whose owner is destroyed is undefined behaviour in C++. The model reports it as the outcome `UseAfterFree` and does not model what freed memory would do.
- Unbounded recursion through cyclic bindings is cut off by `fuel` and reported as `Exhausted`. The model does not say what a stack overflow would do. When the fuel is used up, `Set` returns `Exhausted` before storing the new value, whereas the C++ setter would store it first (property.h:272). No lemma relies on the state of an `Exhausted` step.
- The `World` methods require the owners they touch to be alive. Calling a member function of a destroyed C++ object is undefined, so callers must already ensure this.
- Thread safety is not modelled. The accessors are documented as not thread safe (property.h:238).
- `BindSynchronizes`: proved only for receivers without subscribers of their own. Bindings that start from the receiver can write the receiver or the sender again before the macro returns, so the receiver need not hold the sender's value afterwards. `BindReceiverCanDiverge` gives an example.
- `BindToPropertySynchronizes`: proved only for receivers without subscribers of their own. Bindings that start from the receiver can write the receiver or the sender again before the macro returns, and then the doc comment's "same value directly after the binding" (property.h:413-414) need not hold. `BindReceiverCanDiverge` gives an example.
- `BindWithFilterSynchronizes`: same hypothesis as `BindToPropertySynchronizes`, for the same reason.
- `SetKeepsBindingsInSync`: proved for senders whose bound receivers are distinct, live and have no subscribers of their own. Longer chains of bindings are not covered.
- `TwoWaySetConverges`: proved for two properties bound only to each other.
- `BindKeepsBindingsInSync`: proved only when the sender's receivers are distinct, live and without subscribers, and the new receiver is another such property. A new receiver with subscribers of its own can write an existing receiver while it is being bound (a receiver bound onward to r1 through a constant filter sets r1 away from the sender's value), and then the bindings are no longer in sync.
- `ReceiverWriteIsOneWay`: proved only for receivers without subscribers of their own. A receiver that is itself a sender of another binding back to the sender does write the sender. What holds in general is that the binding adds no subscriber to the receiver: that is the contract of `Property.BindToProperty`, which changes no list but the sender's.
- `BindPropertiesSynchronizes`: proved only when a has no subscribers before the binding. Otherwise the first binding can write b, or a again, through a's subscribers, and the doc comment's "both properties will have the same value" (property.h:532-533) need not hold. `BindReceiverCanDiverge` gives an example for the first binding.
- `bdn/test.h`, where `checkEquality` is defined, is not part of this model. Its behaviour is taken from the assertions of the test case.
