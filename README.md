# pydddantic event-driven core in Dafny

This project models the two stateful components of pydddantic's event-driven
core. The repository's test modules pin down the behaviour of both
components; their implementation modules are not part of this model.

- The **typed publish/subscribe message bus** (`MessageBus`, `Subscriber`).
  A subscriber binds a callback to a message class. The class may be missing
  when the subscriber was built without its type argument. `subscribe`
  registers subscribers and returns a scope; leaving the scope removes exactly
  those subscribers. `publish` calls every subscriber whose class is the
  message's class or one of its base classes. `publish` fails with
  `RuntimeError` while any registered subscriber has no class. `reset` empties
  the bus.
- The **event-sourced aggregate** (`EventSourcedAggregate`, `EventStream`),
  with the concrete `User` aggregate of the aggregate tests. An aggregate is
  built fresh (version 0) or from an event stream, whose events it replays
  through its handlers. Applying an event runs the handler for the event's
  exact class and appends the event to the pending `changes`. Applying never
  changes the version. `create` and `change_name` build an event, apply it,
  and then publish it on the bus.

Files:

- `wrappers.dfy`: `Option`, `Result` and `Outcome`.
- `messages.dfy` (module `Messages`): the message classes
  `Message ← {Command, Event}`, `Event ← UserEvent ← {UserCreatedEvent, UserNameChangedEvent}`.
  It defines the subclass relation `IsSubtype` and the ancestor chain
  `Ancestors`. It also defines the event instances `DomainEvent`.
- `eda.dfy` (module `Eda`): the `MessageBus` class. Its specification
  functions are `Dispatch` (whom a publish calls), `Register` (what a subscribe
  adds) and `Withdraw` (what leaving a scope keeps). The lemmas about them sit
  beside them.
- `aes.dfy` (module `Aes`): the handlers `Mutate` and the replay fold
  `Replay`. The `User` class holds the fields of the aggregate base
  (`version`, `changes`) and the user's state.
- `eda_tests.dfy`, `aes_tests.dfy`: each test scenario of the two test modules
  is a method of the same name. Its `ensures` clauses are the scenario's
  assertions, including that every publish and rename in it succeeds. Three
  further scenarios are not tests of the repository: they state the
  `_mutate` fallback for an unhandled event kind
  (`UnhandledEventKindShouldFailLoading`, `UnhandledEventKindShouldFailApplying`)
  and that a scope handle kept across a reset is harmless
  (`StaleScopeAfterResetKeepsLaterSubscribers`). The lemma
  `LeafSubscribersSeparated` is a helper for the two tests that register one
  subscriber per leaf event.

Modelling decisions:

- The bus table is one sequence of registrations in registration order. Each
  registration holds the subscriber and the scope that registered it.
  Subscribers without a class must be kept too, because their presence makes
  publish fail.
- Scope ids come from a counter that only grows, also across `reset`.
  `Subscribe` promises that it returns the counter's value and advances it. So
  leaving a scope after a reset removes nothing registered since.
- A callback is named by a `CallbackId`. `Publish` returns the ids of the
  callbacks it calls, in registration order. The test mocks' call counts are
  counts in that sequence. The tests fix no order among several matching
  subscribers; registration order is the choice made here.
- `publish` checks every registration for a class before it calls anyone, so
  a failing publish calls no callback. The tests only pin the error itself.
- A plain `UserEvent` instance (`PlainUserEvent`) stands for an event kind
  without a handler. Dispatching it reaches the base `_mutate`, which raises
  `NotImplementedError`; here that is `UnhandledEventKind(UserEvent)`.
- Before any creation event the user has no state. Then the `id` and `name`
  accessors and `change_name` raise `AttributeError`, modelled as the error
  `MissingState` that `Id`, `Name` and `ChangeName` return. A rename replayed on no state fails the same way.
- `create` draws its id from `uuid4()`; here the id is a parameter.
- In `create` the publish comes after the apply. So a publish failure means
  no user is returned. In `change_name` such a failure leaves the rename
  applied and recorded, because the exception comes after `_apply`.
- The aggregate's `version` is a constant field set by its constructor.
- The ghost field `replayed` remembers the stream's events. `User.Valid()`
  states that the state is always what replaying `replayed ++ changes` from
  nothing yields. So a store that persisted the stream and the changes would
  rebuild the same state with `Load`.

## Model

| member | source | states |
|---|---|---|
| `Messages.ParentIsOneLevelUp` | tests/eda/test_message_bus.py:8-18 | Only the root `Message` has no base class; each base class is exactly one level higher. |
| `Messages.Ancestors` | tests/eda/test_message_bus.py:8-18 | The ancestor chain starts at the class itself, ends at `Message` and has one entry per level. |
| `Messages.SubtypeIffAncestor` | tests/eda/test_message_bus.py:34-47 | A class derives from `u` exactly when `u` is on its ancestor chain (both directions). |
| `Messages.SubtypeTransitive` | tests/eda/test_message_bus.py:34-47 | Deriving is transitive: a class deriving from a class deriving from `c` derives from `c`. |
| `Messages.SubtypeIsShallower` | tests/eda/test_message_bus.py:8-18 | A base class is never deeper than its subclass, and equally deep only when it is the same class. |
| `Messages.SubtypeAntisymmetric` | tests/eda/test_message_bus.py:8-18 | Two classes deriving from each other are the same class. |
| `Messages.SiblingsUnrelated` | tests/eda/test_message_bus.py:49-59 | Distinct classes with the same base, such as `UserCreatedEvent` and `UserNameChangedEvent`, derive from neither each other. |
| `Messages.ClassOf` | tests/aes/test_event_sourced_aggregate.py:14-24 | Every user event instance is a `UserEvent` and an `Event`; its class is `UserEvent` itself only for the plain kind. |
| `Eda.Dispatch` | tests/eda/test_message_bus.py:22-59 | A publish makes at most one call per registration. |
| `Eda.Register` | tests/eda/test_message_bus.py:96-99 | One subscribe adds one registration per subscriber, in argument order, all under its scope. |
| `Eda.Withdraw` | tests/eda/test_message_bus.py:91-107 | Leaving a scope keeps exactly the registrations of other scopes and none of its own. |
| `Eda.DispatchSingle` | tests/eda/test_message_bus.py:22-59 | A table of one registration calls its callback exactly when its subscriber receives the message's class. |
| `Eda.DispatchAppend` | tests/eda/test_message_bus.py:22-59 | Calls for a table are the calls for its first part followed by those for the rest (registration order). |
| `Eda.DispatchReaches` | tests/eda/test_message_bus.py:22-59 | A callback is called exactly when one of its registrations is bound to a base class of the message's class (both directions). |
| `Eda.DispatchCallsOnce` | tests/eda/test_message_bus.py:22-59 | A callback registered once is called exactly once when the message's class derives from its subscriber's class, otherwise never. |
| `Eda.SiblingNeverReached` | tests/eda/test_message_bus.py:49-59 | A callback bound only to a sibling of the message's class is never called. |
| `Eda.WithdrawAppend` | tests/eda/test_message_bus.py:91-107 | Leaving a scope acts on each part of the table independently. |
| `Eda.WithdrawAbsent` | tests/eda/test_message_bus.py:91-107 | Leaving a scope that owns nothing (closed, or emptied by reset) leaves the table unchanged. |
| `Eda.WithdrawRegistered` | tests/eda/test_message_bus.py:91-107 | Leaving a scope removes everything that scope's subscribe added. |
| `Eda.ScopeRoundTrip` | tests/eda/test_message_bus.py:91-107 | Subscribe under a new scope and leave it later: the table is what was there before plus what was added in between, in order. |
| `Eda.ClosedScopeSilent` | tests/eda/test_message_bus.py:91-107 | After a scope ends, no publish calls a callback that only that scope registered. |
| `Eda.MessageBus.constructor` | tests/eda/test_message_bus.py:26 | A new bus has no subscribers. |
| `Eda.MessageBus.Subscribe` | tests/eda/test_message_bus.py:76-79 | Appends the subscribers to the table in order, under the next unused scope id, and advances the counter; no existing registration and no earlier handle (even one from before a reset or from an empty subscribe) has that scope. |
| `Eda.MessageBus.CloseScope` | tests/eda/test_message_bus.py:96-103 | The new table is the old one without that scope's registrations; later scopes stay new. |
| `Eda.MessageBus.Reset` | tests/eda/test_message_bus.py:84-89 | Empties the table, whatever scope registered each subscriber. |
| `Eda.MessageBus.Publish` | tests/eda/test_message_bus.py:22-69 | If any registered subscriber has no class, fails with `AmbiguousSubscriberKind`; otherwise returns, in registration order, the callbacks whose class the message's class derives from. |
| `Aes.Mutate` | tests/aes/test_event_sourced_aggregate.py:51-61 | A creation event sets the state to its id and name; a rename keeps the id and sets the name (and needs a state); a plain user event fails with `UnhandledEventKind`. |
| `Aes.Replay` | tests/aes/test_event_sourced_aggregate.py:84-100 | A successful replay of a non-empty history always leaves a state. |
| `Aes.ReplayConcat` | tests/aes/test_event_sourced_aggregate.py:84-93 | Replaying `a ++ b` is replaying `a` and then `b` from there; a failure in `a` is the result. |
| `Aes.ReplaySnoc` | tests/aes/test_event_sourced_aggregate.py:84-93 | Replaying one more event is running its handler on the replayed state. |
| `Aes.ReplayRejectsUnhandled` | tests/aes/test_event_sourced_aggregate.py:51-53 | A history holding a plain user event cannot be replayed. |
| `Aes.ReplayRenames` | tests/aes/test_event_sourced_aggregate.py:55-61 | Renames replayed on a state keep its id and leave the last new name (or the old name when there is none). |
| `Aes.ReplayEvents` | tests/aes/test_event_sourced_aggregate.py:84-100 | The event-by-event replay loop returns exactly the fold `Replay` of the stream's events. |
| `Aes.User.Fresh` | tests/aes/test_event_sourced_aggregate.py:41 | A fresh aggregate has version 0, no state and no changes. |
| `Aes.User.Restored` | tests/aes/test_event_sourced_aggregate.py:86 | An aggregate built from a replayed stream has the stream's version and its replayed state, and no changes. |
| `Aes.User.Load` | tests/aes/test_event_sourced_aggregate.py:84-100 | Builds from a stream: version is the stream's version (not its length), state is the replay, changes are empty; builds nothing when replay fails. |
| `Aes.User.Id` | tests/aes/test_event_sourced_aggregate.py:30-32 | The id of the current state; fails with `MissingState` when there is no state. |
| `Aes.User.Name` | tests/aes/test_event_sourced_aggregate.py:34-36 | The name of the current state; fails with `MissingState` when there is no state. |
| `Aes.User.Changes` | tests/aes/test_event_sourced_aggregate.py:102-119 | Returns the pending changes as a value; extending it cannot reach the aggregate. |
| `Aes.User.Apply` | tests/aes/test_event_sourced_aggregate.py:42-48 | Runs the event's handler and appends the event to the changes; on an unhandled event fails and changes nothing; the replay invariant holds after. |
| `Aes.User.Create` | tests/aes/test_event_sourced_aggregate.py:38-44 | A created user has version 0, state (id, name) and the single change `UserCreated(id, name)`; the event reaches the bus subscribers of its class; no user when publish fails. |
| `Aes.User.ChangeName` | tests/aes/test_event_sourced_aggregate.py:46-49 | Records `UserNameChanged(id, old name, new name)` built from the current state; afterwards the name is the new one and the id is unchanged; then publishes it. |
| `MessageBusTests.ShouldReceiveSubscribedEvent` | tests/eda/test_message_bus.py:22-32 | One `UserCreatedEvent` publish succeeds and calls exactly the `UserCreatedEvent` subscriber, once. |
| `MessageBusTests.ShouldReceiveAllEventsDerivedFromSubscribedBaseEvent` | tests/eda/test_message_bus.py:34-47 | Both publishes succeed and each calls the `UserEvent` subscriber once: two calls in all. |
| `MessageBusTests.ShouldNotReceiveEventsNotSubscribedTo` | tests/eda/test_message_bus.py:49-59 | The `UserNameChangedEvent` publish succeeds and calls nobody, so not the `UserCreatedEvent` subscriber. |
| `MessageBusTests.ShouldRaiseIfSubscriptionMissingGenericParam` | tests/eda/test_message_bus.py:61-69 | Publishing with a class-less subscriber registered fails. |
| `MessageBusTests.LeafSubscribersSeparated` | tests/eda/test_message_bus.py:96-100 | When one subscribe registers a subscriber for each leaf user event, each leaf event reaches only the subscriber of its own class. |
| `MessageBusTests.ResetShouldClearSubscribers` | tests/eda/test_message_bus.py:71-89 | The publish before reset succeeded and called only the `UserCreatedEvent` subscriber, once; the one after reset succeeded and called nobody. |
| `MessageBusTests.ShouldClearSubscribersOnExitingScope` | tests/eda/test_message_bus.py:91-107 | Inside the scope the publish succeeds and calls only the matching subscriber, once; after leaving it the publish succeeds and calls nobody. |
| `MessageBusTests.StaleScopeAfterResetKeepsLaterSubscribers` | tests/eda/test_message_bus.py:71-107 | Leaving a scope whose subscribers a reset already removed leaves later registrations in place: a later publish still calls them. |
| `EventSourcedAggregateTests.NewAggregateVersionShouldBeZero` | tests/aes/test_event_sourced_aggregate.py:65-70 | A created user has version 0. |
| `EventSourcedAggregateTests.ShouldRecordAggregateStateChanges` | tests/aes/test_event_sourced_aggregate.py:72-82 | Create then rename (which succeeds) leaves two changes, a creation then a rename, and the new name. |
| `EventSourcedAggregateTests.ShouldRecordOnlyStateChangesAfterAggregateLoaded` | tests/aes/test_event_sourced_aggregate.py:84-93 | After loading a one-event stream and renaming (which succeeds), the only change is the rename, built from the replayed id and name; the id is the replayed one. |
| `EventSourcedAggregateTests.VersionShouldBeSetByEventStream` | tests/aes/test_event_sourced_aggregate.py:95-100 | Loading a stream of version 4 holding one event gives version 4. |
| `EventSourcedAggregateTests.ChangesShouldReturnCopy` | tests/aes/test_event_sourced_aggregate.py:102-119 | The extended copy has two events while the aggregate still has one change. |
| `EventSourcedAggregateTests.UnhandledEventKindShouldFailLoading` | tests/aes/test_event_sourced_aggregate.py:51-53 | A stream holding a plain user event fails to load with `UnhandledEventKind(UserEvent)`. |
| `EventSourcedAggregateTests.UnhandledEventKindShouldFailApplying` | tests/aes/test_event_sourced_aggregate.py:51-53 | Applying a plain user event fails and leaves the changes as they were. |

## Left out

- The process-wide singleton (`MessageBus()` returns shared state) is one explicit bus object, passed to whoever publishes.
- Callbacks are not run. A callback is an id, and a publish returns the ids it calls. A callback that raises in the middle of a publish is not modelled.
- The `with` block's exit on an exception is not modelled separately. Leaving the scope is the explicit `CloseScope` call.
- Only user events are published. No concrete command class exists in the modelled code, so `Command` appears only as a class tag.
- The generic `EventSourcedAggregate` base and the concrete `User` are one class. The base's implementation is not part of this model, so its behaviour is what the aggregate tests pin down.
- `functools.singledispatchmethod` is a `match` on the event's kind. Subclasses of the event classes beyond those in the tests do not exist here.
- The rename handler changes `_UserState.name` in place. Here the state is a value that is replaced. The state object never leaves the aggregate, so no alias can observe the difference.
- `uuid4()` in `create` is replaced by an id parameter. UUIDs are plain 128-bit numbers without parsing or formatting. `pydddantic/uuid_value.py` is not part of this model.
- Pydantic field validation, equality and hashing of the entity and value wrappers (`tests/test_entity.py`, `tests/test_value.py`, `tests/test_value_object.py`, `tests/test_immutable_entity.py`, `tests/test_unique_id.py`, `tests/test_uuid_value.py`) are library behaviour and are left out.
- The event store (load and append with an expected version) is not part of this model. Only the `EventStream` it would hand to the aggregate is modelled.
- `Eda.Dispatch`: its own contract only bounds the number of calls. What a publish delivers is stated by `Eda.DispatchReaches`, `Eda.DispatchCallsOnce` and `Eda.DispatchAppend`.
- `Aes.Replay`: its own contract only says that a state exists after a non-empty replay. The fold's behaviour is stated by `Aes.ReplayConcat`, `Aes.ReplayRejectsUnhandled` and `Aes.ReplayRenames`.
