/**
 * The message bus test scenarios. Each runs on its own bus, with callbacks
 * named by id, and returns what a mock would have recorded; the ensures
 * clauses are the assertions of the scenario.
 */
module MessageBusTests {
  import opened Wrappers
  import opened Messages
  import opened Eda

  const OnUserCreated: CallbackId := 0
  const OnUserNameChanged: CallbackId := 1
  const OnAnyUserEvent: CallbackId := 2
  const OnAnyEvent: CallbackId := 3

  /** One subscriber for each of the two leaf user events, registered by one subscribe call. */
  const LeafSubscribers: seq<Subscriber> := [
    Subscriber(OnUserCreated, Some(UserCreatedEvent)),
    Subscriber(OnUserNameChanged, Some(UserNameChangedEvent))
  ]

  /** Each leaf event reaches exactly the subscriber bound to its own class. */
  lemma LeafSubscribersSeparated(scope: ScopeId)
    ensures Dispatch(Register(LeafSubscribers, scope), UserCreatedEvent) == [OnUserCreated]
    ensures Dispatch(Register(LeafSubscribers, scope), UserNameChangedEvent) == [OnUserNameChanged]
  {
    var table := Register(LeafSubscribers, scope);
    SiblingsUnrelated(UserCreatedEvent, UserNameChangedEvent);
    assert table == [table[0]] + [table[1]];
    DispatchAppend([table[0]], [table[1]], UserCreatedEvent);
    DispatchAppend([table[0]], [table[1]], UserNameChangedEvent);
  }

  /** A subscriber bound to UserCreatedEvent is called once by one UserCreatedEvent. */
  method ShouldReceiveSubscribedEvent(id: Uuid) returns (r: Result<seq<CallbackId>, BusError>)
    ensures r == Success([OnUserCreated])
  {
    var bus := new MessageBus();
    var scope := bus.Subscribe([Subscriber(OnUserCreated, Some(UserCreatedEvent))]);
    DispatchSingle(bus.table[0], UserCreatedEvent);
    assert bus.table == [bus.table[0]];
    r := bus.Publish(UserCreated(id, "Alice"));
    bus.CloseScope(scope);
  }

  /** A subscriber bound to UserEvent receives both derived kinds, once per publish, in order. */
  method ShouldReceiveAllEventsDerivedFromSubscribedBaseEvent(id: Uuid)
    returns (first: Result<seq<CallbackId>, BusError>, second: Result<seq<CallbackId>, BusError>)
    ensures first == Success([OnAnyUserEvent]) && second == Success([OnAnyUserEvent])
  {
    var bus := new MessageBus();
    var scope := bus.Subscribe([Subscriber(OnAnyUserEvent, Some(UserEvent))]);
    DispatchSingle(bus.table[0], UserCreatedEvent);
    DispatchSingle(bus.table[0], UserNameChangedEvent);
    assert bus.table == [bus.table[0]];
    first := bus.Publish(UserCreated(id, "Alice"));
    second := bus.Publish(UserNameChanged(id, "Alice", "Bob"));
    bus.CloseScope(scope);
  }

  /** A subscriber bound to UserCreatedEvent is not called for its sibling UserNameChangedEvent; the publish succeeds. */
  method ShouldNotReceiveEventsNotSubscribedTo(id: Uuid) returns (r: Result<seq<CallbackId>, BusError>)
    ensures r == Success([])
  {
    var bus := new MessageBus();
    var scope := bus.Subscribe([Subscriber(OnUserCreated, Some(UserCreatedEvent))]);
    r := bus.Publish(UserNameChanged(id, "Alice", "Bob"));
    bus.CloseScope(scope);
  }

  /** A subscriber without a message class makes publish fail. */
  method ShouldRaiseIfSubscriptionMissingGenericParam(id: Uuid) returns (r: Result<seq<CallbackId>, BusError>)
    ensures r == Failure(AmbiguousSubscriberKind)
  {
    var bus := new MessageBus();
    var scope := bus.Subscribe([Subscriber(OnAnyEvent, None)]);
    r := bus.Publish(UserCreated(id, "Alice"));
    bus.CloseScope(scope);
  }

  /**
   * Reset removes every subscriber: the publish before it called the
   * UserCreatedEvent subscriber once; the one after it succeeds and calls nobody.
   */
  method ResetShouldClearSubscribers(id: Uuid)
    returns (before: Result<seq<CallbackId>, BusError>, after: Result<seq<CallbackId>, BusError>)
    ensures before == Success([OnUserCreated]) && after == Success([])
  {
    var bus := new MessageBus();
    var scope := bus.Subscribe(LeafSubscribers);
    LeafSubscribersSeparated(scope);
    before := bus.Publish(UserCreated(id, "Alice"));
    bus.Reset();
    after := bus.Publish(UserNameChanged(id, "Alice", "Bob"));
  }

  /**
   * Leaving the scope removes its subscribers: inside it only the matching
   * subscriber is called; afterwards the publish succeeds and calls nobody.
   */
  method ShouldClearSubscribersOnExitingScope(id: Uuid)
    returns (inside: Result<seq<CallbackId>, BusError>, outside: Result<seq<CallbackId>, BusError>)
    ensures inside == Success([OnUserCreated]) && outside == Success([])
  {
    var bus := new MessageBus();
    var scope := bus.Subscribe(LeafSubscribers);
    LeafSubscribersSeparated(scope);
    inside := bus.Publish(UserCreated(id, "Alice"));
    bus.CloseScope(scope);
    ScopeRoundTrip([], LeafSubscribers, [], scope);
    outside := bus.Publish(UserNameChanged(id, "Alice", "Bob"));
  }

  /**
   * A handle that outlives a reset stays harmless: leaving it after later
   * subscribers were registered removes none of them, and they are still called.
   */
  method StaleScopeAfterResetKeepsLaterSubscribers(id: Uuid) returns (r: Result<seq<CallbackId>, BusError>)
    ensures r == Success([OnUserNameChanged])
  {
    var bus := new MessageBus();
    var stale := bus.Subscribe([Subscriber(OnUserCreated, Some(UserCreatedEvent))]);
    bus.Reset();
    var later := bus.Subscribe(LeafSubscribers);
    LeafSubscribersSeparated(later);
    assert !HasScope(bus.table, stale);
    WithdrawAbsent(bus.table, stale);
    bus.CloseScope(stale);
    r := bus.Publish(UserNameChanged(id, "Alice", "Bob"));
  }
}
