/**
 * The event-sourced aggregate test scenarios. Each runs with its own empty
 * message bus; the user id that creation draws at random is a parameter.
 * The ensures clauses are the assertions of the scenario.
 */
module EventSourcedAggregateTests {
  import opened Wrappers
  import opened Messages
  import opened Eda
  import opened Aes

  /** A created user has version 0 although creation applied an event. */
  method NewAggregateVersionShouldBeZero(id: Uuid) returns (version: nat)
    ensures version == 0
  {
    var bus := new MessageBus();
    var created, _ := User.Create(bus, id, "Alice");
    version := created.value.version;
  }

  /** Create then rename records both events, in that order, and renames the user. */
  method ShouldRecordAggregateStateChanges(id: Uuid)
    returns (renamed: Result<seq<CallbackId>, Error>, changes: seq<DomainEvent>, name: Result<string, Error>)
    ensures renamed.Success?
    ensures |changes| == 2 && changes[0].UserCreated? && changes[1].UserNameChanged?
    ensures name == Success("Bob")
  {
    var bus := new MessageBus();
    var created, _ := User.Create(bus, id, "Alice");
    var user := created.value;
    renamed := user.ChangeName(bus, "Bob");
    changes := user.Changes();
    name := user.Name();
  }

  /** Events replayed from a stream are not changes; only the later rename is. */
  method ShouldRecordOnlyStateChangesAfterAggregateLoaded(id: Uuid)
    returns (renamed: Result<seq<CallbackId>, Error>, changes: seq<DomainEvent>, userId: Result<Uuid, Error>)
    ensures renamed.Success?
    ensures |changes| == 1 && changes[0] == UserNameChanged(id, "Alice", "Bob")
    ensures userId == Success(id)
  {
    var bus := new MessageBus();
    var loaded := User.Load(EventStream(1, [UserCreated(id, "Alice")]));
    var user := loaded.value;
    renamed := user.ChangeName(bus, "Bob");
    changes := user.Changes();
    userId := user.Id();
  }

  /** The version is the stream's, not the number of its events. */
  method VersionShouldBeSetByEventStream(id: Uuid) returns (version: nat, eventCount: nat)
    ensures version == 4 && eventCount == 1
  {
    var stream := EventStream(4, [UserCreated(id, "Alice")]);
    var loaded := User.Load(stream);
    version := loaded.value.version;
    eventCount := |stream.events|;
  }

  /** Extending the returned changes leaves the aggregate's own changes as they were. */
  method ChangesShouldReturnCopy(id: Uuid) returns (copy: seq<DomainEvent>, own: seq<DomainEvent>)
    ensures |copy| == 2 && |own| == 1
  {
    var bus := new MessageBus();
    var created, _ := User.Create(bus, id, "Alice");
    var user := created.value;
    copy := user.Changes();
    copy := copy + [UserNameChanged(id, "Alice", "Bob")];
    own := user.Changes();
  }

  /** A plain UserEvent has no handler: loading a stream holding one builds no aggregate. */
  method UnhandledEventKindShouldFailLoading(id: Uuid) returns (error: Option<Error>)
    ensures error == Some(UnhandledEventKind(UserEvent))
  {
    var loaded := User.Load(EventStream(2, [UserCreated(id, "Alice"), PlainUserEvent(id)]));
    error := if loaded.Failure? then Some(loaded.error) else None;
  }

  /** Applying a plain UserEvent fails and records nothing. */
  method UnhandledEventKindShouldFailApplying(id: Uuid) returns (outcome: Outcome<Error>, changes: seq<DomainEvent>)
    ensures outcome == Fail(UnhandledEventKind(UserEvent)) && changes == [UserCreated(id, "Alice")]
  {
    var bus := new MessageBus();
    var created, _ := User.Create(bus, id, "Alice");
    var user := created.value;
    outcome := user.Apply(PlainUserEvent(id));
    changes := user.Changes();
  }
}
