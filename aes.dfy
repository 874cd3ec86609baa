/**
 * The event-sourced user aggregate.
 *
 * An aggregate is built either fresh (version 0, no state, no changes) or
 * from a persisted event stream, whose events it replays through its
 * mutation handlers; its version is then the stream's version. Applying a
 * new event runs the handler for the event's exact kind and appends the
 * event to the pending changes; the version never moves after
 * construction. The domain operations create and change_name build an
 * event, apply it, and then publish it on the message bus.
 *
 * The generic aggregate base and the concrete user aggregate are one class
 * here: the user's handlers are the mutation table of the base.
 */
module Aes {
  import opened Wrappers
  import opened Messages
  import opened Eda

  /** The user's state snapshot. */
  datatype UserState = UserState(id: Uuid, name: string)

  /** The persisted history of one aggregate: its version and its events, in order. */
  datatype EventStream = EventStream(version: nat, events: seq<DomainEvent>)

  datatype Error =
    | UnhandledEventKind(kind: Tag)   // no handler for the event's class
    | MissingState                    // the user's state is read before any creation event
    | PublishFailed(cause: BusError)  // the bus refused to deliver the event

  /**
   * The mutation handlers, dispatched on the event's exact kind: a creation
   * event sets the whole state, a rename sets the name and keeps the id, and
   * a plain user event has no handler. A rename needs a state to change.
   */
  function Mutate(s: Option<UserState>, e: DomainEvent): (r: Result<UserState, Error>)
    ensures r.Success? <==> e.UserCreated? || (e.UserNameChanged? && s.Some?)
    ensures e.UserCreated? ==> r == Success(UserState(e.id, e.name))
    ensures e.UserNameChanged? && s.Some? ==> r.value.id == s.value.id && r.value.name == e.newName
    ensures e.UserNameChanged? && s.None? ==> r == Failure(MissingState)
    ensures e.PlainUserEvent? ==> r == Failure(UnhandledEventKind(ClassOf(e)))
  {
    match e
    case UserCreated(id, name) => Success(UserState(id, name))
    case UserNameChanged(_, _, newName) =>
      if s.None? then Failure(MissingState) else Success(s.value.(name := newName))
    case PlainUserEvent(_) => Failure(UnhandledEventKind(UserEvent))
  }

  /**
   * Folds the events, in order, through the handlers, starting from s; stops
   * at the first event that cannot be applied.
   */
  function Replay(s: Option<UserState>, events: seq<DomainEvent>): (r: Result<Option<UserState>, Error>)
    decreases |events|
    ensures r.Success? && events != [] ==> r.value.Some?
  {
    if events == [] then Success(s)
    else match Mutate(s, events[0])
      case Failure(err) => Failure(err)
      case Success(next) => Replay(Some(next), events[1..])
  }

  /** Replaying a + b is replaying a, then replaying b from where a left off (or a's failure). */
  lemma {:induction false} ReplayConcat(s: Option<UserState>, a: seq<DomainEvent>, b: seq<DomainEvent>)
    decreases |a|
    ensures Replay(s, a + b) ==
      if Replay(s, a).Failure? then Replay(s, a) else Replay(Replay(s, a).value, b)
  {
    if a == [] {
      assert a + b == b;
    } else {
      assert (a + b)[0] == a[0];
      assert (a + b)[1..] == a[1..] + b;
      if Mutate(s, a[0]).Success? {
        ReplayConcat(Some(Mutate(s, a[0]).value), a[1..], b);
      }
    }
  }

  /** Replaying one more event is applying its handler to the replayed state. */
  lemma ReplaySnoc(s: Option<UserState>, a: seq<DomainEvent>, e: DomainEvent)
    requires Replay(s, a).Success?
    ensures Replay(s, a + [e]) ==
      match Mutate(Replay(s, a).value, e)
      case Failure(err) => Failure(err)
      case Success(next) => Success(Some(next))
  {
    ReplayConcat(s, a, [e]);
  }

  /** A history holding an event of a kind with no handler can never be replayed. */
  lemma {:induction false} ReplayRejectsUnhandled(s: Option<UserState>, events: seq<DomainEvent>, k: nat)
    requires k < |events| && events[k].PlainUserEvent?
    decreases |events|
    ensures Replay(s, events).Failure?
  {
    if k > 0 && Mutate(s, events[0]).Success? {
      assert events[1..][k - 1] == events[k];
      ReplayRejectsUnhandled(Some(Mutate(s, events[0]).value), events[1..], k - 1);
    }
  }

  /**
   * Renames replayed on an existing state keep its id; the name is the last
   * rename's new name, or the old name when there is none.
   */
  lemma {:induction false} ReplayRenames(st: UserState, events: seq<DomainEvent>)
    requires forall i :: 0 <= i < |events| ==> events[i].UserNameChanged?
    decreases |events|
    ensures Replay(Some(st), events).Success?
    ensures Replay(Some(st), events).value ==
      Some(UserState(st.id, if events == [] then st.name else events[|events| - 1].newName))
  {
    if events != [] {
      ReplayRenames(UserState(st.id, events[0].newName), events[1..]);
    }
  }

  /**
   * An event-sourced user aggregate. The version is fixed when the aggregate
   * is built; `replayed` holds the stream events it was built from, and the
   * state is always what replaying those events and then the pending changes
   * yields.
   */
  class User {
    const version: nat
    ghost const replayed: seq<DomainEvent>
    var state: Option<UserState>
    var pending: seq<DomainEvent>

    ghost predicate Valid()
      reads this
    {
      Replay(None, replayed + pending) == Success(state)
    }

    /** A new aggregate with no history: version 0, no state, no changes. */
    constructor Fresh()
      ensures Valid()
      ensures version == 0 && state == None && pending == [] && replayed == []
    {
      version := 0;
      replayed := [];
      state := None;
      pending := [];
    }

    /** An aggregate whose stream has been replayed into s. */
    constructor Restored(stream: EventStream, s: Option<UserState>)
      requires Replay(None, stream.events) == Success(s)
      ensures Valid()
      ensures version == stream.version && state == s && pending == [] && replayed == stream.events
    {
      version := stream.version;
      replayed := stream.events;
      state := s;
      pending := [];
      assert stream.events + [] == stream.events;
    }

    /**
     * Builds an aggregate from a persisted stream: replays its events into
     * the state, takes over its version, and records no change. Fails, and
     * builds nothing, when an event cannot be replayed.
     */
    static method Load(stream: EventStream) returns (r: Result<User, Error>)
      ensures Replay(None, stream.events).Failure? ==> r == Failure(Replay(None, stream.events).error)
      ensures Replay(None, stream.events).Success? ==>
        r.Success? && fresh(r.value) && r.value.Valid() &&
        r.value.version == stream.version && r.value.pending == [] &&
        r.value.replayed == stream.events && Success(r.value.state) == Replay(None, stream.events)
    {
      var replayed := ReplayEvents(stream.events);
      if replayed.Failure? {
        return Failure(replayed.error);
      }
      var u := new User.Restored(stream, replayed.value);
      r := Success(u);
    }

    /** The user's id; reading it before any creation event fails with MissingState. */
    function Id(): (id: Result<Uuid, Error>)
      reads this
      ensures id.Success? <==> state.Some?
      ensures id.Success? ==> id.value == state.value.id
      ensures id.Failure? ==> id.error == MissingState
    {
      if state.None? then Failure(MissingState) else Success(state.value.id)
    }

    /** The user's name; reading it before any creation event fails with MissingState. */
    function Name(): (name: Result<string, Error>)
      reads this
      ensures name.Success? <==> state.Some?
      ensures name.Success? ==> name.value == state.value.name
      ensures name.Failure? ==> name.error == MissingState
    {
      if state.None? then Failure(MissingState) else Success(state.value.name)
    }

    /** The pending changes, as a value the caller may extend without affecting the aggregate. */
    method Changes() returns (changes: seq<DomainEvent>)
      ensures changes == pending
    {
      changes := pending;
    }

    /**
     * Runs the handler for e and records e as a pending change. When e has
     * no handler, fails and changes nothing. The version is untouched.
     */
    method Apply(e: DomainEvent) returns (r: Outcome<Error>)
      requires Valid()
      modifies this
      ensures Valid()
      ensures Mutate(old(state), e).Failure? ==>
        r == Fail(Mutate(old(state), e).error) && state == old(state) && pending == old(pending)
      ensures Mutate(old(state), e).Success? ==>
        r == Pass && state == Some(Mutate(old(state), e).value) && pending == old(pending) + [e]
    {
      match Mutate(state, e)
      case Failure(err) =>
        r := Fail(err);
      case Success(next) =>
        ReplaySnoc(None, replayed + pending, e);
        assert replayed + (pending + [e]) == replayed + pending + [e];
        state := Some(next);
        pending := pending + [e];
        r := Pass;
    }

    /**
     * Creates a user with the given id and name: applies the creation event
     * to a fresh aggregate and then publishes the event on the bus. When the
     * bus refuses the event no aggregate is returned.
     */
    static method Create(bus: MessageBus, id: Uuid, name: string) returns (r: Result<User, Error>, calls: seq<CallbackId>)
      ensures !AllTyped(bus.table) ==> r == Failure(PublishFailed(AmbiguousSubscriberKind)) && calls == []
      ensures AllTyped(bus.table) ==>
        r.Success? && fresh(r.value) && r.value.Valid() &&
        r.value.version == 0 && r.value.replayed == [] &&
        r.value.state == Some(UserState(id, name)) && r.value.pending == [UserCreated(id, name)] &&
        calls == Dispatch(bus.table, UserCreatedEvent)
    {
      var event := UserCreated(id, name);
      var user := new User.Fresh();
      var applied := user.Apply(event);
      assert applied.Pass?;
      var published := bus.Publish(event);
      match published
      case Failure(err) =>
        r, calls := Failure(PublishFailed(err)), [];
      case Success(invoked) =>
        r, calls := Success(user), invoked;
    }

    /**
     * Renames the user: builds a rename event from the current id and name,
     * applies it, and then publishes it. Without a state it fails before
     * doing anything. A refusal by the bus comes after the rename has been
     * applied, so the rename stays recorded.
     */
    method ChangeName(bus: MessageBus, newName: string) returns (r: Result<seq<CallbackId>, Error>)
      requires Valid()
      modifies this
      ensures Valid()
      ensures old(state).None? ==>
        r == Failure(MissingState) && state == old(state) && pending == old(pending)
      ensures old(state).Some? ==>
        state == Some(UserState(old(state).value.id, newName)) &&
        pending == old(pending) + [UserNameChanged(old(state).value.id, old(state).value.name, newName)]
      ensures old(state).Some? ==>
        r == if AllTyped(bus.table) then Success(Dispatch(bus.table, UserNameChangedEvent))
             else Failure(PublishFailed(AmbiguousSubscriberKind))
    {
      var id := Id();
      if id.Failure? {
        return Failure(id.error);
      }
      var name := Name();
      var event := UserNameChanged(id.value, name.value, newName);
      var applied := Apply(event);
      assert applied.Pass?;
      var published := bus.Publish(event);
      match published
      case Failure(err) =>
        r := Failure(PublishFailed(err));
      case Success(invoked) =>
        r := Success(invoked);
    }
  }

  /** Replays a stream's events one by one, stopping at the first that cannot be applied. */
  method ReplayEvents(events: seq<DomainEvent>) returns (r: Result<Option<UserState>, Error>)
    ensures r == Replay(None, events)
  {
    var s: Option<UserState> := None;
    var i := 0;
    while i < |events|
      invariant 0 <= i <= |events|
      invariant Replay(None, events[..i]) == Success(s)
    {
      ReplaySnoc(None, events[..i], events[i]);
      assert events[..i + 1] == events[..i] + [events[i]];
      match Mutate(s, events[i])
      case Failure(err) =>
        ReplayConcat(None, events[..i + 1], events[i + 1..]);
        assert events[..i + 1] + events[i + 1..] == events;
        return Failure(err);
      case Success(next) =>
        s := Some(next);
      i := i + 1;
    }
    assert events[..i] == events;
    r := Success(s);
  }
}
