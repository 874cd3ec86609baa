/**
 * The message classes of the event-driven core and the user events that the
 * bus routes and the user aggregate replays.
 *
 * Messages form a single-inheritance class hierarchy rooted at Message:
 *
 *   Message <- Command
 *   Message <- Event <- UserEvent <- UserCreatedEvent
 *                                 <- UserNameChangedEvent
 *
 * A class is identified by its Tag; the bus matches a published message
 * against a subscriber by asking whether the message's class is a subclass
 * (reflexively and transitively) of the subscriber's class.
 */
module Messages {
  import opened Wrappers

  datatype Tag =
    | Message
    | Command
    | Event
    | UserEvent
    | UserCreatedEvent
    | UserNameChangedEvent

  /** The direct base class; Message is the root and has none. */
  function Parent(t: Tag): Option<Tag>
  {
    match t
    case Message => None
    case Command => Some(Message)
    case Event => Some(Message)
    case UserEvent => Some(Event)
    case UserCreatedEvent => Some(UserEvent)
    case UserNameChangedEvent => Some(UserEvent)
  }

  /** Number of inheritance steps from t up to Message. */
  function Depth(t: Tag): nat
  {
    match t
    case Message => 0
    case Command => 1
    case Event => 1
    case UserEvent => 2
    case UserCreatedEvent => 3
    case UserNameChangedEvent => 3
  }

  /** Every step to a base class goes exactly one level up, and only the root has no base. */
  lemma ParentIsOneLevelUp(t: Tag)
    ensures Parent(t).None? <==> t == Message
    ensures Parent(t).Some? ==> Depth(Parent(t).value) + 1 == Depth(t)
  {
    match t
    case Message =>
    case Command =>
    case Event =>
    case UserEvent =>
    case UserCreatedEvent =>
    case UserNameChangedEvent =>
  }

  /** Reflexive-transitive subclass relation: t is u or derives from u. */
  predicate IsSubtype(t: Tag, u: Tag)
    decreases Depth(t)
  {
    ParentIsOneLevelUp(t);
    t == u || (Parent(t).Some? && IsSubtype(Parent(t).value, u))
  }

  /** The chain of classes from t itself up to the root Message (t's method resolution order). */
  function Ancestors(t: Tag): (chain: seq<Tag>)
    decreases Depth(t)
    ensures |chain| == Depth(t) + 1
    ensures chain[0] == t && chain[|chain| - 1] == Message
  {
    ParentIsOneLevelUp(t);
    match Parent(t)
    case None => [t]
    case Some(p) => [t] + Ancestors(p)
  }

  /** Being a subclass is the same as appearing on the ancestor chain. */
  lemma {:induction false} SubtypeIffAncestor(t: Tag, u: Tag)
    decreases Depth(t)
    ensures IsSubtype(t, u) <==> u in Ancestors(t)
  {
    ParentIsOneLevelUp(t);
    if Parent(t).Some? {
      SubtypeIffAncestor(Parent(t).value, u);
    }
  }

  /** A base class is never deeper than its subclass, and equally deep only when it is the same class. */
  lemma {:induction false} SubtypeIsShallower(t: Tag, u: Tag)
    requires IsSubtype(t, u)
    decreases Depth(t)
    ensures Depth(u) <= Depth(t)
    ensures Depth(u) == Depth(t) ==> u == t
  {
    ParentIsOneLevelUp(t);
    if t != u {
      SubtypeIsShallower(Parent(t).value, u);
    }
  }

  lemma {:induction false} SubtypeTransitive(a: Tag, b: Tag, c: Tag)
    requires IsSubtype(a, b) && IsSubtype(b, c)
    decreases Depth(a)
    ensures IsSubtype(a, c)
  {
    ParentIsOneLevelUp(a);
    if a != b {
      SubtypeTransitive(Parent(a).value, b, c);
    }
  }

  lemma SubtypeAntisymmetric(a: Tag, b: Tag)
    requires IsSubtype(a, b) && IsSubtype(b, a)
    ensures a == b
  {
    SubtypeIsShallower(a, b);
    SubtypeIsShallower(b, a);
  }

  /** Two distinct classes with the same base class (siblings) never match each other. */
  lemma SiblingsUnrelated(t: Tag, u: Tag)
    requires t != u && Parent(t) == Parent(u)
    ensures !IsSubtype(t, u) && !IsSubtype(u, t)
  {
    ParentIsOneLevelUp(t);
    ParentIsOneLevelUp(u);
    if IsSubtype(t, u) {
      SubtypeIsShallower(t, u);
    }
    if IsSubtype(u, t) {
      SubtypeIsShallower(u, t);
    }
  }

  /** A universally unique identifier: a 128-bit value. */
  newtype Uuid = x: int | 0 <= x < 0x1_0000_0000_0000_0000_0000_0000_0000_0000

  /**
   * Instances of the user event classes. PlainUserEvent is an instance of
   * UserEvent itself, a kind of event that no aggregate handler accepts.
   */
  datatype DomainEvent =
    | UserCreated(id: Uuid, name: string)
    | UserNameChanged(id: Uuid, oldName: string, newName: string)
    | PlainUserEvent(id: Uuid)

  /** The runtime class of an event instance: always a UserEvent, and exactly UserEvent only for the plain kind. */
  function ClassOf(e: DomainEvent): (t: Tag)
    ensures IsSubtype(t, UserEvent) && IsSubtype(t, Event)
    ensures t == UserEvent <==> e.PlainUserEvent?
  {
    match e
    case UserCreated(_, _) => UserCreatedEvent
    case UserNameChanged(_, _, _) => UserNameChangedEvent
    case PlainUserEvent(_) => UserEvent
  }
}
