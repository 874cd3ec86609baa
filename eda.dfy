/**
 * The typed publish/subscribe message bus.
 *
 * A subscriber binds a callback to the message class it is interested in;
 * the class may be missing when the subscriber was built without its type
 * argument. The bus keeps every registration in registration order, each
 * tagged with the scope that created it, so that leaving a scope removes
 * exactly the subscribers it registered. Publishing a message calls, in
 * registration order, every subscriber whose class is the message's class
 * or one of its base classes; it refuses to deliver at all while some
 * registered subscriber has no class.
 *
 * Callbacks are named by CallbackId; the effect of a callback is observed
 * as the sequence of callback ids that a publish invokes.
 */
module Eda {
  import opened Wrappers
  import opened Messages

  type CallbackId = nat
  type ScopeId = nat

  datatype Subscriber = Subscriber(callback: CallbackId, interest: Option<Tag>)

  /** One entry of the bus's table: a subscriber and the scope that registered it. */
  datatype Registration = Registration(scope: ScopeId, subscriber: Subscriber)

  /** Raised by publish when some registered subscriber has no message class. */
  datatype BusError = AmbiguousSubscriberKind

  /** A subscriber receives a message of class t when t derives from its class. */
  predicate Receives(s: Subscriber, t: Tag)
  {
    s.interest.Some? && IsSubtype(t, s.interest.value)
  }

  /** Every registered subscriber has a message class. */
  predicate AllTyped(table: seq<Registration>)
  {
    forall i :: 0 <= i < |table| ==> table[i].subscriber.interest.Some?
  }

  /** The callbacks a message of class t reaches, in registration order. */
  function Dispatch(table: seq<Registration>, t: Tag): (calls: seq<CallbackId>)
    ensures |calls| <= |table|
  {
    if table == [] then []
    else
      var s := table[0].subscriber;
      (if Receives(s, t) then [s.callback] else []) + Dispatch(table[1..], t)
  }

  /** The registrations one subscribe call adds: its subscribers, in order, under its scope. */
  function Register(subs: seq<Subscriber>, scope: ScopeId): (entries: seq<Registration>)
    ensures |entries| == |subs|
    ensures forall i :: 0 <= i < |subs| ==> entries[i] == Registration(scope, subs[i])
  {
    if subs == [] then [] else [Registration(scope, subs[0])] + Register(subs[1..], scope)
  }

  /** The table left after a scope ends: every registration of other scopes, in order. */
  function Withdraw(table: seq<Registration>, scope: ScopeId): (rest: seq<Registration>)
    ensures forall r :: r in rest ==> r in table && r.scope != scope
    ensures forall r :: r in table && r.scope != scope ==> r in rest
  {
    if table == [] then []
    else (if table[0].scope == scope then [] else [table[0]]) + Withdraw(table[1..], scope)
  }

  /** Whether some registration in the table belongs to the scope. */
  predicate HasScope(table: seq<Registration>, scope: ScopeId)
  {
    exists i :: 0 <= i < |table| && table[i].scope == scope
  }

  /** A table of one registration calls its callback exactly when its subscriber receives the class. */
  lemma DispatchSingle(r: Registration, t: Tag)
    ensures Dispatch([r], t) == if Receives(r.subscriber, t) then [r.subscriber.callback] else []
  {
    assert [r][1..] == [];
  }

  lemma {:induction false} DispatchAppend(a: seq<Registration>, b: seq<Registration>, t: Tag)
    ensures Dispatch(a + b, t) == Dispatch(a, t) + Dispatch(b, t)
  {
    if a == [] {
      assert a + b == b;
    } else {
      var head := if Receives(a[0].subscriber, t) then [a[0].subscriber.callback] else [];
      assert (a + b)[0] == a[0];
      assert (a + b)[1..] == a[1..] + b;
      DispatchAppend(a[1..], b, t);
      calc {
        Dispatch(a + b, t);
        head + Dispatch(a[1..] + b, t);
        head + (Dispatch(a[1..], t) + Dispatch(b, t));
        (head + Dispatch(a[1..], t)) + Dispatch(b, t);
      }
    }
  }

  /** A callback is reached exactly when one of its registrations receives the class. */
  lemma {:induction false} DispatchReaches(table: seq<Registration>, t: Tag, cb: CallbackId)
    ensures cb in Dispatch(table, t) <==>
      exists i :: 0 <= i < |table| && table[i].subscriber.callback == cb && Receives(table[i].subscriber, t)
  {
    if table != [] {
      DispatchReaches(table[1..], t, cb);
      if cb in Dispatch(table[1..], t) {
        var i :| 0 <= i < |table[1..]| && table[1..][i].subscriber.callback == cb && Receives(table[1..][i].subscriber, t);
        assert table[i + 1] == table[1..][i];
      }
      if exists i :: 0 <= i < |table| && table[i].subscriber.callback == cb && Receives(table[i].subscriber, t) {
        var i :| 0 <= i < |table| && table[i].subscriber.callback == cb && Receives(table[i].subscriber, t);
        if i > 0 {
          assert table[1..][i - 1] == table[i];
        }
      }
    }
  }

  /**
   * A callback registered once is called exactly once per publish of a class
   * derived from its subscriber's class, and never otherwise.
   */
  lemma {:induction false} DispatchCallsOnce(table: seq<Registration>, t: Tag, k: nat)
    requires k < |table|
    requires forall i :: 0 <= i < |table| && i != k ==> table[i].subscriber.callback != table[k].subscriber.callback
    ensures multiset(Dispatch(table, t))[table[k].subscriber.callback] ==
      if Receives(table[k].subscriber, t) then 1 else 0
  {
    var cb := table[k].subscriber.callback;
    if k == 0 {
      DispatchReaches(table[1..], t, cb);
    } else {
      assert table[1..][k - 1] == table[k];
      forall i | 0 <= i < |table[1..]| && i != k - 1
        ensures table[1..][i].subscriber.callback != cb
      {
        assert table[1..][i] == table[i + 1];
      }
      DispatchCallsOnce(table[1..], t, k - 1);
    }
  }

  /** A callback whose every registration is bound to a sibling of t is never reached by a message of class t. */
  lemma SiblingNeverReached(table: seq<Registration>, t: Tag, cb: CallbackId)
    requires forall i :: 0 <= i < |table| && table[i].subscriber.callback == cb ==>
      exists u :: table[i].subscriber.interest == Some(u) && u != t && Parent(u) == Parent(t)
    ensures cb !in Dispatch(table, t)
  {
    DispatchReaches(table, t, cb);
    if cb in Dispatch(table, t) {
      var i :| 0 <= i < |table| && table[i].subscriber.callback == cb && Receives(table[i].subscriber, t);
      var u :| table[i].subscriber.interest == Some(u) && u != t && Parent(u) == Parent(t);
      SiblingsUnrelated(t, u);
    }
  }

  lemma {:induction false} WithdrawAppend(a: seq<Registration>, b: seq<Registration>, scope: ScopeId)
    ensures Withdraw(a + b, scope) == Withdraw(a, scope) + Withdraw(b, scope)
  {
    if a == [] {
      assert a + b == b;
    } else {
      assert (a + b)[1..] == a[1..] + b;
      WithdrawAppend(a[1..], b, scope);
    }
  }

  /** Ending a scope that owns no registration leaves the table as it is. */
  lemma {:induction false} WithdrawAbsent(table: seq<Registration>, scope: ScopeId)
    requires !HasScope(table, scope)
    ensures Withdraw(table, scope) == table
  {
    if table != [] {
      assert table[0].scope != scope;
      assert !HasScope(table[1..], scope) by {
        forall i | 0 <= i < |table[1..]| ensures table[1..][i].scope != scope {
          assert table[1..][i] == table[i + 1];
        }
      }
      WithdrawAbsent(table[1..], scope);
      assert table == [table[0]] + table[1..];
    }
  }

  /** Ending a scope removes everything it registered. */
  lemma {:induction false} WithdrawRegistered(subs: seq<Subscriber>, scope: ScopeId)
    ensures Withdraw(Register(subs, scope), scope) == []
  {
    if subs != [] {
      var entries := Register(subs, scope);
      assert entries[1..] == Register(subs[1..], scope);
      WithdrawRegistered(subs[1..], scope);
    }
  }

  /**
   * Subscribing under a fresh scope and later ending that scope removes
   * exactly those subscribers: what was registered before and what was
   * registered in the meantime stays, in order.
   */
  lemma ScopeRoundTrip(before: seq<Registration>, subs: seq<Subscriber>, later: seq<Registration>, scope: ScopeId)
    requires !HasScope(before, scope) && !HasScope(later, scope)
    ensures Withdraw(before + Register(subs, scope) + later, scope) == before + later
  {
    WithdrawAppend(before + Register(subs, scope), later, scope);
    WithdrawAppend(before, Register(subs, scope), scope);
    WithdrawAbsent(before, scope);
    WithdrawAbsent(later, scope);
    WithdrawRegistered(subs, scope);
    assert before + [] == before;
  }

  /** After a scope ends, no publish reaches a callback that only that scope registered. */
  lemma ClosedScopeSilent(table: seq<Registration>, scope: ScopeId, t: Tag, cb: CallbackId)
    requires forall i :: 0 <= i < |table| && table[i].subscriber.callback == cb ==> table[i].scope == scope
    ensures cb !in Dispatch(Withdraw(table, scope), t)
  {
    DispatchReaches(Withdraw(table, scope), t, cb);
  }

  /** The message bus: the table of registrations and the source of fresh scope ids. */
  class MessageBus {
    var table: seq<Registration>
    var nextScope: ScopeId

    /** Every registration belongs to a scope already handed out. */
    ghost predicate Valid()
      reads this
    {
      forall i :: 0 <= i < |table| ==> table[i].scope < nextScope
    }

    /** An empty bus. */
    constructor ()
      ensures Valid() && table == []
    {
      table := [];
      nextScope := 0;
    }

    /**
     * Registers the subscribers, in order, and returns the scope that owns
     * them. The scope is the next unused id: no earlier subscribe, even one
     * whose registrations a reset has since removed, handed it out.
     */
    method Subscribe(subs: seq<Subscriber>) returns (scope: ScopeId)
      requires Valid()
      modifies this
      ensures Valid()
      ensures scope == old(nextScope) && nextScope == old(nextScope) + 1
      ensures table == old(table) + Register(subs, scope)
      ensures !HasScope(old(table), scope)
    {
      scope := nextScope;
      table := table + Register(subs, scope);
      nextScope := nextScope + 1;
    }

    /** Leaving a scope: removes the subscribers the scope registered and no others. */
    method CloseScope(scope: ScopeId)
      requires Valid()
      modifies this
      ensures Valid() && nextScope == old(nextScope)
      ensures table == Withdraw(old(table), scope)
    {
      var entries, kept: seq<Registration> := table, [];
      var i := 0;
      while i < |entries|
        invariant 0 <= i <= |entries|
        invariant kept == Withdraw(entries[..i], scope)
        invariant table == entries && nextScope == old(nextScope)
      {
        WithdrawAppend(entries[..i], [entries[i]], scope);
        assert entries[..i + 1] == entries[..i] + [entries[i]];
        if entries[i].scope != scope {
          kept := kept + [entries[i]];
        }
        i := i + 1;
      }
      assert entries[..i] == entries;
      table := kept;
    }

    /** Removes every subscriber, whatever scope registered it. */
    method Reset()
      requires Valid()
      modifies this
      ensures Valid() && nextScope == old(nextScope)
      ensures table == []
    {
      table := [];
    }

    /**
     * Delivers msg: fails without calling anyone when a registered subscriber
     * has no class, and otherwise calls, in registration order, every
     * subscriber whose class msg's class derives from.
     */
    method Publish(msg: DomainEvent) returns (r: Result<seq<CallbackId>, BusError>)
      ensures AllTyped(table) ==> r == Success(Dispatch(table, ClassOf(msg)))
      ensures !AllTyped(table) ==> r == Failure(AmbiguousSubscriberKind)
    {
      var i := 0;
      while i < |table|
        invariant 0 <= i <= |table|
        invariant AllTyped(table[..i])
      {
        if table[i].subscriber.interest.None? {
          return Failure(AmbiguousSubscriberKind);
        }
        i := i + 1;
      }
      assert table[..i] == table;
      var t := ClassOf(msg);
      var calls: seq<CallbackId> := [];
      i := 0;
      while i < |table|
        invariant 0 <= i <= |table|
        invariant calls == Dispatch(table[..i], t)
      {
        DispatchAppend(table[..i], [table[i]], t);
        assert table[..i + 1] == table[..i] + [table[i]];
        var s := table[i].subscriber;
        if Receives(s, t) {
          calls := calls + [s.callback];
        }
        i := i + 1;
      }
      assert table[..i] == table;
      return Success(calls);
    }
  }
}
