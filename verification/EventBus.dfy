/** Listener registration and claiming in crates/tessivum-core/src/events.rs. */
module EventBus {
  import opened Wrappers

  type Token = nat
  type ScopeId = nat

  /** JSON values, as far as dispatch looks at them: null and false do not count as an answer. */
  datatype Value = Null | Boolean(b: bool) | Other(text: string)

  datatype EventError = WaterfallContinuationUsed | AsyncEventListener | Failure(message: string)

  type EventResult = Result<Value, EventError>

  datatype Filter = Filter(context: Option<ScopeId>, realm: Option<string>)

  /** A waterfall listener: what it does next, given its payload and what each `next` so far has returned. */
  datatype Action = Return(result: EventResult) | CallNext(payload: string)

  type Behaviour = (string, seq<EventResult>) -> Action

  datatype Kind =
    | Sync(callback: string -> EventResult)
    | Async(callback: string -> EventResult)
    | Waterfall(act: Behaviour, limit: nat, last: (string, seq<EventResult>) -> EventResult)

  datatype Listener = Listener(token: Token, owner: ScopeId, filter: Option<Filter>, once: bool, kind: Kind)

  datatype Options = Options(prepend: bool, global: bool)

  function Without(ls: seq<Listener>, token: Token): seq<Listener> {
    if ls == [] then []
    else
      var l := ls[|ls| - 1];
      Without(ls[..|ls| - 1], token) + if l.token == token then [] else [l]
  }

  predicate Matches(l: Listener, filter: Filter, active: set<ScopeId>) {
    l.owner in active && (l.filter.None? || l.filter.value == filter)
  }

  function Eligible(ls: seq<Listener>, filter: Filter, active: set<ScopeId>): seq<Listener> {
    if ls == [] then []
    else
      var l := ls[|ls| - 1];
      Eligible(ls[..|ls| - 1], filter, active) + if Matches(l, filter, active) then [l] else []
  }

  predicate DistinctTokens(ls: seq<Listener>) {
    forall j, k :: 0 <= j < k < |ls| ==> ls[j].token != ls[k].token
  }

  // ----- the bus

  type Listeners = map<string, seq<Listener>>

  function ListenersOf(m: Listeners, event: string): seq<Listener> {
    if event in m then m[event] else []
  }

  /** An event without listeners leaves the map. */
  function Removed(m: Listeners, event: string, token: Token): Listeners {
    if event !in m then m
    else
      var rest := Without(m[event], token);
      if rest == [] then m - {event} else m[event := rest]
  }

  function Registered(m: Listeners, event: string, l: Listener, prepend: bool): Listeners {
    m[event := if prepend then [l] + ListenersOf(m, event) else ListenersOf(m, event) + [l]]
  }

  /** A one-shot listener is claimed by the first dispatch that reaches it, which also removes it. */
  predicate Claims(l: Listener, claimed: set<Token>) {
    !l.once || l.token !in claimed
  }

  /** Tokens are drawn once: no list holds one twice, nor one that has not been drawn, and none is empty. */
  ghost predicate Drawn(m: Listeners, next: Token) {
    forall event <- m :: m[event] != [] && DistinctTokens(m[event]) && forall l <- m[event] :: l.token < next
  }

  lemma DistinctAppends(ls: seq<Listener>, some: seq<Listener>)
    requires ls != [] && DistinctTokens(ls) && DistinctTokens(some)
    requires forall l <- some :: l in ls[..|ls| - 1]
    ensures DistinctTokens(some + [ls[|ls| - 1]])
  {
    forall k | 0 <= k < |some| ensures some[k].token != ls[|ls| - 1].token {
      assert some[k] in some;
    }
  }

  lemma {:induction false} WithoutIsDistinct(ls: seq<Listener>, token: Token)
    requires DistinctTokens(ls)
    ensures DistinctTokens(Without(ls, token)) && forall l <- Without(ls, token) :: l in ls
    decreases |ls|
  {
    if ls != [] {
      WithoutIsDistinct(ls[..|ls| - 1], token);
      DistinctAppends(ls, Without(ls[..|ls| - 1], token));
    }
  }

  lemma {:induction false} EligibleIsDistinct(ls: seq<Listener>, filter: Filter, active: set<ScopeId>)
    requires DistinctTokens(ls)
    ensures DistinctTokens(Eligible(ls, filter, active)) && forall l <- Eligible(ls, filter, active) :: l in ls
    decreases |ls|
  {
    if ls != [] {
      EligibleIsDistinct(ls[..|ls| - 1], filter, active);
      DistinctAppends(ls, Eligible(ls[..|ls| - 1], filter, active));
    }
  }

  lemma RemovedIsDrawn(m: Listeners, event: string, token: Token, next: Token)
    requires Drawn(m, next)
    ensures Drawn(Removed(m, event, token), next)
  {
    if event in m {
      WithoutIsDistinct(m[event], token);
    }
  }

  lemma RegisteredIsDrawn(m: Listeners, event: string, l: Listener, prepend: bool)
    requires Drawn(m, l.token)
    ensures Drawn(Registered(m, event, l, prepend), l.token + 1)
  {
  }

  class EventBusInner {
    var listeners: Listeners
    var nextListener: Token
    var claimed: set<Token>

    ghost predicate Valid()
      reads this
    {
      Drawn(listeners, nextListener)
    }

    constructor ()
      ensures Valid() && listeners == map[] && claimed == {}
    {
      listeners, nextListener, claimed := map[], 1, {};
    }

    method RemoveListener(event: string, token: Token) returns (removed: bool)
      requires Valid()
      modifies this`listeners
      ensures Valid() && listeners == Removed(old(listeners), event, token)
      ensures removed == (exists l <- ListenersOf(old(listeners), event) :: l.token == token)
    {
      RemovedIsDrawn(listeners, event, token, nextListener);
      removed := false;
      if event in listeners {
        var entries := listeners[event];
        var kept: seq<Listener> := [];
        for k := 0 to |entries|
          invariant kept == Without(entries[..k], token)
          invariant |kept| <= k && (|kept| < k <==> exists l <- entries[..k] :: l.token == token)
        {
          assert entries[..k + 1][..k] == entries[..k] && entries[..k + 1] == entries[..k] + [entries[k]];
          if entries[k].token != token {
            kept := kept + [entries[k]];
          }
        }
        assert entries[..|entries|] == entries;
        removed := |kept| != |entries|;
        listeners := if kept == [] then listeners - {event} else listeners[event := kept];
      }
    }

    /** `attached` says whether the owner's scope took the cleanup; a listener whose owner is gone is taken back. */
    method Register(event: string, owner: ScopeId, ownerActive: bool, attached: bool, filter: Filter, options: Options, once: bool, kind: Kind)
        returns (token: Option<Token>)
      requires Valid()
      modifies this`listeners, this`nextListener
      ensures Valid()
      ensures token.Some? <==> ownerActive && attached
      ensures !ownerActive ==> listeners == old(listeners) && nextListener == old(nextListener)
      ensures ownerActive ==> nextListener == old(nextListener) + 1
      ensures ownerActive ==>
                var l := Listener(old(nextListener), owner, if options.global then None else Some(filter), once, kind);
                var with := Registered(old(listeners), event, l, options.prepend);
                listeners == if attached then with else Removed(with, event, l.token)
      ensures token.Some? ==> token.value == old(nextListener)
    {
      if !ownerActive {
        return None;
      }
      var l := Listener(nextListener, owner, if options.global then None else Some(filter), once, kind);
      RegisteredIsDrawn(listeners, event, l, options.prepend);
      nextListener := nextListener + 1;
      var entries := if event in listeners then listeners[event] else [];
      listeners := listeners[event := if options.prepend then [l] + entries else entries + [l]];
      if !attached {
        var _ := RemoveListener(event, l.token);
        return None;
      }
      token := Some(l.token);
    }

    method Snapshot(event: string, filter: Filter, active: set<ScopeId>) returns (ls: seq<Listener>)
      requires Valid()
      ensures ls == Eligible(ListenersOf(listeners, event), filter, active) && DistinctTokens(ls)
    {
      EligibleIsDistinct(ListenersOf(listeners, event), filter, active);
      ls := [];
      var entries := if event in listeners then listeners[event] else [];
      for k := 0 to |entries|
        invariant ls == Eligible(entries[..k], filter, active)
      {
        assert entries[..k + 1][..k] == entries[..k];
        if Matches(entries[k], filter, active) {
          ls := ls + [entries[k]];
        }
      }
      assert entries[..|entries|] == entries;
    }

    method ClaimOnce(event: string, l: Listener) returns (ok: bool)
      requires Valid()
      modifies this`listeners, this`claimed
      ensures Valid()
      ensures ok == Claims(l, old(claimed)) && (!ok <==> l.once && l.token in old(claimed))
      ensures claimed == if l.once then old(claimed) + {l.token} else old(claimed)
      ensures listeners == if ok && l.once then Removed(old(listeners), event, l.token) else old(listeners)
    {
      if !l.once {
        return true;
      }
      if l.token in claimed {
        return false;
      }
      claimed := claimed + {l.token};
      var _ := RemoveListener(event, l.token);
      ok := true;
    }
  }

  /**
   A snapshot takes each listener for itself and keeps the order: those whose owner is active, and that are global or
   were registered in the same context and realm.
   */
  lemma {:induction false} EligibleSelects(a: seq<Listener>, b: seq<Listener>, filter: Filter, active: set<ScopeId>)
    ensures Eligible(a + b, filter, active) == Eligible(a, filter, active) + Eligible(b, filter, active)
    ensures |b| == 1 ==>
      Eligible(b, filter, active) ==
        if b[0].owner in active && (b[0].filter == None || b[0].filter == Some(filter)) then b else []
    decreases |b|
  {
    if b == [] {
      assert a + b == a;
    } else {
      assert (a + b)[..|a + b| - 1] == a + b[..|b| - 1];
      EligibleSelects(a, b[..|b| - 1], filter, active);
      if |b| == 1 {
        assert b[..0] == [] && b == [b[0]];
      }
    }
  }

  // ----- the order of a snapshot

  /** What has happened to one event's list. */
  datatype Change = Registers(listener: Listener, prepend: bool) | Removes(token: Token)

  function Apply(ls: seq<Listener>, c: Change): seq<Listener> {
    match c
    case Registers(l, prepend) => if prepend then [l] + ls else ls + [l]
    case Removes(token) => Without(ls, token)
  }

  function ApplyAll(changes: seq<Change>): seq<Listener>
    decreases |changes|
  {
    if changes == [] then [] else Apply(ApplyAll(changes[..|changes| - 1]), changes[|changes| - 1])
  }

  /** The registrations of one sort that no later change has removed, oldest first. */
  function Kept(changes: seq<Change>, prepend: bool): seq<Listener>
    decreases |changes|
  {
    if changes == [] then []
    else
      var front := Kept(changes[..|changes| - 1], prepend);
      match changes[|changes| - 1]
      case Registers(l, p) => if p == prepend then front + [l] else front
      case Removes(token) => Without(front, token)
  }

  function Reversed(ls: seq<Listener>): seq<Listener> {
    if ls == [] then [] else [ls[|ls| - 1]] + Reversed(ls[..|ls| - 1])
  }

  lemma {:induction false} WithoutJoins(a: seq<Listener>, b: seq<Listener>, token: Token)
    ensures Without(a + b, token) == Without(a, token) + Without(b, token)
    decreases |b|
  {
    if b == [] {
      assert a + b == a;
    } else {
      assert (a + b)[..|a + b| - 1] == a + b[..|b| - 1];
      WithoutJoins(a, b[..|b| - 1], token);
    }
  }

  lemma {:induction false} WithoutReversed(ls: seq<Listener>, token: Token)
    ensures Without(Reversed(ls), token) == Reversed(Without(ls, token))
    decreases |ls|
  {
    if ls != [] {
      var l, front := ls[|ls| - 1], ls[..|ls| - 1];
      WithoutReversed(front, token);
      WithoutJoins([l], Reversed(front), token);
      assert Without([l], token) == (if l.token == token then [] else [l]) by { assert [l][..0] == []; }
      if l.token == token {
        assert Without(ls, token) == Without(front, token) + [];
        assert Without(front, token) + [] == Without(front, token);
        assert [] + Reversed(Without(front, token)) == Reversed(Without(front, token));
      } else {
        ReversedAppends(Without(front, token), l);
      }
    }
  }

  lemma ReversedAppends(ls: seq<Listener>, l: Listener)
    ensures Reversed(ls + [l]) == [l] + Reversed(ls)
  {
    assert (ls + [l])[..|ls|] == ls;
  }

  /** Prepended listeners newest first, then the others in registration order, whatever was removed in between. */
  lemma {:induction false} SnapshotOrder(changes: seq<Change>)
    ensures ApplyAll(changes) == Reversed(Kept(changes, true)) + Kept(changes, false)
    decreases |changes|
  {
    if changes != [] {
      var front := changes[..|changes| - 1];
      SnapshotOrder(front);
      var prepended, others := Kept(front, true), Kept(front, false);
      match changes[|changes| - 1]
      case Registers(l, prepend) =>
        if prepend {
          ReversedAppends(prepended, l);
          assert [l] + (Reversed(prepended) + others) == ([l] + Reversed(prepended)) + others;
        } else {
          assert (Reversed(prepended) + others) + [l] == Reversed(prepended) + (others + [l]);
        }
      case Removes(token) =>
        WithoutJoins(Reversed(prepended), others, token);
        WithoutReversed(prepended, token);
    }
  }

  /** The bus applies each change to the list of its own event, and to no other. */
  lemma ChangesStayInTheirEvent(m: Listeners, event: string, other: string, l: Listener, prepend: bool, token: Token)
    ensures ListenersOf(Registered(m, event, l, prepend), event) == Apply(ListenersOf(m, event), Registers(l, prepend))
    ensures ListenersOf(Removed(m, event, token), event) == Apply(ListenersOf(m, event), Removes(token))
    ensures other != event ==>
              && ListenersOf(Registered(m, event, l, prepend), other) == ListenersOf(m, other)
              && ListenersOf(Removed(m, event, token), other) == ListenersOf(m, other)
  {
  }
}
