/** The dispatch loops of crates/tessivum-core/src/events.rs; a waterfall is the right-nested composition of its listeners. */
module WaterfallDispatch {
  import opened EventBus
  import opened Wrappers

  // ----- what a waterfall computes

  /** The answer, the tokens claimed so far, and the listeners invoked, by position. */
  datatype Outcome = Outcome(result: EventResult, claimed: set<Token>, invoked: seq<nat>)

  /** A listener calls `next` at most `limit` times before it returns. */
  function Act(l: Listener, payload: string, history: seq<EventResult>): Action
    requires l.kind.Waterfall?
  {
    if |history| < l.kind.limit then l.kind.act(payload, history) else Return(l.kind.last(payload, history))
  }

  function Claimed(l: Listener, claimed: set<Token>): set<Token> {
    if l.once then claimed + {l.token} else claimed
  }

  function WaterfallAt(ls: seq<Listener>, start: nat, payload: string, claimed: set<Token>): Outcome
    requires start <= |ls|
    decreases |ls| - start, 1, 0
  {
    if start == |ls| then Outcome(Ok(Null), claimed, [])
    else
      var l := ls[start];
      if !Claims(l, claimed) then WaterfallAt(ls, start + 1, payload, claimed)
      else if !l.kind.Waterfall? then Outcome(Err(AsyncEventListener), Claimed(l, claimed), [])
      else
        var played := Play(ls, start, payload, [], Claimed(l, claimed));
        played.(invoked := [start] + played.invoked)
  }

  /** The listener runs; its first `next` continues behind it, every later one is refused. */
  function Play(ls: seq<Listener>, index: nat, payload: string, history: seq<EventResult>, claimed: set<Token>): Outcome
    requires index < |ls| && ls[index].kind.Waterfall?
    decreases |ls| - index, 0, if |history| <= ls[index].kind.limit then ls[index].kind.limit - |history| else 0
  {
    match Act(ls[index], payload, history)
    case Return(result) => Outcome(result, claimed, [])
    case CallNext(p) =>
      if history != [] then Play(ls, index, payload, history + [Err(WaterfallContinuationUsed)], claimed)
      else
        var inner := WaterfallAt(ls, index + 1, p, claimed);
        var rest := Play(ls, index, payload, [inner.result], inner.claimed);
        rest.(invoked := inner.invoked + rest.invoked)
  }

  // ----- the dispatch, as the source writes it

  /** The one-shot continuation handed to a listener. */
  class ErasedNext {
    var available: bool

    constructor ()
      ensures available
    {
      available := true;
    }

    method Take() returns (taken: bool)
      modifies this
      ensures taken == old(available) && !available
    {
      taken := available;
      available := false;
    }
  }

  method RunWaterfall(bus: EventBusInner, event: string, ls: seq<Listener>, start: nat, payload: string)
      returns (result: EventResult, invoked: seq<nat>)
    requires bus.Valid() && start <= |ls|
    modifies bus
    ensures bus.Valid()
    ensures Outcome(result, bus.claimed, invoked) == WaterfallAt(ls, start, payload, old(bus.claimed))
    decreases |ls| - start, 1
  {
    for index := start to |ls|
      invariant bus.Valid()
      invariant WaterfallAt(ls, index, payload, bus.claimed) == WaterfallAt(ls, start, payload, old(bus.claimed))
    {
      var l := ls[index];
      ghost var before := bus.claimed;
      var claimed := bus.ClaimOnce(event, l);
      assert !claimed ==> bus.claimed == before;
      if claimed {
        if !l.kind.Waterfall? {
          return Err(AsyncEventListener), [];
        }
        var next := new ErasedNext();
        result, invoked := Invoke(bus, event, ls, index, payload, next);
        return result, [index] + invoked;
      }
    }
    result, invoked := Ok(Null), [];
  }

  method Invoke(bus: EventBusInner, event: string, ls: seq<Listener>, index: nat, payload: string, next: ErasedNext)
      returns (result: EventResult, invoked: seq<nat>)
    requires bus.Valid() && index < |ls| && ls[index].kind.Waterfall? && next.available
    modifies bus, next
    ensures bus.Valid()
    ensures Outcome(result, bus.claimed, invoked) == Play(ls, index, payload, [], old(bus.claimed))
    decreases |ls| - index, 0
  {
    var history: seq<EventResult> := [];
    invoked := [];
    while true
      invariant bus.Valid()
      invariant next.available == (history == []) && |history| <= ls[index].kind.limit
      invariant Joined(invoked, Play(ls, index, payload, history, bus.claimed)) == Play(ls, index, payload, [], old(bus.claimed))
      decreases ls[index].kind.limit - |history|
    {
      match Act(ls[index], payload, history) {
        case Return(r) =>
          assert invoked + [] == invoked;
          return r, invoked;
        case CallNext(p) =>
          var first := next.Take();
          if first {
            assert invoked == [] || history == [];
            var inner, more := RunWaterfall(bus, event, ls, index + 1, p);
            history, invoked := history + [inner], invoked + more;
            assert history == [inner];
          } else {
            history := history + [Err(WaterfallContinuationUsed)];
          }
      }
    }
  }

  function Joined(invoked: seq<nat>, o: Outcome): Outcome {
    o.(invoked := invoked + o.invoked)
  }

  // ----- the composition

  type Handler = string -> EventResult

  /** A listener around what comes behind it: one real `next`, then refusals. */
  function Around(l: Listener, payload: string, inner: Handler, history: seq<EventResult>): EventResult
    requires l.kind.Waterfall?
    decreases if |history| <= l.kind.limit then l.kind.limit - |history| else 0
  {
    match Act(l, payload, history)
    case Return(result) => result
    case CallNext(p) =>
      Around(l, payload, inner, history + [if history == [] then inner(p) else Err(WaterfallContinuationUsed)])
  }

  /** The listeners folded from the right around the answer null. */
  function Compose(ls: seq<Listener>): Handler {
    if ls == [] then (_ => Ok(Null))
    else if !ls[0].kind.Waterfall? then (_ => Err(AsyncEventListener))
    else
      var inner := Compose(ls[1..]);
      var l := ls[0];
      (p => if l.kind.Waterfall? then Around(l, p, inner, []) else Err(AsyncEventListener))
  }

  function Reachable(ls: seq<Listener>, claimed: set<Token>): seq<Listener> {
    if ls == [] then [] else (if Claims(ls[0], claimed) then [ls[0]] else []) + Reachable(ls[1..], claimed)
  }

  /** Claims made from a position on concern listeners from there on. */
  lemma {:induction false} ClaimsGrow(ls: seq<Listener>, start: nat, payload: string, claimed: set<Token>)
    requires start <= |ls|
    ensures var o := WaterfallAt(ls, start, payload, claimed);
            && claimed <= o.claimed
            && (forall t <- o.claimed :: t in claimed || exists k :: start <= k < |ls| && ls[k].once && ls[k].token == t)
            && (forall k <- o.invoked :: k < |ls| && (ls[k].once ==> ls[k].token in o.claimed))
    decreases |ls| - start, 1, 0
  {
    if start < |ls| {
      var l := ls[start];
      if !Claims(l, claimed) {
        ClaimsGrow(ls, start + 1, payload, claimed);
      } else if l.kind.Waterfall? {
        PlayClaimsGrow(ls, start, payload, [], Claimed(l, claimed));
      }
    }
  }

  lemma {:induction false} PlayClaimsGrow(ls: seq<Listener>, index: nat, payload: string, history: seq<EventResult>, claimed: set<Token>)
    requires index < |ls| && ls[index].kind.Waterfall?
    ensures var o := Play(ls, index, payload, history, claimed);
            && claimed <= o.claimed
            && (forall t <- o.claimed :: t in claimed || exists k :: index < k < |ls| && ls[k].once && ls[k].token == t)
            && (forall k <- o.invoked :: k < |ls| && (ls[k].once ==> ls[k].token in o.claimed))
    decreases |ls| - index, 0, if |history| <= ls[index].kind.limit then ls[index].kind.limit - |history| else 0
  {
    var a := Act(ls[index], payload, history);
    if a.CallNext? {
      if history != [] {
        PlayClaimsGrow(ls, index, payload, history + [Err(WaterfallContinuationUsed)], claimed);
      } else {
        ClaimsGrow(ls, index + 1, a.payload, claimed);
        var inner := WaterfallAt(ls, index + 1, a.payload, claimed);
        PlayClaimsGrow(ls, index, payload, [inner.result], inner.claimed);
      }
    }
  }

  lemma {:induction false} ReachableIgnores(ls: seq<Listener>, claimed: set<Token>, token: Token)
    requires forall l <- ls :: l.token != token
    ensures Reachable(ls, claimed + {token}) == Reachable(ls, claimed)
    decreases |ls|
  {
    if ls != [] {
      assert ls == [ls[0]] + ls[1..];
      ReachableIgnores(ls[1..], claimed, token);
    }
  }

  /** Dispatch over the claimable listeners is their composition. */
  lemma {:induction false} WaterfallComposes(ls: seq<Listener>, start: nat, payload: string, claimed: set<Token>)
    requires start <= |ls| && DistinctTokens(ls)
    ensures WaterfallAt(ls, start, payload, claimed).result == Compose(Reachable(ls[start..], claimed))(payload)
    decreases |ls| - start, 1, 0
  {
    if start < |ls| {
      var l, rest := ls[start], ls[start + 1..];
      assert ls[start..][1..] == rest;
      if !Claims(l, claimed) {
        WaterfallComposes(ls, start + 1, payload, claimed);
        assert [] + Reachable(rest, claimed) == Reachable(rest, claimed);
      } else {
        var reachable := Reachable(rest, claimed);
        assert ([l] + reachable)[1..] == reachable;
        if l.kind.Waterfall? {
          if l.once {
            ReachableIgnores(rest, claimed, l.token);
          }
          PlayComposes(ls, start, payload, [], Claimed(l, claimed));
        }
      }
    }
  }

  lemma {:induction false} PlayComposes(ls: seq<Listener>, index: nat, payload: string, history: seq<EventResult>, claimed: set<Token>)
    requires index < |ls| && ls[index].kind.Waterfall? && DistinctTokens(ls)
    ensures Play(ls, index, payload, history, claimed).result
         == Around(ls[index], payload, Compose(Reachable(ls[index + 1..], claimed)), history)
    decreases |ls| - index, 0, if |history| <= ls[index].kind.limit then ls[index].kind.limit - |history| else 0
  {
    var a := Act(ls[index], payload, history);
    if a.CallNext? {
      if history != [] {
        PlayComposes(ls, index, payload, history + [Err(WaterfallContinuationUsed)], claimed);
      } else {
        WaterfallComposes(ls, index + 1, a.payload, claimed);
        var inner := WaterfallAt(ls, index + 1, a.payload, claimed);
        var handler := Compose(Reachable(ls[index + 1..], claimed));
        assert [] + [inner.result] == [inner.result];
        PlayComposes(ls, index, payload, [inner.result], inner.claimed);
        UsedIgnoresInner(ls[index], payload, [inner.result], handler, Compose(Reachable(ls[index + 1..], inner.claimed)));
      }
    }
  }

  /** Once `next` has been used, what stands behind the listener no longer matters. */
  lemma {:induction false} UsedIgnoresInner(l: Listener, payload: string, history: seq<EventResult>, a: Handler, b: Handler)
    requires l.kind.Waterfall? && history != []
    ensures Around(l, payload, a, history) == Around(l, payload, b, history)
    decreases if |history| <= l.kind.limit then l.kind.limit - |history| else 0
  {
    if Act(l, payload, history).CallNext? {
      UsedIgnoresInner(l, payload, history + [Err(WaterfallContinuationUsed)], a, b);
    }
  }

  /** `waterfall_payload`: the answer of the listeners that are eligible and claimable when it starts, composed in list order. */
  method DispatchWaterfall(bus: EventBusInner, event: string, filter: Filter, active: set<ScopeId>, payload: string)
      returns (result: EventResult)
    requires bus.Valid()
    modifies bus
    ensures bus.Valid()
    ensures var ls := Eligible(ListenersOf(old(bus.listeners), event), filter, active);
            result == Compose(Reachable(ls, old(bus.claimed)))(payload)
  {
    var ls := bus.Snapshot(event, filter, active);
    WaterfallComposes(ls, 0, payload, bus.claimed);
    assert ls[0..] == ls;
    var answer, _ := RunWaterfall(bus, event, ls, 0, payload);
    result := answer;
  }

  ghost predicate Increasing(s: seq<nat>, from: nat, to: nat) {
    && (forall k :: 0 <= k < |s| ==> from <= s[k] < to)
    && forall j, k :: 0 <= j < k < |s| ==> s[j] < s[k]
  }

  /** Listeners are invoked in strictly increasing position: none twice, none that stands before its caller. */
  lemma {:induction false} InvokedInOrder(ls: seq<Listener>, start: nat, payload: string, claimed: set<Token>)
    requires start <= |ls|
    ensures Increasing(WaterfallAt(ls, start, payload, claimed).invoked, start, |ls|)
    decreases |ls| - start, 1, 0
  {
    if start < |ls| {
      var l := ls[start];
      if !Claims(l, claimed) {
        InvokedInOrder(ls, start + 1, payload, claimed);
      } else if l.kind.Waterfall? {
        PlayedInOrder(ls, start, payload, [], Claimed(l, claimed));
      }
    }
  }

  lemma {:induction false} PlayedInOrder(ls: seq<Listener>, index: nat, payload: string, history: seq<EventResult>, claimed: set<Token>)
    requires index < |ls| && ls[index].kind.Waterfall?
    ensures Increasing(Play(ls, index, payload, history, claimed).invoked, index + 1, |ls|)
    ensures history != [] ==> Play(ls, index, payload, history, claimed).invoked == []
    decreases |ls| - index, 0, if |history| <= ls[index].kind.limit then ls[index].kind.limit - |history| else 0
  {
    var a := Act(ls[index], payload, history);
    if a.CallNext? {
      if history != [] {
        PlayedInOrder(ls, index, payload, history + [Err(WaterfallContinuationUsed)], claimed);
      } else {
        InvokedInOrder(ls, index + 1, a.payload, claimed);
        var inner := WaterfallAt(ls, index + 1, a.payload, claimed);
        PlayedInOrder(ls, index, payload, [inner.result], inner.claimed);
        assert inner.invoked + [] == inner.invoked;
      }
    }
  }

  /**
   The first listener that can be claimed runs: it answers by itself, or what comes behind it answers its `next`, once;
   listeners are invoked as far as each of them calls `next`.
   */
  lemma ListenersDecide(ls: seq<Listener>, start: nat, payload: string, claimed: set<Token>)
    requires start < |ls| && ls[start].kind.Waterfall? && Claims(ls[start], claimed) && ls[start].kind.limit > 0
    ensures var l := ls[start];
      var o := WaterfallAt(ls, start, payload, claimed);
      && o.invoked != [] && o.invoked[0] == start
      && match l.kind.act(payload, [])
         case Return(r) => o.result == r && o.invoked == [start]
         case CallNext(p) =>
           var inner := WaterfallAt(ls, start + 1, p, if l.once then claimed + {l.token} else claimed);
           && o.invoked == [start] + inner.invoked
           && (l.kind.limit == 1 ==> o.result == l.kind.last(payload, [inner.result]))
  {
    var l := ls[start];
    var a := l.kind.act(payload, []);
    if a.CallNext? {
      var inner := WaterfallAt(ls, start + 1, a.payload, Claimed(l, claimed));
      PlayedInOrder(ls, start, payload, [inner.result], inner.claimed);
      assert inner.invoked + [] == inner.invoked;
    }
  }

  /** The answers a listener has seen from `next` when it returns. */
  function Answers(l: Listener, payload: string, inner: Handler, history: seq<EventResult>): seq<EventResult>
    requires l.kind.Waterfall?
    decreases if |history| <= l.kind.limit then l.kind.limit - |history| else 0
  {
    match Act(l, payload, history)
    case Return(_) => history
    case CallNext(p) =>
      Answers(l, payload, inner, history + [if history == [] then inner(p) else Err(WaterfallContinuationUsed)])
  }

  /** Of all its calls of `next` a listener gets one answer from behind it; every other call is refused. */
  lemma {:induction false} SecondNextIsRefused(l: Listener, payload: string, inner: Handler, history: seq<EventResult>)
    requires l.kind.Waterfall? && forall k :: 1 <= k < |history| ==> history[k] == Err(WaterfallContinuationUsed)
    ensures var answers := Answers(l, payload, inner, history);
            && history <= answers && |answers| <= (if |history| <= l.kind.limit then l.kind.limit else |history|)
            && (forall k :: 1 <= k < |answers| ==> answers[k] == Err(WaterfallContinuationUsed))
            && Around(l, payload, inner, history) == Around(l, payload, inner, answers)
            && Act(l, payload, answers).Return?
    decreases if |history| <= l.kind.limit then l.kind.limit - |history| else 0
  {
    var a := Act(l, payload, history);
    if a.CallNext? {
      SecondNextIsRefused(l, payload, inner, history + [if history == [] then inner(a.payload) else Err(WaterfallContinuationUsed)]);
    }
  }

  // ----- dispatch without continuations

  /** `is_effective`. */
  predicate Effective(v: Value) {
    v != Null && v != Boolean(false)
  }

  function Answer(l: Listener, payload: string): EventResult {
    if l.kind.Sync? then l.kind.callback(payload) else Err(AsyncEventListener)
  }

  /** An emit stops at an error; a bail also stops at the first value that counts. */
  predicate Stops(l: Listener, payload: string, bails: bool) {
    var answer := Answer(l, payload);
    answer.Err? || (bails && Effective(answer.value))
  }

  ghost function OnceTokens(ls: seq<Listener>): set<Token> {
    set l <- ls | l.once :: l.token
  }

  /** The loops of `emit_payload` and `bail_payload`: the first listener that stops decides, and nobody behind it is called. */
  method DispatchSync(bus: EventBusInner, event: string, ls: seq<Listener>, payload: string, bails: bool)
      returns (r: Option<EventResult>, called: seq<nat>)
    requires bus.Valid() && DistinctTokens(ls)
    modifies bus
    ensures bus.Valid()
    ensures forall k <- called :: k < |ls| && Claims(ls[k], old(bus.claimed))
    ensures r.None? ==>
              && (forall k :: 0 <= k < |ls| && Claims(ls[k], old(bus.claimed)) ==> k in called && !Stops(ls[k], payload, bails))
              && bus.claimed == old(bus.claimed) + OnceTokens(ls)
    ensures r.Some? ==>
              && called != []
              && var last := called[|called| - 1];
              && last < |ls| && r.value == Answer(ls[last], payload) && Stops(ls[last], payload, bails)
              && (forall k :: 0 <= k < last && Claims(ls[k], old(bus.claimed)) ==> k in called && !Stops(ls[k], payload, bails))
              && (forall k <- called :: k <= last)
              && bus.claimed == old(bus.claimed) + OnceTokens(ls[..last + 1])
  {
    called := [];
    for index := 0 to |ls|
      invariant bus.Valid() && bus.claimed == old(bus.claimed) + OnceTokens(ls[..index])
      invariant forall k <- called :: k < index && Claims(ls[k], old(bus.claimed))
      invariant forall k :: 0 <= k < index && Claims(ls[k], old(bus.claimed)) ==> k in called && !Stops(ls[k], payload, bails)
    {
      var l := ls[index];
      NotYetClaimed(ls, index);
      assert ls[..index + 1] == ls[..index] + [l];
      var ok := bus.ClaimOnce(event, l);
      assert bus.claimed == old(bus.claimed) + OnceTokens(ls[..index + 1]);
      if ok {
        called := called + [index];
        var answer := Answer(l, payload);
        if answer.Err? || (bails && Effective(answer.value)) {
          return Some(answer), called;
        }
      }
    }
    assert ls[..|ls|] == ls;
    r := None;
  }

  lemma NotYetClaimed(ls: seq<Listener>, index: nat)
    requires DistinctTokens(ls) && index < |ls|
    ensures ls[index].token !in OnceTokens(ls[..index])
  {
  }
}
