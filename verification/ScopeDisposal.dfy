/**
 Scope disposal (crates/tessivum-core/src/lifecycle.rs). One task initiates a disposal; the
 cleanups it runs may dispose any scope again. Awaiting a spawned cleanup task is a call,
 so the thread-local chain of disposing scopes is the ancestor set of the calling scope.
 */
module ScopeDisposal {
  import opened Wrappers

  type ScopeId = nat
  type EffectId = nat

  /** The states of `FiberState` that a scope takes. */
  datatype ScopeState = Active | Failed | Unloading | Disposed

  datatype CoreError = Failure(code: nat) | CleanupErrors(errors: seq<CoreError>) | InvalidState(state: ScopeState)

  type Outcome = Result<(), CoreError>

  /**
   A registered effect. Its one-shot disposer is any deterministic program that makes at
   most `limit` calls of `dispose`, each chosen from the results of the calls before it.
   */
  datatype Effect = Effect(
    id: EffectId,
    limit: nat,
    next: seq<Outcome> -> Option<ScopeId>,
    verdict: seq<Outcome> -> Option<CoreError>)

  /** `ScopeInner`: `result` and `ancestors` belong to its `DisposeCompletion`. */
  datatype Scope = Scope(
    state: ScopeState,
    effects: seq<Effect>,
    children: seq<ScopeId>,
    ancestors: set<ScopeId>,
    result: Option<Outcome>)

  /** `trace` lists the disposers that ran; `stuck` is set when a caller would wait for ever. */
  datatype World = World(scopes: map<ScopeId, Scope>, trace: seq<EffectId>, stuck: bool)

  /** The context of the running code: the scope whose cleanup task is being polled, if any. */
  type Caller = Option<ScopeId>

  ghost function Unclaimed(w: World): set<ScopeId> {
    set id | id in w.scopes && !Claimed(w.scopes[id])
  }

  predicate Claimed(scope: Scope) {
    scope.state == Unloading || scope.state == Disposed
  }

  /** `disposing_scopes`: what the thread locals hold while the caller's task is polled. */
  function Disposing(w: World, caller: Caller): set<ScopeId> {
    if caller.Some? && caller.value in w.scopes
    then w.scopes[caller.value].ancestors + {caller.value}
    else {}
  }

  /** `collect_cleanup_error`. */
  function Collect(errors: seq<CoreError>, outcome: Outcome): seq<CoreError> {
    match outcome
    case Ok(_) => errors
    case Err(CleanupErrors(nested)) => errors + nested
    case Err(error) => errors + [error]
  }

  function Report(errors: seq<CoreError>): Outcome {
    if errors == [] then Ok(()) else Err(CleanupErrors(errors))
  }

  function Inherit(scope: Scope, ancestors: set<ScopeId>): Scope {
    scope.(ancestors := scope.ancestors + ancestors)
  }

  /** The claim of `claim_disposal`: the resources are taken and the children learn their ancestors. */
  function Claim(w: World, caller: Caller, id: ScopeId): World
    requires id in w.scopes
  {
    var chain := Disposing(w, caller);
    var taken := w.scopes[id];
    w.(scopes := map other | other in w.scopes ::
      var scope := if other in taken.children then Inherit(w.scopes[other], chain + {id}) else w.scopes[other];
      if other == id then Inherit(scope, chain).(state := Unloading, effects := [], children := []) else scope)
  }

  function Settle(w: World, id: ScopeId, outcome: Outcome): World
    requires id in w.scopes
  {
    w.(scopes := w.scopes[id := w.scopes[id].(state := Disposed, result := Some(outcome))])
  }

  lemma ClaimShrinks(w: World, caller: Caller, id: ScopeId)
    requires id in Unclaimed(w)
    ensures Unclaimed(Claim(w, caller, id)) == Unclaimed(w) - {id}
  {
    var v := Claim(w, caller, id);
    forall other | other in w.scopes && other != id ensures v.scopes[other].state == w.scopes[other].state {}
  }

  /** `Scope::dispose`. An id that names no scope is inert: the source calls it on a handle. */
  ghost function Dispose(w: World, caller: Caller, id: ScopeId): (r: (World, Outcome))
    ensures r.0.scopes.Keys == w.scopes.Keys && Unclaimed(r.0) <= Unclaimed(w)
    decreases Unclaimed(w), 0, 0
  {
    if id !in w.scopes then (w, Ok(()))
    else if Claimed(w.scopes[id]) then
      if id in Disposing(w, caller) then (w, Ok(()))
      else
        var joined := w.(scopes := w.scopes[id := Inherit(w.scopes[id], Disposing(w, caller))]);
        if w.scopes[id].result.Some? then (joined, w.scopes[id].result.value)
        else (joined.(stuck := true), Ok(()))
    else
      ClaimShrinks(w, caller, id);
      var (after, errors) := DisposeResources(Claim(w, caller, id), Some(id), w.scopes[id].children, w.scopes[id].effects);
      (Settle(after, id, Report(errors)), Report(errors))
  }

  /** `dispose_resources`: children first, then effects, both last to first. */
  ghost function DisposeResources(w: World, context: Caller, children: seq<ScopeId>, effects: seq<Effect>)
    : (r: (World, seq<CoreError>))
    ensures r.0.scopes.Keys == w.scopes.Keys && Unclaimed(r.0) <= Unclaimed(w)
    decreases Unclaimed(w), 3, 0
  {
    var (mid, errors) := DisposeChildren(w, context, children, |children|, []);
    RunEffects(mid, context, effects, |effects|, errors)
  }

  ghost function DisposeChildren(w: World, context: Caller, children: seq<ScopeId>, left: nat, errors: seq<CoreError>)
    : (r: (World, seq<CoreError>))
    requires left <= |children|
    ensures r.0.scopes.Keys == w.scopes.Keys && Unclaimed(r.0) <= Unclaimed(w)
    decreases Unclaimed(w), 2, left
  {
    if left == 0 then (w, errors)
    else
      var (after, outcome) := Dispose(w, context, children[left - 1]);
      DisposeChildren(after, context, children, left - 1, Collect(errors, outcome))
  }

  ghost function RunEffects(w: World, context: Caller, effects: seq<Effect>, left: nat, errors: seq<CoreError>)
    : (r: (World, seq<CoreError>))
    requires left <= |effects|
    ensures r.0.scopes.Keys == w.scopes.Keys && Unclaimed(r.0) <= Unclaimed(w)
    decreases Unclaimed(w), 2, left
  {
    if left == 0 then (w, errors)
    else
      var (after, errors') := RunEffect(w, context, effects[left - 1], errors);
      RunEffects(after, context, effects, left - 1, errors')
  }

  /** The world in which the disposer of `effect` has been started. */
  function Started(w: World, effect: Effect): World {
    w.(trace := w.trace + [effect.id])
  }

  ghost function RunEffect(w: World, context: Caller, effect: Effect, errors: seq<CoreError>): (r: (World, seq<CoreError>))
    ensures r.0.scopes.Keys == w.scopes.Keys && Unclaimed(r.0) <= Unclaimed(w)
    decreases Unclaimed(w), 1, effect.limit + 1
  {
    assert Unclaimed(Started(w, effect)) == Unclaimed(w);
    var (after, history) := RunDisposer(Started(w, effect), context, effect, []);
    (after, Collect(errors, Verdict(effect, history)))
  }

  function Verdict(effect: Effect, history: seq<Outcome>): Outcome {
    match effect.verdict(history)
    case None => Ok(())
    case Some(error) => Err(error)
  }

  ghost function RunDisposer(w: World, context: Caller, effect: Effect, history: seq<Outcome>)
    : (r: (World, seq<Outcome>))
    requires |history| <= effect.limit
    ensures r.0.scopes.Keys == w.scopes.Keys && Unclaimed(r.0) <= Unclaimed(w)
    decreases Unclaimed(w), 1, effect.limit - |history|
  {
    if |history| == effect.limit || effect.next(history).None? then (w, history)
    else
      var (after, outcome) := Dispose(w, context, effect.next(history).value);
      RunDisposer(after, context, effect, history + [outcome])
  }

  // ----- what one initiating disposal keeps

  type Chain = seq<ScopeId>

  function Top(chain: Chain): Caller {
    if chain == [] then None else Some(chain[|chain| - 1])
  }

  ghost predicate Below(w: World, chain: Chain, i: nat)
    requires i < |chain|
  {
    chain[i] in w.scopes && forall j :: 0 <= j < i ==> chain[j] in w.scopes[chain[i]].ancestors
  }

  /**
   `chain` is the active chain, outermost scope first: exactly the scopes being unloaded,
   each of which knows all scopes before it. Claimed scopes hold no resources any more.
   */
  ghost predicate Inv(w: World, chain: Chain) {
    && !w.stuck
    && (forall i :: 0 <= i < |chain| ==> Below(w, chain, i))
    && (forall id :: id in w.scopes ==> (w.scopes[id].state == Unloading <==> id in chain))
    && (forall id :: id in w.scopes && w.scopes[id].state == Disposed ==> w.scopes[id].result.Some?)
    && (forall id :: id in w.scopes && Claimed(w.scopes[id]) ==> Drained(w.scopes[id]))
  }

  ghost predicate Drained(scope: Scope) {
    scope.effects == [] && scope.children == []
  }

  /** What may happen to one scope: it keeps its resources, or it is disposed. */
  ghost predicate Progress(before: Scope, after: Scope) {
    && before.ancestors <= after.ancestors
    && (before.state == Disposed ==> after.state == Disposed && after.result == before.result)
    && (before.state == Unloading ==> after.state == Unloading)
    && (after.state == Disposed || (after.state == before.state && after.effects == before.effects && after.children == before.children))
  }

  ghost predicate Advances(w: World, v: World) {
    && v.scopes.Keys == w.scopes.Keys
    && (forall id :: id in w.scopes ==> Progress(w.scopes[id], v.scopes[id]))
    && w.trace <= v.trace
  }

  lemma AdvancesTransitive(w: World, u: World, v: World)
    requires Advances(w, u) && Advances(u, v)
    ensures Advances(w, v)
  {
    forall id | id in w.scopes ensures Progress(w.scopes[id], v.scopes[id]) {
      assert Progress(w.scopes[id], u.scopes[id]) && Progress(u.scopes[id], v.scopes[id]);
    }
  }

  function EffectIds(effects: seq<Effect>): seq<EffectId> {
    seq(|effects|, i requires 0 <= i < |effects| => effects[i].id)
  }

  /** The effects still registered in the scopes of `order`. */
  ghost function Pending(w: World, order: seq<ScopeId>): multiset<EffectId> {
    if order == [] then multiset{}
    else (if order[0] in w.scopes then multiset(EffectIds(w.scopes[order[0]].effects)) else multiset{}) + Pending(w, order[1..])
  }

  /** Registered effects are conserved: those that ran plus those still pending. */
  ghost function Ledger(w: World, order: seq<ScopeId>): multiset<EffectId> {
    multiset(w.trace) + Pending(w, order)
  }

  ghost predicate Covers(order: seq<ScopeId>, w: World) {
    && (forall id :: id in w.scopes ==> id in order)
    && (forall i, j :: 0 <= i < j < |order| ==> order[i] != order[j])
  }

  /**
   A legitimate piece of disposal work in the active chain: `consumed` are effects that were
   taken from their scopes beforehand and ran during it.
   */
  ghost predicate Kept(w: World, v: World, chain: Chain, order: seq<ScopeId>, consumed: multiset<EffectId>) {
    Inv(v, chain) && Advances(w, v) && Ledger(v, order) == Ledger(w, order) + consumed
  }

  lemma KeptNothing(w: World, chain: Chain, order: seq<ScopeId>)
    requires Inv(w, chain)
    ensures Kept(w, w, chain, order, multiset{})
  {
  }

  lemma KeptHolds(w: World, v: World, chain: Chain, order: seq<ScopeId>, consumed: multiset<EffectId>)
    requires Kept(w, v, chain, order, consumed) && Covers(order, w)
    ensures Inv(v, chain) && Covers(order, v) && Advances(w, v)
  {
  }

  lemma KeptThen(w: World, u: World, v: World, chain: Chain, order: seq<ScopeId>, a: multiset<EffectId>, b: multiset<EffectId>)
    requires Kept(w, u, chain, order, a) && Kept(u, v, chain, order, b)
    ensures Kept(w, v, chain, order, a + b)
  {
    AdvancesTransitive(w, u, v);
  }

  lemma {:induction false} PendingSame(w: World, v: World, order: seq<ScopeId>)
    requires v.scopes.Keys == w.scopes.Keys
    requires forall id :: id in w.scopes && id in order ==> v.scopes[id].effects == w.scopes[id].effects
    ensures Pending(v, order) == Pending(w, order)
  {
    if order != [] { PendingSame(w, v, order[1..]); }
  }

  lemma {:induction false} PendingTaken(w: World, v: World, order: seq<ScopeId>, id: ScopeId)
    requires v.scopes.Keys == w.scopes.Keys && id in w.scopes && id in order
    requires forall i, j :: 0 <= i < j < |order| ==> order[i] != order[j]
    requires v.scopes[id].effects == []
    requires forall other :: other in w.scopes && other != id ==> v.scopes[other].effects == w.scopes[other].effects
    ensures Pending(w, order) == Pending(v, order) + multiset(EffectIds(w.scopes[id].effects))
  {
    if order[0] == id {
      PendingSame(w, v, order[1..]);
      assert EffectIds([]) == [];
    } else {
      PendingTaken(w, v, order[1..], id);
    }
  }

  /** The claim moves the scope onto the chain and its effects from pending to running. */
  lemma ClaimKeeps(w: World, chain: Chain, id: ScopeId, order: seq<ScopeId>)
    requires Inv(w, chain) && id in Unclaimed(w) && Covers(order, w)
    ensures Inv(Claim(w, Top(chain), id), chain + [id])
    ensures Claim(w, Top(chain), id).trace == w.trace
    ensures Ledger(w, order) == Ledger(Claim(w, Top(chain), id), order) + multiset(EffectIds(w.scopes[id].effects))
  {
    ClaimInv(w, chain, id);
    PendingTaken(w, Claim(w, Top(chain), id), order, id);
  }

  /** The children of the claimed scope know it, and all scopes it is disposed inside of, as their ancestors. */
  lemma ClaimInforms(w: World, caller: Caller, id: ScopeId, child: ScopeId)
    requires id in w.scopes && child in w.scopes[id].children && child in w.scopes
    ensures Disposing(w, caller) + {id} <= Claim(w, caller, id).scopes[child].ancestors
    ensures Disposing(w, caller) <= Claim(w, caller, id).scopes[id].ancestors
  {
  }

  lemma ClaimInv(w: World, chain: Chain, id: ScopeId)
    requires Inv(w, chain) && id in Unclaimed(w)
    ensures Inv(Claim(w, Top(chain), id), chain + [id])
  {
    var v := Claim(w, Top(chain), id);
    ClaimChain(w, chain, id);
    forall other | other in v.scopes
      ensures v.scopes[other].state == Unloading <==> other in chain + [id]
      ensures v.scopes[other].state == Disposed ==> v.scopes[other].result.Some?
      ensures Claimed(v.scopes[other]) ==> Drained(v.scopes[other])
    {
      assert other in chain + [id] <==> other in chain || other == id;
    }
  }

  lemma ClaimChain(w: World, chain: Chain, id: ScopeId)
    requires Inv(w, chain) && id in Unclaimed(w)
    ensures forall i :: 0 <= i < |chain| + 1 ==> Below(Claim(w, Top(chain), id), chain + [id], i)
  {
    var v := Claim(w, Top(chain), id);
    forall i | 0 <= i < |chain| + 1 ensures Below(v, chain + [id], i) {
      if i < |chain| {
        assert Below(w, chain, i);
      } else if chain != [] {
        assert Below(w, chain, |chain| - 1);
      }
    }
  }

  /** The completed scope leaves the chain. */
  lemma SettleKeeps(w: World, chain: Chain, id: ScopeId, outcome: Outcome, order: seq<ScopeId>)
    requires Inv(w, chain + [id]) && id in w.scopes && id !in chain
    ensures Inv(Settle(w, id, outcome), chain)
    ensures Ledger(Settle(w, id, outcome), order) == Ledger(w, order)
  {
    var v := Settle(w, id, outcome);
    assert w.scopes[id].state == Unloading by { assert id in chain + [id]; }
    PendingSame(w, v, order);
    forall i | 0 <= i < |chain| ensures Below(v, chain, i) {
      assert Below(w, chain + [id], i);
      assert (chain + [id])[i] == chain[i];
      assert forall j :: 0 <= j < i ==> (chain + [id])[j] == chain[j];
    }
    forall other | other in v.scopes
      ensures v.scopes[other].state == Unloading <==> other in chain
    {
      assert other in chain + [id] <==> other in chain || other == id;
    }
  }

  /**
   From one initiating disposal, whatever the cleanups dispose again: nobody waits, the
   scope ends up disposed unless it is in the active chain, and the effects that ran are
   exactly those no longer pending.
   */
  lemma {:induction false} DisposeKeeps(w: World, chain: Chain, id: ScopeId, order: seq<ScopeId>)
    requires Inv(w, chain) && Covers(order, w)
    ensures Kept(w, Dispose(w, Top(chain), id).0, chain, order, multiset{})
    ensures id in w.scopes ==> Dispose(w, Top(chain), id).0.scopes[id].state == Disposed || id in chain
    decreases Unclaimed(w), 0, 0
  {
    if id in w.scopes && Claimed(w.scopes[id]) {
      JoinKeeps(w, chain, id, order);
    } else if id in w.scopes {
      ClaimShrinks(w, Top(chain), id);
      ClaimKeeps(w, chain, id, order);
      var claimed := Claim(w, Top(chain), id);
      assert Top(chain + [id]) == Some(id);
      var children, effects := w.scopes[id].children, w.scopes[id].effects;
      ResourcesKeep(claimed, chain + [id], children, effects, order);
      var (after, errors) := DisposeResources(claimed, Some(id), children, effects);
      SettleKeeps(after, chain, id, Report(errors), order);
      ClaimedAdvances(w, chain, id, after, Report(errors));
    }
  }

  lemma ClaimedAdvances(w: World, chain: Chain, id: ScopeId, after: World, outcome: Outcome)
    requires id in Unclaimed(w)
    requires Advances(Claim(w, Top(chain), id), after)
    ensures Advances(w, Settle(after, id, outcome))
  {
    var claimed, settled := Claim(w, Top(chain), id), Settle(after, id, outcome);
    forall other | other in w.scopes ensures Progress(w.scopes[other], settled.scopes[other]) {
      assert Progress(claimed.scopes[other], after.scopes[other]);
    }
  }

  /** A second call on a scope: it returns at once inside the chain, and with the stored result otherwise. */
  lemma JoinKeeps(w: World, chain: Chain, id: ScopeId, order: seq<ScopeId>)
    requires Inv(w, chain) && id in w.scopes && Claimed(w.scopes[id])
    ensures var (v, outcome) := Dispose(w, Top(chain), id);
      && Inv(v, chain) && Advances(w, v) && Ledger(v, order) == Ledger(w, order)
      && v.scopes[id].state == w.scopes[id].state
      && (id in chain ==> v == w && outcome == Ok(()))
      && (id in Disposing(w, Top(chain)) ==> outcome == Ok(()))
      && (id !in Disposing(w, Top(chain)) ==>
            Some(outcome) == w.scopes[id].result && v.scopes[id].ancestors == w.scopes[id].ancestors + Disposing(w, Top(chain)))
  {
    if id in chain {
      InChainIsDisposing(w, chain, id);
    } else {
      var (v, _) := Dispose(w, Top(chain), id);
      PendingSame(w, v, order);
      forall i | 0 <= i < |chain| ensures Below(v, chain, i) {
        assert Below(w, chain, i);
      }
    }
  }

  /** A caller waits for a claimed scope that has no result yet, unless it is being disposed inside of it. */
  lemma UnfinishedScopeIsWaitedFor(w: World, caller: Caller, id: ScopeId)
    requires id in w.scopes && Claimed(w.scopes[id]) && w.scopes[id].result.None?
    ensures Dispose(w, caller, id).0.stuck <==> w.stuck || id !in Disposing(w, caller)
  {
  }

  lemma InChainIsDisposing(w: World, chain: Chain, id: ScopeId)
    requires Inv(w, chain) && id in chain
    ensures id in Disposing(w, Top(chain))
  {
    assert Below(w, chain, |chain| - 1);
  }

  lemma {:induction false} ResourcesKeep(w: World, chain: Chain, children: seq<ScopeId>, effects: seq<Effect>, order: seq<ScopeId>)
    requires Inv(w, chain) && Covers(order, w)
    ensures Kept(w, DisposeResources(w, Top(chain), children, effects).0, chain, order, multiset(EffectIds(effects)))
    decreases Unclaimed(w), 3, 0
  {
    ChildrenKeep(w, chain, children, |children|, [], order);
    var (mid, errors) := DisposeChildren(w, Top(chain), children, |children|, []);
    EffectsKeep(mid, chain, effects, |effects|, errors, order);
    IdBagCounts(effects, |effects|);
    assert effects[..|effects|] == effects;
    KeptThen(w, mid, RunEffects(mid, Top(chain), effects, |effects|, errors).0, chain, order, multiset{}, multiset(EffectIds(effects)));
  }

  lemma {:induction false} ChildrenKeep(w: World, chain: Chain, children: seq<ScopeId>, left: nat, errors: seq<CoreError>, order: seq<ScopeId>)
    requires Inv(w, chain) && Covers(order, w) && left <= |children|
    ensures Kept(w, DisposeChildren(w, Top(chain), children, left, errors).0, chain, order, multiset{})
    decreases Unclaimed(w), 2, left
  {
    KeptNothing(w, chain, order);
    hide Kept, Inv, Covers;
    if left > 0 {
      var child := children[left - 1];
      DisposeKeeps(w, chain, child, order);
      var (after, outcome) := Dispose(w, Top(chain), child);
      KeptHolds(w, after, chain, order, multiset{});
      ChildrenKeep(after, chain, children, left - 1, Collect(errors, outcome), order);
      KeptThen(w, after, DisposeChildren(after, Top(chain), children, left - 1, Collect(errors, outcome)).0,
               chain, order, multiset{}, multiset{});
    }
  }

  lemma StartKeeps(w: World, chain: Chain, effect: Effect, order: seq<ScopeId>)
    requires Inv(w, chain)
    ensures Kept(w, Started(w, effect), chain, order, multiset{effect.id})
    ensures Unclaimed(Started(w, effect)) == Unclaimed(w)
  {
    var started := Started(w, effect);
    forall i | 0 <= i < |chain| ensures Below(started, chain, i) { assert Below(w, chain, i); }
    PendingSame(w, started, order);
  }

  /** The ids of the first `left` effects, as a bag. */
  function IdBag(effects: seq<Effect>, left: nat): multiset<EffectId>
    requires left <= |effects|
  {
    if left == 0 then multiset{} else multiset{effects[left - 1].id} + IdBag(effects, left - 1)
  }

  lemma {:induction false} IdBagCounts(effects: seq<Effect>, left: nat)
    requires left <= |effects|
    ensures IdBag(effects, left) == multiset(EffectIds(effects[..left]))
  {
    if left == 0 {
      assert EffectIds(effects[..0]) == [];
    } else {
      IdBagCounts(effects, left - 1);
      assert EffectIds(effects[..left]) == EffectIds(effects[..left - 1]) + [effects[left - 1].id];
    }
  }

  lemma {:induction false} EffectsKeep(w: World, chain: Chain, effects: seq<Effect>, left: nat, errors: seq<CoreError>, order: seq<ScopeId>)
    requires Inv(w, chain) && Covers(order, w) && left <= |effects|
    ensures Kept(w, RunEffects(w, Top(chain), effects, left, errors).0, chain, order, IdBag(effects, left))
    decreases Unclaimed(w), 2, left
  {
    KeptNothing(w, chain, order);
    hide Kept, Inv, Covers;
    if left > 0 {
      EffectKeeps(w, chain, effects[left - 1], errors, order);
      var (after, errors') := RunEffect(w, Top(chain), effects[left - 1], errors);
      KeptHolds(w, after, chain, order, multiset{effects[left - 1].id});
      EffectsKeep(after, chain, effects, left - 1, errors', order);
      KeptThen(w, after, RunEffects(after, Top(chain), effects, left - 1, errors').0, chain, order,
               multiset{effects[left - 1].id}, IdBag(effects, left - 1));
    }
  }

  lemma {:induction false} EffectKeeps(w: World, chain: Chain, effect: Effect, errors: seq<CoreError>, order: seq<ScopeId>)
    requires Inv(w, chain) && Covers(order, w)
    ensures Kept(w, RunEffect(w, Top(chain), effect, errors).0, chain, order, multiset{effect.id})
    decreases Unclaimed(w), 1, effect.limit + 1
  {
    StartKeeps(w, chain, effect, order);
    DisposerKeeps(Started(w, effect), chain, effect, [], order);
    KeptThen(w, Started(w, effect), RunDisposer(Started(w, effect), Top(chain), effect, []).0, chain, order, multiset{effect.id}, multiset{});
  }

  lemma {:induction false} DisposerKeeps(w: World, chain: Chain, effect: Effect, history: seq<Outcome>, order: seq<ScopeId>)
    requires Inv(w, chain) && Covers(order, w) && |history| <= effect.limit
    ensures Kept(w, RunDisposer(w, Top(chain), effect, history).0, chain, order, multiset{})
    decreases Unclaimed(w), 1, effect.limit - |history|
  {
    KeptNothing(w, chain, order);
    hide Kept, Inv, Covers;
    if |history| < effect.limit && effect.next(history).Some? {
      var id := effect.next(history).value;
      DisposeKeeps(w, chain, id, order);
      var (after, outcome) := Dispose(w, Top(chain), id);
      KeptHolds(w, after, chain, order, multiset{});
      DisposerKeeps(after, chain, effect, history + [outcome], order);
      KeptThen(w, after, RunDisposer(after, Top(chain), effect, history + [outcome]).0, chain, order, multiset{}, multiset{});
    }
  }

  /** The calls of a disposer's program that led to this history, each chosen from the results before it. */
  predicate Played(effect: Effect, history: seq<Outcome>) {
    forall k :: 0 <= k < |history| ==> effect.next(history[..k]).Some?
  }

  lemma PlayedOn(effect: Effect, history: seq<Outcome>, outcome: Outcome)
    requires Played(effect, history) && |history| < effect.limit && effect.next(history).Some?
    ensures Played(effect, history + [outcome])
  {
    var more := history + [outcome];
    forall k | 0 <= k < |more| ensures effect.next(more[..k]).Some? {
      assert more[..k] == history[..k];
      assert history[..|history|] == history;
    }
  }

  /** A disposer runs its program to the end, and every scope it disposes is disposed, or in the active chain. */
  lemma {:induction false} DisposerRunsItsProgram(w: World, chain: Chain, effect: Effect, history: seq<Outcome>, order: seq<ScopeId>)
    requires Inv(w, chain) && Covers(order, w) && |history| <= effect.limit && Played(effect, history)
    ensures var (v, all) := RunDisposer(w, Top(chain), effect, history);
      && history <= all && Played(effect, all) && v.scopes.Keys == w.scopes.Keys
      && (|all| == effect.limit || effect.next(all).None?)
      && forall k :: |history| <= k < |all| ==>
           var id := effect.next(all[..k]).value;
           id in w.scopes ==> id in chain || (id in v.scopes && v.scopes[id].state == Disposed)
    decreases Unclaimed(w), 1, effect.limit - |history|
  {
    hide Inv, Covers, Kept, Advances, Dispose, Played;
    if |history| == effect.limit || effect.next(history).None? {
      assert RunDisposer(w, Top(chain), effect, history) == (w, history);
    } else {
      var id := effect.next(history).value;
      DisposeKeeps(w, chain, id, order);
      var (after, outcome) := Dispose(w, Top(chain), id);
      KeptHolds(w, after, chain, order, multiset{});
      PlayedOn(effect, history, outcome);
      DisposerRunsItsProgram(after, chain, effect, history + [outcome], order);
      DisposerKeeps(after, chain, effect, history + [outcome], order);
      var (v, all) := RunDisposer(after, Top(chain), effect, history + [outcome]);
      KeptHolds(after, v, chain, order, multiset{});
      StaysDisposed(w, after, v, chain, id);
      assert all[..|history|] == history;
    }
  }

  lemma StaysDisposed(w: World, after: World, v: World, chain: Chain, id: ScopeId)
    requires Advances(w, after) && Advances(after, v)
    requires id in w.scopes ==> after.scopes[id].state == Disposed || id in chain
    ensures v.scopes.Keys == w.scopes.Keys && after.scopes.Keys == w.scopes.Keys
    ensures id in w.scopes ==> id in chain || v.scopes[id].state == Disposed
  {
    if id in w.scopes { assert Progress(after.scopes[id], v.scopes[id]); }
  }

  lemma {:induction false} PendingWithout(w: World, v: World, order: seq<ScopeId>, id: ScopeId)
    requires Advances(w, v) && id in w.scopes && id in order
    requires forall other :: other in w.scopes && v.scopes[other].state == Disposed ==> v.scopes[other].effects == []
    requires v.scopes[id].state == Disposed
    ensures Pending(v, order) + multiset(EffectIds(w.scopes[id].effects)) <= Pending(w, order)
  {
    var head := order[0];
    assert head in w.scopes ==> Progress(w.scopes[head], v.scopes[head]);
    assert EffectIds([]) == [];
    if id in order[1..] {
      PendingWithout(w, v, order[1..], id);
    } else {
      PendingShrinks(w, v, order[1..]);
    }
  }

  lemma {:induction false} PendingShrinks(w: World, v: World, order: seq<ScopeId>)
    requires Advances(w, v)
    requires forall other :: other in w.scopes && v.scopes[other].state == Disposed ==> v.scopes[other].effects == []
    ensures Pending(v, order) <= Pending(w, order)
  {
    if order != [] {
      var head := order[0];
      assert head in w.scopes ==> Progress(w.scopes[head], v.scopes[head]);
      assert EffectIds([]) == [];
      PendingShrinks(w, v, order[1..]);
    }
  }

  /** Every effect is counted once. */
  ghost predicate Single(ledger: multiset<EffectId>) {
    forall e :: e in ledger ==> ledger[e] == 1
  }

  /** A world in which no disposal is under way and every registered effect is registered once. */
  ghost predicate Quiescent(w: World, order: seq<ScopeId>) {
    Inv(w, []) && Covers(order, w) && Single(Ledger(w, order))
  }

  /**
   One initiating disposal, cleanups disposing whatever they like: it terminates (by
   recursion on the unclaimed scopes, then the effects left), nobody waits for ever, and it
   leaves a quiescent world. A scope is either untouched, or it is disposed and each of its
   effects has run exactly once; effects still registered have not run.
   */
  lemma DisposalRunsEffectsOnce(w: World, id: ScopeId, order: seq<ScopeId>)
    requires Quiescent(w, order) && id in w.scopes
    ensures var v := Dispose(w, None, id).0;
      && Quiescent(v, order) && Advances(w, v) && v.scopes[id].state == Disposed
      && forall scope :: scope in w.scopes ==>
        && v.scopes[scope].state != Unloading
        && (v.scopes[scope].state == Disposed ==>
              forall e :: e in EffectIds(w.scopes[scope].effects) ==> multiset(v.trace)[e] == 1)
        && (v.scopes[scope].state != Disposed ==>
              v.scopes[scope].effects == w.scopes[scope].effects
              && forall e :: e in EffectIds(w.scopes[scope].effects) ==> multiset(v.trace)[e] == 0)
  {
    assert Top([]) == None;
    DisposeKeeps(w, [], id, order);
    var v := Dispose(w, None, id).0;
    forall scope | scope in w.scopes
      ensures forall e :: e in EffectIds(w.scopes[scope].effects) ==>
        multiset(v.trace)[e] == if v.scopes[scope].state == Disposed then 1 else 0
    {
      assert Progress(w.scopes[scope], v.scopes[scope]);
      forall e | e in EffectIds(w.scopes[scope].effects)
        ensures multiset(v.trace)[e] == if v.scopes[scope].state == Disposed then 1 else 0
      {
        EffectRunsOnce(w, v, order, scope, e);
      }
    }
  }

  lemma EffectRunsOnce(w: World, v: World, order: seq<ScopeId>, scope: ScopeId, e: EffectId)
    requires Covers(order, w) && Single(Ledger(w, order)) && Advances(w, v) && Ledger(v, order) == Ledger(w, order)
    requires forall id :: id in v.scopes && v.scopes[id].state == Disposed ==> Drained(v.scopes[id])
    requires scope in w.scopes && e in EffectIds(w.scopes[scope].effects)
    ensures multiset(v.trace)[e] == if v.scopes[scope].state == Disposed then 1 else 0
  {
    PendingHas(w, order, scope, e);
    assert e in Ledger(w, order);
    assert multiset(v.trace)[e] + Pending(v, order)[e] == 1;
    assert Progress(w.scopes[scope], v.scopes[scope]);
    if v.scopes[scope].state == Disposed {
      PendingWithout(w, v, order, scope);
      assert multiset(EffectIds(w.scopes[scope].effects))[e] >= 1;
      assert (Pending(v, order) + multiset(EffectIds(w.scopes[scope].effects)))[e] <= Pending(w, order)[e];
    } else {
      PendingHas(v, order, scope, e);
    }
  }

  lemma {:induction false} PendingHas(w: World, order: seq<ScopeId>, scope: ScopeId, e: EffectId)
    requires scope in w.scopes && scope in order && e in EffectIds(w.scopes[scope].effects)
    ensures Pending(w, order)[e] >= 1
  {
    if order[0] != scope { PendingHas(w, order[1..], scope, e); }
  }

  // ----- the order of cleanups

  /** A subtree of scopes, as registered. */
  datatype Tree = Tree(id: ScopeId, effects: seq<Effect>, children: seq<Tree>)

  /** The effects in the order in which they are cleaned up: children and effects, each last first. */
  function CleanupOrder(t: Tree): seq<Effect> {
    ChildrenOrder(t.children) + Reversed(t.effects)
  }

  function ChildrenOrder(ts: seq<Tree>): seq<Effect> {
    if ts == [] then [] else CleanupOrder(ts[|ts| - 1]) + ChildrenOrder(ts[..|ts| - 1])
  }

  function Reversed<T>(s: seq<T>): seq<T> {
    if s == [] then [] else [s[|s| - 1]] + Reversed(s[..|s| - 1])
  }

  /** What one effect that disposes nothing reports: nothing, its error, or the errors its error is made of. */
  function FailureOf(effect: Effect): seq<CoreError> {
    match effect.verdict([])
    case None => []
    case Some(CleanupErrors(nested)) => nested
    case Some(error) => [error]
  }

  /** The failures of a list of effects, in order, one level of nesting flattened. */
  function Failures(effects: seq<Effect>): seq<CoreError> {
    if effects == [] then [] else FailureOf(effects[0]) + Failures(effects[1..])
  }

  lemma FailureIsCollected(effect: Effect)
    ensures Collect([], Verdict(effect, [])) == FailureOf(effect)
  {
  }

  function TreeIds(t: Tree): set<ScopeId> {
    {t.id} + ForestIds(t.children)
  }

  function ForestIds(ts: seq<Tree>): set<ScopeId> {
    if ts == [] then {} else TreeIds(ts[|ts| - 1]) + ForestIds(ts[..|ts| - 1])
  }

  /** `w` holds the subtree `t`, fresh: active scopes, none shared, no effect that disposes again. */
  ghost predicate Holds(w: World, t: Tree) {
    && t.id in w.scopes && t.id !in ForestIds(t.children)
    && w.scopes[t.id].state == Active
    && w.scopes[t.id].effects == t.effects
    && (forall i :: 0 <= i < |t.effects| ==> t.effects[i].limit == 0)
    && |w.scopes[t.id].children| == |t.children|
    && (forall i :: 0 <= i < |t.children| ==> w.scopes[t.id].children[i] == t.children[i].id)
    && HoldsAll(w, t.children)
  }

  ghost predicate HoldsAll(w: World, ts: seq<Tree>) {
    ts == [] ||
    (var last, rest := ts[|ts| - 1], ts[..|ts| - 1];
     Holds(w, last) && HoldsAll(w, rest) && TreeIds(last) !! ForestIds(rest))
  }

  /** Outside `ids` nothing changed; inside, only ancestor sets did. */
  ghost predicate AgreesOn(w: World, v: World, ids: set<ScopeId>) {
    forall id :: id in ids && id in w.scopes ==>
      id in v.scopes && v.scopes[id].state == w.scopes[id].state
      && v.scopes[id].effects == w.scopes[id].effects && v.scopes[id].children == w.scopes[id].children
  }

  lemma {:induction false} HoldsFrame(w: World, v: World, t: Tree)
    requires Holds(w, t) && AgreesOn(w, v, TreeIds(t))
    ensures Holds(v, t)
    decreases t, 0
  {
    HoldsAllFrame(w, v, t.children);
  }

  lemma {:induction false} HoldsAllFrame(w: World, v: World, ts: seq<Tree>)
    requires HoldsAll(w, ts) && AgreesOn(w, v, ForestIds(ts))
    ensures HoldsAll(v, ts)
    decreases ts, |ts|
  {
    if ts != [] {
      HoldsFrame(w, v, ts[|ts| - 1]);
      HoldsAllFrame(w, v, ts[..|ts| - 1]);
    }
  }

  lemma CollectAppends(errors: seq<CoreError>, outcome: Outcome)
    ensures Collect(errors, outcome) == errors + Collect([], outcome)
  {
  }

  lemma {:induction false} FailuresAppend(a: seq<Effect>, b: seq<Effect>)
    ensures Failures(a + b) == Failures(a) + Failures(b)
  {
    if a == [] {
      assert a + b == b;
    } else {
      assert (a + b)[1..] == a[1..] + b;
      FailuresAppend(a[1..], b);
    }
  }

  lemma EffectIdsAppend(a: seq<Effect>, b: seq<Effect>)
    ensures EffectIds(a + b) == EffectIds(a) + EffectIds(b)
  {
  }

  /** From `w` to `v` exactly the effects `ran` were cleaned up, and no scope outside `ids` changed. */
  ghost predicate Ran(w: World, v: World, ran: seq<Effect>, ids: set<ScopeId>) {
    && v.trace == w.trace + EffectIds(ran)
    && v.stuck == w.stuck
    && v.scopes.Keys == w.scopes.Keys
    && (forall id :: id !in ids && id in w.scopes ==> v.scopes[id] == w.scopes[id])
  }

  lemma RanThen(w: World, u: World, v: World, a: seq<Effect>, b: seq<Effect>, ids: set<ScopeId>, more: set<ScopeId>)
    requires Ran(w, u, a, ids) && Ran(u, v, b, more)
    ensures Ran(w, v, a + b, ids + more)
  {
    EffectIdsAppend(a, b);
  }

  /**
   A fresh tree is cleaned up in exactly the reverse of its registration order, every effect
   runs whatever fails, and the reported errors are the failures in that same order.
   */
  lemma {:induction false} DisposalFollowsRegistration(w: World, caller: Caller, t: Tree)
    requires Holds(w, t)
    ensures Ran(w, Dispose(w, caller, t.id).0, CleanupOrder(t), TreeIds(t))
    ensures Dispose(w, caller, t.id).1 == Report(Failures(CleanupOrder(t)))
    decreases t, 0
  {
    var claimed := Claim(w, caller, t.id);
    ClaimShrinks(w, caller, t.id);
    FreshClaim(w, caller, t);
    TreeResources(claimed, Some(t.id), w.scopes[t.id].children, t);
  }

  lemma {:induction false} TreeResources(claimed: World, caller: Caller, ids: seq<ScopeId>, t: Tree)
    requires HoldsAll(claimed, t.children)
    requires |ids| == |t.children| && forall i :: 0 <= i < |ids| ==> ids[i] == t.children[i].id
    requires forall i :: 0 <= i < |t.effects| ==> t.effects[i].limit == 0
    ensures var (after, errors) := DisposeResources(claimed, caller, ids, t.effects);
      Ran(claimed, after, CleanupOrder(t), ForestIds(t.children)) && errors == Failures(CleanupOrder(t))
    decreases t.children, |t.children| + 1
  {
    ChildrenFollow(claimed, caller, ids, t.children, []);
    ChildrenReport(claimed, caller, ids, t.children, []);
    var (mid, errors) := DisposeChildren(claimed, caller, ids, |ids|, []);
    EffectsFollow(mid, caller, t.effects, |t.effects|, errors);
    var (after, errors') := RunEffects(mid, caller, t.effects, |t.effects|, errors);
    assert t.effects[..|t.effects|] == t.effects;
    RanThen(claimed, mid, after, ChildrenOrder(t.children), Reversed(t.effects), ForestIds(t.children), {});
    assert ForestIds(t.children) + {} == ForestIds(t.children);
    FailuresAppend(ChildrenOrder(t.children), Reversed(t.effects));
    assert errors == Failures(ChildrenOrder(t.children));
  }

  /** The claim of a fresh root leaves its subtrees fresh. */
  lemma FreshClaim(w: World, caller: Caller, t: Tree)
    requires Holds(w, t)
    ensures var claimed := Claim(w, caller, t.id);
      HoldsAll(claimed, t.children) && Ran(w, claimed, [], TreeIds(t))
  {
    var claimed := Claim(w, caller, t.id);
    forall i | 0 <= i < |t.children| ensures t.children[i].id in ForestIds(t.children) {
      RootInForest(t.children, i);
    }
    assert AgreesOn(w, claimed, ForestIds(t.children));
    HoldsAllFrame(w, claimed, t.children);
    assert EffectIds([]) == [];
  }

  lemma {:induction false} RootInForest(ts: seq<Tree>, i: nat)
    requires i < |ts|
    ensures ts[i].id in ForestIds(ts)
  {
    if i < |ts| - 1 { RootInForest(ts[..|ts| - 1], i); }
  }

  /** Disposing the last subtree leaves the others fresh. */
  lemma {:induction false} LastSubtree(w: World, caller: Caller, last: Tree, rest: seq<Tree>)
    requires HoldsAll(w, rest + [last])
    ensures Ran(w, Dispose(w, caller, last.id).0, CleanupOrder(last), TreeIds(last))
    ensures Dispose(w, caller, last.id).1 == Report(Failures(CleanupOrder(last)))
    ensures HoldsAll(Dispose(w, caller, last.id).0, rest)
    decreases last, 1
  {
    assert (rest + [last])[..|rest|] == rest;
    DisposalFollowsRegistration(w, caller, last);
    HoldsAllFrame(w, Dispose(w, caller, last.id).0, rest);
  }

  lemma {:induction false} ChildrenFollow(w: World, caller: Caller, ids: seq<ScopeId>, ts: seq<Tree>, errors: seq<CoreError>)
    requires |ts| <= |ids| && HoldsAll(w, ts)
    requires forall i :: 0 <= i < |ts| ==> ids[i] == ts[i].id
    ensures Ran(w, DisposeChildren(w, caller, ids, |ts|, errors).0, ChildrenOrder(ts), ForestIds(ts))
    decreases ts, |ts|
  {
    if ts == [] {
      assert EffectIds([]) == [];
    } else {
      var last, rest := ts[|ts| - 1], ts[..|ts| - 1];
      assert ts == rest + [last];
      LastSubtree(w, caller, last, rest);
      var (after, outcome) := Dispose(w, caller, last.id);
      ChildrenFollow(after, caller, ids, rest, Collect(errors, outcome));
      RanThen(w, after, DisposeChildren(after, caller, ids, |rest|, Collect(errors, outcome)).0,
              CleanupOrder(last), ChildrenOrder(rest), TreeIds(last), ForestIds(rest));
    }
  }

  lemma {:induction false} ChildrenReport(w: World, caller: Caller, ids: seq<ScopeId>, ts: seq<Tree>, errors: seq<CoreError>)
    requires |ts| <= |ids| && HoldsAll(w, ts)
    requires forall i :: 0 <= i < |ts| ==> ids[i] == ts[i].id
    ensures DisposeChildren(w, caller, ids, |ts|, errors).1 == errors + Failures(ChildrenOrder(ts))
    decreases ts, |ts|
  {
    if ts != [] {
      var last, rest := ts[|ts| - 1], ts[..|ts| - 1];
      assert ts == rest + [last];
      LastSubtree(w, caller, last, rest);
      ReportCollects(errors, CleanupOrder(last), ChildrenOrder(rest));
      ChildrenReport(Dispose(w, caller, last.id).0, caller, ids, rest, errors + Failures(CleanupOrder(last)));
    }
  }

  lemma ReportCollects(errors: seq<CoreError>, first: seq<Effect>, more: seq<Effect>)
    ensures Collect(errors, Report(Failures(first))) == errors + Failures(first)
    ensures (errors + Failures(first)) + Failures(more) == errors + Failures(first + more)
  {
    FailuresAppend(first, more);
    CollectReport(errors, Failures(first), Failures(more));
  }

  lemma CollectReport(errors: seq<CoreError>, first: seq<CoreError>, more: seq<CoreError>)
    ensures Collect(errors, Report(first)) == errors + first
    ensures (errors + first) + more == errors + (first + more)
  {
  }

  lemma {:induction false} EffectsFollow(w: World, caller: Caller, effects: seq<Effect>, left: nat, errors: seq<CoreError>)
    requires left <= |effects| && forall i :: 0 <= i < |effects| ==> effects[i].limit == 0
    ensures Ran(w, RunEffects(w, caller, effects, left, errors).0, Reversed(effects[..left]), {})
    ensures RunEffects(w, caller, effects, left, errors).1 == errors + Failures(Reversed(effects[..left]))
    decreases left
  {
    if left == 0 {
      assert EffectIds([]) == [];
    } else {
      var effect := effects[left - 1];
      var rest := Reversed(effects[..left - 1]);
      EffectsFollow(Started(w, effect), caller, effects, left - 1, Collect(errors, Verdict(effect, [])));
      assert effects[..left][..left - 1] == effects[..left - 1];
      assert Reversed(effects[..left]) == [effect] + rest;
      QuietEffect(w, caller, effect, effects, left, errors, rest);
    }
  }

  lemma QuietEffect(w: World, caller: Caller, effect: Effect, effects: seq<Effect>, left: nat, errors: seq<CoreError>, rest: seq<Effect>)
    requires 0 < left <= |effects| && effects[left - 1] == effect && effect.limit == 0
    requires var (v, errors') := RunEffects(Started(w, effect), caller, effects, left - 1, Collect(errors, Verdict(effect, [])));
      Ran(Started(w, effect), v, rest, {}) && errors' == Collect(errors, Verdict(effect, [])) + Failures(rest)
    ensures Ran(w, RunEffects(w, caller, effects, left, errors).0, [effect] + rest, {})
    ensures RunEffects(w, caller, effects, left, errors).1 == errors + Failures([effect] + rest)
  {
    FirstFailure(errors, effect, rest);
    assert EffectIds([effect]) == [effect.id];
    assert RunEffect(w, caller, effect, errors) == (Started(w, effect), Collect(errors, Verdict(effect, [])));
    RanThen(w, Started(w, effect), RunEffects(w, caller, effects, left, errors).0, [effect], rest, {}, {});
  }

  lemma FirstFailure(errors: seq<CoreError>, effect: Effect, rest: seq<Effect>)
    ensures Collect(errors, Verdict(effect, [])) + Failures(rest) == errors + Failures([effect] + rest)
  {
    assert ([effect] + rest)[1..] == rest;
    CollectAppends(errors, Verdict(effect, []));
    FailureIsCollected(effect);
    CollectReport(errors, Collect([], Verdict(effect, [])), Failures(rest));
  }

  // ----- registration and failed setups

  /** `add_effect_with` once the scope has admitted the effect. */
  function Register(w: World, id: ScopeId, effect: Effect): World
    requires id in w.scopes
  {
    w.(scopes := w.scopes[id := w.scopes[id].(effects := w.scopes[id].effects + [effect])])
  }

  /** `rollback_failed_setup` takes the resources without claiming the scope. */
  function FailSetup(w: World, id: ScopeId): World
    requires id in w.scopes
  {
    w.(scopes := w.scopes[id := w.scopes[id].(state := Failed, effects := [], children := [])])
  }

  lemma {:induction false} RegistrationCounts(w: World, id: ScopeId, effect: Effect, order: seq<ScopeId>)
    requires id in w.scopes && Covers(order, w)
    ensures Ledger(Register(w, id, effect), order) == Ledger(w, order) + multiset{effect.id}
  {
    var v := Register(w, id, effect);
    var emptied := w.(scopes := w.scopes[id := w.scopes[id].(effects := [])]);
    PendingTaken(w, emptied, order, id);
    PendingTaken(v, emptied, order, id);
    assert EffectIds(v.scopes[id].effects) == EffectIds(w.scopes[id].effects) + [effect.id];
  }

  /** A failed setup is rolled back completely: its effects run, and the ledger stays balanced. */
  lemma RollbackKeeps(w: World, chain: Chain, id: ScopeId, order: seq<ScopeId>)
    requires Inv(w, chain) && Covers(order, w) && id in w.scopes && w.scopes[id].state == Active
    ensures var (v, _) := DisposeResources(FailSetup(w, id), Top(chain), w.scopes[id].children, w.scopes[id].effects);
      && Inv(v, chain) && Ledger(v, order) == Ledger(w, order)
      && (v.scopes[id].state == Failed || v.scopes[id].state == Disposed)
  {
    var failed := FailSetup(w, id);
    FailingKeepsInv(w, chain, id);
    hide Inv, DisposeResources;
    PendingTaken(w, failed, order, id);
    ResourcesKeep(failed, chain, w.scopes[id].children, w.scopes[id].effects, order);
RollbackFails(w, id, DisposeResources(failed, Top(chain), w.scopes[id].children, w.scopes[id].effects).0);
  }

  lemma FailingKeepsInv(w: World, chain: Chain, id: ScopeId)
    requires Inv(w, chain) && id in w.scopes && w.scopes[id].state == Active
    ensures Inv(FailSetup(w, id), chain)
  {
    forall i | 0 <= i < |chain| ensures Below(FailSetup(w, id), chain, i) { assert Below(w, chain, i); }
  }

  lemma RollbackFails(w: World, id: ScopeId, v: World)
    requires id in w.scopes && Advances(FailSetup(w, id), v)
    ensures v.scopes.Keys == w.scopes.Keys && (v.scopes[id].state == Failed || v.scopes[id].state == Disposed)
  {
    assert Progress(FailSetup(w, id).scopes[id], v.scopes[id]);
  }

  /**
   A disposal called while a failed setup is rolled back, possibly by one of the disposers the rollback runs: `held` are the
   effects the rollback has taken and not run. The disposal completes, and all effects registered or held
   when it was called have run exactly if the rollback held none.
   */
  lemma DisposalFindsTheRest(w: World, chain: Chain, id: ScopeId, held: multiset<EffectId>, order: seq<ScopeId>)
    requires Inv(w, chain) && Covers(order, w) && id in Unclaimed(w)
    requires Single(Ledger(w, order) + held)
    ensures var v := Dispose(w, Top(chain), id).0;
      && v.scopes[id].state == Disposed
      && ((forall e :: e in held || e in EffectIds(w.scopes[id].effects) ==> e in v.trace) <==> held == multiset{})
  {
    DisposeKeeps(w, chain, id, order);
    var v := Dispose(w, Top(chain), id).0;
    assert Ledger(v, order) == Ledger(w, order);
    assert Single(Ledger(w, order)) by {
      forall e | e in Ledger(w, order) ensures Ledger(w, order)[e] == 1 { assert e in Ledger(w, order) + held; }
    }
    forall e | e in EffectIds(w.scopes[id].effects) ensures e in v.trace {
      EffectRunsOnce(w, v, order, id, e);
    }
    forall e | e in held ensures e !in v.trace {
      assert (Ledger(w, order) + held)[e] == 1;
      assert e !in Ledger(v, order);
    }
    if held != multiset{} {
      var e :| e in held;
      assert e !in v.trace;
    }
  }

  /** So a disposal that overtakes the rollback of a failed setup reads Disposed although the effects have not run. */
  lemma DisposalOvertakesRollback(w: World, id: ScopeId, order: seq<ScopeId>, e: EffectId)
    requires Quiescent(w, order) && id in w.scopes && w.scopes[id].state == Active
    requires e in EffectIds(w.scopes[id].effects)
    ensures var (v, outcome) := Dispose(FailSetup(w, id), None, id);
      v.scopes[id].state == Disposed && outcome == Ok(()) && e !in v.trace
  {
    var failed := FailSetup(w, id);
    assert failed.scopes[id].children == [] && failed.scopes[id].effects == [];
    assert DisposeResources(Claim(failed, None, id), Some(id), [], []) == (Claim(failed, None, id), []);
    PendingHas(w, order, id, e);
    assert Ledger(w, order)[e] == 1;
  }

  /** The scopes of one process, as mutable state. */
  class Lifecycle {
    var scopes: map<ScopeId, Scope>
    var trace: seq<EffectId>
    var stuck: bool

    ghost function State(): World
      reads this
    {
      World(scopes, trace, stuck)
    }

    constructor ()
      ensures State() == World(map[], [], false)
    {
      scopes, trace, stuck := map[], [], false;
    }

    /** `Scope::child`; `id` is the fresh identifier of the new scope. */
    method NewChild(parent: ScopeId, id: ScopeId) returns (r: Result<(), CoreError>)
      requires parent in scopes && id !in scopes
      modifies this
      ensures r.Ok? <==> old(scopes)[parent].state == Active
      ensures r.Err? ==> r.error == InvalidState(old(scopes)[parent].state) && unchanged(this)
      ensures r.Ok? ==> trace == old(trace) && stuck == old(stuck)
      ensures r.Ok? ==>
        scopes == old(scopes)[parent := old(scopes)[parent].(children := old(scopes)[parent].children + [id])]
                             [id := Scope(Active, [], [], {}, None)]
    {
      if scopes[parent].state != Active {
        return Err(InvalidState(scopes[parent].state));
      }
      scopes := scopes[parent := scopes[parent].(children := scopes[parent].children + [id])];
      scopes := scopes[id := Scope(Active, [], [], {}, None)];
      r := Ok(());
    }

    /** `add_effect_with`: once a scope is claimed or failed, nothing can be registered any more. */
    method AddEffect(id: ScopeId, effect: Effect) returns (r: Result<(), CoreError>)
      requires id in scopes
      modifies this
      ensures r.Ok? <==> old(scopes)[id].state == Active
      ensures r.Err? ==> r.error == InvalidState(old(scopes)[id].state) && unchanged(this)
      ensures r.Ok? ==> State() == Register(old(State()), id, effect)
    {
      if scopes[id].state != Active {
        return Err(InvalidState(scopes[id].state));
      }
      scopes := scopes[id := scopes[id].(effects := scopes[id].effects + [effect])];
      r := Ok(());
    }

    method DisposingScopes(caller: Caller) returns (chain: set<ScopeId>)
      ensures chain == Disposing(State(), caller)
    {
      if caller.Some? && caller.value in scopes {
        chain := scopes[caller.value].ancestors + {caller.value};
      } else {
        chain := {};
      }
    }

    method DisposeScope(caller: Caller, id: ScopeId) returns (outcome: Outcome)
      modifies this
      ensures (State(), outcome) == Dispose(old(State()), caller, id)
      decreases Unclaimed(State()), 0, 0
    {
      if id !in scopes {
        return Ok(());
      }
      var chain := DisposingScopes(caller);
      if Claimed(scopes[id]) {
        if id in chain {
          return Ok(());
        }
        var result := scopes[id].result;
        scopes := scopes[id := Inherit(scopes[id], chain)];
        if result.None? {
          stuck := true;
          return Ok(());
        }
        return result.value;
      }
      ClaimShrinks(State(), caller, id);
      var taken := scopes[id];
      scopes := Claim(World(scopes, trace, stuck), caller, id).scopes;
      var errors := RunResources(Some(id), taken.children, taken.effects);
      outcome := Report(errors);
      scopes := scopes[id := scopes[id].(state := Disposed, result := Some(outcome))];
    }

    method RunResources(context: Caller, children: seq<ScopeId>, effects: seq<Effect>) returns (errors: seq<CoreError>)
      modifies this
      ensures (State(), errors) == DisposeResources(old(State()), context, children, effects)
      decreases Unclaimed(State()), 3, 0
    {
      errors := RunChildren(context, children);
      errors := RunAllEffects(context, effects, errors);
    }

    method RunChildren(context: Caller, children: seq<ScopeId>) returns (errors: seq<CoreError>)
      modifies this
      ensures (State(), errors) == DisposeChildren(old(State()), context, children, |children|, [])
      decreases Unclaimed(State()), 2, 0
    {
      hide Dispose, Collect;
      errors := [];
      var left: nat := |children|;
      while left > 0
        invariant left <= |children|
        invariant Unclaimed(State()) <= Unclaimed(old(State()))
        invariant DisposeChildren(State(), context, children, left, errors)
               == DisposeChildren(old(State()), context, children, |children|, [])
      {
        left := left - 1;
        var outcome := DisposeScope(context, children[left]);
        errors := Collect(errors, outcome);
      }
    }

    method RunAllEffects(context: Caller, effects: seq<Effect>, before: seq<CoreError>) returns (errors: seq<CoreError>)
      modifies this
      ensures (State(), errors) == RunEffects(old(State()), context, effects, |effects|, before)
      decreases Unclaimed(State()), 2, 0
    {
      hide RunEffect;
      errors := before;
      var left: nat := |effects|;
      while left > 0
        invariant left <= |effects|
        invariant Unclaimed(State()) <= Unclaimed(old(State()))
        invariant RunEffects(State(), context, effects, left, errors)
               == RunEffects(old(State()), context, effects, |effects|, before)
      {
        left := left - 1;
        errors := RunEffectDisposer(context, effects[left], errors);
      }
    }

    method RunEffectDisposer(context: Caller, effect: Effect, before: seq<CoreError>) returns (errors: seq<CoreError>)
      modifies this
      ensures (State(), errors) == RunEffect(old(State()), context, effect, before)
      decreases Unclaimed(State()), 1, 0
    {
      trace := trace + [effect.id];
      ghost var started := State();
      assert Unclaimed(started) == Unclaimed(old(State()));
      var history: seq<Outcome> := [];
      while |history| < effect.limit && effect.next(history).Some?
        invariant |history| <= effect.limit
        invariant Unclaimed(State()) <= Unclaimed(started)
        invariant RunDisposer(State(), context, effect, history) == RunDisposer(started, context, effect, [])
        decreases effect.limit - |history|
      {
        var outcome := DisposeScope(context, effect.next(history).value);
        history := history + [outcome];
      }
      errors := Collect(before, Verdict(effect, history));
    }

    /** `rollback_failed_setup`, called by a fiber whose setup returned an error. */
    method RollbackFailedSetup(caller: Caller, id: ScopeId) returns (outcome: Outcome)
      requires id in scopes
      modifies this
      ensures old(scopes)[id].state != Active ==> unchanged(this) && outcome == Ok(())
      ensures old(scopes)[id].state == Active ==>
        var (v, errors) := DisposeResources(FailSetup(old(State()), id), caller, old(scopes)[id].children, old(scopes)[id].effects);
        State() == v && outcome == Report(errors)
    {
      if scopes[id].state != Active {
        return Ok(());
      }
      var taken := scopes[id];
      scopes := scopes[id := taken.(state := Failed, effects := [], children := [])];
      var errors := RunResources(caller, taken.children, taken.effects);
      outcome := Report(errors);
    }
  }
}
