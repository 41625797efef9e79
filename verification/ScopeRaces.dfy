/**
 Registrations, failed setups and disposals of scopes started on any number of threads
 (crates/tessivum-core/src/lifecycle.rs). A step is one section under a scope's lock, the return of one
 disposer, or the store of the final state; it belongs to one scope, and all interleavings are considered.
 */
module ScopeRaces {
  import D = ScopeDisposal

  type ScopeId = D.ScopeId
  type EffectId = D.EffectId

  /**
   `effects` are registered, `rolling` were taken by the rollback of a failed setup and `clearing` by a disposal; an
   effect leaves these for `ran` when its disposer has returned. `admitted` is the history of registrations.
   */
  datatype Scope = Scope(
    state: D.ScopeState, effects: seq<EffectId>, rolling: seq<EffectId>, clearing: seq<EffectId>,
    ran: seq<EffectId>, admitted: seq<EffectId>)

  type Scopes = map<ScopeId, Scope>

  const FRESH := Scope(D.Active, [], [], [], [], [])

  datatype Step =
    | Create(id: ScopeId)
    | Register(id: ScopeId, effect: EffectId)
    | FailSetup(id: ScopeId)
    | RollbackRan(id: ScopeId)
    | Claim(id: ScopeId)
    | CleanupRan(id: ScopeId)
    | Complete(id: ScopeId)

  predicate Possible(c: Scope, step: Step) {
    match step
    case Create(_) => true
    case Register(_, _) => c.state == D.Active
    case FailSetup(_) => c.state == D.Active
    case RollbackRan(_) => c.rolling != []
    case Claim(_) => c.state == D.Active || c.state == D.Failed
    case CleanupRan(_) => c.clearing != []
    case Complete(_) => c.state == D.Unloading && c.clearing == []
  }

  predicate Enabled(s: Scopes, step: Step) {
    if step.Create? then step.id !in s else step.id in s && Possible(s[step.id], step)
  }

  /** The step as its own scope sees it. */
  function Changed(c: Scope, step: Step): Scope
    requires Possible(c, step)
  {
    match step
    case Create(_) => c
    case Register(_, e) => c.(effects := c.effects + [e], admitted := c.admitted + [e])
    case FailSetup(_) => c.(state := D.Failed, rolling := c.effects, effects := [])
    case RollbackRan(_) =>
      c.(rolling := c.rolling[..|c.rolling| - 1], ran := c.ran + [c.rolling[|c.rolling| - 1]])
    case Claim(_) => c.(state := D.Unloading, clearing := c.effects, effects := [])
    case CleanupRan(_) =>
      c.(clearing := c.clearing[..|c.clearing| - 1], ran := c.ran + [c.clearing[|c.clearing| - 1]])
    case Complete(_) => c.(state := D.Disposed)
  }

  function After(s: Scopes, step: Step): Scopes
    requires Enabled(s, step)
  {
    if step.Create? then s[step.id := FRESH] else s[step.id := Changed(s[step.id], step)]
  }

  predicate CanRun(s: Scopes, run: seq<Step>)
    decreases |run|
  {
    run == [] || (Enabled(s, run[0]) && CanRun(After(s, run[0]), run[1..]))
  }

  function Execute(s: Scopes, run: seq<Step>): Scopes
    requires CanRun(s, run)
    decreases |run|
  {
    if run == [] then s else Execute(After(s, run[0]), run[1..])
  }

  // ----- what every step keeps

  function Reversed(s: seq<EffectId>): (r: seq<EffectId>)
    ensures |r| == |s|
  {
    seq(|s|, k requires 0 <= k < |s| => s[|s| - 1 - k])
  }

  /** Every admitted effect is in one place, once for each time it was registered, and the last ones run first. */
  ghost predicate Balanced(c: Scope) {
    c.admitted == c.effects + c.rolling + c.clearing + Reversed(c.ran)
  }

  /** Resources are taken once: by a rollback, or by the claim of a disposal. */
  ghost predicate TakenOnce(c: Scope) {
    && (c.state == D.Active ==> c.rolling == [] && c.clearing == [])
    && (c.state == D.Active ==> c.ran == [])
    && (c.state != D.Active ==> c.effects == [])
    && (c.rolling == [] || c.clearing == [])
    && (c.state == D.Failed || c.state == D.Disposed ==> c.clearing == [])
  }

  ghost predicate Inv(s: Scopes) {
    forall id :: id in s ==> Balanced(s[id]) && TakenOnce(s[id])
  }

  lemma LastRuns(s: seq<EffectId>, ran: seq<EffectId>)
    requires s != []
    ensures s + Reversed(ran) == s[..|s| - 1] + Reversed(ran + [s[|s| - 1]])
  {
  }

  lemma TakingBalances(c: Scope, step: Step)
    requires Balanced(c) && TakenOnce(c) && Possible(c, step) && !step.RollbackRan? && !step.CleanupRan?
    ensures Balanced(Changed(c, step)) && TakenOnce(Changed(c, step))
  {
  }

  lemma RunningBalances(c: Scope, step: Step)
    requires Balanced(c) && TakenOnce(c) && Possible(c, step) && (step.RollbackRan? || step.CleanupRan?)
    ensures Balanced(Changed(c, step)) && TakenOnce(Changed(c, step))
  {
    LastRuns(if step.RollbackRan? then c.rolling else c.clearing, c.ran);
  }

  lemma InvStep(s: Scopes, step: Step)
    requires Inv(s) && Enabled(s, step)
    ensures Inv(After(s, step))
  {
    if !step.Create? {
      if step.RollbackRan? || step.CleanupRan? {
        RunningBalances(s[step.id], step);
      } else {
        TakingBalances(s[step.id], step);
      }
    }
    FreshBalances();
    hide Balanced, TakenOnce, Changed, Possible;
  }

  lemma FreshBalances()
    ensures Balanced(FRESH) && TakenOnce(FRESH)
  {
  }

  lemma {:induction false} InvRun(s: Scopes, run: seq<Step>)
    requires Inv(s) && CanRun(s, run)
    ensures Inv(Execute(s, run))
    decreases |run|
  {
    hide Inv, Enabled, After;
    if run != [] {
      InvStep(s, run[0]);
      InvRun(After(s, run[0]), run[1..]);
    }
  }

  // ----- what a disposed scope means

  /** Each effect the scope ever admitted has run, once for each time it was registered, and the last ones first. */
  ghost predicate AllRan(c: Scope) {
    Reversed(c.ran) == c.admitted
  }

  lemma DisposedAccount(c: Scope)
    requires Balanced(c) && TakenOnce(c) && c.state == D.Disposed
    ensures AllRan(c) <==> c.rolling == []
  {
    assert c.admitted == c.rolling + Reversed(c.ran);
  }

  /** In every interleaving, the effects of a disposed scope have all run exactly if no rollback still holds any. */
  lemma DisposedMeansRan(run: seq<Step>, id: ScopeId)
    requires CanRun(map[], run) && id in Execute(map[], run)
    ensures var c := Execute(map[], run)[id];
      c.state == D.Disposed ==> (AllRan(c) <==> c.rolling == [])
  {
    InvRun(map[], run);
    var c := Execute(map[], run)[id];
    if c.state == D.Disposed {
      DisposedAccount(c);
    }
  }

  /** A claimed scope takes nothing more, and nothing more is taken from it. */
  ghost predicate ClaimedClean(s: Scopes, id: ScopeId) {
    id in s && (s[id].state == D.Unloading || s[id].state == D.Disposed) && s[id].rolling == []
  }

  lemma {:induction false} CleanClaimsStayClean(s: Scopes, after: seq<Step>, id: ScopeId)
    requires ClaimedClean(s, id) && CanRun(s, after)
    ensures ClaimedClean(Execute(s, after), id)
    decreases |after|
  {
    if after != [] {
      CleanClaimsStayClean(After(s, after[0]), after[1..], id);
    }
  }

  /** What a disposal that completes at once, after overtaking a rollback, leaves behind. */
  lemma OvertakenAtOnce(s: Scopes, id: ScopeId)
    requires Inv(s) && Enabled(s, Claim(id)) && s[id].rolling != []
    ensures var claimed := After(s, Claim(id));
      && s[id].state == D.Failed
      && CanRun(claimed, [Complete(id)]) && id in Execute(claimed, [Complete(id)])
      && var c := Execute(claimed, [Complete(id)])[id]; c.state == D.Disposed && !AllRan(c)
  {
    var claimed := After(s, Claim(id));
    InvStep(s, Claim(id));
    InvStep(claimed, Complete(id));
    var disposed := After(claimed, Complete(id));
    assert [Complete(id)][1..] == [] && CanRun(disposed, []);
    assert Execute(claimed, [Complete(id)]) == disposed;
    DisposedAccount(disposed[id]);
  }

  ghost predicate DisposedUnfinished(claimed: Scopes, after: seq<Step>, id: ScopeId) {
    && CanRun(claimed, after) && id in Execute(claimed, after)
    && Execute(claimed, after)[id].state == D.Disposed && !AllRan(Execute(claimed, after)[id])
  }

  /**
   The claim decides: whatever happens afterwards, the scope never reads Disposed before its effects have run, exactly if
   no rollback holds effects when the disposal claims the scope. It holds none of a scope that is still active.
   */
  lemma ClaimDecides(run: seq<Step>, id: ScopeId)
    requires CanRun(map[], run) && Enabled(Execute(map[], run), Claim(id))
    ensures var s := Execute(map[], run);
      && ((forall after :: !DisposedUnfinished(After(s, Claim(id)), after, id)) <==> s[id].rolling == [])
      && (s[id].state == D.Active ==> s[id].rolling == [])
  {
    InvRun(map[], run);
    var s := Execute(map[], run);
    var claimed := After(s, Claim(id));
    if s[id].rolling == [] {
      InvStep(s, Claim(id));
      forall after | CanRun(claimed, after) ensures !DisposedUnfinished(claimed, after, id) {
        CleanClaimsStayClean(claimed, after, id);
        InvRun(claimed, after);
        if Execute(claimed, after)[id].state == D.Disposed {
          DisposedAccount(Execute(claimed, after)[id]);
        }
      }
    } else {
      OvertakenAtOnce(s, id);
      assert DisposedUnfinished(claimed, [Complete(id)], id);
    }
  }

  /** Nothing is lost either way: once the rollback has come to its end, all effects of the disposed scope have run. */
  lemma {:induction false} RollbackCatchesUp(s: Scopes, id: ScopeId)
    requires Inv(s) && id in s && s[id].state == D.Disposed
    ensures exists rest ::
      CanRun(s, rest) && id in Execute(s, rest)
      && Execute(s, rest)[id].state == D.Disposed && AllRan(Execute(s, rest)[id])
    decreases |s[id].rolling|
  {
    if s[id].rolling == [] {
      DisposedAccount(s[id]);
      assert CanRun(s, []) && Execute(s, []) == s;
    } else {
      hide Inv, AllRan;
      var t := After(s, RollbackRan(id));
      InvStep(s, RollbackRan(id));
      RollbackCatchesUp(t, id);
      var rest :| CanRun(t, rest) && id in Execute(t, rest)
        && Execute(t, rest)[id].state == D.Disposed && AllRan(Execute(t, rest)[id]);
      assert ([RollbackRan(id)] + rest)[1..] == rest;
      assert CanRun(s, [RollbackRan(id)] + rest);
    }
  }

  lemma {:induction false} RunMore(s: Scopes, run: seq<Step>, step: Step)
    requires CanRun(s, run) && Enabled(Execute(s, run), step)
    ensures CanRun(s, run + [step]) && Execute(s, run + [step]) == After(Execute(s, run), step)
    decreases |run|
  {
    hide After, Enabled;
    if run == [] {
      assert [step][1..] == [] && run + [step] == [step];
      assert CanRun(After(s, step), []);
    } else {
      assert (run + [step])[1..] == run[1..] + [step];
      RunMore(After(s, run[0]), run[1..], step);
    }
  }

  /** One effect, a failed setup, and a disposal that overtakes its rollback: the scope is disposed, the effect has not run. */
  lemma DisposedTooEarly(id: ScopeId, e: EffectId)
    ensures exists run ::
      CanRun(map[], run)
      && Execute(map[], run) == map[id := Scope(D.Disposed, [], [e], [], [], [e])]
  {
    var r1 := [] + [Create(id)];
    var r2 := r1 + [Register(id, e)];
    var r3 := r2 + [FailSetup(id)];
    var r4 := r3 + [Claim(id)];
    assert CanRun(map[], []) && Execute(map[], []) == map[];
    hide CanRun, Execute;
    RunMore(map[], [], Create(id));
    RunMore(map[], r1, Register(id, e));
    assert Execute(map[], r2)[id].effects == [e] && Execute(map[], r2)[id].admitted == [e];
    RunMore(map[], r2, FailSetup(id));
    RunMore(map[], r3, Claim(id));
    RunMore(map[], r4, Complete(id));
    assert Execute(map[], r4 + [Complete(id)]) == map[id := Scope(D.Disposed, [], [e], [], [], [e])];
  }
}
