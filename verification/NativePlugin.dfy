/**
 One native plugin instance of crates/tessivum-core/src/native.rs: its hooks, its fiber, and the update that
 stages a candidate beside it. The services of the whole host are the system of ServiceRuns, on which the
 instance and everyone else take turns.
 */
module NativePlugin {
  import opened ServiceRegistry
  import opened ServiceRuns
  import opened Wrappers

  type PluginId = nat

  datatype FiberState = Pending | Loading | Active | Failed | Unloading | Disposed

  /** What a plugin object is asked to do: an attempt is `start`, or `update` followed by `start`. */
  datatype Hook = Attempt(plugin: PluginId) | Stop(plugin: PluginId)

  datatype Instance = Instance(
    plugin: PluginId, registry: RegistryId, config: string, fiber: FiberState, startAttempted: bool, stopped: bool)

  datatype Failure =
    | InvalidConfig | InvalidState | NoFactory | NotInstantiated | NotReady | StartFailed | CommitRefused | StopFailed | NoFiber

  /** A step of an instance: its fields, the hooks called so far, and the services, with the error if there is one. */
  datatype Turn = Turn(instance: Instance, hooks: seq<Hook>, system: System, error: Option<Failure>)

  /** How a fiber's start ends. A scope disposed meanwhile keeps its own state. */
  datatype Starting = Refused(state: FiberState) | Failing | Starts(state: FiberState)

  /** One attempt to start: the steps everyone takes while it waits and while its hooks run. */
  datatype Attempting = Attempting(waiting: seq<Step>, waits: bool, configOk: bool, running: seq<Step>, starting: Starting)

  /** One stop: whether the hook and the disposal of the fiber succeed, with the steps taken meanwhile. */
  datatype Stopping = Stopping(hookOk: bool, disposeOk: bool, steps: seq<Step>, state: FiberState)

  predicate Ended(state: FiberState) {
    state == Failed || state == Unloading || state == Disposed
  }

  predicate PlausibleAttempt(a: Attempting) {
    match a.starting
    case Refused(state) => Ended(state)
    case Failing => true
    case Starts(state) => state == Active || state == Unloading || state == Disposed
  }

  ghost function Proceed(s: System, steps: seq<Step>): System {
    if CanRun(s, steps) then Execute(s, steps) else s
  }

  // ----- the operations

  /** `stop_plugin`: at most one call after an attempt. */
  function StopPlugin(i: Instance): Instance {
    if i.startAttempted && !i.stopped then i.(stopped := true) else i
  }

  function StopHooks(i: Instance): seq<Hook> {
    if i.startAttempted && !i.stopped then [Stop(i.plugin)] else []
  }

  /** Behind the waiting of `start` and `start_after_update`. */
  ghost function AttemptStart(i: Instance, hooks: seq<Hook>, s: System, a: Attempting): Turn {
    var waited := Proceed(s, a.waiting);
    if !a.waits then Turn(i, hooks, waited, Some(NotReady))
    else if !a.configOk then Turn(i, hooks, waited, Some(InvalidConfig))
    else
      var attempted := i.(startAttempted := true);
      var called := hooks + [Attempt(i.plugin)];
      var ran := Proceed(waited, a.running);
      match a.starting
      case Starts(state) => Turn(attempted.(fiber := state), called, ran, None)
      case Refused(state) => FinishFailedStart(attempted.(fiber := state), called, ran)
      case Failing => FinishFailedStart(attempted.(fiber := Failed), called, ran)
  }

  ghost function FinishFailedStart(i: Instance, hooks: seq<Hook>, s: System): Turn {
    Turn(StopPlugin(i), hooks + StopHooks(i), s, Some(StartFailed))
  }

  ghost function Start(i: Instance, hooks: seq<Hook>, s: System, a: Attempting): Turn {
    if i.fiber != Pending then Turn(i, hooks, s, Some(InvalidState)) else AttemptStart(i, hooks, s, a)
  }

  ghost function StopCurrent(i: Instance, hooks: seq<Hook>, s: System, c: Stopping): Turn {
    var failed := (StopHooks(i) != [] && !c.hookOk) || !c.disposeOk;
    Turn(StopPlugin(i).(fiber := c.state), hooks + StopHooks(i), Proceed(s, c.steps), if failed then Some(StopFailed) else None)
  }

  /** `suspend`: the same plugin object gets a new fiber, ready for another start. */
  ghost function Suspend(i: Instance, hooks: seq<Hook>, s: System, c: Stopping, newFiber: bool): Turn {
    if i.fiber == Pending then Turn(i, hooks, s, None)
    else
      var stopped := StopCurrent(i, hooks, s, c);
      if stopped.error.Some? then stopped
      else if !newFiber then stopped.(error := Some(NoFiber))
      else stopped.(instance := stopped.instance.(fiber := Pending, startAttempted := false, stopped := false))
  }

  datatype Updating = Updating(
    overlay: nat, config: string, configOk: bool, hasFactory: bool, instantiates: bool,
    attempt: Attempting, giveUp: Stopping, retire: Stopping)

  function Candidate(plugin: PluginId, u: Updating): Instance {
    Instance(plugin, Overlay(u.overlay), u.config, Pending, false, false)
  }

  /** Everything of `update` up to the moment the old instance is stopped. */
  ghost function StageCandidate(plugin: PluginId, hooks: seq<Hook>, s: System, u: Updating): Turn
    requires u.overlay !in s.overlays
  {
    AttemptStart(Candidate(plugin, u), hooks, After(s, NewOverlay(u.overlay)), u.attempt)
  }

  ghost function Abandon(i: Instance, t: Turn, u: Updating, error: Failure): Turn {
    var gone := StopCurrent(t.instance, t.hooks, t.system, u.giveUp);
    Turn(i, gone.hooks, gone.system, Some(error))
  }

  ghost function Update(i: Instance, plugin: PluginId, hooks: seq<Hook>, s: System, u: Updating): Turn
    requires u.overlay !in s.overlays
  {
    if !u.configOk then Turn(i, hooks, s, Some(InvalidConfig))
    else if i.fiber != Active then Turn(i, hooks, s, Some(InvalidState))
    else if !u.hasFactory then Turn(i, hooks, s, Some(NoFactory))
    else if !u.instantiates then Turn(i, hooks, s, Some(NotInstantiated))
    else
      var staged := StageCandidate(plugin, hooks, s, u);
      if staged.error.Some? then Abandon(i, staged, u, staged.error.value)
      else if !CanCommit(staged.system, u.overlay) then Abandon(i, staged, u, CommitRefused)
      else
        var committed := After(staged.system, Commit(u.overlay));
        var retired := StopCurrent(i, staged.hooks, committed, u.retire);
        Turn(staged.instance, retired.hooks, retired.system, retired.error)
  }

  ghost predicate CanCommit(s: System, k: nat) {
    k in s.overlays && CommitSucceeds(s, k)
  }

  // ----- the instance

  /** What instances share: the calls made on plugin objects, the services, and the plugin objects made so far. */
  class Journal {
    var hooks: seq<Hook>
    var plugins: PluginId
    ghost var system: System

    constructor ()
      ensures hooks == [] && plugins == 0 && system == ServiceRuns.INITIAL
    {
      hooks, plugins, system := [], 0, ServiceRuns.INITIAL;
    }
  }

  class NativePluginInstance {
    const journal: Journal
    var plugin: PluginId
    var registry: RegistryId
    var config: string
    var fiber: FiberState
    var startAttempted: bool
    var stopped: bool

    function State(): Instance
      reads this
    {
      Instance(plugin, registry, config, fiber, startAttempted, stopped)
    }

    ghost function Now(error: Option<Failure>): Turn
      reads this, journal
    {
      Turn(State(), journal.hooks, journal.system, error)
    }

    constructor Instantiate(journal: Journal, plugin: PluginId, registry: RegistryId, config: string)
      ensures this.journal == journal && State() == Instance(plugin, registry, config, Pending, false, false)
    {
      this.journal, this.plugin, this.registry, this.config := journal, plugin, registry, config;
      fiber, startAttempted, stopped := Pending, false, false;
    }

    method StopHook(c: Stopping) returns (error: bool)
      modifies this, journal
      ensures State() == StopPlugin(old(State())) && journal.hooks == old(journal.hooks) + StopHooks(old(State()))
      ensures journal.system == old(journal.system) && journal.plugins == old(journal.plugins)
      ensures error <==> StopHooks(old(State())) != [] && !c.hookOk
    {
      if !startAttempted || stopped {
        return false;
      }
      stopped := true;
      journal.hooks := journal.hooks + [Stop(plugin)];
      error := !c.hookOk;
    }

    method StopInstance(c: Stopping) returns (error: Option<Failure>)
      modifies this, journal
      ensures Now(error) == StopCurrent(old(State()), old(journal.hooks), old(journal.system), c)
      ensures journal.plugins == old(journal.plugins)
    {
      var hookError := StopHook(c);
      journal.system := Proceed(journal.system, c.steps);
      fiber := c.state;
      error := if hookError || !c.disposeOk then Some(StopFailed) else None;
    }

    method Attempt(a: Attempting, hookOk: bool) returns (error: Option<Failure>)
      modifies this, journal
      ensures Now(error) == AttemptStart(old(State()), old(journal.hooks), old(journal.system), a)
      ensures journal.plugins == old(journal.plugins)
    {
      journal.system := Proceed(journal.system, a.waiting);
      if !a.waits {
        return Some(NotReady);
      }
      if !a.configOk {
        return Some(InvalidConfig);
      }
      startAttempted := true;
      journal.hooks := journal.hooks + [Hook.Attempt(plugin)];
      journal.system := Proceed(journal.system, a.running);
      match a.starting
      case Starts(state) =>
        fiber := state;
        error := None;
      case Refused(state) =>
        fiber := state;
        var _ := StopHook(Stopping(hookOk, true, [], state));
        error := Some(StartFailed);
      case Failing =>
        fiber := Failed;
        var _ := StopHook(Stopping(hookOk, true, [], Failed));
        error := Some(StartFailed);
    }

    method StartInstance(a: Attempting, hookOk: bool) returns (error: Option<Failure>)
      modifies this, journal
      ensures Now(error) == Start(old(State()), old(journal.hooks), old(journal.system), a)
      ensures journal.plugins == old(journal.plugins)
    {
      if fiber != Pending {
        return Some(InvalidState);
      }
      error := Attempt(a, hookOk);
    }

    method SuspendInstance(c: Stopping, newFiber: bool) returns (error: Option<Failure>)
      modifies this, journal
      ensures Now(error) == Suspend(old(State()), old(journal.hooks), old(journal.system), c, newFiber)
      ensures journal.plugins == old(journal.plugins)
    {
      if fiber == Pending {
        return None;
      }
      error := StopInstance(c);
      if error.Some? {
        return;
      }
      if !newFiber {
        return Some(NoFiber);
      }
      fiber, startAttempted, stopped := Pending, false, false;
    }

    /** `commits` is the answer of the registry to `commit_staged`. */
    method UpdateInstance(u: Updating, hookOk: bool, commits: bool) returns (error: Option<Failure>)
      requires u.overlay !in journal.system.overlays
      requires u.instantiates ==>
                 commits == CanCommit(StageCandidate(journal.plugins, journal.hooks, journal.system, u).system, u.overlay)
      modifies this, journal
      ensures Now(error) == Update(old(State()), old(journal.plugins), old(journal.hooks), old(journal.system), u)
      ensures journal.plugins <= old(journal.plugins) + 1
    {
      hide After, AttemptStart, StopCurrent, CanCommit;
      if !u.configOk {
        return Some(InvalidConfig);
      }
      if fiber != Active {
        return Some(InvalidState);
      }
      if !u.hasFactory {
        return Some(NoFactory);
      }
      if !u.instantiates {
        return Some(NotInstantiated);
      }
      var candidate := new NativePluginInstance.Instantiate(journal, journal.plugins, Overlay(u.overlay), u.config);
      journal.plugins := journal.plugins + 1;
      journal.system := After(journal.system, NewOverlay(u.overlay));
      error := candidate.Attempt(u.attempt, hookOk);
      if error.Some? {
        var _ := candidate.StopInstance(u.giveUp);
        return;
      }
      if !commits {
        var _ := candidate.StopInstance(u.giveUp);
        return Some(CommitRefused);
      }
      CommitIsEnabled(journal.system, u.overlay);
      journal.system := After(journal.system, Commit(u.overlay));
      error := StopInstance(u.retire);
      plugin, registry, config, fiber, startAttempted, stopped :=
        candidate.plugin, candidate.registry, candidate.config, candidate.fiber, candidate.startAttempted, candidate.stopped;
    }
  }

  // ----- hooks alternate

  /** Whether a plugin object is between an attempt and its stop; None once the two have not alternated. */
  function Open(hooks: seq<Hook>, p: PluginId): Option<bool>
    decreases |hooks|
  {
    if hooks == [] then Some(false)
    else
      var before := Open(hooks[..|hooks| - 1], p);
      match hooks[|hooks| - 1]
      case Attempt(q) => if q != p then before else if before == Some(false) then Some(true) else None
      case Stop(q) => if q != p then before else if before == Some(true) then Some(false) else None
  }

  lemma OpenAfter(hooks: seq<Hook>, h: Hook, p: PluginId)
    ensures Open(hooks + [h], p)
         == (var before := Open(hooks, p);
             if h.plugin != p then before
             else if h.Attempt? then (if before == Some(false) then Some(true) else None)
             else if before == Some(true) then Some(false) else None)
  {
    assert (hooks + [h])[..|hooks|] == hooks;
  }

  /** Only the current plugin object can be open, exactly from its attempt to its stop. */
  ghost predicate Disciplined(i: Instance, hooks: seq<Hook>, plugins: PluginId) {
    && i.plugin < plugins
    && (i.fiber == Pending ==> !i.startAttempted && !i.stopped)
    && forall p: PluginId :: Open(hooks, p) == Some(p == i.plugin && i.startAttempted && !i.stopped)
  }

  lemma StopDisciplined(i: Instance, hooks: seq<Hook>, s: System, c: Stopping, plugins: PluginId)
    requires Disciplined(i, hooks, plugins) && Ended(c.state)
    ensures Disciplined(StopCurrent(i, hooks, s, c).instance, StopCurrent(i, hooks, s, c).hooks, plugins)
  {
    hide Open;
    forall p: PluginId
      ensures Open(StopCurrent(i, hooks, s, c).hooks, p) == Some(p == i.plugin && i.startAttempted && false)
    {
      OpenAfter(hooks, Stop(i.plugin), p);
      assert hooks + [] == hooks;
    }
  }

  lemma AttemptDisciplined(i: Instance, hooks: seq<Hook>, s: System, a: Attempting, plugins: PluginId)
    requires Disciplined(i, hooks, plugins) && PlausibleAttempt(a) && !i.startAttempted && !i.stopped
    ensures Disciplined(AttemptStart(i, hooks, s, a).instance, AttemptStart(i, hooks, s, a).hooks, plugins)
  {
    hide Open;
    var called := hooks + [Attempt(i.plugin)];
    forall p: PluginId
      ensures Open(called, p) == Some(p == i.plugin) && Open(called + [Stop(i.plugin)], p) == Some(false)
    {
      OpenAfter(hooks, Attempt(i.plugin), p);
      OpenAfter(called, Stop(i.plugin), p);
    }
  }

  /** The hooks called meanwhile: a stop of the plugin object exactly if it was open. */
  ghost function StopIfOpen(i: Instance, hooks: seq<Hook>): seq<Hook> {
    if Open(hooks, i.plugin) == Some(true) then [Stop(i.plugin)] else []
  }

  lemma StopsIfOpen(i: Instance, hooks: seq<Hook>, plugins: PluginId)
    requires Disciplined(i, hooks, plugins)
    ensures StopIfOpen(i, hooks) == StopHooks(i)
    ensures Open(hooks + StopIfOpen(i, hooks), i.plugin) == Some(false)
  {
    OpenAfter(hooks, Stop(i.plugin), i.plugin);
    assert hooks + [] == hooks;
  }

  /** Stopping an instance closes its plugin object, calling `stop` once if it was open; either failure is reported. */
  lemma StopCloses(i: Instance, hooks: seq<Hook>, s: System, c: Stopping, plugins: PluginId)
    requires Disciplined(i, hooks, plugins)
    ensures var t := StopCurrent(i, hooks, s, c);
      var open := Open(hooks, i.plugin) == Some(true);
      && t.hooks == hooks + StopIfOpen(i, hooks) && Open(t.hooks, i.plugin) == Some(false)
      && t.instance == i.(fiber := c.state, stopped := i.stopped || open)
      && t.system == Proceed(s, c.steps)
      && (t.error.None? <==> c.disposeOk && (open ==> c.hookOk))
  {
    StopsIfOpen(i, hooks, plugins);
  }

  /**
   A start attempts the plugin exactly if the fiber is pending, the dependencies arrive and the configuration is valid; it
   succeeds exactly if its hooks and the fiber do, which leaves the plugin open, and closes the plugin otherwise.
   */
  lemma StartAttemptsOnce(i: Instance, hooks: seq<Hook>, s: System, a: Attempting, plugins: PluginId)
    requires Disciplined(i, hooks, plugins)
    ensures var t := Start(i, hooks, s, a);
      var attempts := i.fiber == Pending && a.waits && a.configOk;
      var waited := if i.fiber == Pending then Proceed(s, a.waiting) else s;
      && (t.error.None? <==> attempts && a.starting.Starts?)
      && t.hooks == hooks + (if !attempts then [] else if t.error.None? then [Attempt(i.plugin)] else [Attempt(i.plugin), Stop(i.plugin)])
      && (Open(t.hooks, i.plugin) == if attempts then Some(t.error.None?) else Open(hooks, i.plugin))
      && t.instance.fiber == (if !attempts then i.fiber else if a.starting.Failing? then Failed else a.starting.state)
      && t.instance.plugin == i.plugin && t.instance.config == i.config
      && t.system == (if attempts then Proceed(waited, a.running) else waited)
      && t.error == (if i.fiber != Pending then Some(InvalidState) else if !a.waits then Some(NotReady)
                     else if !a.configOk then Some(InvalidConfig) else if !a.starting.Starts? then Some(StartFailed) else None)
  {
    hide Proceed;
    var called := hooks + [Attempt(i.plugin)];
    OpenAfter(hooks, Attempt(i.plugin), i.plugin);
    OpenAfter(called, Stop(i.plugin), i.plugin);
    assert hooks + [] == hooks;
    assert called + [Stop(i.plugin)] == hooks + [Attempt(i.plugin), Stop(i.plugin)];
  }

  /**
   A suspend that reports no error leaves the plugin closed, stopped once if it was open, and the instance ready for
   another start. It reports one exactly if the hook, the disposal or the new fiber fails, unless nothing was started.
   */
  lemma SuspendCloses(i: Instance, hooks: seq<Hook>, s: System, c: Stopping, newFiber: bool, plugins: PluginId)
    requires Disciplined(i, hooks, plugins)
    ensures var t := Suspend(i, hooks, s, c, newFiber);
      var open := Open(hooks, i.plugin) == Some(true);
      && t.hooks == hooks + StopIfOpen(i, hooks) && Open(t.hooks, i.plugin) == Some(false)
      && t.instance.plugin == i.plugin && t.instance.config == i.config
      && (t.error.None? <==> i.fiber == Pending || (c.disposeOk && newFiber && (open ==> c.hookOk)))
      && (t.error.None? ==> t.instance.fiber == Pending && !t.instance.startAttempted && !t.instance.stopped)
      && (t.error.Some? ==> t.instance.fiber == c.state)
      && t.system == (if i.fiber == Pending then s else Proceed(s, c.steps))
  {
    hide Proceed;
    StopsIfOpen(i, hooks, plugins);
    assert hooks + [] == hooks;
  }

  lemma StartKeepsDiscipline(i: Instance, hooks: seq<Hook>, s: System, a: Attempting, plugins: PluginId)
    requires Disciplined(i, hooks, plugins) && PlausibleAttempt(a)
    ensures Disciplined(Start(i, hooks, s, a).instance, Start(i, hooks, s, a).hooks, plugins)
  {
    if i.fiber == Pending {
      AttemptDisciplined(i, hooks, s, a, plugins);
    }
  }

  lemma SuspendKeepsDiscipline(i: Instance, hooks: seq<Hook>, s: System, c: Stopping, newFiber: bool, plugins: PluginId)
    requires Disciplined(i, hooks, plugins) && Ended(c.state)
    ensures Disciplined(Suspend(i, hooks, s, c, newFiber).instance, Suspend(i, hooks, s, c, newFiber).hooks, plugins)
  {
    hide Open;
    StopDisciplined(i, hooks, s, c, plugins);
  }

  /** Two instances at once, as during an update: only the two current plugin objects can be open. */
  ghost predicate BothDisciplined(i: Instance, j: Instance, hooks: seq<Hook>) {
    && i.plugin != j.plugin
    && forall p: PluginId ::
         Open(hooks, p) == Some((p == i.plugin && i.startAttempted && !i.stopped) || (p == j.plugin && j.startAttempted && !j.stopped))
  }

  lemma StopBoth(i: Instance, j: Instance, hooks: seq<Hook>, s: System, c: Stopping)
    requires BothDisciplined(i, j, hooks)
    ensures BothDisciplined(StopCurrent(i, hooks, s, c).instance, j, StopCurrent(i, hooks, s, c).hooks)
  {
    hide Open;
    forall p: PluginId
      ensures Open(StopCurrent(i, hooks, s, c).hooks, p) == Some(p == j.plugin && j.startAttempted && !j.stopped)
    {
      OpenAfter(hooks, Stop(i.plugin), p);
      assert hooks + [] == hooks;
    }
  }

  lemma AttemptBoth(i: Instance, j: Instance, hooks: seq<Hook>, s: System, a: Attempting)
    requires BothDisciplined(i, j, hooks) && !j.startAttempted && !j.stopped
    ensures BothDisciplined(i, AttemptStart(j, hooks, s, a).instance, AttemptStart(j, hooks, s, a).hooks)
  {
    hide Open;
    var called := hooks + [Attempt(j.plugin)];
    forall p: PluginId
      ensures Open(called, p) == Some((p == i.plugin && i.startAttempted && !i.stopped) || p == j.plugin)
      ensures Open(called + [Stop(j.plugin)], p) == Some(p == i.plugin && i.startAttempted && !i.stopped)
    {
      OpenAfter(hooks, Attempt(j.plugin), p);
      OpenAfter(called, Stop(j.plugin), p);
    }
  }

  lemma Symmetric(i: Instance, j: Instance, hooks: seq<Hook>)
    requires BothDisciplined(i, j, hooks)
    ensures BothDisciplined(j, i, hooks)
  {
  }

  lemma UpdateKeepsDiscipline(i: Instance, plugins: PluginId, hooks: seq<Hook>, s: System, u: Updating)
    requires Disciplined(i, hooks, plugins) && u.overlay !in s.overlays
    requires PlausibleAttempt(u.attempt) && Ended(u.giveUp.state) && Ended(u.retire.state)
    ensures var t := Update(i, plugins, hooks, s, u); Disciplined(t.instance, t.hooks, plugins + 1)
  {
    hide Open, After, CanCommit, StopCurrent, AttemptStart;
    if Tried(i, u) {
      var staged := StageCandidate(plugins, hooks, s, u);
      StagedDiscipline(i, plugins, hooks, s, u);
      Symmetric(i, staged.instance, staged.hooks);
      StopBoth(staged.instance, i, staged.hooks, staged.system, u.giveUp);
      if CanCommit(staged.system, u.overlay) {
        CommitIsEnabled(staged.system, u.overlay);
        StopBoth(i, staged.instance, staged.hooks, After(staged.system, Commit(u.overlay)), u.retire);
        StoppedIsClosed(i, staged.hooks, After(staged.system, Commit(u.overlay)), u.retire);
      }
      StoppedIsClosed(staged.instance, staged.hooks, staged.system, u.giveUp);
    }
  }

  lemma CommitIsEnabled(s: System, k: nat)
    requires CanCommit(s, k)
    ensures Enabled(s, Commit(k))
  {
  }

  lemma StagedDiscipline(i: Instance, plugins: PluginId, hooks: seq<Hook>, s: System, u: Updating)
    requires Disciplined(i, hooks, plugins) && u.overlay !in s.overlays && PlausibleAttempt(u.attempt)
    ensures var staged := StageCandidate(plugins, hooks, s, u);
            && BothDisciplined(i, staged.instance, staged.hooks) && staged.instance.plugin == plugins
            && (staged.error.None? ==> staged.instance.fiber != Pending)
  {
    hide Open, After;
    AttemptBoth(i, Candidate(plugins, u), hooks, After(s, NewOverlay(u.overlay)), u.attempt);
  }

  lemma StoppedIsClosed(i: Instance, hooks: seq<Hook>, s: System, c: Stopping)
    ensures var t := StopCurrent(i, hooks, s, c).instance; t.plugin == i.plugin && !(t.startAttempted && !t.stopped)
  {
  }

  /** What can happen to an instance; `Elsewhere` are steps of other writers while it does nothing. */
  datatype Operation =
    | Begins(attempt: Attempting)
    | Suspending(stop: Stopping, newFiber: bool)
    | Updates(update: Updating)
    | Disposing(stop: Stopping)
    | ScopeGone(state: FiberState)
    | Elsewhere(steps: seq<Step>)

  datatype Life = Life(instance: Instance, plugins: PluginId, hooks: seq<Hook>, system: System)

  ghost predicate Possible(l: Life, op: Operation) {
    match op
    case Begins(a) => PlausibleAttempt(a)
    case Suspending(c, _) => Ended(c.state)
    case Updates(u) =>
      u.overlay !in l.system.overlays && PlausibleAttempt(u.attempt) && Ended(u.giveUp.state) && Ended(u.retire.state)
    case Disposing(c) => Ended(c.state)
    case ScopeGone(state) => Ended(state)
    case Elsewhere(_) => true
  }

  ghost function Lived(l: Life, t: Turn, plugins: PluginId): Life {
    Life(t.instance, plugins, t.hooks, t.system)
  }

  ghost function Perform(l: Life, op: Operation): Life {
    if !Possible(l, op) then l
    else
      match op
      case Begins(a) => Lived(l, Start(l.instance, l.hooks, l.system, a), l.plugins)
      case Suspending(c, newFiber) => Lived(l, Suspend(l.instance, l.hooks, l.system, c, newFiber), l.plugins)
      case Updates(u) => Lived(l, Update(l.instance, l.plugins, l.hooks, l.system, u), l.plugins + 1)
      case Disposing(c) => Lived(l, StopCurrent(l.instance, l.hooks, l.system, c), l.plugins)
      case ScopeGone(state) => l.(instance := l.instance.(fiber := state))
      case Elsewhere(steps) => l.(system := Proceed(l.system, steps))
  }

  ghost function LifeOf(config: string, ops: seq<Operation>): Life
    decreases |ops|
  {
    if ops == [] then Life(Instance(0, Host, config, Pending, false, false), 1, [], ServiceRuns.INITIAL)
    else Perform(LifeOf(config, ops[..|ops| - 1]), ops[|ops| - 1])
  }

  lemma PerformKeepsDiscipline(l: Life, op: Operation)
    requires Disciplined(l.instance, l.hooks, l.plugins)
    ensures Disciplined(Perform(l, op).instance, Perform(l, op).hooks, Perform(l, op).plugins)
  {
    hide Start, Suspend, Update, StopCurrent, Open;
    if Possible(l, op) {
      match op
      case Begins(a) => StartKeepsDiscipline(l.instance, l.hooks, l.system, a, l.plugins);
      case Suspending(c, newFiber) => SuspendKeepsDiscipline(l.instance, l.hooks, l.system, c, newFiber, l.plugins);
      case Updates(u) => UpdateKeepsDiscipline(l.instance, l.plugins, l.hooks, l.system, u);
      case Disposing(c) => StopDisciplined(l.instance, l.hooks, l.system, c, l.plugins);
      case ScopeGone(_) =>
      case Elsewhere(_) =>
    }
  }

  /**
   On every plugin object attempts and stops alternate, beginning with an attempt; only the object in place can be
   between the two, so one that was replaced or given up has been stopped as often as it was started.
   */
  lemma {:induction false} HooksAlternate(config: string, ops: seq<Operation>)
    ensures var l := LifeOf(config, ops); Disciplined(l.instance, l.hooks, l.plugins)
    decreases |ops|
  {
    hide Perform, Disciplined;
    if ops == [] {
      BeginsDisciplined(config);
    } else {
      HooksAlternate(config, ops[..|ops| - 1]);
      PerformKeepsDiscipline(LifeOf(config, ops[..|ops| - 1]), ops[|ops| - 1]);
    }
  }

  lemma BeginsDisciplined(config: string)
    ensures Disciplined(Instance(0, Host, config, Pending, false, false), [], 1)
  {
  }

  // ----- an update is atomic on the host

  /** Nobody but the update itself creates or commits its overlay. */
  ghost predicate LeavesCommitToUpdate(steps: seq<Step>, k: nat) {
    forall step <- steps :: step != Commit(k)
  }

  lemma {:induction false} NobodyCommits(s: System, steps: seq<Step>, k: nat)
    requires CanRun(s, steps) && k in s.overlays && LeavesCommitToUpdate(steps, k)
    ensures NeverCommits(s, steps, k)
    decreases |steps|
  {
    if steps != [] {
      assert steps[0] in steps;
      assert forall step <- steps[1..] :: step in steps;
      OverlayStays(s, steps[0], k);
      NobodyCommits(After(s, steps[0]), steps[1..], k);
    }
  }

  lemma OverlayStays(s: System, step: Step, k: nat)
    requires Enabled(s, step) && k in s.overlays
    ensures k in After(s, step).overlays
  {
  }

  lemma {:induction false} RunsJoin(s: System, a: seq<Step>, b: seq<Step>)
    requires CanRun(s, a) && CanRun(Execute(s, a), b)
    ensures CanRun(s, a + b) && Execute(s, a + b) == Execute(Execute(s, a), b)
    decreases |a|
  {
    if a == [] {
      assert a + b == b;
    } else {
      assert (a + b)[0] == a[0] && (a + b)[1..] == a[1..] + b;
      RunsJoin(After(s, a[0]), a[1..], b);
    }
  }

  /** Everything that happens between the creation of the overlay and the commit. */
  function Before(u: Updating): seq<Step> {
    u.attempt.waiting + if u.attempt.waits && u.attempt.configOk then u.attempt.running else []
  }

  predicate Tried(i: Instance, u: Updating) {
    u.configOk && i.fiber == Active && u.hasFactory && u.instantiates
  }

  predicate CandidateStarts(u: Updating) {
    u.attempt.waits && u.attempt.configOk && u.attempt.starting.Starts?
  }

  ghost function Opened(s: System, u: Updating): System
    requires u.overlay !in s.overlays
  {
    After(s, NewOverlay(u.overlay))
  }

  /** The schedule can happen, with every other writer interleaved as it likes. */
  ghost predicate Legal(s: System, u: Updating)
    requires u.overlay !in s.overlays
  {
    var begun := Opened(s, u);
    && CanRun(begun, Before(u)) && LeavesCommitToUpdate(Before(u), u.overlay)
    && CanRun(begun, u.attempt.waiting)
    && CanRun(Execute(begun, u.attempt.waiting), if u.attempt.waits && u.attempt.configOk then u.attempt.running else [])
    && CanRun(Execute(begun, Before(u)), u.giveUp.steps) && LeavesCommitToUpdate(u.giveUp.steps, u.overlay)
  }

  lemma StagedSystem(plugin: PluginId, hooks: seq<Hook>, s: System, u: Updating)
    requires u.overlay !in s.overlays && Legal(s, u)
    ensures StageCandidate(plugin, hooks, s, u).system == Execute(Opened(s, u), Before(u))
    ensures StageCandidate(plugin, hooks, s, u).error.None? <==> CandidateStarts(u)
  {
    hide Execute, CanRun, After;
    var running := if u.attempt.waits && u.attempt.configOk then u.attempt.running else [];
    RunsJoin(Opened(s, u), u.attempt.waiting, running);
    NothingRuns(Execute(Opened(s, u), u.attempt.waiting));
  }

  lemma NothingRuns(s: System)
    ensures CanRun(s, []) && Execute(s, []) == s
  {
  }

  lemma HostWithoutCandidate(s: System, u: Updating, steps: seq<Step>)
    requires Inv(s) && u.overlay !in s.overlays
    requires CanRun(Opened(s, u), steps) && LeavesCommitToUpdate(steps, u.overlay)
    ensures CanRun(Opened(s, u), Without(steps, u.overlay))
    ensures Execute(Opened(s, u), steps).host == Execute(Opened(s, u), Without(steps, u.overlay)).host
    ensures u.overlay in Execute(Opened(s, u), steps).overlays
  {
    InvStep(s, NewOverlay(u.overlay));
    NobodyCommits(Opened(s, u), steps, u.overlay);
    StagingIsAtomic(Opened(s, u), steps, u.overlay);
  }

  /** The refused or failed candidate has left no trace: the instance is the old one, the host what the others made of it. */
  lemma FailedUpdateLeavesNoTrace(i: Instance, plugin: PluginId, hooks: seq<Hook>, s: System, u: Updating)
    requires Inv(s) && u.overlay !in s.overlays && Legal(s, u) && Tried(i, u)
    requires !CandidateStarts(u) || !CanCommit(Execute(Opened(s, u), Before(u)), u.overlay)
    ensures var t := Update(i, plugin, hooks, s, u);
            var others := Without(Before(u) + u.giveUp.steps, u.overlay);
            && t.error.Some? && t.instance == i
            && CanRun(Opened(s, u), others) && t.system.host == Execute(Opened(s, u), others).host
  {
    hide Execute, CanRun, After, Inv, CanCommit;
    StagedSystem(plugin, hooks, s, u);
    RunsJoin(Opened(s, u), Before(u), u.giveUp.steps);
    HostWithoutCandidate(s, u, Before(u) + u.giveUp.steps);
  }

  /** A successful update shows all staged services at once, and the candidate has taken the instance's place. */
  lemma SuccessfulUpdateCommitsAtOnce(i: Instance, plugin: PluginId, hooks: seq<Hook>, s: System, u: Updating)
    requires Inv(s) && u.overlay !in s.overlays && Legal(s, u) && Tried(i, u)
    requires CandidateStarts(u) && CanCommit(Execute(Opened(s, u), Before(u)), u.overlay)
    ensures var t := Update(i, plugin, hooks, s, u);
            var ready := Execute(Opened(s, u), Before(u));
            var others := Without(Before(u), u.overlay);
            var committed := After(ready, Commit(u.overlay));
            && t.instance == Candidate(plugin, u).(startAttempted := true, fiber := u.attempt.starting.state)
            && (t.error.None? || t.error == Some(StopFailed))
            && CanRun(Opened(s, u), others)
            && committed.host == Execute(Opened(s, u), others).host + ready.overlays[u.overlay].providers
            && t.system == Proceed(committed, u.retire.steps)
  {
    hide Execute, CanRun, Inv;
    StagedSystem(plugin, hooks, s, u);
    HostWithoutCandidate(s, u, Before(u));
    CommitAddsStaged(Execute(Opened(s, u), Before(u)), u.overlay);
  }

  /** Exactly these updates install their candidate: nothing refused it, and no slot it staged has changed on the host. */
  lemma UpdateInstallsOrKeeps(i: Instance, plugin: PluginId, hooks: seq<Hook>, s: System, u: Updating)
    requires Inv(s) && u.overlay !in s.overlays && Legal(s, u) && i.plugin != plugin
    ensures var t := Update(i, plugin, hooks, s, u);
            && (t.instance.plugin == plugin <==>
                  Tried(i, u) && CandidateStarts(u) && CanCommit(Execute(Opened(s, u), Before(u)), u.overlay))
            && (t.instance.plugin != plugin ==> t.instance == i && t.error.Some?)
            && (!Tried(i, u) ==> t.hooks == hooks && t.system == s)
  {
    hide Execute, CanRun, Inv, CanCommit;
    if Tried(i, u) {
      if CandidateStarts(u) && CanCommit(Execute(Opened(s, u), Before(u)), u.overlay) {
        SuccessfulUpdateCommitsAtOnce(i, plugin, hooks, s, u);
      } else {
        FailedUpdateLeavesNoTrace(i, plugin, hooks, s, u);
      }
    }
  }

  predicate CandidateAttempted(u: Updating) {
    u.attempt.waits && u.attempt.configOk
  }

  /**
   Which error an update reports, and which hooks it calls: the candidate is attempted once and, unless it is installed,
   stopped again; only then is the old plugin left alone, and otherwise it is stopped if it was open.
   */
  lemma UpdateCallsHooks(i: Instance, plugin: PluginId, hooks: seq<Hook>, s: System, u: Updating)
    requires Inv(s) && u.overlay !in s.overlays && Legal(s, u) && Disciplined(i, hooks, plugin)
    ensures var t := Update(i, plugin, hooks, s, u);
      var installs := Tried(i, u) && CandidateStarts(u) && CanCommit(Execute(Opened(s, u), Before(u)), u.overlay);
      var retires := (Open(hooks, i.plugin) == Some(true) ==> u.retire.hookOk) && u.retire.disposeOk;
      && t.hooks == hooks + (if !Tried(i, u) || !CandidateAttempted(u) then []
                             else if installs then [Attempt(plugin)] + StopIfOpen(i, hooks)
                             else [Attempt(plugin), Stop(plugin)])
      && t.error == (if !u.configOk then Some(InvalidConfig)
                     else if i.fiber != Active then Some(InvalidState)
                     else if !u.hasFactory then Some(NoFactory)
                     else if !u.instantiates then Some(NotInstantiated)
                     else if !u.attempt.waits then Some(NotReady)
                     else if !u.attempt.configOk then Some(InvalidConfig)
                     else if !u.attempt.starting.Starts? then Some(StartFailed)
                     else if !installs then Some(CommitRefused)
                     else if !retires then Some(StopFailed)
                     else None)
  {
    hide Execute, CanRun, Inv, CanCommit, After, Legal;
    assert hooks + [] == hooks;
    if Tried(i, u) {
      StagedSystem(plugin, hooks, s, u);
      StopsIfOpen(i, hooks, plugin);
      var called := hooks + [Attempt(plugin)];
      assert called + [Stop(plugin)] == hooks + [Attempt(plugin), Stop(plugin)];
      assert called + StopIfOpen(i, hooks) == hooks + ([Attempt(plugin)] + StopIfOpen(i, hooks));
      assert called + [Stop(plugin)] + [] == called + [Stop(plugin)];
    }
  }

  /** Stopping the old instance afterwards: any cleanup but the candidate's own spares the provider the candidate put there. */
  lemma RetiringSparesTheCandidate(s: System, k: nat, c: Cleanup, slot: Slot)
    requires Inv(s) && Enabled(s, RunCleanup(c)) && slot in s.host
    requires Cleanup(Overlay(k), slot, s.host[slot].generation) in s.cleanups && c.registry != Overlay(k)
    ensures slot in After(s, RunCleanup(c)).host && After(s, RunCleanup(c)).host[slot] == s.host[slot]
  {
    var own := Cleanup(Overlay(k), slot, s.host[slot].generation);
    assert own in s.cleanups && c in s.cleanups && c != own;
    assert c.generation != own.generation;
  }
}
