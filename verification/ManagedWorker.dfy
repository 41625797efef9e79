/**
 The managed native runtime of crates/tessivum-core/src/native.rs: the control state that dependency
 notifications and activation requests write, and the worker that follows it.
 */
module ManagedWorker {
  import opened NativePlugin
  import opened Wrappers

  type Generations = seq<Option<nat>>

  /** Whether all required dependencies are there, and the generation of each dependency's provider. */
  datatype Snapshot = Snapshot(ready: bool, services: Generations)

  /** For each dependency, in order, whether it is required. */
  type Dependencies = seq<bool>

  datatype Phase = Idle | Starting | Running | Broken

  // ----- the control state

  datatype Control = Control(
    activated: bool, initialized: bool, stopping: bool, dirty: bool, snapshot: Snapshot, phase: Phase, error: bool, waker: bool)

  function NewControl(deps: Dependencies): Control {
    Control(false, false, false, false, Snapshot(forall d <- deps :: !d, []), Idle, false, false)
  }

  datatype Activation = IsActive | IsPending | HasFailed | HasStopped

  /** What one poll of `activation` answers, if it answers. */
  function Poll(c: Control): Option<Activation> {
    if c.stopping then Some(HasStopped)
    else if c.phase == Running && !c.dirty && c.snapshot.ready then Some(IsActive)
    else if c.phase == Broken && (!c.dirty || !c.initialized) then Some(HasFailed)
    else if c.phase == Idle && !c.dirty && c.initialized && !c.snapshot.ready then Some(IsPending)
    else None
  }

  function SetSnapshot(c: Control, snapshot: Snapshot): Control {
    c.(snapshot := snapshot, dirty := true, waker := false)
  }

  function RequestActivation(c: Control): Control {
    if c.activated then c.(waker := false) else c.(activated := true, dirty := true, waker := false)
  }

  function SetPhase(c: Control, phase: Phase): Control {
    c.(phase := phase, error := phase == Broken, waker := false)
  }

  function StopControl(c: Control): Control {
    c.(stopping := true, dirty := true, waker := false)
  }

  predicate HasWork(c: Control) {
    c.stopping || (c.activated && c.dirty)
  }

  function Take(c: Control): Control {
    c.(dirty := false, phase := if c.stopping then c.phase else Starting)
  }

  function PollOnce(c: Control): Control {
    if Poll(c).None? then c.(waker := true) else c
  }

  class ManagedControl {
    var activated: bool
    var initialized: bool
    var stopping: bool
    var dirty: bool
    var snapshot: Snapshot
    var phase: Phase
    var error: bool
    var waker: bool

    function State(): Control
      reads this
    {
      Control(activated, initialized, stopping, dirty, snapshot, phase, error, waker)
    }

    constructor (deps: Dependencies)
      ensures State() == NewControl(deps)
    {
      activated, initialized, stopping, dirty := false, false, false, false;
      snapshot, phase, error, waker := Snapshot(forall d <- deps :: !d, []), Idle, false, false;
    }

    method Notify(next: Snapshot)
      modifies this
      ensures State() == SetSnapshot(old(State()), next)
    {
      snapshot := next;
      dirty := true;
      waker := false;
    }

    method Request()
      modifies this
      ensures State() == RequestActivation(old(State()))
    {
      if !activated {
        activated := true;
        dirty := true;
      }
      waker := false;
    }

    method MarkInitialized()
      modifies this
      ensures State() == old(State()).(initialized := true, waker := false)
    {
      initialized := true;
      waker := false;
    }

    method Enter(next: Phase)
      modifies this
      ensures State() == SetPhase(old(State()), next)
    {
      phase := next;
      error := next == Broken;
      waker := false;
    }

    /** `next_snapshot`, once there is work. */
    method NextSnapshot() returns (stop: bool, taken: Snapshot)
      requires HasWork(State())
      modifies this
      ensures State() == Take(old(State())) && stop == old(stopping) && taken == old(snapshot)
    {
      stop := stopping;
      taken := snapshot;
      dirty := false;
      if !stop {
        phase := Starting;
      }
    }

    method Stop()
      modifies this
      ensures State() == StopControl(old(State()))
    {
      stopping := true;
      dirty := true;
      waker := false;
    }

    /** One poll of the future `activation` returns. */
    method PollActivation() returns (answer: Option<Activation>)
      requires phase == Broken ==> error
      modifies this
      ensures State() == PollOnce(old(State())) && answer == Poll(old(State()))
    {
      if stopping {
        return Some(HasStopped);
      }
      match phase {
        case Running =>
          if !dirty && snapshot.ready {
            return Some(IsActive);
          }
        case Broken =>
          if !dirty || !initialized {
            return Some(HasFailed);
          }
        case Idle =>
          if !dirty && initialized && !snapshot.ready {
            return Some(IsPending);
          }
        case Starting =>
      }
      waker := true;
      answer := None;
    }
  }

  // ----- the worker

  /** `required_generations`: those of the required dependencies, as far as the snapshot lists them. */
  function Required(s: Snapshot, deps: Dependencies): Generations {
    RequiredUpTo(s, deps, if |deps| < |s.services| then |deps| else |s.services|)
  }

  function RequiredUpTo(s: Snapshot, deps: Dependencies, n: nat): Generations
    requires n <= |deps| && n <= |s.services|
  {
    if n == 0 then [] else RequiredUpTo(s, deps, n - 1) + if deps[n - 1] then [s.services[n - 1]] else []
  }

  method RequiredGenerations(s: Snapshot, deps: Dependencies) returns (gs: Generations)
    ensures gs == Required(s, deps)
  {
    gs := [];
    var n := if |deps| < |s.services| then |deps| else |s.services|;
    for k := 0 to n
      invariant gs == RequiredUpTo(s, deps, k)
    {
      if deps[k] {
        gs := gs + [s.services[k]];
      }
    }
  }

  /** Where the worker stands; from `Took` on it works on the snapshot it has taken. */
  datatype Pc =
    | Booting
    | Parked
    | Took(snapshot: Snapshot)
    | SuspendingIdle
    | GoingIdle
    | SuspendingRestart(snapshot: Snapshot)
    | Choosing(snapshot: Snapshot)
    | StartingUp(snapshot: Snapshot)
    | Updating(snapshot: Snapshot)
    | Exited

  /**
   `seen` is the snapshot last taken, `active` the worker's own record, and `running` the generations for which the
   plugin object in place was started. `missed` says that an update failed after its candidate had been installed,
   `disturbed` that the fiber's scope was disposed from outside.
   */
  datatype Managed = Managed(
    control: Control, pc: Pc, fiber: FiberState, active: Option<Generations>, running: Generations,
    missed: bool, disturbed: bool, seen: Option<Snapshot>)

  function NewManaged(deps: Dependencies): Managed {
    Managed(NewControl(deps), Booting, Pending, None, [], false, false, None)
  }

  /** How a suspend, start or update ends: the fiber's state afterwards, and whether a failed update was installed. */
  datatype Outcome = Outcome(ok: bool, state: FiberState, installed: bool)

  predicate Started(state: FiberState) {
    state == Active || state == Unloading || state == Disposed
  }

  predicate Plausible(m: Managed, o: Outcome) {
    match m.pc
    case SuspendingIdle => !o.ok ==> Ended(o.state)
    case SuspendingRestart(_) => !o.ok ==> Ended(o.state)
    case StartingUp(_) =>
      (if o.ok then Started(o.state) else o.state == Pending || Ended(o.state)) && (m.disturbed ==> Ended(o.state))
    case Updating(_) => o.ok || o.installed ==> Started(o.state)
    case _ => true
  }

  datatype Event =
    | Notification(snapshot: Snapshot)
    | Request
    | PollAgain
    | Stop
    | ScopeDisposed(state: FiberState)
    | Work(outcome: Outcome)

  function Park(m: Managed, phase: Phase): Managed {
    m.(control := SetPhase(m.control, phase), pc := Parked)
  }

  /** One step of the worker, between two uses of the control's lock. */
  function WorkStep(m: Managed, o: Outcome, deps: Dependencies): Managed {
    match m.pc
    case Booting =>
      if o.ok then m.(control := m.control.(initialized := true, waker := false), pc := Parked)
      else m.(control := SetPhase(m.control, Broken), pc := Exited)
    case Parked =>
      if !HasWork(m.control) then m
      else if m.control.stopping then m.(control := Take(m.control), pc := Exited)
      else m.(control := Take(m.control), pc := Took(m.control.snapshot), seen := Some(m.control.snapshot))
    case Took(s) =>
      if !s.ready then m.(pc := if m.fiber == Pending then GoingIdle else SuspendingIdle)
      else m.(pc := if m.fiber == Pending || m.fiber == Active then Choosing(s) else SuspendingRestart(s))
    case SuspendingIdle =>
      if o.ok then m.(fiber := Pending, disturbed := false, pc := GoingIdle) else Park(m.(fiber := o.state), Broken)
    case GoingIdle => Park(m.(active := None), Idle)
    case SuspendingRestart(s) =>
      if o.ok then m.(fiber := Pending, disturbed := false, pc := Choosing(s)) else Park(m.(fiber := o.state), Broken)
    case Choosing(s) =>
      if m.fiber == Pending then m.(control := SetPhase(m.control, Starting), pc := StartingUp(s))
      else if m.fiber != Active then Park(m, Broken)
      else if m.active != Some(Required(s, deps)) then m.(control := SetPhase(m.control, Starting), pc := Pc.Updating(s))
      else Park(m, Running)
    case StartingUp(s) =>
      if o.ok then
        Park(m.(fiber := o.state, active := Some(Required(s, deps)), running := Required(s, deps), missed := false), Running)
      else Park(m.(fiber := o.state), Broken)
    case Updating(s) =>
      if o.ok then
        Park(m.(fiber := o.state, active := Some(Required(s, deps)), running := Required(s, deps), missed := false, disturbed := false), Running)
      else if o.installed then
        Park(m.(fiber := o.state, running := Required(s, deps), missed := true, disturbed := false), Broken)
      else Park(m, Broken)
    case Exited => m
  }

  function Next(m: Managed, e: Event, deps: Dependencies): Managed {
    match e
    case Notification(s) => m.(control := SetSnapshot(m.control, s))
    case Request => m.(control := RequestActivation(m.control))
    case PollAgain => m.(control := PollOnce(m.control))
    case Stop => m.(control := StopControl(m.control))
    case ScopeDisposed(state) => if Ended(state) then m.(fiber := state, disturbed := true) else m
    case Work(o) => if Plausible(m, o) then WorkStep(m, o, deps) else m
  }

  function Run(events: seq<Event>, deps: Dependencies): Managed
    decreases |events|
  {
    if events == [] then NewManaged(deps) else Next(Run(events[..|events| - 1], deps), events[|events| - 1], deps)
  }

  // ----- what every step keeps

  function InHand(pc: Pc): Option<Snapshot> {
    match pc
    case Took(s) => Some(s)
    case SuspendingRestart(s) => Some(s)
    case Choosing(s) => Some(s)
    case StartingUp(s) => Some(s)
    case Updating(s) => Some(s)
    case _ => None
  }

  /** While nothing new has arrived, the snapshot last taken is the current one. */
  ghost predicate Follows(m: Managed) {
    !m.control.stopping && !m.control.dirty && m.seen.Some? ==> m.seen.value == m.control.snapshot
  }

  /** What the worker does, and what it shows, belongs to the snapshot it took last. */
  ghost predicate Obeys(m: Managed, deps: Dependencies) {
    && (InHand(m.pc).Some? ==> m.seen == InHand(m.pc))
    && (m.pc.GoingIdle? || m.pc.SuspendingIdle? ==> m.seen.Some? && !m.seen.value.ready)
    && (m.control.phase == Running ==> m.seen.Some? && m.seen.value.ready && m.active == Some(Required(m.seen.value, deps)))
    && (m.control.phase == Idle && m.seen.Some? ==> !m.seen.value.ready)
    && (m.pc.Updating? ==> m.active != Some(Required(m.pc.snapshot, deps)))
  }

  /** Readiness of the snapshot in hand, and the phases the worker shows. */
  ghost predicate Shows(m: Managed) {
    && (InHand(m.pc).Some? && !m.pc.Took? ==> InHand(m.pc).value.ready)
    && (m.pc.Parked? || m.pc.Booting? || m.pc.Exited? ==> m.control.phase != Starting)
    && (!m.pc.Parked? && !m.pc.Booting? && !m.pc.Exited? ==> m.control.phase == Starting && m.seen.Some?)
    && (m.pc.Booting? ==> !m.seen.Some? && m.control.phase == Idle)
    && (m.control.phase == Broken ==> m.control.error)
    && (m.pc.Booting? <== !m.control.initialized && !m.pc.Exited?)
    && (m.pc.Booting? ==> !m.control.initialized)
    && (m.control.activated && !m.seen.Some? && !m.pc.Exited? ==> m.control.dirty)
  }

  /** Fiber and record: a resting worker has none of either. */
  ghost predicate Rests(m: Managed) {
    && (m.pc.Parked? && m.control.phase == Idle && m.seen.Some? ==> m.active.None? && (m.fiber == Pending || m.disturbed))
    && (m.pc.GoingIdle? ==> m.fiber == Pending || m.disturbed)
    && (m.fiber == Active && !m.missed ==> m.active == Some(m.running))
    && (m.missed ==> m.active != Some(m.running))
    && (m.disturbed ==> Ended(m.fiber))
  }

  /** A stored waker means that the last poll had no answer and still has none. */
  ghost predicate Awaited(m: Managed) {
    && (m.control.waker ==> Poll(m.control).None?)
  }

  ghost predicate Inv(m: Managed, deps: Dependencies) {
    Follows(m) && Obeys(m, deps) && Shows(m) && Rests(m) && Awaited(m)
  }

  lemma OutsideKeeps(m: Managed, e: Event, deps: Dependencies)
    requires Inv(m, deps) && !e.Work?
    ensures Inv(Next(m, e, deps), deps)
  {
    hide Required;
  }

  predicate Decides(pc: Pc) {
    pc.Booting? || pc.Parked? || pc.Exited?
  }

  lemma DecideKeeps(m: Managed, o: Outcome, deps: Dependencies)
    requires Inv(m, deps) && Decides(m.pc)
    ensures Inv(WorkStep(m, o, deps), deps)
  {
    hide Required;
  }

  lemma TookKeeps(m: Managed, o: Outcome, deps: Dependencies)
    requires Inv(m, deps) && m.pc.Took?
    ensures Inv(WorkStep(m, o, deps), deps)
  {
    hide Required;
  }

  lemma SuspendKeeps(m: Managed, o: Outcome, deps: Dependencies)
    requires Inv(m, deps) && Plausible(m, o) && (m.pc.SuspendingIdle? || m.pc.SuspendingRestart? || m.pc.GoingIdle?)
    ensures Inv(WorkStep(m, o, deps), deps)
  {
    hide Required;
  }

  lemma ChooseKeeps(m: Managed, o: Outcome, deps: Dependencies)
    requires Inv(m, deps) && m.pc.Choosing?
    ensures Inv(WorkStep(m, o, deps), deps)
  {
    hide Required;
  }

  lemma StartKeeps(m: Managed, o: Outcome, deps: Dependencies)
    requires Inv(m, deps) && Plausible(m, o) && m.pc.StartingUp?
    ensures Inv(WorkStep(m, o, deps), deps)
  {
    hide Required;
  }

  lemma UpdateKeeps(m: Managed, o: Outcome, deps: Dependencies)
    requires Inv(m, deps) && Plausible(m, o) && m.pc.Updating?
    ensures Inv(WorkStep(m, o, deps), deps)
  {
    hide Required;
  }

  lemma StepKeeps(m: Managed, e: Event, deps: Dependencies)
    requires Inv(m, deps)
    ensures Inv(Next(m, e, deps), deps)
  {
    hide WorkStep, Inv;
    match e
    case Work(o) =>
      if Plausible(m, o) {
        match m.pc
        case Took(_) => TookKeeps(m, o, deps);
        case Choosing(_) => ChooseKeeps(m, o, deps);
        case StartingUp(_) => StartKeeps(m, o, deps);
        case Updating(_) => UpdateKeeps(m, o, deps);
        case SuspendingIdle => SuspendKeeps(m, o, deps);
        case SuspendingRestart(_) => SuspendKeeps(m, o, deps);
        case GoingIdle => SuspendKeeps(m, o, deps);
        case _ => DecideKeeps(m, o, deps);
      }
    case _ => OutsideKeeps(m, e, deps);
  }

  lemma {:induction false} RunsKeep(events: seq<Event>, deps: Dependencies)
    ensures Inv(Run(events, deps), deps)
    decreases |events|
  {
    hide Next, Inv;
    if events == [] {
      InitiallyKept(deps);
    } else {
      RunsKeep(events[..|events| - 1], deps);
      StepKeeps(Run(events[..|events| - 1], deps), events[|events| - 1], deps);
    }
  }

  lemma InitiallyKept(deps: Dependencies)
    ensures Inv(NewManaged(deps), deps)
  {
  }

  // ----- what that means

  /**
   A worker that shows it is active is active for the snapshot it took last. So its record is that of the current
   snapshot exactly if the two require the same generations, as they do while it is not stopping and nothing is dirty;
   and its plugin was started for the record exactly if no update has failed after installing its candidate.
   */
  lemma WorkerConverges(events: seq<Event>, deps: Dependencies)
    ensures var m := Run(events, deps);
            m.control.phase == Running ==>
              && m.seen.Some? && m.seen.value.ready
              && (m.active == Some(Required(m.control.snapshot, deps))
                  <==> Required(m.seen.value, deps) == Required(m.control.snapshot, deps))
              && (m.fiber == Active ==> (m.active == Some(m.running) <==> !m.missed))
              && (!m.control.stopping && !m.control.dirty ==>
                    && m.seen.value == m.control.snapshot
                    && (m.fiber == Active ==> (m.running == Required(m.control.snapshot, deps) <==> !m.missed)))
  {
    RunsKeep(events, deps);
  }

  /** A parked worker is never starting; at rest it has no active plugin, and its dependencies are missing. */
  lemma ParkedWorkerIsSettled(events: seq<Event>, deps: Dependencies)
    ensures var m := Run(events, deps);
            m.pc.Parked? ==>
              && m.control.phase != Starting
              && (m.control.phase == Idle && m.seen.Some? ==>
                    && m.active.None? && (m.fiber == Pending || (m.disturbed && Ended(m.fiber)))
                    && (!m.control.dirty && !m.control.stopping ==> !m.control.snapshot.ready))
  {
    RunsKeep(events, deps);
  }

  /** Once activated, a poll that finds a parked worker without work gets an answer; only a stored waker waits for one. */
  lemma ActivationIsAnswered(events: seq<Event>, deps: Dependencies)
    ensures var m := Run(events, deps);
            && (m.pc.Parked? && m.control.activated && Poll(m.control).None? ==> HasWork(m.control))
            && (m.control.waker ==> Poll(m.control).None?)
            && (Poll(m.control) == Some(IsActive) ==> m.active == Some(Required(m.control.snapshot, deps)))
            && (Poll(m.control) == Some(HasFailed) ==> m.control.error)
  {
    RunsKeep(events, deps);
  }

  // ----- what single steps do

  /** At first nothing is due, and nothing is shown but that dependencies are missing or that there are none. */
  lemma NothingIsDueAtFirst(deps: Dependencies)
    ensures var c := NewControl(deps);
      && !HasWork(c) && !c.activated && !c.initialized && !c.stopping && !c.dirty && !c.error && !c.waker
      && c.phase == Idle && Poll(c).None?
      && (c.snapshot.ready <==> forall d <- deps :: !d)
  {
  }

  /** Nobody has asked for anything yet. */
  predicate Unrequested(m: Managed) {
    && !m.control.activated && !m.control.stopping && m.seen.None?
    && (m.pc.Booting? || m.pc.Parked? || m.pc.Exited?)
  }

  lemma UnrequestedStep(m: Managed, e: Event, deps: Dependencies)
    requires Unrequested(m) && e != Request && e != Event.Stop
    ensures Unrequested(Next(m, e, deps))
  {
    hide Required;
    match e
    case Work(_) =>
    case _ => hide WorkStep;
  }

  /** Until its activation is requested, or it is stopped, a worker takes no snapshot. */
  lemma {:induction false} UnrequestedWorkerWaits(events: seq<Event>, deps: Dependencies)
    requires Request !in events && Event.Stop !in events
    ensures Unrequested(Run(events, deps))
    decreases |events|
  {
    hide Next;
    if events != [] {
      var front := events[..|events| - 1];
      assert forall e <- front :: e in events;
      UnrequestedWorkerWaits(front, deps);
      assert events[|events| - 1] in events;
      UnrequestedStep(Run(front, deps), events[|events| - 1], deps);
    }
  }

  /**
   What comes from outside: a notification shows its snapshot and schedules work, only the first request does, a stop
   schedules the last work, and each of them wakes whoever waits for an answer.
   */
  lemma OutsideEvents(m: Managed, s: Snapshot, deps: Dependencies)
    ensures var n := Next(m, Notification(s), deps);
      n.control.snapshot == s && n.control.dirty && !n.control.waker
      && n == m.(control := m.control.(snapshot := s, dirty := true, waker := false))
    ensures var r := Next(m, Request, deps);
      r.control.activated && !r.control.waker && (r.control.dirty <==> m.control.dirty || !m.control.activated)
      && r == m.(control := m.control.(activated := true, dirty := r.control.dirty, waker := false))
    ensures var x := Next(m, Event.Stop, deps);
      HasWork(x.control) && !x.control.waker && x == m.(control := m.control.(stopping := true, dirty := true, waker := false))
  {
    hide WorkStep, Plausible, Poll, PollOnce;
  }

  /** A poll without an answer starts to wait; a scope disposed from outside takes the fiber with it. */
  lemma OutsideLooks(m: Managed, state: FiberState, deps: Dependencies)
    ensures var p := Next(m, PollAgain, deps);
      (Poll(m.control).None? ==> p.control.waker) && p == m.(control := m.control.(waker := m.control.waker || Poll(m.control).None?))
    ensures Ended(state) ==> Next(m, ScopeDisposed(state), deps) == m.(fiber := state, disturbed := true)
    ensures !Ended(state) ==> Next(m, ScopeDisposed(state), deps) == m
  {
    hide WorkStep, Plausible;
  }

  /** Which answer a poll gives: each of them exactly in its own situation. */
  lemma PollMeans(events: seq<Event>, deps: Dependencies)
    ensures var m := Run(events, deps);
      var c := m.control;
      && (Poll(c) == Some(HasStopped) <==> c.stopping)
      && (Poll(c) == Some(IsActive) <==> !c.stopping && c.phase == Running && !c.dirty)
      && (Poll(c) == Some(IsPending) <==> !c.stopping && c.phase == Idle && !c.dirty && c.initialized && !c.snapshot.ready)
      && (Poll(c) == Some(HasFailed) <==> !c.stopping && c.phase == Broken && (!c.dirty || !c.initialized))
  {
    RunsKeep(events, deps);
  }

  /** Booting ends parked, or for good with an error that every poll reports. */
  lemma BootParksOrBreaks(m: Managed, o: Outcome, deps: Dependencies)
    requires m.pc.Booting? && Inv(m, deps)
    ensures var m' := WorkStep(m, o, deps);
      && m'.fiber == m.fiber && m'.active == m.active && m'.seen == m.seen && !m'.control.waker
      && (o.ok ==> m'.pc.Parked? && m'.control == m.control.(initialized := true, waker := false))
      && (!o.ok ==> m'.pc.Exited? && m'.control == m.control.(phase := Broken, error := true, waker := false)
                    && Poll(m'.control) == Some(if m.control.stopping then HasStopped else HasFailed))
  {
    hide Required;
  }

  /** What a failure leaves of the fiber: what the operation says, but an update that kept the old instance changes nothing. */
  lemma FailureLeavesFiber(m: Managed, o: Outcome, deps: Dependencies)
    requires Consults(m.pc) && !o.ok
    ensures var m' := WorkStep(m, o, deps);
      && m'.pc.Parked? && m'.control.phase == Broken && m'.control.error && !m'.control.waker
      && m'.fiber == (if m.pc.Updating? && !o.installed then m.fiber else o.state)
      && m'.active == m.active
      && (m'.missed <==> m.missed || (m.pc.Updating? && o.installed))
  {
    hide Required;
  }

  /** A worker whose fiber is pending rests without asking anything of its instance when dependencies are missing. */
  lemma PendingWorkerRests(m: Managed, o1: Outcome, o2: Outcome, o3: Outcome, deps: Dependencies)
    requires m.pc.Parked? && m.control.activated && m.control.dirty && !m.control.stopping
    requires m.fiber == Pending && !m.control.snapshot.ready
    ensures var m' := WorkStep(WorkStep(WorkStep(m, o1, deps), o2, deps), o3, deps);
      && m'.pc.Parked? && m'.control.phase == Idle && !m'.control.dirty && !m'.control.waker
      && m'.fiber == Pending && m'.active.None?
  {
    hide Required;
  }

  // ----- where a worker with work gets

  /** What is left of a turn, at most. */
  function Rank(pc: Pc): nat {
    match pc
    case Took(_) => 4
    case SuspendingRestart(_) => 3
    case Choosing(_) => 2
    case SuspendingIdle => 2
    case StartingUp(_) => 1
    case Updating(_) => 1
    case GoingIdle => 1
    case _ => 0
  }

  /** The worker is in the middle of a turn for the current snapshot, and nobody has disturbed it. */
  ghost predicate Engaged(m: Managed, deps: Dependencies) {
    && Inv(m, deps) && Rank(m.pc) > 0
    && m.control.activated && !m.control.stopping && !m.control.dirty
    && (m.pc.GoingIdle? || m.pc.StartingUp? ==> m.fiber == Pending)
    && (m.pc.Choosing? ==> m.fiber == Pending || m.fiber == Active)
    && (m.pc.Updating? ==> m.fiber == Active)
  }

  /** A suspend, a start or an update is about to end. */
  predicate Consults(pc: Pc) {
    pc.SuspendingIdle? || pc.SuspendingRestart? || pc.StartingUp? || pc.Updating?
  }

  /** The end of a turn for the snapshot `s`, given whether something failed and whether everything left the fiber active. */
  ghost predicate Settled(m: Managed, s: Snapshot, deps: Dependencies, failed: bool, active: bool) {
    && m.pc.Parked? && m.control.snapshot == s && m.control.activated && !m.control.stopping && !m.control.dirty
    && m.seen == Some(s)
    && (m.control.phase == Broken <==> failed)
    && (!failed && !s.ready ==> m.control.phase == Idle && m.fiber == Pending && m.active.None?)
    && (!failed && s.ready ==> m.control.phase == Running && m.active == Some(Required(s, deps)))
    && (!failed && s.ready && active ==> m.fiber == Active)
  }

  /** A missed update stays missed only where the outdated record happens to be the one required. */
  ghost predicate StaysMissed(m: Managed, m': Managed, deps: Dependencies) {
    m'.missed && m'.control.phase == Running ==> m.missed && m.active == Some(Required(m.control.snapshot, deps))
  }

  lemma TookEngages(m: Managed, o: Outcome, deps: Dependencies)
    requires Engaged(m, deps) && (m.pc.Took? || m.pc.SuspendingRestart?) && Plausible(m, o)
    requires m.pc.SuspendingRestart? ==> o.ok
    ensures var m' := WorkStep(m, o, deps);
      && Engaged(m', deps) && Rank(m'.pc) < Rank(m.pc) && m'.control == m.control
      && m'.missed == m.missed && m'.active == m.active
  {
    if m.pc.Took? { TookKeeps(m, o, deps); } else { SuspendKeeps(m, o, deps); }
    hide Required, Follows, Awaited;
  }

  lemma IdlingEngages(m: Managed, o: Outcome, deps: Dependencies)
    requires Engaged(m, deps) && m.pc.SuspendingIdle? && Plausible(m, o) && o.ok
    ensures var m' := WorkStep(m, o, deps);
      Engaged(m', deps) && Rank(m'.pc) < Rank(m.pc) && m'.control == m.control && m'.missed == m.missed && m'.active == m.active
  {
    SuspendKeeps(m, o, deps);
    hide Required, Follows, Awaited;
  }

  lemma SuspendFails(m: Managed, o: Outcome, deps: Dependencies)
    requires Engaged(m, deps) && (m.pc.SuspendingIdle? || m.pc.SuspendingRestart?) && !o.ok
    ensures Settled(WorkStep(m, o, deps), m.control.snapshot, deps, true, o.state == Active)
  {
    hide Required, Awaited, Rests;
  }

  lemma IdleSettles(m: Managed, o: Outcome, deps: Dependencies)
    requires Engaged(m, deps) && m.pc.GoingIdle?
    ensures Settled(WorkStep(m, o, deps), m.control.snapshot, deps, false, o.state == Active)
  {
    hide Required, Awaited, Rests;
  }

  lemma ChoosingEngages(m: Managed, o: Outcome, deps: Dependencies)
    requires Engaged(m, deps) && m.pc.Choosing? && Plausible(m, o)
    ensures var m' := WorkStep(m, o, deps);
      if m.fiber == Active && m.active == Some(Required(m.control.snapshot, deps)) then
        Settled(m', m.control.snapshot, deps, false, o.state == Active) && m'.missed == m.missed
      else
        && Engaged(m', deps) && Rank(m'.pc) < Rank(m.pc)
        && m'.control.snapshot == m.control.snapshot && m'.missed == m.missed && m'.active == m.active
  {
    ChooseKeeps(m, o, deps);
    hide Required, Awaited;
  }

  lemma StartSettles(m: Managed, o: Outcome, deps: Dependencies)
    requires Engaged(m, deps) && (m.pc.StartingUp? || m.pc.Updating?) && Plausible(m, o)
    ensures var m' := WorkStep(m, o, deps);
      && Settled(m', m.control.snapshot, deps, !o.ok, o.state == Active)
      && (o.ok ==> !m'.missed && m'.running == Required(m.control.snapshot, deps) && m'.fiber == o.state)
  {
    hide Required, Awaited, Rests;
  }

  /** Worker steps with these outcomes, and nothing else. */
  function Works(m: Managed, os: seq<Outcome>, deps: Dependencies): Managed
    decreases |os|
  {
    if os == [] then m else Works(Next(m, Work(os[0]), deps), os[1..], deps)
  }

  ghost predicate AllPlausible(m: Managed, os: seq<Outcome>, deps: Dependencies)
    decreases |os|
  {
    os == [] || (Plausible(m, os[0]) && AllPlausible(Next(m, Work(os[0]), deps), os[1..], deps))
  }

  /** One of the suspends, starts and updates of these steps fails. */
  ghost predicate SomeFails(m: Managed, os: seq<Outcome>, deps: Dependencies)
    decreases |os|
  {
    os != [] && ((Consults(m.pc) && !os[0].ok) || SomeFails(Next(m, Work(os[0]), deps), os[1..], deps))
  }

  predicate AllActive(os: seq<Outcome>) {
    forall o <- os :: o.state == Active
  }

  /** The first `n` steps end a turn for the snapshot the worker has, or is about to take. */
  ghost predicate SettlesIn(m: Managed, os: seq<Outcome>, n: nat, deps: Dependencies)
    requires n <= |os|
  {
    var m' := Works(m, os[..n], deps);
    && Settled(m', m.control.snapshot, deps, SomeFails(m, os[..n], deps), AllActive(os[..n]))
    && StaysMissed(m, m', deps)
  }

  lemma OneStepSettles(m: Managed, os: seq<Outcome>, deps: Dependencies, failed: bool)
    requires os != [] && Plausible(m, os[0]) && (failed <==> Consults(m.pc) && !os[0].ok)
    requires Settled(WorkStep(m, os[0], deps), m.control.snapshot, deps, failed, os[0].state == Active)
    requires StaysMissed(m, WorkStep(m, os[0], deps), deps)
    ensures SettlesIn(m, os, 1, deps)
  {
    hide Settled, StaysMissed, WorkStep, Plausible;
    var one := os[..1];
    assert one == [os[0]] && one[1..] == [];
    assert Works(m, one, deps) == Next(m, Work(os[0]), deps);
    assert SomeFails(m, one, deps) == failed;
    assert AllActive(one) <==> os[0].state == Active by { assert forall o <- one :: o == os[0]; }
  }

  lemma StepThenSettles(m: Managed, os: seq<Outcome>, n: nat, deps: Dependencies)
    requires os != [] && n < |os| && Plausible(m, os[0]) && !(Consults(m.pc) && !os[0].ok)
    requires var m1 := WorkStep(m, os[0], deps);
      && m1.control.snapshot == m.control.snapshot && m1.missed == m.missed && m1.active == m.active
      && SettlesIn(m1, os[1..], n, deps)
    ensures SettlesIn(m, os, n + 1, deps)
  {
    hide WorkStep, Plausible, Consults;
    assert os[..n + 1] == [os[0]] + os[1..][..n];
    assert os[..n + 1][1..] == os[1..][..n];
    var m1 := WorkStep(m, os[0], deps);
    assert Next(m, Work(os[0]), deps) == m1;
    assert Works(m, os[..n + 1], deps) == Works(m1, os[1..][..n], deps);
    if AllActive(os[..n + 1]) {
      assert forall o <- os[1..][..n] :: o in os[..n + 1];
    }
  }

  lemma LegSettles(m: Managed, os: seq<Outcome>, deps: Dependencies)
    requires Engaged(m, deps) && os != [] && Plausible(m, os[0])
    ensures var m1 := WorkStep(m, os[0], deps);
      || SettlesIn(m, os, 1, deps)
      || (&& Engaged(m1, deps) && Rank(m1.pc) < Rank(m.pc) && !(Consults(m.pc) && !os[0].ok)
          && m1.control.snapshot == m.control.snapshot && m1.missed == m.missed && m1.active == m.active)
  {
    var o, failed := os[0], Consults(m.pc) && !os[0].ok;
    hide Inv, Required, WorkStep, Plausible, SettlesIn;
    match m.pc
    case Choosing(_) =>
      ChoosingEngages(m, o, deps);
      if m.fiber == Active && m.active == Some(Required(m.control.snapshot, deps)) { OneStepSettles(m, os, deps, false); }
    case StartingUp(_) => StartSettles(m, o, deps); OneStepSettles(m, os, deps, failed);
    case Updating(_) => StartSettles(m, o, deps); OneStepSettles(m, os, deps, failed);
    case GoingIdle => IdleSettles(m, o, deps); OneStepSettles(m, os, deps, false);
    case _ =>
      if failed {
        SuspendFails(m, o, deps);
        OneStepSettles(m, os, deps, true);
      } else if m.pc.SuspendingIdle? {
        IdlingEngages(m, o, deps);
      } else {
        TookEngages(m, o, deps);
      }
  }

  lemma {:induction false} EngagedSettles(m: Managed, os: seq<Outcome>, deps: Dependencies) returns (n: nat)
    requires Engaged(m, deps) && Rank(m.pc) <= |os| && AllPlausible(m, os, deps)
    ensures 1 <= n <= Rank(m.pc) && SettlesIn(m, os, n, deps)
    decreases Rank(m.pc)
  {
    LegSettles(m, os, deps);
    if SettlesIn(m, os, 1, deps) {
      n := 1;
    } else {
      hide SettlesIn, Engaged, WorkStep, Plausible;
      var m1 := WorkStep(m, os[0], deps);
      assert Next(m, Work(os[0]), deps) == m1;
      var rest := EngagedSettles(m1, os[1..], deps);
      StepThenSettles(m, os, rest, deps);
      n := rest + 1;
    }
  }

  lemma TakingEngages(m: Managed, o: Outcome, deps: Dependencies)
    requires Inv(m, deps) && m.pc.Parked? && m.control.activated && m.control.dirty && !m.control.stopping
    ensures var m1 := WorkStep(m, o, deps);
      && Engaged(m1, deps) && Rank(m1.pc) == 4
      && m1.control.snapshot == m.control.snapshot && m1.missed == m.missed && m1.active == m.active
  {
    DecideKeeps(m, o, deps);
    hide Required, Follows, Awaited;
  }

  lemma {:induction false} WorksKeep(m: Managed, os: seq<Outcome>, deps: Dependencies)
    requires Inv(m, deps)
    ensures Inv(Works(m, os, deps), deps)
    decreases |os|
  {
    hide Inv, Next;
    if os != [] {
      StepKeeps(m, Work(os[0]), deps);
      WorksKeep(Next(m, Work(os[0]), deps), os[1..], deps);
    }
  }

  lemma SettledMeans(m: Managed, s: Snapshot, deps: Dependencies, failed: bool, active: bool)
    requires Inv(m, deps) && Settled(m, s, deps, failed, active)
    ensures Poll(m.control) == Some(if failed then HasFailed else if s.ready then IsActive else IsPending)
    ensures !failed && s.ready && m.fiber == Active ==> (m.running == Required(s, deps) <==> !m.missed)
  {
    hide Required;
  }

  /**
   A parked worker with work, left alone, is parked again after at most five steps, for the snapshot it had. It shows a
   failure exactly if a suspend, a start or an update has failed; otherwise it rests with a pending fiber and
   nothing recorded if dependencies are missing, and is active for exactly the required providers if not. Its
   plugin was started for them unless an update was missed before whose outdated record is the one required.
   */
  lemma WorkerSettles(events: seq<Event>, os: seq<Outcome>, deps: Dependencies) returns (n: nat)
    requires var m := Run(events, deps);
      && m.pc.Parked? && m.control.activated && m.control.dirty && !m.control.stopping
      && |os| >= 5 && AllPlausible(m, os, deps)
    ensures 1 <= n <= 5
    ensures var m := Run(events, deps);
      var m', s, failed := Works(m, os[..n], deps), m.control.snapshot, SomeFails(m, os[..n], deps);
      && m'.pc.Parked? && !m'.control.dirty && m'.control.snapshot == s
      && (m'.control.phase == Broken <==> failed)
      && (!failed && !s.ready ==> m'.control.phase == Idle && m'.fiber == Pending && m'.active.None?)
      && (!failed && s.ready ==> m'.control.phase == Running && m'.active == Some(Required(s, deps)))
      && (!failed && s.ready && AllActive(os[..n]) ==> m'.fiber == Active && (m'.running == Required(s, deps) <==> !m'.missed))
      && (!failed && s.ready && m'.missed ==> m.missed && m.active == Some(Required(s, deps)))
      && Poll(m'.control) == Some(if failed then HasFailed else if s.ready then IsActive else IsPending)
  {
    RunsKeep(events, deps);
    var m := Run(events, deps);
    TakingEngages(m, os[0], deps);
    hide Inv, Run, Required, WorkStep, Engaged, Poll;
    var m1 := WorkStep(m, os[0], deps);
    assert Plausible(m, os[0]) && Next(m, Work(os[0]), deps) == m1;
    var rest := EngagedSettles(m1, os[1..], deps);
    StepThenSettles(m, os, rest, deps);
    n := rest + 1;
    WorksKeep(m, os[..n], deps);
    SettledMeans(Works(m, os[..n], deps), m.control.snapshot, deps, SomeFails(m, os[..n], deps), AllActive(os[..n]));
  }


  ghost predicate Descends(m: Managed, m1: Managed) {
    Rank(m1.pc) < Rank(m.pc) && (m1.pc.Parked? || Rank(m1.pc) > 0) && m1.control.stopping == m.control.stopping
  }

  lemma ChoosingDescends(m: Managed, o: Outcome, deps: Dependencies)
    requires m.pc.Choosing?
    ensures Descends(m, WorkStep(m, o, deps))
  {
    hide Required;
  }

  lemma EarlyDescends(m: Managed, o: Outcome, deps: Dependencies)
    requires m.pc.Took? || m.pc.SuspendingRestart?
    ensures Descends(m, WorkStep(m, o, deps))
  {
    hide Required;
  }

  lemma RankDrops(m: Managed, o: Outcome, deps: Dependencies)
    requires Rank(m.pc) > 0
    ensures Descends(m, WorkStep(m, o, deps))
  {
    hide Required;
    if m.pc.Choosing? {
      hide WorkStep;
      ChoosingDescends(m, o, deps);
    } else if m.pc.Took? || m.pc.SuspendingRestart? {
      hide WorkStep;
      EarlyDescends(m, o, deps);
    }
  }

  /** A worker that has been told to stop finishes its turn, whatever comes of it, and exits. */
  lemma {:induction false} StoppingWorkerExits(m: Managed, os: seq<Outcome>, deps: Dependencies) returns (n: nat)
    requires m.control.stopping && (m.pc.Parked? || Rank(m.pc) > 0)
    requires |os| > Rank(m.pc) && AllPlausible(m, os, deps)
    ensures 1 <= n <= Rank(m.pc) + 1 && Works(m, os[..n], deps).pc.Exited?
    decreases Rank(m.pc)
  {
    var m1 := Next(m, Work(os[0]), deps);
    if m.pc.Parked? {
      n := 1;
      assert os[..1][1..] == [];
    } else {
      RankDrops(m, os[0], deps);
      hide WorkStep, Plausible;
      var rest := StoppingWorkerExits(m1, os[1..], deps);
      n := rest + 1;
      assert os[..n][1..] == os[1..][..rest];
    }
  }

  // ----- and where it ends

  lemma RunMore(events: seq<Event>, e: Event, deps: Dependencies)
    ensures Run(events + [e], deps) == Next(Run(events, deps), e, deps)
  {
    assert (events + [e])[..|events|] == events;
  }

  const ONE: Dependencies := [true]
  const FIRST := Snapshot(true, [Some(1)])
  const SECOND := Snapshot(true, [Some(2)])

  function GoodWork(): Event {
    Work(Outcome(true, Active, false))
  }

  lemma RunNothing(deps: Dependencies)
    ensures Run([], deps) == NewManaged(deps)
  {
  }

  /** Up to the notification of the first provider. */
  function AnnouncedEvents(): seq<Event> {
    [] + [GoodWork()] + [Request] + [Notification(FIRST)]
  }

  lemma FirstIsAnnounced()
    ensures Run(AnnouncedEvents(), ONE)
         == NewManaged(ONE).(control := Control(true, true, false, true, FIRST, Idle, false, false), pc := Parked)
  {
    hide Run;
    RunNothing(ONE);
    RunMore([], GoodWork(), ONE);
    RunMore([] + [GoodWork()], Request, ONE);
    RunMore([] + [GoodWork()] + [Request], Notification(FIRST), ONE);
  }

  /** Up to the plugin running for the first provider. */
  function RunningEvents(): seq<Event> {
    var w := GoodWork();
    AnnouncedEvents() + [w] + [w] + [w] + [w]
  }

  function RunningState(): Managed {
    Managed(Control(true, true, false, false, FIRST, Running, false, false), Parked, Active, Some([Some(1)]), [Some(1)], false, false, Some(FIRST))
  }

  lemma RequiredOfOne(g: nat)
    ensures Required(Snapshot(true, [Some(g)]), ONE) == [Some(g)]
  {
    assert RequiredUpTo(Snapshot(true, [Some(g)]), ONE, 0) == [];
  }

  lemma FirstRuns()
    ensures Run(RunningEvents(), ONE) == RunningState()
  {
    hide Run, Required, AnnouncedEvents;
    RequiredOfOne(1);
    FirstIsAnnounced();
    var w, e := GoodWork(), AnnouncedEvents();
    RunMore(e, w, ONE);
    RunMore(e + [w], w, ONE);
    RunMore(e + [w] + [w], w, ONE);
    RunMore(e + [w] + [w] + [w], w, ONE);
  }

  /** Stopping breaks it: the last look at the state clears the mark of a change the worker no longer follows. */
  lemma StoppingWorkerDoesNotConverge()
    ensures exists events: seq<Event> ::
      var m := Run(events, ONE);
      m.control.phase == Running && !m.control.dirty && m.active != Some(Required(m.control.snapshot, ONE))
  {
    hide Run, Required;
    RequiredOfOne(2);
    FirstRuns();
    var es := RunningEvents();
    RunMore(es, Notification(SECOND), ONE);
    RunMore(es + [Notification(SECOND)], Event.Stop, ONE);
    RunMore(es + [Notification(SECOND)] + [Event.Stop], GoodWork(), ONE);
    var all := es + [Notification(SECOND)] + [Event.Stop] + [GoodWork()];
    assert Run(all, ONE).control.phase == Running;
  }
}
