/**
 The guest slot of one WASM instance (crates/tessivum-extism/src/lib.rs): any number of
 concurrent `invoke` calls, one winning `stop`, and cancellations at any time. A step is
 one access to an atomic or one section under the slot's lock.
 */
module GuestSlot {
  import opened Wrappers

  type CallId = nat

  /** How an `invoke` ended. */
  datatype Outcome = Rejected | Cancelled | Finished

  /**
   Where an `invoke` is: waiting for the slot; holding the guest and the lock, before and after publishing itself
   as `active`; past its last look at `accepting`, without the lock; inside the guest; and on its way back.
   */
  datatype Pc = Entered | Holding | Armed | Admitted | Running | Returned(outcome: Outcome) | Cleared(outcome: Outcome) | Done(outcome: Outcome)

  /** Where the `stop` that won the `accepting` exchange is. */
  datatype StopPc = NotStopped | Claimed | Fetched(target: Option<CallId>) | Waiting | InStop | Stopped

  datatype Event = CallStart(id: CallId) | CallEnd(id: CallId) | StopStart | StopEnd

  /** The boxed guest is a linear value: in the slot, with a call, with the stop, or dropped. */
  datatype Place = InSlot | WithCall(id: CallId) | WithStop | Dropped

  datatype Slot = Slot(
    accepting: bool,
    guest: Place,
    stopped: bool,
    lockedBy: Option<CallId>,
    active: Option<CallId>,
    cancelled: set<CallId>,
    calls: map<CallId, Pc>,
    stop: StopPc,
    log: seq<Event>)

  const INITIAL := Slot(true, InSlot, false, None, None, {}, map[], NotStopped, [])

  datatype Step =
    | Enter(id: CallId)        // first load of `accepting`
    | Take(id: CallId)         // lock, see the guest and `accepting`, take the guest
    | Refuse(id: CallId)       // lock, see the instance stopping
    | Arm(id: CallId)          // publish the cancellation handle
    | Recheck(id: CallId)      // second load of `accepting`, then unlock
    | Begin(id: CallId)        // the guest call begins
    | Return(id: CallId)       // the guest call is over; its cancellation flag is read
    | Clear(id: CallId)        // withdraw the cancellation handle
    | PutBack(id: CallId)      // lock and return the guest
    | StopClaim                // exchange `accepting`
    | StopFetch                // clone `active`
    | StopCancel               // set the fetched call's flag
    | StopTake                 // lock, see the guest, take it for good
    | StopReturn               // the guest's stop is over
    | CancelCurrent(id: CallId) // another thread's `cancel_current`

  predicate At(s: Slot, i: CallId, pc: Pc) {
    i in s.calls && s.calls[i] == pc
  }

  predicate Enabled(s: Slot, step: Step) {
    match step
    case Enter(i) => i !in s.calls
    case Take(i) => At(s, i, Entered) && s.lockedBy.None? && s.accepting && !s.stopped && s.guest == InSlot
    case Refuse(i) => At(s, i, Entered) && s.lockedBy.None? && (!s.accepting || s.stopped)
    case Arm(i) => At(s, i, Holding)
    case Recheck(i) => At(s, i, Armed)
    case Begin(i) => At(s, i, Admitted)
    case Return(i) => At(s, i, Running)
    case Clear(i) => i in s.calls && s.calls[i].Returned?
    case PutBack(i) => i in s.calls && s.calls[i].Cleared? && s.lockedBy.None?
    case StopClaim => s.stop == NotStopped && s.accepting
    case StopFetch => s.stop == Claimed
    case StopCancel => s.stop.Fetched?
    case StopTake => s.stop == Waiting && s.lockedBy.None? && s.guest == InSlot
    case StopReturn => s.stop == InStop
    case CancelCurrent(i) => s.active == Some(i)
  }

  function After(s: Slot, step: Step): Slot
    requires Enabled(s, step)
  {
    match step
    case Enter(i) => s.(calls := s.calls[i := if s.accepting then Entered else Done(Rejected)])
    case Take(i) => s.(guest := WithCall(i), lockedBy := Some(i), calls := s.calls[i := Holding])
    case Refuse(i) => s.(calls := s.calls[i := Done(Rejected)])
    case Arm(i) => s.(active := Some(i), calls := s.calls[i := Armed])
    case Recheck(i) =>
      if s.accepting then s.(lockedBy := None, calls := s.calls[i := Admitted])
      else s.(active := None, guest := InSlot, lockedBy := None, calls := s.calls[i := Done(Rejected)])
    case Begin(i) => s.(calls := s.calls[i := Running], log := s.log + [CallStart(i)])
    case Return(i) =>
      s.(calls := s.calls[i := Returned(if i in s.cancelled then Cancelled else Finished)], log := s.log + [CallEnd(i)])
    case Clear(i) => s.(active := None, calls := s.calls[i := Cleared(s.calls[i].outcome)])
    case PutBack(i) => s.(guest := InSlot, calls := s.calls[i := Done(s.calls[i].outcome)])
    case StopClaim => s.(accepting := false, stop := Claimed)
    case StopFetch => s.(stop := Fetched(s.active))
    case StopCancel =>
      s.(stop := Waiting, cancelled := if s.stop.target.Some? then s.cancelled + {s.stop.target.value} else s.cancelled)
    case StopTake => s.(guest := WithStop, stopped := true, stop := InStop, log := s.log + [StopStart])
    case StopReturn => s.(guest := Dropped, stop := Stopped, log := s.log + [StopEnd])
    case CancelCurrent(i) => s.(cancelled := s.cancelled + {i})
  }

  // ----- the serial reading of a log

  /** What the guest is doing after a log, if the log is serial. */
  datatype Phase = Idle | InCall(id: CallId) | Stopping | Dead

  function Advance(p: Option<Phase>, e: Event): Option<Phase> {
    match (p, e)
    case (Some(Idle), CallStart(i)) => Some(InCall(i))
    case (Some(InCall(i)), CallEnd(j)) => if i == j then Some(Idle) else None
    case (Some(Idle), StopStart) => Some(Stopping)
    case (Some(Stopping), StopEnd) => Some(Dead)
    case _ => None
  }

  /** Calls follow one another, and at most one stop follows all of them: otherwise `None`. */
  function PhaseOf(log: seq<Event>): Option<Phase> {
    if log == [] then Some(Idle) else Advance(PhaseOf(log[..|log| - 1]), log[|log| - 1])
  }

  lemma PhaseExtends(log: seq<Event>, e: Event)
    ensures PhaseOf(log + [e]) == Advance(PhaseOf(log), e)
  {
    assert (log + [e])[..|log|] == log;
  }

  // ----- the invariant

  predicate OwnsGuest(pc: Pc) {
    pc.Holding? || pc.Armed? || pc.Admitted? || pc.Running? || pc.Returned? || pc.Cleared?
  }

  /** The phases of calls and of the stop agree with where the guest is. */
  ghost predicate Exclusive(s: Slot) {
    && (forall i :: i in s.calls ==> (OwnsGuest(s.calls[i]) <==> s.guest == WithCall(i)))
    && (s.guest.WithCall? ==> s.guest.id in s.calls)
    && (s.stopped <==> s.stop == InStop || s.stop == Stopped)
    && (s.guest == WithStop <==> s.stop == InStop)
    && (s.guest == Dropped <==> s.stop == Stopped)
    && (s.accepting <==> s.stop == NotStopped)
  }

  ghost predicate LockFlag(s: Slot) {
    && (forall i :: i in s.calls ==> (s.lockedBy == Some(i) <==> s.calls[i].Holding? || s.calls[i].Armed?))
    && (s.lockedBy.Some? ==> s.lockedBy.value in s.calls)
  }

  ghost predicate ActiveFlag(s: Slot) {
    && (forall i :: i in s.calls ==> (s.active == Some(i) <==>
          s.calls[i].Armed? || s.calls[i].Admitted? || s.calls[i].Running? || s.calls[i].Returned?))
    && (s.active.Some? ==> s.active.value in s.calls)
  }

  ghost predicate Flags(s: Slot) {
    LockFlag(s) && ActiveFlag(s)
  }

  /** A call past its last look at `accepting` has been seen by any `stop` past its fetch, and marked by one past its cancel. */
  ghost predicate Marked(s: Slot) {
    forall i :: i in s.calls && (s.calls[i] == Admitted || s.calls[i] == Running) ==>
      && (s.stop.Fetched? ==> s.stop.target == Some(i))
      && (s.stop == Waiting ==> i in s.cancelled)
  }

  /** What the guest is doing, read off the state. */
  ghost function CurrentPhase(s: Slot): Phase {
    if s.stop == InStop then Stopping
    else if s.stop == Stopped then Dead
    else if s.guest.WithCall? && s.guest.id in s.calls && s.calls[s.guest.id] == Running then InCall(s.guest.id)
    else Idle
  }

  ghost predicate LogMatches(s: Slot) {
    PhaseOf(s.log) == Some(CurrentPhase(s))
  }

  /** Calls are rejected only once a stop has claimed the instance, and never by the guest. */
  ghost predicate Rejections(s: Slot) {
    forall i :: i in s.calls ==>
      && s.calls[i] != Returned(Rejected) && s.calls[i] != Cleared(Rejected)
      && (s.calls[i] == Done(Rejected) ==> !s.accepting)
  }

  ghost predicate Inv(s: Slot) {
    Exclusive(s) && Flags(s) && Marked(s) && LogMatches(s) && Rejections(s)
  }

  lemma ExclusiveStep(s: Slot, step: Step)
    requires Exclusive(s) && Flags(s) && Enabled(s, step)
    ensures Exclusive(After(s, step))
  {
  }

  lemma LockFlagStep(s: Slot, step: Step)
    requires Exclusive(s) && LockFlag(s) && Enabled(s, step)
    ensures LockFlag(After(s, step))
  {
  }

  lemma ActiveFlagStep(s: Slot, step: Step)
    requires Exclusive(s) && ActiveFlag(s) && Enabled(s, step)
    ensures ActiveFlag(After(s, step))
  {
  }

  lemma FlagsStep(s: Slot, step: Step)
    requires Exclusive(s) && Flags(s) && Enabled(s, step)
    ensures Flags(After(s, step))
  {
    LockFlagStep(s, step);
    ActiveFlagStep(s, step);
  }

  lemma MarkedStep(s: Slot, step: Step)
    requires Exclusive(s) && Flags(s) && Marked(s) && Enabled(s, step)
    ensures Marked(After(s, step))
  {
  }

  lemma LogStep(s: Slot, step: Step)
    requires Exclusive(s) && LogMatches(s) && Enabled(s, step)
    ensures LogMatches(After(s, step))
  {
    var t := After(s, step);
    if t.log != s.log {
      PhaseExtends(s.log, t.log[|s.log|]);
    }
    PhaseStep(s, step);
  }

  /** Only starting and ending a call or the stop change what the guest is doing. */
  lemma PhaseStep(s: Slot, step: Step)
    requires Exclusive(s) && Enabled(s, step)
    ensures var t := After(s, step);
      Some(CurrentPhase(t)) == if t.log == s.log then Some(CurrentPhase(s)) else Advance(Some(CurrentPhase(s)), t.log[|s.log|])
  {
  }

  lemma RejectionsStep(s: Slot, step: Step)
    requires Exclusive(s) && Rejections(s) && Enabled(s, step)
    ensures Rejections(After(s, step))
  {
  }

  lemma InvStep(s: Slot, step: Step)
    requires Inv(s) && Enabled(s, step)
    ensures Inv(After(s, step))
  {
    ExclusiveStep(s, step);
    FlagsStep(s, step);
    MarkedStep(s, step);
    LogStep(s, step);
    RejectionsStep(s, step);
  }

  ghost predicate CanRun(s: Slot, run: seq<Step>)
    decreases |run|
  {
    run == [] || (Enabled(s, run[0]) && CanRun(After(s, run[0]), run[1..]))
  }

  ghost function Execute(s: Slot, run: seq<Step>): Slot
    requires CanRun(s, run)
    decreases |run|
  {
    if run == [] then s else Execute(After(s, run[0]), run[1..])
  }

  lemma {:induction false} InvRun(s: Slot, run: seq<Step>)
    requires Inv(s) && CanRun(s, run)
    ensures Inv(Execute(s, run))
    decreases |run|
  {
    if run != [] {
      InvStep(s, run[0]);
      InvRun(After(s, run[0]), run[1..]);
    }
  }

  // ----- what holds of every run

  /** Every guest call and the stop happen one after another, and the log says so. */
  lemma GuestUseIsSerial(run: seq<Step>, i: CallId, j: CallId)
    requires CanRun(INITIAL, run)
    ensures var s := Execute(INITIAL, run);
      && PhaseOf(s.log).Some?
      && (At(s, i, Running) && At(s, j, Running) ==> i == j)
      && (At(s, i, Running) ==> s.stop != InStop && s.stop != Stopped)
  {
    InvRun(INITIAL, run);
  }

  lemma {:induction false} SerialPrefix(log: seq<Event>, k: nat)
    requires PhaseOf(log).Some? && k <= |log|
    ensures PhaseOf(log[..k]).Some?
  {
    if k == |log| {
      assert log[..k] == log;
    } else {
      SerialPrefix(log[..|log| - 1], k);
      assert log[..|log| - 1][..k] == log[..k];
    }
  }

  lemma PhaseAt(log: seq<Event>, k: nat)
    requires PhaseOf(log).Some? && k < |log|
    ensures PhaseOf(log[..k + 1]) == Advance(PhaseOf(log[..k]), log[k]) && PhaseOf(log[..k + 1]).Some?
  {
    SerialPrefix(log, k + 1);
    assert log[..k + 1] == log[..k] + [log[k]];
    PhaseExtends(log[..k], log[k]);
  }

  /**
   In a serial log a started call is over before anything else happens, and a stop is
   followed by its own end and nothing more: it runs at most once, after every earlier
   call has returned, and no call starts after it.
   */
  lemma SerialLogMeans(log: seq<Event>, k: nat)
    requires PhaseOf(log).Some? && k < |log|
    ensures log[k].CallStart? && k + 1 < |log| ==> log[k + 1] == CallEnd(log[k].id)
    ensures log[k] == StopStart && k + 1 < |log| ==> log[k + 1] == StopEnd && k + 2 == |log|
    ensures log[k] == StopEnd ==> k + 1 == |log|
  {
    PhaseAt(log, k);
    if k + 1 < |log| {
      PhaseAt(log, k + 1);
      if k + 2 < |log| { PhaseAt(log, k + 2); }
    }
  }

  /** A call that has not passed its last look at `accepting`. */
  predicate Outside(s: Slot, i: CallId) {
    i in s.calls ==> s.calls[i].Entered? || s.calls[i].Holding? || s.calls[i].Armed? || s.calls[i] == Done(Rejected)
  }

  lemma OutsideStep(s: Slot, step: Step, i: CallId)
    requires !s.accepting && Outside(s, i) && Enabled(s, step)
    ensures !After(s, step).accepting && Outside(After(s, step), i)
    ensures s.log <= After(s, step).log
    ensures forall k :: |s.log| <= k < |After(s, step).log| ==> After(s, step).log[k] != CallStart(i)
  {
  }

  /**
   Once `stop` has claimed the instance, a call that has not passed its last look at `accepting` never gets into the guest.
   A call that has may still begin after the claim; `StopCancelsAdmittedCall` says how it ends.
   */
  lemma {:induction false} NoCallStartsAfterClaim(s: Slot, run: seq<Step>, i: CallId)
    requires !s.accepting && Outside(s, i) && CanRun(s, run)
    ensures Outside(Execute(s, run), i)
    ensures s.log <= Execute(s, run).log
    ensures forall k :: |s.log| <= k < |Execute(s, run).log| ==> Execute(s, run).log[k] != CallStart(i)
    decreases |run|
  {
    if run != [] {
      OutsideStep(s, run[0], i);
      hide Enabled, Outside;
      var t := After(s, run[0]);
      NoCallStartsAfterClaim(t, run[1..], i);
      assert forall k :: |s.log| <= k < |t.log| ==> Execute(t, run[1..]).log[k] == t.log[k];
    }
  }

  /** A call that was let through to the guest, and may have come back from it, with a set cancellation flag. */
  predicate CancelledCall(s: Slot, i: CallId) {
    && i in s.calls && i in s.cancelled
    && (s.calls[i] == Admitted || s.calls[i] == Running || s.calls[i] == Returned(Cancelled) || s.calls[i] == Cleared(Cancelled) || s.calls[i] == Done(Cancelled))
  }

  lemma CancelledStep(s: Slot, step: Step, i: CallId)
    requires CancelledCall(s, i) && Enabled(s, step)
    ensures CancelledCall(After(s, step), i)
  {
  }

  lemma {:induction false} CancelledRun(s: Slot, run: seq<Step>, i: CallId)
    requires CancelledCall(s, i) && CanRun(s, run)
    ensures CancelledCall(Execute(s, run), i)
    decreases |run|
  {
    if run != [] {
      CancelledStep(s, run[0], i);
      CancelledRun(After(s, run[0]), run[1..], i);
    }
  }

  /** A call that is in the guest, or about to begin, when `stop` has cancelled current work can only end as cancelled. */
  lemma StopCancelsAdmittedCall(before: seq<Step>, after: seq<Step>, i: CallId)
    requires CanRun(INITIAL, before) && CanRun(Execute(INITIAL, before), after)
    requires Execute(INITIAL, before).stop == Waiting
    requires At(Execute(INITIAL, before), i, Admitted) || At(Execute(INITIAL, before), i, Running)
    ensures CancelledCall(Execute(Execute(INITIAL, before), after), i)
  {
    InvRun(INITIAL, before);
    CancelledRun(Execute(INITIAL, before), after, i);
  }

  /** The step sets the call's cancellation flag: a cancellation of the active call, or the one of `stop`. */
  predicate Cancels(s: Slot, step: Step, i: CallId) {
    step == CancelCurrent(i) || (step == StopCancel && s.stop == Fetched(Some(i)))
  }

  ghost predicate CancelledIn(s: Slot, run: seq<Step>, i: CallId)
    requires CanRun(s, run)
    decreases |run|
  {
    run != [] && (Cancels(s, run[0], i) || CancelledIn(After(s, run[0]), run[1..], i))
  }

  lemma {:induction false} FlagIsSetByCancels(s: Slot, run: seq<Step>, i: CallId)
    requires CanRun(s, run)
    ensures i in Execute(s, run).cancelled <==> i in s.cancelled || CancelledIn(s, run, i)
    decreases |run|
  {
    if run != [] {
      FlagIsSetStep(s, run[0], i);
      hide Enabled, Cancels;
      FlagIsSetByCancels(After(s, run[0]), run[1..], i);
    }
  }

  lemma FlagIsSetStep(s: Slot, step: Step, i: CallId)
    requires Enabled(s, step)
    ensures i in After(s, step).cancelled <==> i in s.cancelled || Cancels(s, step, i)
  {
  }

  /** The call has come back from the guest with this outcome. */
  predicate CameBack(s: Slot, i: CallId, outcome: Outcome) {
    i in s.calls && (s.calls[i] == Returned(outcome) || s.calls[i] == Cleared(outcome) || s.calls[i] == Done(outcome))
  }

  lemma OutcomeStep(s: Slot, step: Step, i: CallId, outcome: Outcome)
    requires CameBack(s, i, outcome) && Enabled(s, step)
    ensures CameBack(After(s, step), i, outcome)
  {
  }

  lemma {:induction false} OutcomeStays(s: Slot, run: seq<Step>, i: CallId, outcome: Outcome)
    requires CameBack(s, i, outcome) && CanRun(s, run)
    ensures CameBack(Execute(s, run), i, outcome)
    decreases |run|
  {
    if run != [] {
      OutcomeStep(s, run[0], i, outcome);
      OutcomeStays(After(s, run[0]), run[1..], i, outcome);
    }
  }

  /** A call that comes back from the guest ends as cancelled exactly if it was cancelled before it came back. */
  lemma CallEndsAsItCameBack(before: seq<Step>, after: seq<Step>, i: CallId)
    requires CanRun(INITIAL, before) && Enabled(Execute(INITIAL, before), Return(i))
    requires CanRun(After(Execute(INITIAL, before), Return(i)), after)
    ensures var outcome := if CancelledIn(INITIAL, before, i) then Cancelled else Finished;
      CameBack(Execute(After(Execute(INITIAL, before), Return(i)), after), i, outcome)
  {
    FlagIsSetByCancels(INITIAL, before, i);
    OutcomeStays(After(Execute(INITIAL, before), Return(i)), after, i,
                 if CancelledIn(INITIAL, before, i) then Cancelled else Finished);
  }

  /** A call is rejected only after a stop has claimed the instance. */
  lemma RejectedMeansClaimed(run: seq<Step>, i: CallId)
    requires CanRun(INITIAL, run)
    ensures var s := Execute(INITIAL, run);
      (At(s, i, Done(Rejected)) ==> s.stop != NotStopped) && (CameBack(s, i, Rejected) ==> At(s, i, Done(Rejected)))
  {
    InvRun(INITIAL, run);
  }

  /** The step that moves the holder of the guest on. */
  function HolderStep(s: Slot, i: CallId): Step
    requires i in s.calls && OwnsGuest(s.calls[i])
  {
    match s.calls[i]
    case Holding => Arm(i)
    case Armed => Recheck(i)
    case Admitted => Begin(i)
    case Running => Return(i)
    case Returned(_) => Clear(i)
    case _ => PutBack(i)
  }

  predicate HolderCanMove(s: Slot) {
    s.guest.WithCall? && s.guest.id in s.calls && OwnsGuest(s.calls[s.guest.id]) && Enabled(s, HolderStep(s, s.guest.id))
  }

  function WayBack(i: CallId): seq<Step> {
    [Return(i)] + ([Clear(i)] + ([PutBack(i)] + []))
  }

  /** The rest of a call, once it waits for the slot. */
  function WholeCall(i: CallId): seq<Step> {
    [Take(i)] + ([Arm(i)] + ([Recheck(i)] + ([Begin(i)] + WayBack(i))))
  }

  lemma GuestComesBack(s: Slot, i: CallId)
    requires At(s, i, Running) && i !in s.cancelled && s.lockedBy.None?
    ensures CanRun(s, WayBack(i))
    ensures var t := Execute(s, WayBack(i));
      && At(t, i, Done(Finished)) && t.guest == InSlot && t.lockedBy.None? && t.active.None?
      && t.accepting == s.accepting && t.log == s.log + [CallEnd(i)]
  {
    var s1 := After(s, Return(i));
    var s2 := After(s1, Clear(i));
    Leads(s2, PutBack(i), []);
    Leads(s1, Clear(i), [PutBack(i)] + []);
    Leads(s, Return(i), [Clear(i)] + ([PutBack(i)] + []));
  }

  lemma TakeIsEnabled(s: Slot, i: CallId)
    requires Inv(s) && At(s, i, Entered) && s.accepting && s.guest == InSlot && s.lockedBy.None?
    ensures Enabled(s, Take(i))
  {
  }

  /** A call left alone, with no stop, gets the guest, finishes, and gives the guest back for the next. */
  lemma UndisturbedCallFinishes(s: Slot, i: CallId)
    requires Inv(s) && At(s, i, Entered) && s.accepting && s.guest == InSlot && s.lockedBy.None? && i !in s.cancelled
    ensures CanRun(s, WholeCall(i))
    ensures var t := Execute(s, WholeCall(i));
      && At(t, i, Done(Finished)) && t.guest == InSlot && t.lockedBy.None? && t.active.None? && t.accepting
      && t.log == s.log + [CallStart(i), CallEnd(i)]
  {
    GetsIn(s, i);
    hide CanRun, Execute, Inv, Enabled, After;
    var s1 := After(s, Take(i));
    var s2 := After(s1, Arm(i));
    var s3 := After(s2, Recheck(i));
    var s4 := After(s3, Begin(i));
    GuestComesBack(s4, i);
    Leads(s3, Begin(i), WayBack(i));
    Leads(s2, Recheck(i), [Begin(i)] + WayBack(i));
    Leads(s1, Arm(i), [Recheck(i)] + ([Begin(i)] + WayBack(i)));
    Leads(s, Take(i), [Arm(i)] + ([Recheck(i)] + ([Begin(i)] + WayBack(i))));
  }

  lemma GetsIn(s: Slot, i: CallId)
    requires Inv(s) && At(s, i, Entered) && s.accepting && s.guest == InSlot && s.lockedBy.None?
    ensures Enabled(s, Take(i)) && Enabled(After(s, Take(i)), Arm(i))
    ensures var s2 := After(After(s, Take(i)), Arm(i));
      && Enabled(s2, Recheck(i)) && Enabled(After(s2, Recheck(i)), Begin(i))
      && var s4 := After(After(s2, Recheck(i)), Begin(i));
      && At(s4, i, Running) && s4.lockedBy.None? && s4.accepting && s4.cancelled == s.cancelled
      && s4.log == s.log + [CallStart(i)]
  {
    TakeIsEnabled(s, i);
    hide Inv;
  }

  lemma Leads(s: Slot, step: Step, rest: seq<Step>)
    requires Enabled(s, step) && CanRun(After(s, step), rest)
    ensures CanRun(s, [step] + rest) && Execute(s, [step] + rest) == Execute(After(s, step), rest)
  {
    assert ([step] + rest)[1..] == rest;
  }

  /** A call is admitted exactly while the instance accepts calls; a waiting one is rejected once it does not. */
  lemma StopRejectsCalls(s: Slot, i: CallId)
    requires Inv(s)
    ensures i !in s.calls ==>
      Enabled(s, Enter(i)) && At(After(s, Enter(i)), i, if s.accepting then Entered else Done(Rejected))
    ensures At(s, i, Entered) && s.lockedBy.None? && !s.accepting ==>
      Enabled(s, Refuse(i)) && At(After(s, Refuse(i)), i, Done(Rejected))
    ensures At(s, i, Armed) && !s.accepting ==>
      var t := After(s, Recheck(i));
      Enabled(s, Recheck(i)) && At(t, i, Done(Rejected)) && t.guest == InSlot && t.lockedBy.None? && t.active.None?
  {
  }

  /** A call in the guest can be cancelled at any time, and then ends as cancelled. */
  lemma RunningCallCanBeCancelled(s: Slot, i: CallId)
    requires Inv(s) && (At(s, i, Admitted) || At(s, i, Running))
    ensures Enabled(s, CancelCurrent(i)) && CancelledCall(After(s, CancelCurrent(i)), i)
  {
  }

  /** Nothing keeps a stop from claiming the instance and cancelling the call that is active then. */
  lemma StopComesToWait(s: Slot)
    requires Inv(s) && s.accepting
    ensures CanRun(s, [StopClaim] + ([StopFetch] + ([StopCancel] + [])))
    ensures Execute(s, [StopClaim] + ([StopFetch] + ([StopCancel] + []))) ==
      s.(accepting := false, stop := Waiting,
         cancelled := if s.active.Some? then s.cancelled + {s.active.value} else s.cancelled)
  {
    var s1 := After(s, StopClaim);
    var s2 := After(s1, StopFetch);
    Leads(s2, StopCancel, []);
    Leads(s1, StopFetch, [StopCancel] + []);
    Leads(s, StopClaim, [StopFetch] + ([StopCancel] + []));
  }

  /** With the guest back in its slot the stop runs, and nobody gets the guest any more. */
  lemma StopComesToAnEnd(s: Slot)
    requires Inv(s) && s.stop == Waiting && s.guest == InSlot && s.lockedBy.None?
    ensures CanRun(s, [StopTake] + ([StopReturn] + []))
    ensures Execute(s, [StopTake] + ([StopReturn] + [])) ==
      s.(guest := Dropped, stopped := true, stop := Stopped, log := s.log + [StopStart, StopEnd])
  {
    var s1 := After(s, StopTake);
    Leads(s1, StopReturn, []);
    Leads(s, StopTake, [StopReturn] + []);
    assert s.log + [StopStart] + [StopEnd] == s.log + [StopStart, StopEnd];
  }

  /** Nobody waits for a guest that is not coming back: whoever has it can always move on. */
  lemma WaitersAreServed(run: seq<Step>, i: CallId)
    requires CanRun(INITIAL, run)
    ensures var s := Execute(INITIAL, run);
      && (s.stop == Waiting ==> Enabled(s, StopTake) || HolderCanMove(s))
      && (At(s, i, Entered) ==> Enabled(s, Take(i)) || Enabled(s, Refuse(i)) || HolderCanMove(s))
  {
    InvRun(INITIAL, run);
    var s := Execute(INITIAL, run);
    if s.guest.WithCall? {
      HolderMoves(s);
    }
    hide HolderCanMove;
    if s.lockedBy.Some? {
      assert OwnsGuest(s.calls[s.lockedBy.value]);
    }
  }

  lemma HolderMoves(s: Slot)
    requires Exclusive(s) && Flags(s) && s.guest.WithCall?
    ensures HolderCanMove(s)
  {
    if s.lockedBy.Some? {
      assert OwnsGuest(s.calls[s.lockedBy.value]);
    }
  }

  // ----- the instance itself

  /** `WasmPluginInstance`; `lockedBy`, `calls`, `stop` and `log` record where its threads are. */
  class Instance {
    var accepting: bool
    var guest: Place
    var stopped: bool
    var active: Option<CallId>
    var cancelled: set<CallId>
    ghost var lockedBy: Option<CallId>
    ghost var calls: map<CallId, Pc>
    ghost var stop: StopPc
    ghost var log: seq<Event>

    ghost function State(): Slot
      reads this
    {
      Slot(accepting, guest, stopped, lockedBy, active, cancelled, calls, stop, log)
    }

    constructor ()
      ensures State() == INITIAL
    {
      accepting, guest, stopped, active, cancelled := true, InSlot, false, None, {};
      lockedBy, calls, stop, log := None, map[], NotStopped, [];
    }

    method InvokeEnter(i: CallId) returns (admitted: bool)
      requires Enabled(State(), Enter(i))
      modifies this
      ensures State() == After(old(State()), Enter(i)) && (admitted <==> At(State(), i, Entered))
    {
      admitted := accepting;
      calls := calls[i := if admitted then Entered else Done(Rejected)];
    }

    /** The critical section that ends the wait: the guest is taken, or the call is refused. */
    method InvokeTake(i: CallId) returns (taken: bool)
      requires Enabled(State(), Take(i)) || Enabled(State(), Refuse(i))
      modifies this
      ensures taken <==> old(Enabled(State(), Take(i)))
      ensures State() == After(old(State()), if taken then Take(i) else Refuse(i))
    {
      if !accepting || stopped {
        calls := calls[i := Done(Rejected)];
        return false;
      }
      guest, lockedBy, calls := WithCall(i), Some(i), calls[i := Holding];
      taken := true;
    }

    method InvokeArm(i: CallId)
      requires Enabled(State(), Arm(i))
      modifies this
      ensures State() == After(old(State()), Arm(i))
    {
      active, calls := Some(i), calls[i := Armed];
    }

    method InvokeRecheck(i: CallId) returns (admitted: bool)
      requires Enabled(State(), Recheck(i))
      modifies this
      ensures State() == After(old(State()), Recheck(i)) && (admitted <==> At(State(), i, Admitted))
    {
      admitted := accepting;
      if !admitted {
        active, guest, calls := None, InSlot, calls[i := Done(Rejected)];
      } else {
        calls := calls[i := Admitted];
      }
      lockedBy := None;
    }

    /** `call_guest` begins, without the lock. */
    ghost method InvokeBegin(i: CallId)
      requires Enabled(State(), Begin(i))
      modifies this
      ensures State() == After(old(State()), Begin(i))
    {
      calls, log := calls[i := Running], log + [CallStart(i)];
    }

    method InvokeReturn(i: CallId) returns (outcome: Outcome)
      requires Enabled(State(), Return(i))
      modifies this
      ensures State() == After(old(State()), Return(i)) && At(State(), i, Returned(outcome))
    {
      outcome := if i in cancelled then Cancelled else Finished;
      calls, log := calls[i := Returned(outcome)], log + [CallEnd(i)];
    }

    method InvokeClear(i: CallId)
      requires Enabled(State(), Clear(i))
      modifies this
      ensures State() == After(old(State()), Clear(i))
    {
      active, calls := None, calls[i := Cleared(calls[i].outcome)];
    }

    method InvokePutBack(i: CallId)
      requires Enabled(State(), PutBack(i))
      modifies this
      ensures State() == After(old(State()), PutBack(i))
    {
      guest, calls := InSlot, calls[i := Done(calls[i].outcome)];
    }

    /** The `accepting` exchange: `stop` returns at once when it loses. */
    method Claim() returns (won: bool)
      requires Inv(State())
      modifies this
      ensures won <==> old(Enabled(State(), StopClaim))
      ensures State() == if won then After(old(State()), StopClaim) else old(State())
    {
      won := accepting;
      if won {
        accepting, stop := false, Claimed;
      }
    }

    method FetchActive() returns (target: Option<CallId>)
      requires Enabled(State(), StopFetch)
      modifies this
      ensures State() == After(old(State()), StopFetch) && target == active
    {
      target, stop := active, Fetched(active);
    }

    method CancelFetched(target: Option<CallId>)
      requires stop == Fetched(target)
      modifies this
      ensures State() == After(old(State()), StopCancel)
    {
      if target.Some? {
        cancelled := cancelled + {target.value};
      }
      stop := Waiting;
    }

    method TakeForStop()
      requires Enabled(State(), StopTake)
      modifies this
      ensures State() == After(old(State()), StopTake)
    {
      guest, stopped := WithStop, true;
      stop, log := InStop, log + [StopStart];
    }

    method FinishStop()
      requires Enabled(State(), StopReturn)
      modifies this
      ensures State() == After(old(State()), StopReturn)
    {
      guest, stop, log := Dropped, Stopped, log + [StopEnd];
    }

    /** `cancel_current`: of all who try to cancel the active call, exactly the first one wins. */
    method CancelActive() returns (won: bool)
      modifies this
      ensures won <==> old(active).Some? && old(active).value !in old(cancelled)
      ensures State() == if old(active).Some? then After(old(State()), CancelCurrent(old(active).value)) else old(State())
    {
      if active.None? {
        return false;
      }
      won := active.value !in cancelled;
      cancelled := cancelled + {active.value};
    }
  }
}
