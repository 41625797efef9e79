/**
 The managed worker on a host registry that changes: dependency snapshots are taken under the host's lock
 (crates/tessivum-core/src/service.rs) and delivered to the worker's control after the lock has been released.
 */
module WorkerOnHost {
  import opened ManagedWorker
  import opened NativePlugin
  import opened ServiceRegistry
  import opened ServiceRuns
  import opened Wrappers

  /** `ResolvedDependency`. */
  datatype Dependency = Dependency(slot: Slot, required: bool)

  function Requirements(ds: seq<Dependency>): Dependencies {
    seq(|ds|, k requires 0 <= k < |ds| => ds[k].required)
  }

  /** `dependency_snapshot_from`. */
  function SnapshotOf(host: Providers, ds: seq<Dependency>): (r: Snapshot)
    ensures |r.services| == |ds|
    ensures r.ready <==> forall k :: 0 <= k < |ds| && ds[k].required ==> r.services[k].Some?
  {
    Snapshot(
      forall k :: 0 <= k < |ds| && ds[k].required ==> ds[k].slot in host,
      seq(|ds|, k requires 0 <= k < |ds| => GenerationAt(host, ds[k].slot)))
  }

  /**
   `taken` are all snapshots there have been, oldest first, beginning with the one the control is created with;
   `inflight` tells which of them are still to be delivered.
   */
  datatype Situation = Situation(system: System, taken: seq<Snapshot>, inflight: seq<nat>, worker: Managed)

  ghost function Initially(ds: seq<Dependency>): Situation {
    var worker := NewManaged(Requirements(ds));
    Situation(ServiceRuns.INITIAL, [worker.control.snapshot], [], worker)
  }

  /** A host step by anyone, a snapshot taken, the delivery of one of those in flight, or anything else at the worker. */
  datatype Happening =
    | OnHost(step: ServiceRuns.Step)
    | Observe
    | Deliver(k: nat)
    | AtWorker(event: ManagedWorker.Event)

  ghost function Now(s: Situation, ds: seq<Dependency>): Snapshot {
    SnapshotOf(s.system.host, ds)
  }

  ghost function Then(s: Situation, e: Happening, ds: seq<Dependency>): Situation {
    match e
    case OnHost(step) => if Enabled(s.system, step) then s.(system := After(s.system, step)) else s
    case Observe => s.(taken := s.taken + [Now(s, ds)], inflight := s.inflight + [|s.taken|])
    case Deliver(k) =>
      if k < |s.inflight| && s.inflight[k] < |s.taken| then
        s.(inflight := s.inflight[..k] + s.inflight[k + 1..],
           worker := Next(s.worker, Notification(s.taken[s.inflight[k]]), Requirements(ds)))
      else s
    case AtWorker(w) => if w.Notification? then s else s.(worker := Next(s.worker, w, Requirements(ds)))
  }

  ghost function RunOf(es: seq<Happening>, ds: seq<Dependency>): Situation
    decreases |es|
  {
    if es == [] then Initially(ds) else Then(RunOf(es[..|es| - 1], ds), es[|es| - 1], ds)
  }

  /** No snapshot overtakes an older one. */
  ghost predicate InOrder(es: seq<Happening>) {
    forall e <- es :: e.Deliver? ==> e.k == 0
  }

  // ----- a generation that was replaced stays away, so snapshots never return to an older state

  function GenerationIn(s: Snapshot, k: nat): Option<Generation> {
    if k < |s.services| then s.services[k] else None
  }

  /** What holds of a dependency at two moments holds in between. */
  ghost predicate Convex(line: seq<Snapshot>) {
    forall a: nat, b: nat, c: nat, k: nat ::
      a <= b <= c < |line| && GenerationIn(line[a], k) == GenerationIn(line[c], k) && GenerationIn(line[a], k).Some? ==>
        GenerationIn(line[b], k) == GenerationIn(line[a], k)
  }

  /** Every snapshot shows providers that had entered the host, and lists all dependencies but for the first one. */
  ghost predicate Witnessed(s: Situation, ds: seq<Dependency>) {
    && (forall i: nat, k: nat :: i < |s.taken| && GenerationIn(s.taken[i], k).Some? ==>
          k < |ds| && HasEntered(s.system, GenerationIn(s.taken[i], k).value))
    && (forall i :: 0 < i < |s.taken| ==> |s.taken[i].services| == |ds|)
    && (forall i, k :: 0 <= i < |s.taken| && s.taken[i].ready && 0 <= k < |ds| && ds[k].required ==>
          GenerationIn(s.taken[i], k).Some?)
  }

  ghost function Line(s: Situation, ds: seq<Dependency>): seq<Snapshot> {
    s.taken + [Now(s, ds)]
  }

  ghost predicate Historic(s: Situation, ds: seq<Dependency>) {
    ServiceRuns.Inv(s.system) && s.taken != [] && Witnessed(s, ds) && Convex(Line(s, ds))
  }

  lemma NowIsWitnessed(s: Situation, ds: seq<Dependency>, k: nat)
    requires ServiceRuns.Inv(s.system) && GenerationIn(Now(s, ds), k).Some?
    ensures k < |ds| && HasEntered(s.system, GenerationIn(Now(s, ds), k).value)
  {
    assert HostOwnedAt(s.system, ds[k].slot);
  }

  lemma ConvexStutters(line: seq<Snapshot>)
    requires line != [] && Convex(line)
    ensures Convex(line + [line[|line| - 1]])
  {
    var n := |line| - 1;
    var more := line + [line[n]];
    forall a: nat, b: nat, c: nat, k: nat | a <= b <= c < |more|
      && GenerationIn(more[a], k) == GenerationIn(more[c], k) && GenerationIn(more[a], k).Some?
      ensures GenerationIn(more[b], k) == GenerationIn(more[a], k)
    {
      var a', b', c' := if a > n then n else a, if b > n then n else b, if c > n then n else c;
      assert more[a] == line[a'] && more[b] == line[b'] && more[c] == line[c'];
    }
  }

  lemma ObserveIsHistoric(s: Situation, ds: seq<Dependency>)
    requires Historic(s, ds)
    ensures Historic(Then(s, Observe, ds), ds)
  {
    var t := Then(s, Observe, ds);
    hide Convex, ServiceRuns.Inv, HasEntered;
    ConvexStutters(Line(s, ds));
    assert Line(t, ds) == Line(s, ds) + [Now(s, ds)];
    forall i: nat, k: nat | i < |t.taken| && GenerationIn(t.taken[i], k).Some?
      ensures k < |ds| && HasEntered(t.system, GenerationIn(t.taken[i], k).value)
    {
      if i == |s.taken| { NowIsWitnessed(s, ds, k); }
    }
  }

  /** A host step shows no generation again that an earlier snapshot showed and the host has lost. */
  lemma StepShowsNothingOld(s: Situation, step: ServiceRuns.Step, ds: seq<Dependency>, i: nat, k: nat)
    requires Historic(s, ds) && Enabled(s.system, step) && i < |s.taken|
    requires GenerationIn(s.taken[i], k).Some?
    requires GenerationIn(SnapshotOf(After(s.system, step).host, ds), k) == GenerationIn(s.taken[i], k)
    ensures GenerationIn(Now(s, ds), k) == GenerationIn(s.taken[i], k)
  {
    hide After, Convex, ServiceRuns.Inv;
    var g := GenerationIn(s.taken[i], k).value;
    assert k < |ds| && HasEntered(s.system, g);
    if !Current(s.system, ds[k].slot, g) {
      StaleStep(s.system, step, ds[k].slot, g);
    }
  }

  lemma StaysEntered(s: System, step: ServiceRuns.Step, g: Generation)
    requires Enabled(s, step) && HasEntered(s, g)
    ensures HasEntered(After(s, step), g)
  {
    hide After;
    var slot :| Arrival(slot, g) in s.entered;
    EnteredStep(s, step, Arrival(slot, g));
  }

  lemma HostStepIsHistoric(s: Situation, step: ServiceRuns.Step, ds: seq<Dependency>)
    requires Historic(s, ds) && Enabled(s.system, step)
    ensures Historic(Then(s, OnHost(step), ds), ds)
  {
    var t := Then(s, OnHost(step), ds);
    InvStep(s.system, step);
    hide After, ServiceRuns.Inv, HasEntered, SnapshotOf;
    forall i: nat, k: nat | i < |t.taken| && GenerationIn(t.taken[i], k).Some?
      ensures k < |ds| && HasEntered(t.system, GenerationIn(t.taken[i], k).value)
    {
      StaysEntered(s.system, step, GenerationIn(t.taken[i], k).value);
    }
    var old', new', n := Line(s, ds), Line(t, ds), |s.taken|;
    forall a: nat, b: nat, c: nat, k: nat | a <= b <= c < |new'|
      && GenerationIn(new'[a], k) == GenerationIn(new'[c], k) && GenerationIn(new'[a], k).Some?
      ensures GenerationIn(new'[b], k) == GenerationIn(new'[a], k)
    {
      if b < n {
        assert new'[a] == old'[a] && new'[b] == old'[b];
        if c == n {
          StepShowsNothingOld(s, step, ds, a, k);
          assert old'[n] == Now(s, ds);
        } else {
          assert new'[c] == old'[c];
        }
      }
    }
  }

  lemma HistoricStep(s: Situation, e: Happening, ds: seq<Dependency>)
    requires Historic(s, ds)
    ensures Historic(Then(s, e, ds), ds)
    ensures Then(s, e, ds).taken[0] == s.taken[0]
  {
    match e
    case OnHost(step) => if Enabled(s.system, step) { HostStepIsHistoric(s, step, ds); }
    case Observe => ObserveIsHistoric(s, ds);
    case Deliver(_) => assert Line(Then(s, e, ds), ds) == Line(s, ds);
    case AtWorker(_) => assert Line(Then(s, e, ds), ds) == Line(s, ds);
  }

  // ----- delivery in order

  /** Where in the history the snapshots are: the control's, the one last taken, the recorded one, the one in use. */
  datatype Marks = Marks(shown: nat, looked: nat, recorded: nat, used: nat)

  /** The control shows one of the snapshots, and exactly the later ones are in flight, in order. */
  ghost predicate Queued(s: Situation, m: Marks) {
    && m.shown < |s.taken| && s.worker.control.snapshot == s.taken[m.shown]
    && s.inflight == seq(|s.taken| - 1 - m.shown, k requires 0 <= k => m.shown + 1 + k)
  }

  /** The worker's snapshots, older ones to the left. */
  ghost predicate Recorded(taken: seq<Snapshot>, w: Managed, required: Dependencies, m: Marks) {
    && m.shown < |taken|
    && (w.seen.Some? ==> m.looked <= m.shown && w.seen.value == taken[m.looked])
    && (w.active.Some? ==>
          && w.seen.Some? && m.recorded <= m.looked && taken[m.recorded].ready
          && w.active == Some(Required(taken[m.recorded], required)))
    && (w.active.Some? && w.missed ==>
          && m.recorded <= m.used <= m.looked && taken[m.used].ready
          && w.running == Required(taken[m.used], required))
  }

  ghost predicate Placed(s: Situation, ds: seq<Dependency>, m: Marks) {
    Queued(s, m) && Recorded(s.taken, s.worker, Requirements(ds), m)
  }

  function WorkMarks(w: Managed, o: Outcome, m: Marks): Marks {
    match w.pc
    case Parked => if HasWork(w.control) && !w.control.stopping then m.(looked := m.shown) else m
    case StartingUp(_) => if o.ok then m.(recorded := m.looked, used := m.looked) else m
    case Updating(_) =>
      if o.ok then m.(recorded := m.looked, used := m.looked) else if o.installed then m.(used := m.looked) else m
    case _ => m
  }

  function MarksAfter(s: Situation, e: Happening, m: Marks): Marks {
    match e
    case Deliver(k) => if k < |s.inflight| && s.inflight[k] < |s.taken| then m.(shown := s.inflight[k]) else m
    case AtWorker(Work(o)) => if Plausible(s.worker, o) then WorkMarks(s.worker, o, m) else m
    case _ => m
  }

  lemma TakingMoves(w: Managed, o: Outcome, required: Dependencies)
    requires w.pc.Parked?
    ensures var v := WorkStep(w, o, required);
      && v.control.snapshot == w.control.snapshot && v.active == w.active && v.running == w.running && v.missed == w.missed
      && v.seen == if HasWork(w.control) && !w.control.stopping then Some(w.control.snapshot) else w.seen
  {
    hide Required;
  }

  lemma StartingMoves(w: Managed, o: Outcome, required: Dependencies)
    requires (w.pc.StartingUp? || w.pc.Updating?) && w.seen == InHand(w.pc)
    ensures var v := WorkStep(w, o, required);
      && v.control.snapshot == w.control.snapshot && v.seen == w.seen
      && (o.ok ==> v.active == Some(Required(w.seen.value, required)) && !v.missed)
      && (!o.ok ==> v.active == w.active)
      && (!o.ok && w.pc.Updating? && o.installed ==> v.missed && v.running == Required(w.seen.value, required))
      && (!o.ok && !(w.pc.Updating? && o.installed) ==> v.missed == w.missed && v.running == w.running)
  {
    hide Required;
  }

  /** The same record, and the same snapshots. */
  predicate SameRecord(w: Managed, v: Managed) {
    && v.control.snapshot == w.control.snapshot && v.seen == w.seen
    && v.missed == w.missed && v.running == w.running && v.active == w.active
  }

  lemma ParkingMovesNothing(w: Managed, phase: Phase)
    ensures SameRecord(w, Park(w, phase))
  {
  }

  lemma ChoosingMovesNothing(w: Managed, o: Outcome, required: Dependencies)
    requires w.pc.Choosing?
    ensures SameRecord(w, WorkStep(w, o, required))
  {
    hide Required, Park;
    ParkingMovesNothing(w, Broken);
    ParkingMovesNothing(w, Running);
  }

  lemma LookingMovesNothing(w: Managed, o: Outcome, required: Dependencies)
    requires w.pc.Took? || w.pc.SuspendingRestart?
    ensures SameRecord(w, WorkStep(w, o, required))
  {
    hide Required;
  }

  /** Every other step leaves the record alone, or clears it. */
  lemma OthersMoveNothing(w: Managed, o: Outcome, required: Dependencies)
    requires !w.pc.Parked? && !w.pc.StartingUp? && !w.pc.Updating?
    ensures var v := WorkStep(w, o, required);
      && v.control.snapshot == w.control.snapshot && v.seen == w.seen
      && v.missed == w.missed && v.running == w.running && (v.active == w.active || v.active.None?)
  {
    hide Required;
    if w.pc.Choosing? {
      hide WorkStep;
      ChoosingMovesNothing(w, o, required);
    } else if w.pc.Took? || w.pc.SuspendingRestart? {
      hide WorkStep;
      LookingMovesNothing(w, o, required);
    }
  }

  lemma WorkRecorded(taken: seq<Snapshot>, w: Managed, o: Outcome, required: Dependencies, m: Marks)
    requires Recorded(taken, w, required, m) && w.control.snapshot == taken[m.shown] && Plausible(w, o)
    requires InHand(w.pc).Some? ==> w.seen == InHand(w.pc) && (w.pc.Took? || w.seen.value.ready)
    ensures Recorded(taken, WorkStep(w, o, required), required, WorkMarks(w, o, m))
    ensures WorkStep(w, o, required).control.snapshot == w.control.snapshot
  {
    hide Required, WorkStep, Plausible, HasWork;
    if w.pc.Parked? {
      TakingMoves(w, o, required);
    } else if w.pc.StartingUp? || w.pc.Updating? {
      StartingMoves(w, o, required);
    } else {
      OthersMoveNothing(w, o, required);
    }
  }

  lemma WorkIsInHand(w: Managed, required: Dependencies)
    requires ManagedWorker.Inv(w, required)
    ensures InHand(w.pc).Some? ==> w.seen == InHand(w.pc) && (w.pc.Took? || w.seen.value.ready)
  {
    hide Required;
  }

  lemma NoticeRecorded(taken: seq<Snapshot>, w: Managed, e: ManagedWorker.Event, required: Dependencies, m: Marks, shown: nat)
    requires Recorded(taken, w, required, m) && !e.Work? && m.shown <= shown < |taken|
    ensures Recorded(taken, Next(w, e, required), required, m.(shown := shown))
    ensures !e.Notification? ==> Next(w, e, required).control.snapshot == w.control.snapshot
  {
    hide Required;
  }

  lemma DeliveredInOrder(s: Situation, ds: seq<Dependency>, m: Marks)
    requires Placed(s, ds, m) && s.inflight != []
    ensures s.inflight[0] == m.shown + 1 < |s.taken|
    ensures Placed(Then(s, Deliver(0), ds), ds, m.(shown := m.shown + 1))
  {
    hide Required, Recorded, SnapshotOf;
    NoticeRecorded(s.taken, s.worker, Notification(s.taken[m.shown + 1]), Requirements(ds), m, m.shown + 1);
    assert s.inflight[..0] + s.inflight[1..] == s.inflight[1..];
  }

  lemma PlacedStep(s: Situation, e: Happening, ds: seq<Dependency>, m: Marks)
    requires Placed(s, ds, m) && ManagedWorker.Inv(s.worker, Requirements(ds)) && (e.Deliver? ==> e.k == 0)
    ensures Placed(Then(s, e, ds), ds, MarksAfter(s, e, m))
  {
    hide Required, After, SnapshotOf, Enabled, WorkStep, ManagedWorker.Inv;
    match e
    case OnHost(_) =>
    case Observe => ObservedInOrder(s, ds, m);
    case Deliver(_) => if s.inflight != [] { DeliveredInOrder(s, ds, m); }
    case AtWorker(w) =>
      match w
      case Work(o) =>
        if Plausible(s.worker, o) {
          WorkIsInHand(s.worker, Requirements(ds));
          WorkRecorded(s.taken, s.worker, o, Requirements(ds), m);
        }
      case _ => NoticeRecorded(s.taken, s.worker, w, Requirements(ds), m, m.shown);
  }

  lemma ObservedInOrder(s: Situation, ds: seq<Dependency>, m: Marks)
    requires Placed(s, ds, m)
    ensures Placed(Then(s, Observe, ds), ds, m)
  {
    hide Required, SnapshotOf;
  }

  lemma AppendsAgree<T>(a: seq<T>, b: seq<T>, x: T, y: T)
    requires |a| == |b|
    ensures a + [x] == b + [y] <==> a == b && x == y
  {
    if a + [x] == b + [y] {
      assert (a + [x])[..|a|] == a && (b + [y])[..|b|] == b;
      assert (a + [x])[|a|] == x && (b + [y])[|b|] == y;
    }
  }

  lemma {:induction false} RequiredPointwise(s: Snapshot, t: Snapshot, required: Dependencies, n: nat)
    requires n <= |required| && n <= |s.services| && n <= |t.services|
    ensures |RequiredUpTo(s, required, n)| == |RequiredUpTo(t, required, n)|
    ensures RequiredUpTo(s, required, n) == RequiredUpTo(t, required, n)
        <==> forall k :: 0 <= k < n && required[k] ==> s.services[k] == t.services[k]
  {
    if n > 0 {
      RequiredPointwise(s, t, required, n - 1);
      var a, b := RequiredUpTo(s, required, n - 1), RequiredUpTo(t, required, n - 1);
      if required[n - 1] {
        AppendsAgree(a, b, s.services[n - 1], t.services[n - 1]);
      } else {
        assert a + [] == a && b + [] == b;
      }
    }
  }

  lemma {:induction false} NothingRequired(s: Snapshot, required: Dependencies, n: nat)
    requires n <= |required| && n <= |s.services| && forall k :: 0 <= k < n ==> !required[k]
    ensures RequiredUpTo(s, required, n) == []
  {
    if n > 0 { NothingRequired(s, required, n - 1); }
  }

  /** Between two ready snapshots that require the same generations, every ready snapshot requires them too. */
  lemma SameInBetween(s: Situation, ds: seq<Dependency>, a: nat, b: nat, c: nat)
    requires Historic(s, ds) && a <= b <= c < |s.taken|
    requires s.taken[a].ready && s.taken[b].ready && s.taken[c].ready
    requires Required(s.taken[a], Requirements(ds)) == Required(s.taken[c], Requirements(ds))
    requires |s.taken[0].services| == 0
    ensures Required(s.taken[b], Requirements(ds)) == Required(s.taken[a], Requirements(ds))
  {
    hide ServiceRuns.Inv, HasEntered, SnapshotOf;
    var required, n := Requirements(ds), |ds|;
    if k :| 0 <= k < n && ds[k].required {
      assert GenerationIn(s.taken[0], k).None?;
      assert a != 0;
      RequiredPointwise(s.taken[a], s.taken[c], required, n);
      RequiredPointwise(s.taken[b], s.taken[a], required, n);
      forall x | 0 <= x < n && required[x] ensures s.taken[b].services[x] == s.taken[a].services[x] {
        LineKeeps(s, ds, a, b, c, x);
      }
    } else {
      NothingRequired(s.taken[a], required, if |s.taken[a].services| < n then |s.taken[a].services| else n);
      NothingRequired(s.taken[b], required, if |s.taken[b].services| < n then |s.taken[b].services| else n);
    }
  }

  lemma LineKeeps(s: Situation, ds: seq<Dependency>, a: nat, b: nat, c: nat, k: nat)
    requires Historic(s, ds) && a <= b <= c < |s.taken|
    requires GenerationIn(s.taken[a], k) == GenerationIn(s.taken[c], k) && GenerationIn(s.taken[a], k).Some?
    ensures GenerationIn(s.taken[b], k) == GenerationIn(s.taken[a], k)
  {
    hide ServiceRuns.Inv, HasEntered, SnapshotOf;
    var line := Line(s, ds);
    assert line[a] == s.taken[a] && line[b] == s.taken[b] && line[c] == s.taken[c];
  }

  /** A worker that shows it is active, with an active plugin, has not missed the update to that plugin. */
  ghost predicate Honest(w: Managed) {
    w.control.phase == Running && w.fiber == Active ==> !w.missed
  }

  ghost predicate OrderedInv(s: Situation, ds: seq<Dependency>, m: Marks) {
    && Historic(s, ds) && |s.taken[0].services| == 0
    && ManagedWorker.Inv(s.worker, Requirements(ds))
    && Placed(s, ds, m) && Honest(s.worker)
  }

  /** A missed update is not taken for a running plugin: the recorded generations have been replaced for good. */
  lemma MissedIsNoticed(s: Situation, ds: seq<Dependency>, m: Marks)
    requires OrderedInv(s, ds, m) && s.worker.pc.Choosing? && s.worker.fiber == Active && s.worker.missed
    ensures s.worker.active != Some(Required(s.worker.pc.snapshot, Requirements(ds)))
  {
    hide ServiceRuns.Inv, HasEntered, SnapshotOf, Convex, Required;
    if s.worker.active == Some(Required(s.worker.pc.snapshot, Requirements(ds))) {
      SameInBetween(s, ds, m.recorded, m.used, m.looked);
    }
  }

  lemma HonestWork(w: Managed, o: Outcome, required: Dependencies)
    requires ManagedWorker.Inv(w, required) && Honest(w) && Plausible(w, o)
    requires w.pc.Choosing? && w.fiber == Active && w.missed ==> w.active != Some(Required(w.pc.snapshot, required))
    ensures Honest(WorkStep(w, o, required))
  {
    hide Required, Follows, Rests, Awaited;
  }

  lemma HonestStep(s: Situation, e: Happening, ds: seq<Dependency>, m: Marks)
    requires OrderedInv(s, ds, m)
    ensures Honest(Then(s, e, ds).worker)
  {
    hide ServiceRuns.Inv, SnapshotOf, Convex, Required, WorkStep, After, Enabled, ManagedWorker.Inv, Historic, Placed;
    match e
    case AtWorker(w) =>
      if w.Work? && Plausible(s.worker, w.outcome) {
        if s.worker.pc.Choosing? && s.worker.fiber == Active && s.worker.missed { MissedIsNoticed(s, ds, m); }
        HonestWork(s.worker, w.outcome, Requirements(ds));
      }
    case _ =>
  }

  lemma OrderedStep(s: Situation, e: Happening, ds: seq<Dependency>, m: Marks)
    requires OrderedInv(s, ds, m) && (e.Deliver? ==> e.k == 0)
    ensures OrderedInv(Then(s, e, ds), ds, MarksAfter(s, e, m))
  {
    HistoricStep(s, e, ds);
    PlacedStep(s, e, ds, m);
    HonestStep(s, e, ds, m);
    hide Historic, Placed, Honest, Next, Required, After, Enabled, SnapshotOf, ManagedWorker.Inv;
    match e
    case Deliver(k) =>
      if k < |s.inflight| && s.inflight[k] < |s.taken| {
        ManagedWorker.StepKeeps(s.worker, Notification(s.taken[s.inflight[k]]), Requirements(ds));
      }
    case AtWorker(w) => ManagedWorker.StepKeeps(s.worker, w, Requirements(ds));
    case _ =>
  }

  lemma InitiallyOrdered(ds: seq<Dependency>)
    ensures OrderedInv(Initially(ds), ds, Marks(0, 0, 0, 0))
  {
    var s, required := Initially(ds), Requirements(ds);
    InitiallyKept(required);
    assert ServiceRuns.Inv(s.system);
    assert forall k :: 0 <= k < |ds| ==> required[k] == ds[k].required;
    if s.taken[0].ready {
      forall k | 0 <= k < |ds| ensures !ds[k].required {
        assert required[k] in required;
      }
    }
  }

  lemma {:induction false} OrderedRun(es: seq<Happening>, ds: seq<Dependency>) returns (m: Marks)
    requires InOrder(es)
    ensures OrderedInv(RunOf(es, ds), ds, m)
    decreases |es|
  {
    hide OrderedInv, Then;
    if es == [] {
      InitiallyOrdered(ds);
      m := Marks(0, 0, 0, 0);
    } else {
      var n := |es| - 1;
      assert forall e <- es[..n] :: e in es;
      var before := OrderedRun(es[..n], ds);
      assert es[n] in es;
      OrderedStep(RunOf(es[..n], ds), es[n], ds, before);
      m := MarksAfter(RunOf(es[..n], ds), es[n], before);
    }
  }

  /**
   As long as no snapshot overtakes an older one, a worker that shows it is active, with nothing new to look at, has an
   active plugin started for exactly the providers of the snapshot the control shows. Once every change of the host has
   been observed and delivered, these are the host's current providers.
   */
  lemma WorkerFollowsTheHost(es: seq<Happening>, ds: seq<Dependency>)
    requires InOrder(es)
    ensures var s := RunOf(es, ds);
      var w, shown := s.worker, s.worker.control.snapshot;
      && s.taken != []
      && (w.control.phase == Running && !w.control.dirty && !w.control.stopping ==>
            && shown.ready && w.active == Some(Required(shown, Requirements(ds)))
            && (w.fiber == Active ==> w.running == Required(shown, Requirements(ds))))
      && (s.inflight == [] && s.taken[|s.taken| - 1] == Now(s, ds) ==> shown == Now(s, ds))
  {
    hide Required, Convex, ServiceRuns.Inv, SnapshotOf, Now;
    var _ := OrderedRun(es, ds);
  }

  // ----- and where it ends

  lemma RunThen(es: seq<Happening>, e: Happening, ds: seq<Dependency>)
    ensures RunOf(es + [e], ds) == Then(RunOf(es, ds), e, ds)
  {
    assert (es + [e])[..|es|] == es;
  }

  const SLOT := Slot("service", Root)
  const WATCHED := [Dependency(SLOT, true)]
  const PROVIDE := ServiceRuns.Publish(Host, SLOT, 7, false, 1)
  const REPLACE := ServiceRuns.Publish(Host, SLOT, 8, true, 2)

  function WorkDone(): Happening {
    AtWorker(GoodWork())
  }

  ghost function Provided(): System {
    After(ServiceRuns.INITIAL, PROVIDE)
  }

  ghost function Replaced(): System
    requires Enabled(Provided(), REPLACE)
  {
    After(Provided(), REPLACE)
  }

  lemma HostIsReplaced()
    ensures Enabled(ServiceRuns.INITIAL, PROVIDE) && Enabled(Provided(), REPLACE)
    ensures SnapshotOf(Provided().host, WATCHED) == FIRST && SnapshotOf(Replaced().host, WATCHED) == SECOND
  {
    assert SLOT in Provided().host && SLOT in Replaced().host;
    assert SnapshotOf(Provided().host, WATCHED).services == [Some(1)];
    assert SnapshotOf(Replaced().host, WATCHED).services == [Some(2)];
  }

  /** The first provider is seen twice, by the subscription and by the publication; one of the snapshots is delivered. */
  function SubscribedEvents(): seq<Happening> {
    [] + [OnHost(PROVIDE)] + [Observe] + [Observe] + [WorkDone()] + [AtWorker(Request)] + [Deliver(0)]
  }

  ghost function Subscribed(): Situation {
    Situation(Provided(), [NewManaged(ONE).control.snapshot, FIRST, FIRST], [2],
              NewManaged(ONE).(control := Control(true, true, false, true, FIRST, Idle, false, false), pc := Parked))
  }

  lemma RunOfNothing(ds: seq<Dependency>)
    ensures RunOf([], ds) == Initially(ds)
  {
  }

  lemma FirstIsSubscribed()
    ensures RunOf(SubscribedEvents(), WATCHED) == Subscribed()
  {
    hide RunOf, After, Enabled, SnapshotOf;
    HostIsReplaced();
    assert Requirements(WATCHED) == ONE;
    RunOfNothing(WATCHED);
    var e0: seq<Happening> := [];
    var e1 := e0 + [OnHost(PROVIDE)];
    var e2 := e1 + [Observe];
    var e3 := e2 + [Observe];
    var e4 := e3 + [WorkDone()];
    var e5 := e4 + [AtWorker(Request)];
    RunThen(e0, OnHost(PROVIDE), WATCHED);
    RunThen(e1, Observe, WATCHED);
    RunThen(e2, Observe, WATCHED);
    RunThen(e3, WorkDone(), WATCHED);
    RunThen(e4, AtWorker(Request), WATCHED);
    RunThen(e5, Deliver(0), WATCHED);
    assert RunOf(e3, WATCHED).taken == Subscribed().taken;
    assert RunOf(e3, WATCHED).inflight == [1, 2];
  }

  /** Up to the plugin running for the first provider, with the other snapshot still in flight. */
  function StartedEvents(): seq<Happening> {
    SubscribedEvents() + [WorkDone()] + [WorkDone()] + [WorkDone()] + [WorkDone()]
  }

  lemma FirstIsStarted()
    ensures RunOf(StartedEvents(), WATCHED) == Subscribed().(worker := RunningState())
  {
    hide RunOf, After, SnapshotOf, Required, SubscribedEvents;
    FirstIsSubscribed();
    RequiredOfOne(1);
    assert Requirements(WATCHED) == ONE;
    var e := SubscribedEvents();
    RunThen(e, WorkDone(), WATCHED);
    RunThen(e + [WorkDone()], WorkDone(), WATCHED);
    RunThen(e + [WorkDone()] + [WorkDone()], WorkDone(), WATCHED);
    RunThen(e + [WorkDone()] + [WorkDone()] + [WorkDone()], WorkDone(), WATCHED);
  }

  /** The provider is replaced, and the news of it overtakes; the update fails once its candidate is in place. */
  function MissedEvents(): seq<Happening> {
    StartedEvents() + [OnHost(REPLACE)] + [Observe] + [Deliver(1)]
      + [WorkDone()] + [WorkDone()] + [WorkDone()] + [AtWorker(Work(Outcome(false, Active, true)))]
  }

  ghost function Missed(): Situation
    requires Enabled(Provided(), REPLACE)
  {
    Situation(Replaced(), [NewManaged(ONE).control.snapshot, FIRST, FIRST, SECOND], [2],
              Managed(Control(true, true, false, false, SECOND, Broken, true, false), Parked, Active,
                      Some([Some(1)]), [Some(2)], true, false, Some(SECOND)))
  }

  lemma SecondIsMissed()
    ensures Enabled(Provided(), REPLACE) && RunOf(MissedEvents(), WATCHED) == Missed()
  {
    hide RunOf, After, Enabled, SnapshotOf, Required, StartedEvents;
    HostIsReplaced();
    FirstIsStarted();
    RequiredOfOne(2);
    assert Requirements(WATCHED) == ONE;
    var e0 := StartedEvents();
    var e1 := e0 + [OnHost(REPLACE)];
    var e2 := e1 + [Observe];
    var e3 := e2 + [Deliver(1)];
    RunThen(e0, OnHost(REPLACE), WATCHED);
    RunThen(e1, Observe, WATCHED);
    RunThen(e2, Deliver(1), WATCHED);
    assert RunOf(e3, WATCHED).inflight == [2];
    RunThen(e3, WorkDone(), WATCHED);
    RunThen(e3 + [WorkDone()], WorkDone(), WATCHED);
    RunThen(e3 + [WorkDone()] + [WorkDone()], WorkDone(), WATCHED);
    RunThen(e3 + [WorkDone()] + [WorkDone()] + [WorkDone()], AtWorker(Work(Outcome(false, Active, true))), WATCHED);
  }

  /**
   Out of order it fails: an update fails after installing its candidate, the older snapshot arrives late, and the worker
   takes its outdated record for it. It shows that it is active for a provider the host no longer has, and the
   plugin, started for the new one, runs for another provider than the control shows.
   */
  lemma LateSnapshotMisleads()
    ensures exists es: seq<Happening> ::
      var s := RunOf(es, WATCHED);
      var w, required := s.worker, Requirements(WATCHED);
      && s.inflight == [] && !w.control.stopping && !w.control.dirty
      && Poll(w.control) == Some(IsActive) && w.fiber == Active && w.missed
      && w.active == Some(Required(w.control.snapshot, required)) && w.active != Some(Required(Now(s, WATCHED), required))
      && w.running == Required(Now(s, WATCHED), required) && w.running != Required(w.control.snapshot, required)
  {
    hide RunOf, After, Enabled, SnapshotOf, Required, MissedEvents;
    HostIsReplaced();
    SecondIsMissed();
    RequiredOfOne(1);
    RequiredOfOne(2);
    assert Requirements(WATCHED) == ONE;
    var e := MissedEvents() + [Deliver(0)];
    RunThen(MissedEvents(), Deliver(0), WATCHED);
    RunThen(e, WorkDone(), WATCHED);
    RunThen(e + [WorkDone()], WorkDone(), WATCHED);
    RunThen(e + [WorkDone()] + [WorkDone()], WorkDone(), WATCHED);
    var s := RunOf(e + [WorkDone()] + [WorkDone()] + [WorkDone()], WATCHED);
    assert s.inflight == [] && Now(s, WATCHED) == SECOND;
    assert s.worker.running == [Some(2)] && s.worker.active == Some([Some(1)]);
  }
}
