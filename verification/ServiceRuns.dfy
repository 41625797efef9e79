/**
 Runs of one host registry with any number of staging overlays: every publication, cleanup
 and commit of crates/tessivum-core/src/context.rs is one atomic step on the state below.
 */
module ServiceRuns {
  import opened Wrappers
  import opened ServiceRegistry

  datatype RegistryId = Host | Overlay(id: nat)

  /** The scope-owned effect of one publication: `remove_if_current(slot, generation)`. */
  datatype Cleanup = Cleanup(registry: RegistryId, slot: Slot, generation: Generation)

  /** One provider put into the host. */
  datatype Arrival = Arrival(slot: Slot, generation: Generation)

  /**
   `next` bounds the shared generation counter from below, `cleanups` are the registered
   effects that have not run, and `entered` is the history of the host.
   */
  datatype System = System(
    host: Providers,
    overlays: map<nat, Staging>,
    next: Generation,
    cleanups: multiset<Cleanup>,
    entered: multiset<Arrival>)

  const INITIAL := System(map[], map[], 1, multiset{}, multiset{})

  /**
   A publication carries the generation it is given: scopes and isolations take generations
   from the same counter, so the numbers seen here increase but need not be consecutive.
   */
  datatype Step =
    | NewOverlay(id: nat)
    | Publish(registry: RegistryId, slot: Slot, value: int, replace: bool, generation: Generation)
    | RunCleanup(cleanup: Cleanup)
    | Commit(id: nat)

  ghost predicate Known(s: System, r: RegistryId) {
    r.Overlay? ==> r.id in s.overlays
  }

  ghost predicate Enabled(s: System, step: Step) {
    match step
    case NewOverlay(k) => k !in s.overlays
    case Publish(r, _, _, _, g) => Known(s, r) && s.next <= g
    case RunCleanup(c) => Known(s, c.registry) && c in s.cleanups
    case Commit(k) => k in s.overlays
  }

  /** Whether a write or cleanup of registry `r` reaches the host. */
  ghost predicate ReachesHost(s: System, r: RegistryId)
    requires Known(s, r)
  {
    r.Host? || s.overlays[r.id].committed
  }

  ghost predicate Visible(s: System, r: RegistryId, slot: Slot)
    requires Known(s, r)
  {
    slot in s.host || (r.Overlay? && slot in s.overlays[r.id].providers)
  }

  ghost predicate CommitSucceeds(s: System, k: nat)
    requires k in s.overlays
  {
    !s.overlays[k].committed && Unchanged(s.host, s.overlays[k])
  }

  ghost function Arrivals(p: Providers): set<Arrival> {
    set slot | slot in p :: Arrival(slot, p[slot].generation)
  }

  ghost function After(s: System, step: Step): System
    requires Enabled(s, step)
  {
    match step
    case NewOverlay(k) => s.(overlays := s.overlays[k := EMPTY_STAGING])
    case Publish(r, slot, value, replace, g) =>
      if Visible(s, r, slot) != replace then s
      else
        var published := s.(next := g + 1, cleanups := s.cleanups + multiset{Cleanup(r, slot, g)});
        if ReachesHost(s, r) then
          published.(host := s.host[slot := Entry(g, value)],
                     entered := s.entered + multiset{Arrival(slot, g)})
        else
          published.(overlays := s.overlays[r.id := Stage(s.host, s.overlays[r.id], slot, Entry(g, value))])
    case RunCleanup(c) =>
      var done := s.(cleanups := s.cleanups - multiset{c});
      if ReachesHost(s, c.registry) then
        done.(host := Retract(s.host, c.slot, c.generation))
      else
        done.(overlays := s.overlays[c.registry.id := Unstage(s.overlays[c.registry.id], c.slot, c.generation)])
    case Commit(k) =>
      if CommitSucceeds(s, k) then
        s.(host := s.host + s.overlays[k].providers,
           overlays := s.overlays[k := Staging(map[], map[], true)],
           entered := s.entered + multiset(Arrivals(s.overlays[k].providers)))
      else s
  }

  ghost predicate CanRun(s: System, run: seq<Step>)
    decreases |run|
  {
    run == [] || (Enabled(s, run[0]) && CanRun(After(s, run[0]), run[1..]))
  }

  ghost function Execute(s: System, run: seq<Step>): System
    requires CanRun(s, run)
    decreases |run|
  {
    if run == [] then s else Execute(After(s, run[0]), run[1..])
  }

  // ----- what every step keeps

  /** Each generation is put into the host at most once, and in one slot only. */
  ghost predicate SingleUseBag(entered: multiset<Arrival>, next: Generation) {
    && (forall a :: a in entered ==> entered[a] == 1 && a.generation < next)
    && (forall a, b :: a in entered && b in entered && a.generation == b.generation ==> a == b)
  }

  ghost predicate SingleUse(s: System) {
    SingleUseBag(s.entered, s.next)
  }

  ghost predicate HasEntered(s: System, g: Generation) {
    exists slot :: Arrival(slot, g) in s.entered
  }

  /** An effect that would remove `slot`'s provider `g` from the host. */
  ghost predicate Owns(s: System, c: Cleanup, slot: Slot, g: Generation) {
    c in s.cleanups && c.slot == slot && c.generation == g && Known(s, c.registry) && ReachesHost(s, c.registry)
  }

  /** Un-run cleanups are distinct publications. */
  ghost predicate CleanupBag(cleanups: multiset<Cleanup>, next: Generation) {
    && (forall c :: c in cleanups ==> cleanups[c] == 1 && c.generation < next)
    && (forall c, d :: c in cleanups && d in cleanups && c.generation == d.generation ==> c == d)
  }

  ghost predicate CleanupsDistinct(s: System) {
    CleanupBag(s.cleanups, s.next) && forall c <- s.cleanups :: Known(s, c.registry)
  }

  ghost predicate HostOwnedAt(s: System, slot: Slot)
    requires slot in s.host
  {
    var g := s.host[slot].generation;
    Arrival(slot, g) in s.entered && exists c :: Owns(s, c, slot, g)
  }

  ghost predicate HostOwned(s: System) {
    forall slot :: slot in s.host ==> HostOwnedAt(s, slot)
  }

  /** What a staged provider satisfies: its generation has not reached the host, and its cleanup is waiting. */
  ghost predicate StagedOwned(s: System, k: nat, slot: Slot)
    requires k in s.overlays && slot in s.overlays[k].providers
  {
    var g := s.overlays[k].providers[slot].generation;
    && g < s.next
    && !HasEntered(s, g)
    && Cleanup(Overlay(k), slot, g) in s.cleanups
  }

  ghost predicate OverlaysOwned(s: System) {
    forall k :: k in s.overlays ==>
      && WellFormed(s.overlays[k])
      && forall slot :: slot in s.overlays[k].providers ==> StagedOwned(s, k, slot)
  }

  ghost predicate Inv(s: System) {
    SingleUse(s) && CleanupsDistinct(s) && HostOwned(s) && OverlaysOwned(s)
  }

  /** What a commit puts into the host: generations no step has put there, each in one slot. */
  lemma StagedArrivals(s: System, k: nat, a: Arrival)
    requires OverlaysOwned(s) && k in s.overlays && a in Arrivals(s.overlays[k].providers)
    ensures a.slot in s.overlays[k].providers && s.overlays[k].providers[a.slot].generation == a.generation
    ensures a.generation < s.next && !HasEntered(s, a.generation)
    ensures Cleanup(Overlay(k), a.slot, a.generation) in s.cleanups
  {
    assert StagedOwned(s, k, a.slot);
  }

  /** Arrivals of generations that have not entered yet, each in one slot. */
  lemma BagGrows(entered: multiset<Arrival>, staged: set<Arrival>, next: Generation)
    requires SingleUseBag(entered, next)
    requires forall a <- staged :: a.generation < next && forall slot :: Arrival(slot, a.generation) !in entered
    requires forall a, b :: a in staged && b in staged && a.generation == b.generation ==> a == b
    ensures SingleUseBag(entered + multiset(staged), next)
  {
    var all := entered + multiset(staged);
    forall a | a in all ensures all[a] == 1 && a.generation < next {
      if a in staged {
        assert Arrival(a.slot, a.generation) !in entered;
      }
    }
    forall a, b | a in all && b in all && a.generation == b.generation ensures a == b {
      assert a == Arrival(a.slot, b.generation) && b == Arrival(b.slot, a.generation);
    }
  }

  /** What one step does to the history of the host. */
  lemma EnteredAfter(s: System, step: Step)
    requires Enabled(s, step)
    ensures var t := After(s, step);
      && s.next <= t.next
      && (t.entered == s.entered
          || (step.Publish? && t.entered == s.entered + multiset{Arrival(step.slot, step.generation)} && t.next == step.generation + 1)
          || (step.Commit? && t.next == s.next && t.entered == s.entered + multiset(Arrivals(s.overlays[step.id].providers))))
  {
    hide Stage, Unstage, Arrivals, Unchanged, Retract, Visible;
  }

  lemma BagWaits(entered: multiset<Arrival>, next: Generation, later: Generation)
    requires SingleUseBag(entered, next) && next <= later
    ensures SingleUseBag(entered, later)
  {
  }

  lemma BagTakes(entered: multiset<Arrival>, next: Generation, a: Arrival)
    requires SingleUseBag(entered, next) && next <= a.generation
    ensures SingleUseBag(entered + multiset{a}, a.generation + 1)
  {
  }

  lemma SingleUseStep(s: System, step: Step)
    requires SingleUse(s) && CleanupsDistinct(s) && OverlaysOwned(s) && Enabled(s, step)
    ensures SingleUse(After(s, step))
  {
    EnteredAfter(s, step);
    hide After, SingleUseBag, OverlaysOwned, HasEntered, Arrivals;
    var t := After(s, step);
    if t.entered == s.entered {
      BagWaits(s.entered, s.next, t.next);
    } else if step.Publish? {
      BagTakes(s.entered, s.next, Arrival(step.slot, step.generation));
    } else {
      StagedAreNew(s, step.id);
      BagGrows(s.entered, Arrivals(s.overlays[step.id].providers), s.next);
    }
  }

  lemma StagedAreNew(s: System, k: nat)
    requires CleanupsDistinct(s) && OverlaysOwned(s) && k in s.overlays
    ensures var staged := Arrivals(s.overlays[k].providers);
      && (forall a <- staged :: a.generation < s.next && forall slot :: Arrival(slot, a.generation) !in s.entered)
      && (forall a, b :: a in staged && b in staged && a.generation == b.generation ==> a == b)
  {
    hide OverlaysOwned, Arrivals;
    var staged := Arrivals(s.overlays[k].providers);
    forall a | a in staged ensures a.generation < s.next && forall slot :: Arrival(slot, a.generation) !in s.entered {
      StagedArrivals(s, k, a);
    }
    forall a, b | a in staged && b in staged && a.generation == b.generation ensures a == b {
      StagedArrivals(s, k, a);
      StagedArrivals(s, k, b);
      assert Cleanup(Overlay(k), a.slot, a.generation) == Cleanup(Overlay(k), b.slot, b.generation);
    }
  }

  /** What one step does to the effects waiting to run. */
  lemma CleanupsAfter(s: System, step: Step)
    requires Enabled(s, step)
    ensures var t := After(s, step);
      && s.overlays.Keys <= t.overlays.Keys && s.next <= t.next
      && (t.cleanups == s.cleanups
          || (step.Publish? && t.cleanups == s.cleanups + multiset{Cleanup(step.registry, step.slot, step.generation)}
              && t.next == step.generation + 1)
          || (step.RunCleanup? && t.cleanups == s.cleanups - multiset{step.cleanup}))
  {
    hide Stage, Unstage, Arrivals, Unchanged, Retract, Visible;
  }

  lemma CleanupBagChanges(cleanups: multiset<Cleanup>, next: Generation, c: Cleanup, later: Generation)
    requires CleanupBag(cleanups, next)
    ensures next <= c.generation ==> CleanupBag(cleanups + multiset{c}, c.generation + 1)
    ensures next <= later ==> CleanupBag(cleanups, later) && CleanupBag(cleanups - multiset{c}, later)
  {
  }

  lemma CleanupsStep(s: System, step: Step)
    requires CleanupsDistinct(s) && Enabled(s, step)
    ensures CleanupsDistinct(After(s, step))
  {
    CleanupsAfter(s, step);
    hide After, CleanupBag;
    var t := After(s, step);
    var c := if step.RunCleanup? then step.cleanup
             else if step.Publish? then Cleanup(step.registry, step.slot, step.generation) else Cleanup(Host, Slot("", Root), 0);
    CleanupBagChanges(s.cleanups, s.next, c, t.next);
  }

  lemma ReachStays(s: System, step: Step, r: RegistryId)
    requires Enabled(s, step) && Known(s, r) && ReachesHost(s, r)
    ensures Known(After(s, step), r) && ReachesHost(After(s, step), r)
  {
    hide Arrivals, Unchanged, Retract, Visible, GenerationAt;
  }

  /** Running the owner takes the provider away. */
  lemma OwnerRetracts(s: System, c: Cleanup, x: Slot, g: Generation)
    requires Enabled(s, RunCleanup(c)) && Owns(s, c, x, g) && x in After(s, RunCleanup(c)).host
    ensures After(s, RunCleanup(c)).host[x].generation != g
  {
  }

  lemma OwnerStays(s: System, step: Step, c: Cleanup, x: Slot, g: Generation)
    requires CleanupsDistinct(s) && Enabled(s, step) && Owns(s, c, x, g)
    requires x in After(s, step).host && After(s, step).host[x].generation == g
    ensures Owns(After(s, step), c, x, g)
  {
    hide After, CleanupBag;
    CleanupsAfter(s, step);
    ReachStays(s, step, c.registry);
    if step == RunCleanup(c) {
      OwnerRetracts(s, c, x, g);
    }
  }

  lemma HostOwnedPublish(s: System, step: Step, x: Slot)
    requires HostOwned(s) && CleanupsDistinct(s) && Enabled(s, step) && step.Publish?
    requires x in After(s, step).host
    ensures HostOwnedAt(After(s, step), x)
  {
    PublishedAfter(s, step, x);
    hide After, CleanupBag;
    var t := After(s, step);
    var g := t.host[x].generation;
    if x in s.host && s.host[x] == t.host[x] {
      assert HostOwnedAt(s, x);
      var c :| Owns(s, c, x, g);
      OwnerStays(s, step, c, x, g);
    } else {
      assert Owns(t, Cleanup(step.registry, x, g), x, g);
    }
  }

  /** A provider of the host is an old one, or the one published now, with its cleanup. */
  lemma PublishedAfter(s: System, step: Step, x: Slot)
    requires Enabled(s, step) && step.Publish? && x in After(s, step).host
    ensures var t := After(s, step);
      || (x in s.host && s.host[x] == t.host[x])
      || Owns(t, Cleanup(step.registry, x, t.host[x].generation), x, t.host[x].generation)
  {
    hide Stage, Visible;
  }

  lemma HostOwnedCommit(s: System, step: Step, x: Slot)
    requires HostOwned(s) && OverlaysOwned(s) && CleanupsDistinct(s) && Enabled(s, step) && step.Commit?
    requires x in After(s, step).host
    ensures HostOwnedAt(After(s, step), x)
  {
    var t := After(s, step);
    var g := t.host[x].generation;
    if t != s && x in s.overlays[step.id].providers {
      StagedArrivals(s, step.id, Arrival(x, g));
      assert Owns(t, Cleanup(Overlay(step.id), x, g), x, g);
    } else {
      assert HostOwnedAt(s, x);
      var c :| Owns(s, c, x, g);
      OwnerStays(s, step, c, x, g);
    }
  }

  lemma HostOwnedStep(s: System, step: Step)
    requires HostOwned(s) && OverlaysOwned(s) && CleanupsDistinct(s) && Enabled(s, step)
    ensures HostOwned(After(s, step))
  {
    var t := After(s, step);
    forall x | x in t.host ensures HostOwnedAt(t, x) {
      match step
      case Publish(_, _, _, _, _) => HostOwnedPublish(s, step, x);
      case Commit(_) => HostOwnedCommit(s, step, x);
      case _ =>
        assert HostOwnedAt(s, x);
        var c :| Owns(s, c, x, s.host[x].generation);
        OwnerStays(s, step, c, x, s.host[x].generation);
    }
  }

  /** A cleanup that reaches its own staged provider takes it away. */
  lemma OwnCleanupUnstages(s: System, k: nat, x: Slot)
    requires k in s.overlays && x in s.overlays[k].providers && WellFormed(s.overlays[k])
    requires var c := Cleanup(Overlay(k), x, s.overlays[k].providers[x].generation);
      Enabled(s, RunCleanup(c)) && k in After(s, RunCleanup(c)).overlays
    ensures var c := Cleanup(Overlay(k), x, s.overlays[k].providers[x].generation);
      x !in After(s, RunCleanup(c)).overlays[k].providers
  {
  }

  lemma CommitDrains(s: System, k: nat)
    requires Enabled(s, Commit(k))
    ensures After(s, Commit(k)).entered != s.entered ==>
      k in After(s, Commit(k)).overlays && After(s, Commit(k)).overlays[k].providers == map[]
  {
  }

  lemma StagedStays(s: System, step: Step, k: nat, x: Slot)
    requires CleanupsDistinct(s) && OverlaysOwned(s) && Enabled(s, step)
    requires k in s.overlays && x in s.overlays[k].providers && StagedOwned(s, k, x)
    requires k in After(s, step).overlays && x in After(s, step).overlays[k].providers
    requires After(s, step).overlays[k].providers[x] == s.overlays[k].providers[x]
    ensures StagedOwned(After(s, step), k, x)
  {
    EnteredAfter(s, step);
    CleanupsAfter(s, step);
    hide After, CleanupBag, Arrivals;
    var t := After(s, step);
    var g := s.overlays[k].providers[x].generation;
    var mine := Cleanup(Overlay(k), x, g);
    forall slot ensures Arrival(slot, g) !in t.entered {
      assert Arrival(slot, g) !in s.entered;
      if step.Commit? && Arrival(slot, g) in Arrivals(s.overlays[step.id].providers) {
        CommitDrains(s, step.id);
        StagedArrivals(s, step.id, Arrival(slot, g));
      }
    }
    if step == RunCleanup(mine) {
      OwnCleanupUnstages(s, k, x);
    }
  }

  /** A staged provider after a step was staged before it, or by it. */
  lemma StagedOrigin(s: System, step: Step, k: nat, x: Slot)
    requires Enabled(s, step)
    requires k in After(s, step).overlays && x in After(s, step).overlays[k].providers
    ensures k in s.overlays
    ensures (x in s.overlays[k].providers && s.overlays[k].providers[x] == After(s, step).overlays[k].providers[x])
      || (step.Publish? && step.registry == Overlay(k) && step.slot == x && StagesNow(s, step))
  {
    hide Arrivals, Unchanged, Retract, Visible;
    match step
    case NewOverlay(_) =>
    case Publish(r, _, _, _, _) =>
    case RunCleanup(c) =>
    case Commit(j) =>
  }

  ghost predicate StagesNow(s: System, step: Step)
    requires Enabled(s, step)
  {
    step.Publish? && !ReachesHost(s, step.registry) && Visible(s, step.registry, step.slot) == step.replace
  }

  lemma FreshIsOwned(s: System, step: Step)
    requires SingleUse(s) && Enabled(s, step) && StagesNow(s, step)
    ensures StagedOwned(After(s, step), step.registry.id, step.slot)
  {
    assert !HasEntered(s, step.generation);
    assert After(s, step).entered == s.entered;
  }

  lemma OverlaysOwnedStep(s: System, step: Step)
    requires CleanupsDistinct(s) && SingleUse(s) && OverlaysOwned(s) && Enabled(s, step)
    ensures OverlaysOwned(After(s, step))
  {
    forall k | k in After(s, step).overlays
      ensures WellFormed(After(s, step).overlays[k])
      ensures forall x :: x in After(s, step).overlays[k].providers ==> StagedOwned(After(s, step), k, x)
    {
      OverlayStep(s, step, k);
    }
  }

  lemma OverlayStep(s: System, step: Step, k: nat)
    requires CleanupsDistinct(s) && SingleUse(s) && OverlaysOwned(s) && Enabled(s, step)
    requires k in After(s, step).overlays
    ensures WellFormed(After(s, step).overlays[k])
    ensures forall x :: x in After(s, step).overlays[k].providers ==> StagedOwned(After(s, step), k, x)
  {
    WellFormedStep(s, step, k);
    forall x | x in After(s, step).overlays[k].providers
      ensures StagedOwned(After(s, step), k, x)
    {
      StagedOrigin(s, step, k, x);
      if x in s.overlays[k].providers && s.overlays[k].providers[x] == After(s, step).overlays[k].providers[x] {
        StagedStays(s, step, k, x);
      } else {
        FreshIsOwned(s, step);
      }
    }
  }

  lemma WellFormedStep(s: System, step: Step, k: nat)
    requires k in s.overlays ==> WellFormed(s.overlays[k])
    requires Enabled(s, step) && k in After(s, step).overlays
    ensures WellFormed(After(s, step).overlays[k])
  {
    hide Stage, Unstage, Arrivals, Unchanged, Retract, Visible;
    match step
    case NewOverlay(_) =>
    case Publish(r, slot, value, _, g) =>
      if r == Overlay(k) && !s.overlays[k].committed { StageKeepsForm(s.host, s.overlays[k], slot, Entry(g, value)); }
    case RunCleanup(c) =>
      if c.registry == Overlay(k) { UnstageKeepsForm(s.overlays[k], c.slot, c.generation); }
    case Commit(_) =>
  }

  lemma StageKeepsForm(host: Providers, o: Staging, slot: Slot, e: Entry)
    requires WellFormed(o) && !o.committed
    ensures WellFormed(Stage(host, o, slot, e))
  {
  }

  lemma UnstageKeepsForm(o: Staging, slot: Slot, g: Generation)
    requires WellFormed(o)
    ensures WellFormed(Unstage(o, slot, g))
  {
  }

  lemma InvStep(s: System, step: Step)
    requires Inv(s) && Enabled(s, step)
    ensures Inv(After(s, step))
  {
    SingleUseStep(s, step);
    CleanupsStep(s, step);
    HostOwnedStep(s, step);
    OverlaysOwnedStep(s, step);
  }

  lemma {:induction false} InvRun(s: System, run: seq<Step>)
    requires Inv(s) && CanRun(s, run)
    ensures Inv(Execute(s, run))
    decreases |run|
  {
    if run != [] {
      InvStep(s, run[0]);
      InvRun(After(s, run[0]), run[1..]);
    }
  }

  // ----- what holds of every run

  /** `c` is the one un-run cleanup of the provider `g` in the host's `slot`, registered once. */
  ghost predicate SoleOwner(s: System, c: Cleanup, slot: Slot, g: Generation) {
    && Owns(s, c, slot, g)
    && s.cleanups[c] == 1
    && (forall d :: d in s.cleanups && d.generation == g ==> d == c)
  }

  /**
   In every reachable state a generation has entered the host at most once, and each host
   provider has exactly one cleanup that has not run and would remove it.
   */
  lemma GenerationsAreSingleUse(run: seq<Step>)
    requires CanRun(INITIAL, run)
    ensures var s := Execute(INITIAL, run);
      && SingleUse(s)
      && forall slot :: slot in s.host ==> exists c :: SoleOwner(s, c, slot, s.host[slot].generation)
  {
    InvRun(INITIAL, run);
    var s := Execute(INITIAL, run);
    forall slot | slot in s.host
      ensures exists c :: SoleOwner(s, c, slot, s.host[slot].generation)
    {
      assert HostOwnedAt(s, slot);
      var c :| Owns(s, c, slot, s.host[slot].generation);
      assert SoleOwner(s, c, slot, s.host[slot].generation);
    }
  }

  /** The handle (slot, g), read from the host, names the current provider. */
  ghost predicate Current(s: System, slot: Slot, g: Generation) {
    GenerationAt(s.host, slot) == Some(g)
  }

  lemma HostArrival(s: System, step: Step, slot: Slot, g: Generation)
    requires OverlaysOwned(s) && Enabled(s, step)
    requires !Current(s, slot, g) && Current(After(s, step), slot, g)
    ensures s.next <= g || !HasEntered(s, g)
  {
    match step
    case NewOverlay(_) =>
    case Publish(_, _, _, _, _) =>
    case RunCleanup(_) =>
    case Commit(k) => StagedArrivals(s, k, Arrival(slot, g));
  }

  lemma EnteredStep(s: System, step: Step, a: Arrival)
    requires Enabled(s, step) && a in s.entered
    ensures a in After(s, step).entered
  {
  }

  lemma StaleStep(s: System, step: Step, slot: Slot, g: Generation)
    requires Inv(s) && Enabled(s, step)
    requires HasEntered(s, g) && !Current(s, slot, g)
    ensures HasEntered(After(s, step), g) && !Current(After(s, step), slot, g)
  {
    var home :| Arrival(home, g) in s.entered;
    EnteredStep(s, step, Arrival(home, g));
    if Current(After(s, step), slot, g) {
      HostArrival(s, step, slot, g);
    }
  }

  lemma {:induction false} StaleRun(s: System, run: seq<Step>, slot: Slot, g: Generation)
    requires Inv(s) && CanRun(s, run)
    requires HasEntered(s, g) && !Current(s, slot, g)
    ensures !Current(Execute(s, run), slot, g)
    decreases |run|
  {
    if run != [] {
      StaleStep(s, run[0], slot, g);
      InvStep(s, run[0]);
      StaleRun(After(s, run[0]), run[1..], slot, g);
    }
  }

  lemma {:induction false} EnteredRun(s: System, run: seq<Step>, a: Arrival)
    requires CanRun(s, run) && a in s.entered
    ensures a in Execute(s, run).entered
    decreases |run|
  {
    if run != [] {
      EnteredStep(s, run[0], a);
      EnteredRun(After(s, run[0]), run[1..], a);
    }
  }

  /** A host handle that was current, then stale, is stale for ever. */
  lemma StaleHandlesNeverRevive(before: seq<Step>, between: seq<Step>, after: seq<Step>, slot: Slot, g: Generation)
    requires CanRun(INITIAL, before) && CanRun(Execute(INITIAL, before), between)
    requires CanRun(Execute(Execute(INITIAL, before), between), after)
    requires Current(Execute(INITIAL, before), slot, g)
    requires !Current(Execute(Execute(INITIAL, before), between), slot, g)
    ensures !Current(Execute(Execute(Execute(INITIAL, before), between), after), slot, g)
  {
    var s := Execute(INITIAL, before);
    var t := Execute(s, between);
    InvRun(INITIAL, before);
    InvRun(s, between);
    assert HostOwnedAt(s, slot);
    EnteredRun(s, between, Arrival(slot, g));
    assert HasEntered(t, g);
    StaleRun(t, after, slot, g);
  }

  /** The handle (slot, g), read through the overlay `k`, names the provider visible there. */
  ghost predicate CurrentVia(s: System, k: nat, slot: Slot, g: Generation) {
    && k in s.overlays
    && Lookup(s.host, s.overlays[k], slot).Some?
    && Lookup(s.host, s.overlays[k], slot).value.generation == g
  }

  /** The overlay `k` holds the provider `g` in `slot`. */
  ghost predicate StagedIn(s: System, k: nat, slot: Slot, g: Generation) {
    k in s.overlays && GenerationAt(s.overlays[k].providers, slot) == Some(g)
  }

  /** The generation `g` was published through `k` into `slot`, and has got nowhere but there and from there. */
  ghost predicate Home(s: System, k: nat, slot: Slot, g: Generation) {
    && k in s.overlays && g < s.next
    && (forall j: nat, x :: StagedIn(s, j, x, g) ==> j == k && x == slot)
    && (forall x :: Arrival(x, g) in s.entered ==> x == slot)
  }

  lemma StagedIsHome(s: System, k: nat, slot: Slot, g: Generation)
    requires Inv(s) && StagedIn(s, k, slot, g)
    ensures Home(s, k, slot, g) && !HasEntered(s, g)
  {
    assert StagedOwned(s, k, slot);
    forall j: nat, x | StagedIn(s, j, x, g) ensures j == k && x == slot {
      assert StagedOwned(s, j, x);
      assert Cleanup(Overlay(j), x, g) in s.cleanups && Cleanup(Overlay(k), slot, g) in s.cleanups;
    }
  }

  lemma HomeStep(s: System, step: Step, k: nat, slot: Slot, g: Generation)
    requires Inv(s) && Enabled(s, step) && Home(s, k, slot, g)
    ensures Home(After(s, step), k, slot, g)
    ensures !HasEntered(s, g) && !StagedIn(s, k, slot, g) ==>
      !HasEntered(After(s, step), g) && !StagedIn(After(s, step), k, slot, g)
  {
    EnteredAfter(s, step);
    CleanupsAfter(s, step);
    var t := After(s, step);
    hide After, CleanupBag;
    forall j: nat, x | StagedIn(t, j, x, g) ensures StagedIn(s, j, x, g) {
      StagedOrigin(s, step, j, x);
    }
    forall x | Arrival(x, g) in t.entered ensures Arrival(x, g) in s.entered || (StagedIn(s, k, slot, g) && x == slot) {
      if Arrival(x, g) !in s.entered {
        StagedArrivals(s, step.id, Arrival(x, g));
        assert StagedIn(s, step.id, x, g);
      }
    }
  }

  /** A staged provider that was taken away before it reached the host never comes back. */
  lemma {:induction false} GoneRun(s: System, run: seq<Step>, k: nat, slot: Slot, g: Generation)
    requires Inv(s) && CanRun(s, run) && Home(s, k, slot, g)
    ensures Home(Execute(s, run), k, slot, g)
    ensures !HasEntered(s, g) && !StagedIn(s, k, slot, g) ==>
      !HasEntered(Execute(s, run), g) && !StagedIn(Execute(s, run), k, slot, g)
    decreases |run|
  {
    hide After, Inv, Home;
    if run != [] {
      InvStep(s, run[0]);
      HomeStep(s, run[0], k, slot, g);
      GoneRun(After(s, run[0]), run[1..], k, slot, g);
    }
  }

  /** Where a handle read through an overlay is current: staged there, or in the host. */
  lemma CurrentViaMeans(s: System, k: nat, slot: Slot, g: Generation)
    requires Inv(s) && CurrentVia(s, k, slot, g)
    ensures StagedIn(s, k, slot, g) || (Current(s, slot, g) && HasEntered(s, g))
  {
    if !StagedIn(s, k, slot, g) {
      assert HostOwnedAt(s, slot);
    }
  }

  /** A host provider that is hidden by a staged one shows again once the staged one's cleanup has run. */
  lemma HiddenShowsAgain(s: System, k: nat, slot: Slot, g: Generation)
    requires Inv(s) && k in s.overlays && Current(s, slot, g) && !CurrentVia(s, k, slot, g)
    ensures slot in s.overlays[k].providers && !s.overlays[k].committed
    ensures var c := Cleanup(Overlay(k), slot, s.overlays[k].providers[slot].generation);
      CanRun(s, [RunCleanup(c)]) && CurrentVia(Execute(s, [RunCleanup(c)]), k, slot, g)
  {
    assert StagedOwned(s, k, slot);
    var step := RunCleanup(Cleanup(Overlay(k), slot, s.overlays[k].providers[slot].generation));
    assert [step][1..] == [];
    assert CanRun(After(s, step), []);
    assert Execute(s, [step]) == After(s, step);
  }

  lemma RevivedIsInHost(t: System, after: seq<Step>, k: nat, slot: Slot, g: Generation)
    requires Inv(t) && k in t.overlays && CanRun(t, after) && !CurrentVia(t, k, slot, g)
    requires HasEntered(t, g) || Home(t, k, slot, g)
    requires CurrentVia(Execute(t, after), k, slot, g)
    ensures Current(t, slot, g)
  {
    hide Execute, Inv, CurrentVia;
    var u := Execute(t, after);
    InvRun(t, after);
    CurrentViaMeans(u, k, slot, g);
    if HasEntered(t, g) && !Current(t, slot, g) {
      StaleRun(t, after, slot, g);
      var home :| Arrival(home, g) in t.entered;
      EnteredRun(t, after, Arrival(home, g));
      StagedIsHome(u, k, slot, g);
    } else if !HasEntered(t, g) {
      if StagedIn(t, k, slot, g) {
        StagedIsCurrent(t, k, slot, g);
      }
      GoneRun(t, after, k, slot, g);
    }
  }

  lemma StagedIsCurrent(s: System, k: nat, slot: Slot, g: Generation)
    requires Inv(s) && StagedIn(s, k, slot, g)
    ensures CurrentVia(s, k, slot, g)
  {
  }

  /** Overlays stay. */
  lemma {:induction false} KnownRun(s: System, run: seq<Step>, k: nat)
    requires CanRun(s, run) && k in s.overlays
    ensures k in Execute(s, run).overlays
    decreases |run|
  {
    hide After;
    if run != [] {
      CleanupsAfter(s, run[0]);
      KnownRun(After(s, run[0]), run[1..], k);
    }
  }

  /**
   A handle that was current through an overlay and went stale can become current again exactly if the host still holds
   its provider. So a staged provider that was taken back is gone for good, and a host provider comes back only
   while the overlay hides it.
   */
  lemma OverlayHandlesRevive(before: seq<Step>, between: seq<Step>, k: nat, slot: Slot, g: Generation)
    requires CanRun(INITIAL, before) && CanRun(Execute(INITIAL, before), between)
    requires CurrentVia(Execute(INITIAL, before), k, slot, g)
    requires !CurrentVia(Execute(Execute(INITIAL, before), between), k, slot, g)
    ensures var t := Execute(Execute(INITIAL, before), between);
      (exists after :: CanRun(t, after) && CurrentVia(Execute(t, after), k, slot, g)) <==> Current(t, slot, g)
  {
    hide Execute, After, Inv, Current, CanRun, Enabled, Lookup;
    var s := Execute(INITIAL, before);
    InvReached(before);
    InvRun(s, between);
    KnownRun(s, between, k);
    HandleIsHome(s, between, k, slot, g);
    StaleRevives(Execute(s, between), k, slot, g);
  }

  lemma InvReached(run: seq<Step>)
    requires CanRun(INITIAL, run)
    ensures Inv(Execute(INITIAL, run))
  {
    InvRun(INITIAL, run);
  }

  lemma StaleRevives(t: System, k: nat, slot: Slot, g: Generation)
    requires Inv(t) && k in t.overlays && !CurrentVia(t, k, slot, g)
    requires HasEntered(t, g) || Home(t, k, slot, g)
    ensures (exists after :: CanRun(t, after) && CurrentVia(Execute(t, after), k, slot, g)) <==> Current(t, slot, g)
  {
    hide Execute, After, CurrentVia, Inv, Current, CanRun;
    if Current(t, slot, g) {
      HiddenShowsAgain(t, k, slot, g);
      var after := [RunCleanup(Cleanup(Overlay(k), slot, t.overlays[k].providers[slot].generation))];
      assert CanRun(t, after) && CurrentVia(Execute(t, after), k, slot, g);
    }
    forall after | CanRun(t, after) && CurrentVia(Execute(t, after), k, slot, g) ensures Current(t, slot, g) {
      RevivedIsInHost(t, after, k, slot, g);
    }
  }

  lemma HandleIsHome(s: System, between: seq<Step>, k: nat, slot: Slot, g: Generation)
    requires Inv(s) && CanRun(s, between) && k in s.overlays && CurrentVia(s, k, slot, g)
    ensures HasEntered(Execute(s, between), g) || Home(Execute(s, between), k, slot, g)
  {
    CurrentViaMeans(s, k, slot, g);
    hide Execute, After, CurrentVia, Inv, Home;
    if StagedIn(s, k, slot, g) {
      StagedIsHome(s, k, slot, g);
      GoneRun(s, between, k, slot, g);
    } else {
      var home :| Arrival(home, g) in s.entered;
      EnteredRun(s, between, Arrival(home, g));
    }
  }

  /** The second case happens: replaced in the overlay, the host's provider is current again after the overlay's cleanup. */
  lemma OverlayHandleRevives(slot: Slot)
    ensures exists before, between, after ::
      && CanRun(INITIAL, before) && CanRun(Execute(INITIAL, before), between)
      && CanRun(Execute(Execute(INITIAL, before), between), after)
      && CurrentVia(Execute(INITIAL, before), 0, slot, 1)
      && !CurrentVia(Execute(Execute(INITIAL, before), between), 0, slot, 1)
      && CurrentVia(Execute(Execute(Execute(INITIAL, before), between), after), 0, slot, 1)
  {
    var a, b, c := NewOverlay(0), Publish(Host, slot, 7, false, 1), Publish(Overlay(0), slot, 8, true, 2);
    RunsOne(INITIAL, a);
    RunsTwo(INITIAL, a, b);
    var s := Execute(INITIAL, [a, b]);
    RunsOne(s, c);
    RunsOne(After(s, c), RunCleanup(Cleanup(Overlay(0), slot, 2)));
    assert CurrentVia(s, 0, slot, 1);
  }

  lemma RunsOne(s: System, a: Step)
    requires Enabled(s, a)
    ensures CanRun(s, [a]) && Execute(s, [a]) == After(s, a)
  {
    assert [a][1..] == [];
    assert CanRun(After(s, a), []);
  }

  lemma RunsTwo(s: System, a: Step, b: Step)
    requires Enabled(s, a) && Enabled(After(s, a), b)
    ensures CanRun(s, [a, b]) && Execute(s, [a, b]) == After(After(s, a), b)
  {
    RunsOne(After(s, a), b);
    assert [a, b][1..] == [b];
  }

  /** A cleanup takes away nothing but the provider its own publication installed. */
  lemma CleanupRemovesOwnProvider(s: System, c: Cleanup, slot: Slot)
    requires Inv(s) && Enabled(s, RunCleanup(c))
    requires slot in s.host && GenerationAt(After(s, RunCleanup(c)).host, slot) != GenerationAt(s.host, slot)
    ensures Owns(s, c, slot, s.host[slot].generation)
    ensures forall other :: other != slot ==>
      GenerationAt(After(s, RunCleanup(c)).host, other) == GenerationAt(s.host, other)
  {
  }

  /** A cleanup runs once: afterwards it is not waiting, and no later publication registers it again. */
  lemma {:induction false} CleanupsRunOnce(s: System, c: Cleanup, run: seq<Step>)
    requires Inv(s) && CanRun(s, run) && c !in s.cleanups && c.generation < s.next
    ensures c !in Execute(s, run).cleanups
    decreases |run|
  {
    hide After, Inv;
    if run != [] {
      CleanupsAfter(s, run[0]);
      InvStep(s, run[0]);
      CleanupsRunOnce(After(s, run[0]), c, run[1..]);
    }
  }

  lemma CleanupIsUsedUp(s: System, c: Cleanup)
    requires Inv(s) && Enabled(s, RunCleanup(c))
    ensures c !in After(s, RunCleanup(c)).cleanups && c.generation < After(s, RunCleanup(c)).next
  {
  }

  // ----- what a commit compares

  /** The slot stays staged in `k` all through the run. */
  ghost predicate StaysStaged(s: System, run: seq<Step>, k: nat, slot: Slot)
    requires CanRun(s, run)
    decreases |run|
  {
    && k in s.overlays && slot in s.overlays[k].expected
    && (run != [] ==> StaysStaged(After(s, run[0]), run[1..], k, slot))
  }

  lemma ExpectationStays(s: System, step: Step, k: nat, slot: Slot)
    requires Enabled(s, step) && k in s.overlays && slot in s.overlays[k].expected
    requires k in After(s, step).overlays && slot in After(s, step).overlays[k].expected
    ensures After(s, step).overlays[k].expected[slot] == s.overlays[k].expected[slot]
  {
    hide Arrivals, Unchanged, Retract, Visible;
  }

  lemma {:induction false} ExpectationsStay(s: System, run: seq<Step>, k: nat, slot: Slot)
    requires CanRun(s, run) && StaysStaged(s, run, k, slot)
    ensures k in Execute(s, run).overlays && slot in Execute(s, run).overlays[k].expected
    ensures Execute(s, run).overlays[k].expected[slot] == s.overlays[k].expected[slot]
    decreases |run|
  {
    hide After, Enabled;
    if run != [] {
      ExpectationStays(s, run[0], k, slot);
      ExpectationsStay(After(s, run[0]), run[1..], k, slot);
    }
  }

  /**
   What a commit compares with is what the host held when the slot was first written through the overlay, however often
   it is written again: the write `first` staged the slot, and it has been staged ever since.
   */
  lemma CommitComparesFirstWrite(s: System, first: Step, run: seq<Step>, k: nat, slot: Slot)
    requires Enabled(s, first) && CanRun(After(s, first), run)
    requires k in s.overlays && slot !in s.overlays[k].expected && StaysStaged(After(s, first), run, k, slot)
    ensures var t := Execute(After(s, first), run);
      k in t.overlays && slot in t.overlays[k].expected && t.overlays[k].expected[slot] == GenerationAt(s.host, slot)
  {
    hide After, Execute, CanRun, Enabled;
    ExpectationsStay(After(s, first), run, k, slot);
    FirstWriteRecords(s, first, k, slot);
  }

  lemma FirstWriteRecords(s: System, first: Step, k: nat, slot: Slot)
    requires Enabled(s, first) && k in s.overlays && slot !in s.overlays[k].expected
    requires k in After(s, first).overlays && slot in After(s, first).overlays[k].expected
    ensures After(s, first).overlays[k].expected[slot] == GenerationAt(s.host, slot)
  {
    hide Arrivals, Unchanged, Retract, Visible;
  }

  // ----- what a staging view does to the host before it commits

  /** Steps made through the overlay `k`, apart from its commit. */
  ghost predicate ThroughOverlay(step: Step, k: nat) {
    || (step.Publish? && step.registry == Overlay(k))
    || (step.RunCleanup? && step.cleanup.registry == Overlay(k))
  }

  /** The same run without anything the overlay `k` did. */
  ghost function Without(run: seq<Step>, k: nat): seq<Step>
    decreases |run|
  {
    if run == [] then []
    else (if ThroughOverlay(run[0], k) || run[0] == Commit(k) then [] else [run[0]]) + Without(run[1..], k)
  }

  /** No commit of `k` succeeds during the run. */
  ghost predicate NeverCommits(s: System, run: seq<Step>, k: nat)
    requires CanRun(s, run) && k in s.overlays
    decreases |run|
  {
    run != [] ==>
      && !(run[0] == Commit(k) && CommitSucceeds(s, k))
      && NeverCommits(After(s, run[0]), run[1..], k)
  }

  /** `t` is `s` as far as anyone but the owner of overlay `k` can tell. */
  ghost predicate SameBut(s: System, t: System, k: nat) {
    && s.host == t.host && s.entered == t.entered && t.next <= s.next
    && s.overlays.Keys == t.overlays.Keys
    && (forall j :: j in s.overlays && j != k ==> s.overlays[j] == t.overlays[j])
    && (forall c: Cleanup :: c.registry != Overlay(k) ==> s.cleanups[c] == t.cleanups[c])
    && k in s.overlays && !s.overlays[k].committed
  }

  lemma OwnPublishIsInvisible(s: System, t: System, step: Step, k: nat)
    requires SameBut(s, t, k) && Enabled(s, step) && step.Publish? && step.registry == Overlay(k)
    ensures SameBut(After(s, step), t, k)
  {
    hide Visible, GenerationAt;
  }

  lemma OwnCleanupIsInvisible(s: System, t: System, c: Cleanup, k: nat)
    requires SameBut(s, t, k) && Enabled(s, RunCleanup(c)) && c.registry == Overlay(k)
    ensures SameBut(After(s, RunCleanup(c)), t, k)
  {
    hide GenerationAt;
  }

  lemma OwnStepIsInvisible(s: System, t: System, step: Step, k: nat)
    requires SameBut(s, t, k) && Enabled(s, step)
    requires ThroughOverlay(step, k) || (step == Commit(k) && !CommitSucceeds(s, k))
    ensures SameBut(After(s, step), t, k)
  {
    hide After, SameBut;
    match step
    case NewOverlay(_) => assert false;
    case Publish(_, _, _, _, _) => OwnPublishIsInvisible(s, t, step, k);
    case RunCleanup(c) => OwnCleanupIsInvisible(s, t, c, k);
    case Commit(_) => RefusedCommitIsInvisible(s, k);
  }

  lemma RefusedCommitIsInvisible(s: System, k: nat)
    requires Enabled(s, Commit(k)) && !CommitSucceeds(s, k)
    ensures After(s, Commit(k)) == s
  {
  }

  lemma OtherPublishIsUnaffected(s: System, t: System, step: Step, k: nat)
    requires SameBut(s, t, k) && Enabled(s, step) && step.Publish? && step.registry != Overlay(k)
    ensures Enabled(t, step) && SameBut(After(s, step), After(t, step), k)
  {
    var Publish(r, slot, value, replace, g) := step;
    assert Visible(s, r, slot) == Visible(t, r, slot);
    assert ReachesHost(s, r) == ReachesHost(t, r);
    var s', t' := After(s, step), After(t, step);
    forall j | j in s'.overlays && j != k ensures s'.overlays[j] == t'.overlays[j] {}
    forall c: Cleanup | c.registry != Overlay(k) ensures s'.cleanups[c] == t'.cleanups[c] {}
  }

  lemma OtherCleanupIsUnaffected(s: System, t: System, c: Cleanup, k: nat)
    requires SameBut(s, t, k) && Enabled(s, RunCleanup(c)) && c.registry != Overlay(k)
    ensures Enabled(t, RunCleanup(c)) && SameBut(After(s, RunCleanup(c)), After(t, RunCleanup(c)), k)
  {
    assert s.cleanups[c] == t.cleanups[c];
    assert ReachesHost(s, c.registry) == ReachesHost(t, c.registry);
  }

  lemma OtherCommitIsUnaffected(s: System, t: System, j: nat, k: nat)
    requires SameBut(s, t, k) && Enabled(s, Commit(j)) && j != k
    ensures Enabled(t, Commit(j)) && SameBut(After(s, Commit(j)), After(t, Commit(j)), k)
  {
    assert s.overlays[j] == t.overlays[j];
  }

  lemma OtherStepIsUnaffected(s: System, t: System, step: Step, k: nat)
    requires SameBut(s, t, k) && Enabled(s, step)
    requires !ThroughOverlay(step, k) && step != Commit(k)
    ensures Enabled(t, step) && SameBut(After(s, step), After(t, step), k)
  {
    match step
    case NewOverlay(_) =>
    case Publish(_, _, _, _, _) => OtherPublishIsUnaffected(s, t, step, k);
    case RunCleanup(c) => OtherCleanupIsUnaffected(s, t, c, k);
    case Commit(j) => OtherCommitIsUnaffected(s, t, j, k);
  }

  lemma {:induction false} HostIgnoresUncommitted(s: System, t: System, run: seq<Step>, k: nat)
    requires SameBut(s, t, k) && CanRun(s, run) && NeverCommits(s, run, k)
    ensures CanRun(t, Without(run, k))
    ensures SameBut(Execute(s, run), Execute(t, Without(run, k)), k)
    decreases |run|
  {
    if run != [] {
      var rest := run[1..];
      if ThroughOverlay(run[0], k) || run[0] == Commit(k) {
        OwnStepIsInvisible(s, t, run[0], k);
        HostIgnoresUncommitted(After(s, run[0]), t, rest, k);
        assert Without(run, k) == Without(rest, k);
      } else {
        OtherStepIsUnaffected(s, t, run[0], k);
        HostIgnoresUncommitted(After(s, run[0]), After(t, run[0]), rest, k);
        assert Without(run, k)[0] == run[0] && Without(run, k)[1..] == Without(rest, k);
      }
    }
  }

  lemma CommitAddsStaged(s: System, k: nat)
    requires k in s.overlays && !s.overlays[k].committed
    ensures After(s, Commit(k)).host ==
      s.host + (if Unchanged(s.host, s.overlays[k]) then s.overlays[k].providers else map[])
  {
  }

  /**
   Staging is atomic in every interleaving with other writers. Until `k` commits, the host
   is exactly what it would have been had the overlay done nothing; a successful commit then
   adds all staged providers in one step, and a refused one still adds none.
   */
  lemma StagingIsAtomic(s: System, run: seq<Step>, k: nat)
    requires Inv(s) && k in s.overlays && !s.overlays[k].committed
    requires CanRun(s, run) && NeverCommits(s, run, k)
    ensures CanRun(s, Without(run, k))
    ensures Execute(s, run).host == Execute(s, Without(run, k)).host
    ensures k in Execute(s, run).overlays
    ensures var end := Execute(s, run);
      After(end, Commit(k)).host ==
        Execute(s, Without(run, k)).host
          + (if Unchanged(end.host, end.overlays[k]) then end.overlays[k].providers else map[])
  {
    assert SameBut(s, s, k);
    HostIgnoresUncommitted(s, s, run, k);
    CommitAddsStaged(Execute(s, run), k);
  }
}
