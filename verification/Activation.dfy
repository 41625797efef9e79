/** Settling a list of futures, and the activation rounds built on it, in crates/tessivum-core/src/loader.rs. */
module Activation {
  import opened Wrappers

  // ----- settling

  /** A future that answers after `delay` polls; the delays fix the order in which futures settle. */
  datatype Future<T> = Future(delay: nat, result: T)

  function Delays<T>(fs: seq<Option<Future<T>>>): nat {
    if fs == [] then 0
    else (if fs[0].Some? then 1 + fs[0].value.delay else 0) + Delays(fs[1..])
  }

  lemma {:induction false} DelaysDrop<T>(fs: seq<Option<Future<T>>>, k: nat, f: Option<Future<T>>)
    requires k < |fs|
    ensures Delays(fs[k := f]) + Delays([fs[k]]) == Delays(fs) + Delays([f])
    decreases k
  {
    if k == 0 {
      assert fs[0 := f][1..] == fs[1..];
      assert [f][1..] == [] && [fs[0]][1..] == [];
    } else {
      assert fs[k := f][1..] == fs[1..][k - 1 := f];
      DelaysDrop(fs[1..], k - 1, f);
    }
  }

  /** What the slots hold: a future still to settle, or its result. */
  ghost predicate Settling<T>(all: seq<Future<T>>, futures: seq<Option<Future<T>>>, results: seq<Option<T>>) {
    && |futures| == |results| == |all|
    && forall k :: 0 <= k < |all| ==>
         if futures[k].Some? then futures[k].value.result == all[k].result && results[k].None?
         else results[k] == Some(all[k].result)
  }

  /** Every result, each at the position of its future, in whatever order they settle. */
  method AllSettle<T>(all: seq<Future<T>>) returns (r: seq<T>)
    ensures |r| == |all| && forall k :: 0 <= k < |all| ==> r[k] == all[k].result
  {
    var futures := seq(|all|, k requires 0 <= k < |all| => Some(all[k]));
    var results: seq<Option<T>> := seq(|all|, _ => None);
    var pending := true;
    while pending
      invariant Settling(all, futures, results)
      invariant !pending ==> forall k :: 0 <= k < |all| ==> futures[k].None?
      decreases Delays(futures), pending
    {
      pending := false;
      ghost var before := Delays(futures);
      for k := 0 to |futures|
        invariant Settling(all, futures, results)
        invariant Delays(futures) <= before && (pending ==> Delays(futures) < before)
        invariant !pending ==> forall j :: 0 <= j < k ==> futures[j].None?
      {
        if futures[k].Some? {
          var future := futures[k].value;
          DelaysDrop(futures, k, if future.delay == 0 then None else Some(future.(delay := future.delay - 1)));
          if future.delay == 0 {
            futures := futures[k := None];
            results := results[k := Some(future.result)];
          } else {
            futures := futures[k := Some(future.(delay := future.delay - 1))];
            pending := true;
          }
        }
      }
    }
    r := seq(|results|, k requires 0 <= k < |results| && results[k].Some? => results[k].value);
  }

  // ----- activation

  datatype Answer = Active | Pending | Failed

  /** Whether a handle may become active once the given handles are. */
  type Dependencies = (nat, set<nat>) -> bool

  ghost predicate Monotone(enabled: Dependencies) {
    forall i: nat, a: set<nat>, b: set<nat> :: a <= b && enabled(i, a) ==> enabled(i, b)
  }

  /** One round: who becomes active in which order, who is asked when, and who answers what. */
  datatype Round = Round(events: seq<nat>, reporting: set<nat>, failing: set<nat>, delays: nat -> nat)

  /** The world's choices, free to depend on everything so far. */
  type World = (nat, set<nat>, set<nat>) -> Round

  /** Handles become active one after the other, each enabled by those before it. */
  ghost predicate Causal(n: nat, enabled: Dependencies, active: set<nat>, events: seq<nat>) {
    forall k :: 0 <= k < |events| ==> events[k] < n && enabled(events[k], active + Members(events[..k]))
  }

  function Members(s: seq<nat>): set<nat> {
    set i <- s
  }

  /**
   A handle reports active only if it is by the end of the round; it must if it was, or could
   become active, when the round began.
   */
  ghost predicate Faithful(n: nat, enabled: Dependencies, active: set<nat>, reported: set<nat>, round: Round) {
    && Causal(n, enabled, active, round.events)
    && round.reporting <= active + Members(round.events)
    && forall i: nat :: i < n && i !in reported && (i in active || enabled(i, active)) ==> i in round.reporting || i in round.failing
  }

  ghost predicate FaithfulWorld(n: nat, enabled: Dependencies, world: World) {
    forall r: nat, active: set<nat>, reported: set<nat> :: Faithful(n, enabled, active, reported, world(r, active, reported))
  }

  function AnswerOf(round: Round, i: nat): Answer {
    if i in round.failing then Failed else if i in round.reporting then Active else Pending
  }

  ghost predicate Closed(n: nat, enabled: Dependencies, s: set<nat>) {
    forall i: nat :: i < n && enabled(i, s) ==> i in s
  }

  ghost predicate LeastFixpoint(n: nat, enabled: Dependencies, s: set<nat>) {
    Closed(n, enabled, s) && forall t: set<nat> :: Closed(n, enabled, t) ==> s <= t
  }

  ghost predicate Increasing(s: seq<nat>) {
    forall j, k :: 0 <= j < k < |s| ==> s[j] < s[k]
  }

  /** The indices still waiting, in entry order. */
  ghost predicate Waits(n: nat, pending: seq<nat>, reported: set<nat>) {
    && Increasing(pending)
    && (forall i <- pending :: i < n && i !in reported)
    && forall i: nat :: i < n && i !in reported ==> i in pending
  }

  /** Nothing is active without a cause. */
  ghost predicate Caused(n: nat, enabled: Dependencies, active: set<nat>) {
    forall t: set<nat> :: Closed(n, enabled, t) ==> active <= t
  }

  lemma {:induction false} EventsAreCaused(n: nat, enabled: Dependencies, active: set<nat>, events: seq<nat>, t: set<nat>)
    requires Monotone(enabled) && Causal(n, enabled, active, events) && Closed(n, enabled, t) && active <= t
    ensures active + Members(events) <= t
    decreases |events|
  {
    if events != [] {
      var last := |events| - 1;
      assert Causal(n, enabled, active, events[..last]) by {
        assert forall k :: 0 <= k < last ==> events[..last][..k] == events[..k];
      }
      EventsAreCaused(n, enabled, active, events[..last], t);
      assert enabled(events[last], active + Members(events[..last]));
      assert events == events[..last] + [events[last]];
    }
  }

  lemma RoundIsCaused(n: nat, enabled: Dependencies, active: set<nat>, events: seq<nat>)
    requires Monotone(enabled) && Causal(n, enabled, active, events) && Caused(n, enabled, active)
    ensures Caused(n, enabled, active + Members(events))
  {
    forall t: set<nat> | Closed(n, enabled, t) ensures active + Members(events) <= t {
      EventsAreCaused(n, enabled, active, events, t);
    }
  }

  /** A round without a report or a failure has reached the fixpoint: what is active is what was reported. */
  lemma QuietRoundIsLast(n: nat, enabled: Dependencies, active: set<nat>, reported: set<nat>, round: Round)
    requires Faithful(n, enabled, active, reported, round) && Caused(n, enabled, active)
    requires reported <= active && (forall i <- active :: i < n)
    requires forall i: nat :: i < n && i !in reported ==> i !in round.reporting && i !in round.failing
    ensures LeastFixpoint(n, enabled, reported) && active + Members(round.events) == reported
  {
    assert active <= reported;
    assert active == reported;
    assert Closed(n, enabled, active);
    if round.events != [] {
      assert round.events[..0] == [] && Members([]) == {};
      assert active + {} == active;
      assert enabled(round.events[0], active + Members(round.events[..0]));
      NoFirstEvent(n, enabled, active, round.events);
    }
  }

  lemma {:induction false} NoFirstEvent(n: nat, enabled: Dependencies, active: set<nat>, events: seq<nat>)
    requires Causal(n, enabled, active, events) && Closed(n, enabled, active)
    ensures active + Members(events) == active
    decreases |events|
  {
    if events != [] {
      var last := |events| - 1;
      assert Causal(n, enabled, active, events[..last]) by {
        assert forall k :: 0 <= k < last ==> events[..last][..k] == events[..k];
      }
      NoFirstEvent(n, enabled, active, events[..last]);
      assert enabled(events[last], active + Members(events[..last]));
      assert events == events[..last] + [events[last]];
    }
  }

  /** All reported: then the active handles are the fixpoint. */
  lemma AllReportedIsFixpoint(n: nat, enabled: Dependencies, active: set<nat>, reported: set<nat>)
    requires Caused(n, enabled, active) && reported <= active && (forall i: nat :: i < n ==> i in reported)
    requires forall i <- active :: i < n
    ensures LeastFixpoint(n, enabled, reported) && active == reported
  {
    assert active <= reported;
  }

  // ----- the rounds

  /** The futures of the waiting handles, picked in entry order. */
  method Ask(n: nat, pending: seq<nat>, round: Round) returns (futures: seq<Future<Answer>>)
    requires Increasing(pending) && forall i <- pending :: i < n
    ensures |futures| == |pending|
    ensures forall k :: 0 <= k < |pending| ==> futures[k].result == AnswerOf(round, pending[k])
  {
    var waiting := set i <- pending;
    futures := [];
    for i := 0 to n
      invariant |futures| <= |pending|
      invariant forall k :: 0 <= k < |futures| ==> pending[k] < i && futures[k].result == AnswerOf(round, pending[k])
      invariant forall k :: |futures| <= k < |pending| ==> pending[k] >= i
    {
      if i in waiting {
        var k :| 0 <= k < |pending| && pending[k] == i;
        assert pending[|futures|] >= i;
        assert k == |futures|;
        futures := futures + [Future(round.delays(i), AnswerOf(round, i))];
      } else {
        assert forall k :: 0 <= k < |pending| ==> pending[k] in waiting;
      }
    }
    assert forall k :: 0 <= k < |pending| ==> pending[k] in pending;
  }

  datatype Tally = Tally(next: seq<nat>, errors: seq<nat>, progressed: bool)

  function Sort(pending: seq<nat>, round: Round): Tally {
    if pending == [] then Tally([], [], false)
    else
      var rest := Sort(pending[..|pending| - 1], round);
      var i := pending[|pending| - 1];
      match AnswerOf(round, i)
      case Active => rest.(progressed := true)
      case Pending => rest.(next := rest.next + [i])
      case Failed => rest.(errors := rest.errors + [i])
  }

  /** The loop over results zipped with the waiting indices. */
  method Count(pending: seq<nat>, results: seq<Answer>, ghost round: Round) returns (tally: Tally)
    requires |results| == |pending| && forall k :: 0 <= k < |pending| ==> results[k] == AnswerOf(round, pending[k])
    ensures tally == Sort(pending, round)
  {
    tally := Tally([], [], false);
    for k := 0 to |pending|
      invariant tally == Sort(pending[..k], round)
    {
      assert pending[..k + 1][..k] == pending[..k];
      match results[k] {
        case Active => tally := tally.(progressed := true);
        case Pending => tally := tally.(next := tally.next + [pending[k]]);
        case Failed => tally := tally.(errors := tally.errors + [pending[k]]);
      }
    }
    assert pending[..|pending|] == pending;
  }

  /** The tally splits the waiting indices by their answers and keeps their order. */
  ghost predicate Splits(pending: seq<nat>, round: Round, t: Tally) {
    && Increasing(t.next) && Increasing(t.errors) && |t.next| <= |pending| && (t.progressed ==> |t.next| < |pending|)
    && (forall i: nat :: i in t.next <==> i in pending && AnswerOf(round, i).Pending?)
    && (forall i: nat :: i in t.errors <==> i in pending && AnswerOf(round, i).Failed?)
    && (t.progressed <==> Reporting(pending, round) != {})
  }

  lemma {:induction false} SortSplits(pending: seq<nat>, round: Round)
    requires Increasing(pending)
    ensures Splits(pending, round, Sort(pending, round))
    decreases |pending|
  {
    if pending == [] {
      assert Reporting(pending, round) == {};
    } else {
      SortSplits(pending[..|pending| - 1], round);
      SplitsStep(pending, round, Sort(pending[..|pending| - 1], round));
    }
  }

  lemma ReportingStep(front: seq<nat>, i: nat, round: Round)
    ensures Reporting(front + [i], round) == Reporting(front, round) + if AnswerOf(round, i).Active? then {i} else {}
  {
  }

  lemma SplitsStep(pending: seq<nat>, round: Round, t: Tally)
    requires pending != [] && Increasing(pending) && Splits(pending[..|pending| - 1], round, t)
    ensures var i := pending[|pending| - 1];
            match AnswerOf(round, i)
            case Active => Splits(pending, round, t.(progressed := true))
            case Pending => Splits(pending, round, t.(next := t.next + [i]))
            case Failed => Splits(pending, round, t.(errors := t.errors + [i]))
  {
    hide AnswerOf, Reporting;
    var front, i := pending[..|pending| - 1], pending[|pending| - 1];
    assert pending == front + [i];
    assert forall j <- front :: j < i;
    ReportingStep(front, i, round);
    match AnswerOf(round, i) {
      case Active => assert i in Reporting(pending, round);
      case Pending => assert forall k :: 0 <= k < |t.next| ==> t.next[k] in t.next;
      case Failed => assert forall k :: 0 <= k < |t.errors| ==> t.errors[k] in t.errors;
    }
  }

  /** The indices that reported in this round. */
  function Reporting(pending: seq<nat>, round: Round): set<nat> {
    set i <- pending | AnswerOf(round, i).Active?
  }

  ghost predicate Counted(n: nat, enabled: Dependencies, pending: seq<nat>, active: set<nat>, reported: set<nat>) {
    && Waits(n, pending, reported) && Caused(n, enabled, active)
    && reported <= active && forall i <- active :: i < n
  }

  lemma CausalStaysInside(n: nat, enabled: Dependencies, active: set<nat>, events: seq<nat>)
    requires Causal(n, enabled, active, events)
    ensures forall i <- Members(events) :: i < n
  {
  }

  lemma TurnCounts(n: nat, enabled: Dependencies, pending: seq<nat>, active: set<nat>, reported: set<nat>, round: Round)
    requires Monotone(enabled) && Counted(n, enabled, pending, active, reported)
    requires Faithful(n, enabled, active, reported, round) && Sort(pending, round).errors == []
    ensures Counted(n, enabled, Sort(pending, round).next, active + Members(round.events), reported + Reporting(pending, round))
  {
    SortSplits(pending, round);
    RoundIsCaused(n, enabled, active, round.events);
    CausalStaysInside(n, enabled, active, round.events);
    assert forall i <- pending :: !AnswerOf(round, i).Failed?;
  }

  lemma QuietTurn(n: nat, enabled: Dependencies, pending: seq<nat>, active: set<nat>, reported: set<nat>, round: Round)
    requires Counted(n, enabled, pending, active, reported) && Faithful(n, enabled, active, reported, round)
    requires Sort(pending, round).errors == [] && !Sort(pending, round).progressed
    ensures Reporting(pending, round) == {}
    ensures LeastFixpoint(n, enabled, reported) && active + Members(round.events) == reported
  {
    SortSplits(pending, round);
    forall i: nat | i < n && i !in reported ensures i !in round.reporting && i !in round.failing {
      assert i in pending && i !in Sort(pending, round).errors && i !in Reporting(pending, round);
    }
    QuietRoundIsLast(n, enabled, active, reported, round);
  }

  /**
   Rounds of asking every waiting handle. The errors are, in entry order, those handles that failed in the last round among
   the ones asked in it, which are all that had not reported before; a handle that waits is no error. Unless one
   fails, the handles left active are exactly the least fixpoint of the dependencies, after at most as many rounds
   as there are handles. The last round began with `before` active and `known` reported.
   */
  method ActivateAll(n: nat, enabled: Dependencies, world: World)
      returns (errors: seq<nat>, active: set<nat>, rounds: nat, ghost before: set<nat>, ghost known: set<nat>)
    requires Monotone(enabled) && FaithfulWorld(n, enabled, world)
    ensures rounds == 0 <==> n == 0
    ensures Increasing(errors)
    ensures forall i: nat :: i in errors <==> rounds > 0 && i < n && i !in known && i in world(rounds - 1, before, known).failing
    ensures errors == [] ==> LeastFixpoint(n, enabled, active)
    ensures Caused(n, enabled, active)
    ensures rounds <= n
  {
    hide Faithful, FaithfulWorld, Causal, Caused, LeastFixpoint, Monotone, Sort, Reporting, AnswerOf;
    var pending: seq<nat> := seq(n, i => i);
    NothingIsCaused(n, enabled);
    forall i: nat | i < n ensures i in pending {
      assert pending[i] == i;
    }
    var reported: set<nat> := {};
    active, errors, rounds, before, known := {}, [], 0, {}, {};
    while pending != []
      invariant Counted(n, enabled, pending, active, reported) && errors == []
      invariant rounds + |pending| <= n && (rounds == 0 ==> |pending| == n)
      invariant rounds > 0 ==>
        forall i: nat :: i < n && i !in known ==> i !in world(rounds - 1, before, known).failing
      decreases |pending|
    {
      before, known := active, reported;
      var round := world(rounds, active, reported);
      WorldIsFaithful(n, enabled, world, rounds, active, reported);
      var futures := Ask(n, pending, round);
      var results := AllSettle(futures);
      var tally := Count(pending, results, round);
      FailuresAreErrors(n, pending, reported, round);
      rounds := rounds + 1;
      errors := tally.errors;
      RoundIsCaused(n, enabled, active, round.events);
      if errors != [] {
        active := active + Members(round.events);
        return;
      }
      if !tally.progressed {
        QuietTurn(n, enabled, pending, active, reported, round);
        active := active + Members(round.events);
        return;
      }
      TurnCounts(n, enabled, pending, active, reported, round);
      active := active + Members(round.events);
      reported := reported + Reporting(pending, round);
      pending := tally.next;
    }
    AllReportedIsFixpoint(n, enabled, active, reported);
  }

  lemma NothingIsCaused(n: nat, enabled: Dependencies)
    ensures Caused(n, enabled, {})
  {
  }

  lemma WorldIsFaithful(n: nat, enabled: Dependencies, world: World, r: nat, active: set<nat>, reported: set<nat>)
    requires FaithfulWorld(n, enabled, world)
    ensures Faithful(n, enabled, active, reported, world(r, active, reported))
    ensures Causal(n, enabled, active, world(r, active, reported).events)
  {
  }

  lemma FailuresAreErrors(n: nat, pending: seq<nat>, reported: set<nat>, round: Round)
    requires Waits(n, pending, reported)
    ensures var t := Sort(pending, round);
      && Increasing(t.errors)
      && (forall i: nat :: i in t.errors <==> i < n && i !in reported && i in round.failing)
      && Increasing(t.next) && |t.next| <= |pending| && (t.progressed ==> |t.next| < |pending|)
  {
    SortSplits(pending, round);
  }
}
