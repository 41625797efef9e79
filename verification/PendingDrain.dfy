/**
 Requests racing a disconnect: `begin_request`, replies, timeouts and `disconnect` of
 crates/tessivum-node-bridge/src/supervisor.rs, one lock or channel operation at a time.
 */
module PendingDrain {
  import opened BridgeEndpoints
  import opened Wrappers

  /** Where the thread that made a request stands. */
  datatype Pc =
    | Drawn                          // has an id, not yet in the table
    | Inserted                       // in the table, has not looked at the connection state again
    | Cleared                        // saw the connection up, about to queue the frame
    | Failing(error: Terminal)       // sending failed, about to take its entry out again
    | Waiting                        // waits for a message
    | Finished(result: Terminal)

  /** `inflight` entries have left the table and their message is about to be sent. */
  datatype Table = Table(
    connected: bool, drained: bool, next: RequestId, pcs: map<RequestId, Pc>,
    pending: set<RequestId>, inflight: map<RequestId, Terminal>, mailbox: map<RequestId, Terminal>)

  const INITIAL := Table(true, false, 1, map[], {}, map[], map[])

  datatype Sending = Queued | Full | Stopped

  datatype Event =
    | Draw
    | Insert(id: RequestId)
    | LookAgain(id: RequestId)
    | TrySend(id: RequestId, outcome: Sending)
    | GiveUp(id: RequestId)
    | Receive(id: RequestId)
    | TimeOut(id: RequestId)
    | Remove(id: RequestId, result: Terminal)
    | Deliver(id: RequestId)
    | SetDisconnected
    | Drain

  predicate Is(t: Table, id: RequestId, pc: Pc) {
    id in t.pcs && t.pcs[id] == pc
  }

  function Goto(t: Table, id: RequestId, pc: Pc): Table {
    t.(pcs := t.pcs[id := pc])
  }

  function Next(t: Table, e: Event, capacity: nat): Table {
    match e
    case Draw =>
      if !t.connected || t.next + 2 > MAX_BRIDGE_REQUEST_ID then t else Goto(t.(next := t.next + 2), t.next, Drawn)
    case Insert(id) =>
      if !Is(t, id, Drawn) then t
      else if |t.pending| >= PendingLimit(capacity) then Goto(t, id, Finished(QueueFull))
      else Goto(t.(pending := t.pending + {id}), id, Inserted)
    case LookAgain(id) =>
      if !Is(t, id, Inserted) then t else Goto(t, id, if t.connected then Cleared else Failing(Disconnected))
    case TrySend(id, outcome) =>
      if !Is(t, id, Cleared) then t
      else
        (match outcome
         case Queued => Goto(t, id, Waiting)
         case Full => Goto(t, id, Failing(QueueFull))
         case Stopped => Goto(t.(connected := false), id, Failing(Disconnected)))
    case GiveUp(id) =>
      if id in t.pcs && t.pcs[id].Failing? then Goto(t.(pending := t.pending - {id}), id, Finished(t.pcs[id].error)) else t
    case Receive(id) => if Is(t, id, Waiting) && id in t.mailbox then Goto(t, id, Finished(t.mailbox[id])) else t
    case TimeOut(id) =>
      if !Is(t, id, Waiting) then t
      else if id !in t.pending && id in t.mailbox then Goto(t, id, Finished(t.mailbox[id]))
      else Goto(t.(pending := t.pending - {id}), id, Finished(Cancelled))
    case Remove(id, result) =>
      if id in t.pending then t.(pending := t.pending - {id}, inflight := t.inflight[id := result]) else t
    case Deliver(id) =>
      if id in t.inflight then t.(inflight := t.inflight - {id}, mailbox := t.mailbox[id := t.inflight[id]]) else t
    case SetDisconnected => t.(connected := false)
    case Drain =>
      if t.connected || t.drained then t
      else t.(drained := true, pending := {}, inflight := t.inflight + map id <- t.pending :: Disconnected)
  }

  function Run(t: Table, events: seq<Event>, capacity: nat): Table
    decreases |events|
  {
    if events == [] then t else Next(Run(t, events[..|events| - 1], capacity), events[|events| - 1], capacity)
  }

  // ----- one request seen alone

  /** In the table, on its way, or arrived: one of the three, for a requester that relies on it. */
  ghost predicate At(t: Table, id: RequestId) {
    && (id in t.pending ==> id !in t.inflight && id !in t.mailbox)
    && (id in t.inflight ==> id !in t.mailbox)
    && (id in t.pending || id in t.inflight || id in t.mailbox ==> id in t.pcs && !t.pcs[id].Drawn?)
    && (id in t.pcs ==> id < t.next)
    && (id in t.pending ==> !t.pcs[id].Finished?)
    && (Is(t, id, Inserted) || Is(t, id, Cleared) || Is(t, id, Waiting) ==>
          id in t.pending || id in t.inflight || id in t.mailbox)
    && (t.drained && id in t.pending ==> t.pcs[id].Inserted? || t.pcs[id].Failing?)
  }

  ghost predicate Inv(t: Table, capacity: nat) {
    && (t.drained ==> !t.connected)
    && |t.pending| <= PendingLimit(capacity)
    && forall id: RequestId :: At(t, id)
  }

  /** The requester's own steps up to waiting. */
  lemma RequestingAt(t: Table, e: Event, capacity: nat, id: RequestId)
    requires At(t, id) && (t.drained ==> !t.connected)
    requires e.Draw? || e.Insert? || e.LookAgain? || e.TrySend? || e.GiveUp?
    requires e.Draw? ==> At(t, t.next)
    ensures At(Next(t, e, capacity), id)
  {
  }

  /** Everything that takes an entry out of the table, or hands a message over. */
  lemma EndingAt(t: Table, e: Event, capacity: nat, id: RequestId)
    requires At(t, id) && (t.drained ==> !t.connected)
    requires !(e.Draw? || e.Insert? || e.LookAgain? || e.TrySend? || e.GiveUp?)
    ensures At(Next(t, e, capacity), id)
  {
  }

  lemma PendingShrinks(t: Table, e: Event, capacity: nat)
    requires t.drained ==> !t.connected
    ensures !e.Insert? ==> Next(t, e, capacity).pending <= t.pending
    ensures Next(t, e, capacity).drained ==> !Next(t, e, capacity).connected
  {
  }

  lemma StepKeepsBound(t: Table, e: Event, capacity: nat)
    requires |t.pending| <= PendingLimit(capacity) && (t.drained ==> !t.connected)
    ensures |Next(t, e, capacity).pending| <= PendingLimit(capacity)
    ensures Next(t, e, capacity).drained ==> !Next(t, e, capacity).connected
  {
    PendingShrinks(t, e, capacity);
    if e.Insert? {
      assert |t.pending + {e.id}| <= |t.pending| + 1;
    } else {
      hide Next;
      Smaller(Next(t, e, capacity).pending, t.pending);
    }
  }

  lemma Smaller(a: set<RequestId>, b: set<RequestId>)
    requires a <= b
    ensures |a| <= |b|
  {
    assert b == a + (b - a);
  }

  lemma StepKeeps(t: Table, e: Event, capacity: nat)
    requires Inv(t, capacity)
    ensures Inv(Next(t, e, capacity), capacity)
  {
    hide Next, At;
    StepKeepsBound(t, e, capacity);
    assert At(t, t.next);
    forall id: RequestId ensures At(Next(t, e, capacity), id) {
      assert At(t, id);
      if e.Draw? || e.Insert? || e.LookAgain? || e.TrySend? || e.GiveUp? {
        RequestingAt(t, e, capacity, id);
      } else {
        EndingAt(t, e, capacity, id);
      }
    }
  }

  lemma {:induction false} RunsKeep(events: seq<Event>, capacity: nat)
    ensures Inv(Run(INITIAL, events, capacity), capacity)
    decreases |events|
  {
    hide Next;
    if events != [] {
      RunsKeep(events[..|events| - 1], capacity);
      StepKeeps(Run(INITIAL, events[..|events| - 1], capacity), events[|events| - 1], capacity);
    }
  }

  // ----- what a disconnect leaves behind

  /** After the drain the table holds only requesters that have still to see the disconnect and take their entry out. */
  lemma DrainLeavesOnlyObservers(events: seq<Event>, capacity: nat, id: RequestId)
    ensures var t := Run(INITIAL, events, capacity);
            && (t.drained && id in t.pending ==> id in t.pcs && (t.pcs[id].Inserted? || t.pcs[id].Failing?))
            && (t.drained && Is(t, id, Waiting) ==> id in t.inflight || id in t.mailbox)
  {
    RunsKeep(events, capacity);
    assert At(Run(INITIAL, events, capacity), id);
  }

  /** The table never exceeds its bound, in no interleaving. */
  lemma {:induction false} TableIsBounded(events: seq<Event>, capacity: nat)
    ensures |Run(INITIAL, events, capacity).pending| <= PendingLimit(capacity) <= MAX_PENDING_REQUESTS
  {
    RunsKeep(events, capacity);
  }

  /** What is left for a requester to do once the connection is down: its own steps, and a message on its way to it. */
  function Remaining(t: Table, id: RequestId): seq<Event>
    requires id in t.pcs
  {
    var receipt := if id in t.inflight then [Deliver(id), Receive(id)] else [Receive(id)];
    match t.pcs[id]
    case Drawn => [Insert(id), LookAgain(id), GiveUp(id)]
    case Inserted => [LookAgain(id), GiveUp(id)]
    case Failing(_) => [GiveUp(id)]
    case Cleared => [TrySend(id, Queued)] + receipt
    case Waiting => receipt
    case Finished(_) => []
  }

  lemma RunOne(t: Table, a: Event, capacity: nat)
    ensures Run(t, [a], capacity) == Next(t, a, capacity)
  {
    assert [a][..0] == [];
  }

  lemma RunTwo(t: Table, a: Event, b: Event, capacity: nat)
    ensures Run(t, [a, b], capacity) == Next(Next(t, a, capacity), b, capacity)
  {
    hide Next;
    assert [a, b][..1] == [a];
    RunOne(t, a, capacity);
  }

  lemma RunThree(t: Table, a: Event, b: Event, c: Event, capacity: nat)
    ensures Run(t, [a, b, c], capacity) == Next(Next(Next(t, a, capacity), b, capacity), c, capacity)
  {
    hide Next;
    assert [a, b, c][..2] == [a, b];
    RunTwo(t, a, b, capacity);
  }

  /** How a request ends after the drain: with what was sent to it before, with its own error, and otherwise disconnected. */
  function StrandedResult(t: Table, capacity: nat, id: RequestId): Terminal
    requires id in t.pcs
  {
    match t.pcs[id]
    case Drawn => if |t.pending| >= PendingLimit(capacity) then QueueFull else Disconnected
    case Inserted => Disconnected
    case Failing(error) => error
    case Finished(result) => result
    case _ => if id in t.inflight then t.inflight[id] else if id in t.mailbox then t.mailbox[id] else Disconnected
  }

  /** No request is stranded: after the drain those few steps finish it, without the peer and without a timeout. */
  lemma NoRequestIsStranded(t: Table, capacity: nat, id: RequestId)
    requires Inv(t, capacity) && t.drained && id in t.pcs
    ensures |Remaining(t, id)| <= 3 && Is(Run(t, Remaining(t, id), capacity), id, Finished(StrandedResult(t, capacity, id)))
  {
    assert At(t, id);
    hide Inv, Run;
    match t.pcs[id]
    case Drawn =>
      RunThree(t, Insert(id), LookAgain(id), GiveUp(id), capacity);
      RunFull(t, capacity, id);
    case Inserted => RunTwo(t, LookAgain(id), GiveUp(id), capacity);
    case Failing(_) => RunOne(t, GiveUp(id), capacity);
    case Cleared =>
      assert [TrySend(id, Queued)] + [Deliver(id), Receive(id)] == [TrySend(id, Queued), Deliver(id), Receive(id)];
      assert [TrySend(id, Queued)] + [Receive(id)] == [TrySend(id, Queued), Receive(id)];
      RunThree(t, TrySend(id, Queued), Deliver(id), Receive(id), capacity);
      RunTwo(t, TrySend(id, Queued), Receive(id), capacity);
    case Waiting =>
      RunTwo(t, Deliver(id), Receive(id), capacity);
      RunOne(t, Receive(id), capacity);
    case Finished(_) => RunNone(t, capacity);
  }

  lemma RunNone(t: Table, capacity: nat)
    ensures Run(t, [], capacity) == t
  {
  }

  lemma RunFull(t: Table, capacity: nat, id: RequestId)
    requires Is(t, id, Drawn) && !t.connected
    ensures Is(Next(Next(Next(t, Insert(id), capacity), LookAgain(id), capacity), GiveUp(id), capacity), id,
               Finished(if |t.pending| >= PendingLimit(capacity) then QueueFull else Disconnected))
  {
  }

  // ----- with what requests end

  /** The event may end the request `id` with `r`. */
  predicate Cause(t: Table, e: Event, id: RequestId, r: Terminal, capacity: nat) {
    || (e == Remove(id, r) && id in t.pending)
    || (match r
        case QueueFull => (e == Insert(id) && |t.pending| >= PendingLimit(capacity)) || e == TrySend(id, Full)
        case Disconnected => e == SetDisconnected || (e.TrySend? && e.outcome == Stopped)
        case Cancelled => e == TimeOut(id)
        case _ => false)
  }

  ghost predicate Caused(events: seq<Event>, id: RequestId, r: Terminal, capacity: nat) {
    exists k: nat :: k < |events| && Cause(Run(INITIAL, events[..k], capacity), events[k], id, r, capacity)
  }

  ghost predicate JustifiedAt(t: Table, events: seq<Event>, id: RequestId, capacity: nat) {
    && (id in t.inflight ==> Caused(events, id, t.inflight[id], capacity))
    && (id in t.mailbox ==> Caused(events, id, t.mailbox[id], capacity))
    && (id in t.pcs && t.pcs[id].Failing? ==> Caused(events, id, t.pcs[id].error, capacity))
    && (id in t.pcs && t.pcs[id].Finished? ==> Caused(events, id, t.pcs[id].result, capacity))
    && (!t.connected ==> Caused(events, id, Disconnected, capacity))
  }

  lemma CausesStay(events: seq<Event>, e: Event, id: RequestId, r: Terminal, capacity: nat)
    ensures Caused(events, id, r, capacity) ==> Caused(events + [e], id, r, capacity)
    ensures Cause(Run(INITIAL, events, capacity), e, id, r, capacity) ==> Caused(events + [e], id, r, capacity)
  {
    hide Run, Cause;
    var more, n := events + [e], |events|;
    assert more[..n] == events && more[n] == e;
    assert forall k: nat :: k < n ==> more[..k] == events[..k] && more[k] == events[k];
  }

  /** Where a result, an error, a message or the end of the connection comes from in one step. */
  lemma StepSources(t: Table, e: Event, id: RequestId, capacity: nat)
    requires t.drained ==> !t.connected
    ensures var n := Next(t, e, capacity);
      && (id in n.inflight ==>
            (id in t.inflight && n.inflight[id] == t.inflight[id]) || Cause(t, e, id, n.inflight[id], capacity)
            || (n.inflight[id] == Disconnected && !t.connected))
      && (id in n.mailbox ==>
            (id in t.mailbox && n.mailbox[id] == t.mailbox[id]) || (id in t.inflight && n.mailbox[id] == t.inflight[id]))
      && (!n.connected ==> !t.connected || Cause(t, e, id, Disconnected, capacity))
  {
  }

  lemma StepFailures(t: Table, e: Event, id: RequestId, capacity: nat)
    ensures var n := Next(t, e, capacity);
      id in n.pcs && n.pcs[id].Failing? ==>
        || Is(t, id, n.pcs[id]) || Cause(t, e, id, n.pcs[id].error, capacity)
        || (n.pcs[id].error == Disconnected && (!t.connected || !n.connected))
  {
  }

  lemma StepResults(t: Table, e: Event, id: RequestId, capacity: nat)
    ensures var n := Next(t, e, capacity);
      id in n.pcs && n.pcs[id].Finished? ==>
        || Is(t, id, n.pcs[id]) || Cause(t, e, id, n.pcs[id].result, capacity)
        || Is(t, id, Failing(n.pcs[id].result)) || (id in t.mailbox && n.pcs[id].result == t.mailbox[id])
  {
  }

  lemma {:induction false} ResultsHaveCauses(events: seq<Event>, id: RequestId, capacity: nat)
    ensures JustifiedAt(Run(INITIAL, events, capacity), events, id, capacity)
    decreases |events|
  {
    if events != [] {
      var front, e := events[..|events| - 1], events[|events| - 1];
      assert events == front + [e];
      ResultsHaveCauses(front, id, capacity);
      RunsKeep(front, capacity);
      var t, n := Run(INITIAL, front, capacity), Run(INITIAL, events, capacity);
      StepSources(t, e, id, capacity);
      StepFailures(t, e, id, capacity);
      StepResults(t, e, id, capacity);
      hide Next, Run, Caused, Cause, Inv;
      if id in n.inflight { CausesStay(front, e, id, n.inflight[id], capacity); }
      if id in n.mailbox { CausesStay(front, e, id, n.mailbox[id], capacity); }
      if id in n.pcs && n.pcs[id].Failing? { CausesStay(front, e, id, n.pcs[id].error, capacity); }
      if id in n.pcs && n.pcs[id].Finished? { CausesStay(front, e, id, n.pcs[id].result, capacity); }
      CausesStay(front, e, id, Disconnected, capacity);
    }
  }

  // ----- the first terminal event wins

  /** A message that has arrived is what the requester gets, even if its time runs out before it looks. */
  ghost predicate Gets(t: Table, id: RequestId, r: Terminal) {
    id !in t.pending && (Is(t, id, Finished(r)) || (Is(t, id, Waiting) && id in t.mailbox && t.mailbox[id] == r))
  }

  lemma RequestingGets(t: Table, e: Event, id: RequestId, r: Terminal, capacity: nat)
    requires At(t, id) && Gets(t, id, r)
    requires e.Draw? || e.Insert? || e.LookAgain? || e.TrySend? || e.GiveUp?
    ensures Gets(Next(t, e, capacity), id, r)
  {
  }

  lemma EndingGets(t: Table, e: Event, id: RequestId, r: Terminal, capacity: nat)
    requires At(t, id) && Gets(t, id, r)
    requires !(e.Draw? || e.Insert? || e.LookAgain? || e.TrySend? || e.GiveUp?)
    ensures Gets(Next(t, e, capacity), id, r)
  {
  }

  lemma {:induction false} ArrivedMessageWins(events: seq<Event>, more: seq<Event>, id: RequestId, capacity: nat)
    requires var t := Run(INITIAL, events, capacity); Is(t, id, Waiting) && id in t.mailbox
    ensures Gets(Run(INITIAL, events + more, capacity), id, Run(INITIAL, events, capacity).mailbox[id])
    decreases |more|
  {
    RunsKeep(events, capacity);
    if more == [] {
      assert events + more == events;
      assert At(Run(INITIAL, events, capacity), id);
    } else {
      var n := |more| - 1;
      ArrivedMessageWins(events, more[..n], id, capacity);
      RunsKeep(events + more[..n], capacity);
      var t := Run(INITIAL, events + more[..n], capacity);
      assert At(t, id);
      assert (events + more)[..|events + more| - 1] == events + more[..n];
      hide Next, Run, At, Inv;
      if more[n].Draw? || more[n].Insert? || more[n].LookAgain? || more[n].TrySend? || more[n].GiveUp? {
        RequestingGets(t, more[n], id, Run(INITIAL, events, capacity).mailbox[id], capacity);
      } else {
        EndingGets(t, more[n], id, Run(INITIAL, events, capacity).mailbox[id], capacity);
      }
    }
  }

  // ----- requests that nothing disturbs

  /** Ids are drawn in steps of two up to the limit, while the connection is up. */
  lemma DrawsAreFresh(t: Table, capacity: nat)
    requires Inv(t, capacity)
    ensures var n := Next(t, Draw, capacity);
      if t.connected && t.next + 2 <= MAX_BRIDGE_REQUEST_ID then
        t.next !in t.pcs && n == t.(next := t.next + 2, pcs := t.pcs[t.next := Drawn])
      else n == t
  {
    assert At(t, t.next);
  }

  /** The state in which a request has been sent. */
  function Sent(t: Table): Table {
    t.(next := t.next + 2, pcs := t.pcs[t.next := Waiting], pending := t.pending + {t.next})
  }

  lemma RequestIsSent(t: Table, capacity: nat)
    requires Inv(t, capacity) && t.connected && t.next + 2 <= MAX_BRIDGE_REQUEST_ID && |t.pending| < PendingLimit(capacity)
    ensures var id := t.next;
      Next(Next(Next(Next(t, Draw, capacity), Insert(id), capacity), LookAgain(id), capacity), TrySend(id, Queued), capacity) == Sent(t)
  {
    hide Inv;
    var id := t.next;
    var drawn := Next(t, Draw, capacity);
    var inserted := Next(drawn, Insert(id), capacity);
    var cleared := Next(inserted, LookAgain(id), capacity);
    assert drawn == t.(next := t.next + 2, pcs := t.pcs[id := Drawn]);
    assert inserted == t.(next := t.next + 2, pcs := t.pcs[id := Inserted], pending := t.pending + {id});
    assert cleared == t.(next := t.next + 2, pcs := t.pcs[id := Cleared], pending := t.pending + {id});
  }

  /** A request that has been sent ends with what is sent back to it, or cancelled if its time runs out before. */
  lemma SentRequestEnds(t: Table, r: Terminal, capacity: nat)
    requires Inv(t, capacity)
    ensures var id := t.next;
      var end := Next(Next(Next(Sent(t), Remove(id, r), capacity), Deliver(id), capacity), Receive(id), capacity);
      && Is(end, id, Finished(r)) && end.pending == t.pending && end.connected == t.connected
      && Is(Next(Sent(t), TimeOut(id), capacity), id, Finished(Cancelled))
      && Next(Sent(t), TimeOut(id), capacity).pending == t.pending
  {
    assert At(t, t.next);
    hide Inv;
    assert t.next !in t.pcs && t.next !in t.pending && t.next !in t.mailbox;
    assert t.pending + {t.next} - {t.next} == t.pending;
  }

  /** Both ways to lose the connection close it, and the drain that follows empties the table into messages. */
  lemma DisconnectDrains(t: Table, id: RequestId, capacity: nat)
    ensures !Next(t, SetDisconnected, capacity).connected
    ensures Is(t, id, Cleared) ==> !Next(t, TrySend(id, Stopped), capacity).connected
    ensures !t.connected && !t.drained ==>
      var n := Next(t, Drain, capacity);
      n.drained && n.pending == {} && forall other <- t.pending :: other in n.inflight && n.inflight[other] == Disconnected
  {
  }
}
