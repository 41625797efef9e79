/** With what the requests of the bridge end: every result has its cause in the run, and what is under way arrives. */
module BridgeOutcomes {
  import opened BridgeEndpoints
  import opened BridgeRuns
  import opened Wrappers

  // ----- causes

  predicate HostIsFull(h: Host, route: bool) {
    if route then |Invokes(h.incoming)| >= MAX_INCOMING else |h.incoming| + |h.queued| >= MAX_INCOMING
  }

  /** The host answers the client's request `id`: it finishes it, refuses it, or has been told to cancel it. */
  predicate HostAnswers(s: System, e: Event, id: RequestId, ok: bool) {
    || e == HostFinish(id, ok, true)
    || (&& !ok && e == HostReceive(true) && s.host.ready && s.toHost != [] && s.toHost[0].id == id
        && (s.toHost[0].Cancel? || (s.toHost[0].Request? && HostIsFull(s.host, s.toHost[0].flag))))
  }

  /** The client answers the host's request `id`: it responds, or refuses one more cancellable request. */
  predicate ClientAnswers(s: System, e: Event, id: RequestId, ok: bool, capacity: nat) {
    || e == ClientRespond(id, ok, true)
    || (&& !ok && e == ClientReceive(true) && s.client.ready && s.toClient != []
        && s.toClient[0] == Request(id, true) && |s.client.cancellable| >= capacity)
  }

  /** What may end a request of the client with `t`. */
  predicate ClientCause(s: System, e: Event, id: RequestId, t: Terminal, capacity: nat) {
    match t
    case Answered(ok) => HostAnswers(s, e, id, ok)
    case Cancelled => e.ClientCancel? && e.id == id
    case QueueFull =>
      || (e == ClientBegin && s.client.next == id && |s.client.pending| >= PendingLimit(capacity))
      || (e.ClientTransmit? && e.id == id && !e.room)
    case Disconnected => e == ClientDisconnect
    case WriteFailed => false
    case Closing => false
  }

  /** What may end a request of the host with `t`. */
  predicate HostCause(s: System, e: Event, id: RequestId, t: Terminal, capacity: nat) {
    match t
    case Answered(ok) => ClientAnswers(s, e, id, ok, capacity)
    case Cancelled => e.HostCancel? && e.id == id
    case WriteFailed => e.HostBegin? && !e.written && s.host.next == id
    case Closing => e == HostShutdown
    case QueueFull => false
    case Disconnected => false
  }

  ghost predicate ClientCaused(events: seq<Event>, id: RequestId, t: Terminal, capacity: nat) {
    exists k: nat :: k < |events| && ClientCause(Run(INITIAL, events[..k], capacity), events[k], id, t, capacity)
  }

  ghost predicate HostCaused(events: seq<Event>, id: RequestId, t: Terminal, capacity: nat) {
    exists k: nat :: k < |events| && HostCause(Run(INITIAL, events[..k], capacity), events[k], id, t, capacity)
  }

  lemma NewReplyToClient(s: System, e: Event, id: RequestId, ok: bool, capacity: nat)
    requires Reply(id, ok) in Next(s, e, capacity).toClient
    ensures Reply(id, ok) in s.toClient || HostAnswers(s, e, id, ok)
  {
    hide Dispatch, Transmit, CancelPending, Respond, Begin, Release, Disconnect, Shutdown;
  }

  lemma NewReplyToHost(s: System, e: Event, id: RequestId, ok: bool, capacity: nat)
    requires Reply(id, ok) in Next(s, e, capacity).toHost
    ensures Reply(id, ok) in s.toHost || ClientAnswers(s, e, id, ok, capacity)
  {
    hide Receive, Finish, BeginRemote, CancelRemote, Start, Shutdown;
  }

  ghost predicate Closed(s: System) {
    !s.client.ready ==> s.client.pending == {}
  }

  lemma ClosedStep(s: System, e: Event, capacity: nat)
    requires Closed(s)
    ensures Closed(Next(s, e, capacity))
  {
    hide Receive, Finish, BeginRemote, CancelRemote, Start, Shutdown, Send;
  }

  /** A new result of the client: a reply has been received, or the event itself ends the request. */
  lemma NewClientResult(s: System, e: Event, id: RequestId, capacity: nat)
    requires At(s, id) && Closed(s) && id !in s.client.results && id in Next(s, e, capacity).client.results
    ensures var t := Next(s, e, capacity).client.results[id];
      || (t.Answered? && e.ClientReceive? && s.toClient != [] && s.toClient[0] == Reply(id, t.ok))
      || (!t.Answered? && ClientCause(s, e, id, t, capacity))
  {
    hide Receive, Finish, BeginRemote, CancelRemote, Start, Shutdown, Send;
  }

  /** Receiving a frame without a fault ends a request of the host only by a reply, or a cancel of that very id. */
  lemma ReceiveEnds(h: Host, frame: Frame, written: bool, id: RequestId)
    requires !Receive(h, frame, written).state.faulted
    requires id !in h.results && id in Receive(h, frame, written).state.results
    ensures (frame.Reply? && frame.id == id && Receive(h, frame, written).state.results[id] == Answered(frame.ok))
      || (frame == Cancel(id) && id in h.outgoing)
  {
    hide Invokes, EndAll;
  }

  lemma NewHostResultReceived(s: System, e: Event, id: RequestId, capacity: nat)
    requires Inv(s) && e.HostReceive? && id !in s.host.results && id in Next(s, e, capacity).host.results
    ensures var t := Next(s, e, capacity).host.results[id];
      t.Answered? && s.toHost != [] && s.toHost[0] == Reply(id, t.ok)
  {
    NoFault(s, e, capacity);
    hide Receive, Inv, At;
    if s.toHost != [] {
      HeadAt(s, s.toHost[0].id);
      ReceiveEnds(s.host, s.toHost[0], e.written, id);
      if s.toHost[0] == Cancel(id) { CancelIsForClients(s); }
    }
  }

  lemma NewHostResultMade(s: System, e: Event, id: RequestId, capacity: nat)
    requires !e.HostReceive? && !Next(s, e, capacity).host.faulted
    requires id !in s.host.results && id in Next(s, e, capacity).host.results
    ensures var t := Next(s, e, capacity).host.results[id]; !t.Answered? && HostCause(s, e, id, t, capacity)
  {
    hide Receive, Dispatch, Transmit, CancelPending, Respond, Begin, Release, Disconnect;
  }

  lemma NewHostResult(s: System, e: Event, id: RequestId, capacity: nat)
    requires Inv(s) && id !in s.host.results && id in Next(s, e, capacity).host.results
    ensures var t := Next(s, e, capacity).host.results[id];
      || (t.Answered? && e.HostReceive? && s.toHost != [] && s.toHost[0] == Reply(id, t.ok))
      || (!t.Answered? && HostCause(s, e, id, t, capacity))
  {
    NoFault(s, e, capacity);
    hide Next, Inv, HostCause;
    if e.HostReceive? {
      NewHostResultReceived(s, e, id, capacity);
    } else {
      NewHostResultMade(s, e, id, capacity);
    }
  }

  lemma CancelIsForClients(s: System)
    requires s.toHost != [] && s.toHost[0].Cancel? && At(s, s.toHost[0].id)
    ensures s.toHost[0].id !in s.host.outgoing
  {
  }

  ghost predicate Justified(s: System, events: seq<Event>, capacity: nat) {
    && Closed(s)
    && (forall id, ok :: Reply(id, ok) in s.toClient ==> ClientCaused(events, id, Answered(ok), capacity))
    && (forall id, ok :: Reply(id, ok) in s.toHost ==> HostCaused(events, id, Answered(ok), capacity))
    && (forall id :: id in s.client.results ==> ClientCaused(events, id, s.client.results[id], capacity))
    && (forall id :: id in s.host.results ==> HostCaused(events, id, s.host.results[id], capacity))
  }

  lemma CausesStay(events: seq<Event>, e: Event, id: RequestId, t: Terminal, capacity: nat)
    ensures ClientCaused(events, id, t, capacity) ==> ClientCaused(events + [e], id, t, capacity)
    ensures HostCaused(events, id, t, capacity) ==> HostCaused(events + [e], id, t, capacity)
    ensures ClientCause(Run(INITIAL, events, capacity), e, id, t, capacity) ==> ClientCaused(events + [e], id, t, capacity)
    ensures HostCause(Run(INITIAL, events, capacity), e, id, t, capacity) ==> HostCaused(events + [e], id, t, capacity)
  {
    hide Run, ClientCause, HostCause;
    var more, n := events + [e], |events|;
    assert more[..n] == events && more[n] == e;
    assert forall k: nat :: k < n ==> more[..k] == events[..k] && more[k] == events[k];
  }

  lemma RepliesJustified(front: seq<Event>, e: Event, capacity: nat)
    requires Justified(Run(INITIAL, front, capacity), front, capacity)
    ensures var s := Run(INITIAL, front + [e], capacity);
      && (forall id, ok :: Reply(id, ok) in s.toClient ==> ClientCaused(front + [e], id, Answered(ok), capacity))
      && (forall id, ok :: Reply(id, ok) in s.toHost ==> HostCaused(front + [e], id, Answered(ok), capacity))
  {
    RunMore(front, e, capacity);
    hide Next, Run, Inv, ClientCaused, HostCaused, HostAnswers, ClientAnswers;
    var before, s := Run(INITIAL, front, capacity), Run(INITIAL, front + [e], capacity);
    forall id, ok | Reply(id, ok) in s.toClient ensures ClientCaused(front + [e], id, Answered(ok), capacity) {
      CausesStay(front, e, id, Answered(ok), capacity);
      NewReplyToClient(before, e, id, ok, capacity);
    }
    forall id, ok | Reply(id, ok) in s.toHost ensures HostCaused(front + [e], id, Answered(ok), capacity) {
      CausesStay(front, e, id, Answered(ok), capacity);
      NewReplyToHost(before, e, id, ok, capacity);
    }
  }

  lemma RunMore(events: seq<Event>, e: Event, capacity: nat)
    ensures Run(INITIAL, events + [e], capacity) == Next(Run(INITIAL, events, capacity), e, capacity)
  {
    assert (events + [e])[..|events|] == events;
  }

  lemma ClientResultJustified(front: seq<Event>, e: Event, id: RequestId, capacity: nat)
    requires Inv(Run(INITIAL, front, capacity)) && Justified(Run(INITIAL, front, capacity), front, capacity)
    requires id in Run(INITIAL, front + [e], capacity).client.results
    ensures ClientCaused(front + [e], id, Run(INITIAL, front + [e], capacity).client.results[id], capacity)
  {
    RunMore(front, e, capacity);
    hide Next, Run, ClientCaused, HostCaused, ClientCause, At, Inv;
    var before, s := Run(INITIAL, front, capacity), Run(INITIAL, front + [e], capacity);
    CausesStay(front, e, id, s.client.results[id], capacity);
    HeadAt(before, id);
    if id in before.client.results {
      ResultsAreFinal(before, e, capacity, id);
    } else {
      NewClientResult(before, e, id, capacity);
    }
  }

  lemma HostResultJustified(front: seq<Event>, e: Event, id: RequestId, capacity: nat)
    requires Inv(Run(INITIAL, front, capacity)) && Justified(Run(INITIAL, front, capacity), front, capacity)
    requires id in Run(INITIAL, front + [e], capacity).host.results
    ensures HostCaused(front + [e], id, Run(INITIAL, front + [e], capacity).host.results[id], capacity)
  {
    RunMore(front, e, capacity);
    hide Next, Run, ClientCaused, HostCaused, HostCause, At, Inv;
    var before, s := Run(INITIAL, front, capacity), Run(INITIAL, front + [e], capacity);
    CausesStay(front, e, id, s.host.results[id], capacity);
    if id in before.host.results {
      ResultsAreFinal(before, e, capacity, id);
    } else {
      NewHostResult(before, e, id, capacity);
    }
  }

  lemma {:induction false} RunsAreJustified(events: seq<Event>, capacity: nat)
    ensures Justified(Run(INITIAL, events, capacity), events, capacity)
    decreases |events|
  {
    if events != [] {
      var front, e := events[..|events| - 1], events[|events| - 1];
      assert events == front + [e];
      RunsAreJustified(front, capacity);
      RunsAreSafe(front, capacity);
      RunMore(front, e, capacity);
      ClosedStep(Run(INITIAL, front, capacity), e, capacity);
      RepliesJustified(front, e, capacity);
      hide Run, Next, Inv, ClientCaused, HostCaused;
      forall id | id in Run(INITIAL, events, capacity).client.results
        ensures ClientCaused(events, id, Run(INITIAL, events, capacity).client.results[id], capacity)
      {
        ClientResultJustified(front, e, id, capacity);
      }
      forall id | id in Run(INITIAL, events, capacity).host.results
        ensures HostCaused(events, id, Run(INITIAL, events, capacity).host.results[id], capacity)
      {
        HostResultJustified(front, e, id, capacity);
      }
    }
  }

  /**
   A request of the client ends with what the host or the client did to it: answered as the host finished it, or with an
   error that the host sent because it was full or had been told to cancel; cancelled, refused or disconnected only
   by an event that does just that.
   */
  lemma ClientResultsHaveCauses(events: seq<Event>, id: RequestId, capacity: nat)
    requires id in Run(INITIAL, events, capacity).client.results
    ensures var t := Run(INITIAL, events, capacity).client.results[id];
      && ClientCaused(events, id, t, capacity)
      && (t == Answered(true) ==> HostFinish(id, true, true) in events)
      && (t == Cancelled ==> exists e <- events :: e.ClientCancel? && e.id == id)
      && (t == Disconnected ==> ClientDisconnect in events)
      && t != WriteFailed && t != Closing
  {
    RunsAreJustified(events, capacity);
    hide Run;
    var t := Run(INITIAL, events, capacity).client.results[id];
    var k: nat :| k < |events| && ClientCause(Run(INITIAL, events[..k], capacity), events[k], id, t, capacity);
    assert events[k] in events;
  }

  lemma HostResultsHaveCauses(events: seq<Event>, id: RequestId, capacity: nat)
    requires id in Run(INITIAL, events, capacity).host.results
    ensures var t := Run(INITIAL, events, capacity).host.results[id];
      && HostCaused(events, id, t, capacity)
      && (t == Answered(true) ==> ClientRespond(id, true, true) in events)
      && (t == Cancelled ==> exists e <- events :: e.HostCancel? && e.id == id)
      && (t == Closing ==> HostShutdown in events)
      && t != QueueFull && t != Disconnected
  {
    RunsAreJustified(events, capacity);
    hide Run;
    var t := Run(INITIAL, events, capacity).host.results[id];
    var k: nat :| k < |events| && HostCause(Run(INITIAL, events[..k], capacity), events[k], id, t, capacity);
    assert events[k] in events;
  }
}
