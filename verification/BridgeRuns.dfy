/** Both ends of the bridge over two queues that keep order, under every interleaving of their steps. */
module BridgeRuns {
  import opened BridgeEndpoints
  import opened Wrappers

  datatype System = System(client: Client, host: Host, toHost: seq<Frame>, toClient: seq<Frame>)

  const INITIAL := System(NEW_CLIENT, NEW_HOST, [], [])

  /** `room` and `written` say whether a frame can be queued; a frame that cannot is lost. */
  datatype Event =
    | ClientBegin
    | ClientTransmit(id: RequestId, flag: bool, room: bool)
    | ClientCancel(id: RequestId, room: bool)
    | ClientReceive(room: bool)
    | ClientRespond(id: RequestId, ok: bool, room: bool)
    | ClientRelease(id: RequestId)
    | ClientDisconnect
    | HostBegin(flag: bool, written: bool)
    | HostCancel(id: RequestId, written: bool)
    | HostReceive(written: bool)
    | HostStart(id: RequestId)
    | HostFinish(id: RequestId, ok: bool, written: bool)
    | HostShutdown

  function ClientSteps(s: System, step: Step<Client>): System {
    s.(client := step.state, toHost := s.toHost + step.sent)
  }

  function HostSteps(s: System, step: Step<Host>): System {
    s.(host := step.state, toClient := s.toClient + step.sent)
  }

  function Next(s: System, e: Event, capacity: nat): System {
    match e
    case ClientBegin => s.(client := Begin(s.client, capacity))
    case ClientTransmit(id, flag, room) => ClientSteps(s, Transmit(s.client, id, flag, room))
    case ClientCancel(id, room) => ClientSteps(s, CancelPending(s.client, id, room))
    case ClientReceive(room) =>
      if s.toClient == [] then s
      else ClientSteps(s.(toClient := s.toClient[1..]), Dispatch(s.client, s.toClient[0], capacity, room))
    case ClientRespond(id, ok, room) => ClientSteps(s, Respond(s.client, id, ok, room))
    case ClientRelease(id) => s.(client := Release(s.client, id))
    case ClientDisconnect => s.(client := Disconnect(s.client))
    case HostBegin(flag, written) => HostSteps(s, BeginRemote(s.host, flag, written))
    case HostCancel(id, written) => HostSteps(s, CancelRemote(s.host, id, written))
    case HostReceive(written) =>
      if s.toHost == [] then s
      else HostSteps(s.(toHost := s.toHost[1..]), Receive(s.host, s.toHost[0], written))
    case HostStart(id) => s.(host := Start(s.host, id))
    case HostFinish(id, ok, written) => HostSteps(s, Finish(s.host, id, ok, written))
    case HostShutdown => s.(host := Shutdown(s.host))
  }

  function Run(s: System, events: seq<Event>, capacity: nat): System
    decreases |events|
  {
    if events == [] then s else Next(Run(s, events[..|events| - 1], capacity), events[|events| - 1], capacity)
  }

  // ----- frames on the way

  function Requests(ch: seq<Frame>, id: RequestId): nat {
    if ch == [] then 0 else (if ch[0].Request? && ch[0].id == id then 1 else 0) + Requests(ch[1..], id)
  }

  function Replies(ch: seq<Frame>, id: RequestId): nat {
    if ch == [] then 0 else (if ch[0].Reply? && ch[0].id == id then 1 else 0) + Replies(ch[1..], id)
  }

  function Cancels(ch: seq<Frame>, id: RequestId): nat {
    if ch == [] then 0 else (if ch[0].Cancel? && ch[0].id == id then 1 else 0) + Cancels(ch[1..], id)
  }

  lemma {:induction false} FramesJoin(a: seq<Frame>, b: seq<Frame>, id: RequestId)
    ensures Requests(a + b, id) == Requests(a, id) + Requests(b, id)
    ensures Replies(a + b, id) == Replies(a, id) + Replies(b, id)
    ensures Cancels(a + b, id) == Cancels(a, id) + Cancels(b, id)
    decreases |a|
  {
    if a == [] {
      assert a + b == b;
    } else {
      assert (a + b)[1..] == a[1..] + b;
      FramesJoin(a[1..], b, id);
    }
  }

  lemma OneFrame(f: Frame, id: RequestId)
    ensures Requests([f], id) == if f.Request? && f.id == id then 1 else 0
    ensures Replies([f], id) == if f.Reply? && f.id == id then 1 else 0
    ensures Cancels([f], id) == if f.Cancel? && f.id == id then 1 else 0
  {
    assert [f][1..] == [];
  }

  /** Appending no frame, or one. */
  lemma Appended(ch: seq<Frame>, sent: seq<Frame>, id: RequestId)
    requires |sent| <= 1
    ensures sent == [] ==> ch + sent == ch
    ensures sent != [] ==>
              var f := sent[0];
              && Requests(ch + sent, id) == Requests(ch, id) + (if f.Request? && f.id == id then 1 else 0)
              && Replies(ch + sent, id) == Replies(ch, id) + (if f.Reply? && f.id == id then 1 else 0)
              && Cancels(ch + sent, id) == Cancels(ch, id) + (if f.Cancel? && f.id == id then 1 else 0)
  {
    if sent != [] {
      assert sent == [sent[0]];
      FramesJoin(ch, sent, id);
      OneFrame(sent[0], id);
    }
  }

  // ----- one request seen alone

  function One(b: bool): nat {
    if b then 1 else 0
  }

  /** A request the client began: pending or ended, and in at most one place on its way to a reply. */
  ghost predicate ClientRequest(s: System, id: RequestId) {
    && (id in s.client.pending <==> id !in s.client.results)
    && One(id in s.client.unsent) + Requests(s.toHost, id) + One(id in s.host.queued) + One(id in s.host.incoming) <= 1
    && Replies(s.toClient, id) <= 1
    && (Replies(s.toClient, id) == 1 ==>
          && id !in s.client.unsent && Requests(s.toHost, id) == 0
          && (id in s.host.queued ==> s.host.queued[id])
          && (id in s.host.incoming ==> s.host.incoming[id].settled))
  }

  /** A request the host began; as long as it can be answered, the host still knows it. */
  ghost predicate HostRequest(s: System, id: RequestId) {
    && (id in s.host.outgoing <==> id !in s.host.results)
    && (id in s.host.cancelled ==> id in s.host.results)
    && Requests(s.toClient, id) + One(id in s.client.serving) + Replies(s.toHost, id) <= 1
    && (s.host.ready && Requests(s.toClient, id) + One(id in s.client.serving) + Replies(s.toHost, id) == 1 ==>
          id in s.host.outgoing || id in s.host.cancelled)
  }

  /** Nothing anywhere treats this id as a request of the client. */
  ghost predicate NoClientRequest(s: System, id: RequestId) {
    && id !in s.client.pending && id !in s.client.unsent && id !in s.client.results
    && id !in s.host.queued && id !in s.host.incoming
    && Requests(s.toHost, id) == 0 && Replies(s.toClient, id) == 0 && Cancels(s.toHost, id) == 0
  }

  ghost predicate NoHostRequest(s: System, id: RequestId) {
    && id !in s.host.outgoing && id !in s.host.cancelled && id !in s.host.results
    && id !in s.client.serving && id !in s.client.cancellable
    && Requests(s.toClient, id) == 0 && Replies(s.toHost, id) == 0 && Cancels(s.toClient, id) == 0
  }

  ghost predicate At(s: System, id: RequestId) {
    if id % 2 == 1 && id < s.client.next then ClientRequest(s, id) && NoHostRequest(s, id)
    else if id % 2 == 0 && 2 <= id < s.host.next then HostRequest(s, id) && NoClientRequest(s, id)
    else NoClientRequest(s, id) && NoHostRequest(s, id)
  }

  ghost predicate Counters(s: System) {
    s.client.next % 2 == 1 && s.host.next % 2 == 0 && s.host.next >= 2
  }

  ghost predicate Inv(s: System) {
    Counters(s) && !s.host.faulted && forall id: RequestId :: At(s, id)
  }

  // ----- every step keeps it

  lemma ClientBeginAt(s: System, capacity: nat, id: RequestId)
    requires Counters(s) && At(s, id)
    ensures At(Next(s, ClientBegin, capacity), id)
  {
  }

  lemma ClientTransmitAt(s: System, e: Event, capacity: nat, id: RequestId)
    requires e.ClientTransmit? && At(s, id)
    ensures At(Next(s, e, capacity), id)
  {
    Appended(s.toHost, Transmit(s.client, e.id, e.flag, e.room).sent, id);
  }

  lemma ClientCancelAt(s: System, e: Event, capacity: nat, id: RequestId)
    requires e.ClientCancel? && At(s, id)
    ensures At(Next(s, e, capacity), id)
  {
    Appended(s.toHost, CancelPending(s.client, e.id, e.room).sent, id);
  }

  lemma ClientReceiveAt(s: System, e: Event, capacity: nat, id: RequestId)
    requires e.ClientReceive? && s.toClient != [] && At(s, id) && At(s, s.toClient[0].id)
    ensures At(Next(s, e, capacity), id)
  {
    Appended(s.toHost, Dispatch(s.client, s.toClient[0], capacity, e.room).sent, id);
  }

  lemma ClientRespondAt(s: System, e: Event, capacity: nat, id: RequestId)
    requires e.ClientRespond? && At(s, id)
    ensures At(Next(s, e, capacity), id)
  {
    Appended(s.toHost, Respond(s.client, e.id, e.ok, e.room).sent, id);
  }

  lemma ClientReleaseAt(s: System, e: Event, capacity: nat, id: RequestId)
    requires e.ClientRelease? && At(s, id)
    ensures At(Next(s, e, capacity), id)
  {
  }

  lemma ClientDisconnectAt(s: System, capacity: nat, id: RequestId)
    requires At(s, id)
    ensures At(Next(s, ClientDisconnect, capacity), id)
  {
  }

  lemma HostBeginAt(s: System, e: Event, capacity: nat, id: RequestId)
    requires e.HostBegin? && Counters(s) && At(s, id)
    ensures At(Next(s, e, capacity), id)
  {
    Appended(s.toClient, BeginRemote(s.host, e.flag, e.written).sent, id);
  }

  lemma HostCancelAt(s: System, e: Event, capacity: nat, id: RequestId)
    requires e.HostCancel? && At(s, id)
    ensures At(Next(s, e, capacity), id)
  {
    Appended(s.toClient, CancelRemote(s.host, e.id, e.written).sent, id);
  }

  /** What the invariant says about the frame in front: the host knows the request it answers, and no other twice. */
  lemma HeadIsExpected(s: System)
    requires s.toHost != [] && At(s, s.toHost[0].id) && s.host.ready
    ensures var f := s.toHost[0];
            match f
            case Reply(id, _) => id in s.host.outgoing || id in s.host.cancelled
            case Request(id, _) => id !in s.host.incoming && id !in s.host.queued
            case Cancel(id) => id !in s.host.outgoing
  {
  }

  lemma HostReplyAt(s: System, e: Event, capacity: nat, id: RequestId)
    requires e.HostReceive? && s.toHost != [] && s.toHost[0].Reply? && At(s, id) && At(s, s.toHost[0].id) && s.host.ready
    ensures At(Next(s, e, capacity), id)
  {
    HeadIsExpected(s);
    Appended(s.toClient, [], id);
  }

  /** A request the host refuses is answered at once. */
  lemma HostRefusesAt(s: System, e: Event, capacity: nat, id: RequestId)
    requires e.HostReceive? && s.toHost != [] && s.toHost[0].Request? && At(s, id) && At(s, s.toHost[0].id)
    requires s.host.ready && Accept(s.host, s.toHost[0].id, s.toHost[0].flag, e.written).state == s.host
    ensures At(Next(s, e, capacity), id)
  {
    HeadIsExpected(s);
    hide Shutdown, Invokes;
    Appended(s.toClient, Receive(s.host, s.toHost[0], e.written).sent, id);
  }

  /** A request id that is new at the host. */
  lemma NewRequest(s: System)
    requires s.toHost != [] && s.toHost[0].Request? && At(s, s.toHost[0].id) && s.host.ready
    ensures var id := s.toHost[0].id;
            && id % 2 == 1 && id < s.client.next && id !in s.host.incoming && id !in s.host.queued
  {
  }

  lemma AcceptedRouteAt(s: System, id: RequestId)
    requires s.toHost != [] && s.toHost[0].Request? && At(s, id) && At(s, s.toHost[0].id) && s.host.ready
    ensures var target := s.toHost[0].id;
            At(s.(toHost := s.toHost[1..], host := s.host.(incoming := s.host.incoming[target := Incoming(false, true)])), id)
  {
    NewRequest(s);
  }

  lemma AcceptedOperationAt(s: System, id: RequestId)
    requires s.toHost != [] && s.toHost[0].Request? && At(s, id) && At(s, s.toHost[0].id) && s.host.ready
    ensures var target := s.toHost[0].id;
            At(s.(toHost := s.toHost[1..], host := s.host.(queued := s.host.queued[target := false])), id)
  {
    NewRequest(s);
  }

  lemma HostAcceptsAt(s: System, e: Event, capacity: nat, id: RequestId)
    requires e.HostReceive? && s.toHost != [] && s.toHost[0].Request? && At(s, id) && At(s, s.toHost[0].id)
    requires s.host.ready && Accept(s.host, s.toHost[0].id, s.toHost[0].flag, e.written).state != s.host
    ensures At(Next(s, e, capacity), id)
  {
    hide At, Shutdown, Invokes;
    NewRequest(s);
    AcceptedRouteAt(s, id);
    AcceptedOperationAt(s, id);
    assert s.toClient + [] == s.toClient;
  }

  lemma HostRequestAt(s: System, e: Event, capacity: nat, id: RequestId)
    requires e.HostReceive? && s.toHost != [] && s.toHost[0].Request? && At(s, id) && At(s, s.toHost[0].id) && s.host.ready
    ensures At(Next(s, e, capacity), id)
  {
    hide At, Next, Accept;
    if Accept(s.host, s.toHost[0].id, s.toHost[0].flag, e.written).state != s.host {
      HostAcceptsAt(s, e, capacity, id);
    } else {
      HostRefusesAt(s, e, capacity, id);
    }
  }

  /** Only requests of the client are cancelled from there. */
  lemma CancelIsForIncoming(s: System, e: Event, capacity: nat)
    requires e.HostReceive? && s.toHost != [] && s.toHost[0].Cancel? && At(s, s.toHost[0].id) && s.host.ready
    ensures Next(s, e, capacity) == HostSteps(s.(toHost := s.toHost[1..]), CancelIncoming(s.host, s.toHost[0].id, e.written))
    ensures s.toHost[0].id % 2 == 1
  {
    hide CancelIncoming;
  }

  /** A host that is not ready takes the frame and does nothing. */
  lemma HostClosedAt(s: System, e: Event, capacity: nat, id: RequestId)
    requires e.HostReceive? && s.toHost != [] && At(s, id) && !s.host.ready
    ensures At(Next(s, e, capacity), id)
  {
    Appended(s.toClient, [], id);
  }

  lemma SettleIncomingAt(s: System, target: RequestId, sent: seq<Frame>, id: RequestId)
    requires At(s, id) && At(s, target) && target % 2 == 1 && |sent| <= 1
    requires sent != [] ==> sent[0] == Reply(target, false)
    requires target in s.host.incoming && !s.host.incoming[target].settled
    ensures At(HostSteps(s, Step(s.host.(incoming := s.host.incoming[target := s.host.incoming[target].(settled := true)]), sent)), id)
  {
    Appended(s.toClient, sent, id);
  }

  lemma SettleQueuedAt(s: System, target: RequestId, sent: seq<Frame>, id: RequestId)
    requires At(s, id) && At(s, target) && target % 2 == 1 && |sent| <= 1
    requires sent != [] ==> sent[0] == Reply(target, false)
    requires target in s.host.queued && !s.host.queued[target]
    ensures At(HostSteps(s, Step(s.host.(queued := s.host.queued[target := true]), sent)), id)
  {
    Appended(s.toClient, sent, id);
  }

  lemma PopAt(s: System, id: RequestId)
    requires s.toHost != [] && s.toHost[0].Cancel? && At(s, id)
    ensures At(s.(toHost := s.toHost[1..]), id)
  {
  }

  lemma HostCancelledAt(s: System, e: Event, capacity: nat, id: RequestId)
    requires e.HostReceive? && s.toHost != [] && s.toHost[0].Cancel? && At(s, id) && At(s, s.toHost[0].id) && s.host.ready
    ensures At(Next(s, e, capacity), id)
  {
    hide Next, At;
    CancelIsForIncoming(s, e, capacity);
    PopAt(s, id);
    var target := s.toHost[0].id;
    PopAt(s, target);
    var popped := s.(toHost := s.toHost[1..]);
    if target in s.host.incoming && !s.host.incoming[target].settled {
      SettleIncomingAt(popped, target, Written(Reply(target, false), e.written), id);
    } else if target !in s.host.incoming && target in s.host.queued && !s.host.queued[target] {
      SettleQueuedAt(popped, target, Written(Reply(target, false), e.written), id);
    } else {
      Appended(s.toClient, [], id);
    }
  }

  lemma HostStartAt(s: System, e: Event, capacity: nat, id: RequestId)
    requires e.HostStart? && At(s, id) && At(s, e.id)
    ensures At(Next(s, e, capacity), id)
  {
  }

  lemma HostFinishAt(s: System, e: Event, capacity: nat, id: RequestId)
    requires e.HostFinish? && At(s, id)
    ensures At(Next(s, e, capacity), id)
  {
    Appended(s.toClient, Finish(s.host, e.id, e.ok, e.written).sent, id);
  }

  lemma HostShutdownAt(s: System, capacity: nat, id: RequestId)
    requires At(s, id)
    ensures At(Next(s, HostShutdown, capacity), id)
  {
  }

  lemma EventAt(s: System, e: Event, capacity: nat, id: RequestId)
    requires Inv(s)
    ensures At(Next(s, e, capacity), id)
  {
    assert At(s, id);
    hide At, Inv, Next;
    match e
    case ClientBegin => ClientBeginAt(s, capacity, id);
    case ClientTransmit(_, _, _) => ClientTransmitAt(s, e, capacity, id);
    case ClientCancel(_, _) => ClientCancelAt(s, e, capacity, id);
    case ClientReceive(_) =>
      if s.toClient != [] {
        HeadAt(s, s.toClient[0].id);
        ClientReceiveAt(s, e, capacity, id);
      } else {
        NothingReceived(s, e, capacity);
      }
    case ClientRespond(_, _, _) => ClientRespondAt(s, e, capacity, id);
    case ClientRelease(_) => ClientReleaseAt(s, e, capacity, id);
    case ClientDisconnect => ClientDisconnectAt(s, capacity, id);
    case HostBegin(_, _) => HostBeginAt(s, e, capacity, id);
    case HostCancel(_, _) => HostCancelAt(s, e, capacity, id);
    case HostReceive(_) => HostReceiveAt(s, e, capacity, id);
    case HostStart(_) =>
      HeadAt(s, e.id);
      HostStartAt(s, e, capacity, id);
    case HostFinish(_, _, _) => HostFinishAt(s, e, capacity, id);
    case HostShutdown => HostShutdownAt(s, capacity, id);
  }

  lemma HeadAt(s: System, id: RequestId)
    requires Inv(s)
    ensures At(s, id) && Counters(s)
  {
  }

  lemma NothingReceived(s: System, e: Event, capacity: nat)
    requires (e.ClientReceive? && s.toClient == []) || (e.HostReceive? && s.toHost == [])
    ensures Next(s, e, capacity) == s
  {
  }

  lemma HostReceiveAt(s: System, e: Event, capacity: nat, id: RequestId)
    requires e.HostReceive? && Inv(s)
    ensures At(Next(s, e, capacity), id)
  {
    HeadAt(s, id);
    hide At, Inv, Next;
    if s.toHost == [] {
      NothingReceived(s, e, capacity);
    } else {
      HeadAt(s, s.toHost[0].id);
      if !s.host.ready {
        HostClosedAt(s, e, capacity, id);
      } else {
        match s.toHost[0]
        case Reply(_, _) => HostReplyAt(s, e, capacity, id);
        case Request(_, _) => HostRequestAt(s, e, capacity, id);
        case Cancel(_) => HostCancelledAt(s, e, capacity, id);
      }
    }
  }

  lemma DispatchDrawsNothing(c: Client, frame: Frame, capacity: nat, room: bool)
    ensures Dispatch(c, frame, capacity, room).state.next == c.next
  {
  }

  lemma ReceiveFaultsNot(s: System, e: Event, capacity: nat)
    requires Inv(s) && e.HostReceive? && s.toHost != []
    ensures Counters(Next(s, e, capacity)) && !Next(s, e, capacity).host.faulted
  {
    HeadAt(s, s.toHost[0].id);
    if s.host.ready {
      HeadIsExpected(s);
    }
    hide Requests, Replies, Cancels, At;
  }

  /** No step raises a fault: replies are expected, and request ids are new. */
  lemma NoFault(s: System, e: Event, capacity: nat)
    requires Inv(s)
    ensures Counters(Next(s, e, capacity)) && !Next(s, e, capacity).host.faulted
  {
    hide Requests, Replies, Cancels, Receive, Dispatch;
    if e.HostReceive? && s.toHost != [] {
      ReceiveFaultsNot(s, e, capacity);
    }
    if e.ClientReceive? && s.toClient != [] {
      DispatchDrawsNothing(s.client, s.toClient[0], capacity, e.room);
    }
    if e.HostStart? {
      HeadAt(s, e.id);
    }
  }

  lemma StepKeeps(s: System, e: Event, capacity: nat)
    requires Inv(s)
    ensures Inv(Next(s, e, capacity))
  {
    NoFault(s, e, capacity);
    forall id: RequestId ensures At(Next(s, e, capacity), id) {
      EventAt(s, e, capacity, id);
    }
  }

  /**
   Over every run, with frames lost and cancels at any time: the host never meets an unknown or repeated request,
   and each request is pending at its origin or has ended there.
   */
  lemma {:induction false} RunsAreSafe(events: seq<Event>, capacity: nat)
    ensures Inv(Run(INITIAL, events, capacity))
    decreases |events|
  {
    hide Inv, Next;
    if events == [] {
      InitiallySafe();
    } else {
      var front := events[..|events| - 1];
      RunsAreSafe(front, capacity);
      StepKeeps(Run(INITIAL, front, capacity), events[|events| - 1], capacity);
    }
  }

  lemma InitiallySafe()
    ensures Inv(INITIAL)
  {
  }

  // ----- what the invariant means

  /** Every id drawn is pending or has ended, never both; nothing else is in the tables. */
  lemma EveryRequestIsAccounted(s: System, id: RequestId)
    requires Inv(s)
    ensures (id in s.client.pending || id in s.client.results) <==> (id % 2 == 1 && id < s.client.next)
    ensures (id in s.host.outgoing || id in s.host.results) <==> (id % 2 == 0 && 2 <= id < s.host.next)
    ensures !(id in s.client.pending && id in s.client.results) && !(id in s.host.outgoing && id in s.host.results)
  {
    assert At(s, id);
  }

  lemma ClientResultsAreFinal(s: System, e: Event, capacity: nat, id: RequestId)
    requires At(s, id) && Counters(s) && id in s.client.results
    ensures id in Next(s, e, capacity).client.results && Next(s, e, capacity).client.results[id] == s.client.results[id]
  {
    assert id !in s.client.pending && id != s.client.next;
    hide At, Receive, Finish, BeginRemote, CancelRemote, Start, Shutdown, Requests, Replies, Cancels;
  }

  lemma ReceiveKeepsResult(h: Host, frame: Frame, written: bool, id: RequestId)
    requires id in h.results && id !in h.outgoing
    ensures var h' := Receive(h, frame, written).state; id in h'.results && h'.results[id] == h.results[id]
  {
    hide Invokes;
  }

  lemma HostResultsAreFinal(s: System, e: Event, capacity: nat, id: RequestId)
    requires At(s, id) && Counters(s) && id in s.host.results
    ensures id in Next(s, e, capacity).host.results && Next(s, e, capacity).host.results[id] == s.host.results[id]
  {
    assert id !in s.host.outgoing && id != s.host.next;
    hide At, Receive, Dispatch, Transmit, CancelPending, Respond, Begin, Release, Disconnect, Requests, Replies, Cancels;
    if e.HostReceive? && s.toHost != [] {
      ReceiveKeepsResult(s.host, s.toHost[0], e.written, id);
    }
  }

  /** A terminal result is never replaced: each request ends at most once, whatever arrives later. */
  lemma ResultsAreFinal(s: System, e: Event, capacity: nat, id: RequestId)
    requires Inv(s)
    ensures id in s.client.results ==>
              id in Next(s, e, capacity).client.results && Next(s, e, capacity).client.results[id] == s.client.results[id]
    ensures id in s.host.results ==>
              id in Next(s, e, capacity).host.results && Next(s, e, capacity).host.results[id] == s.host.results[id]
  {
    hide Next, At, Inv;
    HeadAt(s, id);
    if id in s.client.results {
      ClientResultsAreFinal(s, e, capacity, id);
    }
    if id in s.host.results {
      HostResultsAreFinal(s, e, capacity, id);
    }
  }

  lemma {:induction false} ResultsStayForever(events: seq<Event>, more: seq<Event>, capacity: nat, id: RequestId)
    ensures var s, s' := Run(INITIAL, events, capacity), Run(INITIAL, events + more, capacity);
            && (id in s.client.results ==> id in s'.client.results && s'.client.results[id] == s.client.results[id])
            && (id in s.host.results ==> id in s'.host.results && s'.host.results[id] == s.host.results[id])
    decreases |more|
  {
    hide Next, Inv;
    if more == [] {
      assert events + more == events;
    } else {
      var n := |more| - 1;
      ResultsStayForever(events, more[..n], capacity, id);
      RunsAreSafe(events + more[..n], capacity);
      ResultsAreFinal(Run(INITIAL, events + more[..n], capacity), more[n], capacity, id);
      assert (events + more)[..|events + more| - 1] == events + more[..n];
    }
  }

  /** A cancel from the other end never resolves a request of this end. */
  lemma CancelsStayOnTheirSide(s: System, e: Event, capacity: nat)
    requires Inv(s)
    ensures e.ClientReceive? && s.toClient != [] && s.toClient[0].Cancel? ==>
              var c := Next(s, e, capacity).client;
              c.pending == s.client.pending && c.results == s.client.results
    ensures e.HostReceive? && s.toHost != [] && s.toHost[0].Cancel? ==>
              var h := Next(s, e, capacity).host;
              h.outgoing == s.host.outgoing && h.results == s.host.results
  {
    if s.toClient != [] {
      assert At(s, s.toClient[0].id);
    }
    if s.toHost != [] {
      assert At(s, s.toHost[0].id);
    }
  }

  /** The reply to a request the host has cancelled is absorbed: no result changes, and the id is forgotten. */
  lemma LateReplyIsAbsorbed(s: System, e: Event, capacity: nat)
    requires Inv(s) && e.HostReceive? && s.toHost != [] && s.toHost[0].Reply? && s.host.ready
    requires s.toHost[0].id !in s.host.outgoing
    ensures var id := s.toHost[0].id;
            && id in s.host.cancelled
            && Next(s, e, capacity).host == s.host.(cancelled := s.host.cancelled - {id})
  {
    assert At(s, s.toHost[0].id);
  }
}
