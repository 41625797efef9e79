/** What is under way between the two ends of the bridge arrives: frames that are read in turn reach their request. */
module BridgeProgress {
  import opened BridgeEndpoints
  import opened BridgeOutcomes
  import opened BridgeRuns
  import opened Wrappers

  function ClientReads(s: System, n: nat, room: bool, capacity: nat): System
    decreases n
  {
    if n == 0 then s else ClientReads(Next(s, ClientReceive(room), capacity), n - 1, room, capacity)
  }

  function HostReads(s: System, n: nat, written: bool, capacity: nat): System
    decreases n
  {
    if n == 0 then s else HostReads(Next(s, HostReceive(written), capacity), n - 1, written, capacity)
  }

  lemma {:induction false} FrameCounts(ch: seq<Frame>, k: nat)
    requires k < |ch|
    ensures ch[k].Reply? ==> Replies(ch, ch[k].id) >= 1
    ensures ch[k].Request? ==> Requests(ch, ch[k].id) >= 1
    ensures ch[k].Cancel? ==> Cancels(ch, ch[k].id) >= 1
  {
    if k > 0 { FrameCounts(ch[1..], k - 1); }
  }

  // ----- replies

  /** A frame in front of the reply leaves the request pending. */
  lemma ClientPasses(s: System, id: RequestId, k: nat, room: bool, capacity: nat)
    requires Inv(s) && s.client.ready && id in s.client.pending
    requires 0 < k < |s.toClient| && s.toClient[k].Reply? && s.toClient[k].id == id
    ensures var t := Next(s, ClientReceive(room), capacity);
      Inv(t) && t.client.ready && id in t.client.pending && t.toClient == s.toClient[1..]
  {
    StepKeeps(s, ClientReceive(room), capacity);
    HeadAt(s, id);
    FrameCounts(s.toClient[1..], k - 1);
    hide Inv;
  }

  lemma {:induction false} ReplyReachesClient(s: System, id: RequestId, ok: bool, k: nat, room: bool, capacity: nat)
    requires Inv(s) && s.client.ready && id in s.client.pending
    requires k < |s.toClient| && s.toClient[k] == Reply(id, ok)
    ensures var t := ClientReads(s, k + 1, room, capacity); id in t.client.results && t.client.results[id] == Answered(ok)
    decreases k
  {
    var t := Next(s, ClientReceive(room), capacity);
    if k > 0 {
      ClientPasses(s, id, k, room, capacity);
      hide Next, Inv;
      ReplyReachesClient(t, id, ok, k - 1, room, capacity);
    } else {
      assert ClientReads(t, 0, room, capacity) == t;
    }
  }

  lemma HostPasses(s: System, id: RequestId, k: nat, written: bool, capacity: nat)
    requires Inv(s) && s.host.ready && id in s.host.outgoing
    requires 0 < k < |s.toHost| && s.toHost[k].Reply? && s.toHost[k].id == id
    ensures var t := Next(s, HostReceive(written), capacity);
      Inv(t) && t.host.ready && id in t.host.outgoing && t.toHost == s.toHost[1..]
  {
    StepKeeps(s, HostReceive(written), capacity);
    HeadAt(s, id);
    HeadAt(s, s.toHost[0].id);
    FrameCounts(s.toHost[1..], k - 1);
    HostStaysReady(s, written, capacity);
    HeadIsExpected(s);
    NoFault(s, HostReceive(written), capacity);
    hide Inv, Invokes, Shutdown, Accept, Requests, Cancels;
    if s.toHost[0].Request? {
      AcceptKeepsOutgoing(s.host, s.toHost[0].id, s.toHost[0].flag, written);
    }
  }

  lemma AcceptKeepsOutgoing(h: Host, id: RequestId, route: bool, written: bool)
    requires !Accept(h, id, route, written).state.faulted
    ensures Accept(h, id, route, written).state.outgoing == h.outgoing
  {
  }

  lemma HostStaysReady(s: System, written: bool, capacity: nat)
    requires Inv(s) && s.host.ready && s.toHost != []
    ensures Next(s, HostReceive(written), capacity).host.ready
  {
    HeadAt(s, s.toHost[0].id);
    HeadIsExpected(s);
    hide Inv, At, Requests, Replies, Cancels;
  }

  lemma {:induction false} ReplyReachesHost(s: System, id: RequestId, ok: bool, k: nat, written: bool, capacity: nat)
    requires Inv(s) && s.host.ready && id in s.host.outgoing
    requires k < |s.toHost| && s.toHost[k] == Reply(id, ok)
    ensures var t := HostReads(s, k + 1, written, capacity); id in t.host.results && t.host.results[id] == Answered(ok)
    decreases k
  {
    var t := Next(s, HostReceive(written), capacity);
    if k > 0 {
      HostPasses(s, id, k, written, capacity);
      hide Next, Inv;
      ReplyReachesHost(t, id, ok, k - 1, written, capacity);
    } else {
      assert HostReads(t, 0, written, capacity) == t;
    }
  }

  // ----- requests of the client

  /** The host has the request and has not answered it. */
  predicate HostHolds(s: System, id: RequestId, route: bool) {
    if route then id in s.host.incoming && !s.host.incoming[id].settled
    else id in s.host.queued && !s.host.queued[id] && id !in s.host.incoming
  }

  /** A request that is still pending has not been cancelled anywhere. */
  ghost predicate UncancelledAt(s: System, id: RequestId) {
    id in s.client.pending ==>
      Cancels(s.toHost, id) == 0 && Unsettled(s.host, id)
  }

  lemma ClientStepUncancelled(s: System, e: Event, id: RequestId, capacity: nat)
    requires Counters(s) && At(s, id) && UncancelledAt(s, id)
    requires e.ClientBegin? || e.ClientTransmit? || e.ClientCancel? || e.ClientRespond? || e.ClientRelease? || e.ClientDisconnect?
    ensures UncancelledAt(Next(s, e, capacity), id)
  {
    Appended(s.toHost, ClientSent(s, e), id);
    hide Requests, Replies;
  }

  function ClientSent(s: System, e: Event): (sent: seq<Frame>)
    ensures |sent| <= 1
  {
    match e
    case ClientTransmit(id, flag, room) => Transmit(s.client, id, flag, room).sent
    case ClientCancel(id, room) => CancelPending(s.client, id, room).sent
    case ClientRespond(id, ok, room) => Respond(s.client, id, ok, room).sent
    case _ => []
  }

  lemma ClientReceiveUncancelled(s: System, e: Event, id: RequestId, capacity: nat)
    requires e.ClientReceive? && s.toClient != [] && At(s, id) && UncancelledAt(s, id)
    ensures UncancelledAt(Next(s, e, capacity), id)
  {
    Appended(s.toHost, Dispatch(s.client, s.toClient[0], capacity, e.room).sent, id);
    hide Requests, Replies;
  }

  lemma HostReceiveUncancelled(s: System, e: Event, id: RequestId, capacity: nat)
    requires e.HostReceive? && s.toHost != [] && UncancelledAt(s, id)
    ensures UncancelledAt(Next(s, e, capacity), id)
  {
    hide Requests, Replies, Invokes, EndAll, Shutdown, Receive;
    if id in s.client.pending {
      FrameCounts(s.toHost, 0);
      ReceiveSettlesOnCancel(s.host, s.toHost[0], e.written, id);
    }
  }

  /** No request that the host holds for `id` has been settled. */
  predicate Unsettled(h: Host, id: RequestId) {
    (id in h.queued ==> !h.queued[id]) && (id in h.incoming ==> !h.incoming[id].settled)
  }

  lemma AcceptSettlesNothing(h: Host, other: RequestId, route: bool, written: bool, id: RequestId)
    requires Unsettled(h, id)
    ensures Unsettled(Accept(h, other, route, written).state, id)
  {
    hide Invokes, EndAll;
  }

  lemma ReceiveSettlesOnCancel(h: Host, frame: Frame, written: bool, id: RequestId)
    requires Unsettled(h, id) && frame != Cancel(id)
    ensures Unsettled(Receive(h, frame, written).state, id)
  {
    hide Invokes, EndAll, Accept;
    if frame.Request? {
      AcceptSettlesNothing(h, frame.id, frame.flag, written, id);
    }
  }

  lemma HostStepUncancelled(s: System, e: Event, id: RequestId, capacity: nat)
    requires UncancelledAt(s, id) && (e.HostBegin? || e.HostCancel? || e.HostStart? || e.HostFinish? || e.HostShutdown?)
    ensures UncancelledAt(Next(s, e, capacity), id)
  {
    hide Requests, Replies, Cancels, Invokes, EndAll;
  }

  lemma UncancelledStep(s: System, e: Event, id: RequestId, capacity: nat)
    requires Inv(s) && UncancelledAt(s, id)
    ensures UncancelledAt(Next(s, e, capacity), id)
  {
    HeadAt(s, id);
    hide Inv, Next, At, UncancelledAt;
    match e
    case ClientReceive(_) =>
      if s.toClient != [] { ClientReceiveUncancelled(s, e, id, capacity); } else { NothingReceived(s, e, capacity); }
    case HostReceive(_) =>
      if s.toHost != [] { HostReceiveUncancelled(s, e, id, capacity); } else { NothingReceived(s, e, capacity); }
    case HostBegin(_, _) => HostStepUncancelled(s, e, id, capacity);
    case HostCancel(_, _) => HostStepUncancelled(s, e, id, capacity);
    case HostStart(_) => HostStepUncancelled(s, e, id, capacity);
    case HostFinish(_, _, _) => HostStepUncancelled(s, e, id, capacity);
    case HostShutdown => HostStepUncancelled(s, e, id, capacity);
    case _ => ClientStepUncancelled(s, e, id, capacity);
  }

  lemma {:induction false} PendingIsUncancelled(events: seq<Event>, id: RequestId, capacity: nat)
    ensures UncancelledAt(Run(INITIAL, events, capacity), id)
    decreases |events|
  {
    if events != [] {
      var front := events[..|events| - 1];
      PendingIsUncancelled(front, id, capacity);
      RunsAreSafe(front, capacity);
      hide Inv, Next, UncancelledAt;
      UncancelledStep(Run(INITIAL, front, capacity), events[|events| - 1], id, capacity);
    }
  }

  /** A frame in front of the request leaves it on its way. */
  lemma RequestPasses(s: System, id: RequestId, k: nat, written: bool, capacity: nat)
    requires Inv(s) && s.host.ready && 0 < k < |s.toHost| && s.toHost[k].Request? && s.toHost[k].id == id
    ensures var t := Next(s, HostReceive(written), capacity);
      Inv(t) && t.host.ready && t.toHost == s.toHost[1..] && t.client == s.client && s.toClient <= t.toClient
  {
    StepKeeps(s, HostReceive(written), capacity);
    HostStaysReady(s, written, capacity);
    hide Inv, Receive;
  }

  /** The request arrives: the host holds it, or refuses it if it is full. */
  lemma RequestArrives(s: System, id: RequestId, route: bool, written: bool, capacity: nat)
    requires Inv(s) && s.host.ready && s.toHost != [] && s.toHost[0] == Request(id, route)
    ensures var t := Next(s, HostReceive(written), capacity);
      && Inv(t) && t.host.ready && t.client == s.client
      && (if HostIsFull(s.host, route) then t.toClient == s.toClient + (if written then [Reply(id, false)] else [])
          else HostHolds(t, id, route) && t.toClient == s.toClient)
  {
    StepKeeps(s, HostReceive(written), capacity);
    HostStaysReady(s, written, capacity);
    HeadAt(s, id);
    HeadIsExpected(s);
    hide Inv, Invokes, Requests, Replies, Cancels, At;
    assert s.toClient + [] == s.toClient;
  }

  lemma {:induction false} RequestReachesHost(s: System, id: RequestId, route: bool, k: nat, written: bool, capacity: nat)
    requires Inv(s) && s.host.ready && k < |s.toHost| && s.toHost[k] == Request(id, route)
    ensures var u, t := HostReads(s, k, written, capacity), HostReads(s, k + 1, written, capacity);
      && Inv(t) && t.host.ready && t.client == s.client
      && (if HostIsFull(u.host, route) then written ==> Reply(id, false) in t.toClient else HostHolds(t, id, route))
    decreases k
  {
    hide Inv, Next, HostIsFull, HostHolds;
    var t := Next(s, HostReceive(written), capacity);
    if k > 0 {
      RequestPasses(s, id, k, written, capacity);
      RequestReachesHost(t, id, route, k - 1, written, capacity);
    } else {
      RequestArrives(s, id, route, written, capacity);
      assert HostReads(t, 0, written, capacity) == t;
    }
  }

  lemma StartHolds(s: System, id: RequestId, capacity: nat)
    requires Inv(s) && s.host.ready && HostHolds(s, id, false)
    ensures var t := Next(s, HostStart(id), capacity);
      Inv(t) && HostHolds(t, id, true) && t.client == s.client && t.toClient == s.toClient
  {
    StepKeeps(s, HostStart(id), capacity);
    hide Inv;
  }

  lemma FinishReplies(s: System, id: RequestId, ok: bool, capacity: nat)
    requires Inv(s) && HostHolds(s, id, true)
    ensures var t := Next(s, HostFinish(id, ok, true), capacity);
      Inv(t) && t.client == s.client && t.toClient == s.toClient + [Reply(id, ok)]
  {
    StepKeeps(s, HostFinish(id, ok, true), capacity);
    hide Inv;
  }

  /** The host starts what waits, and finishes the request with `ok`. */
  function Handled(s: System, id: RequestId, route: bool, ok: bool, capacity: nat): System {
    Next(if route then s else Next(s, HostStart(id), capacity), HostFinish(id, ok, true), capacity)
  }

  /** A request the host holds is answered as the host finishes it, once its reply has been read. */
  lemma AnswerComesBack(s: System, id: RequestId, route: bool, ok: bool, room: bool, capacity: nat)
    requires Inv(s) && s.client.ready && s.host.ready && id in s.client.pending && HostHolds(s, id, route)
    ensures var t := Handled(s, id, route, ok, capacity);
      var end := ClientReads(t, |t.toClient|, room, capacity);
      id in end.client.results && end.client.results[id] == Answered(ok)
  {
    hide Inv, Next, ClientReads, HostHolds;
    if !route { StartHolds(s, id, capacity); }
    var started := if route then s else Next(s, HostStart(id), capacity);
    FinishReplies(started, id, ok, capacity);
    ReplyReachesClient(Handled(s, id, route, ok, capacity), id, ok, |started.toClient|, room, capacity);
  }

  /**
   The whole way of a request that has been begun and not cancelled: its frame is queued, the host reads, starts and
   finishes it, and the client reads. It ends with the host's answer, or with an error if the host was full.
   */
  lemma RequestIsAnswered(events: seq<Event>, id: RequestId, route: bool, ok: bool, capacity: nat)
    requires var s := Run(INITIAL, events, capacity);
      s.client.ready && s.host.ready && id in s.client.pending && id in s.client.unsent
    ensures var s := Next(Run(INITIAL, events, capacity), ClientTransmit(id, route, true), capacity);
      var before, read := HostReads(s, |s.toHost| - 1, true, capacity), HostReads(s, |s.toHost|, true, capacity);
      var full := HostIsFull(before.host, route);
      var t := if full then read else Handled(read, id, route, ok, capacity);
      var end := ClientReads(t, |t.toClient|, true, capacity);
      && s.toHost != []
      && id in end.client.results && end.client.results[id] == Answered(if full then false else ok)
  {
    RunsAreSafe(events, capacity);
    var s0 := Run(INITIAL, events, capacity);
    StepKeeps(s0, ClientTransmit(id, route, true), capacity);
    var s := Next(s0, ClientTransmit(id, route, true), capacity);
    assert s.toHost == s0.toHost + [Request(id, route)];
    hide Run, Inv, Next, HostReads, ClientReads, HostIsFull;
    var n := |s0.toHost|;
    RequestReachesHost(s, id, route, n, true, capacity);
    var read := HostReads(s, n + 1, true, capacity);
    if HostIsFull(HostReads(s, n, true, capacity).host, route) {
      var k :| 0 <= k < |read.toClient| && read.toClient[k] == Reply(id, false);
      ReplyReachesClient(read, id, false, k, true, capacity);
      ReadsMore(read, id, k + 1, |read.toClient|, true, capacity);
    } else {
      AnswerComesBack(read, id, route, ok, true, capacity);
    }
  }

  /** A result is still there after reading on. */
  lemma {:induction false} ReadsMore(s: System, id: RequestId, n: nat, m: nat, room: bool, capacity: nat)
    requires Inv(s) && n <= m && id in ClientReads(s, n, room, capacity).client.results
    ensures id in ClientReads(s, m, room, capacity).client.results
    ensures ClientReads(s, m, room, capacity).client.results[id] == ClientReads(s, n, room, capacity).client.results[id]
    decreases m
  {
    hide Inv, Next;
    if m > 0 {
      StepKeeps(s, ClientReceive(room), capacity);
      ResultsAreFinal(s, ClientReceive(room), capacity, id);
      if n > 0 {
        ReadsMore(Next(s, ClientReceive(room), capacity), id, n - 1, m - 1, room, capacity);
      } else {
        assert ClientReads(Next(s, ClientReceive(room), capacity), 0, room, capacity) == Next(s, ClientReceive(room), capacity);
        ReadsMore(Next(s, ClientReceive(room), capacity), id, 0, m - 1, room, capacity);
      }
    }
  }

  /** As long as the client waits for a request, the host holds it unsettled, if it has it at all. */
  lemma PendingIsHeld(events: seq<Event>, id: RequestId, capacity: nat)
    ensures var s := Run(INITIAL, events, capacity);
      id in s.client.pending && (id in s.host.queued || id in s.host.incoming) ==> HostHolds(s, id, id in s.host.incoming)
  {
    PendingIsUncancelled(events, id, capacity);
  }

  // ----- cancels

  /** The host has settled the request, if it still has it. */
  predicate Stopped(h: Host, id: RequestId) {
    if id in h.incoming then h.incoming[id].settled else id in h.queued ==> h.queued[id]
  }

  /** A cancel frame settles the request at the host, which answers it then unless it was settled before. */
  lemma CancelArrives(s: System, id: RequestId, written: bool, capacity: nat)
    requires Inv(s) && s.host.ready && s.toHost != [] && s.toHost[0] == Cancel(id)
    ensures var t := Next(s, HostReceive(written), capacity);
      && Stopped(t.host, id) && t.client == s.client
      && t.host.queued.Keys == s.host.queued.Keys && t.host.incoming.Keys == s.host.incoming.Keys
      && t.toClient == s.toClient + (if Stopped(s.host, id) || !written then [] else [Reply(id, false)])
  {
    HeadAt(s, id);
    CancelIsForIncoming(s, HostReceive(written), capacity);
    hide Inv, At, Next;
  }

  /** A cancel frame raises the flag of a served request, and does nothing else. */
  lemma CancelRaisesFlag(s: System, id: RequestId, room: bool, capacity: nat)
    requires Inv(s) && s.client.ready && s.toClient != [] && s.toClient[0] == Cancel(id)
    ensures var t := Next(s, ClientReceive(room), capacity);
      && t.client == s.client.(cancellable :=
           if id in s.client.cancellable then s.client.cancellable[id := true] else s.client.cancellable)
      && t.toHost == s.toHost && t.host == s.host
  {
    HeadAt(s, id);
    hide Inv;
    assert s.toHost + [] == s.toHost;
  }

  /** Whoever cancels a pending request sends the frame that says so, if it can be sent. */
  lemma CancelsAreSent(s: System, id: RequestId, capacity: nat)
    ensures id in s.client.pending && s.client.ready ==>
      Next(s, ClientCancel(id, true), capacity).toHost == s.toHost + [Cancel(id)]
    ensures id in s.host.outgoing ==> Next(s, HostCancel(id, true), capacity).toClient == s.toClient + [Cancel(id)]
    ensures id in s.client.pending ==>
      id in Next(s, ClientCancel(id, true), capacity).client.results
      && Next(s, ClientCancel(id, true), capacity).client.results[id] == Cancelled
    ensures id in s.host.outgoing ==>
      id in Next(s, HostCancel(id, true), capacity).host.results
      && Next(s, HostCancel(id, true), capacity).host.results[id] == Cancelled
  {
  }

  // ----- requests of the host

  lemma ServingArrives(s: System, id: RequestId, flag: bool, room: bool, capacity: nat)
    requires Inv(s) && s.client.ready && s.toClient != [] && s.toClient[0] == Request(id, flag)
    ensures var t := Next(s, ClientReceive(room), capacity);
      && Inv(t) && t.client.ready && t.host == s.host && t.toClient == s.toClient[1..]
      && (if flag && |s.client.cancellable| >= capacity then
            t.client == s.client && t.toHost == s.toHost + (if room then [Reply(id, false)] else [])
          else
            && id in t.client.serving && t.toHost == s.toHost
            && t.client.cancellable == if flag then s.client.cancellable[id := false] else s.client.cancellable)
  {
    StepKeeps(s, ClientReceive(room), capacity);
    hide Inv;
    assert s.toHost + [] == s.toHost;
  }

  lemma RequestPassesClient(s: System, id: RequestId, k: nat, room: bool, capacity: nat)
    requires Inv(s) && s.client.ready && 0 < k < |s.toClient| && s.toClient[k].Request? && s.toClient[k].id == id
    ensures var t := Next(s, ClientReceive(room), capacity);
      Inv(t) && t.client.ready && t.toClient == s.toClient[1..] && t.host == s.host && s.toHost <= t.toHost
  {
    StepKeeps(s, ClientReceive(room), capacity);
    hide Inv;
  }

  lemma {:induction false} RequestReachesClient(s: System, id: RequestId, flag: bool, k: nat, room: bool, capacity: nat)
    requires Inv(s) && s.client.ready && k < |s.toClient| && s.toClient[k] == Request(id, flag)
    ensures var u, t := ClientReads(s, k, room, capacity), ClientReads(s, k + 1, room, capacity);
      && Inv(t) && t.client.ready && t.host == s.host
      && (if flag && |u.client.cancellable| >= capacity then room ==> Reply(id, false) in t.toHost
          else id in t.client.serving)
    decreases k
  {
    hide Inv, Next;
    var t := Next(s, ClientReceive(room), capacity);
    if k > 0 {
      RequestPassesClient(s, id, k, room, capacity);
      RequestReachesClient(t, id, flag, k - 1, room, capacity);
    } else {
      ServingArrives(s, id, flag, room, capacity);
      assert ClientReads(t, 0, room, capacity) == t;
    }
  }

  /** Once the host has read everything on its way, the request has ended with this answer. */
  predicate HostHasResult(t: System, id: RequestId, ok: bool, capacity: nat) {
    var end := HostReads(t, |t.toHost|, true, capacity);
    id in end.host.results && end.host.results[id] == Answered(ok)
  }

  /** A request the client serves is answered as the client responds, once its reply has been read. */
  lemma ResponseComesBack(s: System, id: RequestId, ok: bool, capacity: nat)
    requires Inv(s) && s.client.ready && s.host.ready && id in s.host.outgoing && id in s.client.serving
    ensures HostHasResult(Next(s, ClientRespond(id, ok, true), capacity), id, ok, capacity)
  {
    StepKeeps(s, ClientRespond(id, ok, true), capacity);
    var t := Next(s, ClientRespond(id, ok, true), capacity);
    assert t.toHost == s.toHost + [Reply(id, ok)];
    hide Inv, Next, HostReads;
    ReplyReachesHost(t, id, ok, |s.toHost|, true, capacity);
  }

  lemma HostBegins(s0: System, flag: bool, capacity: nat)
    requires Inv(s0) && s0.host.ready && s0.host.next <= MAX_NODE_REQUEST_ID
    ensures var s := Next(s0, HostBegin(flag, true), capacity);
      && Inv(s) && s.client == s0.client && s.host.ready && s0.host.next in s.host.outgoing
      && s.toClient == s0.toClient + [Request(s0.host.next, flag)]
  {
    StepKeeps(s0, HostBegin(flag, true), capacity);
    hide Inv;
  }

  lemma RefusalComesBack(read: System, id: RequestId, capacity: nat)
    requires Inv(read) && read.host.ready && id in read.host.outgoing && Reply(id, false) in read.toHost
    ensures HostHasResult(read, id, false, capacity)
  {
    hide Inv, HostReads;
    var k :| 0 <= k < |read.toHost| && read.toHost[k] == Reply(id, false);
    ReplyReachesHost(read, id, false, k, true, capacity);
    HostReadsMore(read, id, k + 1, |read.toHost|, true, capacity);
  }

  /** The whole way of a request the host begins: it ends with the client's answer, or with an error if the client was full. */
  lemma HostRequestIsAnswered(events: seq<Event>, flag: bool, ok: bool, capacity: nat)
    requires var s := Run(INITIAL, events, capacity);
      s.client.ready && s.host.ready && s.host.next <= MAX_NODE_REQUEST_ID
    ensures var s0 := Run(INITIAL, events, capacity);
      var id, s, n := s0.host.next, Next(s0, HostBegin(flag, true), capacity), |s0.toClient|;
      var before, read := ClientReads(s, n, true, capacity), ClientReads(s, n + 1, true, capacity);
      var full := flag && |before.client.cancellable| >= capacity;
      HostHasResult(if full then read else Next(read, ClientRespond(id, ok, true), capacity), id, !full && ok, capacity)
  {
    RunsAreSafe(events, capacity);
    hide Run, Inv, Next, HostReads, ClientReads, HostHasResult;
    var s0 := Run(INITIAL, events, capacity);
    HostBegins(s0, flag, capacity);
    var id, s, n := s0.host.next, Next(s0, HostBegin(flag, true), capacity), |s0.toClient|;
    RequestReachesClient(s, id, flag, n, true, capacity);
    var read := ClientReads(s, n + 1, true, capacity);
    if flag && |ClientReads(s, n, true, capacity).client.cancellable| >= capacity {
      RefusalComesBack(read, id, capacity);
    } else {
      ResponseComesBack(read, id, ok, capacity);
    }
  }

  lemma {:induction false} HostReadsMore(s: System, id: RequestId, n: nat, m: nat, written: bool, capacity: nat)
    requires Inv(s) && n <= m && id in HostReads(s, n, written, capacity).host.results
    ensures id in HostReads(s, m, written, capacity).host.results
    ensures HostReads(s, m, written, capacity).host.results[id] == HostReads(s, n, written, capacity).host.results[id]
    decreases m
  {
    hide Inv, Next;
    if m > 0 {
      StepKeeps(s, HostReceive(written), capacity);
      ResultsAreFinal(s, HostReceive(written), capacity, id);
      var t := Next(s, HostReceive(written), capacity);
      if n > 0 {
        HostReadsMore(t, id, n - 1, m - 1, written, capacity);
      } else {
        assert HostReads(t, 0, written, capacity) == t;
        HostReadsMore(t, id, 0, m - 1, written, capacity);
      }
    }
  }

  /** A client that has lost its connection sends nothing more. */
  lemma ClosedClientIsSilent(s: System, e: Event, capacity: nat)
    requires !s.client.ready
    ensures !Next(s, e, capacity).client.ready
    ensures Next(s, e, capacity).toHost == s.toHost || (e.HostReceive? && s.toHost != [] && Next(s, e, capacity).toHost == s.toHost[1..])
  {
    hide Receive, Finish, BeginRemote, CancelRemote, Start, Shutdown;
    assert s.toHost + [] == s.toHost;
  }

  // ----- limits

  ghost predicate Bounded(s: System, capacity: nat) {
    && |s.client.pending| <= PendingLimit(capacity)
    && |s.client.cancellable| <= capacity
    && |Invokes(s.host.incoming)| <= MAX_INCOMING
    && s.client.next <= MAX_BRIDGE_REQUEST_ID && s.host.next <= MAX_NODE_REQUEST_ID + 2
  }

  lemma AcceptDrawsNothing(h: Host, id: RequestId, route: bool, written: bool)
    ensures Accept(h, id, route, written).state.next == h.next
  {
    hide Invokes, EndAll;
  }

  lemma ReceiveDrawsNothing(h: Host, frame: Frame, written: bool)
    ensures Receive(h, frame, written).state.next == h.next
  {
    hide Invokes, EndAll, Accept;
    if frame.Request? { AcceptDrawsNothing(h, frame.id, frame.flag, written); }
  }

  lemma HostIdsBounded(s: System, e: Event, capacity: nat)
    requires s.host.next <= MAX_NODE_REQUEST_ID + 2
    ensures Next(s, e, capacity).host.next <= MAX_NODE_REQUEST_ID + 2
  {
    hide Receive, EndAll, Dispatch, Transmit, CancelPending, Respond, Begin, Release, Disconnect;
    if e.HostReceive? && s.toHost != [] { ReceiveDrawsNothing(s.host, s.toHost[0], e.written); }
  }

  lemma ClientIdsBounded(s: System, e: Event, capacity: nat)
    requires s.client.next <= MAX_BRIDGE_REQUEST_ID
    ensures Next(s, e, capacity).client.next <= MAX_BRIDGE_REQUEST_ID
  {
    hide Receive, Finish, BeginRemote, CancelRemote, Start, Shutdown, Send, PendingLimit, EndAll, Dispatch;
    if e.ClientReceive? && s.toClient != [] { DispatchDrawsNothing(s.client, s.toClient[0], capacity, e.room); }
  }

  /** An end that is closed, or has no ids left, begins nothing; the client otherwise has a new request to send, if there is room. */
  lemma BeginsAreAdmitted(s: System, flag: bool, capacity: nat)
    ensures !s.client.ready || s.client.next + 2 > MAX_BRIDGE_REQUEST_ID ==> Next(s, ClientBegin, capacity) == s
    ensures s.client.ready && s.client.next + 2 <= MAX_BRIDGE_REQUEST_ID && |s.client.pending| < PendingLimit(capacity) ==>
      var c := Next(s, ClientBegin, capacity).client;
      s.client.next in c.pending && s.client.next in c.unsent && c.next == s.client.next + 2
    ensures !s.host.ready || s.host.next > MAX_NODE_REQUEST_ID ==> Next(s, HostBegin(flag, true), capacity) == s
  {
    assert s.toClient + [] == s.toClient;
  }

  /** The permit of a request is given back once the request has been responded to, and not before. */
  lemma PermitsAreGivenBack(s: System, id: RequestId, capacity: nat)
    ensures var c := Next(s, ClientRelease(id), capacity).client;
      && (id in s.client.serving ==> c == s.client)
      && (id !in s.client.serving ==> id !in c.cancellable && c.cancellable == s.client.cancellable - {id})
      && c.serving == s.client.serving && c.pending == s.client.pending && c.results == s.client.results
  {
  }

  /** Sixty-four requests for each place in the queue, of which there is at least one, and never more than the maximum. */
  lemma LimitOfPending(capacity: nat)
    ensures 64 <= PendingLimit(capacity) <= MAX_PENDING_REQUESTS
    ensures PendingLimit(0) == PendingLimit(1) == 64
    ensures 1 <= capacity && 64 * capacity <= MAX_PENDING_REQUESTS ==> PendingLimit(capacity) == 64 * capacity
    ensures 64 * capacity >= MAX_PENDING_REQUESTS ==> PendingLimit(capacity) == MAX_PENDING_REQUESTS
  {
  }

  lemma CardinalityGrows(a: set<RequestId>, id: RequestId)
    ensures |a + {id}| <= |a| + 1
    ensures |a - {id}| <= |a|
  {
    if id in a { assert a + {id} == a; }
  }

  lemma PendingBounded(s: System, e: Event, capacity: nat)
    requires |s.client.pending| <= PendingLimit(capacity)
    ensures |Next(s, e, capacity).client.pending| <= PendingLimit(capacity)
  {
    hide Receive, Finish, BeginRemote, CancelRemote, Start, Shutdown, Send, PendingLimit;
    CardinalityGrows(s.client.pending, s.client.next);
    if e.ClientTransmit? || e.ClientCancel? { CardinalityGrows(s.client.pending, e.id); }
    if e.ClientReceive? && s.toClient != [] { CardinalityGrows(s.client.pending, s.toClient[0].id); }
  }

  lemma DispatchBounded(c: Client, frame: Frame, capacity: nat, room: bool)
    requires |c.cancellable| <= capacity
    ensures |Dispatch(c, frame, capacity, room).state.cancellable| <= capacity
  {
    var d := Dispatch(c, frame, capacity, room).state;
    assert d.cancellable.Keys == c.cancellable.Keys || d.cancellable.Keys == c.cancellable.Keys + {frame.id};
    CardinalityGrows(c.cancellable.Keys, frame.id);
    assert |d.cancellable| == |d.cancellable.Keys| && |c.cancellable| == |c.cancellable.Keys|;
  }

  lemma CancellableBounded(s: System, e: Event, capacity: nat)
    requires |s.client.cancellable| <= capacity
    ensures |Next(s, e, capacity).client.cancellable| <= capacity
  {
    hide Receive, Finish, BeginRemote, CancelRemote, Start, Shutdown, Send, PendingLimit, Dispatch;
    if e.ClientReceive? && s.toClient != [] { DispatchBounded(s.client, s.toClient[0], capacity, e.room); }
    hide Release;
    if e.ClientRelease? { ReleaseBounded(s.client, e.id); }
  }

  lemma ReleaseBounded(c: Client, id: RequestId)
    ensures |Release(c, id).cancellable| <= |c.cancellable|
  {
    var fewer := c.cancellable - {id};
    CardinalityGrows(c.cancellable.Keys, id);
    assert fewer.Keys == c.cancellable.Keys - {id};
    assert |fewer| == |fewer.Keys| && |c.cancellable| == |c.cancellable.Keys|;
  }

  lemma InvokesBounded(h: Host, e: Event, head: seq<Frame>)
    requires |Invokes(h.incoming)| <= MAX_INCOMING
    ensures head != [] ==> |Invokes(Receive(h, head[0], e == HostReceive(true)).state.incoming)| <= MAX_INCOMING
    ensures e.HostStart? ==> |Invokes(Start(h, e.id).incoming)| <= MAX_INCOMING
    ensures e.HostFinish? ==> |Invokes(Finish(h, e.id, e.ok, e.written).state.incoming)| <= MAX_INCOMING
  {
    hide Invokes, EndAll;
    if head != [] {
      var id := head[0].id;
      if id in h.incoming { SettledKeepsInvokes(h.incoming, id); } else { AddedInvokes(h.incoming, id, Incoming(false, true)); }
    }
    if e.HostStart? && e.id !in h.incoming { AddedInvokes(h.incoming, e.id, Incoming(false, false)); }
    if e.HostFinish? && e.id in h.incoming { RemovedInvokes(h.incoming, e.id); }
  }

  lemma HostBounded(s: System, e: Event, capacity: nat)
    requires |Invokes(s.host.incoming)| <= MAX_INCOMING
    ensures |Invokes(Next(s, e, capacity).host.incoming)| <= MAX_INCOMING
  {
    InvokesBounded(s.host, e, s.toHost);
    InvokesBounded(s.host, HostReceive(true), s.toHost);
    hide Invokes, EndAll, Receive, Start, Finish, Dispatch, Transmit, CancelPending, Respond, Begin, Release, Disconnect;
    if e == HostReceive(false) && s.toHost != [] { InvokesBounded(s.host, e, s.toHost); }
  }

  /** Over every run the tables stay within their limits. */
  lemma {:induction false} TablesAreBounded(events: seq<Event>, capacity: nat)
    ensures Bounded(Run(INITIAL, events, capacity), capacity)
    decreases |events|
  {
    if events != [] {
      var front := events[..|events| - 1];
      TablesAreBounded(front, capacity);
      hide Next, Invokes, PendingLimit;
      HostIdsBounded(Run(INITIAL, front, capacity), events[|events| - 1], capacity);
      ClientIdsBounded(Run(INITIAL, front, capacity), events[|events| - 1], capacity);
      PendingBounded(Run(INITIAL, front, capacity), events[|events| - 1], capacity);
      CancellableBounded(Run(INITIAL, front, capacity), events[|events| - 1], capacity);
      HostBounded(Run(INITIAL, front, capacity), events[|events| - 1], capacity);
    } else {
      assert Invokes(INITIAL.host.incoming) == {};
    }
  }
}
