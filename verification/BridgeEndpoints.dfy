/**
 The two ends of the Node bridge: the request tables of crates/tessivum-node-bridge/src/supervisor.rs
 and of node/compat-host/src/host.ts, one step at a time.
 */
module BridgeEndpoints {
  import opened Wrappers

  type RequestId = nat

  /** `flag` tells a cancellable Rust operation, or a Node route invocation, from the serial kinds. */
  datatype Frame = Request(id: RequestId, flag: bool) | Reply(id: RequestId, ok: bool) | Cancel(id: RequestId)

  /** How a request ended for the side that began it. */
  datatype Terminal = Answered(ok: bool) | Cancelled | QueueFull | WriteFailed | Disconnected | Closing

  type Results = map<RequestId, Terminal>

  /** A whole table of requests ends the same way. */
  function EndAll(results: Results, ids: set<RequestId>, t: Terminal): Results {
    results + map id <- ids :: t
  }

  lemma EndOne(results: Results, ids: set<RequestId>, id: RequestId, t: Terminal)
    ensures EndAll(results, ids + {id}, t) == EndAll(results, ids, t)[id := t]
  {
  }

  lemma EndNone(results: Results, t: Terminal)
    ensures EndAll(results, {}, t) == results
  {
  }

  datatype Step<S> = Step(state: S, sent: seq<Frame>)

  const MAX_BRIDGE_REQUEST_ID: nat := 9_007_199_254_740_991
  const MAX_NODE_REQUEST_ID: nat := 9_007_199_254_740_990
  const MAX_PENDING_REQUESTS: nat := 4096
  const MAX_INCOMING: nat := 64

  // ----- the Rust end

  /** `unsent` holds requests between their insertion and the attempt to queue their frame. */
  datatype Client = Client(
    ready: bool, next: RequestId, pending: set<RequestId>, unsent: set<RequestId>, results: Results,
    serving: set<RequestId>, cancellable: map<RequestId, bool>)

  const NEW_CLIENT := Client(true, 1, {}, {}, map[], {}, map[])

  function PendingLimit(capacity: nat): nat {
    var wanted := (if capacity == 0 then 1 else capacity) * 64;
    if wanted < MAX_PENDING_REQUESTS then wanted else MAX_PENDING_REQUESTS
  }

  function Resolve(c: Client, id: RequestId, t: Terminal): Client {
    if id in c.pending then c.(pending := c.pending - {id}, results := c.results[id := t]) else c
  }

  /** A frame joins the queue if the connection is ready and the queue has room. */
  function Send(c: Client, frame: Frame, room: bool): seq<Frame> {
    if c.ready && room then [frame] else []
  }

  function Begin(c: Client, capacity: nat): Client {
    if !c.ready || c.next + 2 > MAX_BRIDGE_REQUEST_ID then c
    else if |c.pending| >= PendingLimit(capacity) then c.(next := c.next + 2, results := c.results[c.next := QueueFull])
    else c.(next := c.next + 2, pending := c.pending + {c.next}, unsent := c.unsent + {c.next})
  }

  function Transmit(c: Client, id: RequestId, flag: bool, room: bool): Step<Client> {
    if id !in c.unsent then Step(c, [])
    else
      var c' := c.(unsent := c.unsent - {id});
      if !c.ready then Step(Resolve(c', id, Disconnected), [])
      else if !room then Step(Resolve(c', id, QueueFull), [])
      else Step(c', [Request(id, flag)])
  }

  function CancelPending(c: Client, id: RequestId, room: bool): Step<Client> {
    if id in c.pending then Step(Resolve(c, id, Cancelled), Send(c, Cancel(id), room)) else Step(c, [])
  }

  function Dispatch(c: Client, frame: Frame, capacity: nat, room: bool): Step<Client> {
    if !c.ready then Step(c, [])
    else
      match frame
      case Reply(id, ok) => Step(Resolve(c, id, Answered(ok)), [])
      case Cancel(id) =>
        if id in c.pending then Step(Resolve(c, id, Cancelled), [])
        else if id in c.cancellable then Step(c.(cancellable := c.cancellable[id := true]), [])
        else Step(c, [])
      case Request(id, flag) =>
        if flag && |c.cancellable| >= capacity then Step(c, Send(c, Reply(id, false), room))
        else if flag then Step(c.(serving := c.serving + {id}, cancellable := c.cancellable[id := false]), [])
        else Step(c.(serving := c.serving + {id}), [])
  }

  function Respond(c: Client, id: RequestId, ok: bool, room: bool): Step<Client> {
    if id in c.serving then Step(c.(serving := c.serving - {id}), Send(c, Reply(id, ok), room)) else Step(c, [])
  }

  /** The permit of a cancellable request is dropped after its response. */
  function Release(c: Client, id: RequestId): Client {
    if id in c.serving then c else c.(cancellable := c.cancellable - {id})
  }

  function Disconnect(c: Client): Client {
    if !c.ready then c
    else c.(ready := false, pending := {}, results := EndAll(c.results, c.pending, Disconnected))
  }

  class ClientInner {
    const capacity: nat
    var ready: bool
    var nextRequestId: RequestId
    var pending: set<RequestId>
    var unsent: set<RequestId>
    var results: Results
    var serving: set<RequestId>
    var cancellable: map<RequestId, bool>

    function State(): Client
      reads this
    {
      Client(ready, nextRequestId, pending, unsent, results, serving, cancellable)
    }

    constructor (capacity: nat)
      ensures State() == NEW_CLIENT && this.capacity == capacity
    {
      this.capacity := capacity;
      ready, nextRequestId, pending, unsent, results, serving, cancellable := true, 1, {}, {}, map[], {}, map[];
    }

    method ResolvePending(id: RequestId, t: Terminal) returns (resolved: bool)
      modifies this
      ensures State() == Resolve(old(State()), id, t) && resolved == (id in old(pending))
    {
      resolved := id in pending;
      if resolved {
        pending := pending - {id};
        results := results[id := t];
      }
    }

    method SendFrame(frame: Frame, room: bool) returns (sent: seq<Frame>)
      ensures sent == Send(State(), frame, room)
    {
      sent := if ready && room then [frame] else [];
    }

    method BeginRequest() returns (id: Option<RequestId>)
      modifies this
      ensures State() == Begin(old(State()), capacity)
      ensures id.Some? ==> id.value == old(nextRequestId) && id.value in pending && id.value in unsent
      ensures id.None? ==> pending == old(pending)
    {
      if !ready || nextRequestId + 2 > MAX_BRIDGE_REQUEST_ID {
        return None;
      }
      var drawn := nextRequestId;
      nextRequestId := nextRequestId + 2;
      if |pending| >= PendingLimit(capacity) {
        results := results[drawn := QueueFull];
        return None;
      }
      pending := pending + {drawn};
      unsent := unsent + {drawn};
      id := Some(drawn);
    }

    method TransmitRequest(id: RequestId, flag: bool, room: bool) returns (sent: seq<Frame>)
      requires id in unsent
      modifies this
      ensures Step(State(), sent) == Transmit(old(State()), id, flag, room)
    {
      unsent := unsent - {id};
      sent := SendFrame(Request(id, flag), room);
      if sent == [] {
        var _ := ResolvePending(id, if ready then QueueFull else Disconnected);
      }
    }

    method CancelRequest(id: RequestId, room: bool) returns (sent: seq<Frame>)
      modifies this
      ensures Step(State(), sent) == CancelPending(old(State()), id, room)
    {
      sent := [];
      var cancelled := ResolvePending(id, Cancelled);
      if cancelled {
        sent := SendFrame(Cancel(id), room);
      }
    }

    method DispatchFrame(frame: Frame, room: bool) returns (sent: seq<Frame>)
      modifies this
      ensures Step(State(), sent) == Dispatch(old(State()), frame, capacity, room)
    {
      sent := [];
      if !ready {
        return;
      }
      match frame
      case Reply(id, ok) =>
        var _ := ResolvePending(id, Answered(ok));
      case Cancel(id) =>
        var resolved := ResolvePending(id, Cancelled);
        if !resolved && id in cancellable {
          cancellable := cancellable[id := true];
        }
      case Request(id, flag) =>
        if flag {
          if |cancellable| >= capacity {
            sent := SendFrame(Reply(id, false), room);
            return;
          }
          cancellable := cancellable[id := false];
        }
        serving := serving + {id};
    }

    method RespondRequest(id: RequestId, ok: bool, room: bool) returns (sent: seq<Frame>)
      requires id in serving
      modifies this
      ensures Step(State(), sent) == Respond(old(State()), id, ok, room)
    {
      serving := serving - {id};
      sent := SendFrame(Reply(id, ok), room);
    }

    method DropPermit(id: RequestId)
      requires id !in serving
      modifies this
      ensures State() == Release(old(State()), id)
    {
      cancellable := cancellable - {id};
    }

    method DisconnectClient()
      modifies this
      ensures State() == Disconnect(old(State()))
    {
      if !ready {
        return;
      }
      hide EndAll;
      ready := false;
      var drained := pending;
      pending := {};
      var left := drained;
      EndNone(results, Disconnected);
      while left != {}
        invariant left <= drained && ready == false && pending == {}
        invariant unchanged(`nextRequestId, `unsent, `serving, `cancellable)
        invariant results == EndAll(old(results), drained - left, Disconnected)
      {
        var id :| id in left;
        EndOne(old(results), drained - left, id, Disconnected);
        assert drained - (left - {id}) == (drained - left) + {id};
        left := left - {id};
        results := results[id := Disconnected];
      }
      assert drained - left == drained;
    }
  }

  // ----- the Node end

  datatype Incoming = Incoming(settled: bool, route: bool)

  datatype Host = Host(
    ready: bool, next: RequestId, outgoing: set<RequestId>, cancelled: set<RequestId>, results: Results,
    queued: map<RequestId, bool>, incoming: map<RequestId, Incoming>, faulted: bool)

  const NEW_HOST := Host(true, 2, {}, {}, map[], map[], map[], false)

  function Written(frame: Frame, written: bool): seq<Frame> {
    if written then [frame] else []
  }

  function Invokes(incoming: map<RequestId, Incoming>): set<RequestId> {
    set id <- incoming | incoming[id].route
  }

  function BeginRemote(h: Host, flag: bool, written: bool): Step<Host> {
    if !h.ready || h.next > MAX_NODE_REQUEST_ID then Step(h, [])
    else if written then Step(h.(next := h.next + 2, outgoing := h.outgoing + {h.next}), [Request(h.next, flag)])
    else Step(h.(next := h.next + 2, outgoing := h.outgoing - {h.next}, results := h.results[h.next := WriteFailed]), [])
  }

  function Settle(h: Host, id: RequestId): Host {
    h.(outgoing := h.outgoing - {id}, cancelled := h.cancelled + {id}, results := h.results[id := Cancelled])
  }

  function CancelRemote(h: Host, id: RequestId, written: bool): Step<Host> {
    if id in h.outgoing then Step(Settle(h, id), Written(Cancel(id), written)) else Step(h, [])
  }

  function Shutdown(h: Host): Host {
    if !h.ready then h
    else h.(ready := false, outgoing := {}, cancelled := {}, results := EndAll(h.results, h.outgoing, Closing))
  }

  /** A protocol violation shuts the host down. */
  function Fault(h: Host): Host {
    Shutdown(h).(faulted := true)
  }

  function ResolveOutgoing(h: Host, id: RequestId, ok: bool): Host {
    if id in h.outgoing then h.(outgoing := h.outgoing - {id}, results := h.results[id := Answered(ok)])
    else if id in h.cancelled then h.(cancelled := h.cancelled - {id})
    else Fault(h)
  }

  function CancelIncoming(h: Host, id: RequestId, written: bool): Step<Host> {
    if id in h.incoming then
      if h.incoming[id].settled then Step(h, [])
      else Step(h.(incoming := h.incoming[id := h.incoming[id].(settled := true)]), Written(Reply(id, false), written))
    else if id in h.queued && !h.queued[id] then
      Step(h.(queued := h.queued[id := true]), Written(Reply(id, false), written))
    else Step(h, [])
  }

  function Accept(h: Host, id: RequestId, route: bool, written: bool): Step<Host> {
    if route then
      if id in h.incoming then Step(Fault(h), [])
      else if |Invokes(h.incoming)| >= MAX_INCOMING then Step(h, Written(Reply(id, false), written))
      else Step(h.(incoming := h.incoming[id := Incoming(false, true)]), [])
    else if id in h.incoming || id in h.queued then Step(Fault(h), [])
    else if |h.incoming| + |h.queued| >= MAX_INCOMING then Step(h, Written(Reply(id, false), written))
    else Step(h.(queued := h.queued[id := false]), [])
  }

  /** `receive`, for a host that is ready; what a closing host answers is not modelled. */
  function Receive(h: Host, frame: Frame, written: bool): Step<Host> {
    if !h.ready then Step(h, [])
    else
      match frame
      case Reply(id, ok) => Step(ResolveOutgoing(h, id, ok), [])
      case Request(id, route) => Accept(h, id, route, written)
      case Cancel(id) =>
        var step := CancelIncoming(h, id, written);
        if id in h.outgoing then step.(state := Settle(step.state, id)) else step
  }

  /** `dispatch` of a queued operation; one settled while it waited is dropped. */
  function Start(h: Host, id: RequestId): Host {
    if !h.ready || id !in h.queued then h
    else
      var h' := h.(queued := h.queued - {id});
      if id in h.incoming then Fault(h')
      else if h.queued[id] then h'
      else h'.(incoming := h.incoming[id := Incoming(false, false)])
  }

  function Finish(h: Host, id: RequestId, ok: bool, written: bool): Step<Host> {
    if id !in h.incoming then Step(h, [])
    else
      Step(h.(incoming := h.incoming - {id}), if h.incoming[id].settled then [] else Written(Reply(id, ok), written))
  }

  class CompatHost {
    var ready: bool
    var nextRequestId: RequestId
    var outgoing: set<RequestId>
    var cancelledOutgoing: set<RequestId>
    var results: Results
    var queuedIncoming: map<RequestId, bool>
    var incoming: map<RequestId, Incoming>
    var activeInvokes: nat
    var faulted: bool

    function State(): Host
      reads this
    {
      Host(ready, nextRequestId, outgoing, cancelledOutgoing, results, queuedIncoming, incoming, faulted)
    }

    /** The counter of route invocations agrees with the table. */
    ghost predicate Valid()
      reads this
    {
      activeInvokes == |Invokes(incoming)|
    }

    constructor ()
      ensures Valid() && State() == NEW_HOST
    {
      ready, nextRequestId, outgoing, cancelledOutgoing, results := true, 2, {}, {}, map[];
      queuedIncoming, incoming, activeInvokes, faulted := map[], map[], 0, false;
    }

    method BeginRemoteRequest(flag: bool, written: bool) returns (sent: seq<Frame>)
      requires Valid()
      modifies this
      ensures Valid() && Step(State(), sent) == BeginRemote(old(State()), flag, written)
    {
      sent := [];
      if !ready || nextRequestId > MAX_NODE_REQUEST_ID {
        return;
      }
      var id := nextRequestId;
      nextRequestId := nextRequestId + 2;
      outgoing := outgoing + {id};
      if written {
        sent := [Request(id, flag)];
      } else {
        outgoing := outgoing - {id};
        results := results[id := WriteFailed];
        assert outgoing == old(outgoing) - {id};
      }
    }

    method CancelRemoteRequest(id: RequestId, written: bool) returns (cancelled: bool, sent: seq<Frame>)
      requires Valid()
      modifies this
      ensures Valid() && Step(State(), sent) == CancelRemote(old(State()), id, written)
      ensures cancelled == (id in old(outgoing))
    {
      sent := [];
      cancelled := id in outgoing;
      if cancelled {
        outgoing := outgoing - {id};
        cancelledOutgoing := cancelledOutgoing + {id};
        results := results[id := Cancelled];
        sent := if written then [Cancel(id)] else [];
      }
    }

    method ShutdownHost()
      requires Valid()
      modifies this
      ensures Valid() && State() == Shutdown(old(State()))
    {
      if !ready {
        return;
      }
      hide EndAll, Invokes;
      ready := false;
      var left := outgoing;
      EndNone(results, Closing);
      while left != {}
        invariant left <= outgoing && ready == false
        invariant unchanged(`nextRequestId, `outgoing, `cancelledOutgoing, `queuedIncoming, `incoming, `activeInvokes, `faulted)
        invariant results == EndAll(old(results), outgoing - left, Closing)
      {
        var id :| id in left;
        EndOne(old(results), outgoing - left, id, Closing);
        assert outgoing - (left - {id}) == (outgoing - left) + {id};
        left := left - {id};
        results := results[id := Closing];
      }
      assert outgoing - left == outgoing;
      outgoing, cancelledOutgoing := {}, {};
    }

    method Resolve(id: RequestId, ok: bool)
      requires Valid()
      modifies this
      ensures Valid() && State() == ResolveOutgoing(old(State()), id, ok)
    {
      if id in outgoing {
        outgoing := outgoing - {id};
        results := results[id := Answered(ok)];
      } else if id in cancelledOutgoing {
        cancelledOutgoing := cancelledOutgoing - {id};
      } else {
        ShutdownHost();
        faulted := true;
      }
    }

    method CancelFrame(id: RequestId, written: bool) returns (sent: seq<Frame>)
      requires Valid() && ready
      modifies this
      ensures Valid() && Step(State(), sent) == Receive(old(State()), Cancel(id), written)
    {
      sent := [];
      if id in incoming {
        if !incoming[id].settled {
          SettledKeepsInvokes(incoming, id);
          incoming := incoming[id := incoming[id].(settled := true)];
          sent := if written then [Reply(id, false)] else [];
        }
      } else if id in queuedIncoming && !queuedIncoming[id] {
        queuedIncoming := queuedIncoming[id := true];
        sent := if written then [Reply(id, false)] else [];
      }
      if id in outgoing {
        outgoing := outgoing - {id};
        cancelledOutgoing := cancelledOutgoing + {id};
        results := results[id := Cancelled];
      }
    }

    method AcceptRequest(id: RequestId, route: bool, written: bool) returns (sent: seq<Frame>)
      requires Valid() && ready
      modifies this
      ensures Valid() && Step(State(), sent) == Accept(old(State()), id, route, written)
    {
      sent := [];
      if id in incoming || (!route && id in queuedIncoming) {
        ShutdownHost();
        faulted := true;
      } else if route {
        if activeInvokes >= MAX_INCOMING {
          sent := if written then [Reply(id, false)] else [];
        } else {
          AddedInvokes(incoming, id, Incoming(false, true));
          incoming := incoming[id := Incoming(false, true)];
          activeInvokes := activeInvokes + 1;
        }
      } else if |incoming| + |queuedIncoming| >= MAX_INCOMING {
        sent := if written then [Reply(id, false)] else [];
      } else {
        queuedIncoming := queuedIncoming[id := false];
      }
    }

    method ReceiveFrame(frame: Frame, written: bool) returns (sent: seq<Frame>)
      requires Valid()
      modifies this
      ensures Valid() && Step(State(), sent) == Receive(old(State()), frame, written)
    {
      sent := [];
      if !ready {
        return;
      }
      match frame
      case Cancel(id) => sent := CancelFrame(id, written);
      case Reply(id, ok) => Resolve(id, ok);
      case Request(id, route) => sent := AcceptRequest(id, route, written);
    }

    method StartOperation(id: RequestId)
      requires Valid()
      modifies this
      ensures Valid() && State() == Start(old(State()), id)
    {
      if !ready || id !in queuedIncoming {
        return;
      }
      var settled := queuedIncoming[id];
      queuedIncoming := queuedIncoming - {id};
      if id in incoming {
        ShutdownHost();
        faulted := true;
        return;
      }
      AddedInvokes(incoming, id, Incoming(settled, false));
      incoming := incoming[id := Incoming(settled, false)];
      if settled {
        RemovedInvokes(incoming, id);
        incoming := incoming - {id};
      }
    }

    method FinishOperation(id: RequestId, ok: bool, written: bool) returns (sent: seq<Frame>)
      requires Valid() && id in incoming
      modifies this
      ensures Valid() && Step(State(), sent) == Finish(old(State()), id, ok, written)
    {
      var request := incoming[id];
      sent := if request.settled || !written then [] else [Reply(id, ok)];
      RemovedInvokes(incoming, id);
      incoming := incoming - {id};
      if request.route {
        activeInvokes := activeInvokes - 1;
      }
    }
  }

  lemma SettledKeepsInvokes(incoming: map<RequestId, Incoming>, id: RequestId)
    requires id in incoming
    ensures Invokes(incoming[id := incoming[id].(settled := true)]) == Invokes(incoming)
  {
  }

  lemma AddedInvokes(incoming: map<RequestId, Incoming>, id: RequestId, request: Incoming)
    requires id !in incoming
    ensures |Invokes(incoming[id := request])| == |Invokes(incoming)| + if request.route then 1 else 0
  {
    assert Invokes(incoming[id := request]) == Invokes(incoming) + if request.route then {id} else {};
  }

  lemma RemovedInvokes(incoming: map<RequestId, Incoming>, id: RequestId)
    requires id in incoming
    ensures |Invokes(incoming - {id})| == |Invokes(incoming)| - if incoming[id].route then 1 else 0
  {
    assert Invokes(incoming - {id}) == Invokes(incoming) - if incoming[id].route then {id} else {};
  }
}
