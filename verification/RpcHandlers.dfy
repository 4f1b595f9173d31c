/** src/rpc/handler.rs: the request/response handler object. */
module RpcHandlers {
  import opened Common
  import opened DelayQueues
  import opened RpcSteps
  import opened RpcRuns
  import opened RpcPolls

  datatype RpcSend =
    | SendRequestEvent(entry: Entry)
    | SendResponseEvent(s: SubstreamId, chunk: Chunk)
    | ShutdownEvent(goodbye: Id)

  /** The step an incoming event of the behaviour causes. */
  function LabelOf(e: RpcSend, now: Instant): Label {
    match e
    case SendRequestEvent(entry) => SendRequest(entry)
    case SendResponseEvent(s, chunk) => SendResponse(s, chunk)
    case ShutdownEvent(goodbye) => Shutdown(goodbye, now)
  }

  class RpcHandler {
    var eventsOut: seq<Event>
    var dialQueue: seq<Entry>
    var dialNegotiated: nat
    var inbound: map<SubstreamId, InboundInfo>
    var inboundTimers: DelayQueue<SubstreamId>
    var outbound: map<SubstreamId, OutboundInfo>
    var outboundTimers: DelayQueue<SubstreamId>
    var nextInbound: SubstreamId
    var nextOutbound: SubstreamId
    var state: HandlerState
    var ioRetries: nat

    /** The substreams asked for that libp2p has not answered yet. */
    ghost var dialing: multiset<Entry>

    /** The events of the queue with their causes. */
    ghost var queued: seq<Emission>

    ghost predicate Valid()
      reads this
    {
      Sane(View(), dialing, queued)
    }

    function View(): Handler
      reads this
    {
      Handler(eventsOut, dialQueue, dialNegotiated, inbound, inboundTimers, outbound, outboundTimers,
              nextInbound, nextOutbound, state, ioRetries)
    }

    constructor ()
      ensures Valid() && View() == NewHandler && dialing == multiset{} && queued == []
    {
      eventsOut, dialQueue, dialNegotiated := [], [], 0;
      inbound, inboundTimers, outbound, outboundTimers := map[], map[], map[], map[];
      nextInbound, nextOutbound, state, ioRetries := 0, 0, Active, 0;
      dialing, queued := multiset{}, [];
      new;
      SaneStart();
    }

    /** Requests, responses and the shutdown ordered by the behaviour. */
    method InjectEvent(e: RpcSend, now: Instant)
      requires Valid()
      modifies this
      ensures Valid() && dialing == old(dialing)
      ensures View() == Step(old(View()), LabelOf(e, now)).next
      ensures queued == old(queued) + Step(old(View()), LabelOf(e, now)).emits
    {
      hide Sane, RequestSent, ResponseSent, ShutDown;
      ghost var d, q := dialing, NextQueued(queued, LabelOf(e, now), Step(View(), LabelOf(e, now)));
      DirectIff(View(), LabelOf(e, now));
      StepKeepsSane(View(), d, queued, LabelOf(e, now));
      match e {
        case SendRequestEvent(entry) => SendRequestTo(entry);
        case SendResponseEvent(s, chunk) => SendResponseTo(s, chunk);
        case ShutdownEvent(goodbye) => ShutdownHandler(Some(goodbye), now);
      }
      dialing, queued := d, q;
    }

    /** Fails everything queued, queues a goodbye if asked to, and starts the shutdown timer. */
    method ShutdownHandler(goodbye: Option<Id>, now: Instant)
      modifies this
      ensures View() == ShutDown(old(View()), goodbye, now).next
    {
      hide Events, Flushed;
      if state.Active? {
        FlushDialQueue();
        if goodbye.Some? {
          dialQueue := dialQueue + [(goodbye.value, GoodbyeRequest)];
        }
        state := ShuttingDown(now + SHUTDOWN_TIMEOUT);
      }
    }

    method FlushDialQueue()
      modifies this`dialQueue, this`eventsOut
      ensures dialQueue == [] && eventsOut == old(eventsOut) + Events(Flushed(old(dialQueue)))
    {
      hide Events, Flushed;
      while dialQueue != []
        invariant eventsOut + Events(Flushed(dialQueue)) == old(eventsOut) + Events(Flushed(old(dialQueue)))
        decreases |dialQueue|
      {
        var (id, request) := dialQueue[|dialQueue| - 1];
        FlushOne(dialQueue);
        dialQueue := dialQueue[..|dialQueue| - 1];
        eventsOut := eventsOut + [OutboundErr(id, request.Protocol(), Disconnected)];
      }
      FlushNone();
    }

    method SendRequestTo(entry: Entry)
      modifies this
      ensures View() == RequestSent(old(View()), entry).next
    {
      if state.Active? {
        dialQueue := dialQueue + [entry];
      } else {
        eventsOut := eventsOut + [OutboundErr(entry.0, entry.1.Protocol(), Disconnected)];
      }
    }

    method SendResponseTo(s: SubstreamId, chunk: Chunk)
      modifies this
      ensures View() == ResponseSent(old(View()), s, chunk).next
    {
      if s !in inbound {
        return;
      }
      if chunk.Error? {
        eventsOut := eventsOut + [InboundErr(s, inbound[s].protocol, ErrorResponse(chunk.code))];
      }
      if state.Deactivated? {
        return;
      }
      inbound := inbound[s := inbound[s].(pending := inbound[s].pending + [chunk])];
    }

    method InjectFullyNegotiatedInbound(request: Request, now: Instant) returns (ghost key: TimerKey)
      requires Valid()
      modifies this
      ensures Valid() && dialing == old(dialing) && key !in old(inboundTimers)
      ensures View() == InboundNegotiated(old(View()), request, key, now).next
      ensures queued == old(queued) + InboundNegotiated(old(View()), request, key, now).emits
    {
      hide Sane, InboundNegotiated;
      ghost var h0, d, q := View(), dialing, queued;
      key := AcceptInbound(request, now);
      ghost var l := InboundOpened(request, key, now);
      DirectIff(h0, l);
      dialing, queued := d, NextQueued(q, l, Step(h0, l));
      StepKeepsSane(h0, d, q, l);
    }

    method AcceptInbound(request: Request, now: Instant) returns (ghost key: TimerKey)
      modifies this
      ensures key !in old(inboundTimers)
      ensures View() == InboundNegotiated(old(View()), request, key, now).next
    {
      hide ShutDown, Queued, Events, InboundStored;
      ghost var h0 := View();
      ghost var free := FreshKeyExists(inboundTimers);
      var k :| k !in inboundTimers;
      key := k;
      if !state.Active? {
        return;
      }
      if request.Expected() > 0 {
        if |inbound| < MAX_INBOUND_SUBSTREAMS {
          StoreInbound(request, k, now);
        } else {
          QueuedOne(h0, Emission(OfInbound(nextInbound), InboundErr(nextInbound, request.Protocol(), HandlerRejected)));
          eventsOut := eventsOut + [InboundErr(nextInbound, request.Protocol(), HandlerRejected)];
          ShutdownHandler(None, now);
          return;
        }
      } else {
        StoresNothing(h0, request, k, now);
      }
      if request.GoodbyeRequest? {
        ShutdownHandler(None, now);
        ShutDownTouches(h0, None, now);
      }
      ReceiveRequest(request);
    }

    method StoreInbound(request: Request, key: TimerKey, now: Instant)
      requires request.Expected() > 0
      modifies this`inbound, this`inboundTimers
      ensures View() == InboundStored(old(View()), request, key, now)
    {
      inboundTimers := inboundTimers[key := Timer(nextInbound, now + RESPONSE_TIMEOUT)];
      inbound := inbound[nextInbound := InboundInfo(Idle, [], request.Protocol(), request.Expected(), Some(key))];
    }

    /** Reports the request and takes its identifier. */
    method ReceiveRequest(request: Request)
      modifies this`eventsOut, this`nextInbound
      ensures
        var e := Emission(OfInbound(old(nextInbound)), Received(old(nextInbound), request));
        View() == Queued(old(View()).(nextInbound := old(nextInbound) + 1), [e]).next
    {
      hide Queued;
      QueuedOne(View().(nextInbound := nextInbound + 1),
                Emission(OfInbound(nextInbound), Received(nextInbound, request)));
      eventsOut := eventsOut + [Received(nextInbound, request)];
      nextInbound := nextInbound + 1;
    }

    method InjectFullyNegotiatedOutbound(entry: Entry, now: Instant) returns (ghost key: TimerKey)
      requires Valid() && entry in dialing
      modifies this
      ensures Valid() && dialing == old(dialing) - multiset{entry} && key !in old(outboundTimers)
      ensures View() == OutboundNegotiated(old(View()), entry, key, now).next
      ensures queued == old(queued) + OutboundNegotiated(old(View()), entry, key, now).emits
    {
      hide Sane, OutboundNegotiated;
      ghost var h0, d, q := View(), dialing, queued;
      DialsCounted(h0, d, q, entry);
      key := AcceptOutbound(entry, now);
      ghost var l := OutboundOpened(entry, key, now);
      DirectIff(h0, l);
      dialing, queued := d - multiset{entry}, NextQueued(q, l, Step(h0, l));
      StepKeepsSane(h0, d, q, l);
    }

    method AcceptOutbound(entry: Entry, now: Instant) returns (ghost key: TimerKey)
      requires dialNegotiated > 0
      modifies this
      ensures key !in old(outboundTimers)
      ensures View() == OutboundNegotiated(old(View()), entry, key, now).next
    {
      hide Queued, Events, OutboundStored;
      ghost var h0 := View();
      ghost var free := FreshKeyExists(outboundTimers);
      var k :| k !in outboundTimers;
      key := k;
      dialNegotiated := dialNegotiated - 1;
      var (id, request) := entry;
      ghost var stored := OutboundStored(View(), entry, key, now);
      ghost var cause := if request.Expected() > 0 then OfStream(nextOutbound) else OfRequest(entry);
      QueuedOne(stored, Emission(cause, Failure(entry, Disconnected).event));
      QueuedNone(stored);
      StoringCommutes(View(), entry, key, now);
      if state.Deactivated? {
        eventsOut := eventsOut + [OutboundErr(id, request.Protocol(), Disconnected)];
      }
      StoreOutbound(entry, k, now);
    }

    method StoreOutbound(entry: Entry, key: TimerKey, now: Instant)
      modifies this
      ensures View() == OutboundStored(old(View()), entry, key, now)
    {
      var (id, request) := entry;
      if request.Expected() > 0 {
        outboundTimers := outboundTimers[key := Timer(nextOutbound, now + RESPONSE_TIMEOUT)];
        var remaining := if request.Expected() > 1 then Some(request.Expected()) else None;
        outbound := outbound[nextOutbound := OutboundInfo(Pending(request), key, request.Protocol(), remaining, id)];
        nextOutbound := nextOutbound + 1;
      }
    }

    /** `io` says that the upgrade itself failed with an I/O error. */
    method InjectDialUpgradeError(entry: Entry, io: bool, error: RpcError)
      requires Valid() && entry in dialing && (io ==> error.IoError?)
      modifies this
      ensures Valid() && dialing == old(dialing) - multiset{entry}
      ensures View() == DialRefused(old(View()), entry, io, error).next
      ensures queued == old(queued) + DialRefused(old(View()), entry, io, error).emits
    {
      hide Sane, DialRefused;
      ghost var h0, d, q := View(), dialing, queued;
      DialsCounted(h0, d, q, entry);
      RefuseDial(entry, io, error);
      ghost var l := DialFailed(entry, io, error);
      DirectIff(h0, l);
      dialing, queued := d - multiset{entry}, NextQueued(q, l, Step(h0, l));
      StepKeepsSane(h0, d, q, l);
    }

    method RefuseDial(entry: Entry, io: bool, error: RpcError)
      requires dialNegotiated > 0
      modifies this
      ensures View() == DialRefused(old(View()), entry, io, error).next
    {
      if io {
        ioRetries := ioRetries + 1;
        if ioRetries < IO_ERROR_RETRIES {
          SendRequestTo(entry);
          return;
        }
      }
      dialNegotiated := dialNegotiated - 1;
      ioRetries := 0;
      eventsOut := eventsOut + [OutboundErr(entry.0, entry.1.Protocol(), error)];
    }

    method ConnectionKeepAlive() returns (keep: bool)
      ensures keep == !MayDrop(View())
    {
      var drained := dialQueue == [] && outbound == map[] && inbound == map[] && eventsOut == [] && dialNegotiated == 0;
      keep := match state
        case ShuttingDown(_) => !drained
        case Deactivated => false
        case Active => true;
    }

    // ---- Polling ----

    /** Marks every inbound substream whose timer has run out. */
    method ExpireInbound(io: PollIo) returns (ghost ls: seq<Label>)
      modifies this`inbound, this`inboundTimers, this`eventsOut
      ensures Quietly(old(View()), io, ls) == Some(View()) && AllInbound(ls)
      ensures inboundTimers == map key | key in old(inboundTimers) && old(inboundTimers)[key].deadline > io.now
                                 :: old(inboundTimers)[key]
      ensures SameStates(old(View()), View())
    {
      hide Step, Quietly, Takes, InboundTimedOut, IsInboundLabel;
      ls := [];
      ghost var h0 := View();
      NoStepsYet(h0, io);
      while exists key :: key in inboundTimers && inboundTimers[key].deadline <= io.now
        invariant Quietly(h0, io, ls) == Some(View()) && AllInbound(ls) && SameStates(h0, View())
        invariant forall key :: key in inboundTimers ==>
                    key in h0.inboundTimers && inboundTimers[key] == h0.inboundTimers[key]
        invariant forall key :: key in h0.inboundTimers && h0.inboundTimers[key].deadline > io.now ==>
                    key in inboundTimers
        decreases inboundTimers.Keys
      {
        var key :| key in inboundTimers && inboundTimers[key].deadline <= io.now;
        ghost var before := View();
        ghost var keys := inboundTimers.Keys;
        ExpireOneInbound(key);
        TimeoutIsQuiet(before, io, key);
        QuietlyMore(h0, io, ls, before, InboundExpired(key));
        ls := ls + [InboundExpired(key)];
        assert inboundTimers.Keys < keys;
      }
    }

    method ExpireOneInbound(key: TimerKey)
      requires key in inboundTimers
      modifies this`inbound, this`inboundTimers, this`eventsOut
      ensures View() == InboundTimedOut(old(View()), key).next
      ensures inboundTimers == old(inboundTimers) - {key} && SameStates(old(View()), View())
    {
      var s := inboundTimers[key].item;
      inboundTimers := inboundTimers - {key};
      if s in inbound {
        var info := inbound[s];
        eventsOut := eventsOut + [InboundErr(s, info.protocol, StreamTimeout)];
        info := info.(delayKey := None);
        if info.pending != [] && info.pending[|info.pending| - 1].Success? {
          info := info.(pending := info.pending + [Error(SERVER_ERROR)]);
        } else {
          assert info.pending + [] == info.pending;
        }
        inbound := inbound[s := info];
      }
    }

    /** Drops the first outbound substream whose timer has run out and reports it. */
    method ExpireOutbound(io: PollIo, ghost d: multiset<Entry>, ghost q: seq<Emission>)
      returns (out: Output, ghost last: Option<Label>)
      requires Sane(View(), d, q)
      modifies this`outbound, this`outboundTimers
      ensures Took(old(View()), io, last, View(), out)
      ensures if last.Some? then last.value.OutboundExpired? && out.Custom? else out.Nothing?
      ensures last.None? <==> NoneExpired(old(outboundTimers), io.now)
    {
      hide Sane;
      out, last := Nothing, None;
      if exists key :: key in outboundTimers && outboundTimers[key].deadline <= io.now {
        var key :| key in outboundTimers && outboundTimers[key].deadline <= io.now;
        last := Some(OutboundExpired(key));
        var k := outboundTimers[key].item;
        SaneTimeout(View(), d, q, key);
        if k in outbound {
          var info := outbound[k];
          outboundTimers := outboundTimers - {key};
          outbound := outbound - {k};
          out := Custom(OutboundErr(info.id, info.protocol, StreamTimeout));
        } else {
          assert false;
        }
      }
    }

    /** The handler without the substreams that are finished but not yet taken out of the map. */
    ghost function Visible(finished: set<SubstreamId>): Handler
      reads this
    {
      View().(inbound := inbound - finished)
    }

    /** Every entry but that of `s` is as it was. */
    twostate predicate OnlyInbound(s: SubstreamId)
      reads this
    {
      inbound.Keys == old(inbound.Keys) && forall t :: t in inbound && t != s ==> inbound[t] == old(inbound[t])
    }

    /** No inbound timer has run out if none had before. */
    twostate predicate InboundInTime(now: Instant)
      reads this
    {
      NoneExpired(old(inboundTimers), now) ==> NoneExpired(inboundTimers, now)
    }

    method StartNextSend(s: SubstreamId, ghost finished: set<SubstreamId>)
      requires s in inbound && s !in finished && inbound[s].state.PoisonedInbound? && inbound[s].pending != []
      modifies this`inbound
      ensures OnlyInbound(s)
      ensures inbound[s].state.Busy? && |inbound[s].pending| == old(|inbound[s].pending|) - 1
      ensures Visible(finished) == SendStarted(WithState(old(Visible(finished)), s, Idle), s).next
    {
      var info := inbound[s];
      inbound := inbound[s := info.(state := Busy(info.pending[0], info.remaining <= 1), pending := info.pending[1..])];
    }

    /** The send in progress is done; a closed or broken substream is finished. */
    method FinishOneSend(s: SubstreamId, message: Chunk, lastChunk: bool, sendErr: Option<RpcError>,
                         closeErr: Option<RpcError>, now: Instant, ghost finished: set<SubstreamId>)
      returns (done: bool)
      requires s in inbound && s !in finished && inbound[s].state.PoisonedInbound?
      modifies this`inbound, this`inboundTimers, this`eventsOut
      ensures OnlyInbound(s) && InboundInTime(now)
      ensures inbound[s].state.PoisonedInbound? && inbound[s].pending == old(inbound[s].pending)
      ensures
        var h := WithState(old(Visible(finished)), s, Busy(message, lastChunk));
        SendFinished(h, s, sendErr, closeErr, now).next
        == if done then Visible(finished + {s}) else WithState(Visible(finished), s, Idle)
    {
      hide Queued, Events, SendResult, InboundRemoved, InboundReset;
      var protocol := inbound[s].protocol;
      var result := SendMessageToInboundSubstream(message, lastChunk, sendErr, closeErr);
      ghost var h := Visible(finished);
      RemovedAnyway(h, s, Busy(message, lastChunk), now);
      match result {
        case Ok(closed) =>
          done := closed;
          if closed {
            Retire(s, finished);
          } else {
            ChunkSent(s, now, finished);
          }
        case Err(error) =>
          done := true;
          QueuedOne(InboundRemoved(h, s), Emission(OfInbound(s), InboundErr(s, protocol, error)));
          Retire(s, finished);
          eventsOut := eventsOut + [InboundErr(s, protocol, error)];
      }
    }

    /** One chunk fewer to go, and a new deadline for the next one. */
    method ChunkSent(s: SubstreamId, now: Instant, ghost finished: set<SubstreamId>)
      requires s in inbound && s !in finished
      modifies this`inbound, this`inboundTimers
      ensures OnlyInbound(s) && InboundInTime(now)
      ensures inbound[s] == old(inbound[s]).(remaining := SatSub(old(inbound[s]).remaining, 1))
      ensures
        var h := old(Visible(finished));
        WithState(Visible(finished), s, Idle)
        == h.(inbound := h.inbound[s := h.inbound[s].(state := Idle, remaining := SatSub(h.inbound[s].remaining, 1))],
              inboundTimers := InboundReset(h, s, now))
    {
      var info := inbound[s];
      inbound := inbound[s := info.(remaining := SatSub(info.remaining, 1))];
      if info.delayKey.Some? {
        inboundTimers := inboundTimers[info.delayKey.value := Timer(s, now + RESPONSE_TIMEOUT)];
      }
    }

    /** Cancels the timer of a finished substream. */
    method Retire(s: SubstreamId, ghost finished: set<SubstreamId>)
      requires s in inbound && s !in finished
      modifies this`inboundTimers
      ensures forall key :: key in inboundTimers ==>
                key in old(inboundTimers) && inboundTimers[key] == old(inboundTimers)[key]
      ensures Visible(finished + {s}) == InboundRemoved(old(Visible(finished)), s)
    {
      if inbound[s].delayKey.Some? {
        inboundTimers := inboundTimers - {inbound[s].delayKey.value};
      }
      assert inbound - finished - {s} == inbound - (finished + {s});
    }

    /** An idle substream of a deactivated handler has closed. */
    method CloseOneIdle(s: SubstreamId, closeErr: Option<RpcError>, ghost finished: set<SubstreamId>)
      requires s in inbound && s !in finished && inbound[s].state.PoisonedInbound?
      modifies this`inboundTimers, this`eventsOut
      ensures forall now :: InboundInTime(now)
      ensures Visible(finished + {s}) == IdleClosed(WithState(old(Visible(finished)), s, Idle), s, closeErr).next
    {
      var info := inbound[s];
      ghost var h := WithState(Visible(finished), s, Idle);
      RemovedAnyway(Visible(finished), s, Idle, 0);
      Retire(s, finished);
      if closeErr.Some? {
        eventsOut := eventsOut + [InboundErr(s, info.protocol, closeErr.value)];
      }
      if info.pending != [] && info.pending[|info.pending| - 1].Success? {
        eventsOut := eventsOut + [InboundErr(s, info.protocol, Disconnected)];
      }
      ClosingEvents(s, info.protocol, closeErr, EndsOpen(info));
      assert eventsOut == h.eventsOut + Events(IdleClosed(h, s, closeErr).emits);
    }

    /** One turn of the loop that drives an inbound substream. */
    method DriveInboundOnce(s: SubstreamId, io: PollIo, ghost finished: set<SubstreamId>, ghost h0: Handler,
                            ghost ls0: seq<Label>)
      returns (again: bool, done: bool, ghost ls: seq<Label>)
      requires s in inbound && s !in finished && !inbound[s].state.PoisonedInbound?
      requires Quietly(h0, io, ls0) == Some(Visible(finished)) && AllInbound(ls0)
      modifies this`inbound, this`inboundTimers, this`eventsOut
      ensures OnlyInbound(s) && InboundInTime(io.now) && (done ==> !again)
      ensures again ==> !state.Deactivated? && !inbound[s].state.PoisonedInbound?
      ensures again ==> Work(inbound[s]) < old(Work(inbound[s]))
      ensures !again && !done ==> SettledInbound(s, inbound[s], io, state.Deactivated?, old(inbound[s]).state.Busy?)
      ensures Quietly(h0, io, ls) == Some(Visible(if done then finished + {s} else finished)) && AllInbound(ls)
    {
      hide Quietly, AllInbound;
      ghost var h := Visible(finished);
      var current := inbound[s].state;
      inbound := inbound[s := inbound[s].(state := PoisonedInbound)];
      assert WithState(Visible(finished), s, current) == h;
      match current {
        case Idle =>
          again, done, ls := DriveIdle(s, io, finished, h0, ls0);
        case Busy(message, lastChunk) =>
          again, done, ls := DriveBusy(s, message, lastChunk, io, finished, h0, ls0);
        case PoisonedInbound => assert false;
      }
    }

    method DriveIdle(s: SubstreamId, io: PollIo, ghost finished: set<SubstreamId>, ghost h0: Handler,
                     ghost ls0: seq<Label>)
      returns (again: bool, done: bool, ghost ls: seq<Label>)
      requires s in inbound && s !in finished && inbound[s].state.PoisonedInbound?
      requires Quietly(h0, io, ls0) == Some(WithState(Visible(finished), s, Idle)) && AllInbound(ls0)
      modifies this`inbound, this`inboundTimers, this`eventsOut
      ensures OnlyInbound(s) && InboundInTime(io.now) && (done ==> !again)
      ensures again ==> !state.Deactivated? && inbound[s].state.Busy?
      ensures again ==> Work(inbound[s]) < old(2 * |inbound[s].pending|)
      ensures !again && !done ==> SettledInbound(s, inbound[s], io, state.Deactivated?, false)
      ensures Quietly(h0, io, ls) == Some(Visible(if done then finished + {s} else finished)) && AllInbound(ls)
    {
      hide Quietly, SendStarted, IdleClosed;
      again, done, ls := false, false, ls0;
      if !state.Deactivated? {
        again, ls := SendMore(s, io, finished, h0, ls0);
      } else {
        match io.closeIdle(s) {
          case StillClosing => Restore(s, Idle, finished);
          case CloseDone(closeErr) =>
            QuietClose(h0, io, ls, WithState(Visible(finished), s, Idle), s, closeErr);
            CloseOneIdle(s, closeErr, finished);
            done, ls := true, ls + [CloseIdle(s, closeErr)];
        }
      }
    }

    method DriveBusy(s: SubstreamId, message: Chunk, lastChunk: bool, io: PollIo, ghost finished: set<SubstreamId>,
                     ghost h0: Handler, ghost ls0: seq<Label>)
      returns (again: bool, done: bool, ghost ls: seq<Label>)
      requires s in inbound && s !in finished && inbound[s].state.PoisonedInbound?
      requires Quietly(h0, io, ls0) == Some(WithState(Visible(finished), s, Busy(message, lastChunk)))
      requires AllInbound(ls0)
      modifies this`inbound, this`inboundTimers, this`eventsOut
      ensures OnlyInbound(s) && InboundInTime(io.now) && (done ==> !again)
      ensures again ==> !state.Deactivated? && inbound[s].state.Busy?
      ensures again ==> Work(inbound[s]) < old(2 * |inbound[s].pending| + 1)
      ensures !again && !done ==> SettledInbound(s, inbound[s], io, state.Deactivated?, true)
      ensures Quietly(h0, io, ls) == Some(Visible(if done then finished + {s} else finished)) && AllInbound(ls)
    {
      hide Quietly, SendFinished;
      again, done, ls := false, false, ls0;
      match io.send(s, |inbound[s].pending|) {
        case StillSending => Restore(s, Busy(message, lastChunk), finished);
        case SendDone(sendErr, closeErr) =>
          QuietFinish(h0, io, ls, WithState(Visible(finished), s, Busy(message, lastChunk)), s, sendErr, closeErr);
          done := FinishOneSend(s, message, lastChunk, sendErr, closeErr, io.now, finished);
          ls := ls + [FinishSend(s, sendErr, closeErr, io.now)];
          if !done {
            again, ls := SendMore(s, io, finished, h0, ls);
          }
      }
    }

    /** Puts the state of a substream back. */
    method Restore(s: SubstreamId, current: InboundState, ghost finished: set<SubstreamId>)
      requires s in inbound && s !in finished && !current.PoisonedInbound?
      modifies this`inbound
      ensures OnlyInbound(s) && inbound[s] == old(inbound[s]).(state := current)
      ensures Visible(finished) == WithState(old(Visible(finished)), s, current)
    {
      inbound := inbound[s := inbound[s].(state := current)];
    }

    /** Starts sending the next message, if there is one and the handler is not deactivated. */
    method SendMore(s: SubstreamId, io: PollIo, ghost finished: set<SubstreamId>, ghost h0: Handler,
                    ghost ls0: seq<Label>)
      returns (again: bool, ghost ls: seq<Label>)
      requires s in inbound && s !in finished && inbound[s].state.PoisonedInbound?
      requires Quietly(h0, io, ls0) == Some(WithState(Visible(finished), s, Idle)) && AllInbound(ls0)
      modifies this`inbound
      ensures OnlyInbound(s) && (again <==> !state.Deactivated? && old(inbound[s]).pending != [])
      ensures if again then inbound[s].state.Busy? && |inbound[s].pending| == old(|inbound[s].pending|) - 1
              else inbound[s] == old(inbound[s]).(state := Idle)
      ensures Quietly(h0, io, ls) == Some(Visible(finished)) && AllInbound(ls)
    {
      hide Quietly, SendStarted;
      if !state.Deactivated? && inbound[s].pending != [] {
        QuietStart(h0, io, ls0, WithState(Visible(finished), s, Idle), s);
        StartNextSend(s, finished);
        again, ls := true, ls0 + [StartSend(s)];
      } else {
        Restore(s, Idle, finished);
        again, ls := false, ls0;
      }
    }

    /** Drives one inbound substream as far as it goes. */
    method DriveInboundStream(s: SubstreamId, io: PollIo, ghost finished: set<SubstreamId>, ghost h0: Handler,
                              ghost ls0: seq<Label>)
      returns (done: bool, ghost ls: seq<Label>)
      requires s in inbound && s !in finished && !inbound[s].state.PoisonedInbound?
      requires Quietly(h0, io, ls0) == Some(Visible(finished)) && AllInbound(ls0)
      modifies this`inbound, this`inboundTimers, this`eventsOut
      ensures OnlyInbound(s) && InboundInTime(io.now)
      ensures !done ==> SettledInbound(s, inbound[s], io, state.Deactivated?, old(inbound[s]).state.Busy?)
      ensures Quietly(h0, io, ls) == Some(Visible(if done then finished + {s} else finished)) && AllInbound(ls)
    {
      hide Quietly, AllInbound, NoneExpired;
      var again := true;
      done, ls := false, ls0;
      while again
        invariant OnlyInbound(s) && InboundInTime(io.now)
        invariant again ==> !done && !inbound[s].state.PoisonedInbound?
        invariant again && state.Deactivated? ==> inbound[s] == old(inbound[s])
        invariant !again && !done ==> SettledInbound(s, inbound[s], io, state.Deactivated?, old(inbound[s]).state.Busy?)
        invariant Quietly(h0, io, ls) == Some(Visible(if done then finished + {s} else finished)) && AllInbound(ls)
        decreases if again then Work(inbound[s]) + 1 else 0
      {
        again, done, ls := DriveInboundOnce(s, io, finished, h0, ls);
      }
    }

    /** Drives every inbound substream as far as it goes and then takes the finished ones out of the map. */
    method DriveInbound(io: PollIo) returns (ghost ls: seq<Label>)
      requires forall s :: s in inbound ==> !inbound[s].state.PoisonedInbound?
      modifies this`inbound, this`inboundTimers, this`eventsOut
      ensures Quietly(old(View()), io, ls) == Some(View()) && AllInbound(ls)
      ensures InboundSettled(old(View()), View(), io) && InboundInTime(io.now)
    {
      hide Quietly, AllInbound, NoneExpired, SettledInbound;
      ghost var h0 := View();
      var finished: set<SubstreamId> := {};
      var rest := inbound.Keys;
      ls := [];
      NoStepsYet(h0, io);
      NoInbound();
      assert Visible(finished) == View();
      while rest != {}
        invariant rest <= inbound.Keys && finished !! rest && inbound.Keys == h0.inbound.Keys && InboundInTime(io.now)
        invariant forall s :: s in rest ==> inbound[s] == h0.inbound[s]
        invariant forall s :: s in inbound && s !in rest && s !in finished ==>
                    SettledInbound(s, inbound[s], io, state.Deactivated?, h0.inbound[s].state.Busy?)
        invariant Quietly(h0, io, ls) == Some(Visible(finished)) && AllInbound(ls)
      {
        var s :| s in rest;
        var done;
        done, ls := DriveInboundStream(s, io, finished, h0, ls);
        rest := rest - {s};
        if done {
          finished := finished + {s};
        }
      }
      inbound := inbound - finished;
    }

    /** Drives one outbound substream: the one step that its state and its I/O call for. */
    method DriveOutboundStream(k: SubstreamId, io: PollIo) returns (out: Output, ghost last: Option<Label>)
      requires k in outbound && !outbound[k].state.PoisonedOutbound? && CodecOk(io)
      modifies this`outbound, this`outboundTimers, this`eventsOut
      ensures OnlyOutbound(k, io.now) && !out.Close?
      ensures last == OutboundTurn(old(View()), k, io) && Took(old(View()), io, last, View(), out)
      ensures out.Nothing? && k in outbound ==>
                SettledOutbound(k, outbound[k], io, state.Deactivated?, old(outbound[k]).state.Pending?)
    {
      hide Took;
      ghost var h := View();
      var current := outbound[k].state;
      outbound := outbound[k := outbound[k].(state := PoisonedOutbound)];
      assert WithOutboundState(View(), k, current) == h;
      match current {
        case Pending(request) => out, last := DrivePending(k, request, io);
        case Closing => out, last := DriveClosing(k, io);
        case PoisonedOutbound => assert false;
      }
    }

    method DrivePending(k: SubstreamId, request: Request, io: PollIo) returns (out: Output, ghost last: Option<Label>)
      requires k in outbound && CodecOk(io)
      modifies this`outbound, this`outboundTimers, this`eventsOut
      ensures OnlyOutbound(k, io.now) && !out.Close?
      ensures
        var h := WithOutboundState(old(View()), k, Pending(request));
        last == OutboundTurn(h, k, io) && Took(h, io, last, View(), out)
      ensures out.Nothing? ==> k in outbound && SettledOutbound(k, outbound[k], io, state.Deactivated?, true)
    {
      hide ChunkReceived, StreamEnds, StreamBroken, StreamAbandoned, Step, Takes, OnlyOutbound;
      ghost var h := WithOutboundState(View(), k, Pending(request));
      PendingSteps(h, k, io);
      out, last := Nothing, None;
      if state.Deactivated? {
        Abandon(k, request, io.now);
        last := Some(StreamDeactivated(k));
      } else {
        match io.read(k) {
          case NothingToRead => RestoreOutbound(k, Pending(request), io.now);
          case ReadChunk(chunk) =>
            out := ReceiveChunk(k, request, chunk, io.now);
            last := Some(StreamChunk(k, chunk, io.now));
          case ReadEnd =>
            out := EndStream(k, request, io.now);
            last := Some(StreamEnded(k));
          case ReadError(error) =>
            out := BreakStream(k, request, error, io.now);
            last := Some(StreamFailed(k, error));
        }
      }
    }

    method DriveClosing(k: SubstreamId, io: PollIo) returns (out: Output, ghost last: Option<Label>)
      requires k in outbound
      modifies this`outbound, this`outboundTimers
      ensures OnlyOutbound(k, io.now) && !out.Close?
      ensures
        var h := WithOutboundState(old(View()), k, Closing);
        last == OutboundTurn(h, k, io) && Took(h, io, last, View(), out)
      ensures out.Nothing? && k in outbound ==> SettledOutbound(k, outbound[k], io, state.Deactivated?, false)
    {
      hide ClosingDone, OnlyOutbound;
      if io.isClosed(k) {
        out := CloseStream(k, io.now);
        last := Some(StreamClosed(k));
      } else {
        RestoreOutbound(k, Closing, io.now);
        out, last := Nothing, None;
      }
    }

    /** No other outbound substream changes, and no timer has run out if none had before. */
    twostate predicate OnlyOutbound(k: SubstreamId, now: Instant)
      reads this
    {
      && (forall j :: j != k ==>
            (j in outbound <==> j in old(outbound)) && (j in outbound ==> outbound[j] == old(outbound[j])))
      && (NoneExpired(old(outboundTimers), now) ==> NoneExpired(outboundTimers, now))
    }

    method RestoreOutbound(k: SubstreamId, current: OutboundState, ghost now: Instant)
      requires k in outbound
      modifies this`outbound
      ensures OnlyOutbound(k, now) && View() == WithOutboundState(old(View()), k, current)
      ensures k in outbound && outbound[k].state == current
    {
      outbound := outbound[k := outbound[k].(state := current)];
    }

    method Abandon(k: SubstreamId, ghost request: Request, ghost now: Instant)
      requires k in outbound
      modifies this`outbound, this`eventsOut
      ensures OnlyOutbound(k, now)
      ensures
        var o := StreamAbandoned(WithOutboundState(old(View()), k, Pending(request)), k);
        View() == o.next && o.out.Nothing?
      ensures k in outbound && outbound[k].state == Closing
    {
      var info := outbound[k];
      outbound := outbound[k := info.(state := Closing)];
      eventsOut := eventsOut + [OutboundErr(info.id, info.protocol, Disconnected)];
    }

    method ReceiveChunk(k: SubstreamId, request: Request, chunk: Chunk, now: Instant) returns (out: Output)
      requires k in outbound
      modifies this`outbound, this`outboundTimers
      ensures OnlyOutbound(k, now)
      ensures
        var o := ChunkReceived(WithOutboundState(old(View()), k, Pending(request)), k, chunk, now);
        View() == o.next && out == o.out && out.Custom?
    {
      var info := outbound[k];
      if request.Expected() > 1 && chunk.Success? {
        var remaining := if info.remaining.Some? then SatSub(info.remaining.value, 1) else 0;
        if remaining == 0 {
          outbound := outbound[k := info.(state := Closing)];
        } else {
          outbound := outbound[k := info.(state := Pending(request), remaining := Some(remaining))];
          outboundTimers := outboundTimers[info.delayKey := Timer(k, now + RESPONSE_TIMEOUT)];
        }
      } else {
        outbound := outbound[k := info.(state := Closing)];
      }
      out := Custom(match chunk
        case StreamTermination => EndOfStream(info.id, info.protocol)
        case Success(payload) => Response(info.id, payload)
        case Error(code) => OutboundErr(info.id, info.protocol, ErrorResponse(code)));
    }

    method DropStream(k: SubstreamId, ghost now: Instant)
      requires k in outbound
      modifies this`outbound, this`outboundTimers
      ensures OnlyOutbound(k, now) && View() == OutboundRemoved(old(View()), k)
    {
      outboundTimers := outboundTimers - {outbound[k].delayKey};
      outbound := outbound - {k};
    }

    method EndStream(k: SubstreamId, request: Request, ghost now: Instant) returns (out: Output)
      requires k in outbound
      modifies this`outbound, this`outboundTimers
      ensures OnlyOutbound(k, now)
      ensures
        var o := StreamEnds(WithOutboundState(old(View()), k, Pending(request)), k);
        View() == o.next && out == o.out && out.Custom?
    {
      var id := outbound[k].id;
      DroppedAnyway(View(), k, Pending(request));
      DropStream(k, now);
      if request.Expected() > 1 {
        out := Custom(EndOfStream(id, StreamTerminationOf(request)));
      } else {
        out := Custom(OutboundErr(id, request.Protocol(), IncompleteStream));
      }
    }

    method BreakStream(k: SubstreamId, ghost request: Request, error: RpcError, ghost now: Instant)
      returns (out: Output)
      requires k in outbound
      modifies this`outbound, this`outboundTimers
      ensures OnlyOutbound(k, now)
      ensures
        var o := StreamBroken(WithOutboundState(old(View()), k, Pending(request)), k, error);
        View() == o.next && out == o.out && out.Custom?
    {
      var info := outbound[k];
      DroppedAnyway(View(), k, Pending(request));
      DropStream(k, now);
      out := Custom(OutboundErr(info.id, info.protocol, error));
    }

    method CloseStream(k: SubstreamId, ghost now: Instant) returns (out: Output)
      requires k in outbound
      modifies this`outbound, this`outboundTimers
      ensures OnlyOutbound(k, now)
      ensures
        var o := ClosingDone(WithOutboundState(old(View()), k, Closing), k);
        View() == o.next && out == o.out && !out.Close? && k !in outbound
    {
      var info := outbound[k];
      DroppedAnyway(View(), k, Closing);
      DropStream(k, now);
      match info.protocol {
        case BlocksByRange => out := Custom(EndOfStream(info.id, BlocksByRange));
        case BlocksByRoot => out := Custom(EndOfStream(info.id, BlocksByRoot));
        case _ => out := Nothing;
      }
    }

    /** Drives the outbound substreams, each once, until one of them has something to report. */
    method DriveOutbound(io: PollIo)
      returns (out: Output, ghost ls: seq<Label>, ghost last: Option<Label>, ghost visited: set<SubstreamId>)
      requires CodecOk(io) && forall k :: k in outbound ==> !outbound[k].state.PoisonedOutbound?
      modifies this`outbound, this`outboundTimers, this`eventsOut
      ensures Polled(old(View()), io, ls, last, View(), out) && !out.Close?
      ensures OnStreams(ls, visited) && (last.Some? ==> IsStreamLabel(last.value) && last.value.k !in visited)
      ensures NoneExpired(old(outboundTimers), io.now) ==> NoneExpired(outboundTimers, io.now)
      ensures if out.Nothing? then last.None? && OutboundSettled(old(View()), View(), io) else last.Some?
    {
      hide Quietly, Step, Takes, CodecOk, NoneExpired, SettledOutbound;
      ghost var h0 := View();
      out, ls, last, visited := Nothing, [], None, {};
      NoStepsYet(h0, io);
      var rest := outbound.Keys;
      while rest != {}
        invariant Quietly(h0, io, ls) == Some(View()) && out.Nothing? && last.None?
        invariant rest <= outbound.Keys <= h0.outbound.Keys && visited !! rest && OnStreams(ls, visited)
        invariant forall k :: k in rest ==> outbound[k] == h0.outbound[k]
        invariant forall k :: k in outbound && k !in rest ==>
                    SettledOutbound(k, outbound[k], io, state.Deactivated?, h0.outbound[k].state.Pending?)
        invariant NoneExpired(h0.outboundTimers, io.now) ==> NoneExpired(outboundTimers, io.now)
      {
        var k :| k in rest;
        ghost var before := View();
        out, last := DriveOutboundStream(k, io);
        TurnIsOn(before, k, io);
        rest := rest - {k};
        if !out.Nothing? {
          return;
        }
        if last.Some? {
          QuietlyMore(h0, io, ls, before, last.value);
          ls, last := ls + [last.value], None;
        }
        visited := visited + {k};
      }
    }

    /** Asks for the next outbound substream, or closes a drained handler that is shutting down. */
    method DialOrClose(ghost io: PollIo) returns (out: Output, ghost last: Option<Label>)
      modifies this`dialQueue, this`dialNegotiated
      ensures last == DialTurn(old(View())) && Took(old(View()), io, last, View(), out)
      ensures out.Close? ==> last == Some(CloseGracefully)
    {
      out, last := Nothing, None;
      if dialQueue != [] && dialNegotiated < MAX_DIAL_NEGOTIATED {
        last := Some(StartDial);
        out := OpenSubstream(dialQueue[0]);
        dialNegotiated := dialNegotiated + 1;
        dialQueue := dialQueue[1..];
      } else if state.ShuttingDown? {
        if dialQueue == [] && outbound == map[] && inbound == map[] && eventsOut == [] && dialNegotiated == 0 {
          last := Some(CloseGracefully);
          out := Close;
        }
      }
    }

    /**
     * One call to `poll`. It is a sequence of steps of the state machine, each called for by the
     * clock or a substream, of which at most the last returns something to the swarm; that event
     * overtakes no queued one of its substream. A queued event comes first, then an expired shutdown
     * timer; otherwise everything is driven as far as `Progress` says.
     */
    method Poll(io: PollIo) returns (out: Output, ghost quiet: seq<Label>, ghost last: Option<Label>)
      requires Valid() && CodecOk(io)
      modifies this
      ensures Polled(old(View()), io, quiet, last, View(), out) && Orderly(old(View()), old(queued), io, quiet, last)
      ensures Valid() && dialing == DialingWith(old(dialing), out)
      ensures Quietly(old(View()), io, quiet).Some? && queued == QueuedWith(old(View()), old(queued), io, quiet, last)
      ensures var turn := ReportTurn(old(View()), io.now);
              if turn.Some? then quiet == [] && last == turn else Progress(old(View()), View(), io, last)
      ensures out.Close? ==> old(eventsOut) == [] && (last == Some(ShutdownExpired) || last == Some(CloseGracefully))
    {
      hide Sane, CodecOk, Quietly, Polled, Took, Orderly, Progress, QueuedWith;
      ghost var h0, d, q := View(), dialing, queued;
      out, last := Report(io);
      if !out.Nothing? {
        quiet := [];
        OneStep(h0, io, last, View(), out);
        IndirectOrderly(h0, q, io, quiet, last);
      } else {
        NothingTaken(h0, io, last, View(), out);
        SaneQueue(h0, d, q);
        out, quiet, last := Drive(io, d);
      }
      PolledSane(h0, d, q, io, quiet, last, View(), out);
      dialing, queued := DialingWith(d, out), QueuedWith(h0, q, io, quiet, last);
    }

    /** Returns a queued event, or gives up when the shutdown timer has run out. */
    method Report(io: PollIo) returns (out: Output, ghost last: Option<Label>)
      modifies this`eventsOut, this`state
      ensures last == ReportTurn(old(View()), io.now) && Took(old(View()), io, last, View(), out)
      ensures out.Nothing? <==> last.None?
      ensures out.Close? ==> last == Some(ShutdownExpired)
    {
      out, last := Nothing, None;
      if eventsOut != [] {
        out, last := Custom(eventsOut[0]), Some(TakeEvent);
        eventsOut := eventsOut[1..];
        return;
      }
      if state.ShuttingDown? && state.until <= io.now {
        state := Deactivated;
        out, last := Close, Some(ShutdownExpired);
      }
    }

    /** The rest of `poll`: timeouts, inbound and outbound substreams, and the dial queue. */
    method Drive(io: PollIo, ghost d: multiset<Entry>)
      returns (out: Output, ghost quiet: seq<Label>, ghost last: Option<Label>)
      requires Sane(View(), d, []) && CodecOk(io)
      modifies this`inbound, this`inboundTimers, this`outbound, this`outboundTimers, this`eventsOut, this`dialQueue,
        this`dialNegotiated
      ensures Polled(old(View()), io, quiet, last, View(), out) && Orderly(old(View()), [], io, quiet, last)
      ensures Progress(old(View()), View(), io, last)
      ensures out.Close? ==> last == Some(CloseGracefully)
    {
      hide Sane, CodecOk, Quietly, Polled, Took, Orderly, NoneExpired, InboundSettled, OutboundSettled, Emitted,
        AllInbound, OnStreams, SameStates;
      ghost var h0 := View();
      quiet := ExpireInbound(io);
      TimersLeft(h0.inboundTimers, inboundTimers, io.now);
      QuietlySane(h0, d, [], io, quiet);
      ghost var mid := View();
      out, last := ExpireOutbound(io, d, [] + Emitted(h0, io, quiet));
      TookAfter(h0, io, quiet, mid, last, View(), out);
      InboundOrderly(h0, io, quiet, last);
      if !out.Nothing? {
        return;
      }
      NothingTaken(mid, io, last, View(), out);
      SaneUnpoisoned(mid, d, [] + Emitted(h0, io, quiet));
      ghost var ls := DriveInbound(io);
      SettledFromStart(h0, mid, View(), io);
      QuietlyBoth(h0, io, quiet, mid, ls);
      AllInboundBoth(quiet, ls);
      quiet := quiet + ls;
      QuietlySane(h0, d, [], io, quiet);
      mid := View();
      SaneUnpoisoned(mid, d, [] + Emitted(h0, io, quiet));
      ghost var visited;
      out, ls, last, visited := DriveOutbound(io);
      InboundStays(h0, mid, View(), io);
      PolledAfter(h0, io, quiet, mid, ls, last, View(), out);
      PolledSteps(mid, io, ls, last, View(), out);
      StreamOrderly(h0, io, quiet, mid, ls, visited, last);
      quiet := quiet + ls;
      if !out.Nothing? {
        return;
      }
      OutboundStays(h0, mid, View(), View(), io);
      mid := View();
      PolledQuietly(h0, io, quiet, mid);
      out, last := DialOrClose(io);
      InboundStays(h0, mid, View(), io);
      OutboundStays(h0, h0, mid, View(), io);
      TookAfter(h0, io, quiet, mid, last, View(), out);
      IndirectOrderly(h0, [], io, quiet, last);
    }
  }

  /** The steps open to a substream that waits for a response. */
  lemma PendingSteps(h: Handler, k: SubstreamId, io: PollIo)
    requires IsPending(h, k) && CodecOk(io)
    ensures h.state.Deactivated? ==>
              Takes(h, io, StreamDeactivated(k)) && Step(h, StreamDeactivated(k)) == StreamAbandoned(h, k)
    ensures !h.state.Deactivated? && io.read(k).ReadEnd? ==>
              Takes(h, io, StreamEnded(k)) && Step(h, StreamEnded(k)) == StreamEnds(h, k)
    ensures !h.state.Deactivated? && io.read(k).ReadError? ==>
              var l := StreamFailed(k, io.read(k).error);
              Takes(h, io, l) && Step(h, l) == StreamBroken(h, k, io.read(k).error)
    ensures !h.state.Deactivated? && io.read(k).ReadChunk? ==>
              var l := StreamChunk(k, io.read(k).chunk, io.now);
              Takes(h, io, l) && Step(h, l) == ChunkReceived(h, k, io.read(k).chunk, io.now)
  {
    hide ChunkReceived, StreamEnds, StreamBroken, StreamAbandoned;
  }

  lemma TurnIsOn(h: Handler, k: SubstreamId, io: PollIo)
    requires k in h.outbound
    ensures OutboundTurn(h, k, io).Some? ==>
              IsStreamLabel(OutboundTurn(h, k, io).value) && OutboundTurn(h, k, io).value.k == k
  {
  }

  /** The same inbound substreams in the same states. */
  ghost predicate SameStates(h: Handler, h': Handler) {
    h'.inbound.Keys == h.inbound.Keys && forall s :: s in h.inbound ==> h'.inbound[s].state == h.inbound[s].state
  }

  lemma SettledFromStart(h0: Handler, mid: Handler, h: Handler, io: PollIo)
    requires SameStates(h0, mid) && InboundSettled(mid, h, io)
    ensures InboundSettled(h0, h, io)
  {
    hide SettledInbound;
  }

  /** Nothing on the inbound side has changed. */
  lemma InboundStays(h0: Handler, mid: Handler, h: Handler, io: PollIo)
    requires InboundSettled(h0, mid, io) && h.inbound == mid.inbound && h.state == mid.state
    ensures InboundSettled(h0, h, io)
  {
    hide SettledInbound;
  }

  /** Nothing on the outbound side had changed before, nor has it since. */
  lemma OutboundStays(h0: Handler, h0': Handler, mid: Handler, h: Handler, io: PollIo)
    requires OutboundSettled(h0', mid, io) && h0.outbound == h0'.outbound
    requires h.outbound == mid.outbound && h.state == mid.state
    ensures OutboundSettled(h0, h, io)
  {
    hide SettledOutbound;
  }

  lemma TimersLeft(before: DelayQueue<SubstreamId>, after: DelayQueue<SubstreamId>, now: Instant)
    requires after == map key | key in before && before[key].deadline > now :: before[key]
    ensures NoneExpired(after, now)
  {
  }

  lemma NoInbound()
    ensures AllInbound([])
  {
  }

  lemma AllInboundBoth(ls: seq<Label>, ls': seq<Label>)
    requires AllInbound(ls) && AllInbound(ls')
    ensures AllInbound(ls + ls')
  {
    hide IsInboundLabel;
  }

  lemma PolledSteps(h: Handler, io: PollIo, ls: seq<Label>, last: Option<Label>, h': Handler, out: Output)
    requires Polled(h, io, ls, last, h', out)
    ensures Quietly(h, io, ls).Some?
  {
    hide Quietly, Took;
  }

  lemma DialsCounted(h: Handler, dialing: multiset<Entry>, queued: seq<Emission>, entry: Entry)
    requires Sane(h, dialing, queued) && entry in dialing
    ensures h.dialNegotiated > 0
  {
    hide Sane;
    SaneDials(h, dialing, queued);
  }

  lemma SaneUnpoisoned(h: Handler, dialing: multiset<Entry>, queued: seq<Emission>)
    requires Sane(h, dialing, queued)
    ensures forall s :: s in h.inbound ==> !h.inbound[s].state.PoisonedInbound?
    ensures forall k :: k in h.outbound ==> !h.outbound[k].state.PoisonedOutbound?
  {
    hide Sane;
    SaneBooks(h, dialing, queued);
  }

  function WithOutboundState(h: Handler, k: SubstreamId, state: OutboundState): Handler
    requires k in h.outbound
  {
    WithStream(h, k, h.outbound[k].(state := state))
  }

  lemma DroppedAnyway(h: Handler, k: SubstreamId, state: OutboundState)
    requires k in h.outbound
    ensures OutboundRemoved(WithOutboundState(h, k, state), k) == OutboundRemoved(h, k)
  {
    assert WithOutboundState(h, k, state).outbound - {k} == h.outbound - {k};
  }

  /** `stream_termination`: only requests for blocks expect more than one response. */
  function StreamTerminationOf(request: Request): (r: Protocol)
    requires request.Expected() > 1
    ensures r == request.Protocol() && IsBlocks(r)
  {
    match request
    case BlocksByRangeRequest(_) => BlocksByRange
    case BlocksByRootRequest(_) => BlocksByRoot
  }

  function WithState(h: Handler, s: SubstreamId, state: InboundState): Handler
    requires s in h.inbound
  {
    h.(inbound := h.inbound[s := h.inbound[s].(state := state)])
  }

  /** What is left to do on an inbound substream before its loop ends. */
  function Work(info: InboundInfo): nat { 2 * |info.pending| + if info.state.Busy? then 1 else 0 }

  lemma QuietStart(h0: Handler, io: PollIo, ls: seq<Label>, h: Handler, s: SubstreamId)
    requires Quietly(h0, io, ls) == Some(h) && !h.state.Deactivated?
    requires s in h.inbound && h.inbound[s].state.Idle? && h.inbound[s].pending != []
    ensures Quietly(h0, io, ls + [StartSend(s)]) == Some(SendStarted(h, s).next)
  {
    hide Quietly;
    QuietlyMore(h0, io, ls, h, StartSend(s));
  }

  lemma QuietFinish(h0: Handler, io: PollIo, ls: seq<Label>, h: Handler, s: SubstreamId, sendErr: Option<RpcError>,
                    closeErr: Option<RpcError>)
    requires Quietly(h0, io, ls) == Some(h) && s in h.inbound && h.inbound[s].state.Busy?
    requires io.send(s, |h.inbound[s].pending|) == SendDone(sendErr, closeErr)
    ensures Quietly(h0, io, ls + [FinishSend(s, sendErr, closeErr, io.now)])
         == Some(SendFinished(h, s, sendErr, closeErr, io.now).next)
  {
    hide Quietly;
    QuietlyMore(h0, io, ls, h, FinishSend(s, sendErr, closeErr, io.now));
  }

  lemma QuietClose(h0: Handler, io: PollIo, ls: seq<Label>, h: Handler, s: SubstreamId, closeErr: Option<RpcError>)
    requires Quietly(h0, io, ls) == Some(h) && h.state.Deactivated? && s in h.inbound && h.inbound[s].state.Idle?
    requires io.closeIdle(s) == CloseDone(closeErr)
    ensures Quietly(h0, io, ls + [CloseIdle(s, closeErr)]) == Some(IdleClosed(h, s, closeErr).next)
  {
    hide Quietly;
    QuietlyMore(h0, io, ls, h, CloseIdle(s, closeErr));
  }

  /** Removing a substream and resetting its timer do not look at its state. */
  lemma RemovedAnyway(h: Handler, s: SubstreamId, state: InboundState, now: Instant)
    requires s in h.inbound
    ensures InboundRemoved(WithState(h, s, state), s) == InboundRemoved(h, s)
    ensures InboundReset(WithState(h, s, state), s, now) == InboundReset(h, s, now)
  {
    assert WithState(h, s, state).inbound - {s} == h.inbound - {s};
  }

  /** `send_message_to_inbound_substream`: closes the substream after the last chunk, an error or a failed send. */
  method SendMessageToInboundSubstream(message: Chunk, lastChunk: bool, sendErr: Option<RpcError>,
                                       closeErr: Option<RpcError>)
    returns (r: Result<bool, RpcError>)
    ensures r == SendResult(message, lastChunk, sendErr, closeErr)
  {
    if message.StreamTermination? {
      return if closeErr.Some? then Err(closeErr.value) else Ok(true);
    }
    var isError := message.Error?;
    if lastChunk || isError || sendErr.Some? {
      var closeResult := if closeErr.Some? then Err(closeErr.value) else Ok(true);
      if sendErr.Some? {
        return Err(sendErr.value);
      }
      return closeResult;
    }
    return Ok(false);
  }

  lemma ClosingEvents(s: SubstreamId, protocol: Protocol, closeErr: Option<RpcError>, open: bool)
    ensures
      var es := (if closeErr.Some? then [Emission(OfInbound(s), InboundErr(s, protocol, closeErr.value))] else [])
                + (if open then [Emission(OfInbound(s), InboundErr(s, protocol, Disconnected))] else []);
      Events(es) == (if closeErr.Some? then [InboundErr(s, protocol, closeErr.value)] else [])
                    + (if open then [InboundErr(s, protocol, Disconnected)] else [])
  {
  }

  lemma QueuedOne(h: Handler, e: Emission)
    ensures Queued(h, [e]).next == h.(eventsOut := h.eventsOut + [e.event])
  {
    assert Events([e]) == [e.event];
  }

  lemma QueuedNone(h: Handler)
    ensures Queued(h, []).next == h
  {
    assert h.eventsOut + Events([]) == h.eventsOut;
  }

  /** Storing a substream and reporting an event do not interfere. */
  lemma StoringCommutes(h: Handler, entry: Entry, key: TimerKey, now: Instant)
    ensures forall es :: OutboundStored(h.(eventsOut := es), entry, key, now)
                      == OutboundStored(h, entry, key, now).(eventsOut := es)
    ensures OutboundStored(h, entry, key, now).eventsOut == h.eventsOut
  {
  }

  lemma StoresNothing(h: Handler, request: Request, key: TimerKey, now: Instant)
    requires request.Expected() == 0
    ensures InboundStored(h, request, key, now) == h
  {
  }

  /** A timeout is always in the books. */
  lemma SaneTimeout(h: Handler, dialing: multiset<Entry>, queued: seq<Emission>, key: TimerKey)
    requires Sane(h, dialing, queued) && key in h.outboundTimers
    ensures h.outboundTimers[key].item in h.outbound
  {
    hide Sane;
    SaneBooks(h, dialing, queued);
  }

  lemma TimeoutIsQuiet(h: Handler, io: PollIo, key: TimerKey)
    requires key in h.inboundTimers && h.inboundTimers[key].deadline <= io.now
    ensures Takes(h, io, InboundExpired(key)) && Step(h, InboundExpired(key)).out.Nothing?
    ensures Step(h, InboundExpired(key)).next == InboundTimedOut(h, key).next && IsInboundLabel(InboundExpired(key))
  {
  }

  lemma FlushNone()
    ensures Events(Flushed([])) == []
  {
  }

  lemma FlushOne(q: seq<Entry>)
    requires q != []
    ensures Events(Flushed(q))
         == [Failure(q[|q| - 1], Disconnected).event] + Events(Flushed(q[..|q| - 1]))
  {
    hide Events;
    var first := Failure(q[|q| - 1], Disconnected);
    EventsOfBoth([first], Flushed(q[..|q| - 1]));
    OneEvent([first]);
  }
}
