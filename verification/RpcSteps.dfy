/** src/rpc/handler.rs: the request/response handler of one connection, as a state machine. */
module RpcSteps {
  import opened Common
  import opened DelayQueues

  const RESPONSE_TIMEOUT: nat := 10 * NANOS_PER_SEC
  const SHUTDOWN_TIMEOUT: nat := 15 * NANOS_PER_SEC
  const IO_ERROR_RETRIES: nat := 3
  const MAX_INBOUND_SUBSTREAMS: nat := 32
  const MAX_DIAL_NEGOTIATED: nat := 8
  const SERVER_ERROR: nat := 2

  type Id = nat

  type SubstreamId = nat

  datatype Protocol = Status | Goodbye | BlocksByRange | BlocksByRoot | Ping | MetaData

  /** A request of either direction: its protocol, and how many blocks it asks for. */
  datatype Request =
    | StatusRequest
    | GoodbyeRequest
    | BlocksByRangeRequest(count: nat)
    | BlocksByRootRequest(roots: nat)
    | PingRequest
    | MetaDataRequest
  {
    function Protocol(): Protocol {
      match this
      case StatusRequest => Status
      case GoodbyeRequest => Goodbye
      case BlocksByRangeRequest(_) => BlocksByRange
      case BlocksByRootRequest(_) => BlocksByRoot
      case PingRequest => Ping
      case MetaDataRequest => MetaData
    }

    /** `expected_responses`. */
    function Expected(): nat {
      match this
      case GoodbyeRequest => 0
      case BlocksByRangeRequest(count) => count
      case BlocksByRootRequest(roots) => roots
      case _ => 1
    }
  }

  predicate IsBlocks(protocol: Protocol) { protocol.BlocksByRange? || protocol.BlocksByRoot? }

  datatype RpcError =
    | Disconnected | StreamTimeout | HandlerRejected | IncompleteStream | NegotiationTimeout
    | UnsupportedProtocol | IoError(what: nat) | ErrorResponse(code: nat) | OtherError(what: nat)

  /** `RPCCodedResponse`. */
  datatype Chunk = Success(payload: nat) | Error(code: nat) | StreamTermination

  datatype Event =
    | Received(substream: SubstreamId, request: Request)
    | Response(id: Id, payload: nat)
    | EndOfStream(id: Id, protocol: Protocol)
    | InboundErr(substream: SubstreamId, protocol: Protocol, error: RpcError)
    | OutboundErr(id: Id, protocol: Protocol, error: RpcError)

  /** A request with the identifier the application gave it. */
  type Entry = (Id, Request)

  datatype InboundState = Idle | Busy(message: Chunk, lastChunk: bool) | PoisonedInbound

  datatype InboundInfo = InboundInfo(
    state: InboundState, pending: seq<Chunk>, protocol: Protocol, remaining: nat, delayKey: Option<TimerKey>)

  datatype OutboundState = Pending(request: Request) | Closing | PoisonedOutbound

  datatype OutboundInfo = OutboundInfo(
    state: OutboundState, delayKey: TimerKey, protocol: Protocol, remaining: Option<nat>, id: Id)

  datatype HandlerState = Active | ShuttingDown(until: Instant) | Deactivated

  datatype Handler = Handler(
    eventsOut: seq<Event>,
    dialQueue: seq<Entry>,
    dialNegotiated: nat,
    inbound: map<SubstreamId, InboundInfo>,
    inboundTimers: DelayQueue<SubstreamId>,
    outbound: map<SubstreamId, OutboundInfo>,
    outboundTimers: DelayQueue<SubstreamId>,
    nextInbound: SubstreamId,
    nextOutbound: SubstreamId,
    state: HandlerState,
    ioRetries: nat)

  const NewHandler: Handler := Handler([], [], 0, map[], map[], map[], map[], 0, 0, Active, 0)

  /** What a call to `poll` may return, besides being pending. */
  datatype Output = Nothing | Custom(event: Event) | OpenSubstream(entry: Entry) | Close

  /** Why an event is reported: a request that never got a substream, a substream, or an inbound request. */
  datatype Cause = OfRequest(entry: Entry) | OfStream(k: SubstreamId) | OfInbound(s: SubstreamId)

  datatype Emission = Emission(cause: Cause, event: Event)

  function Events(es: seq<Emission>): seq<Event> {
    seq(|es|, i requires 0 <= i < |es| => es[i].event)
  }

  /** The outcome of one step: the new state, the events reported by it, and what `poll` returns. */
  datatype Outcome = Outcome(next: Handler, emits: seq<Emission>, out: Output)

  /** Events that go through the queue. */
  function Queued(h: Handler, es: seq<Emission>): Outcome {
    Outcome(h.(eventsOut := h.eventsOut + Events(es)), es, Nothing)
  }

  /** An event returned by `poll` directly. */
  function Direct(h: Handler, e: Emission): Outcome { Outcome(h, [e], Custom(e.event)) }

  function Silent(h: Handler): Outcome { Outcome(h, [], Nothing) }

  function Failure(entry: Entry, error: RpcError): Emission {
    Emission(OfRequest(entry), OutboundErr(entry.0, entry.1.Protocol(), error))
  }

  // ---- Callbacks ----

  function RequestSent(h: Handler, entry: Entry): Outcome {
    if h.state.Active? then Silent(h.(dialQueue := h.dialQueue + [entry]))
    else Queued(h, [Failure(entry, Disconnected)])
  }

  /** The requests of the dial queue are reported from the back. */
  function Flushed(q: seq<Entry>): seq<Emission> {
    if q == [] then [] else [Failure(q[|q| - 1], Disconnected)] + Flushed(q[..|q| - 1])
  }

  function ShutDown(h: Handler, goodbye: Option<Id>, now: Instant): Outcome {
    if !h.state.Active? then Silent(h)
    else
      Queued(h.(dialQueue := if goodbye.Some? then [(goodbye.value, GoodbyeRequest)] else [],
                state := ShuttingDown(now + SHUTDOWN_TIMEOUT)),
             Flushed(h.dialQueue))
  }

  function ResponseSent(h: Handler, s: SubstreamId, chunk: Chunk): Outcome {
    if s !in h.inbound then Silent(h)
    else
      var info := h.inbound[s];
      Queued(if h.state.Deactivated? then h
             else h.(inbound := h.inbound[s := info.(pending := info.pending + [chunk])]),
             if chunk.Error? then [Emission(OfInbound(s), InboundErr(s, info.protocol, ErrorResponse(chunk.code)))]
             else [])
  }

  /** The inbound substreams are used up. */
  predicate Full(h: Handler) { |h.inbound| >= MAX_INBOUND_SUBSTREAMS }

  function InboundStored(h: Handler, request: Request, key: TimerKey, now: Instant): Handler {
    if request.Expected() == 0 then h
    else
      h.(inbound := h.inbound[h.nextInbound :=
           InboundInfo(Idle, [], request.Protocol(), request.Expected(), Some(key))],
         inboundTimers := h.inboundTimers[key := Timer(h.nextInbound, now + RESPONSE_TIMEOUT)])
  }

  function InboundNegotiated(h: Handler, request: Request, key: TimerKey, now: Instant): Outcome {
    if !h.state.Active? then Silent(h)
    else if request.Expected() > 0 && Full(h) then
      var rejected :=
        Emission(OfInbound(h.nextInbound), InboundErr(h.nextInbound, request.Protocol(), HandlerRejected));
      var shut := ShutDown(Queued(h, [rejected]).next, None, now);
      Outcome(shut.next, [rejected] + shut.emits, Nothing)
    else
      var shut := if request.GoodbyeRequest? then ShutDown(h, None, now)
                  else Silent(InboundStored(h, request, key, now));
      var received := Emission(OfInbound(h.nextInbound), Received(h.nextInbound, request));
      Outcome(Queued(shut.next.(nextInbound := h.nextInbound + 1), [received]).next, shut.emits + [received], Nothing)
  }

  function OutboundStored(h: Handler, entry: Entry, key: TimerKey, now: Instant): Handler {
    if entry.1.Expected() == 0 then h
    else
      h.(outbound := h.outbound[h.nextOutbound :=
           OutboundInfo(Pending(entry.1), key, entry.1.Protocol(),
                        if entry.1.Expected() > 1 then Some(entry.1.Expected()) else None, entry.0)],
         outboundTimers := h.outboundTimers[key := Timer(h.nextOutbound, now + RESPONSE_TIMEOUT)],
         nextOutbound := h.nextOutbound + 1)
  }

  /** A deactivated handler reports the request as failed and opens the substream all the same. */
  function OutboundNegotiated(h: Handler, entry: Entry, key: TimerKey, now: Instant): Outcome {
    var cause := if entry.1.Expected() > 0 then OfStream(h.nextOutbound) else OfRequest(entry);
    Queued(OutboundStored(h.(dialNegotiated := SatSub(h.dialNegotiated, 1)), entry, key, now),
           if h.state.Deactivated? then [Emission(cause, Failure(entry, Disconnected).event)] else [])
  }

  /** Another try follows an I/O error, up to a limit. */
  predicate Retries(h: Handler, io: bool) { io && h.ioRetries + 1 < IO_ERROR_RETRIES }

  /** A retry leaves `dialNegotiated` as it is. */
  function DialRefused(h: Handler, entry: Entry, io: bool, error: RpcError): Outcome {
    if Retries(h, io) then RequestSent(h.(ioRetries := h.ioRetries + 1), entry)
    else Queued(h.(dialNegotiated := SatSub(h.dialNegotiated, 1), ioRetries := 0), [Failure(entry, error)])
  }

  // ---- Timers ----

  /** A timed-out substream whose queue does not end the stream gets an error to end it. */
  function InboundTimedOut(h: Handler, key: TimerKey): Outcome
    requires key in h.inboundTimers
  {
    var s := h.inboundTimers[key].item;
    var h' := h.(inboundTimers := h.inboundTimers - {key});
    if s !in h.inbound then Silent(h')
    else
      var info := h.inbound[s].(delayKey := None);
      Queued(h'.(inbound := h.inbound[s := info.(pending := info.pending + TimeoutChunk(info))]),
             [Emission(OfInbound(s), InboundErr(s, info.protocol, StreamTimeout))])
  }

  /** The queue is not empty and its last chunk leaves the stream open. */
  predicate EndsOpen(info: InboundInfo) { info.pending != [] && info.pending[|info.pending| - 1].Success? }

  function TimeoutChunk(info: InboundInfo): seq<Chunk> { if EndsOpen(info) then [Error(SERVER_ERROR)] else [] }

  function OutboundTimedOut(h: Handler, key: TimerKey): Outcome
    requires key in h.outboundTimers
  {
    var k := h.outboundTimers[key].item;
    var h' := h.(outboundTimers := h.outboundTimers - {key});
    if k !in h.outbound then Silent(h')
    else
      Direct(h'.(outbound := h.outbound - {k}),
             Emission(OfStream(k), OutboundErr(h.outbound[k].id, h.outbound[k].protocol, StreamTimeout)))
  }

  // ---- Inbound substreams ----

  function SendStarted(h: Handler, s: SubstreamId): Outcome
    requires s in h.inbound && h.inbound[s].pending != []
  {
    var info := h.inbound[s];
    var busy := info.(state := Busy(info.pending[0], info.remaining <= 1), pending := info.pending[1..]);
    Silent(h.(inbound := h.inbound[s := busy]))
  }

  /** `send_message_to_inbound_substream`: whether the substream was closed, or the error. */
  function SendResult(message: Chunk, lastChunk: bool, sendErr: Option<RpcError>, closeErr: Option<RpcError>)
    : Result<bool, RpcError>
  {
    if message.StreamTermination? then (if closeErr.Some? then Err(closeErr.value) else Ok(true))
    else if lastChunk || message.Error? || sendErr.Some? then
      if sendErr.Some? then Err(sendErr.value) else if closeErr.Some? then Err(closeErr.value) else Ok(true)
    else Ok(false)
  }

  function InboundRemoved(h: Handler, s: SubstreamId): Handler
    requires s in h.inbound
  {
    h.(inbound := h.inbound - {s},
       inboundTimers := if h.inbound[s].delayKey.Some? then h.inboundTimers - {h.inbound[s].delayKey.value}
                        else h.inboundTimers)
  }

  function InboundReset(h: Handler, s: SubstreamId, now: Instant): DelayQueue<SubstreamId>
    requires s in h.inbound
  {
    if h.inbound[s].delayKey.Some?
    then h.inboundTimers[h.inbound[s].delayKey.value := Timer(s, now + RESPONSE_TIMEOUT)] else h.inboundTimers
  }

  function SendFinished(h: Handler, s: SubstreamId, sendErr: Option<RpcError>, closeErr: Option<RpcError>, now: Instant)
    : Outcome
    requires s in h.inbound && h.inbound[s].state.Busy?
  {
    var info := h.inbound[s];
    match SendResult(info.state.message, info.state.lastChunk, sendErr, closeErr)
    case Ok(closed) =>
      if closed then Silent(InboundRemoved(h, s))
      else
        Silent(h.(inbound := h.inbound[s := info.(state := Idle, remaining := SatSub(info.remaining, 1))],
                  inboundTimers := InboundReset(h, s, now)))
    case Err(error) =>
      Queued(InboundRemoved(h, s), [Emission(OfInbound(s), InboundErr(s, info.protocol, error))])
  }

  function IdleClosed(h: Handler, s: SubstreamId, error: Option<RpcError>): Outcome
    requires s in h.inbound
  {
    var info := h.inbound[s];
    Queued(InboundRemoved(h, s),
           (if error.Some? then [Emission(OfInbound(s), InboundErr(s, info.protocol, error.value))] else [])
           + (if EndsOpen(info) then [Emission(OfInbound(s), InboundErr(s, info.protocol, Disconnected))] else []))
  }

  // ---- Outbound substreams ----

  function OutboundRemoved(h: Handler, k: SubstreamId): Handler
    requires k in h.outbound
  {
    h.(outbound := h.outbound - {k}, outboundTimers := h.outboundTimers - {h.outbound[k].delayKey})
  }

  function WithStream(h: Handler, k: SubstreamId, info: OutboundInfo): Handler { h.(outbound := h.outbound[k := info]) }

  function ChunkEvent(info: OutboundInfo, chunk: Chunk): Event {
    match chunk
    case Success(payload) => Response(info.id, payload)
    case Error(code) => OutboundErr(info.id, info.protocol, ErrorResponse(code))
    case StreamTermination => EndOfStream(info.id, info.protocol)
  }

  /** The chunks left after one more. */
  function Left(info: OutboundInfo): nat { if info.remaining.Some? then SatSub(info.remaining.value, 1) else 0 }

  function ChunkReceived(h: Handler, k: SubstreamId, chunk: Chunk, now: Instant): Outcome
    requires k in h.outbound && h.outbound[k].state.Pending?
  {
    var info := h.outbound[k];
    var e := Emission(OfStream(k), ChunkEvent(info, chunk));
    if info.state.request.Expected() > 1 && chunk.Success? && Left(info) > 0 then
      Direct(WithStream(h, k, info.(remaining := Some(Left(info)))).(
               outboundTimers := h.outboundTimers[info.delayKey := Timer(k, now + RESPONSE_TIMEOUT)]), e)
    else Direct(WithStream(h, k, info.(state := Closing)), e)
  }

  function StreamEnds(h: Handler, k: SubstreamId): Outcome
    requires k in h.outbound && h.outbound[k].state.Pending?
  {
    var info := h.outbound[k];
    var request := info.state.request;
    Direct(OutboundRemoved(h, k),
           Emission(OfStream(k), if request.Expected() > 1 then EndOfStream(info.id, request.Protocol())
                                 else OutboundErr(info.id, request.Protocol(), IncompleteStream)))
  }

  function StreamBroken(h: Handler, k: SubstreamId, error: RpcError): Outcome
    requires k in h.outbound
  {
    Direct(OutboundRemoved(h, k), Emission(OfStream(k), OutboundErr(h.outbound[k].id, h.outbound[k].protocol, error)))
  }

  function StreamAbandoned(h: Handler, k: SubstreamId): Outcome
    requires k in h.outbound
  {
    var info := h.outbound[k];
    Queued(WithStream(h, k, info.(state := Closing)),
           [Emission(OfStream(k), OutboundErr(info.id, info.protocol, Disconnected))])
  }

  function ClosingDone(h: Handler, k: SubstreamId): Outcome
    requires k in h.outbound
  {
    var info := h.outbound[k];
    if IsBlocks(info.protocol)
    then Direct(OutboundRemoved(h, k), Emission(OfStream(k), EndOfStream(info.id, info.protocol)))
    else Silent(OutboundRemoved(h, k))
  }

  // ---- The end of `poll` ----

  function DialStarted(h: Handler): Outcome
    requires h.dialQueue != []
  {
    Outcome(h.(dialNegotiated := h.dialNegotiated + 1, dialQueue := h.dialQueue[1..]), [],
            OpenSubstream(h.dialQueue[0]))
  }

  /** Nothing is queued, dialing or open. */
  predicate Drained(h: Handler) {
    h.dialQueue == [] && h.outbound == map[] && h.inbound == map[] && h.eventsOut == [] && h.dialNegotiated == 0
  }

  /** `connection_keep_alive`, negated. */
  predicate MayDrop(h: Handler) { h.state.Deactivated? || (h.state.ShuttingDown? && Drained(h)) }

  // ---- Labelled steps ----

  /** Everything that can happen to a handler; substream I/O results and timer keys are part of the label. */
  datatype Label =
    | SendRequest(entry: Entry)
    | SendResponse(s: SubstreamId, chunk: Chunk)
    | Shutdown(goodbye: Id, now: Instant)
    | InboundOpened(request: Request, key: TimerKey, now: Instant)
    | OutboundOpened(entry: Entry, key: TimerKey, now: Instant)
    | DialFailed(entry: Entry, io: bool, error: RpcError)
    | TakeEvent
    | ShutdownExpired
    | InboundExpired(key: TimerKey)
    | OutboundExpired(key: TimerKey)
    | StartSend(s: SubstreamId)
    | FinishSend(s: SubstreamId, sendErr: Option<RpcError>, closeErr: Option<RpcError>, now: Instant)
    | CloseIdle(s: SubstreamId, closeErr: Option<RpcError>)
    | StreamChunk(k: SubstreamId, chunk: Chunk, now: Instant)
    | StreamEnded(k: SubstreamId)
    | StreamFailed(k: SubstreamId, error: RpcError)
    | StreamDeactivated(k: SubstreamId)
    | StreamClosed(k: SubstreamId)
    | StartDial
    | CloseGracefully

  predicate IsPending(h: Handler, k: SubstreamId) { k in h.outbound && h.outbound[k].state.Pending? }

  /** The code takes the step only in these states; the codec yields successes and errors only. */
  predicate Enabled(h: Handler, l: Label) {
    match l
    case InboundOpened(_, key, _) => key !in h.inboundTimers
    case OutboundOpened(_, key, _) => key !in h.outboundTimers
    case DialFailed(_, io, error) => io ==> error.IoError?
    case TakeEvent => h.eventsOut != []
    case ShutdownExpired => h.state.ShuttingDown?
    case InboundExpired(key) => key in h.inboundTimers
    case OutboundExpired(key) => key in h.outboundTimers
    case StartSend(s) =>
      !h.state.Deactivated? && s in h.inbound && h.inbound[s].state.Idle? && h.inbound[s].pending != []
    case FinishSend(s, _, _, _) => s in h.inbound && h.inbound[s].state.Busy?
    case CloseIdle(s, _) => h.state.Deactivated? && s in h.inbound && h.inbound[s].state.Idle?
    case StreamChunk(k, chunk, _) => !h.state.Deactivated? && IsPending(h, k) && !chunk.StreamTermination?
    case StreamEnded(k) => !h.state.Deactivated? && IsPending(h, k)
    case StreamFailed(k, _) => !h.state.Deactivated? && IsPending(h, k)
    case StreamDeactivated(k) => h.state.Deactivated? && IsPending(h, k)
    case StreamClosed(k) => k in h.outbound && h.outbound[k].state.Closing?
    case StartDial => h.dialQueue != [] && h.dialNegotiated < MAX_DIAL_NEGOTIATED
    case CloseGracefully => h.state.ShuttingDown? && Drained(h)
    case _ => true
  }

  function Step(h: Handler, l: Label): Outcome
    requires Enabled(h, l)
  {
    match l
    case SendRequest(entry) => RequestSent(h, entry)
    case SendResponse(s, chunk) => ResponseSent(h, s, chunk)
    case Shutdown(goodbye, now) => ShutDown(h, Some(goodbye), now)
    case InboundOpened(request, key, now) => InboundNegotiated(h, request, key, now)
    case OutboundOpened(entry, key, now) => OutboundNegotiated(h, entry, key, now)
    case DialFailed(entry, io, error) => DialRefused(h, entry, io, error)
    case TakeEvent => Outcome(h.(eventsOut := h.eventsOut[1..]), [], Custom(h.eventsOut[0]))
    case ShutdownExpired => Outcome(h.(state := Deactivated), [], Close)
    case InboundExpired(key) => InboundTimedOut(h, key)
    case OutboundExpired(key) => OutboundTimedOut(h, key)
    case StartSend(s) => SendStarted(h, s)
    case FinishSend(s, sendErr, closeErr, now) => SendFinished(h, s, sendErr, closeErr, now)
    case CloseIdle(s, error) => IdleClosed(h, s, error)
    case StreamChunk(k, chunk, now) => ChunkReceived(h, k, chunk, now)
    case StreamEnded(k) => StreamEnds(h, k)
    case StreamFailed(k, error) => StreamBroken(h, k, error)
    case StreamDeactivated(k) => StreamAbandoned(h, k)
    case StreamClosed(k) => ClosingDone(h, k)
    case StartDial => DialStarted(h)
    case CloseGracefully => Outcome(h, [], Close)
  }
}
