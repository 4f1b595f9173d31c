/** src/rpc/handler.rs: what holds over every run of the request/response handler. */
module RpcRuns {
  import opened Common
  import opened DelayQueues
  import opened RpcSteps

  /** One inbound request: how many responses it allows, what was queued for it, what was sent. */
  datatype Exchange = Exchange(expected: nat, accepted: seq<Chunk>, wire: seq<Chunk>)

  /**
   * The handler with its surroundings and history: requests that libp2p is opening substreams for,
   * every request sent so far, those without response that went out, the dials retried after I/O
   * errors, the request of each outbound substream, every event reported with its cause, the same
   * events as they wait in the queue and as the application has got them, and the history of each
   * inbound request.
   */
  datatype Sys = Sys(
    h: Handler,
    dialing: multiset<Entry>,
    sent: multiset<Entry>,
    dropped: multiset<Entry>,
    retried: nat,
    opens: seq<Entry>,
    trace: seq<Emission>,
    queued: seq<Emission>,
    delivered: seq<Emission>,
    exchanges: seq<Exchange>)

  const Start: Sys := Sys(NewHandler, multiset{}, multiset{}, multiset{}, 0, [], [], [], [], [])

  /** The substream whose event the step returns from `poll` directly, past the queue. */
  function DirectStream(h: Handler, l: Label): Option<SubstreamId> {
    match l
    case OutboundExpired(key) =>
      if key in h.outboundTimers && h.outboundTimers[key].item in h.outbound then Some(h.outboundTimers[key].item)
      else None
    case StreamChunk(k, _, _) => Some(k)
    case StreamEnded(k) => Some(k)
    case StreamFailed(k, _) => Some(k)
    case StreamClosed(k) => if k in h.outbound && IsBlocks(h.outbound[k].protocol) then Some(k) else None
    case _ => None
  }

  /** Nothing in `es` comes from substream `k`. */
  predicate NotFrom(es: seq<Emission>, k: SubstreamId) {
    forall i :: 0 <= i < |es| ==> es[i].cause != OfStream(k)
  }

  /** `poll` empties its queue before it drives anything: no event overtakes one of the same substream. */
  predicate InOrder(h: Handler, queued: seq<Emission>, l: Label) {
    DirectStream(h, l).Some? ==> NotFrom(queued, DirectStream(h, l).value)
  }

  /** libp2p answers each request for a substream once. */
  predicate Possible(x: Sys, l: Label) {
    && Enabled(x.h, l)
    && (l.OutboundOpened? || l.DialFailed? ==> l.entry in x.dialing)
    && InOrder(x.h, x.queued, l)
  }

  function NextQueued(queued: seq<Emission>, l: Label, o: Outcome): seq<Emission> {
    if l.TakeEvent? then (if queued == [] then [] else queued[1..])
    else if o.out.Custom? then queued
    else queued + o.emits
  }

  function NextDelivered(x: Sys, l: Label, o: Outcome): seq<Emission> {
    if l.TakeEvent? then x.delivered + (if x.queued == [] then [] else [x.queued[0]])
    else if o.out.Custom? then x.delivered + o.emits
    else x.delivered
  }

  function NextSent(x: Sys, l: Label): multiset<Entry> {
    if l.SendRequest? then x.sent + multiset{l.entry}
    else if l.Shutdown? && x.h.state.Active? then x.sent + multiset{(l.goodbye, GoodbyeRequest)}
    else x.sent
  }

  function NextDialing(x: Sys, l: Label): multiset<Entry>
    requires Possible(x, l)
  {
    if l.StartDial? then x.dialing + multiset{x.h.dialQueue[0]}
    else if l.OutboundOpened? || l.DialFailed? then x.dialing - multiset{l.entry}
    else x.dialing
  }

  function NextOpens(x: Sys, l: Label): seq<Entry> {
    if l.OutboundOpened? && l.entry.1.Expected() > 0 then x.opens + [l.entry] else x.opens
  }

  function NextDropped(x: Sys, l: Label): multiset<Entry> {
    if l.OutboundOpened? && l.entry.1.Expected() == 0 && !x.h.state.Deactivated? then x.dropped + multiset{l.entry}
    else x.dropped
  }

  function Touched(exchanges: seq<Exchange>, s: SubstreamId, accepted: seq<Chunk>, wire: seq<Chunk>): seq<Exchange> {
    if s >= |exchanges| then exchanges
    else
      var x := exchanges[s];
      exchanges[s := x.(accepted := x.accepted + accepted, wire := x.wire + wire)]
  }

  function NextExchanges(x: Sys, l: Label): seq<Exchange>
    requires Possible(x, l)
  {
    match l
    case InboundOpened(request, _, _) =>
      if !x.h.state.Active? || (request.Expected() > 0 && Full(x.h)) then x.exchanges
      else x.exchanges + [Exchange(request.Expected(), [], [])]
    case SendResponse(s, chunk) =>
      if s in x.h.inbound && !x.h.state.Deactivated? then Touched(x.exchanges, s, [chunk], []) else x.exchanges
    case InboundExpired(key) =>
      var s := x.h.inboundTimers[key].item;
      if s in x.h.inbound then Touched(x.exchanges, s, TimeoutChunk(x.h.inbound[s]), []) else x.exchanges
    case FinishSend(s, sendErr, _, _) =>
      var message := x.h.inbound[s].state.message;
      if sendErr.None? && !message.StreamTermination? then Touched(x.exchanges, s, [], [message]) else x.exchanges
    case _ => x.exchanges
  }

  function Next(x: Sys, l: Label): Sys
    requires Possible(x, l)
  {
    var o := Step(x.h, l);
    Sys(o.next,
        NextDialing(x, l),
        NextSent(x, l),
        NextDropped(x, l),
        if l.DialFailed? && Retries(x.h, l.io) then x.retried + 1 else x.retried,
        NextOpens(x, l),
        x.trace + o.emits,
        NextQueued(x.queued, l, o),
        NextDelivered(x, l, o),
        NextExchanges(x, l))
  }

  // ---- Invariants ----

  /** Every timer belongs to one inbound substream and is the one recorded there. */
  ghost predicate InboundTimersOk(inbound: map<SubstreamId, InboundInfo>, timers: DelayQueue<SubstreamId>) {
    && (forall key :: key in timers ==> timers[key].item in inbound && inbound[timers[key].item].delayKey == Some(key))
    && (forall s :: s in inbound && inbound[s].delayKey.Some? ==>
          inbound[s].delayKey.value in timers && timers[inbound[s].delayKey.value].item == s)
  }

  /** Outbound substreams and their timers are in bijection. */
  ghost predicate OutboundTimersOk(outbound: map<SubstreamId, OutboundInfo>, timers: DelayQueue<SubstreamId>) {
    && (forall key :: key in timers ==> timers[key].item in outbound && outbound[timers[key].item].delayKey == key)
    && (forall k :: k in outbound ==> outbound[k].delayKey in timers && timers[outbound[k].delayKey].item == k)
  }

  ghost predicate InboundIdsOk(h: Handler, exchanges: seq<Exchange>) {
    && h.nextInbound == |exchanges|
    && |h.inbound| <= MAX_INBOUND_SUBSTREAMS
    && (forall s :: s in h.inbound ==> s < |exchanges| && !h.inbound[s].state.PoisonedInbound?)
  }

  /** The substream serves the request it was opened for. */
  predicate Serves(info: OutboundInfo, entry: Entry) {
    && info.id == entry.0 && info.protocol == entry.1.Protocol() && !info.state.PoisonedOutbound?
    && (info.state.Pending? ==> info.state.request == entry.1)
  }

  ghost predicate OutboundIdsOk(h: Handler, opens: seq<Entry>) {
    && h.nextOutbound == |opens|
    && (forall k :: k in h.outbound ==> k < |opens| && Serves(h.outbound[k], opens[k]))
    && (forall k :: 0 <= k < |opens| ==> opens[k].1.Expected() > 0)
  }

  /** The dial count exceeds the dials under way by exactly the retried ones. */
  ghost predicate DialsOk(h: Handler, dialing: multiset<Entry>, retried: nat) {
    && h.dialNegotiated == |dialing| + retried
    && h.dialNegotiated <= MAX_DIAL_NEGOTIATED
    && h.ioRetries < IO_ERROR_RETRIES
  }

  /** The requests reported as failed without ever getting a substream. */
  function FailedOf(trace: seq<Emission>): multiset<Entry>
    decreases |trace|
  {
    if trace == [] then multiset{}
    else
      var e := trace[|trace| - 1];
      FailedOf(trace[..|trace| - 1]) + if e.cause.OfRequest? then multiset{e.cause.entry} else multiset{}
  }

  /** The events of one outbound substream, in order. */
  function LogOf(trace: seq<Emission>, k: SubstreamId): seq<Event>
    decreases |trace|
  {
    if trace == [] then []
    else
      var e := trace[|trace| - 1];
      LogOf(trace[..|trace| - 1], k) + if e.cause == OfStream(k) then [e.event] else []
  }

  /** No request is lost or duplicated. */
  ghost predicate Conserved(x: Sys) {
    && x.sent == multiset(x.h.dialQueue) + x.dialing + multiset(x.opens) + FailedOf(x.trace) + x.dropped
    && (forall e :: e in x.dropped ==> e.1.Expected() == 0)
  }

  predicate CarriesId(e: Event, id: Id) {
    (e.Response? || e.EndOfStream? || e.OutboundErr?) && e.id == id
  }

  /** Events about a request carry its id. */
  predicate CauseOk(e: Emission, opens: seq<Entry>) {
    match e.cause
    case OfRequest(entry) => e.event.OutboundErr? && CarriesId(e.event, entry.0)
    case OfStream(k) => k < |opens| && CarriesId(e.event, opens[k].0)
    case OfInbound(s) => (e.event.Received? || e.event.InboundErr?) && e.event.substream == s
  }

  ghost predicate CausesOk(trace: seq<Emission>, opens: seq<Entry>) {
    forall i :: 0 <= i < |trace| ==> CauseOk(trace[i], opens)
  }

  /** What the application has got and what it is going to get next. */
  function Reported(x: Sys): seq<Emission> { x.delivered + x.queued }

  /**
   * Reported events are queued or have been handed to the application, and those of one substream in
   * the order in which it reported them.
   */
  ghost predicate Delivered(x: Sys) {
    && Events(x.queued) == x.h.eventsOut
    && multiset(Reported(x)) == multiset(x.trace)
    && FailedOf(Reported(x)) == FailedOf(x.trace)
    && (forall k :: LogOf(Reported(x), k) == LogOf(x.trace, k))
  }

  // -- Outbound streams --

  function ResponseCount(log: seq<Event>): nat
    decreases |log|
  {
    if log == [] then 0
    else ResponseCount(log[..|log| - 1]) + if log[|log| - 1].Response? then 1 else 0
  }

  /** Responses come first. */
  ghost predicate ResponsesFirst(log: seq<Event>) {
    forall i, j :: 0 <= i < j < |log| && log[j].Response? ==> log[i].Response?
  }

  /** Nothing follows the end of the stream. */
  ghost predicate EndsOnce(log: seq<Event>) {
    forall i :: 0 <= i < |log| - 1 ==> !log[i].EndOfStream?
  }

  ghost predicate NotEnded(log: seq<Event>) {
    forall i :: 0 <= i < |log| ==> !log[i].EndOfStream?
  }

  ghost predicate Disciplined(log: seq<Event>, expected: nat) {
    ResponsesFirst(log) && ResponseCount(log) <= expected && EndsOnce(log)
  }

  ghost predicate AllResponses(log: seq<Event>) {
    forall i :: 0 <= i < |log| ==> log[i].Response?
  }

  /** Still waiting: only responses so far, and the rest is expected; or given up on from the start. */
  ghost predicate PendingOk(log: seq<Event>, expected: nat, remaining: Option<nat>, deactivated: bool) {
    || (&& AllResponses(log) && ResponseCount(log) == |log|
        && (if expected > 1 then remaining.Some? && remaining.value > 0 && |log| + remaining.value == expected
            else remaining.None? && log == []))
    || (deactivated && |log| == 1 && log[0].OutboundErr?)
  }

  ghost predicate StreamOk(log: seq<Event>, expected: nat, info: Option<OutboundInfo>, deactivated: bool) {
    && Disciplined(log, expected)
    && (info.Some? ==> NotEnded(log))
    && (if info.Some? && info.value.state.Pending? then PendingOk(log, expected, info.value.remaining, deactivated)
        else log != [])
  }

  function Lookup<V>(m: map<nat, V>, k: nat): Option<V> { if k in m then Some(m[k]) else None }

  ghost predicate StreamsOk(h: Handler, opens: seq<Entry>, trace: seq<Emission>) {
    forall k :: 0 <= k < |opens| ==>
      StreamOk(LogOf(trace, k), opens[k].1.Expected(), Lookup(h.outbound, k), h.state.Deactivated?)
  }

  // -- Inbound exchanges --

  function InFlight(info: InboundInfo): seq<Chunk> { if info.state.Busy? then [info.state.message] else [] }

  ghost predicate WireOk(x: Exchange) {
    && |x.wire| <= x.expected && x.wire <= x.accepted
    && (forall i :: 0 <= i < |x.wire| ==> !x.wire[i].StreamTermination?)
    && (forall i :: 0 <= i < |x.wire| - 1 ==> x.wire[i].Success?)
  }

  ghost predicate LiveOk(x: Exchange, info: InboundInfo) {
    && x.wire + InFlight(info) + info.pending == x.accepted
    && |x.wire| + info.remaining == x.expected && info.remaining > 0
    && (forall i :: 0 <= i < |x.wire| ==> x.wire[i].Success?)
    && (info.state.Busy? ==> info.state.lastChunk == (info.remaining <= 1))
  }

  ghost predicate ExchangesOk(inbound: map<SubstreamId, InboundInfo>, exchanges: seq<Exchange>) {
    forall s :: 0 <= s < |exchanges| ==>
      WireOk(exchanges[s]) && (s in inbound ==> LiveOk(exchanges[s], inbound[s]))
  }

  ghost predicate InSide(h: Handler, exchanges: seq<Exchange>) {
    && InboundTimersOk(h.inbound, h.inboundTimers) && InboundIdsOk(h, exchanges) && ExchangesOk(h.inbound, exchanges)
  }

  ghost predicate OutSide(h: Handler, opens: seq<Entry>, trace: seq<Emission>) {
    && OutboundTimersOk(h.outbound, h.outboundTimers) && OutboundIdsOk(h, opens) && StreamsOk(h, opens, trace)
  }

  ghost predicate Inv(x: Sys) {
    && InSide(x.h, x.exchanges) && OutSide(x.h, x.opens, x.trace)
    && DialsOk(x.h, x.dialing, x.retried)
    && Conserved(x) && CausesOk(x.trace, x.opens) && Delivered(x)
  }

  lemma StartInv()
    ensures Inv(Start)
  {
  }

  // ---- The inbound side ----

  /** What of the handler the inbound side depends on. */
  predicate SameInbound(h: Handler, h': Handler) {
    h'.inbound == h.inbound && h'.inboundTimers == h.inboundTimers && h'.nextInbound == h.nextInbound
  }

  lemma SameInSide(h: Handler, h': Handler, xs: seq<Exchange>)
    requires InSide(h, xs) && SameInbound(h, h')
    ensures InSide(h', xs)
  {
  }

  /** One exchange and its substream change, keeping the timer key. */
  lemma ChangeOne(h: Handler, h': Handler, xs: seq<Exchange>, s: SubstreamId, info: InboundInfo, x: Exchange)
    requires InSide(h, xs) && s in h.inbound
    requires h'.inbound == h.inbound[s := info] && h'.nextInbound == h.nextInbound
    requires SameItems(h.inboundTimers, h'.inboundTimers)
    requires info.delayKey == h.inbound[s].delayKey && !info.state.PoisonedInbound?
    requires WireOk(x) && LiveOk(x, info)
    ensures s < |xs| && InSide(h', xs[s := x])
  {
    hide WireOk, LiveOk, InboundTimersOk, SameItems;
    assert h'.inbound.Keys == h.inbound.Keys;
    assert InboundTimersOk(h'.inbound, h'.inboundTimers) by {
      TimersChangeOne(h.inbound, h.inboundTimers, h'.inboundTimers, s, info);
    }
  }

  ghost predicate SameItems(timers: DelayQueue<SubstreamId>, timers': DelayQueue<SubstreamId>) {
    timers'.Keys == timers.Keys && forall key :: key in timers ==> timers'[key].item == timers[key].item
  }

  lemma TimersChangeOne(inbound: map<SubstreamId, InboundInfo>, timers: DelayQueue<SubstreamId>,
                        timers': DelayQueue<SubstreamId>, s: SubstreamId, info: InboundInfo)
    requires InboundTimersOk(inbound, timers) && SameItems(timers, timers')
    requires s in inbound && info.delayKey == inbound[s].delayKey
    ensures InboundTimersOk(inbound[s := info], timers')
  {
  }

  /** A substream goes, together with its timer. */
  lemma RemoveOne(h: Handler, h': Handler, xs: seq<Exchange>, s: SubstreamId, x: Exchange)
    requires InSide(h, xs) && s in h.inbound && SameInbound(InboundRemoved(h, s), h') && WireOk(x)
    ensures s < |xs| && InSide(h', xs[s := x])
  {
    hide WireOk, LiveOk, InboundTimersOk;
    assert InboundTimersOk(h'.inbound, h'.inboundTimers) by {
      TimersRemoveOne(h, s);
    }
    assert h'.inbound.Keys == h.inbound.Keys - {s};
  }

  lemma TimersRemoveOne(h: Handler, s: SubstreamId)
    requires InboundTimersOk(h.inbound, h.inboundTimers) && s in h.inbound
    ensures InboundTimersOk(InboundRemoved(h, s).inbound, InboundRemoved(h, s).inboundTimers)
  {
  }

  lemma ResponseSentIn(h: Handler, xs: seq<Exchange>, s: SubstreamId, chunk: Chunk)
    requires InSide(h, xs)
    ensures InSide(ResponseSent(h, s, chunk).next,
                   if s in h.inbound && !h.state.Deactivated? then Touched(xs, s, [chunk], []) else xs)
  {
    hide InSide, Events;
    var h' := ResponseSent(h, s, chunk).next;
    if s in h.inbound && !h.state.Deactivated? {
      var x := LiveExchange(h, xs, s);
      var info := h.inbound[s];
      AcceptOne(x, info, [chunk]);
      ChangeOne(h, h', xs, s, info.(pending := info.pending + [chunk]),
                x.(accepted := x.accepted + [chunk], wire := x.wire + []));
    } else {
      SameInSide(h, h', xs);
    }
  }

  lemma LiveExchange(h: Handler, xs: seq<Exchange>, s: SubstreamId) returns (x: Exchange)
    requires InSide(h, xs) && s in h.inbound
    ensures s < |xs| && x == xs[s] && WireOk(x) && LiveOk(x, h.inbound[s]) && !h.inbound[s].state.PoisonedInbound?
  {
    x := xs[s];
  }

  lemma AcceptOne(x: Exchange, info: InboundInfo, more: seq<Chunk>)
    requires WireOk(x) && LiveOk(x, info)
    ensures
      var x' := x.(accepted := x.accepted + more, wire := x.wire + []);
      WireOk(x') && LiveOk(x', info.(pending := info.pending + more))
  {
    assert x.wire + [] == x.wire;
    assert x.wire + InFlight(info) + (info.pending + more) == x.accepted + more;
  }

  lemma InboundTimedOutIn(h: Handler, xs: seq<Exchange>, key: TimerKey)
    requires InSide(h, xs) && key in h.inboundTimers
    ensures
      var s := h.inboundTimers[key].item;
      s in h.inbound && InSide(InboundTimedOut(h, key).next, Touched(xs, s, TimeoutChunk(h.inbound[s]), []))
  {
    hide WireOk, LiveOk, TimeoutChunk, Events, InboundTimersOk;
    TimerHasStream(h, key);
    var s := h.inboundTimers[key].item;
    var x := LiveExchange(h, xs, s);
    var info := h.inbound[s];
    var more := TimeoutChunk(info);
    SameTimeoutChunk(info);
    AcceptOne(x, info, more);
    LiveWithoutKey(x.(accepted := x.accepted + more, wire := x.wire + []), info.(pending := info.pending + more));
    TimersExpire(h.inbound, h.inboundTimers, key, info.(delayKey := None, pending := info.pending + more));
    var h' := InboundTimedOut(h, key).next;
    assert h'.inbound.Keys == h.inbound.Keys;
  }

  lemma TimerHasStream(h: Handler, key: TimerKey)
    requires InboundTimersOk(h.inbound, h.inboundTimers) && key in h.inboundTimers
    ensures h.inboundTimers[key].item in h.inbound && h.inbound[h.inboundTimers[key].item].delayKey == Some(key)
  {
  }

  lemma SameTimeoutChunk(info: InboundInfo)
    ensures TimeoutChunk(info.(delayKey := None)) == TimeoutChunk(info)
  {
  }

  lemma LiveWithoutKey(x: Exchange, info: InboundInfo)
    requires LiveOk(x, info)
    ensures LiveOk(x, info.(delayKey := None))
  {
    assert InFlight(info.(delayKey := None)) == InFlight(info);
  }

  lemma TimersExpire(inbound: map<SubstreamId, InboundInfo>, timers: DelayQueue<SubstreamId>, key: TimerKey,
                     info: InboundInfo)
    requires InboundTimersOk(inbound, timers) && key in timers && info.delayKey.None?
    ensures InboundTimersOk(inbound[timers[key].item := info], timers - {key})
  {
  }

  lemma SendStartedIn(h: Handler, xs: seq<Exchange>, s: SubstreamId)
    requires InSide(h, xs) && s in h.inbound && h.inbound[s].state.Idle? && h.inbound[s].pending != []
    ensures InSide(SendStarted(h, s).next, xs)
  {
    hide InSide, WireOk;
    var x := LiveExchange(h, xs, s);
    var info := h.inbound[s];
    var info' := info.(state := Busy(info.pending[0], info.remaining <= 1), pending := info.pending[1..]);
    assert InFlight(info') + info'.pending == info.pending;
    assert x.wire + InFlight(info') + info'.pending == x.wire + (InFlight(info') + info'.pending);
    assert x.wire + InFlight(info) == x.wire;
    ChangeOne(h, SendStarted(h, s).next, xs, s, info', x);
    assert xs[s := x] == xs;
  }

  /** The exchange once the message in flight is done with. */
  function AfterSend(x: Exchange, info: InboundInfo, sendErr: Option<RpcError>): Exchange
    requires info.state.Busy?
  {
    if sendErr.None? && !info.state.message.StreamTermination?
    then x.(accepted := x.accepted + [], wire := x.wire + [info.state.message]) else x
  }

  lemma AfterSendOk(x: Exchange, info: InboundInfo, sendErr: Option<RpcError>, closeErr: Option<RpcError>)
    requires WireOk(x) && LiveOk(x, info) && info.state.Busy?
    ensures WireOk(AfterSend(x, info, sendErr))
    ensures SendResult(info.state.message, info.state.lastChunk, sendErr, closeErr) == Ok(false) ==>
              LiveOk(AfterSend(x, info, sendErr), info.(state := Idle, remaining := SatSub(info.remaining, 1)))
  {
    var x' := AfterSend(x, info, sendErr);
    assert x.accepted + [] == x.accepted;
    assert x.wire + [info.state.message] + info.pending == x.accepted;
    assert x.wire + [info.state.message] <= x.accepted;
    if SendResult(info.state.message, info.state.lastChunk, sendErr, closeErr) == Ok(false) {
      assert x'.wire + [] + info.pending == x'.accepted;
    }
  }

  lemma SendFinishedIn(h: Handler, xs: seq<Exchange>, s: SubstreamId, sendErr: Option<RpcError>,
                       closeErr: Option<RpcError>, now: Instant)
    requires InSide(h, xs) && s in h.inbound && h.inbound[s].state.Busy?
    ensures s < |xs|
    ensures InSide(SendFinished(h, s, sendErr, closeErr, now).next, xs[s := AfterSend(xs[s], h.inbound[s], sendErr)])
  {
    hide InSide, WireOk, LiveOk, SendResult, AfterSend, Events;
    var x := LiveExchange(h, xs, s);
    var info := h.inbound[s];
    var h' := SendFinished(h, s, sendErr, closeErr, now).next;
    AfterSendOk(x, info, sendErr, closeErr);
    var x' := AfterSend(x, info, sendErr);
    if SendResult(info.state.message, info.state.lastChunk, sendErr, closeErr) == Ok(false) {
      ResetKeepsItems(h, xs, s, now);
      ChangeOne(h, h', xs, s, info.(state := Idle, remaining := SatSub(info.remaining, 1)), x');
    } else {
      RemoveOne(h, h', xs, s, x');
    }
  }

  lemma ResetKeepsItems(h: Handler, xs: seq<Exchange>, s: SubstreamId, now: Instant)
    requires InSide(h, xs) && s in h.inbound
    ensures SameItems(h.inboundTimers, InboundReset(h, s, now))
  {
  }

  lemma IdleClosedIn(h: Handler, xs: seq<Exchange>, s: SubstreamId, error: Option<RpcError>)
    requires InSide(h, xs) && s in h.inbound
    ensures InSide(IdleClosed(h, s, error).next, xs)
  {
    hide InSide, WireOk, LiveOk, Events;
    var x := LiveExchange(h, xs, s);
    RemoveOne(h, IdleClosed(h, s, error).next, xs, s, x);
    assert xs[s := x] == xs;
  }

  lemma ShutDownTouches(h: Handler, goodbye: Option<Id>, now: Instant)
    ensures SameInbound(h, ShutDown(h, goodbye, now).next)
  {
  }

  lemma InboundStoredIn(h: Handler, xs: seq<Exchange>, request: Request, key: TimerKey, now: Instant)
    requires InSide(h, xs) && key !in h.inboundTimers && (request.Expected() > 0 ==> !Full(h))
    ensures InSide(InboundStored(h, request, key, now).(nextInbound := h.nextInbound + 1),
                   xs + [Exchange(request.Expected(), [], [])])
  {
    hide InboundTimersOk, ExchangesOk, InboundIdsOk, LiveOk, WireOk;
    var h' := InboundStored(h, request, key, now).(nextInbound := h.nextInbound + 1);
    var x := Exchange(request.Expected(), [], []);
    IdsInsert(h, xs, request, key, now);
    FreshExchange(request, key);
    ExchangesInsert(h.inbound, h'.inbound, xs, x);
    if request.Expected() > 0 {
      TimersInsert(h.inbound, h.inboundTimers, h.nextInbound, h'.inbound[h.nextInbound], key, h'.inboundTimers[key]);
    }
  }

  lemma IdsInsert(h: Handler, xs: seq<Exchange>, request: Request, key: TimerKey, now: Instant)
    requires InboundIdsOk(h, xs) && (request.Expected() > 0 ==> !Full(h))
    ensures h.nextInbound == |xs| && h.nextInbound !in h.inbound
    ensures InboundIdsOk(InboundStored(h, request, key, now).(nextInbound := h.nextInbound + 1),
                         xs + [Exchange(request.Expected(), [], [])])
  {
  }

  lemma ExchangesInsert(inbound: map<SubstreamId, InboundInfo>, inbound': map<SubstreamId, InboundInfo>,
                        xs: seq<Exchange>, x: Exchange)
    requires ExchangesOk(inbound, xs) && WireOk(x)
    requires forall s :: 0 <= s < |xs| && s in inbound' ==> s in inbound && inbound'[s] == inbound[s]
    requires |xs| in inbound' ==> LiveOk(x, inbound'[|xs|])
    ensures ExchangesOk(inbound', xs + [x])
  {
    hide WireOk, LiveOk;
  }

  lemma FreshExchange(request: Request, key: TimerKey)
    ensures
      var x := Exchange(request.Expected(), [], []);
      && WireOk(x)
      && (request.Expected() > 0 ==>
            LiveOk(x, InboundInfo(Idle, [], request.Protocol(), request.Expected(), Some(key))))
  {
  }

  lemma TimersInsert(inbound: map<SubstreamId, InboundInfo>, timers: DelayQueue<SubstreamId>, s: SubstreamId,
                     info: InboundInfo, key: TimerKey, timer: Timer<SubstreamId>)
    requires InboundTimersOk(inbound, timers) && s !in inbound && key !in timers
    requires info.delayKey == Some(key) && timer.item == s
    ensures InboundTimersOk(inbound[s := info], timers[key := timer])
  {
  }

  /** The exchanges after a new inbound request. */
  function ExchangesAfter(h: Handler, xs: seq<Exchange>, request: Request): seq<Exchange> {
    if !h.state.Active? || (request.Expected() > 0 && Full(h)) then xs
    else xs + [Exchange(request.Expected(), [], [])]
  }

  lemma InboundNegotiatedIn(h: Handler, xs: seq<Exchange>, request: Request, key: TimerKey, now: Instant)
    requires InSide(h, xs) && key !in h.inboundTimers
    ensures InSide(InboundNegotiated(h, request, key, now).next, ExchangesAfter(h, xs, request))
  {
    hide InSide, Events, ShutDown, Full, InboundStored;
    var h' := InboundNegotiated(h, request, key, now).next;
    if !h.state.Active? {
    } else if request.Expected() > 0 && Full(h) {
      var rejected :=
        Emission(OfInbound(h.nextInbound), InboundErr(h.nextInbound, request.Protocol(), HandlerRejected));
      ShutDownTouches(Queued(h, [rejected]).next, None, now);
      SameInSide(h, h', xs);
    } else {
      InboundStoredIn(h, xs, request, key, now);
      var mid := InboundStored(h, request, key, now).(nextInbound := h.nextInbound + 1);
      if request.GoodbyeRequest? {
        ShutDownTouches(h, None, now);
        GoodbyeStoresNothing(h, key, now);
      }
      SameInSide(mid, h', xs + [Exchange(request.Expected(), [], [])]);
    }
  }

  lemma GoodbyeStoresNothing(h: Handler, key: TimerKey, now: Instant)
    ensures InboundStored(h, GoodbyeRequest, key, now) == h
  {
  }

  predicate IsInboundLabel(l: Label) {
    l.SendResponse? || l.InboundOpened? || l.InboundExpired? || l.StartSend? || l.FinishSend? || l.CloseIdle?
  }

  lemma OtherLabelsKeepInbound(x: Sys, l: Label)
    requires Possible(x, l) && !IsInboundLabel(l)
    ensures SameInbound(x.h, Step(x.h, l).next) && NextExchanges(x, l) == x.exchanges
  {
    hide Step, SameInbound;
    if IsOutboundLabel(l) {
      OutboundLabelsKeepInbound(x.h, l);
    } else {
      DialLabelsKeepInbound(x.h, l);
    }
  }

  lemma OutboundLabelsKeepInbound(h: Handler, l: Label)
    requires Enabled(h, l) && IsOutboundLabel(l)
    ensures SameInbound(h, Step(h, l).next)
  {
    hide Events, ChunkEvent, IsBlocks, Left, Failure;
  }

  lemma DialLabelsKeepInbound(h: Handler, l: Label)
    requires Enabled(h, l) && !IsInboundLabel(l) && !IsOutboundLabel(l)
    ensures SameInbound(h, Step(h, l).next)
  {
    hide Events, Flushed, Drained, Failure, Retries;
  }

  lemma InSideKept(x: Sys, l: Label)
    requires Possible(x, l) && InSide(x.h, x.exchanges)
    ensures InSide(Next(x, l).h, Next(x, l).exchanges)
  {
    hide InSide, ResponseSent, InboundNegotiated, InboundTimedOut, SendStarted, SendFinished, IdleClosed, TimeoutChunk,
      SameInbound, RequestSent, ShutDown, OutboundNegotiated, DialRefused, OutboundTimedOut, ChunkReceived, StreamEnds,
      StreamBroken, StreamAbandoned, ClosingDone, DialStarted, Touched;
    var h, xs := x.h, x.exchanges;
    match l
    case SendResponse(s, chunk) => ResponseSentIn(h, xs, s, chunk);
    case InboundOpened(request, key, now) => InboundNegotiatedIn(h, xs, request, key, now);
    case InboundExpired(key) => InboundTimedOutIn(h, xs, key);
    case StartSend(s) => SendStartedIn(h, xs, s);
    case FinishSend(s, sendErr, closeErr, now) =>
      SendFinishedIn(h, xs, s, sendErr, closeErr, now);
      AfterSendTouches(xs, s, h.inbound[s], sendErr);
    case CloseIdle(s, error) => IdleClosedIn(h, xs, s, error);
    case _ =>
      OtherLabelsKeepInbound(x, l);
      SameInSide(h, Step(h, l).next, xs);
  }

  lemma AfterSendTouches(xs: seq<Exchange>, s: SubstreamId, info: InboundInfo, sendErr: Option<RpcError>)
    requires s < |xs| && info.state.Busy?
    ensures xs[s := AfterSend(xs[s], info, sendErr)]
         == if sendErr.None? && !info.state.message.StreamTermination?
            then Touched(xs, s, [], [info.state.message]) else xs
  {
  }

  // ---- The outbound side ----

  lemma {:induction false} LogAppend(trace: seq<Emission>, es: seq<Emission>, k: SubstreamId)
    ensures LogOf(trace + es, k) == LogOf(trace, k) + LogOf(es, k)
    decreases |es|
  {
    if es == [] {
      assert trace + es == trace;
    } else {
      var n := |es| - 1;
      assert (trace + es)[..|trace + es| - 1] == trace + es[..n];
      LogAppend(trace, es[..n], k);
    }
  }

  lemma {:induction false} NoLog(es: seq<Emission>, k: SubstreamId)
    requires NotFrom(es, k)
    ensures LogOf(es, k) == []
    decreases |es|
  {
    if es != [] {
      NoLog(es[..|es| - 1], k);
    }
  }

  lemma OneLog(es: seq<Emission>, k: SubstreamId)
    requires |es| <= 1 && forall i :: 0 <= i < |es| ==> es[i].cause == OfStream(k)
    ensures LogOf(es, k) == Events(es)
  {
    if es != [] {
      assert es[..|es| - 1] == [];
    }
  }

  lemma Unheard(trace: seq<Emission>, es: seq<Emission>, k: SubstreamId)
    requires NotFrom(es, k)
    ensures LogOf(trace + es, k) == LogOf(trace, k)
  {
    LogAppend(trace, es, k);
    NoLog(es, k);
  }

  lemma Heard(trace: seq<Emission>, es: seq<Emission>, k: SubstreamId)
    requires |es| <= 1 && forall i :: 0 <= i < |es| ==> es[i].cause == OfStream(k)
    ensures LogOf(trace + es, k) == LogOf(trace, k) + Events(es)
  {
    LogAppend(trace, es, k);
    OneLog(es, k);
  }

  /** One event more, and not a response. */
  lemma AppendOther(log: seq<Event>, e: Event, expected: nat)
    requires Disciplined(log, expected) && NotEnded(log) && !e.Response?
    ensures Disciplined(log + [e], expected) && (!e.EndOfStream? ==> NotEnded(log + [e]))
  {
    assert (log + [e])[..|log|] == log;
  }

  /** One response more, on a stream that has seen responses only. */
  lemma AppendResponse(log: seq<Event>, e: Event, expected: nat)
    requires AllResponses(log) && ResponseCount(log) == |log| < expected && e.Response?
    ensures Disciplined(log + [e], expected) && NotEnded(log + [e])
    ensures AllResponses(log + [e]) && ResponseCount(log + [e]) == |log| + 1
  {
    assert (log + [e])[..|log|] == log;
  }

  predicate SameOutbound(h: Handler, h': Handler) {
    && h'.outbound == h.outbound && h'.outboundTimers == h.outboundTimers && h'.nextOutbound == h.nextOutbound
    && h'.state.Deactivated? == h.state.Deactivated?
  }

  lemma SameOutSide(h: Handler, h': Handler, opens: seq<Entry>, trace: seq<Emission>, es: seq<Emission>)
    requires OutSide(h, opens, trace) && SameOutbound(h, h') && forall k :: NotFrom(es, k)
    ensures OutSide(h', opens, trace + es)
  {
    hide StreamOk, OutboundTimersOk, NotFrom;
    forall k | 0 <= k < |opens|
      ensures StreamOk(LogOf(trace + es, k), opens[k].1.Expected(), Lookup(h'.outbound, k), h'.state.Deactivated?)
    {
      Unheard(trace, es, k);
    }
  }

  lemma OutTimersChangeOne(outbound: map<SubstreamId, OutboundInfo>, timers: DelayQueue<SubstreamId>,
                           timers': DelayQueue<SubstreamId>, k: SubstreamId, info: OutboundInfo)
    requires OutboundTimersOk(outbound, timers) && SameItems(timers, timers')
    requires k in outbound && info.delayKey == outbound[k].delayKey
    ensures OutboundTimersOk(outbound[k := info], timers')
  {
  }

  lemma OutTimersRemoveOne(outbound: map<SubstreamId, OutboundInfo>, timers: DelayQueue<SubstreamId>, k: SubstreamId)
    requires OutboundTimersOk(outbound, timers) && k in outbound
    ensures OutboundTimersOk(outbound - {k}, timers - {outbound[k].delayKey})
  {
  }

  lemma OutTimersInsert(outbound: map<SubstreamId, OutboundInfo>, timers: DelayQueue<SubstreamId>, k: SubstreamId,
                        info: OutboundInfo, timer: Timer<SubstreamId>)
    requires OutboundTimersOk(outbound, timers) && k !in outbound && info.delayKey !in timers && timer.item == k
    ensures OutboundTimersOk(outbound[k := info], timers[info.delayKey := timer])
  {
  }

  /** Substream `k` moves on, reporting at most one event. */
  ghost predicate Moves(h: Handler, h': Handler, k: SubstreamId, info': Option<OutboundInfo>, es: seq<Emission>)
    requires k in h.outbound
  {
    && h'.nextOutbound == h.nextOutbound && h'.state == h.state
    && h'.outbound == (if info'.Some? then h.outbound[k := info'.value] else h.outbound - {k})
    && (if info'.Some?
        then info'.value.delayKey == h.outbound[k].delayKey && SameItems(h.outboundTimers, h'.outboundTimers)
        else h'.outboundTimers == h.outboundTimers - {h.outbound[k].delayKey})
    && |es| <= 1 && (forall i :: 0 <= i < |es| ==> es[i].cause == OfStream(k))
  }

  lemma StreamMoves(h: Handler, h': Handler, opens: seq<Entry>, trace: seq<Emission>, k: SubstreamId,
                    info': Option<OutboundInfo>, es: seq<Emission>)
    requires OutSide(h, opens, trace) && k in h.outbound && k < |opens| && Moves(h, h', k, info', es)
    requires info'.Some? ==> Serves(info'.value, opens[k])
    requires StreamOk(LogOf(trace, k) + Events(es), opens[k].1.Expected(), info', h.state.Deactivated?)
    ensures OutSide(h', opens, trace + es)
  {
    hide StreamsOk, StreamOk, OutboundTimersOk, OutboundIdsOk, Serves, Events, Moves;
    TimersMove(h, h', k, info', es);
    IdsMove(h, h', opens, k, info', es);
    LogsMove(h, h', opens, trace, k, info', es);
  }

  lemma TimersMove(h: Handler, h': Handler, k: SubstreamId, info': Option<OutboundInfo>, es: seq<Emission>)
    requires OutboundTimersOk(h.outbound, h.outboundTimers) && k in h.outbound && Moves(h, h', k, info', es)
    ensures OutboundTimersOk(h'.outbound, h'.outboundTimers)
  {
    hide OutboundTimersOk, SameItems;
    if info'.Some? {
      OutTimersChangeOne(h.outbound, h.outboundTimers, h'.outboundTimers, k, info'.value);
    } else {
      OutTimersRemoveOne(h.outbound, h.outboundTimers, k);
    }
  }

  lemma IdsMove(h: Handler, h': Handler, opens: seq<Entry>, k: SubstreamId, info': Option<OutboundInfo>,
                es: seq<Emission>)
    requires OutboundIdsOk(h, opens) && k in h.outbound && k < |opens| && Moves(h, h', k, info', es)
    requires info'.Some? ==> Serves(info'.value, opens[k])
    ensures OutboundIdsOk(h', opens)
  {
    hide SameItems, Serves;
  }

  lemma LogsMove(h: Handler, h': Handler, opens: seq<Entry>, trace: seq<Emission>, k: SubstreamId,
                 info': Option<OutboundInfo>, es: seq<Emission>)
    requires StreamsOk(h, opens, trace) && k in h.outbound && k < |opens| && Moves(h, h', k, info', es)
    requires StreamOk(LogOf(trace, k) + Events(es), opens[k].1.Expected(), info', h.state.Deactivated?)
    ensures StreamsOk(h', opens, trace + es)
  {
    hide StreamOk, SameItems, Events, LogOf;
    forall j | 0 <= j < |opens|
      ensures StreamOk(LogOf(trace + es, j), opens[j].1.Expected(), Lookup(h'.outbound, j), h'.state.Deactivated?)
    {
      if j == k {
        Heard(trace, es, k);
        assert Lookup(h'.outbound, j) == info';
      } else {
        Unheard(trace, es, j);
        assert StreamOk(LogOf(trace, j), opens[j].1.Expected(), Lookup(h.outbound, j), h.state.Deactivated?);
      }
    }
  }

  lemma LiveStream(h: Handler, opens: seq<Entry>, trace: seq<Emission>, k: SubstreamId) returns (log: seq<Event>)
    requires OutSide(h, opens, trace) && k in h.outbound
    ensures k < |opens| && log == LogOf(trace, k) && Serves(h.outbound[k], opens[k]) && opens[k].1.Expected() > 0
    ensures StreamOk(log, opens[k].1.Expected(), Some(h.outbound[k]), h.state.Deactivated?)
  {
    log := LogOf(trace, k);
    assert Lookup(h.outbound, k) == Some(h.outbound[k]);
  }

  /** A live substream ends with one last event. */
  lemma EndsWith(log: seq<Event>, expected: nat, info: OutboundInfo, deactivated: bool, e: Event)
    requires StreamOk(log, expected, Some(info), deactivated) && !e.Response?
    ensures StreamOk(log + [e], expected, None, deactivated)
  {
    hide PendingOk;
    AppendOther(log, e, expected);
  }

  lemma GoesWith(h: Handler, h': Handler, opens: seq<Entry>, trace: seq<Emission>, k: SubstreamId, e: Emission)
    requires OutSide(h, opens, trace) && k in h.outbound && Moves(h, h', k, None, [e]) && !e.event.Response?
    ensures OutSide(h', opens, trace + [e])
  {
    hide OutSide, StreamOk, Serves, Moves;
    var log := LiveStream(h, opens, trace, k);
    EndsWith(log, opens[k].1.Expected(), h.outbound[k], h.state.Deactivated?, e.event);
    assert Events([e]) == [e.event];
    StreamMoves(h, h', opens, trace, k, None, [e]);
  }

  lemma OutboundTimedOutOut(h: Handler, opens: seq<Entry>, trace: seq<Emission>, key: TimerKey)
    requires OutSide(h, opens, trace) && key in h.outboundTimers
    ensures h.outboundTimers[key].item in h.outbound
    ensures OutSide(OutboundTimedOut(h, key).next, opens, trace + OutboundTimedOut(h, key).emits)
  {
    hide StreamsOk, OutboundIdsOk;
    var k := h.outboundTimers[key].item;
    var o := OutboundTimedOut(h, key);
    GoesWith(h, o.next, opens, trace, k, o.emits[0]);
  }

  lemma StreamEndsOut(h: Handler, opens: seq<Entry>, trace: seq<Emission>, k: SubstreamId)
    requires OutSide(h, opens, trace) && IsPending(h, k)
    ensures OutSide(StreamEnds(h, k).next, opens, trace + StreamEnds(h, k).emits)
  {
    hide OutSide;
    var o := StreamEnds(h, k);
    GoesWith(h, o.next, opens, trace, k, o.emits[0]);
  }

  lemma StreamBrokenOut(h: Handler, opens: seq<Entry>, trace: seq<Emission>, k: SubstreamId, error: RpcError)
    requires OutSide(h, opens, trace) && IsPending(h, k)
    ensures OutSide(StreamBroken(h, k, error).next, opens, trace + StreamBroken(h, k, error).emits)
  {
    hide OutSide;
    var o := StreamBroken(h, k, error);
    GoesWith(h, o.next, opens, trace, k, o.emits[0]);
  }

  lemma ClosingDoneOut(h: Handler, opens: seq<Entry>, trace: seq<Emission>, k: SubstreamId)
    requires OutSide(h, opens, trace) && k in h.outbound && h.outbound[k].state.Closing?
    ensures OutSide(ClosingDone(h, k).next, opens, trace + ClosingDone(h, k).emits)
  {
    hide OutSide;
    var o := ClosingDone(h, k);
    if IsBlocks(h.outbound[k].protocol) {
      GoesWith(h, o.next, opens, trace, k, o.emits[0]);
    } else {
      var log := LiveStream(h, opens, trace, k);
      assert log + Events([]) == log;
      StreamMoves(h, o.next, opens, trace, k, None, []);
    }
  }

  lemma StreamAbandonedOut(h: Handler, opens: seq<Entry>, trace: seq<Emission>, k: SubstreamId)
    requires OutSide(h, opens, trace) && IsPending(h, k)
    ensures OutSide(StreamAbandoned(h, k).next, opens, trace + StreamAbandoned(h, k).emits)
  {
    hide OutSide, PendingOk;
    var o := StreamAbandoned(h, k);
    var log := LiveStream(h, opens, trace, k);
    AppendOther(log, o.emits[0].event, opens[k].1.Expected());
    assert log + Events(o.emits) == log + [o.emits[0].event];
    StreamMoves(h, o.next, opens, trace, k, Some(h.outbound[k].(state := Closing)), o.emits);
  }

  /** The standing of a stream after one more chunk. */
  lemma ChunkKeepsStream(log: seq<Event>, info: OutboundInfo, entry: Entry, chunk: Chunk)
    requires Serves(info, entry) && entry.1.Expected() > 0 && info.state.Pending? && !chunk.StreamTermination?
    requires StreamOk(log, entry.1.Expected(), Some(info), false)
    ensures
      var log' := log + [ChunkEvent(info, chunk)];
      if entry.1.Expected() > 1 && chunk.Success? && Left(info) > 0
      then StreamOk(log', entry.1.Expected(), Some(info.(remaining := Some(Left(info)))), false)
      else StreamOk(log', entry.1.Expected(), Some(info.(state := Closing)), false)
  {
    hide Disciplined, NotEnded, AllResponses, ResponseCount;
    var e := ChunkEvent(info, chunk);
    if chunk.Success? {
      AppendResponse(log, e, entry.1.Expected());
    } else {
      AppendOther(log, e, entry.1.Expected());
    }
  }

  lemma ChunkReceivedOut(h: Handler, opens: seq<Entry>, trace: seq<Emission>, k: SubstreamId, chunk: Chunk,
                         now: Instant)
    requires OutSide(h, opens, trace) && IsPending(h, k) && !h.state.Deactivated? && !chunk.StreamTermination?
    ensures OutSide(ChunkReceived(h, k, chunk, now).next, opens, trace + ChunkReceived(h, k, chunk, now).emits)
  {
    hide OutSide, StreamOk, ChunkEvent, Left;
    var o := ChunkReceived(h, k, chunk, now);
    var log := LiveStream(h, opens, trace, k);
    var info := h.outbound[k];
    ChunkKeepsStream(log, info, opens[k], chunk);
    assert log + Events(o.emits) == log + [ChunkEvent(info, chunk)];
    StreamHasTimer(h, opens, trace, k);
    StreamMoves(h, o.next, opens, trace, k, Some(o.next.outbound[k]), o.emits);
  }

  lemma StreamHasTimer(h: Handler, opens: seq<Entry>, trace: seq<Emission>, k: SubstreamId)
    requires OutSide(h, opens, trace) && k in h.outbound
    ensures h.outbound[k].delayKey in h.outboundTimers && h.outboundTimers[h.outbound[k].delayKey].item == k
  {
  }

  lemma ShutdownExpiredOut(h: Handler, opens: seq<Entry>, trace: seq<Emission>)
    requires OutSide(h, opens, trace)
    ensures OutSide(h.(state := Deactivated), opens, trace)
  {
    hide OutboundTimersOk, Serves, Disciplined, NotEnded, AllResponses;
  }

  lemma NewStreamOk(entry: Entry, info: OutboundInfo, deactivated: bool, e: Event)
    requires entry.1.Expected() > 0 && info.state.Pending? && e.OutboundErr?
    requires info.remaining == if entry.1.Expected() > 1 then Some(entry.1.Expected()) else None
    ensures StreamOk([], entry.1.Expected(), Some(info), deactivated)
    ensures deactivated ==> StreamOk([e], entry.1.Expected(), Some(info), deactivated)
  {
    NothingYet(entry.1.Expected());
    AppendOther([], e, entry.1.Expected());
    assert [] + [e] == [e];
    hide Disciplined, NotEnded, AllResponses, ResponseCount;
  }

  lemma NothingYet(expected: nat)
    ensures Disciplined([], expected) && NotEnded([]) && AllResponses([]) && ResponseCount([]) == 0
  {
  }

  lemma FreshStreamHasNoLog(opens: seq<Entry>, trace: seq<Emission>)
    requires CausesOk(trace, opens)
    ensures LogOf(trace, |opens|) == []
  {
    NoLog(trace, |opens|);
  }

  /** A new substream, after at most one event of its own. */
  lemma StreamOpens(h: Handler, h': Handler, opens: seq<Entry>, trace: seq<Emission>, entry: Entry,
                    info: OutboundInfo, timer: Timer<SubstreamId>, es: seq<Emission>)
    requires OutSide(h, opens, trace) && CausesOk(trace, opens) && h.nextOutbound == |opens|
    requires h'.outbound == h.outbound[|opens| := info] && h'.outboundTimers == h.outboundTimers[info.delayKey := timer]
    requires h'.nextOutbound == |opens| + 1 && h'.state == h.state
    requires timer.item == |opens| && info.delayKey !in h.outboundTimers
    requires Serves(info, entry) && entry.1.Expected() > 0
    requires |es| <= 1 && forall i :: 0 <= i < |es| ==> es[i].cause == OfStream(|opens|)
    requires StreamOk(Events(es), entry.1.Expected(), Some(info), h.state.Deactivated?)
    ensures OutSide(h', opens + [entry], trace + es)
  {
    hide StreamOk, OutboundTimersOk, Serves, Events, CausesOk;
    assert |opens| !in h.outbound;
    OutTimersInsert(h.outbound, h.outboundTimers, |opens|, info, timer);
    forall j | 0 <= j < |opens| + 1
      ensures StreamOk(LogOf(trace + es, j), (opens + [entry])[j].1.Expected(), Lookup(h'.outbound, j),
                       h'.state.Deactivated?)
    {
      if j == |opens| {
        Heard(trace, es, j);
        FreshStreamHasNoLog(opens, trace);
        assert [] + Events(es) == Events(es);
      } else {
        Unheard(trace, es, j);
        assert StreamOk(LogOf(trace, j), opens[j].1.Expected(), Lookup(h.outbound, j), h.state.Deactivated?);
      }
    }
  }

  lemma OutboundNegotiatedOut(h: Handler, opens: seq<Entry>, trace: seq<Emission>, entry: Entry, key: TimerKey,
                              now: Instant)
    requires OutSide(h, opens, trace) && CausesOk(trace, opens) && key !in h.outboundTimers
    ensures
      var o := OutboundNegotiated(h, entry, key, now);
      OutSide(o.next, if entry.1.Expected() > 0 then opens + [entry] else opens, trace + o.emits)
  {
    hide OutSide, StreamOk, CausesOk;
    var o := OutboundNegotiated(h, entry, key, now);
    if entry.1.Expected() > 0 {
      NextIsFresh(h, opens, trace);
      var info := o.next.outbound[h.nextOutbound];
      NewStreamOk(entry, info, h.state.Deactivated?, Failure(entry, Disconnected).event);
      assert Events(o.emits) == if h.state.Deactivated? then [Failure(entry, Disconnected).event] else [];
      StreamOpens(h, o.next, opens, trace, entry, info, o.next.outboundTimers[key], o.emits);
    } else {
      SameOutSide(h, o.next, opens, trace, o.emits);
    }
  }

  lemma NextIsFresh(h: Handler, opens: seq<Entry>, trace: seq<Emission>)
    requires OutSide(h, opens, trace)
    ensures h.nextOutbound == |opens|
  {
  }

  predicate IsOutboundLabel(l: Label) {
    || l.OutboundOpened? || l.OutboundExpired? || l.StreamChunk? || l.StreamEnded? || l.StreamFailed?
    || l.StreamDeactivated? || l.StreamClosed? || l.ShutdownExpired?
  }

  /** Every emission is about a request that never got a substream. */
  ghost predicate AllFailures(es: seq<Emission>) {
    forall i :: 0 <= i < |es| ==>
      es[i].cause.OfRequest? && es[i].event.OutboundErr? && CarriesId(es[i].event, es[i].cause.entry.0)
  }

  lemma {:induction false} FlushedCauses(q: seq<Entry>)
    ensures AllFailures(Flushed(q))
  {
    if q != [] {
      FlushedCauses(q[..|q| - 1]);
    }
  }

  lemma {:induction false} FlushedFails(q: seq<Entry>)
    ensures FailedOf(Flushed(q)) == multiset(q)
  {
    hide FailedOf;
    NoneFailed();
    if q != [] {
      var n := |q| - 1;
      var first := Failure(q[n], Disconnected);
      FlushedFails(q[..n]);
      FailedAppend([first], Flushed(q[..n]));
      OneFailed(first);
      assert q == q[..n] + [q[n]];
    }
  }

  lemma NotFromBoth(es: seq<Emission>, es': seq<Emission>, k: SubstreamId)
    requires NotFrom(es, k) && NotFrom(es', k)
    ensures NotFrom(es + es', k)
  {
  }

  lemma {:induction false} FailedAppend(trace: seq<Emission>, es: seq<Emission>)
    ensures FailedOf(trace + es) == FailedOf(trace) + FailedOf(es)
    decreases |es|
  {
    if es == [] {
      assert trace + es == trace;
    } else {
      var n := |es| - 1;
      assert (trace + es)[..|trace + es| - 1] == trace + es[..n];
      FailedAppend(trace, es[..n]);
    }
  }

  lemma OneFailed(e: Emission)
    ensures FailedOf([e]) == if e.cause.OfRequest? then multiset{e.cause.entry} else multiset{}
  {
    assert [e][..0] == [];
  }

  lemma NoneFailed()
    ensures FailedOf([]) == multiset{}
  {
  }

  lemma ShutDownKeepsOutbound(h: Handler, goodbye: Option<Id>, now: Instant)
    ensures SameOutbound(h, ShutDown(h, goodbye, now).next)
    ensures forall k :: NotFrom(ShutDown(h, goodbye, now).emits, k)
  {
    FlushedCauses(h.dialQueue);
  }

  lemma InboundNegotiatedKeepsOutbound(h: Handler, request: Request, key: TimerKey, now: Instant)
    ensures SameOutbound(h, InboundNegotiated(h, request, key, now).next)
    ensures forall k :: NotFrom(InboundNegotiated(h, request, key, now).emits, k)
  {
    hide ShutDown, Full, Events;
    var rejected :=
      Emission(OfInbound(h.nextInbound), InboundErr(h.nextInbound, request.Protocol(), HandlerRejected));
    var received := Emission(OfInbound(h.nextInbound), Received(h.nextInbound, request));
    var queued := Queued(h, [rejected]).next;
    ShutDownKeepsOutbound(queued, None, now);
    ShutDownKeepsOutbound(h, None, now);
    forall k
      ensures NotFrom(InboundNegotiated(h, request, key, now).emits, k)
    {
      NotFromBoth([rejected], ShutDown(queued, None, now).emits, k);
      NotFromBoth(ShutDown(h, None, now).emits, [received], k);
      NotFromBoth([], [received], k);
    }
  }

  lemma InboundLabelsKeepOutbound(h: Handler, l: Label)
    requires Enabled(h, l) && IsInboundLabel(l)
    ensures SameOutbound(h, Step(h, l).next) && forall k :: NotFrom(Step(h, l).emits, k)
  {
    hide Events, Flushed, TimeoutChunk, EndsOpen, SendResult, InboundNegotiated, InboundReset;
    if l.InboundOpened? {
      InboundNegotiatedKeepsOutbound(h, l.request, l.key, l.now);
    }
  }

  lemma OtherLabelsKeepOutbound(h: Handler, l: Label)
    requires Enabled(h, l) && !IsInboundLabel(l) && !IsOutboundLabel(l)
    ensures SameOutbound(h, Step(h, l).next) && forall k :: NotFrom(Step(h, l).emits, k)
  {
    hide Events, ShutDown, Drained;
    if l.Shutdown? {
      ShutDownKeepsOutbound(h, Some(l.goodbye), l.now);
    }
  }

  lemma OutSideKept(x: Sys, l: Label)
    requires Possible(x, l) && OutSide(x.h, x.opens, x.trace) && CausesOk(x.trace, x.opens)
    ensures OutSide(Next(x, l).h, Next(x, l).opens, Next(x, l).trace)
  {
    hide OutSide, CausesOk, ResponseSent, InboundNegotiated, InboundTimedOut, SendStarted, SendFinished, IdleClosed,
      SameOutbound, RequestSent, ShutDown, OutboundNegotiated, DialRefused, OutboundTimedOut, ChunkReceived, StreamEnds,
      StreamBroken, StreamAbandoned, ClosingDone, DialStarted, NotFrom, NextExchanges;
    var h, opens, trace := x.h, x.opens, x.trace;
    match l
    case OutboundOpened(entry, key, now) => OutboundNegotiatedOut(h, opens, trace, entry, key, now);
    case OutboundExpired(key) => OutboundTimedOutOut(h, opens, trace, key);
    case StreamChunk(k, chunk, now) => ChunkReceivedOut(h, opens, trace, k, chunk, now);
    case StreamEnded(k) => StreamEndsOut(h, opens, trace, k);
    case StreamFailed(k, error) => StreamBrokenOut(h, opens, trace, k, error);
    case StreamDeactivated(k) => StreamAbandonedOut(h, opens, trace, k);
    case StreamClosed(k) => ClosingDoneOut(h, opens, trace, k);
    case ShutdownExpired =>
      ShutdownExpiredOut(h, opens, trace);
      assert trace + [] == trace;
    case _ =>
      if IsInboundLabel(l) { InboundLabelsKeepOutbound(h, l); } else { OtherLabelsKeepOutbound(h, l); }
      SameOutSide(h, Step(h, l).next, opens, trace, Step(h, l).emits);
  }

  // ---- Accounting ----

  lemma DialsKept(x: Sys, l: Label)
    requires Possible(x, l) && DialsOk(x.h, x.dialing, x.retried)
    ensures DialsOk(Next(x, l).h, Next(x, l).dialing, Next(x, l).retried)
  {
    hide DialsOk, RequestSent, ShutDown, DialRefused, OutboundNegotiated, DialStarted, Retries, NextExchanges;
    if l.OutboundOpened? || l.DialFailed? || l.StartDial? {
      DialStepsOk(x, l);
    } else {
      DialsUntouched(x.h, l);
      SameDials(x.h, Step(x.h, l).next, x.dialing, x.retried);
    }
  }

  predicate SameDialCount(h: Handler, h': Handler) {
    h'.dialNegotiated == h.dialNegotiated && h'.ioRetries == h.ioRetries
  }

  lemma SameDials(h: Handler, h': Handler, dialing: multiset<Entry>, retried: nat)
    requires DialsOk(h, dialing, retried) && SameDialCount(h, h')
    ensures DialsOk(h', dialing, retried)
  {
  }

  lemma DialsUntouched(h: Handler, l: Label)
    requires Enabled(h, l) && !l.OutboundOpened? && !l.DialFailed? && !l.StartDial?
    ensures SameDialCount(h, Step(h, l).next)
  {
    hide Step, SameDialCount;
    if IsInboundLabel(l) {
      InboundLabelsKeepDials(h, l);
    } else {
      OtherLabelsKeepDials(h, l);
    }
  }

  lemma InboundLabelsKeepDials(h: Handler, l: Label)
    requires Enabled(h, l) && IsInboundLabel(l)
    ensures SameDialCount(h, Step(h, l).next)
  {
    hide Events, TimeoutChunk, EndsOpen, SendResult, InboundReset, InboundNegotiated;
    if l.InboundOpened? {
      InboundNegotiatedKeepsDials(h, l.request, l.key, l.now);
    }
  }

  lemma InboundNegotiatedKeepsDials(h: Handler, request: Request, key: TimerKey, now: Instant)
    ensures SameDialCount(h, InboundNegotiated(h, request, key, now).next)
  {
    hide Events, Flushed, Full;
  }

  lemma OtherLabelsKeepDials(h: Handler, l: Label)
    requires Enabled(h, l) && !IsInboundLabel(l) && !l.OutboundOpened? && !l.DialFailed? && !l.StartDial?
    ensures SameDialCount(h, Step(h, l).next)
  {
    hide Events, Flushed, TimeoutChunk, EndsOpen, SendResult, InboundReset, ChunkEvent, Left, IsBlocks, Full, Drained,
      Failure;
  }

  lemma DialStepsOk(x: Sys, l: Label)
    requires Possible(x, l) && DialsOk(x.h, x.dialing, x.retried)
    requires l.OutboundOpened? || l.DialFailed? || l.StartDial?
    ensures DialsOk(Next(x, l).h, Next(x, l).dialing, Next(x, l).retried)
  {
    hide Events, NextExchanges;
  }

  /** Requests are conserved when the queue is untouched and nothing fails on the way. */
  predicate QuietBooks(h: Handler, o: Outcome) { o.next.dialQueue == h.dialQueue && FailedOf(o.emits) == multiset{} }

  predicate IsBookLabel(l: Label) {
    l.SendRequest? || l.Shutdown? || l.InboundOpened? || l.OutboundOpened? || l.DialFailed? || l.StartDial?
  }

  lemma OtherLabelsKeepBooks(h: Handler, l: Label)
    requires Enabled(h, l) && !IsBookLabel(l)
    ensures QuietBooks(h, Step(h, l))
  {
    hide Events, TimeoutChunk, EndsOpen, SendResult, InboundReset, ChunkEvent, Left, IsBlocks, Full, Drained, Failure,
      FailedOf;
    var es := Step(h, l).emits;
    FewFailed(es);
  }

  lemma FewFailed(es: seq<Emission>)
    ensures |es| <= 2 && (forall i :: 0 <= i < |es| ==> !es[i].cause.OfRequest?) ==> FailedOf(es) == multiset{}
  {
    if |es| == 2 {
      assert es == [es[0]] + [es[1]];
      FailedAppend([es[0]], [es[1]]);
      OneFailed(es[0]);
      OneFailed(es[1]);
    } else if |es| == 1 {
      assert es == [es[0]];
      OneFailed(es[0]);
    }
  }

  /** Moving requests between the books keeps the total. */
  lemma Rebalanced(q: multiset<Entry>, d: multiset<Entry>, o: multiset<Entry>, f: multiset<Entry>, n: multiset<Entry>,
                   q': multiset<Entry>, d': multiset<Entry>, o': multiset<Entry>, f': multiset<Entry>,
                   n': multiset<Entry>, more: multiset<Entry>)
    requires q' + d' + o' + f' + n' == q + d + o + n + more
    ensures q' + d' + o' + (f + f') + n' == q + d + o + f + n + more
  {
    forall e: Entry
      ensures (q' + d' + o' + (f + f') + n')[e] == (q + d + o + f + n + more)[e]
    {
      assert (q' + d' + o' + f' + n')[e] == (q + d + o + n + more)[e];
    }
  }

  lemma ShutDownBooks(h: Handler, goodbye: Option<Id>, now: Instant)
    ensures
      var o := ShutDown(h, goodbye, now);
      multiset(o.next.dialQueue) + FailedOf(o.emits) == multiset(h.dialQueue) + Goodbyes(h, goodbye)
  {
    hide Events, FailedOf;
    NoneFailed();
    FlushedFails(h.dialQueue);
  }

  function Goodbyes(h: Handler, goodbye: Option<Id>): multiset<Entry> {
    if h.state.Active? && goodbye.Some? then multiset{(goodbye.value, GoodbyeRequest)} else multiset{}
  }

  lemma InboundNegotiatedBooks(h: Handler, request: Request, key: TimerKey, now: Instant)
    ensures
      var o := InboundNegotiated(h, request, key, now);
      multiset(o.next.dialQueue) + FailedOf(o.emits) == multiset(h.dialQueue)
  {
    hide ShutDown, Events, Full, FailedOf;
    NoneFailed();
    if h.state.Active? {
      var rejected :=
        Emission(OfInbound(h.nextInbound), InboundErr(h.nextInbound, request.Protocol(), HandlerRejected));
      var received := Emission(OfInbound(h.nextInbound), Received(h.nextInbound, request));
      OneFailed(rejected);
      OneFailed(received);
      var queued := Queued(h, [rejected]).next;
      ShutDownBooks(queued, None, now);
      ShutDownBooks(h, None, now);
      FailedAppend([rejected], ShutDown(queued, None, now).emits);
      FailedAppend(ShutDown(h, None, now).emits, [received]);
      FailedAppend([], [received]);
      var o := InboundNegotiated(h, request, key, now);
      if request.Expected() > 0 && Full(h) {
        assert FailedOf(o.emits) == FailedOf(ShutDown(queued, None, now).emits);
      } else if request.GoodbyeRequest? {
        assert FailedOf(o.emits) == FailedOf(ShutDown(h, None, now).emits);
      } else {
        assert FailedOf(o.emits) == multiset{};
      }
    }
  }

  lemma ConservedKept(x: Sys, l: Label)
    requires Possible(x, l) && Conserved(x)
    ensures Conserved(Next(x, l))
  {
    hide FailedOf, Step, NextExchanges, Conserved;
    var o := Step(x.h, l);
    FailedAppend(x.trace, o.emits);
    BooksBalance(x, l);
    RebalancedSys(x, l);
  }

  /** What one step moves between the books. */
  ghost predicate Balances(x: Sys, l: Label)
    requires Possible(x, l)
  {
    var o := Step(x.h, l);
    multiset(o.next.dialQueue) + NextDialing(x, l) + multiset(NextOpens(x, l)) + FailedOf(o.emits) + NextDropped(x, l)
    == multiset(x.h.dialQueue) + x.dialing + multiset(x.opens) + x.dropped + NewlySent(x, l)
  }

  function NewlySent(x: Sys, l: Label): multiset<Entry> {
    if l.SendRequest? then multiset{l.entry}
    else if l.Shutdown? then Goodbyes(x.h, Some(l.goodbye))
    else multiset{}
  }

  lemma RebalancedSys(x: Sys, l: Label)
    requires Possible(x, l) && Conserved(x) && Balances(x, l)
    requires FailedOf(x.trace + Step(x.h, l).emits) == FailedOf(x.trace) + FailedOf(Step(x.h, l).emits)
    ensures Conserved(Next(x, l))
  {
    hide FailedOf, Step, NextExchanges, NextDialing;
    var o := Step(x.h, l);
    Rebalanced(multiset(x.h.dialQueue), x.dialing, multiset(x.opens), FailedOf(x.trace), x.dropped,
               multiset(o.next.dialQueue), NextDialing(x, l), multiset(NextOpens(x, l)), FailedOf(o.emits),
               NextDropped(x, l), NewlySent(x, l));
  }

  lemma BooksBalance(x: Sys, l: Label)
    requires Possible(x, l)
    ensures Balances(x, l)
  {
    hide Balances, Step;
    if l.Shutdown? || l.InboundOpened? {
      ShuttingBalances(x, l);
    } else if l.OutboundOpened? {
      OpeningBalances(x, l);
    } else if l.DialFailed? {
      RefusalBalances(x, l);
    } else if l.SendRequest? || l.StartDial? {
      DialingBalances(x, l);
    } else {
      OtherLabelsKeepBooks(x.h, l);
      QuietlyBalanced(x, l);
    }
  }

  lemma QuietlyBalanced(x: Sys, l: Label)
    requires Possible(x, l) && !IsBookLabel(l) && QuietBooks(x.h, Step(x.h, l))
    ensures Balances(x, l)
  {
    hide Step, FailedOf;
  }

  lemma ShuttingBalances(x: Sys, l: Label)
    requires Possible(x, l) && (l.Shutdown? || l.InboundOpened?)
    ensures Balances(x, l)
  {
    hide FailedOf, ShutDown, InboundNegotiated;
    if l.Shutdown? {
      ShutDownBooks(x.h, Some(l.goodbye), l.now);
    } else {
      InboundNegotiatedBooks(x.h, l.request, l.key, l.now);
    }
    var o := Step(x.h, l);
    Joined(multiset(x.h.dialQueue), NewlySent(x, l), multiset(o.next.dialQueue), FailedOf(o.emits),
           x.dialing, multiset(x.opens), x.dropped);
  }

  lemma OpeningBalances(x: Sys, l: Label)
    requires Possible(x, l) && l.OutboundOpened?
    ensures Balances(x, l)
  {
    hide FailedOf, OutboundNegotiated;
    OpeningBooks(x.h, l.entry, l.key, l.now);
  }

  lemma RefusalBalances(x: Sys, l: Label)
    requires Possible(x, l) && l.DialFailed?
    ensures Balances(x, l)
  {
    hide FailedOf, DialRefused;
    RefusalBooks(x.h, l.entry, l.io, l.error);
    var o := DialRefused(x.h, l.entry, l.io, l.error);
    Returned(multiset(x.h.dialQueue), x.dialing, l.entry, multiset(o.next.dialQueue), FailedOf(o.emits),
             multiset(x.opens), x.dropped);
  }

  lemma DialingBalances(x: Sys, l: Label)
    requires Possible(x, l) && (l.SendRequest? || l.StartDial?)
    ensures Balances(x, l)
  {
    hide FailedOf, RequestSent, DialStarted;
    NoneFailed();
    if l.SendRequest? {
      SendingBooks(x.h, l.entry);
      var o := Step(x.h, l);
      Joined(multiset(x.h.dialQueue), NewlySent(x, l), multiset(o.next.dialQueue), FailedOf(o.emits),
             x.dialing, multiset(x.opens), x.dropped);
    } else {
      DialingBooks(x.h);
    }
  }

  /** What joins the queue, or fails at once, is what was sent. */
  lemma Joined(q: multiset<Entry>, more: multiset<Entry>, q': multiset<Entry>, f: multiset<Entry>,
               d: multiset<Entry>, o: multiset<Entry>, n: multiset<Entry>)
    requires q' + f == q + more
    ensures q' + d + o + f + n == q + d + o + n + more
  {
    forall e: Entry
      ensures (q' + d + o + f + n)[e] == (q + d + o + n + more)[e]
    {
      assert (q' + f)[e] == (q + more)[e];
    }
  }

  /** A dial that comes back is queued again or fails. */
  lemma Returned(q: multiset<Entry>, d: multiset<Entry>, entry: Entry, q': multiset<Entry>, f: multiset<Entry>,
                 o: multiset<Entry>, n: multiset<Entry>)
    requires entry in d && q' + f == q + multiset{entry}
    ensures q' + (d - multiset{entry}) + o + f + n == q + d + o + n + multiset{}
  {
    forall e: Entry
      ensures (q' + (d - multiset{entry}) + o + f + n)[e] == (q + d + o + n + multiset{})[e]
    {
      assert (q' + f)[e] == (q + multiset{entry})[e];
    }
  }

  lemma SendingBooks(h: Handler, entry: Entry)
    ensures multiset(RequestSent(h, entry).next.dialQueue) + FailedOf(RequestSent(h, entry).emits)
         == multiset(h.dialQueue) + multiset{entry}
  {
    hide FailedOf, Events;
    NoneFailed();
    OneFailed(Failure(entry, Disconnected));
  }

  lemma RefusalBooks(h: Handler, entry: Entry, io: bool, error: RpcError)
    ensures multiset(DialRefused(h, entry, io, error).next.dialQueue) + FailedOf(DialRefused(h, entry, io, error).emits)
         == multiset(h.dialQueue) + multiset{entry}
  {
    hide FailedOf, Events, RequestSent;
    SendingBooks(h.(ioRetries := h.ioRetries + 1), entry);
    OneFailed(Failure(entry, error));
  }

  lemma OpeningBooks(h: Handler, entry: Entry, key: TimerKey, now: Instant)
    ensures OutboundNegotiated(h, entry, key, now).next.dialQueue == h.dialQueue
    ensures FailedOf(OutboundNegotiated(h, entry, key, now).emits)
         == if h.state.Deactivated? && entry.1.Expected() == 0 then multiset{entry} else multiset{}
  {
    hide FailedOf, Events;
    NoneFailed();
    var cause := if entry.1.Expected() > 0 then OfStream(h.nextOutbound) else OfRequest(entry);
    OneFailed(Emission(cause, Failure(entry, Disconnected).event));
  }

  lemma DialingBooks(h: Handler)
    requires h.dialQueue != []
    ensures multiset(DialStarted(h).next.dialQueue) + multiset{h.dialQueue[0]} == multiset(h.dialQueue)
    ensures DialStarted(h).emits == []
  {
    assert h.dialQueue == [h.dialQueue[0]] + h.dialQueue[1..];
  }

  // ---- Events ----

  lemma EventsOfBoth(es: seq<Emission>, es': seq<Emission>)
    ensures Events(es + es') == Events(es) + Events(es')
  {
  }

  /** Every kind of outcome reports what it emits. */
  predicate WellReported(h: Handler, o: Outcome) {
    || (o.next.eventsOut == h.eventsOut + Events(o.emits) && !o.out.Custom?)
    || (o.next.eventsOut == h.eventsOut && |o.emits| == 1 && o.out == Custom(o.emits[0].event))
    || (h.eventsOut != [] && o.next.eventsOut == h.eventsOut[1..] && o.emits == [] && o.out == Custom(h.eventsOut[0]))
  }

  lemma InboundNegotiatedReports(h: Handler, request: Request, key: TimerKey, now: Instant)
    ensures WellReported(h, InboundNegotiated(h, request, key, now))
  {
    hide Full, Events, Flushed;
    var rejected :=
      Emission(OfInbound(h.nextInbound), InboundErr(h.nextInbound, request.Protocol(), HandlerRejected));
    var received := Emission(OfInbound(h.nextInbound), Received(h.nextInbound, request));
    EventsOfBoth([rejected], Flushed(h.dialQueue));
    EventsOfBoth(Flushed(h.dialQueue), [received]);
    EventsOfBoth([], [received]);
    NoEvents();
    assert h.eventsOut + [] == h.eventsOut;
  }

  lemma NoEvents()
    ensures Events([]) == []
  {
  }

  lemma StepsReport(h: Handler, l: Label)
    requires Enabled(h, l)
    ensures WellReported(h, Step(h, l))
  {
    hide Events, Flushed, TimeoutChunk, EndsOpen, SendResult, InboundReset, ChunkEvent, Left, IsBlocks, Full, Drained,
      Failure,
      InboundNegotiated, InboundStored, OutboundStored;
    NoEvents();
    assert h.eventsOut + [] == h.eventsOut;
    if l.InboundOpened? {
      InboundNegotiatedReports(h, l.request, l.key, l.now);
    } else if l.OutboundOpened? {
      StoringReportsNothing(h.(dialNegotiated := SatSub(h.dialNegotiated, 1)), l.entry, l.key, l.now);
    }
  }

  lemma StoringReportsNothing(h: Handler, entry: Entry, key: TimerKey, now: Instant)
    ensures OutboundStored(h, entry, key, now).eventsOut == h.eventsOut
  {
  }

  /** Exactly the steps that name a substream here return an event of it past the queue. */
  lemma DirectIff(h: Handler, l: Label)
    requires Enabled(h, l) && !l.TakeEvent?
    ensures Step(h, l).out.Custom? <==> DirectStream(h, l).Some?
    ensures Step(h, l).out.Custom? ==>
              |Step(h, l).emits| == 1 && Step(h, l).emits[0].cause == OfStream(DirectStream(h, l).value)
  {
    hide Events, Flushed, TimeoutChunk, EndsOpen, SendResult, InboundReset, ChunkEvent, Left, Full, Drained, Failure,
      InboundStored, OutboundStored;
  }

  /** Taking the oldest event moves it from one log to the other. */
  lemma TakenKeepsReport(x: Sys)
    requires x.queued != []
    ensures x.delivered + [x.queued[0]] + x.queued[1..] == Reported(x)
  {
  }

  /** An event handed over directly, when none of its substream is queued, keeps each substream's order. */
  lemma DirectKeepsOrder(x: Sys, e: Emission, k: SubstreamId)
    requires e.cause.OfStream? && NotFrom(x.queued, e.cause.k)
    ensures LogOf(x.delivered + [e] + x.queued, k) == LogOf(Reported(x) + [e], k)
  {
    hide LogOf;
    LogAppend(x.delivered + [e], x.queued, k);
    LogAppend(x.delivered, [e], k);
    LogAppend(Reported(x), [e], k);
    LogAppend(x.delivered, x.queued, k);
    var before, own, behind := LogOf(x.delivered, k), LogOf([e], k), LogOf(x.queued, k);
    if e.cause.k == k {
      NoLog(x.queued, k);
      assert before + own + [] == before + [] + own;
    } else {
      NoLog([e], k);
      assert before + [] + behind == before + behind + [];
    }
  }

  lemma DirectKeepsFailures(x: Sys, e: Emission)
    requires e.cause.OfStream?
    ensures FailedOf(x.delivered + [e] + x.queued) == FailedOf(Reported(x) + [e])
    ensures multiset(x.delivered + [e] + x.queued) == multiset(Reported(x) + [e])
  {
    FailedAppend(x.delivered + [e], x.queued);
    FailedAppend(x.delivered, [e]);
    FailedAppend(Reported(x), [e]);
    FailedAppend(x.delivered, x.queued);
  }

  /** Reporting `es` at the end of both logs keeps them in agreement. */
  lemma ReportedTogether(a: seq<Emission>, b: seq<Emission>, es: seq<Emission>)
    requires multiset(a) == multiset(b) && FailedOf(a) == FailedOf(b) && forall k :: LogOf(a, k) == LogOf(b, k)
    ensures multiset(a + es) == multiset(b + es) && FailedOf(a + es) == FailedOf(b + es)
    ensures forall k :: LogOf(a + es, k) == LogOf(b + es, k)
  {
    hide FailedOf, LogOf;
    FailedAppend(a, es);
    FailedAppend(b, es);
    forall k
      ensures LogOf(a + es, k) == LogOf(b + es, k)
    {
      LogAppend(a, es, k);
      LogAppend(b, es, k);
    }
  }

  lemma DeliveredKept(x: Sys, l: Label)
    requires Possible(x, l) && Delivered(x)
    ensures Delivered(Next(x, l))
  {
    hide Step, Events, NextExchanges, NextDialing, FailedOf, LogOf, DirectStream, NotFrom;
    var o := Step(x.h, l);
    var x' := Next(x, l);
    QueueFollows(x, l);
    if l.TakeEvent? {
      TakesNothingNew(x.h);
      QueueNotEmpty(x);
      TakenKeepsReport(x);
      assert Reported(x') == Reported(x) && x.trace + [] == x.trace;
    } else {
      DirectIff(x.h, l);
      ReportedTogether(Reported(x), x.trace, o.emits);
      if o.out.Custom? {
        var e := o.emits[0];
        assert o.emits == [e];
        DirectKeepsFailures(x, e);
        forall k
          ensures LogOf(Reported(x'), k) == LogOf(x'.trace, k)
        {
          DirectKeepsOrder(x, e, k);
        }
      } else {
        assert Reported(x') == Reported(x) + o.emits;
      }
    }
  }

  lemma TakesNothingNew(h: Handler)
    requires Enabled(h, TakeEvent)
    ensures Step(h, TakeEvent).emits == []
  {
  }

  lemma QueueNotEmpty(x: Sys)
    requires Events(x.queued) == x.h.eventsOut && x.h.eventsOut != []
    ensures x.queued != []
  {
  }

  /** The handler's queue holds the queued events. */
  lemma QueueFollows(x: Sys, l: Label)
    requires Possible(x, l) && Events(x.queued) == x.h.eventsOut
    ensures Events(Next(x, l).queued) == Next(x, l).h.eventsOut
  {
    hide Step, NextExchanges, NextDialing, InOrder, Events;
    var o := Step(x.h, l);
    StepsReport(x.h, l);
    NoEvents();
    EventsOfBoth(x.queued, o.emits);
    if l.TakeEvent? {
      QueueNotEmpty(x);
      TakesOldest(x.h);
      EventsOfBoth([x.queued[0]], x.queued[1..]);
      OneEvent([x.queued[0]]);
      assert x.queued == [x.queued[0]] + x.queued[1..];
    } else if o.out.Custom? {
      DirectIff(x.h, l);
    }
  }

  lemma TakesOldest(h: Handler)
    requires Enabled(h, TakeEvent)
    ensures Step(h, TakeEvent).next.eventsOut == h.eventsOut[1..]
  {
  }

  lemma OneEvent(es: seq<Emission>)
    requires |es| == 1
    ensures Events(es) == [es[0].event]
  {
  }

  // ---- Causes ----

  lemma CausesAppend(trace: seq<Emission>, es: seq<Emission>, opens: seq<Entry>)
    requires CausesOk(trace, opens) && CausesOk(es, opens)
    ensures CausesOk(trace + es, opens)
  {
    hide CauseOk;
  }

  /** Opening more substreams invalidates nothing. */
  lemma CausesGrow(trace: seq<Emission>, opens: seq<Entry>, more: seq<Entry>)
    requires CausesOk(trace, opens)
    ensures CausesOk(trace, opens + more)
  {
  }

  lemma FailuresHaveCauses(es: seq<Emission>, opens: seq<Entry>)
    requires AllFailures(es)
    ensures CausesOk(es, opens)
  {
  }

  lemma ShutDownCauses(h: Handler, goodbye: Option<Id>, now: Instant, opens: seq<Entry>)
    ensures CausesOk(ShutDown(h, goodbye, now).emits, opens)
  {
    hide CausesOk, AllFailures;
    FlushedCauses(h.dialQueue);
    FailuresHaveCauses(Flushed(h.dialQueue), opens);
    NoCauses(opens);
  }

  lemma NoCauses(opens: seq<Entry>)
    ensures CausesOk([], opens)
  {
  }

  lemma InboundNegotiatedCauses(h: Handler, request: Request, key: TimerKey, now: Instant, opens: seq<Entry>)
    ensures CausesOk(InboundNegotiated(h, request, key, now).emits, opens)
  {
    hide ShutDown, Full, Events;
    var rejected :=
      Emission(OfInbound(h.nextInbound), InboundErr(h.nextInbound, request.Protocol(), HandlerRejected));
    var received := Emission(OfInbound(h.nextInbound), Received(h.nextInbound, request));
    var queued := Queued(h, [rejected]).next;
    ShutDownCauses(queued, None, now, opens);
    ShutDownCauses(h, None, now, opens);
    CausesAppend([rejected], ShutDown(queued, None, now).emits, opens);
    CausesAppend(ShutDown(h, None, now).emits, [received], opens);
  }

  lemma InboundLabelCauses(h: Handler, l: Label, opens: seq<Entry>)
    requires Enabled(h, l) && IsInboundLabel(l)
    ensures CausesOk(Step(h, l).emits, opens)
  {
    hide Events, TimeoutChunk, EndsOpen, SendResult, InboundReset, InboundNegotiated;
    if l.InboundOpened? {
      InboundNegotiatedCauses(h, l.request, l.key, l.now, opens);
    }
  }

  lemma StreamLabelCauses(h: Handler, l: Label, opens: seq<Entry>)
    requires Enabled(h, l) && IsOutboundLabel(l) && !l.OutboundOpened?
    requires OutboundIdsOk(h, opens)
    ensures CausesOk(Step(h, l).emits, opens)
  {
    hide Events, Left, IsBlocks;
  }

  lemma OtherLabelCauses(h: Handler, l: Label, opens: seq<Entry>)
    requires Enabled(h, l) && !IsOutboundLabel(l) && !IsInboundLabel(l)
    ensures CausesOk(Step(h, l).emits, opens)
  {
    hide Events, ShutDown, Drained;
    if l.Shutdown? {
      ShutDownCauses(h, Some(l.goodbye), l.now, opens);
    }
  }

  lemma OpeningCauses(h: Handler, entry: Entry, key: TimerKey, now: Instant, opens: seq<Entry>)
    requires h.nextOutbound == |opens|
    ensures CausesOk(OutboundNegotiated(h, entry, key, now).emits,
                     if entry.1.Expected() > 0 then opens + [entry] else opens)
  {
    hide Events, OutboundStored;
  }

  lemma CausesKept(x: Sys, l: Label)
    requires Possible(x, l) && CausesOk(x.trace, x.opens) && OutboundIdsOk(x.h, x.opens)
    ensures CausesOk(Next(x, l).trace, Next(x, l).opens)
  {
    hide CausesOk, OutboundNegotiated, NextExchanges, Events;
    var es := Step(x.h, l).emits;
    if l.OutboundOpened? {
      OpeningCauses(x.h, l.entry, l.key, l.now, x.opens);
      CausesGrow(x.trace, x.opens, [l.entry]);
    } else if IsOutboundLabel(l) {
      StreamLabelCauses(x.h, l, x.opens);
    } else if IsInboundLabel(l) {
      InboundLabelCauses(x.h, l, x.opens);
    } else {
      OtherLabelCauses(x.h, l, x.opens);
    }
    CausesAppend(x.trace, es, Next(x, l).opens);
  }

  // ---- Every run ----

  lemma StepKeepsInv(x: Sys, l: Label)
    requires Inv(x) && Possible(x, l)
    ensures Inv(Next(x, l))
  {
    hide Next, InSide, DialsOk, Conserved, CausesOk, Delivered, OutboundTimersOk, StreamsOk, OutboundIdsOk;
    InSideKept(x, l);
    OutSideKept(x, l);
    DialsKept(x, l);
    ConservedKept(x, l);
    CausesKept(x, l);
    DeliveredKept(x, l);
  }

  /** The system after a sequence of steps, each possible when it is taken. */
  ghost predicate IsRun(xs: seq<Sys>, ls: seq<Label>) {
    && |xs| == |ls| + 1 && xs[0] == Start
    && forall i :: 0 <= i < |ls| ==> Possible(xs[i], ls[i]) && xs[i + 1] == Next(xs[i], ls[i])
  }

  lemma {:induction false} RunKeepsInv(xs: seq<Sys>, ls: seq<Label>)
    requires IsRun(xs, ls)
    ensures Inv(xs[|ls|])
    decreases |ls|
  {
    hide Inv, Next, Possible;
    if ls == [] {
      StartInv();
    } else {
      var n := |ls| - 1;
      RunKeepsInv(xs[..n + 1], ls[..n]);
      StepKeepsInv(xs[n], ls[n]);
    }
  }

  // ---- What follows ----

  /**
   * Requests are conserved: each is queued, being dialed, got one substream, is reported as failed
   * by one event handed over or queued, or needed no answer.
   */
  lemma RequestsConserved(xs: seq<Sys>, ls: seq<Label>, entry: Entry)
    requires IsRun(xs, ls)
    ensures
      var x := xs[|ls|];
      && x.sent[entry] == multiset(x.h.dialQueue)[entry] + x.dialing[entry] + multiset(x.opens)[entry]
                          + FailedOf(x.delivered + x.queued)[entry] + x.dropped[entry]
      && (entry.1.Expected() > 0 ==> x.dropped[entry] == 0)
  {
    hide Next, Possible, FailedOf;
    RunKeepsInv(xs, ls);
    if xs[|ls|].dropped[entry] > 0 { assert entry in xs[|ls|].dropped; }
  }

  /** An event reported because of this very request or substream has been delivered or is queued. */
  ghost predicate Notified(x: Sys, cause: Cause, id: Id) {
    exists e :: (e in x.delivered || e in x.queued) && e.cause == cause && CarriesId(e.event, id)
  }

  lemma TracedIsNotified(x: Sys, i: nat, id: Id)
    requires Delivered(x) && i < |x.trace| && CarriesId(x.trace[i].event, id)
    ensures Notified(x, x.trace[i].cause, id)
  {
    hide FailedOf, LogOf;
    var e := x.trace[i];
    assert e in multiset(x.trace);
    assert e in Reported(x);
  }

  lemma {:induction false} FailedInTrace(trace: seq<Emission>, entry: Entry) returns (i: nat)
    requires FailedOf(trace)[entry] > 0
    ensures i < |trace| && trace[i].cause == OfRequest(entry)
    decreases |trace|
  {
    var n := |trace| - 1;
    if trace[n].cause == OfRequest(entry) {
      i := n;
    } else {
      i := FailedInTrace(trace[..n], entry);
    }
  }

  lemma {:induction false} LoggedInTrace(trace: seq<Emission>, k: SubstreamId) returns (i: nat)
    requires LogOf(trace, k) != []
    ensures i < |trace| && trace[i].cause == OfStream(k)
    decreases |trace|
  {
    var n := |trace| - 1;
    if trace[n].cause == OfStream(k) {
      i := n;
    } else {
      i := LoggedInTrace(trace[..n], k);
    }
  }

  /**
   * No request is lost silently: when a request expecting a response fails before it gets a
   * substream, or its substream is closing or gone, an event about it, with its id, has been
   * delivered or is queued.
   */
  lemma NoSilentLoss(xs: seq<Sys>, ls: seq<Label>)
    requires IsRun(xs, ls)
    ensures forall entry :: FailedOf(xs[|ls|].trace)[entry] > 0 ==> Notified(xs[|ls|], OfRequest(entry), entry.0)
    ensures forall k :: 0 <= k < |xs[|ls|].opens| && !IsPending(xs[|ls|].h, k) ==>
              Notified(xs[|ls|], OfStream(k), xs[|ls|].opens[k].0)
  {
    hide Next, Possible, FailedOf, Notified, LogOf, InSide, Conserved, Delivered, DialsOk;
    var x := xs[|ls|];
    RunKeepsInv(xs, ls);
    forall entry: Entry | FailedOf(x.trace)[entry] > 0
      ensures Notified(x, OfRequest(entry), entry.0)
    {
      var i := FailedInTrace(x.trace, entry);
      TracedIsNotified(x, i, entry.0);
    }
    forall k | 0 <= k < |x.opens| && !IsPending(x.h, k)
      ensures Notified(x, OfStream(k), x.opens[k].0)
    {
      var i := LoggedInTrace(x.trace, k);
      TracedIsNotified(x, i, x.opens[k].0);
    }
  }

  /**
   * Chunk discipline: what the application gets of a substream, and is going to get from the queue,
   * is at most as many responses as its request expects, all of them before anything else, and at
   * most one end of stream, after which nothing follows.
   */
  lemma ChunkDiscipline(xs: seq<Sys>, ls: seq<Label>, k: nat)
    requires IsRun(xs, ls) && k < |xs[|ls|].opens|
    ensures Disciplined(LogOf(xs[|ls|].delivered + xs[|ls|].queued, k), xs[|ls|].opens[k].1.Expected())
  {
    hide Next, Possible, LogOf, FailedOf, Disciplined, InSide, Conserved, DialsOk, CausesOk;
    RunKeepsInv(xs, ls);
  }

  /**
   * An inbound substream sends, in order, a prefix of the responses queued for it, no more than its
   * request expects, and nothing after an error.
   */
  lemma ResponsesInOrder(xs: seq<Sys>, ls: seq<Label>, s: nat)
    requires IsRun(xs, ls) && s < |xs[|ls|].exchanges|
    ensures WireOk(xs[|ls|].exchanges[s])
  {
    hide Next, Possible, WireOk, OutSide, Conserved, Delivered, DialsOk, CausesOk;
    RunKeepsInv(xs, ls);
  }

  /**
   * Dial accounting: the count never underflows, never passes its limit, and covers the dials under
   * way; it is exact until the first retry and never again after it.
   */
  lemma DialsAccounted(xs: seq<Sys>, ls: seq<Label>)
    requires IsRun(xs, ls)
    ensures
      var x := xs[|ls|];
      && |x.dialing| <= x.h.dialNegotiated <= MAX_DIAL_NEGOTIATED
      && (x.h.dialNegotiated == |x.dialing| <==> x.retried == 0)
      && (x.dialing != multiset{} ==> x.h.dialNegotiated > 0)
  {
    hide Next, Possible, InSide, OutSide, Conserved, Delivered, CausesOk;
    RunKeepsInv(xs, ls);
  }

  /** Nothing is queued, dialing, open or unreported. */
  predicate NothingLeft(x: Sys) {
    && x.h.dialQueue == [] && x.dialing == multiset{} && x.h.outbound == map[] && x.h.inbound == map[]
    && x.h.eventsOut == []
  }

  /**
   * While shutting down, the handler closes gracefully, or lets the connection go, if and only if
   * nothing is left to do and no dial was ever retried.
   */
  lemma GracefulCloseIsClean(xs: seq<Sys>, ls: seq<Label>)
    requires IsRun(xs, ls) && xs[|ls|].h.state.ShuttingDown?
    ensures MayDrop(xs[|ls|].h) <==> NothingLeft(xs[|ls|]) && xs[|ls|].retried == 0
    ensures Enabled(xs[|ls|].h, CloseGracefully) <==> NothingLeft(xs[|ls|]) && xs[|ls|].retried == 0
  {
    hide Next, Possible, InSide, OutSide, Conserved, Delivered, CausesOk;
    RunKeepsInv(xs, ls);
  }

  /** Retries are never forgotten, so each takes one of the dial slots away for good. */
  lemma {:induction false} RetriesPersist(xs: seq<Sys>, ls: seq<Label>, i: nat)
    requires IsRun(xs, ls) && i <= |ls|
    ensures xs[i].retried <= xs[|ls|].retried <= MAX_DIAL_NEGOTIATED
    ensures xs[i].retried == MAX_DIAL_NEGOTIATED ==> !Enabled(xs[|ls|].h, StartDial) && xs[|ls|].dialing == multiset{}
    decreases |ls| - i
  {
    hide Inv, InSide, OutSide, Conserved, Delivered, CausesOk, Step, NextExchanges, NextDialing;
    RunKeepsInv(xs, ls);
    InvDials(xs[|ls|]);
    if i < |ls| {
      RetriesPersist(xs, ls, i + 1);
    }
  }

  lemma InvDials(x: Sys)
    requires Inv(x)
    ensures DialsOk(x.h, x.dialing, x.retried)
  {
  }

  /**
   * Between polls every timer has its substream and every outbound substream its timer, so timeouts
   * are always in the books, and no substream is poisoned.
   */
  lemma BooksAreComplete(xs: seq<Sys>, ls: seq<Label>)
    requires IsRun(xs, ls)
    ensures
      var h := xs[|ls|].h;
      && InboundTimersOk(h.inbound, h.inboundTimers) && OutboundTimersOk(h.outbound, h.outboundTimers)
      && |h.inbound| <= MAX_INBOUND_SUBSTREAMS
      && (forall s :: s in h.inbound ==> !h.inbound[s].state.PoisonedInbound?)
      && (forall k :: k in h.outbound ==> !h.outbound[k].state.PoisonedOutbound?)
  {
    hide Next, Possible, ExchangesOk, StreamsOk, Conserved, Delivered, CausesOk, DialsOk;
    RunKeepsInv(xs, ls);
  }

  // ---- Reachable states ----

  ghost predicate Reachable(x: Sys) {
    exists xs, ls :: IsRun(xs, ls) && xs[|ls|] == x
  }

  lemma StartReachable()
    ensures Reachable(Start)
  {
    assert IsRun([Start], []);
  }

  lemma StepReaches(x: Sys, l: Label)
    requires Reachable(x) && Possible(x, l)
    ensures Reachable(Next(x, l))
  {
    hide Next, Possible;
    var xs, ls :| IsRun(xs, ls) && xs[|ls|] == x;
    var xs', ls' := xs + [Next(x, l)], ls + [l];
    forall i | 0 <= i < |ls'|
      ensures Possible(xs'[i], ls'[i]) && xs'[i + 1] == Next(xs'[i], ls'[i])
    {
      if i < |ls| { assert xs'[i] == xs[i] && xs'[i + 1] == xs[i + 1]; }
    }
    assert IsRun(xs', ls');
  }

  lemma ReachableInv(x: Sys)
    requires Reachable(x)
    ensures Inv(x)
  {
    hide Inv, Next, Possible;
    var xs, ls :| IsRun(xs, ls) && xs[|ls|] == x;
    RunKeepsInv(xs, ls);
  }

  /** An active handler with one request queued, so many dials retried and none under way. */
  predicate Waiting(x: Sys, entry: Entry, n: nat, ioRetries: nat) {
    && x.h.state.Active? && x.h.dialQueue == [entry] && x.h.dialNegotiated == n && x.retried == n
    && x.h.ioRetries == ioRetries && x.dialing == multiset{}
  }

  /** The same with the request being dialed. */
  predicate Asking(x: Sys, entry: Entry, n: nat, ioRetries: nat) {
    && x.h.state.Active? && x.h.dialQueue == [] && x.h.dialNegotiated == n + 1 && x.retried == n
    && x.h.ioRetries == ioRetries && x.dialing == multiset{entry}
  }

  lemma DialOnce(x: Sys, entry: Entry, n: nat, ioRetries: nat) returns (x': Sys)
    requires Reachable(x) && Waiting(x, entry, n, ioRetries) && n < MAX_DIAL_NEGOTIATED
    ensures Reachable(x') && Asking(x', entry, n, ioRetries)
  {
    hide Reachable, NextExchanges;
    StepReaches(x, StartDial);
    x' := Next(x, StartDial);
  }

  /** An I/O error leaves the dial counted and queues the request again. */
  lemma RetryOnce(x: Sys, entry: Entry, n: nat, ioRetries: nat) returns (x': Sys)
    requires Reachable(x) && Waiting(x, entry, n, ioRetries) && n < MAX_DIAL_NEGOTIATED
    requires ioRetries + 1 < IO_ERROR_RETRIES
    ensures Reachable(x') && Waiting(x', entry, n + 1, ioRetries + 1)
  {
    hide Reachable, NextExchanges;
    var mid := DialOnce(x, entry, n, ioRetries);
    var l := DialFailed(entry, true, IoError(0));
    StepReaches(mid, l);
    x' := Next(mid, l);
    assert [] + [entry] == [entry];
  }

  /** Any other error gives the slot back and starts the count of retries again; a new request follows. */
  lemma FailOnce(x: Sys, entry: Entry, n: nat, ioRetries: nat) returns (x': Sys)
    requires Reachable(x) && Waiting(x, entry, n, ioRetries) && n < MAX_DIAL_NEGOTIATED
    ensures Reachable(x') && Waiting(x', entry, n, 0)
  {
    hide Reachable, NextExchanges, Events;
    var asking := DialOnce(x, entry, n, ioRetries);
    var l := DialFailed(entry, false, UnsupportedProtocol);
    StepReaches(asking, l);
    var failed := Next(asking, l);
    assert failed.h.dialNegotiated == n && failed.h.dialQueue == [] && failed.dialing == multiset{};
    StepReaches(failed, SendRequest(entry));
    x' := Next(failed, SendRequest(entry));
    assert [] + [entry] == [entry];
  }

  /** Every number of retries up to the limit happens on some run. */
  lemma {:induction false} RetriesReachable(entry: Entry, n: nat) returns (x: Sys, ioRetries: nat)
    requires n <= MAX_DIAL_NEGOTIATED
    ensures Reachable(x) && Waiting(x, entry, n, ioRetries) && ioRetries < IO_ERROR_RETRIES
  {
    hide Reachable;
    if n == 0 {
      StartReachable();
      StepReaches(Start, SendRequest(entry));
      x, ioRetries := Next(Start, SendRequest(entry)), 0;
      assert [] + [entry] == [entry];
    } else {
      x, ioRetries := RetriesReachable(entry, n - 1);
      if ioRetries + 1 == IO_ERROR_RETRIES {
        x := FailOnce(x, entry, n - 1, ioRetries);
        ioRetries := 0;
      }
      x := RetryOnce(x, entry, n - 1, ioRetries);
      ioRetries := ioRetries + 1;
    }
  }

  /** A run ends with a queued request, no dial under way, and dialing stopped for good. */
  lemma LockoutReachable(entry: Entry) returns (x: Sys)
    ensures Reachable(x) && x.retried == MAX_DIAL_NEGOTIATED && x.dialing == multiset{}
    ensures x.h.dialQueue == [entry] && !Enabled(x.h, StartDial)
  {
    hide Reachable;
    var ioRetries;
    x, ioRetries := RetriesReachable(entry, MAX_DIAL_NEGOTIATED);
  }

  // ---- Handlers on their own ----

  /** Some run ends in this handler state, with these dials under way and these events queued. */
  ghost predicate Sane(h: Handler, dialing: multiset<Entry>, queued: seq<Emission>) {
    exists x :: Reachable(x) && x.h == h && x.dialing == dialing && x.queued == queued
  }

  predicate IsDialAnswer(l: Label) { l.OutboundOpened? || l.DialFailed? }

  /** The dials under way after a step. */
  function DialingAfter(h: Handler, dialing: multiset<Entry>, l: Label): multiset<Entry>
    requires Enabled(h, l)
  {
    if l.StartDial? then dialing + multiset{h.dialQueue[0]}
    else if IsDialAnswer(l) then dialing - multiset{l.entry}
    else dialing
  }

  lemma StepKeepsSane(h: Handler, dialing: multiset<Entry>, queued: seq<Emission>, l: Label)
    requires Sane(h, dialing, queued) && Enabled(h, l) && (IsDialAnswer(l) ==> l.entry in dialing)
    requires InOrder(h, queued, l)
    ensures Sane(Step(h, l).next, DialingAfter(h, dialing, l), NextQueued(queued, l, Step(h, l)))
  {
    hide Reachable, Step, InOrder, NextQueued, NextExchanges;
    var x :| Reachable(x) && x.h == h && x.dialing == dialing && x.queued == queued;
    StepReaches(x, l);
    var x' := Next(x, l);
    assert x'.h == Step(h, l).next && x'.dialing == DialingAfter(h, dialing, l);
    assert x'.queued == NextQueued(queued, l, Step(h, l));
  }

  lemma SaneStart()
    ensures Sane(NewHandler, multiset{}, [])
  {
    hide Reachable;
    StartReachable();
    assert Reachable(Start);
  }

  lemma SaneBooks(h: Handler, dialing: multiset<Entry>, queued: seq<Emission>)
    requires Sane(h, dialing, queued)
    ensures InboundTimersOk(h.inbound, h.inboundTimers) && OutboundTimersOk(h.outbound, h.outboundTimers)
    ensures forall s :: s in h.inbound ==> !h.inbound[s].state.PoisonedInbound?
    ensures forall k :: k in h.outbound ==> !h.outbound[k].state.PoisonedOutbound?
  {
    hide Reachable, ExchangesOk, StreamsOk, Conserved, Delivered, CausesOk, DialsOk;
    var x :| Reachable(x) && x.h == h && x.dialing == dialing && x.queued == queued;
    ReachableInv(x);
  }

  /** The handler's queue holds exactly the queued events. */
  lemma SaneQueue(h: Handler, dialing: multiset<Entry>, queued: seq<Emission>)
    requires Sane(h, dialing, queued)
    ensures Events(queued) == h.eventsOut && (h.eventsOut == [] ==> queued == [])
  {
    hide Reachable, InSide, OutSide, Conserved, CausesOk, DialsOk, FailedOf, LogOf;
    var x :| Reachable(x) && x.h == h && x.dialing == dialing && x.queued == queued;
    ReachableInv(x);
    assert |Events(queued)| == |queued|;
  }

  /** With a dial under way the dial count is positive. */
  lemma SaneDials(h: Handler, dialing: multiset<Entry>, queued: seq<Emission>)
    requires Sane(h, dialing, queued)
    ensures |dialing| <= h.dialNegotiated <= MAX_DIAL_NEGOTIATED
  {
    hide Inv, Reachable;
    var x :| Reachable(x) && x.h == h && x.dialing == dialing && x.queued == queued;
    ReachableInv(x);
    InvDials(x);
  }
}
