/** src/rpc/handler.rs, `poll`: which steps one call takes, in terms of what the substreams answer. */
module RpcPolls {
  import opened Common
  import opened DelayQueues
  import opened RpcSteps
  import opened RpcRuns

  datatype SendPoll = StillSending | SendDone(sendErr: Option<RpcError>, closeErr: Option<RpcError>)

  datatype ClosePoll = StillClosing | CloseDone(closeErr: Option<RpcError>)

  datatype ReadPoll = NothingToRead | ReadChunk(chunk: Chunk) | ReadEnd | ReadError(error: RpcError)

  /**
   * What the substreams answer during one call to `poll`: how the send in progress with so many
   * messages behind it fares, whether an idle substream closes, what an outbound substream yields,
   * and whether a closing one is closed.
   */
  datatype PollIo = PollIo(
    now: Instant,
    send: (SubstreamId, nat) -> SendPoll,
    closeIdle: SubstreamId -> ClosePoll,
    read: SubstreamId -> ReadPoll,
    isClosed: SubstreamId -> bool)

  /** The response decoder yields successes and errors only. */
  ghost predicate CodecOk(io: PollIo) {
    forall k :: io.read(k).ReadChunk? ==> !io.read(k).chunk.StreamTermination?
  }

  /** The step is one of those `poll` takes, and for the reason given by the clock or the substream. */
  ghost predicate Takes(h: Handler, io: PollIo, l: Label) {
    && Enabled(h, l)
    && match l
       case ShutdownExpired => h.state.until <= io.now
       case InboundExpired(key) => h.inboundTimers[key].deadline <= io.now
       case OutboundExpired(key) => h.outboundTimers[key].deadline <= io.now
       case FinishSend(s, sendErr, closeErr, now) =>
         now == io.now && io.send(s, |h.inbound[s].pending|) == SendDone(sendErr, closeErr)
       case CloseIdle(s, closeErr) => io.closeIdle(s) == CloseDone(closeErr)
       case StreamChunk(k, chunk, now) => now == io.now && io.read(k) == ReadChunk(chunk)
       case StreamEnded(k) => io.read(k).ReadEnd?
       case StreamFailed(k, error) => io.read(k) == ReadError(error)
       case StreamClosed(k) => io.isClosed(k)
       case _ => l.TakeEvent? || l.StartSend? || l.StreamDeactivated? || l.StartDial? || l.CloseGracefully?
  }

  // ---- Steps without output ----

  /** The handler after steps that return nothing to the swarm, if each can be taken. */
  ghost function Quietly(h: Handler, io: PollIo, ls: seq<Label>): Option<Handler>
    decreases |ls|
  {
    if ls == [] then Some(h)
    else
      var mid := Quietly(h, io, ls[..|ls| - 1]);
      var l := ls[|ls| - 1];
      if mid.Some? && Takes(mid.value, io, l) && Step(mid.value, l).out.Nothing?
      then Some(Step(mid.value, l).next) else None
  }

  /** The events those steps queue. */
  ghost function Emitted(h: Handler, io: PollIo, ls: seq<Label>): seq<Emission>
    requires Quietly(h, io, ls).Some?
    decreases |ls|
  {
    if ls == [] then []
    else
      var n := |ls| - 1;
      Emitted(h, io, ls[..n]) + Step(Quietly(h, io, ls[..n]).value, ls[n]).emits
  }

  lemma NoStepsYet(h: Handler, io: PollIo)
    ensures Quietly(h, io, []) == Some(h) && Emitted(h, io, []) == []
  {
  }

  lemma QuietlyMore(h: Handler, io: PollIo, ls: seq<Label>, mid: Handler, l: Label)
    requires Quietly(h, io, ls) == Some(mid) && Takes(mid, io, l) && Step(mid, l).out.Nothing?
    ensures Quietly(h, io, ls + [l]) == Some(Step(mid, l).next)
  {
    hide Step, Takes;
    assert (ls + [l])[..|ls|] == ls;
  }

  lemma {:induction false} QuietlyBoth(h: Handler, io: PollIo, ls: seq<Label>, mid: Handler, ls': seq<Label>)
    requires Quietly(h, io, ls) == Some(mid)
    ensures Quietly(h, io, ls + ls') == Quietly(mid, io, ls')
    ensures Quietly(mid, io, ls').Some? ==> Emitted(h, io, ls + ls') == Emitted(h, io, ls) + Emitted(mid, io, ls')
    decreases |ls'|
  {
    hide Step, Takes;
    if ls' == [] {
      assert ls + ls' == ls;
    } else {
      var n := |ls'| - 1;
      assert (ls + ls')[..|ls + ls'| - 1] == ls + ls'[..n];
      QuietlyBoth(h, io, ls, mid, ls'[..n]);
    }
  }

  lemma TakenIsNoAnswer(h: Handler, io: PollIo, l: Label)
    requires Takes(h, io, l)
    ensures !IsDialAnswer(l)
  {
  }

  lemma QuietStep(h: Handler, l: Label)
    requires Enabled(h, l) && Step(h, l).out.Nothing?
    ensures !l.StartDial? && !l.TakeEvent? && DirectStream(h, l).None?
  {
    hide DirectStream, Events, Flushed;
    if !l.TakeEvent? { DirectIff(h, l); }
  }

  lemma {:induction false} QuietlySane(h: Handler, dialing: multiset<Entry>, queued: seq<Emission>, io: PollIo,
                                       ls: seq<Label>)
    requires Sane(h, dialing, queued) && Quietly(h, io, ls).Some?
    ensures Sane(Quietly(h, io, ls).value, dialing, queued + Emitted(h, io, ls))
    decreases |ls|
  {
    hide Sane, Takes, Step, DirectStream;
    if ls == [] {
      assert queued + [] == queued;
    } else {
      var n := |ls| - 1;
      var mid, l := Quietly(h, io, ls[..n]).value, ls[n];
      QuietlySane(h, dialing, queued, io, ls[..n]);
      TakenIsNoAnswer(mid, io, l);
      EnabledOf(mid, io, l);
      QuietStep(mid, l);
      StepKeepsSane(mid, dialing, queued + Emitted(h, io, ls[..n]), l);
      assert queued + Emitted(h, io, ls[..n]) + Step(mid, l).emits == queued + Emitted(h, io, ls);
    }
  }

  lemma EnabledOf(h: Handler, io: PollIo, l: Label)
    requires Takes(h, io, l)
    ensures Enabled(h, l)
  {
  }

  // ---- One call ----

  /** Nothing happened, or the step `last` with output `out`. */
  ghost predicate Took(h: Handler, io: PollIo, last: Option<Label>, h': Handler, out: Output) {
    if last.None? then h' == h && out.Nothing?
    else Takes(h, io, last.value) && Step(h, last.value).next == h' && Step(h, last.value).out == out
  }

  /** One call to `poll`: steps without output and then at most one step that returns something. */
  ghost predicate Polled(h: Handler, io: PollIo, quiet: seq<Label>, last: Option<Label>, h': Handler, out: Output) {
    Quietly(h, io, quiet).Some? && Took(Quietly(h, io, quiet).value, io, last, h', out)
  }

  /** The last step returns no event past a queued one of the same substream. */
  ghost predicate Orderly(h: Handler, queued: seq<Emission>, io: PollIo, quiet: seq<Label>, last: Option<Label>) {
    Quietly(h, io, quiet).Some? && last.Some? ==>
      InOrder(Quietly(h, io, quiet).value, queued + Emitted(h, io, quiet), last.value)
  }

  /** The dials under way after a call to `poll`. */
  function DialingWith(dialing: multiset<Entry>, out: Output): multiset<Entry> {
    if out.OpenSubstream? then dialing + multiset{out.entry} else dialing
  }

  /** The queued events after it. */
  ghost function QueuedWith(h: Handler, queued: seq<Emission>, io: PollIo, quiet: seq<Label>, last: Option<Label>)
    : seq<Emission>
    requires Quietly(h, io, quiet).Some?
  {
    var q, mid := queued + Emitted(h, io, quiet), Quietly(h, io, quiet).value;
    if last.None? || !Enabled(mid, last.value) then q else NextQueued(q, last.value, Step(mid, last.value))
  }

  lemma PolledEnabled(h: Handler, io: PollIo, quiet: seq<Label>, last: Option<Label>, h': Handler, out: Output)
    requires Polled(h, io, quiet, last, h', out)
    ensures Quietly(h, io, quiet).Some? && (last.Some? ==> Enabled(Quietly(h, io, quiet).value, last.value))
  {
    hide Step, Quietly;
  }

  lemma PolledSane(h: Handler, dialing: multiset<Entry>, queued: seq<Emission>, io: PollIo, quiet: seq<Label>,
                   last: Option<Label>, h': Handler, out: Output)
    requires Sane(h, dialing, queued) && Polled(h, io, quiet, last, h', out) && Orderly(h, queued, io, quiet, last)
    ensures Quietly(h, io, quiet).Some? && (last.Some? ==> Enabled(Quietly(h, io, quiet).value, last.value))
    ensures Sane(h', DialingWith(dialing, out), QueuedWith(h, queued, io, quiet, last))
  {
    hide Step, Sane, Quietly, Emitted, Takes, InOrder, NextQueued;
    PolledEnabled(h, io, quiet, last, h', out);
    QuietlySane(h, dialing, queued, io, quiet);
    if last.Some? {
      var mid := Quietly(h, io, quiet).value;
      TakenIsNoAnswer(mid, io, last.value);
      StepKeepsSane(mid, dialing, queued + Emitted(h, io, quiet), last.value);
      OnlyDialsOpen(mid, last.value);
    }
  }

  /** A substream is asked for exactly by starting a dial. */
  lemma OnlyDialsOpen(h: Handler, l: Label)
    requires Enabled(h, l)
    ensures Step(h, l).out.OpenSubstream? <==> l.StartDial?
    ensures l.StartDial? ==> Step(h, l).out == OpenSubstream(h.dialQueue[0])
  {
    hide Events, Flushed, TimeoutChunk, EndsOpen, SendResult, InboundReset, ChunkEvent, Left, IsBlocks, Full, Drained,
      Failure;
  }

  lemma NothingTaken(h: Handler, io: PollIo, last: Option<Label>, h': Handler, out: Output)
    requires Took(h, io, last, h', out) && last.None?
    ensures h' == h
  {
  }

  lemma OneStep(h: Handler, io: PollIo, last: Option<Label>, h': Handler, out: Output)
    requires Took(h, io, last, h', out)
    ensures Polled(h, io, [], last, h', out)
  {
    hide Took;
  }

  lemma TookAfter(h: Handler, io: PollIo, quiet: seq<Label>, mid: Handler, last: Option<Label>, h': Handler,
                  out: Output)
    requires Quietly(h, io, quiet) == Some(mid) && Took(mid, io, last, h', out)
    ensures Polled(h, io, quiet, last, h', out)
  {
    hide Took, Quietly;
  }

  lemma PolledAfter(h: Handler, io: PollIo, quiet: seq<Label>, mid: Handler, ls: seq<Label>, last: Option<Label>,
                    h': Handler, out: Output)
    requires Quietly(h, io, quiet) == Some(mid) && Polled(mid, io, ls, last, h', out)
    ensures Polled(h, io, quiet + ls, last, h', out)
  {
    hide Took, Quietly, Emitted;
    QuietlyBoth(h, io, quiet, mid, ls);
  }

  lemma PolledQuietly(h: Handler, io: PollIo, quiet: seq<Label>, h': Handler)
    requires Polled(h, io, quiet, None, h', Nothing)
    ensures Quietly(h, io, quiet) == Some(h')
  {
    hide Quietly;
  }

  // ---- No event overtakes another of its substream ----

  ghost predicate AllInbound(ls: seq<Label>) { forall i :: 0 <= i < |ls| ==> IsInboundLabel(ls[i]) }

  predicate IsStreamLabel(l: Label) {
    l.StreamChunk? || l.StreamEnded? || l.StreamFailed? || l.StreamDeactivated? || l.StreamClosed?
  }

  /** The steps are about the substreams in `visited`. */
  ghost predicate OnStreams(ls: seq<Label>, visited: set<SubstreamId>) {
    forall i :: 0 <= i < |ls| ==> IsStreamLabel(ls[i]) && ls[i].k in visited
  }

  /** Driving the inbound side queues nothing about outbound substreams. */
  lemma {:induction false} EmittedInbound(h: Handler, io: PollIo, ls: seq<Label>, k: SubstreamId)
    requires Quietly(h, io, ls).Some? && AllInbound(ls)
    ensures NotFrom(Emitted(h, io, ls), k)
    decreases |ls|
  {
    hide Step, Takes, SameOutbound;
    if ls != [] {
      var n := |ls| - 1;
      EmittedInbound(h, io, ls[..n], k);
      EnabledOf(Quietly(h, io, ls[..n]).value, io, ls[n]);
      InboundLabelsKeepOutbound(Quietly(h, io, ls[..n]).value, ls[n]);
      NotFromBoth(Emitted(h, io, ls[..n]), Step(Quietly(h, io, ls[..n]).value, ls[n]).emits, k);
    }
  }

  lemma StreamStepEmits(h: Handler, l: Label, k: SubstreamId)
    requires Enabled(h, l) && IsStreamLabel(l) && l.k != k
    ensures NotFrom(Step(h, l).emits, k)
  {
    hide Events, ChunkEvent, Left;
  }

  /** Driving other outbound substreams queues nothing about this one. */
  lemma {:induction false} EmittedStreams(h: Handler, io: PollIo, ls: seq<Label>, visited: set<SubstreamId>,
                                          k: SubstreamId)
    requires Quietly(h, io, ls).Some? && OnStreams(ls, visited) && k !in visited
    ensures NotFrom(Emitted(h, io, ls), k)
    decreases |ls|
  {
    hide Step, Takes;
    if ls != [] {
      var n := |ls| - 1;
      EmittedStreams(h, io, ls[..n], visited, k);
      EnabledOf(Quietly(h, io, ls[..n]).value, io, ls[n]);
      StreamStepEmits(Quietly(h, io, ls[..n]).value, ls[n], k);
    }
  }

  lemma InboundOrderly(h: Handler, io: PollIo, quiet: seq<Label>, last: Option<Label>)
    requires AllInbound(quiet)
    ensures Orderly(h, [], io, quiet, last)
  {
    hide Quietly, Emitted, DirectStream, NotFrom, AllInbound;
    if Quietly(h, io, quiet).Some? && last.Some? && DirectStream(Quietly(h, io, quiet).value, last.value).Some? {
      EmittedInbound(h, io, quiet, DirectStream(Quietly(h, io, quiet).value, last.value).value);
      assert [] + Emitted(h, io, quiet) == Emitted(h, io, quiet);
    }
  }

  /** The inbound side and some outbound substreams were driven; the last step is about another one. */
  lemma StreamOrderly(h: Handler, io: PollIo, quiet: seq<Label>, mid: Handler, ls: seq<Label>,
                      visited: set<SubstreamId>, last: Option<Label>)
    requires Quietly(h, io, quiet) == Some(mid) && AllInbound(quiet)
    requires Quietly(mid, io, ls).Some? && OnStreams(ls, visited)
    requires last.Some? ==> IsStreamLabel(last.value) && last.value.k !in visited
    ensures Orderly(h, [], io, quiet + ls, last)
  {
    hide Quietly, Emitted, AllInbound, OnStreams;
    QuietlyBoth(h, io, quiet, mid, ls);
    if last.Some? {
      var k := last.value.k;
      EmittedInbound(h, io, quiet, k);
      EmittedStreams(mid, io, ls, visited, k);
      NotFromBoth(Emitted(h, io, quiet), Emitted(mid, io, ls), k);
      assert [] + Emitted(h, io, quiet + ls) == Emitted(h, io, quiet + ls);
    }
  }

  lemma IndirectOrderly(h: Handler, queued: seq<Emission>, io: PollIo, quiet: seq<Label>, last: Option<Label>)
    requires last.Some? ==>
               || last.value.TakeEvent? || last.value.ShutdownExpired?
               || last.value.StartDial? || last.value.CloseGracefully?
    ensures Orderly(h, queued, io, quiet, last)
  {
    hide Quietly, Emitted;
  }

  // ---- Progress ----

  /** The first part of `poll`. */
  function ReportTurn(h: Handler, now: Instant): Option<Label> {
    if h.eventsOut != [] then Some(TakeEvent)
    else if h.state.ShuttingDown? && h.state.until <= now then Some(ShutdownExpired)
    else None
  }

  /** The one step an outbound substream takes when it is driven. */
  function OutboundTurn(h: Handler, k: SubstreamId, io: PollIo): Option<Label>
    requires k in h.outbound
  {
    match h.outbound[k].state
    case Pending(_) =>
      if h.state.Deactivated? then Some(StreamDeactivated(k))
      else
        (match io.read(k)
         case NothingToRead => None
         case ReadChunk(chunk) => Some(StreamChunk(k, chunk, io.now))
         case ReadEnd => Some(StreamEnded(k))
         case ReadError(error) => Some(StreamFailed(k, error)))
    case Closing => if io.isClosed(k) then Some(StreamClosed(k)) else None
    case PoisonedOutbound => None
  }

  /** The end of `poll`. */
  function DialTurn(h: Handler): Option<Label> {
    if h.dialQueue != [] && h.dialNegotiated < MAX_DIAL_NEGOTIATED then Some(StartDial)
    else if h.state.ShuttingDown? && Drained(h) then Some(CloseGracefully)
    else None
  }

  predicate NoneExpired(timers: DelayQueue<SubstreamId>, now: Instant) {
    forall key :: key in timers ==> timers[key].deadline > now
  }

  /**
   * An inbound substream that has been driven: its send is still going on, or it has nothing to send;
   * on a deactivated handler it is still closing, unless its last send was only just done.
   */
  predicate SettledInbound(s: SubstreamId, info: InboundInfo, io: PollIo, deactivated: bool, wasBusy: bool) {
    match info.state
    case Busy(_, _) => io.send(s, |info.pending|).StillSending?
    case Idle => if deactivated then wasBusy || io.closeIdle(s).StillClosing? else info.pending == []
    case PoisonedInbound => false
  }

  /** An outbound substream that has been driven: there is nothing to read, or it is still closing. */
  predicate SettledOutbound(k: SubstreamId, info: OutboundInfo, io: PollIo, deactivated: bool, wasPending: bool) {
    match info.state
    case Pending(_) => !deactivated && io.read(k).NothingToRead?
    case Closing => !io.isClosed(k) || (deactivated && wasPending)
    case PoisonedOutbound => false
  }

  ghost predicate InboundSettled(h0: Handler, h: Handler, io: PollIo) {
    forall s :: s in h.inbound ==>
      s in h0.inbound && SettledInbound(s, h.inbound[s], io, h.state.Deactivated?, h0.inbound[s].state.Busy?)
  }

  ghost predicate OutboundSettled(h0: Handler, h: Handler, io: PollIo) {
    forall k :: k in h.outbound ==>
      k in h0.outbound && SettledOutbound(k, h.outbound[k], io, h.state.Deactivated?, h0.outbound[k].state.Pending?)
  }

  /**
   * How far a call gets once its queue is empty and no shutdown timer has run out. All inbound
   * timeouts are handled. Unless an outbound timeout is returned, there is none, and every inbound
   * substream has been driven as far as it goes. Unless an outbound substream has something to
   * report, all of them have been driven. If nothing is returned, there is nothing to dial and no
   * reason to close.
   */
  ghost predicate Progress(h0: Handler, h: Handler, io: PollIo, last: Option<Label>) {
    && NoneExpired(h.inboundTimers, io.now)
    && ((last.Some? && last.value.OutboundExpired?)
        || (NoneExpired(h.outboundTimers, io.now) && InboundSettled(h0, h, io)))
    && ((last.Some? && (last.value.OutboundExpired? || IsStreamLabel(last.value))) || OutboundSettled(h0, h, io))
    && (last.None? ==> DialTurn(h).None?)
  }
}
