/**
 * src/rpc/handler.rs: what the application is told about each inbound request, computed from what has
 * happened to it, and how long its substream stays in the books.
 */
module RpcReplies {
  import opened Common
  import opened DelayQueues
  import opened RpcSteps
  import opened RpcRuns
  import opened RpcFailures

  /** What can happen to an inbound request. */
  datatype News =
    | Arrived(request: Request, at: Instant)
    | Refused(request: Request)
    | Answered(chunk: Chunk)
    | RanOut
    | Sent(message: Chunk, sendErr: Option<RpcError>, closeErr: Option<RpcError>, at: Instant)
    | Dropped(closeErr: Option<RpcError>, unfinished: bool)

  /** What the step means for inbound request `s`. */
  function NewsOf(h: Handler, l: Label, s: SubstreamId): seq<News> {
    match l
    case InboundOpened(request, _, now) =>
      if !h.state.Active? || s != h.nextInbound then []
      else if request.Expected() > 0 && |h.inbound| >= 32 then [Refused(request)]
      else [Arrived(request, now)]
    case SendResponse(r, chunk) => if r == s && s in h.inbound then [Answered(chunk)] else []
    case InboundExpired(key) =>
      if key in h.inboundTimers && h.inboundTimers[key].item == s && s in h.inbound then [RanOut] else []
    case FinishSend(r, sendErr, closeErr, now) =>
      if r == s && s in h.inbound && h.inbound[s].state.Busy?
      then [Sent(h.inbound[s].state.message, sendErr, closeErr, now)] else []
    case CloseIdle(r, closeErr) =>
      if r == s && s in h.inbound
      then [Dropped(closeErr, h.inbound[s].pending != [] && h.inbound[s].pending[|h.inbound[s].pending| - 1].Success?)]
      else []
    case _ => []
  }

  ghost function History(xs: seq<Sys>, ls: seq<Label>, s: SubstreamId): seq<News>
    requires |xs| == |ls| + 1
    decreases |ls|
  {
    if ls == [] then []
    else
      var n := |ls| - 1;
      History(xs[..n + 1], ls[..n], s) + NewsOf(xs[n].h, ls[n], s)
  }

  /** The chunks put on the wire so far. */
  function Sends(history: seq<News>): nat
    decreases |history|
  {
    if history == [] then 0
    else Sends(history[..|history| - 1]) + if history[|history| - 1].Sent? then 1 else 0
  }

  function RequestOf(history: seq<News>): Request {
    if history != [] && history[0].Arrived? then history[0].request else GoodbyeRequest
  }

  /** The error a completed send reports: the send's own before that of the close, which only a last chunk has. */
  function SendError(history: seq<News>, news: News): Option<RpcError>
    requires news.Sent?
  {
    if news.message.StreamTermination? then news.closeErr
    else if news.sendErr.Some? then news.sendErr
    else if news.message.Error? || Sends(history) + 1 == RequestOf(history).Expected() then news.closeErr
    else None
  }

  function Complaint(s: SubstreamId, history: seq<News>, error: Option<RpcError>): seq<Event> {
    if error.None? then [] else [InboundErr(s, RequestOf(history).Protocol(), error.value)]
  }

  /** What the application is to be told when that happens after `history`. */
  function Told(s: SubstreamId, history: seq<News>, news: News): seq<Event> {
    match news
    case Arrived(request, _) => [Received(s, request)]
    case Refused(request) => [InboundErr(s, request.Protocol(), HandlerRejected)]
    case Answered(chunk) => Complaint(s, history, if chunk.Error? then Some(ErrorResponse(chunk.code)) else None)
    case RanOut => Complaint(s, history, Some(StreamTimeout))
    case Sent(_, _, _, _) => Complaint(s, history, SendError(history, news))
    case Dropped(closeErr, unfinished) =>
      Complaint(s, history, closeErr) + Complaint(s, history, if unfinished then Some(Disconnected) else None)
  }

  function AllTold(s: SubstreamId, history: seq<News>): seq<Event>
    decreases |history|
  {
    if history == [] then []
    else
      var n := |history| - 1;
      AllTold(s, history[..n]) + Told(s, history[..n], history[n])
  }

  // ---- How long a request is served ----

  /** The news leaves the substream open. */
  predicate KeepsOpen(news: News) {
    !news.Refused? && !news.Dropped? && (news.Sent? ==> news.message.Success? && news.sendErr.None?)
  }

  /** The request has come, nothing has closed its substream, and responses are still expected. */
  ghost predicate Serving(history: seq<News>) {
    && history != [] && history[0].Arrived?
    && (forall i :: 0 <= i < |history| ==> KeepsOpen(history[i]))
    && Sends(history) < RequestOf(history).Expected()
  }

  predicate RanOutBefore(history: seq<News>) { exists i :: 0 <= i < |history| && history[i].RanOut? }

  /** The time of the last chunk sent, or of the arrival. */
  function LastActive(history: seq<News>): Instant
    decreases |history|
  {
    if history == [] then 0
    else
      var last := history[|history| - 1];
      if last.Arrived? || last.Sent? then last.at else LastActive(history[..|history| - 1])
  }

  /** What is recorded of a served request agrees with its history. */
  ghost predicate Recorded(h: Handler, s: SubstreamId, history: seq<News>)
    requires s in h.inbound
  {
    var info := h.inbound[s];
    && info.protocol == RequestOf(history).Protocol()
    && info.remaining + Sends(history) == RequestOf(history).Expected()
    && (info.delayKey.Some? <==> !RanOutBefore(history))
    && (info.delayKey.Some? ==>
          && info.delayKey.value in h.inboundTimers
          && h.inboundTimers[info.delayKey.value] == Timer(s, LastActive(history) + 10 * NANOS_PER_SEC))
  }

  ghost predicate Stands(h: Handler, s: SubstreamId, history: seq<News>) {
    && (s in h.inbound <==> Serving(history))
    && (s in h.inbound ==> Recorded(h, s, history))
    && (s < h.nextInbound ==> history != [] && history[0].Arrived?)
    && (s >= h.nextInbound ==> s !in h.inbound && (history == [] || !h.state.Active?))
  }

  lemma MoreNews(history: seq<News>, news: News)
    requires history != []
    ensures Sends(history + [news]) == Sends(history) + if news.Sent? then 1 else 0
    ensures RequestOf(history + [news]) == RequestOf(history)
    ensures RanOutBefore(history + [news]) <==> RanOutBefore(history) || news.RanOut?
    ensures LastActive(history + [news]) == if news.Arrived? || news.Sent? then news.at else LastActive(history)
  {
    var all := history + [news];
    assert all[..|history|] == history && all[|history|] == news;
    if RanOutBefore(history) {
      var i :| 0 <= i < |history| && history[i].RanOut?;
      assert all[i].RanOut?;
    }
    if RanOutBefore(all) {
      var i :| 0 <= i < |all| && all[i].RanOut?;
      if i < |history| { assert history[i].RanOut?; }
    }
  }

  lemma ServedLonger(history: seq<News>, news: News)
    requires history != []
    ensures Serving(history + [news]) <==>
            && history[0].Arrived? && (forall i :: 0 <= i < |history| ==> KeepsOpen(history[i])) && KeepsOpen(news)
            && Sends(history) + (if news.Sent? then 1 else 0) < RequestOf(history).Expected()
  {
    hide RanOutBefore, LastActive;
    var all := history + [news];
    MoreNews(history, news);
    assert all[|history|] == news;
    if forall i :: 0 <= i < |all| ==> KeepsOpen(all[i]) {
      forall i | 0 <= i < |history|
        ensures KeepsOpen(history[i])
      {
        assert all[i] == history[i];
      }
    }
  }

  // ---- Steps without news ----

  /** The substream keeps its record, except for its queue, and its timer. */
  predicate SameRecord(h: Handler, h': Handler, s: SubstreamId) {
    && (s in h'.inbound <==> s in h.inbound)
    && (s in h.inbound ==>
          && h'.inbound[s].protocol == h.inbound[s].protocol && h'.inbound[s].remaining == h.inbound[s].remaining
          && h'.inbound[s].delayKey == h.inbound[s].delayKey
          && (h.inbound[s].delayKey.Some? ==>
                Lookup(h'.inboundTimers, h.inbound[s].delayKey.value)
                == Lookup(h.inboundTimers, h.inbound[s].delayKey.value)))
  }

  lemma SameStands(h: Handler, h': Handler, s: SubstreamId, history: seq<News>)
    requires Stands(h, s, history) && SameRecord(h, h', s)
    requires h.nextInbound == h'.nextInbound || (s != h.nextInbound && h'.nextInbound == h.nextInbound + 1)
    requires h'.state.Active? ==> h.state.Active?
    ensures Stands(h', s, history + [])
  {
    hide Serving, RanOutBefore, LastActive;
    assert history + [] == history;
  }

  /** Labels that are not about inbound requests touch none and say nothing of any. */
  lemma OutsideLabels(h: Handler, l: Label, s: SubstreamId)
    requires Enabled(h, l) && !IsInboundLabel(l)
    ensures SameInbound(h, Step(h, l).next) && NotAbout(Step(h, l).emits, OfInbound(s))
    ensures Step(h, l).next.state.Active? ==> h.state.Active?
  {
    hide Step, SameInbound, NotAbout;
    if IsOutboundLabel(l) {
      OutboundLabelsKeepInbound(h, l);
      OutboundLabelsSilent(h, l, s);
    } else {
      DialLabelsKeepInbound(h, l);
      DialLabelsSilent(h, l, s);
    }
  }

  lemma OutboundLabelsSilent(h: Handler, l: Label, s: SubstreamId)
    requires Enabled(h, l) && IsOutboundLabel(l)
    ensures NotAbout(Step(h, l).emits, OfInbound(s)) && (Step(h, l).next.state.Active? ==> h.state.Active?)
  {
    hide Events, ChunkEvent, IsBlocks, Left, Failure;
  }

  lemma DialLabelsSilent(h: Handler, l: Label, s: SubstreamId)
    requires Enabled(h, l) && !IsInboundLabel(l) && !IsOutboundLabel(l)
    ensures NotAbout(Step(h, l).emits, OfInbound(s)) && (Step(h, l).next.state.Active? ==> h.state.Active?)
  {
    hide Events, Flushed, Drained;
    if l.Shutdown? { FlushedCauses(h.dialQueue); }
  }

  /** Inbound steps of other requests. */
  lemma OthersUntouched(h: Handler, l: Label, s: SubstreamId)
    requires Enabled(h, l) && IsInboundLabel(l) && !l.InboundOpened? && NewsOf(h, l, s) == []
    requires InboundTimersOk(h.inbound, h.inboundTimers)
    ensures SameRecord(h, Step(h, l).next, s) && NotAbout(Step(h, l).emits, OfInbound(s))
    ensures Step(h, l).next.nextInbound == h.nextInbound && Step(h, l).next.state == h.state
  {
    hide Step, InboundTimersOk, SameRecord, NotAbout;
    match l
    case InboundExpired(_) => TimeoutElsewhere(h, l, s);
    case FinishSend(_, _, _, _) => SendElsewhere(h, l, s);
    case CloseIdle(_, _) => CloseElsewhere(h, l, s);
    case _ => QueueElsewhere(h, l, s);
  }

  lemma TimeoutElsewhere(h: Handler, l: Label, s: SubstreamId)
    requires Enabled(h, l) && l.InboundExpired? && NewsOf(h, l, s) == []
    requires InboundTimersOk(h.inbound, h.inboundTimers)
    ensures SameRecord(h, Step(h, l).next, s) && NotAbout(Step(h, l).emits, OfInbound(s))
    ensures Step(h, l).next.nextInbound == h.nextInbound && Step(h, l).next.state == h.state
  {
    hide Events, TimeoutChunk;
  }

  lemma SendElsewhere(h: Handler, l: Label, s: SubstreamId)
    requires Enabled(h, l) && l.FinishSend? && NewsOf(h, l, s) == []
    requires InboundTimersOk(h.inbound, h.inboundTimers)
    ensures SameRecord(h, Step(h, l).next, s) && NotAbout(Step(h, l).emits, OfInbound(s))
    ensures Step(h, l).next.nextInbound == h.nextInbound && Step(h, l).next.state == h.state
  {
    hide Events, SendResult;
  }

  lemma CloseElsewhere(h: Handler, l: Label, s: SubstreamId)
    requires Enabled(h, l) && l.CloseIdle? && NewsOf(h, l, s) == []
    requires InboundTimersOk(h.inbound, h.inboundTimers)
    ensures SameRecord(h, Step(h, l).next, s) && NotAbout(Step(h, l).emits, OfInbound(s))
    ensures Step(h, l).next.nextInbound == h.nextInbound && Step(h, l).next.state == h.state
  {
    hide Events, EndsOpen;
  }

  lemma QueueElsewhere(h: Handler, l: Label, s: SubstreamId)
    requires Enabled(h, l) && (l.SendResponse? || l.StartSend?) && NewsOf(h, l, s) == []
    ensures SameRecord(h, Step(h, l).next, s) && NotAbout(Step(h, l).emits, OfInbound(s))
    ensures Step(h, l).next.nextInbound == h.nextInbound && Step(h, l).next.state == h.state
  {
    hide Events;
  }

  lemma OpenedElsewhere(h: Handler, l: Label, s: SubstreamId)
    requires Enabled(h, l) && l.InboundOpened? && NewsOf(h, l, s) == []
    requires InboundTimersOk(h.inbound, h.inboundTimers)
    ensures SameRecord(h, Step(h, l).next, s) && NotAbout(Step(h, l).emits, OfInbound(s))
    ensures
      var h' := Step(h, l).next;
      h'.nextInbound == h.nextInbound || (s != h.nextInbound && h'.nextInbound == h.nextInbound + 1)
    ensures Step(h, l).next.state.Active? ==> h.state.Active?
  {
    hide Events, Flushed, Full;
    FlushedCauses(h.dialQueue);
  }

  /** What the step reports of request `s` is what its news tell. */
  ghost predicate Tells(h: Handler, l: Label, s: SubstreamId, history: seq<News>)
    requires Enabled(h, l)
  {
    LogAbout(Step(h, l).emits, OfInbound(s))
    == if NewsOf(h, l, s) == [] then [] else Told(s, history, NewsOf(h, l, s)[0])
  }

  lemma WithoutNews(h: Handler, l: Label, s: SubstreamId, history: seq<News>)
    requires Enabled(h, l) && InboundTimersOk(h.inbound, h.inboundTimers)
    requires NewsOf(h, l, s) == [] && Stands(h, s, history)
    ensures Tells(h, l, s, history) && Stands(Step(h, l).next, s, history + [])
  {
    hide Step, NewsOf, InboundTimersOk, Stands, NotAbout, LogAbout;
    if !IsInboundLabel(l) {
      OutsideLabels(h, l, s);
    } else if l.InboundOpened? {
      OpenedElsewhere(h, l, s);
    } else {
      OthersUntouched(h, l, s);
    }
    SameStands(h, Step(h, l).next, s, history);
    NothingAbout(Step(h, l).emits, OfInbound(s));
  }

  // ---- Steps with news ----

  lemma ArrivalTells(h: Handler, l: Label, s: SubstreamId, history: seq<News>)
    requires Enabled(h, l) && l.InboundOpened? && NewsOf(h, l, s) != []
    ensures Tells(h, l, s, history)
  {
    hide LogAbout, Events, ShutDown, InboundStored;
    var c := OfInbound(s);
    var rejected :=
      Emission(OfInbound(h.nextInbound), InboundErr(h.nextInbound, l.request.Protocol(), HandlerRejected));
    var received := Emission(OfInbound(h.nextInbound), Received(h.nextInbound, l.request));
    var queued := Queued(h, [rejected]).next;
    FlushSilent(queued, l.now, s);
    FlushSilent(h, l.now, s);
    AboutAppend([rejected], ShutDown(queued, None, l.now).emits, c);
    AboutAppend(ShutDown(h, None, l.now).emits, [received], c);
    AboutAppend([], [received], c);
    OneAbout(rejected, c);
    OneAbout(received, c);
  }

  lemma FlushSilent(h: Handler, now: Instant, s: SubstreamId)
    ensures LogAbout(ShutDown(h, None, now).emits, OfInbound(s)) == []
  {
    hide LogAbout, Flushed, Events;
    FlushedCauses(h.dialQueue);
    NothingAbout(ShutDown(h, None, now).emits, OfInbound(s));
  }

  lemma ArrivalStands(h: Handler, l: Label, s: SubstreamId, history: seq<News>)
    requires Enabled(h, l) && l.InboundOpened? && NewsOf(h, l, s) != [] && Stands(h, s, history)
    ensures Stands(Step(h, l).next, s, history + NewsOf(h, l, s))
  {
    hide Events, Flushed, Sends, Serving, RanOutBefore, LastActive;
    assert history == [];
    var news := NewsOf(h, l, s)[0];
    assert history + NewsOf(h, l, s) == [news];
    FirstNews(news);
  }

  lemma FirstNews(news: News)
    requires news.Arrived? || news.Refused?
    ensures Serving([news]) <==> news.Arrived? && news.request.Expected() > 0
    ensures news.Arrived? ==> Sends([news]) == 0 && !RanOutBefore([news]) && LastActive([news]) == news.at
  {
    var all := [news];
    assert all[..|all| - 1] == [] && all[0] == news;
    assert Sends([]) == 0 && Sends(all) == Sends([]) + 0;
  }

  /** At most two events, both about `s`. */
  lemma FewAbout(es: seq<Emission>, s: SubstreamId)
    requires |es| <= 2 && forall i :: 0 <= i < |es| ==> es[i].cause == OfInbound(s)
    ensures LogAbout(es, OfInbound(s)) == Events(es)
  {
    hide LogAbout;
    var c := OfInbound(s);
    if |es| == 2 {
      AboutAppend([es[0]], [es[1]], c);
      OneAbout(es[0], c);
      OneAbout(es[1], c);
      assert es == [es[0]] + [es[1]];
    } else if |es| == 1 {
      OneAbout(es[0], c);
      assert es == [es[0]];
    } else {
      OneAbout(Emission(c, Received(s, PingRequest)), c);
    }
  }

  lemma AnsweredTells(h: Handler, l: Label, s: SubstreamId, history: seq<News>)
    requires Enabled(h, l) && l.SendResponse? && NewsOf(h, l, s) != [] && Stands(h, s, history)
    ensures Tells(h, l, s, history) && Stands(Step(h, l).next, s, history + NewsOf(h, l, s))
  {
    hide LogAbout, RanOutBefore, LastActive, Sends, Serving;
    FewAbout(Step(h, l).emits, s);
    MoreNews(history, Answered(l.chunk));
    ServedLonger(history, Answered(l.chunk));
    OpenSoFar(history);
  }

  lemma OpenSoFar(history: seq<News>)
    requires Serving(history)
    ensures history != [] && history[0].Arrived? && forall i :: 0 <= i < |history| ==> KeepsOpen(history[i])
    ensures Sends(history) < RequestOf(history).Expected()
  {
  }

  lemma TimeoutTells(h: Handler, l: Label, s: SubstreamId, history: seq<News>)
    requires Enabled(h, l) && l.InboundExpired? && NewsOf(h, l, s) != [] && Stands(h, s, history)
    ensures Tells(h, l, s, history) && Stands(Step(h, l).next, s, history + NewsOf(h, l, s))
  {
    hide LogAbout, RanOutBefore, LastActive, Sends, Serving, TimeoutChunk;
    FewAbout(Step(h, l).emits, s);
    MoreNews(history, RanOut);
    ServedLonger(history, RanOut);
    OpenSoFar(history);
  }

  lemma DropTells(h: Handler, l: Label, s: SubstreamId, history: seq<News>)
    requires Enabled(h, l) && l.CloseIdle? && NewsOf(h, l, s) != [] && Stands(h, s, history)
    ensures Tells(h, l, s, history) && Stands(Step(h, l).next, s, history + NewsOf(h, l, s))
  {
    hide LogAbout, RanOutBefore, LastActive, Sends, Serving;
    FewAbout(Step(h, l).emits, s);
    OpenSoFar(history);
    ServedLonger(history, NewsOf(h, l, s)[0]);
  }

  lemma SendTells(h: Handler, l: Label, s: SubstreamId, history: seq<News>)
    requires Enabled(h, l) && l.FinishSend? && NewsOf(h, l, s) != [] && Stands(h, s, history)
    requires h.inbound[s].state.lastChunk == (h.inbound[s].remaining <= 1)
    ensures Tells(h, l, s, history)
  {
    hide LogAbout, RanOutBefore, LastActive, Sends, Serving;
    OpenSoFar(history);
    FewAbout(Step(h, l).emits, s);
  }

  lemma SendStands(h: Handler, l: Label, s: SubstreamId, history: seq<News>)
    requires Enabled(h, l) && l.FinishSend? && NewsOf(h, l, s) != [] && Stands(h, s, history)
    requires h.inbound[s].state.lastChunk == (h.inbound[s].remaining <= 1)
    ensures Stands(Step(h, l).next, s, history + NewsOf(h, l, s))
  {
    hide RanOutBefore, LastActive, Sends, Serving, Events;
    OpenSoFar(history);
    MoreNews(history, NewsOf(h, l, s)[0]);
    ServedLonger(history, NewsOf(h, l, s)[0]);
  }

  lemma StepWithNews(h: Handler, exchanges: seq<Exchange>, l: Label, s: SubstreamId, history: seq<News>)
    requires Enabled(h, l) && InSide(h, exchanges) && NewsOf(h, l, s) != [] && Stands(h, s, history)
    ensures Tells(h, l, s, history) && Stands(Step(h, l).next, s, history + NewsOf(h, l, s))
  {
    hide Step, Stands, Tells, InSide;
    match l
    case InboundOpened(_, _, _) =>
      ArrivalTells(h, l, s, history);
      ArrivalStands(h, l, s, history);
    case SendResponse(_, _) => AnsweredTells(h, l, s, history);
    case InboundExpired(_) => TimeoutTells(h, l, s, history);
    case CloseIdle(_, _) => DropTells(h, l, s, history);
    case FinishSend(_, _, _, _) =>
      LastChunkOf(h, exchanges, s);
      SendTells(h, l, s, history);
      SendStands(h, l, s, history);
  }

  lemma LastChunkOf(h: Handler, exchanges: seq<Exchange>, s: SubstreamId)
    requires InSide(h, exchanges) && s in h.inbound && h.inbound[s].state.Busy?
    ensures h.inbound[s].state.lastChunk == (h.inbound[s].remaining <= 1)
  {
    var _ := LiveExchange(h, exchanges, s);
  }

  // ---- Every run ----

  ghost predicate Agrees(x: Sys, s: SubstreamId, history: seq<News>) {
    LogAbout(x.trace, OfInbound(s)) == AllTold(s, history) && Stands(x.h, s, history)
  }

  lemma ToldMore(s: SubstreamId, history: seq<News>, news: News)
    ensures AllTold(s, history + [news]) == AllTold(s, history) + Told(s, history, news)
  {
    assert (history + [news])[..|history|] == history;
  }

  lemma StepAgrees(x: Sys, l: Label, s: SubstreamId, history: seq<News>)
    requires InSide(x.h, x.exchanges) && Possible(x, l) && Agrees(x, s, history)
    ensures Agrees(Next(x, l), s, history + NewsOf(x.h, l, s))
  {
    hide Step, Stands, InboundIdsOk, ExchangesOk, InboundTimersOk, Next, InOrder, LogAbout, AllTold, NewsOf, Told;
    EnabledIfPossible(x, l);
    var news := NewsOf(x.h, l, s);
    AboutAppend(x.trace, Step(x.h, l).emits, OfInbound(s));
    if news == [] {
      WithoutNews(x.h, l, s, history);
      assert history + [] == history && AllTold(s, history) + [] == AllTold(s, history);
    } else {
      AtMostOne(x.h, l, s);
      StepWithNews(x.h, x.exchanges, l, s, history);
      ToldMore(s, history, news[0]);
      assert news == [news[0]];
    }
  }

  lemma AtMostOne(h: Handler, l: Label, s: SubstreamId)
    ensures |NewsOf(h, l, s)| <= 1
  {
  }

  lemma {:induction false} AgreesOverRuns(xs: seq<Sys>, ls: seq<Label>, s: SubstreamId)
    requires IsRun(xs, ls)
    ensures Agrees(xs[|ls|], s, History(xs, ls, s))
    decreases |ls|
  {
    hide Next, Possible, Inv, NewsOf, Agrees;
    if ls == [] {
      NothingYet(s);
    } else {
      var n := |ls| - 1;
      AgreesOverRuns(xs[..n + 1], ls[..n], s);
      RunKeepsInv(xs[..n + 1], ls[..n]);
      InSideOf(xs[n]);
      StepAgrees(xs[n], ls[n], s, History(xs[..n + 1], ls[..n], s));
    }
  }

  lemma NothingYet(s: SubstreamId)
    ensures Agrees(Start, s, [])
  {
  }

  lemma InSideOf(x: Sys)
    requires Inv(x)
    ensures InSide(x.h, x.exchanges)
  {
  }

  /**
   * What the application has been told of an inbound request, and is going to be told by the queue, is
   * what has happened to it, event by event: the request itself or its rejection, each error response
   * it is answered with, its timeout, the error that ends its sending, and, when a deactivated handler
   * drops it, the failure to close it and that it was not finished.
   */
  lemma InboundLogs(xs: seq<Sys>, ls: seq<Label>, s: SubstreamId)
    requires IsRun(xs, ls)
    ensures LogAbout(xs[|ls|].delivered + xs[|ls|].queued, OfInbound(s)) == AllTold(s, History(xs, ls, s))
  {
    hide Next, Possible, LogAbout, AllTold, Stands;
    AgreesOverRuns(xs, ls, s);
    ReportedAbout(xs, ls, OfInbound(s));
  }

  /**
   * Over every run: an inbound request that expects a response is served exactly until its substream
   * is dropped, a send fails, an error or the end of the stream is sent, or as many chunks as expected
   * have been; and until its time runs out, its timer is set to ten seconds after the last chunk, or
   * after its arrival.
   */
  lemma ServedOverRuns(xs: seq<Sys>, ls: seq<Label>, s: SubstreamId)
    requires IsRun(xs, ls)
    ensures s in xs[|ls|].h.inbound <==> Serving(History(xs, ls, s))
    ensures s in xs[|ls|].h.inbound ==> Recorded(xs[|ls|].h, s, History(xs, ls, s))
  {
    hide Next, Possible, LogAbout, AllTold, Serving, Recorded;
    AgreesOverRuns(xs, ls, s);
  }

  /** A request that times out with chunks still to send has its stream ended by an error behind them. */
  lemma TimeoutEndsStream(h: Handler, key: TimerKey)
    requires key in h.inboundTimers && h.inboundTimers[key].item in h.inbound
    ensures
      var s := h.inboundTimers[key].item;
      var before, after := h.inbound[s].pending, InboundTimedOut(h, key).next.inbound[s].pending;
      && before <= after && |after| <= |before| + 1
      && (before == [] ==> after == [])
      && (before != [] ==> !after[|after| - 1].Success?)
      && (|after| > |before| ==> before[|before| - 1].Success? && after[|before|] == Error(2))
  {
    hide Events;
  }
}
