/**
 * src/rpc/handler.rs: what the application is told about each outbound substream, computed from what
 * has happened to the substream, and when a substream waits, closes or is gone.
 */
module RpcLogs {
  import opened Common
  import opened DelayQueues
  import opened RpcSteps
  import opened RpcRuns

  /** What can happen to an outbound substream. */
  datatype News =
    | Opened(deactivated: bool, at: Instant)
    | Got(chunk: Chunk, at: Instant)
    | RemoteEnded
    | ReadFailed(error: RpcError)
    | TimedOut
    | GivenUp
    | FullyClosed

  /** What the step means for substream `k`. */
  function NewsOf(h: Handler, l: Label, k: SubstreamId): seq<News> {
    match l
    case OutboundOpened(entry, _, now) =>
      if entry.1.Expected() > 0 && h.nextOutbound == k then [Opened(h.state.Deactivated?, now)] else []
    case StreamChunk(j, chunk, now) => if j == k then [Got(chunk, now)] else []
    case StreamEnded(j) => if j == k then [RemoteEnded] else []
    case StreamFailed(j, error) => if j == k then [ReadFailed(error)] else []
    case StreamDeactivated(j) => if j == k then [GivenUp] else []
    case StreamClosed(j) => if j == k then [FullyClosed] else []
    case OutboundExpired(key) =>
      if key in h.outboundTimers && h.outboundTimers[key].item == k then [TimedOut] else []
    case _ => []
  }

  /** All that has happened to substream `k`, in order. */
  ghost function History(xs: seq<Sys>, ls: seq<Label>, k: SubstreamId): seq<News>
    requires |xs| == |ls| + 1
    decreases |ls|
  {
    if ls == [] then []
    else
      var n := |ls| - 1;
      History(xs[..n + 1], ls[..n], k) + NewsOf(xs[n].h, ls[n], k)
  }

  /** What the application is to be told when that happens to the substream of `entry`. */
  function Told(entry: Entry, news: News): seq<Event> {
    var id, protocol := entry.0, entry.1.Protocol();
    match news
    case Opened(deactivated, _) => if deactivated then [OutboundErr(id, protocol, Disconnected)] else []
    case Got(Success(payload), _) => [Response(id, payload)]
    case Got(Error(code), _) => [OutboundErr(id, protocol, ErrorResponse(code))]
    case Got(StreamTermination, _) => [EndOfStream(id, protocol)]
    case RemoteEnded =>
      if entry.1.Expected() > 1 then [EndOfStream(id, protocol)] else [OutboundErr(id, protocol, IncompleteStream)]
    case ReadFailed(error) => [OutboundErr(id, protocol, error)]
    case TimedOut => [OutboundErr(id, protocol, StreamTimeout)]
    case GivenUp => [OutboundErr(id, protocol, Disconnected)]
    case FullyClosed =>
      if protocol.BlocksByRange? || protocol.BlocksByRoot? then [EndOfStream(id, protocol)] else []
  }

  function AllTold(entry: Entry, history: seq<News>): seq<Event>
    decreases |history|
  {
    if history == [] then []
    else AllTold(entry, history[..|history| - 1]) + Told(entry, history[|history| - 1])
  }

  lemma ToldMore(entry: Entry, history: seq<News>, news: News)
    ensures AllTold(entry, history + [news]) == AllTold(entry, history) + Told(entry, news)
  {
    assert (history + [news])[..|history|] == history;
  }

  // ---- One step ----

  /** Whatever the step reports of substream `k` is what its news tell. */
  ghost predicate Tells(h: Handler, l: Label, k: SubstreamId, entry: Entry)
    requires Enabled(h, l)
  {
    LogOf(Step(h, l).emits, k) == AllTold(entry, NewsOf(h, l, k))
  }

  lemma OneTold(entry: Entry, news: News)
    ensures AllTold(entry, [news]) == Told(entry, news) && AllTold(entry, []) == []
  {
    assert [news][..0] == [];
    assert [] + Told(entry, news) == Told(entry, news);
  }

  lemma SilentElsewhere(h: Handler, l: Label, k: SubstreamId, entry: Entry)
    requires Enabled(h, l) && NotFrom(Step(h, l).emits, k) && NewsOf(h, l, k) == []
    ensures Tells(h, l, k, entry)
  {
    hide Step, NotFrom, NewsOf;
    NoLog(Step(h, l).emits, k);
  }

  lemma StreamTells(h: Handler, l: Label, k: SubstreamId, entry: Entry)
    requires Enabled(h, l)
    requires l.StreamChunk? || l.StreamEnded? || l.StreamFailed? || l.StreamDeactivated? || l.StreamClosed?
    requires l.k == k && k in h.outbound && Serves(h.outbound[k], entry)
    ensures Tells(h, l, k, entry)
  {
    hide LogOf, AllTold;
    var es := Step(h, l).emits;
    OneTold(entry, NewsOf(h, l, k)[0]);
    OneLog(es, k);
  }

  lemma TimeoutTells(h: Handler, l: Label, k: SubstreamId, entry: Entry)
    requires Enabled(h, l) && l.OutboundExpired? && h.outboundTimers[l.key].item == k
    requires k in h.outbound && Serves(h.outbound[k], entry)
    ensures Tells(h, l, k, entry)
  {
    hide LogOf, AllTold;
    OneTold(entry, TimedOut);
    OneLog(Step(h, l).emits, k);
  }

  lemma OpeningTells(h: Handler, l: Label, k: SubstreamId)
    requires Enabled(h, l) && l.OutboundOpened? && l.entry.1.Expected() > 0 && h.nextOutbound == k
    ensures Tells(h, l, k, l.entry)
  {
    hide LogOf, AllTold, OutboundStored;
    OneTold(l.entry, Opened(h.state.Deactivated?, l.now));
    OneLog(Step(h, l).emits, k);
  }

  /** Steps of other substreams say nothing of this one. */
  lemma OthersSilent(h: Handler, l: Label, k: SubstreamId)
    requires Enabled(h, l) && IsOutboundLabel(l) && NewsOf(h, l, k) == []
    ensures NotFrom(Step(h, l).emits, k)
  {
    hide OutboundStored, ChunkEvent, Left, Events;
  }

  lemma StepTells(x: Sys, l: Label, k: SubstreamId)
    requires Possible(x, l) && OutSide(x.h, x.opens, x.trace) && k < |Next(x, l).opens|
    ensures Tells(x.h, l, k, Next(x, l).opens[k])
    ensures k < |x.opens| ==> Next(x, l).opens[k] == x.opens[k]
  {
    hide Step, Tells, NextExchanges, NextDialing, NextQueued, NextDelivered, StreamsOk, NotFrom, Serves;
    var h, entry := x.h, Next(x, l).opens[k];
    if NewsOf(h, l, k) == [] {
      if IsOutboundLabel(l) { OthersSilent(h, l, k); }
      else if IsInboundLabel(l) { InboundLabelsKeepOutbound(h, l); }
      else { OtherLabelsKeepOutbound(h, l); }
      SilentElsewhere(h, l, k, entry);
    } else if l.OutboundOpened? {
      OpeningTells(h, l, k);
    } else if l.OutboundExpired? {
      TimeoutTells(h, l, k, entry);
    } else {
      StreamTells(h, l, k, entry);
    }
  }

  /** Only substreams that have been opened have news, and the first is their opening. */
  lemma NewsOnlyOnceOpened(x: Sys, l: Label, k: SubstreamId)
    requires Possible(x, l) && OutSide(x.h, x.opens, x.trace)
    ensures NewsOf(x.h, l, k) != [] ==> k < |Next(x, l).opens|
    ensures |x.opens| <= k < |Next(x, l).opens| ==>
              l.OutboundOpened? && NewsOf(x.h, l, k) == [Opened(x.h.state.Deactivated?, l.now)]
  {
    hide Step, NextExchanges, NextDialing, NextQueued, NextDelivered, StreamsOk, Serves;
  }

  // ---- Every run ----

  lemma ToldBoth(entry: Entry, history: seq<News>, h: Handler, l: Label, k: SubstreamId)
    ensures AllTold(entry, history + NewsOf(h, l, k)) == AllTold(entry, history) + AllTold(entry, NewsOf(h, l, k))
  {
    hide AllTold;
    var news := NewsOf(h, l, k);
    if news == [] {
      OneTold(entry, TimedOut);
      assert history + [] == history && AllTold(entry, history) + [] == AllTold(entry, history);
    } else {
      assert news == [news[0]];
      OneTold(entry, news[0]);
      ToldMore(entry, history, news[0]);
    }
  }

  /** The events of substream `k` so far are what its history tells. */
  ghost predicate TellsSoFar(x: Sys, k: SubstreamId, history: seq<News>) {
    if k < |x.opens| then LogOf(x.trace, k) == AllTold(x.opens[k], history) else history == []
  }

  lemma StepTellsSoFar(x: Sys, l: Label, k: SubstreamId, history: seq<News>)
    requires Inv(x) && Possible(x, l) && TellsSoFar(x, k, history)
    ensures TellsSoFar(Next(x, l), k, history + NewsOf(x.h, l, k))
  {
    hide Next, Step, InOrder, LogOf, AllTold, NewsOf, OutSide, Inv;
    OutSideOf(x);
    NewsOnlyOnceOpened(x, l, k);
    TraceGrows(x, l);
    if k < |Next(x, l).opens| {
      var entry := Next(x, l).opens[k];
      StepTells(x, l, k);
      LogAppend(x.trace, Step(x.h, l).emits, k);
      ToldBoth(entry, history, x.h, l, k);
      if k >= |x.opens| { FreshIsUntold(x, k, entry); }
    }
  }

  lemma {:induction false} TracesTell(xs: seq<Sys>, ls: seq<Label>, k: SubstreamId)
    requires IsRun(xs, ls)
    ensures TellsSoFar(xs[|ls|], k, History(xs, ls, k))
    decreases |ls|
  {
    hide Next, Possible, LogOf, AllTold, NewsOf, Inv;
    if ls != [] {
      var n := |ls| - 1;
      TracesTell(xs[..n + 1], ls[..n], k);
      RunKeepsInv(xs[..n + 1], ls[..n]);
      StepTellsSoFar(xs[n], ls[n], k, History(xs[..n + 1], ls[..n], k));
    }
  }

  lemma OutSideOf(x: Sys)
    requires Inv(x)
    ensures OutSide(x.h, x.opens, x.trace)
  {
  }

  lemma TraceGrows(x: Sys, l: Label)
    requires Possible(x, l)
    ensures Next(x, l).trace == x.trace + Step(x.h, l).emits
    ensures x.opens <= Next(x, l).opens && |Next(x, l).opens| <= |x.opens| + 1
  {
    hide Step, NextExchanges, NextDialing, NextQueued, NextDelivered;
  }

  lemma FreshIsUntold(x: Sys, k: SubstreamId, entry: Entry)
    requires Inv(x) && k >= |x.opens|
    ensures LogOf(x.trace, k) == [] && AllTold(entry, []) == []
  {
    hide OutSide, InSide, Conserved, Delivered, DialsOk;
    forall i | 0 <= i < |x.trace|
      ensures x.trace[i].cause != OfStream(k)
    {
      assert CauseOk(x.trace[i], x.opens);
    }
    NoLog(x.trace, k);
  }

  /**
   * What the application has been told of a substream, and is going to be told by the queue, is what
   * has happened to the substream, event by event: each response with its payload, each error with its
   * code, the end of a stream of several responses as such and that of a single one as an error.
   */
  lemma OutboundLogs(xs: seq<Sys>, ls: seq<Label>, k: SubstreamId)
    requires IsRun(xs, ls) && k < |xs[|ls|].opens|
    ensures LogOf(xs[|ls|].delivered + xs[|ls|].queued, k) == AllTold(xs[|ls|].opens[k], History(xs, ls, k))
  {
    hide Next, Possible, LogOf, FailedOf, AllTold, InSide, OutSide, Conserved, DialsOk, CausesOk;
    TracesTell(xs, ls, k);
    RunKeepsInv(xs, ls);
  }

  // ---- When a substream waits, closes, or is gone ----

  /** How many chunks have come. */
  function Chunks(history: seq<News>): nat
    decreases |history|
  {
    if history == [] then 0
    else Chunks(history[..|history| - 1]) + if history[|history| - 1].Got? then 1 else 0
  }

  predicate LeavesOpen(news: News) { news.Opened? || (news.Got? && news.chunk.Success?) }

  /** Nothing but responses so far, and fewer than expected. */
  ghost predicate StillWaiting(expected: nat, history: seq<News>) {
    (forall i :: 0 <= i < |history| ==> LeavesOpen(history[i])) && Chunks(history) < expected
  }

  predicate TakesAway(news: News) { news.RemoteEnded? || news.ReadFailed? || news.TimedOut? || news.FullyClosed? }

  ghost predicate NotTakenAway(history: seq<News>) {
    forall i :: 0 <= i < |history| ==> !TakesAway(history[i])
  }

  /** The deadline of a waiting substream is that of its last chunk, or of its opening. */
  ghost predicate TimedBy(h: Handler, k: SubstreamId, history: seq<News>)
    requires k in h.outbound
  {
    && history != [] && LeavesOpen(history[|history| - 1])
    && h.outbound[k].delayKey in h.outboundTimers
    && h.outboundTimers[h.outbound[k].delayKey] == Timer(k, history[|history| - 1].at + 10 * NANOS_PER_SEC)
  }

  ghost predicate Stands(h: Handler, k: SubstreamId, expected: nat, history: seq<News>) {
    && (k in h.outbound <==> NotTakenAway(history))
    && (IsPending(h, k) <==> StillWaiting(expected, history))
    && (IsPending(h, k) ==> TimedBy(h, k, history))
  }

  lemma {:induction false} ChunksTold(entry: Entry, history: seq<News>)
    requires forall i :: 0 <= i < |history| ==> LeavesOpen(history[i])
    ensures ResponseCount(AllTold(entry, history)) == Chunks(history)
    decreases |history|
  {
    if history != [] {
      var n := |history| - 1;
      var before, told := AllTold(entry, history[..n]), Told(entry, history[n]);
      ChunksTold(entry, history[..n]);
      assert LeavesOpen(history[n]);
      if told == [] {
        assert before + told == before;
      } else {
        assert told == [told[0]] && (before + told)[..|before|] == before;
      }
    }
  }

  /** One more piece of news. */
  lemma MoreNews(history: seq<News>, news: News, expected: nat)
    ensures Chunks(history + [news]) == Chunks(history) + if news.Got? then 1 else 0
    ensures NotTakenAway(history + [news]) <==> NotTakenAway(history) && !TakesAway(news)
    ensures StillWaiting(expected, history + [news]) <==>
            (forall i :: 0 <= i < |history| ==> LeavesOpen(history[i])) && LeavesOpen(news)
            && Chunks(history) + (if news.Got? then 1 else 0) < expected
  {
    var all := history + [news];
    assert all[..|history|] == history && all[|history|] == news;
    if forall i :: 0 <= i < |all| ==> LeavesOpen(all[i]) {
      forall i | 0 <= i < |history|
        ensures LeavesOpen(history[i])
      {
        assert all[i] == history[i];
      }
    }
    if forall i :: 0 <= i < |all| ==> !TakesAway(all[i]) {
      forall i | 0 <= i < |history|
        ensures !TakesAway(history[i])
      {
        assert all[i] == history[i];
      }
    }
  }

  /** Steps without news of a substream leave it and its timer alone. */
  predicate SameStream(h: Handler, h': Handler, k: SubstreamId) {
    && Lookup(h'.outbound, k) == Lookup(h.outbound, k)
    && (k in h.outbound ==>
          Lookup(h'.outboundTimers, h.outbound[k].delayKey) == Lookup(h.outboundTimers, h.outbound[k].delayKey))
  }

  lemma OthersUntouched(h: Handler, l: Label, k: SubstreamId)
    requires Enabled(h, l) && IsOutboundLabel(l) && NewsOf(h, l, k) == []
    requires OutboundTimersOk(h.outbound, h.outboundTimers)
    ensures SameStream(h, Step(h, l).next, k)
  {
    hide Step, SameStream, OutboundTimersOk;
    match l
    case OutboundOpened(_, _, _) => OpeningElsewhere(h, l, k);
    case OutboundExpired(_) => TimeoutElsewhere(h, l, k);
    case ShutdownExpired => ExpiryElsewhere(h, k);
    case _ => StreamElsewhere(h, l, k);
  }

  lemma OpeningElsewhere(h: Handler, l: Label, k: SubstreamId)
    requires Enabled(h, l) && l.OutboundOpened? && NewsOf(h, l, k) == []
    requires OutboundTimersOk(h.outbound, h.outboundTimers)
    ensures SameStream(h, Step(h, l).next, k)
  {
    hide Events;
  }

  lemma TimeoutElsewhere(h: Handler, l: Label, k: SubstreamId)
    requires Enabled(h, l) && l.OutboundExpired? && NewsOf(h, l, k) == []
    requires OutboundTimersOk(h.outbound, h.outboundTimers)
    ensures SameStream(h, Step(h, l).next, k)
  {
    hide Events;
  }

  lemma ExpiryElsewhere(h: Handler, k: SubstreamId)
    requires Enabled(h, ShutdownExpired)
    ensures SameStream(h, Step(h, ShutdownExpired).next, k)
  {
  }

  lemma StreamElsewhere(h: Handler, l: Label, k: SubstreamId)
    requires Enabled(h, l) && NewsOf(h, l, k) == []
    requires l.StreamChunk? || l.StreamEnded? || l.StreamFailed? || l.StreamDeactivated? || l.StreamClosed?
    requires OutboundTimersOk(h.outbound, h.outboundTimers)
    ensures SameStream(h, Step(h, l).next, k)
  {
    hide ChunkEvent, Left, Events;
  }

  lemma WithoutNews(x: Sys, l: Label, k: SubstreamId)
    requires Possible(x, l) && OutSide(x.h, x.opens, x.trace) && NewsOf(x.h, l, k) == []
    ensures SameStream(x.h, Step(x.h, l).next, k)
  {
    hide Step, NewsOf, OutboundTimersOk, OutboundIdsOk, StreamsOk, NotFrom;
    if IsOutboundLabel(l) { OthersUntouched(x.h, l, k); }
    else if IsInboundLabel(l) { InboundLabelsKeepOutbound(x.h, l); }
    else { OtherLabelsKeepOutbound(x.h, l); }
  }

  lemma SameStands(h: Handler, h': Handler, k: SubstreamId, expected: nat, history: seq<News>)
    requires Stands(h, k, expected, history) && SameStream(h, h', k)
    ensures Stands(h', k, expected, history + [])
  {
    hide StillWaiting, NotTakenAway;
    assert history + [] == history;
    if k in h.outbound { assert Lookup(h'.outbound, k) == Some(h.outbound[k]); }
  }

  lemma OpeningStands(h: Handler, l: Label)
    requires Enabled(h, l) && l.OutboundOpened? && l.entry.1.Expected() > 0
    ensures Stands(Step(h, l).next, h.nextOutbound, l.entry.1.Expected(), [] + [Opened(h.state.Deactivated?, l.now)])
  {
    hide Events, StillWaiting, NotTakenAway;
    MoreNews([], Opened(h.state.Deactivated?, l.now), l.entry.1.Expected());
    NoNews();
  }

  lemma NoNews()
    ensures Chunks([]) == 0 && NotTakenAway([])
  {
  }

  /** A substream that is taken away. */
  lemma GoneStands(h: Handler, h': Handler, k: SubstreamId, expected: nat, history: seq<News>, news: News)
    requires Stands(h, k, expected, history) && k !in h'.outbound && TakesAway(news)
    ensures Stands(h', k, expected, history + [news])
  {
    hide StillWaiting, NotTakenAway;
    MoreNews(history, news, expected);
  }

  /** A waiting substream starts closing. */
  lemma ClosingStands(h: Handler, h': Handler, k: SubstreamId, expected: nat, history: seq<News>, news: News)
    requires Stands(h, k, expected, history) && k in h.outbound && k in h'.outbound && !IsPending(h', k)
    requires !TakesAway(news)
    requires LeavesOpen(news) && (forall i :: 0 <= i < |history| ==> LeavesOpen(history[i])) ==>
               Chunks(history) + (if news.Got? then 1 else 0) >= expected
    ensures Stands(h', k, expected, history + [news])
  {
    hide StillWaiting, NotTakenAway, TimedBy;
    MoreNews(history, news, expected);
  }

  lemma RemovedStands(h: Handler, l: Label, k: SubstreamId, expected: nat, history: seq<News>)
    requires Enabled(h, l) && Stands(h, k, expected, history) && k in h.outbound
    requires l.StreamEnded? || l.StreamFailed? || l.StreamClosed? || l.OutboundExpired?
    requires NewsOf(h, l, k) != []
    ensures Stands(Step(h, l).next, k, expected, history + NewsOf(h, l, k))
  {
    hide Stands, IsBlocks;
    GoneStands(h, Step(h, l).next, k, expected, history, NewsOf(h, l, k)[0]);
  }

  lemma GivenUpStands(h: Handler, l: Label, k: SubstreamId, expected: nat, history: seq<News>)
    requires Enabled(h, l) && Stands(h, k, expected, history) && l.StreamDeactivated? && l.k == k
    ensures Stands(Step(h, l).next, k, expected, history + NewsOf(h, l, k))
  {
    hide Stands, Events;
    ClosingStands(h, Step(h, l).next, k, expected, history, GivenUp);
  }

  /** The responses still expected, counted by what has come. */
  lemma ChunksLeft(info: OutboundInfo, entry: Entry, history: seq<News>)
    requires Serves(info, entry) && info.state.Pending? && entry.1.Expected() > 0
    requires StreamOk(AllTold(entry, history), entry.1.Expected(), Some(info), false)
    requires forall i :: 0 <= i < |history| ==> LeavesOpen(history[i])
    ensures entry.1.Expected() > 1 ==> Left(info) == entry.1.Expected() - Chunks(history) - 1
    ensures entry.1.Expected() == 1 ==> Chunks(history) == 0
  {
    hide Disciplined, NotEnded, AllResponses;
    ChunksTold(entry, history);
  }

  lemma ChunkStands(h: Handler, l: Label, k: SubstreamId, entry: Entry, history: seq<News>)
    requires Enabled(h, l) && l.StreamChunk? && l.k == k && Serves(h.outbound[k], entry) && entry.1.Expected() > 0
    requires Stands(h, k, entry.1.Expected(), history)
    requires StreamOk(AllTold(entry, history), entry.1.Expected(), Some(h.outbound[k]), false)
    ensures Stands(Step(h, l).next, k, entry.1.Expected(), history + NewsOf(h, l, k))
  {
    hide Disciplined, NotEnded, AllResponses, ChunkEvent, NotTakenAway, StreamOk, Left, AllTold, Chunks;
    var news, expected, h' := Got(l.chunk, l.now), entry.1.Expected(), Step(h, l).next;
    ChunksLeft(h.outbound[k], entry, history);
    if expected > 1 && l.chunk.Success? && Left(h.outbound[k]) > 0 {
      MoreNews(history, news, expected);
      assert Lookup(h'.outboundTimers, h.outbound[k].delayKey) == Some(Timer(k, l.now + RESPONSE_TIMEOUT));
    } else {
      ClosingStands(h, h', k, expected, history, news);
    }
  }

  /** One step keeps the standing of every substream in line with its history. */
  lemma StandsKept(x: Sys, l: Label, k: SubstreamId, history: seq<News>)
    requires Inv(x) && Possible(x, l) && TellsSoFar(x, k, history) && k < |Next(x, l).opens|
    requires k < |x.opens| ==> Stands(x.h, k, x.opens[k].1.Expected(), history)
    ensures Stands(Next(x, l).h, k, Next(x, l).opens[k].1.Expected(), history + NewsOf(x.h, l, k))
  {
    hide Inv, Step, InOrder, NewsOf, Stands, SameStream, OutSide, StreamOk, AllTold, LogOf;
    OutSideOf(x);
    NewsOnlyOnceOpened(x, l, k);
    TraceGrows(x, l);
    NextHandler(x, l);
    if k >= |x.opens| {
      NextIsFresh(x.h, x.opens, x.trace);
      FirstNews(x, l, k);
    } else {
      var entry := x.opens[k];
      if NewsOf(x.h, l, k) == [] {
        WithoutNews(x, l, k);
        SameStands(x.h, Step(x.h, l).next, k, entry.1.Expected(), history);
      } else {
        NewsOfLive(x, l, k);
        var _ := LiveStream(x.h, x.opens, x.trace, k);
        LiveStands(x.h, l, k, entry, history);
      }
    }
  }

  lemma NextHandler(x: Sys, l: Label)
    requires Possible(x, l)
    ensures Next(x, l).h == Step(x.h, l).next
  {
  }

  lemma FirstNews(x: Sys, l: Label, k: SubstreamId)
    requires Possible(x, l) && l.OutboundOpened? && k == |x.opens| == x.h.nextOutbound && k < |Next(x, l).opens|
    ensures Stands(Step(x.h, l).next, k, Next(x, l).opens[k].1.Expected(), [] + NewsOf(x.h, l, k))
  {
    hide Step, Stands, NextQueued, NextDelivered, NextExchanges, NextDialing;
    OpeningStands(x.h, l);
  }

  lemma NewsOfLive(x: Sys, l: Label, k: SubstreamId)
    requires Possible(x, l) && OutSide(x.h, x.opens, x.trace) && k < |x.opens| && NewsOf(x.h, l, k) != []
    ensures k in x.h.outbound && !l.OutboundOpened?
  {
    hide StreamsOk;
  }

  lemma LiveStands(h: Handler, l: Label, k: SubstreamId, entry: Entry, history: seq<News>)
    requires Enabled(h, l) && k in h.outbound && Serves(h.outbound[k], entry) && entry.1.Expected() > 0
    requires Stands(h, k, entry.1.Expected(), history) && NewsOf(h, l, k) != [] && !l.OutboundOpened?
    requires StreamOk(AllTold(entry, history), entry.1.Expected(), Some(h.outbound[k]), h.state.Deactivated?)
    ensures Stands(Step(h, l).next, k, entry.1.Expected(), history + NewsOf(h, l, k))
  {
    hide Step, Stands, StreamOk, AllTold;
    match l
    case StreamChunk(_, _, _) => ChunkStands(h, l, k, entry, history);
    case StreamDeactivated(_) => GivenUpStands(h, l, k, entry.1.Expected(), history);
    case _ => RemovedStands(h, l, k, entry.1.Expected(), history);
  }

  /**
   * Over every run: a substream is in the books exactly until its remote ends it, reading it fails, it
   * times out or its closing is done; it waits for responses exactly as long as nothing but responses
   * has come, and fewer than expected; and while it waits, its timer runs out ten seconds after the
   * last response, or after its opening.
   */
  lemma {:induction false} StandingOverRuns(xs: seq<Sys>, ls: seq<Label>, k: SubstreamId)
    requires IsRun(xs, ls) && k < |xs[|ls|].opens|
    ensures Stands(xs[|ls|].h, k, xs[|ls|].opens[k].1.Expected(), History(xs, ls, k))
    decreases |ls|
  {
    hide Next, Possible, Inv, Stands, NewsOf, TellsSoFar;
    if ls == [] {
      assert false;
    } else {
      var n := |ls| - 1;
      RunKeepsInv(xs[..n + 1], ls[..n]);
      TracesTell(xs[..n + 1], ls[..n], k);
      OpensStay(xs[n], ls[n]);
      if k < |xs[n].opens| { StandingOverRuns(xs[..n + 1], ls[..n], k); }
      StandsKept(xs[n], ls[n], k, History(xs[..n + 1], ls[..n], k));
    }
  }

  lemma OpensStay(x: Sys, l: Label)
    requires Possible(x, l)
    ensures x.opens <= Next(x, l).opens
  {
    hide Step, NextQueued, NextDelivered, NextExchanges, NextDialing;
  }

  // ---- Answers without trouble ----

  /** Nothing went wrong with the substream of a request expecting that many responses. */
  ghost predicate Untroubled(expected: nat, history: seq<News>) {
    forall i :: 0 <= i < |history| ==>
      || (history[i].Opened? && !history[i].deactivated)
      || (history[i].Got? && history[i].chunk.Success?)
      || (history[i].RemoteEnded? && expected > 1)
      || history[i].FullyClosed?
  }

  /** The responses that have come, in order. */
  function Responses(id: Id, history: seq<News>): seq<Event>
    decreases |history|
  {
    if history == [] then []
    else
      var last := history[|history| - 1];
      Responses(id, history[..|history| - 1])
      + if last.Got? && last.chunk.Success? then [Response(id, last.chunk.payload)] else []
  }

  function Ending(entry: Entry): seq<Event> {
    if IsBlocks(entry.1.Protocol()) then [EndOfStream(entry.0, entry.1.Protocol())] else []
  }

  /** Its story as long as it is in the books, and once it is gone. */
  ghost predicate TellsAnswer(entry: Entry, history: seq<News>) {
    Untroubled(entry.1.Expected(), history) ==>
      AllTold(entry, history)
      == Responses(entry.0, history) + if NotTakenAway(history) then [] else Ending(entry)
  }

  lemma {:induction false} WhileThere(entry: Entry, history: seq<News>)
    requires Untroubled(entry.1.Expected(), history) && NotTakenAway(history)
    ensures AllTold(entry, history) == Responses(entry.0, history)
    decreases |history|
  {
    if history != [] {
      var n := |history| - 1;
      assert !TakesAway(history[n]);
      assert Untroubled(entry.1.Expected(), history[..n]) && NotTakenAway(history[..n]);
      WhileThere(entry, history[..n]);
    }
  }

  /** Nothing is heard of a substream that is gone, so its end is its last news. */
  lemma AnswerGrows(entry: Entry, history: seq<News>, news: News)
    requires NotTakenAway(history) && TellsAnswer(entry, history)
    ensures TellsAnswer(entry, history + [news])
  {
    var all, expected := history + [news], entry.1.Expected();
    if Untroubled(expected, all) {
      assert all[..|history|] == history && all[|history|] == news;
      forall i | 0 <= i < |history|
        ensures history[i] == all[i]
      {
      }
      WhileThere(entry, history);
      ToldMore(entry, history, news);
      if TakesAway(news) {
        BlocksIfSeveral(entry.1);
        assert !NotTakenAway(all);
        assert Responses(entry.0, all) == Responses(entry.0, history) + [];
      } else {
        WhileThere(entry, all);
      }
    }
  }

  lemma BlocksIfSeveral(request: Request)
    ensures request.Expected() > 1 ==> IsBlocks(request.Protocol())
  {
  }

  lemma {:induction false} AnswersOverRuns(xs: seq<Sys>, ls: seq<Label>, k: SubstreamId)
    requires IsRun(xs, ls)
    ensures forall entry :: TellsAnswer(entry, History(xs, ls, k))
    decreases |ls|
  {
    hide Next, Possible, Inv, NewsOf, TellsAnswer;
    if ls == [] {
      forall entry
        ensures TellsAnswer(entry, [])
      {
        NothingAnswered(entry);
      }
    } else {
      var n := |ls| - 1;
      var history := History(xs[..n + 1], ls[..n], k);
      AnswersOverRuns(xs[..n + 1], ls[..n], k);
      NewsWhileThere(xs, ls, k);
      forall entry
        ensures TellsAnswer(entry, history + NewsOf(xs[n].h, ls[n], k))
      {
        assert TellsAnswer(entry, history);
        AnswerStep(entry, history, xs[n].h, ls[n], k);
      }
    }
  }

  lemma NothingAnswered(entry: Entry)
    ensures TellsAnswer(entry, [])
  {
  }

  lemma AnswerStep(entry: Entry, history: seq<News>, h: Handler, l: Label, k: SubstreamId)
    requires TellsAnswer(entry, history) && (NewsOf(h, l, k) != [] ==> NotTakenAway(history))
    ensures TellsAnswer(entry, history + NewsOf(h, l, k))
  {
    hide TellsAnswer, NotTakenAway;
    if NewsOf(h, l, k) == [] {
      assert history + [] == history;
    } else {
      AnswerGrows(entry, history, NewsOf(h, l, k)[0]);
    }
  }

  /** Nothing happens to a substream that is gone. */
  lemma NewsWhileThere(xs: seq<Sys>, ls: seq<Label>, k: SubstreamId)
    requires IsRun(xs, ls) && ls != []
    ensures
      var n := |ls| - 1;
      NewsOf(xs[n].h, ls[n], k) != [] ==> NotTakenAway(History(xs[..n + 1], ls[..n], k))
  {
    hide Next, Possible, Inv, NewsOf, StillWaiting, TimedBy, NotTakenAway;
    var n := |ls| - 1;
    var x, l := xs[n], ls[n];
    if NewsOf(x.h, l, k) != [] {
      RunKeepsInv(xs[..n + 1], ls[..n]);
      OutSideOf(x);
      if k < |x.opens| {
        NewsOfLive(x, l, k);
        StandingOverRuns(xs[..n + 1], ls[..n], k);
      } else {
        TracesTell(xs[..n + 1], ls[..n], k);
        NoNews();
      }
    }
  }

  lemma {:induction false} OnlyResponses(id: Id, history: seq<News>)
    ensures AllResponses(Responses(id, history))
    decreases |history|
  {
    if history != [] { OnlyResponses(id, history[..|history| - 1]); }
  }

  /**
   * A request whose substream meets no error chunk, read error, timeout or deactivation, and is not
   * ended early where a single response was expected, is answered by exactly the responses that came,
   * in order, then, for blocks and once the substream is gone, by the end of the stream. No error is
   * reported.
   */
  lemma UntroubledAnswers(xs: seq<Sys>, ls: seq<Label>, k: SubstreamId)
    requires IsRun(xs, ls) && k < |xs[|ls|].opens|
    requires Untroubled(xs[|ls|].opens[k].1.Expected(), History(xs, ls, k))
    ensures
      var x, entry := xs[|ls|], xs[|ls|].opens[k];
      var log := LogOf(x.delivered + x.queued, k);
      && log == Responses(entry.0, History(xs, ls, k)) + (if k in x.h.outbound then [] else Ending(entry))
      && forall i :: 0 <= i < |log| ==> !log[i].OutboundErr?
  {
    hide Next, Possible, LogOf, AllTold, Untroubled, StillWaiting, TimedBy, NotTakenAway, Responses;
    OutboundLogs(xs, ls, k);
    AnswersOverRuns(xs, ls, k);
    StandingOverRuns(xs, ls, k);
    OnlyResponses(xs[|ls|].opens[k].0, History(xs, ls, k));
    assert TellsAnswer(xs[|ls|].opens[k], History(xs, ls, k));
  }
}
