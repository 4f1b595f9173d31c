/**
 * src/rpc/handler.rs: what the application is told about requests that never get a substream, and
 * what a handler that is shutting down still does.
 */
module RpcFailures {
  import opened Common
  import opened DelayQueues
  import opened RpcSteps
  import opened RpcRuns

  /** The events reported for one cause, in order. */
  function LogAbout(trace: seq<Emission>, c: Cause): seq<Event>
    decreases |trace|
  {
    if trace == [] then []
    else
      var e := trace[|trace| - 1];
      LogAbout(trace[..|trace| - 1], c) + if e.cause == c then [e.event] else []
  }

  lemma {:induction false} AboutAppend(trace: seq<Emission>, es: seq<Emission>, c: Cause)
    ensures LogAbout(trace + es, c) == LogAbout(trace, c) + LogAbout(es, c)
    decreases |es|
  {
    if es == [] {
      assert trace + es == trace;
    } else {
      var n := |es| - 1;
      assert (trace + es)[..|trace + es| - 1] == trace + es[..n];
      AboutAppend(trace, es[..n], c);
    }
  }

  predicate NotAbout(es: seq<Emission>, c: Cause) {
    forall i :: 0 <= i < |es| ==> es[i].cause != c
  }

  lemma {:induction false} NothingAbout(es: seq<Emission>, c: Cause)
    requires NotAbout(es, c)
    ensures LogAbout(es, c) == []
    decreases |es|
  {
    if es != [] {
      NothingAbout(es[..|es| - 1], c);
    }
  }

  lemma OneAbout(e: Emission, c: Cause)
    ensures LogAbout([e], c) == if e.cause == c then [e.event] else []
    ensures LogAbout([], c) == []
  {
    assert [e][..0] == [];
  }

  // ---- Events that only go through the queue are delivered in order ----

  lemma StepReportsAbout(x: Sys, l: Label, c: Cause)
    requires Possible(x, l) && Delivered(x) && !c.OfStream?
    requires LogAbout(Reported(x), c) == LogAbout(x.trace, c)
    ensures LogAbout(Reported(Next(x, l)), c) == LogAbout(Next(x, l).trace, c)
  {
    hide Step, Events, NextExchanges, NextDialing, FailedOf, LogOf, LogAbout, InOrder, DirectStream;
    var o, x' := Step(x.h, l), Next(x, l);
    if l.TakeEvent? {
      TakesNothingNew(x.h);
      QueueNotEmpty(x);
      TakenKeepsReport(x);
      assert Reported(x') == Reported(x) && x.trace + [] == x.trace;
    } else {
      DirectIff(x.h, l);
      AboutAppend(Reported(x), o.emits, c);
      AboutAppend(x.trace, o.emits, c);
      if o.out.Custom? {
        var e := o.emits[0];
        assert o.emits == [e];
        AboutAppend(x.delivered + [e], x.queued, c);
        AboutAppend(x.delivered, [e], c);
        AboutAppend(x.delivered, x.queued, c);
        OneAbout(e, c);
        assert LogAbout(x.delivered, c) + [] == LogAbout(x.delivered, c);
      } else {
        assert Reported(x') == Reported(x) + o.emits;
      }
    }
  }

  lemma {:induction false} ReportedAbout(xs: seq<Sys>, ls: seq<Label>, c: Cause)
    requires IsRun(xs, ls) && !c.OfStream?
    ensures LogAbout(Reported(xs[|ls|]), c) == LogAbout(xs[|ls|].trace, c)
    decreases |ls|
  {
    hide Next, Possible, Inv, LogAbout;
    if ls == [] {
      assert Reported(xs[0]) == xs[0].trace;
    } else {
      var n := |ls| - 1;
      ReportedAbout(xs[..n + 1], ls[..n], c);
      RunKeepsInv(xs[..n + 1], ls[..n]);
      DeliveredOf(xs[n]);
      StepReportsAbout(xs[n], ls[n], c);
    }
  }

  lemma DeliveredOf(x: Sys)
    requires Inv(x)
    ensures Delivered(x)
  {
  }

  // ---- Requests that never get a substream ----

  /** The step shuts an active handler down. */
  predicate ShutsDown(h: Handler, l: Label) {
    && h.state.Active?
    && (l.Shutdown?
        || (l.InboundOpened? && (l.request.GoodbyeRequest? || (l.request.Expected() > 0 && |h.inbound| >= 32))))
  }

  /** With what errors the step fails requests `entry`. */
  ghost function ErrorsOf(h: Handler, l: Label, entry: Entry): seq<RpcError> {
    if ShutsDown(h, l) then seq(multiset(h.dialQueue)[entry], _ => Disconnected)
    else if l.SendRequest? && l.entry == entry && !h.state.Active? then [Disconnected]
    else if l.OutboundOpened? && l.entry == entry && entry.1.Expected() == 0 && h.state.Deactivated? then [Disconnected]
    else if l.DialFailed? && l.entry == entry then
      (if !l.io || h.ioRetries >= 2 then [l.error] else if h.state.Active? then [] else [Disconnected])
    else []
  }

  ghost function Errors(xs: seq<Sys>, ls: seq<Label>, entry: Entry): seq<RpcError>
    requires |xs| == |ls| + 1
    decreases |ls|
  {
    if ls == [] then []
    else
      var n := |ls| - 1;
      Errors(xs[..n + 1], ls[..n], entry) + ErrorsOf(xs[n].h, ls[n], entry)
  }

  /** One error event for the request per error. */
  function Complaints(entry: Entry, errors: seq<RpcError>): seq<Event> {
    seq(|errors|, i requires 0 <= i < |errors| => OutboundErr(entry.0, entry.1.Protocol(), errors[i]))
  }

  lemma {:induction false} FlushedAbout(q: seq<Entry>, entry: Entry)
    ensures LogAbout(Flushed(q), OfRequest(entry)) == Complaints(entry, seq(multiset(q)[entry], _ => Disconnected))
    decreases |q|
  {
    hide LogAbout;
    var c := OfRequest(entry);
    if q == [] {
      OneAbout(Failure(entry, Disconnected), c);
    } else {
      var n := |q| - 1;
      var first := Failure(q[n], Disconnected);
      FlushedAbout(q[..n], entry);
      AboutAppend([first], Flushed(q[..n]), c);
      OneAbout(first, c);
      assert q == q[..n] + [q[n]];
      assert multiset(q)[entry] == multiset(q[..n])[entry] + if q[n] == entry then 1 else 0;
    }
  }

  /** What the step reports of requests `entry` is what its errors say. */
  ghost predicate Complains(h: Handler, l: Label, entry: Entry)
    requires Enabled(h, l)
  {
    LogAbout(Step(h, l).emits, OfRequest(entry)) == Complaints(entry, ErrorsOf(h, l, entry))
  }

  lemma NoRequestCauses(h: Handler, l: Label)
    requires Enabled(h, l) && !IsBookLabel(l)
    ensures forall i :: 0 <= i < |Step(h, l).emits| ==> !Step(h, l).emits[i].cause.OfRequest?
  {
    hide Events, TimeoutChunk, EndsOpen, SendResult, InboundReset, ChunkEvent, Left, Full, Drained, Failure;
  }

  lemma QuietComplains(h: Handler, l: Label, entry: Entry)
    requires Enabled(h, l) && !IsBookLabel(l)
    ensures Complains(h, l, entry)
  {
    hide Step, LogAbout;
    NoRequestCauses(h, l);
    NothingAbout(Step(h, l).emits, OfRequest(entry));
  }

  lemma DialComplains(h: Handler, l: Label, entry: Entry)
    requires Enabled(h, l) && (l.SendRequest? || l.OutboundOpened? || l.DialFailed? || l.StartDial?)
    ensures Complains(h, l, entry)
  {
    hide LogAbout, Events, OutboundStored;
    var es := Step(h, l).emits;
    if es == [] {
      OneAbout(Failure(entry, Disconnected), OfRequest(entry));
    } else {
      assert es == [es[0]];
      OneAbout(es[0], OfRequest(entry));
    }
  }

  lemma ShutDownComplains(h: Handler, goodbye: Option<Id>, now: Instant, entry: Entry)
    ensures LogAbout(ShutDown(h, goodbye, now).emits, OfRequest(entry))
         == if h.state.Active? then Complaints(entry, seq(multiset(h.dialQueue)[entry], _ => Disconnected)) else []
  {
    hide LogAbout, Events, Flushed;
    FlushedAbout(h.dialQueue, entry);
    OneAbout(Failure(entry, Disconnected), OfRequest(entry));
  }

  lemma OpeningComplains(h: Handler, l: Label, entry: Entry)
    requires Enabled(h, l) && l.InboundOpened?
    ensures Complains(h, l, entry)
  {
    hide LogAbout, Events, ShutDown, InboundStored;
    var c := OfRequest(entry);
    var rejected :=
      Emission(OfInbound(h.nextInbound), InboundErr(h.nextInbound, l.request.Protocol(), HandlerRejected));
    var received := Emission(OfInbound(h.nextInbound), Received(h.nextInbound, l.request));
    var queued := Queued(h, [rejected]).next;
    ShutDownComplains(queued, None, l.now, entry);
    ShutDownComplains(h, None, l.now, entry);
    AboutAppend([rejected], ShutDown(queued, None, l.now).emits, c);
    AboutAppend(ShutDown(h, None, l.now).emits, [received], c);
    AboutAppend([], [received], c);
    OneAbout(rejected, c);
    OneAbout(received, c);
  }

  lemma StepComplains(h: Handler, l: Label, entry: Entry)
    requires Enabled(h, l)
    ensures Complains(h, l, entry)
  {
    hide Complains, Step;
    if !IsBookLabel(l) {
      QuietComplains(h, l, entry);
    } else if l.InboundOpened? {
      OpeningComplains(h, l, entry);
    } else if l.Shutdown? {
      ClosingComplains(h, l, entry);
    } else {
      DialComplains(h, l, entry);
    }
  }

  lemma ClosingComplains(h: Handler, l: Label, entry: Entry)
    requires Enabled(h, l) && l.Shutdown?
    ensures Complains(h, l, entry)
  {
    hide LogAbout, ShutDown;
    ShutDownComplains(h, Some(l.goodbye), l.now, entry);
  }

  lemma ComplaintsBoth(entry: Entry, a: seq<RpcError>, b: seq<RpcError>)
    ensures Complaints(entry, a + b) == Complaints(entry, a) + Complaints(entry, b)
  {
  }

  lemma EnabledIfPossible(x: Sys, l: Label)
    requires Possible(x, l)
    ensures Enabled(x.h, l) && Next(x, l).h == Step(x.h, l).next && Next(x, l).trace == x.trace + Step(x.h, l).emits
  {
  }

  lemma {:induction false} TracesComplain(xs: seq<Sys>, ls: seq<Label>, entry: Entry)
    requires IsRun(xs, ls)
    ensures LogAbout(xs[|ls|].trace, OfRequest(entry)) == Complaints(entry, Errors(xs, ls, entry))
    decreases |ls|
  {
    hide Next, Possible, LogAbout, ErrorsOf, Enabled, Step;
    if ls == [] {
      OneAbout(Failure(entry, Disconnected), OfRequest(entry));
    } else {
      var n := |ls| - 1;
      var x, l := xs[n], ls[n];
      TracesComplain(xs[..n + 1], ls[..n], entry);
      EnabledIfPossible(x, l);
      StepComplains(x.h, l, entry);
      AboutAppend(x.trace, Step(x.h, l).emits, OfRequest(entry));
      ComplaintsBoth(entry, Errors(xs[..n + 1], ls[..n], entry), ErrorsOf(x.h, l, entry));
    }
  }

  /**
   * What the application is told of a request that gets no substream, in order: the error of its last
   * dial, or that the connection is going when it is sent too late, is queued at shutdown, comes back
   * for another try afterwards, or needs no answer and is negotiated after the end. Nothing else.
   */
  lemma FailuresTold(xs: seq<Sys>, ls: seq<Label>, entry: Entry)
    requires IsRun(xs, ls)
    ensures LogAbout(xs[|ls|].delivered + xs[|ls|].queued, OfRequest(entry)) == Complaints(entry, Errors(xs, ls, entry))
  {
    hide Next, Possible, LogAbout;
    TracesComplain(xs, ls, entry);
    ReportedAbout(xs, ls, OfRequest(entry));
  }

  // ---- Shutting down ----

  /** When the handler began to shut down. */
  ghost function Began(xs: seq<Sys>, ls: seq<Label>): Option<Instant>
    requires |xs| == |ls| + 1
    decreases |ls|
  {
    if ls == [] then None
    else
      var n := |ls| - 1;
      var before := Began(xs[..n + 1], ls[..n]);
      if before.None? && ShutsDown(xs[n].h, ls[n]) then Some(ls[n].now) else before
  }

  /** The fifteen seconds of grace have run out. */
  predicate GraceOver(ls: seq<Label>) { exists i :: 0 <= i < |ls| && ls[i].ShutdownExpired? }

  /** Active until it begins, for fifteen seconds open to what was under way, and then deactivated. */
  predicate ShutOk(h: Handler, began: Option<Instant>, over: bool) {
    && (h.state.Active? <==> began.None?)
    && (h.state.Deactivated? <==> over)
    && (h.state.ShuttingDown? ==> h.state.until == began.value + 15 * NANOS_PER_SEC)
    && (!h.state.Active? ==> |h.dialQueue| <= 1 && forall e :: e in h.dialQueue ==> e.1.GoodbyeRequest?)
  }

  lemma StepKeepsShut(h: Handler, l: Label, began: Option<Instant>, over: bool)
    requires Enabled(h, l) && ShutOk(h, began, over)
    ensures ShutOk(Step(h, l).next, if began.None? && ShutsDown(h, l) then Some(l.now) else began,
                   over || l.ShutdownExpired?)
  {
    hide Step, ShutOk;
    if IsBookLabel(l) || l.ShutdownExpired? {
      BookLabelsKeepShut(h, l, began, over);
    } else {
      OthersKeepShut(h, l);
      SameShutOk(h, Step(h, l).next, began, over);
    }
  }

  predicate SameShut(h: Handler, h': Handler) { h'.state == h.state && h'.dialQueue == h.dialQueue }

  lemma SameShutOk(h: Handler, h': Handler, began: Option<Instant>, over: bool)
    requires ShutOk(h, began, over) && SameShut(h, h')
    ensures ShutOk(h', began, over)
  {
  }

  lemma OthersKeepShut(h: Handler, l: Label)
    requires Enabled(h, l) && !IsBookLabel(l) && !l.ShutdownExpired?
    ensures SameShut(h, Step(h, l).next)
  {
    hide Events, TimeoutChunk, EndsOpen, SendResult, InboundReset, ChunkEvent, Left, IsBlocks, Drained, Failure;
  }

  lemma BookLabelsKeepShut(h: Handler, l: Label, began: Option<Instant>, over: bool)
    requires Enabled(h, l) && (IsBookLabel(l) || l.ShutdownExpired?) && ShutOk(h, began, over)
    ensures ShutOk(Step(h, l).next, if began.None? && ShutsDown(h, l) then Some(l.now) else began,
                   over || l.ShutdownExpired?)
  {
    hide Step, ShutOk;
    if l.Shutdown? || l.InboundOpened? || l.ShutdownExpired? {
      ClosingKeepsShut(h, l, began, over);
    } else {
      DialingKeepsShut(h, l, began, over);
    }
  }

  lemma ClosingKeepsShut(h: Handler, l: Label, began: Option<Instant>, over: bool)
    requires Enabled(h, l) && (l.Shutdown? || l.InboundOpened? || l.ShutdownExpired?) && ShutOk(h, began, over)
    ensures ShutOk(Step(h, l).next, if began.None? && ShutsDown(h, l) then Some(l.now) else began,
                   over || l.ShutdownExpired?)
  {
    hide Events, Flushed, Failure, InboundStored;
    if l.InboundOpened? { StoringKeepsShut(h, l.request, l.key, l.now); }
  }

  lemma DialingKeepsShut(h: Handler, l: Label, began: Option<Instant>, over: bool)
    requires Enabled(h, l) && (l.SendRequest? || l.OutboundOpened? || l.DialFailed? || l.StartDial?)
    requires ShutOk(h, began, over)
    ensures ShutOk(Step(h, l).next, began, over)
  {
    hide Events, Failure;
  }

  /**
   * Over every run: the handler is active until it is told to shut down, gets a goodbye or has to
   * reject a request; it is deactivated exactly when its fifteen seconds are over; and from the
   * beginning of its shutdown on, a goodbye is all it may still dial for.
   */
  lemma {:induction false} ShutdownOverRuns(xs: seq<Sys>, ls: seq<Label>)
    requires IsRun(xs, ls)
    ensures ShutOk(xs[|ls|].h, Began(xs, ls), GraceOver(ls))
    decreases |ls|
  {
    hide Next, Possible, ShutsDown, Enabled, Step, ShutOk;
    if ls == [] {
      StartsActive();
    } else {
      var n := |ls| - 1;
      ShutdownOverRuns(xs[..n + 1], ls[..n]);
      EnabledIfPossible(xs[n], ls[n]);
      StepKeepsShut(xs[n].h, ls[n], Began(xs[..n + 1], ls[..n]), GraceOver(ls[..n]));
      GraceMore(ls);
    }
  }

  lemma GraceMore(ls: seq<Label>)
    requires ls != []
    ensures GraceOver(ls) <==> GraceOver(ls[..|ls| - 1]) || ls[|ls| - 1].ShutdownExpired?
  {
    var front := ls[..|ls| - 1];
    if GraceOver(front) {
      var i :| 0 <= i < |front| && front[i].ShutdownExpired?;
      assert ls[i].ShutdownExpired?;
    }
    if GraceOver(ls) {
      var i :| 0 <= i < |ls| && ls[i].ShutdownExpired?;
      if i < |front| { assert front[i].ShutdownExpired?; }
    }
  }

  lemma StartsActive()
    ensures ShutOk(Start.h, None, GraceOver([]))
  {
  }

  /**
   * Over every run the connection may go exactly when the grace is over, or when a shutdown has begun,
   * nothing is left to do and no dial was ever retried.
   */
  lemma KeepAliveOverRuns(xs: seq<Sys>, ls: seq<Label>)
    requires IsRun(xs, ls)
    ensures
      var x := xs[|ls|];
      MayDrop(x.h) <==> GraceOver(ls) || (Began(xs, ls).Some? && NothingLeft(x) && x.retried == 0)
  {
    hide Next, Possible, NothingLeft, Drained;
    ShutdownOverRuns(xs, ls);
    if xs[|ls|].h.state.ShuttingDown? { GracefulCloseIsClean(xs, ls); }
  }

  // ---- The order of dials ----

  /** The request the step puts into the dial queue of an active handler. */
  ghost function EnqueuedBy(h: Handler, l: Label): seq<Entry> {
    if !h.state.Active? then []
    else if l.SendRequest? || (l.DialFailed? && l.io && h.ioRetries < 2) then [l.entry]
    else []
  }

  ghost function Enqueued(xs: seq<Sys>, ls: seq<Label>): seq<Entry>
    requires |xs| == |ls| + 1
    decreases |ls|
  {
    if ls == [] then []
    else Enqueued(xs[..|ls|], ls[..|ls| - 1]) + EnqueuedBy(xs[|ls| - 1].h, ls[|ls| - 1])
  }

  /** The requests substreams have been asked for, in order. */
  ghost function Dialed(xs: seq<Sys>, ls: seq<Label>): seq<Entry>
    requires |xs| == |ls| + 1 && forall i :: 0 <= i < |ls| ==> Enabled(xs[i].h, ls[i])
    decreases |ls|
  {
    if ls == [] then []
    else
      var n := |ls| - 1;
      var out := Step(xs[n].h, ls[n]).out;
      Dialed(xs[..n + 1], ls[..n]) + if out.OpenSubstream? then [out.entry] else []
  }

  lemma DialStep(h: Handler, l: Label)
    requires Enabled(h, l) && Step(h, l).next.state.Active?
    ensures h.state.Active?
    ensures
      var o := Step(h, l);
      h.dialQueue + EnqueuedBy(h, l) == (if o.out.OpenSubstream? then [o.out.entry] else []) + o.next.dialQueue
  {
    hide Step;
    if IsBookLabel(l) || l.ShutdownExpired? {
      BookDials(h, l);
    } else {
      OthersKeepShut(h, l);
      OthersDialNothing(h, l);
    }
  }

  lemma OthersDialNothing(h: Handler, l: Label)
    requires Enabled(h, l) && !l.StartDial?
    ensures !Step(h, l).out.OpenSubstream?
  {
    hide Events, TimeoutChunk, EndsOpen, SendResult, InboundReset, ChunkEvent, Left, IsBlocks, Drained, Failure,
      Flushed;
  }

  lemma BookDials(h: Handler, l: Label)
    requires Enabled(h, l) && (IsBookLabel(l) || l.ShutdownExpired?) && Step(h, l).next.state.Active?
    ensures h.state.Active?
    ensures
      var o := Step(h, l);
      h.dialQueue + EnqueuedBy(h, l) == (if o.out.OpenSubstream? then [o.out.entry] else []) + o.next.dialQueue
  {
    hide Step;
    if l.Shutdown? || l.InboundOpened? || l.ShutdownExpired? {
      ClosingDials(h, l);
      OthersDialNothing(h, l);
    } else {
      DialingDials(h, l);
    }
  }

  lemma ClosingDials(h: Handler, l: Label)
    requires Enabled(h, l) && (l.Shutdown? || l.InboundOpened? || l.ShutdownExpired?)
    ensures Step(h, l).next.state.Active? ==> h.state.Active? && Step(h, l).next.dialQueue == h.dialQueue
  {
    hide Events, Flushed, Failure, InboundStored, Full;
    if l.InboundOpened? { StoringKeepsShut(h, l.request, l.key, l.now); }
  }

  lemma StoringKeepsShut(h: Handler, request: Request, key: TimerKey, now: Instant)
    ensures SameShut(h, InboundStored(h, request, key, now))
  {
  }

  lemma DialingDials(h: Handler, l: Label)
    requires Enabled(h, l) && (l.SendRequest? || l.OutboundOpened? || l.DialFailed? || l.StartDial?)
    ensures Step(h, l).next.state == h.state
    ensures
      var o := Step(h, l);
      h.state.Active? ==>
        h.dialQueue + EnqueuedBy(h, l) == (if o.out.OpenSubstream? then [o.out.entry] else []) + o.next.dialQueue
  {
    hide Events, Failure;
    if l.StartDial? { assert h.dialQueue == [h.dialQueue[0]] + h.dialQueue[1..]; }
  }

  /** While the handler is active, requests are dialed in the order in which they were queued. */
  lemma {:induction false} DialsInOrder(xs: seq<Sys>, ls: seq<Label>)
    requires IsRun(xs, ls) && xs[|ls|].h.state.Active?
    ensures forall i :: 0 <= i < |ls| ==> Enabled(xs[i].h, ls[i])
    ensures Enqueued(xs, ls) == Dialed(xs, ls) + xs[|ls|].h.dialQueue
    decreases |ls|
  {
    hide Next, Possible, EnqueuedBy, Enabled, Step;
    forall i | 0 <= i < |ls|
      ensures Enabled(xs[i].h, ls[i])
    {
      EnabledIfPossible(xs[i], ls[i]);
    }
    if ls != [] {
      var n := |ls| - 1;
      EnabledIfPossible(xs[n], ls[n]);
      DialStep(xs[n].h, ls[n]);
      DialsInOrder(xs[..n + 1], ls[..n]);
      var o := Step(xs[n].h, ls[n]);
      var before, now := Dialed(xs[..n + 1], ls[..n]), if o.out.OpenSubstream? then [o.out.entry] else [];
      Behind(before, xs[n].h.dialQueue, EnqueuedBy(xs[n].h, ls[n]), now, o.next.dialQueue);
    }
  }

  lemma Behind(before: seq<Entry>, a: seq<Entry>, b: seq<Entry>, c: seq<Entry>, d: seq<Entry>)
    requires a + b == c + d
    ensures before + a + b == before + c + d
  {
    assert before + a + b == before + (a + b) && before + c + d == before + (c + d);
  }
}
