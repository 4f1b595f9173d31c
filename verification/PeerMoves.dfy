/** What each call to the peer manager does to the connections of one peer. */
module PeerMoves {
  import opened Common
  import opened PeerInfos
  import opened PeerTables
  import opened PeerReports
  import opened PeerDbs
  import opened PeerSystems
  import Orders
  import Scores

  /** What of a record its connections determine. */
  datatype Standing = Standing(
    status: PeerConnectionStatus, seen: set<SocketAddr>, direction: Option<ConnectionDirection>)

  function StandingOf(info: PeerInfo): Standing { Standing(info.status, info.seenAddresses, info.direction) }

  /** A peer that is not in the database stands like one that has never connected. */
  function StandingIn(db: Db, p: PeerId): Standing {
    if p in db.peers then StandingOf(db.peers[p]) else Standing(Unknown, {}, None)
  }

  /** The standing after a requested transition, or after none. */
  function MovedBy(db: Db, p: PeerId, move: Option<NewConnectionState>, now: Instant): Standing {
    if move.None? then StandingIn(db, p)
    else StandingOf(NextInfo(InfoOf(db, p, move.value, now), move.value, now))
  }

  // ---- Single transitions ----

  lemma MoveIgnoresScore(info: PeerInfo, info': PeerInfo, req: NewConnectionState, now: Instant)
    requires StandingOf(info) == StandingOf(info')
    ensures StandingOf(NextInfo(info, req, now)) == StandingOf(NextInfo(info', req, now))
  {
    hide Scores.StateOf;
  }

  /** Rescoring changes nobody's standing, nor how it moves. */
  lemma RescoredMoves(db: Db, db': Db, p: PeerId, move: Option<NewConnectionState>, now: Instant)
    requires StandingIn(db', p) == StandingIn(db, p) && (p in db'.peers <==> p in db.peers)
    ensures MovedBy(db', p, move, now) == MovedBy(db, p, move, now)
  {
    hide NextInfo;
    if move.Some? && p in db.peers {
      MoveIgnoresScore(db.peers[p], db'.peers[p], move.value, now);
    }
  }

  lemma UpdateMoves(db: Db, p: PeerId, req: NewConnectionState, now: Instant)
    ensures p in Updated(db, p, req, now).0.peers
    ensures StandingIn(Updated(db, p, req, now).0, p) == MovedBy(db, p, Some(req), now)
  {
    hide NextInfo, NextBans, NextDisconnected, NextOperation;
  }

  function MoveFor(t: ScoreTransition): Option<NewConnectionState> {
    match t
    case BecameBanned => Some(ToBanned)
    case BecameDisconnected => Some(ToDisconnecting(false))
    case BecameUnbanned => Some(ToUnbanned)
    case NoTransition => None
  }

  lemma ActMoves(db: Db, p: PeerId, t: ScoreTransition, now: Instant)
    requires p in db.peers
    ensures p in Acted(db, p, t, now).0.peers
    ensures StandingIn(Acted(db, p, t, now).0, p) == MovedBy(db, p, MoveFor(t), now)
  {
    hide Updated, MovedBy;
    match t
    case BecameBanned => UpdateMoves(db, p, ToBanned, now);
    case BecameDisconnected => UpdateMoves(db, p, ToDisconnecting(false), now);
    case BecameUnbanned => UpdateMoves(db, p, ToUnbanned, now);
    case NoTransition => StaysPut(db, p, now);
  }

  lemma StaysPut(db: Db, p: PeerId, now: Instant)
    ensures MovedBy(db, p, None, now) == StandingIn(db, p)
  {
  }

  /** Acting on one peer leaves the records of the others alone. */
  ghost predicate SameRecord(db: Db, db': Db, q: PeerId) {
    (q in db'.peers <==> q in db.peers) && (q in db.peers ==> db'.peers[q] == db.peers[q])
  }

  lemma ActElsewhere(db: Db, p: PeerId, t: ScoreTransition, now: Instant, q: PeerId)
    requires q != p
    ensures SameRecord(db, Acted(db, p, t, now).0, q)
  {
    hide Updated;
    match t
    case BecameBanned => UpdateElsewhere(db, p, ToBanned, now, q);
    case BecameDisconnected => UpdateElsewhere(db, p, ToDisconnecting(false), now, q);
    case BecameUnbanned => UpdateElsewhere(db, p, ToUnbanned, now, q);
    case NoTransition =>
  }

  lemma SameRecordMoves(db: Db, db': Db, q: PeerId, move: Option<NewConnectionState>, now: Instant)
    requires SameRecord(db, db', q)
    ensures StandingIn(db', q) == StandingIn(db, q) && MovedBy(db', q, move, now) == MovedBy(db, q, move, now)
  {
    hide NextInfo;
  }

  // ---- Transitions of several peers ----

  lemma {:induction false} UnbansMove(db: Db, order: seq<PeerId>, now: Instant, p: PeerId)
    requires NoDup(order) && forall q :: q in order ==> q in db.peers
    ensures
      var db' := AllUnbanned(db, order, now).0;
      && (p in db'.peers <==> p in db.peers)
      && StandingIn(db', p) == MovedBy(db, p, if p in order then Some(ToUnbanned) else None, now)
      && (p !in order ==> SameRecord(db, db', p))
    decreases |order|
  {
    hide Unban, MovedBy, StandingIn;
    if order == [] {
      StaysPut(db, p, now);
    } else {
      var n := |order| - 1;
      var front, q := order[..n], order[n];
      var mid := AllUnbanned(db, front, now).0;
      assert order == front + [q] && q !in front;
      UnbansMove(db, front, now, p);
      UnbanIs(mid, q, now);
      if p == q {
        SameRecordMoves(db, mid, p, Some(ToUnbanned), now);
        UpdateMoves(mid, p, ToUnbanned, now);
      } else {
        UpdateElsewhere(mid, q, ToUnbanned, now, p);
        SameRecordMoves(mid, Unban(mid, q, now).0, p, None, now);
      }
    }
  }

  lemma UnbanIs(db: Db, p: PeerId, now: Instant)
    ensures Unban(db, p, now).0 == Updated(db, p, ToUnbanned, now).0
  {
  }

  lemma {:induction false} DisconnectsMove(db: Db, order: seq<PeerId>, now: Instant, p: PeerId)
    requires NoDup(order) && forall q :: q in order ==> q in db.peers
    ensures
      var db' := AllDisconnected(db, order, now);
      && (p in db'.peers <==> p in db.peers)
      && StandingIn(db', p) == MovedBy(db, p, if p in order then Some(ToDisconnected) else None, now)
      && (p !in order ==> SameRecord(db, db', p))
    decreases |order|
  {
    hide Updated, MovedBy, StandingIn;
    if order == [] {
      StaysPut(db, p, now);
    } else {
      var n := |order| - 1;
      var front, q := order[..n], order[n];
      var mid := AllDisconnected(db, front, now);
      assert order == front + [q] && q !in front;
      DisconnectsMove(db, front, now, p);
      if p == q {
        SameRecordMoves(db, mid, p, Some(ToDisconnected), now);
        UpdateMoves(mid, p, ToDisconnected, now);
      } else {
        UpdateElsewhere(mid, q, ToDisconnected, now, p);
        SameRecordMoves(mid, Updated(mid, q, ToDisconnected, now).0, p, None, now);
      }
    }
  }

  lemma {:induction false} DisconnectingsMove(db: Db, order: seq<PeerId>, now: Instant, p: PeerId)
    requires NoDup(order) && forall q :: q in order ==> q in db.peers
    ensures
      var db' := AllDisconnecting(db, order, now);
      && (p in db'.peers <==> p in db.peers)
      && StandingIn(db', p) == MovedBy(db, p, if p in order then Some(ToDisconnecting(false)) else None, now)
      && (p !in order ==> SameRecord(db, db', p))
    decreases |order|
  {
    hide Updated, MovedBy, StandingIn;
    var req := ToDisconnecting(false);
    if order == [] {
      StaysPut(db, p, now);
    } else {
      var n := |order| - 1;
      var front, q := order[..n], order[n];
      var mid := AllDisconnecting(db, front, now);
      assert order == front + [q] && q !in front;
      DisconnectingsMove(db, front, now, p);
      if p == q {
        SameRecordMoves(db, mid, p, Some(req), now);
        UpdateMoves(mid, p, req, now);
      } else {
        UpdateElsewhere(mid, q, req, now, p);
        SameRecordMoves(mid, Updated(mid, q, req, now).0, p, None, now);
      }
    }
  }

  /** Acting on the others first, or afterwards, makes no difference to a peer. */
  lemma {:induction false} ActsLeave(db: Db, acts: seq<(PeerId, ScoreTransition)>, now: Instant, p: PeerId)
    requires forall i :: 0 <= i < |acts| ==> acts[i].0 != p
    ensures SameRecord(db, AllActed(db, acts, now).0, p)
    decreases |acts|
  {
    hide Acted;
    if acts != [] {
      var n := |acts| - 1;
      ActsLeave(db, acts[..n], now, p);
      ActElsewhere(AllActed(db, acts[..n], now).0, acts[n].0, acts[n].1, now, p);
    }
  }

  lemma {:induction false} ActsMove(db: Db, acts: seq<(PeerId, ScoreTransition)>, now: Instant, i: nat)
    requires i < |acts| && (forall j, k :: 0 <= j < k < |acts| ==> acts[j].0 != acts[k].0) && acts[i].0 in db.peers
    ensures
      var (p, t) := acts[i];
      p in AllActed(db, acts, now).0.peers && AllActed(db, acts, now).0.peers[p] == Acted(db, p, t, now).0.peers[p]
    decreases |acts|
  {
    hide Acted;
    var n := |acts| - 1;
    var (p, t) := acts[i];
    var mid := AllActed(db, acts[..n], now).0;
    if i == n {
      ActsLeave(db, acts[..n], now, p);
      SameAct(db, mid, p, t, now);
    } else {
      ActsMove(db, acts[..n], now, i);
      ActElsewhere(mid, acts[n].0, acts[n].1, now, p);
    }
  }

  lemma SameAct(db: Db, db': Db, p: PeerId, t: ScoreTransition, now: Instant)
    requires p in db.peers && SameRecord(db, db', p)
    ensures p in Acted(db, p, t, now).0.peers && p in Acted(db', p, t, now).0.peers
    ensures Acted(db', p, t, now).0.peers[p] == Acted(db, p, t, now).0.peers[p]
  {
    hide NextInfo, NextBans, NextDisconnected, NextOperation;
  }

  // ---- What a call does to one peer, and why ----

  /** The last connection to the peer is gone, dialing it failed, or has taken too long. */
  predicate Closes(db: Db, c: Call, p: PeerId) {
    || (c.Closed? && c.peer == p && c.remaining == 0)
    || (c.DialFailed? && c.failed == Some(p) && !(p in db.peers && db.peers[p].status.Connected?))
  }

  predicate UpOrDialing(db: Db, p: PeerId) {
    p in db.peers && (db.peers[p].status.Connected? || db.peers[p].status.Dialing?)
  }

  ghost predicate ToldToGo(es: seq<Event>, p: PeerId) { exists reason :: DisconnectPeer(p, reason) in es }

  ghost predicate ToldUnbanned(es: seq<Event>, p: PeerId) { exists ips :: PeerUnbanned(p, ips) in es }

  /** The calls that can ask for this transition of `p`, and what they announce. */
  ghost predicate Reason(db: Db, c: Call, es: seq<Event>, p: PeerId, req: NewConnectionState) {
    match req
    case ToConnected(_, seen, direction) =>
      c.Established? && c.peer == p && seen == c.addr && direction == c.direction
    case ToDialing(_, _) => c.Dial? && c.peer == p
    case ToDisconnecting(toBan) =>
      !toBan && ToldToGo(es, p) && ((c.Established? && c.peer == p) || UpOrDialing(db, p))
    case ToDisconnected => Closes(db, c, p) || (c.CleanupDialing? && p in db.peers && db.peers[p].status.Dialing?)
    case ToBanned =>
      && p in db.peers && ((c.Report? && c.peer == p) || (c.Established? && c.peer == p) || c.Gossip?)
      && (UpOrDialing(db, p) ==> ToldToGo(es, p))
    case ToUnbanned => (c.Tick? || c.Gossip?) && ToldUnbanned(es, p)
  }

  ghost predicate Admits(es: seq<Event>, p: PeerId, d: ConnectionDirection) { PeerConnected(p, d) in es }

  /** The last connection to a peer that is connected or being disconnected is gone. */
  predicate GoesDown(db: Db, c: Call, p: PeerId) {
    && c.Closed? && c.peer == p && c.remaining == 0
    && p in db.peers && (db.peers[p].status.Connected? || db.peers[p].status.Disconnecting?)
  }

  /**
   * The call moves the peer like this, for a reason, and announces a new connection, or the end of the
   * last one, exactly if there is one.
   */
  ghost predicate Explains(db: Db, c: Call, es: seq<Event>, db': Db, p: PeerId, move: Option<NewConnectionState>) {
    && (p in db'.peers ==> StandingIn(db', p) == MovedBy(db, p, move, TimeOf(c)))
    && (forall d :: Admits(es, p, d) <==> move.Some? && move.value.ToConnected? && move.value.direction == d)
    && (PeerDisconnected(p) in es <==> GoesDown(db, c, p))
    && (move.Some? ==> Reason(db, c, es, p, move.value))
    && (Closes(db, c, p) ==> move == Some(ToDisconnected))
    && (move.Some? && move.value.ToConnected? ==> p in db'.peers)
  }

  /** Events that announce neither a connection nor its end. */
  ghost predicate NoConnection(es: seq<Event>) {
    forall e :: e in es ==> !e.PeerConnected? && !e.PeerDisconnected?
  }

  lemma QuietExplains(db: Db, c: Call, es: seq<Event>, db': Db, p: PeerId)
    requires NoConnection(es) && !Closes(db, c, p) && StandingIn(db', p) == StandingIn(db, p)
    ensures Explains(db, c, es, db', p, None)
  {
    hide StandingIn;
  }

  /** A transition other than a connection. */
  lemma MoveExplains(db: Db, c: Call, es: seq<Event>, db': Db, p: PeerId, req: NewConnectionState)
    requires NoConnection(es) && !req.ToConnected? && Reason(db, c, es, p, req)
    requires !Closes(db, c, p)
    requires p in db'.peers ==> StandingIn(db', p) == MovedBy(db, p, Some(req), TimeOf(c))
    ensures Explains(db, c, es, db', p, Some(req))
  {
    hide StandingIn, Reason, MovedBy;
  }

  lemma ResultsAreQuiet(p: PeerId, result: ScoreUpdateResult, reason: Option<GoodbyeReason>)
    ensures NoConnection(ResultEvents(p, result, reason))
  {
  }

  /** What acting on a transition announces. */
  lemma ActAnnounces(db: Db, p: PeerId, t: ScoreTransition, now: Instant, reason: Option<GoodbyeReason>)
    ensures
      var es := ResultEvents(p, Acted(db, p, t, now).1, reason);
      && (t.BecameDisconnected? ==> es == [DisconnectPeer(p, BadScore)])
      && (t.BecameUnbanned? ==> |es| == 1 && es[0].PeerUnbanned? && es[0].peer == p)
      && (t.BecameBanned? && UpOrDialing(db, p) ==> |es| == 1 && es[0].DisconnectPeer? && es[0].peer == p)
  {
    hide NextInfo, NextStatus, NextBans, NextDisconnected;
  }

  /** Acting on one peer because of its score. */
  lemma ScoreMoveExplains(db: Db, c: Call, es: seq<Event>, db': Db, p: PeerId, previous: Scores.ScoreState,
                          info: PeerInfo, t: ScoreTransition)
    returns (move: Option<NewConnectionState>)
    requires p in db.peers && StandingOf(info) == StandingOf(db.peers[p]) && !Closes(db, c, p)
    requires t == TransitionOf(previous, info) || t == NoTransition
    requires c.Gossip? || (!t.BecameUnbanned? && (c.Report? || c.Established?) && c.peer == p)
    requires NoConnection(es) && p in db'.peers && StandingIn(db', p) == MovedBy(db, p, MoveFor(t), TimeOf(c))
    requires t.BecameDisconnected? || (t.BecameBanned? && UpOrDialing(db, p)) ==> ToldToGo(es, p)
    requires t.BecameUnbanned? ==> ToldUnbanned(es, p)
    ensures Explains(db, c, es, db', p, move)
  {
    hide StandingIn, MovedBy, TransitionOf, NoConnection, ToldToGo, ToldUnbanned;
    move := MoveFor(t);
    if t.NoTransition? {
      StaysPut(db, p, TimeOf(c));
      QuietExplains(db, c, es, db', p);
    } else {
      if t.BecameDisconnected? { DisconnectMeansConnected(previous, info); }
      MoveExplains(db, c, es, db', p, move.value);
    }
  }

  lemma ReportMoves(db: Db, c: Call, es: seq<Event>, db': Db, p: PeerId, q: PeerId, action: Scores.PeerAction,
                    reason: Option<GoodbyeReason>)
    returns (move: Option<NewConnectionState>)
    requires ((c.Report? || c.Established?) && c.peer == q) && (q in db.peers ==> ScoreOk(db.peers[q].score))
    requires db' == Reported(db, q, action, TimeOf(c)).0
    requires es == ResultEvents(q, Reported(db, q, action, TimeOf(c)).1, reason)
    ensures Explains(db, c, es, db', p, move)
  {
    hide StandingIn, MovedBy, TransitionOf, Acted, Explains, Penalised, ScoreOk, Scores.StateOf;
    ResultsAreQuiet(q, Reported(db, q, action, TimeOf(c)).1, reason);
    if q !in db.peers {
      move := None;
      QuietExplains(db, c, es, db', p);
    } else {
      var info, now := Penalised(db.peers[q], action), TimeOf(c);
      var mid, t := WithInfo(db, q, info), ReportTransition(db.peers[q], action);
      ReportNeverUnbans(db.peers[q], action);
      PenalisedStanding(db.peers[q], action);
      if p == q {
        ActMoves(mid, p, t, now);
        SameStandingIn(db, mid, p);
        RescoredMoves(db, mid, p, MoveFor(t), now);
        ActAnnounces(mid, p, t, now, reason);
        if t.BecameDisconnected? || (t.BecameBanned? && UpOrDialing(db, p)) { SaidToGo(es, p, es[0].reason); }
        move := ScoreMoveExplains(db, c, es, db', p, Scores.StateOf(db.peers[p].score), info, t);
      } else {
        ActElsewhere(mid, q, t, now, p);
        SameRecordMoves(mid, db', p, None, now);
        SameStandingElsewhere(db, q, info, p);
        move := None;
        QuietExplains(db, c, es, db', p);
      }
    }
  }

  lemma PenalisedStanding(info: PeerInfo, action: Scores.PeerAction)
    ensures StandingOf(Penalised(info, action)) == StandingOf(info)
  {
  }

  lemma SameStandingIn(db: Db, db': Db, p: PeerId)
    requires p in db.peers && p in db'.peers && StandingOf(db'.peers[p]) == StandingOf(db.peers[p])
    ensures StandingIn(db', p) == StandingIn(db, p)
  {
  }

  lemma SameStandingElsewhere(db: Db, q: PeerId, info: PeerInfo, p: PeerId)
    requires p != q
    ensures StandingIn(WithInfo(db, q, info), p) == StandingIn(db, p)
  {
  }

  // ---- Ticks and gossipsub updates ----

  lemma {:induction false} ManyResultsQuiet(results: Results)
    ensures NoConnection(AllResultEvents(results))
    decreases |results|
  {
    hide ResultEvents;
    if results != [] {
      var n := |results| - 1;
      ManyResultsQuiet(results[..n]);
      ResultsAreQuiet(results[n].0, results[n].1, None);
    }
  }

  lemma {:induction false} ResultAnnounced(results: Results, i: nat, e: Event)
    requires i < |results| && e in ResultEvents(results[i].0, results[i].1, None)
    ensures e in AllResultEvents(results)
    decreases |results|
  {
    hide ResultEvents;
    var n := |results| - 1;
    if i < n { ResultAnnounced(results[..n], i, e); }
  }

  lemma {:induction false} UnbansAnnounced(db: Db, order: seq<PeerId>, now: Instant, p: PeerId)
    requires p in order
    ensures ToldUnbanned(AllResultEvents(AllUnbanned(db, order, now).1), p)
    decreases |order|
  {
    hide Unban, AllResultEvents;
    var n := |order| - 1;
    var (before, results) := AllUnbanned(db, order[..n], now);
    var (_, result) := Unban(before, order[n], now);
    var all := results + [(order[n], result)];
    if order[n] == p {
      UnbanResult(before, p, now);
      var e := PeerUnbanned(p, result.ips);
      assert all[|results|] == (p, result);
      ResultAnnounced(all, |results|, e);
    } else {
      assert order == order[..n] + [order[n]];
      UnbansAnnounced(db, order[..n], now, p);
      ToldLater(results, (order[n], result), p);
    }
  }

  lemma ToldLater(results: Results, more: (PeerId, ScoreUpdateResult), p: PeerId)
    requires ToldUnbanned(AllResultEvents(results), p)
    ensures ToldUnbanned(AllResultEvents(results + [more]), p)
  {
    hide ResultEvents;
    var ips :| PeerUnbanned(p, ips) in AllResultEvents(results);
    assert (results + [more])[..|results|] == results;
    assert PeerUnbanned(p, ips) in AllResultEvents(results + [more]);
  }

  lemma TickMoves(db: Db, c: Call, es: seq<Event>, db': Db, p: PeerId) returns (move: Option<NewConnectionState>)
    requires c.Tick? && Does(db, c, es, db')
    ensures Explains(db, c, es, db', p, move)
  {
    hide StandingIn, MovedBy, Ticked, TransitionOf, AllUnbanned, AllResultEvents, NoConnection, Explains, ToldUnbanned;
    var results :| ScoresUpdated(db, c.now, c.decay, db', results) && es == AllResultEvents(results);
    var order :|
      && IsUnbanOrder(db, c.now, c.decay, order)
      && (db', results) == AllUnbanned(AllTicked(db, c.now, c.decay), order, c.now);
    var mid := AllTicked(db, c.now, c.decay);
    move := if p in order then Some(ToUnbanned) else None;
    ManyResultsQuiet(results);
    UnbansMove(mid, order, c.now, p);
    TickedStands(db, c.now, c.decay, p);
    RescoredMoves(db, mid, p, move, c.now);
    StaysPut(db, p, c.now);
    if p in order {
      UnbansAnnounced(mid, order, c.now, p);
      MoveExplains(db, c, es, db', p, ToUnbanned);
    } else {
      QuietExplains(db, c, es, db', p);
    }
  }

  lemma TickedStands(db: Db, now: Instant, decay: Decay, p: PeerId)
    ensures StandingIn(AllTicked(db, now, decay), p) == StandingIn(db, p)
    ensures p in AllTicked(db, now, decay).peers <==> p in db.peers
  {
  }

  /** The results of a peer acted on are announced. */
  lemma {:induction false} ActsAnnounced(db: Db, acts: seq<(PeerId, ScoreTransition)>, now: Instant, i: nat)
    requires i < |acts| && (forall j, k :: 0 <= j < k < |acts| ==> acts[j].0 != acts[k].0)
    ensures
      var (p, t), es := acts[i], AllResultEvents(AllActed(db, acts, now).1);
      && (t.BecameDisconnected? || (t.BecameBanned? && UpOrDialing(db, p)) ==> ToldToGo(es, p))
      && (t.BecameUnbanned? ==> ToldUnbanned(es, p))
    decreases |acts|
  {
    hide Acted, AllResultEvents, ResultEvents;
    var n := |acts| - 1;
    var (before, results) := AllActed(db, acts[..n], now);
    var (p, t) := acts[i];
    if i < n {
      ActsAnnounced(db, acts[..n], now, i);
      var (_, result) := Acted(before, acts[n].0, acts[n].1, now);
      if !result.NoAction? {
        if t.BecameUnbanned? { ToldLater(results, (acts[n].0, result), p); }
        if ToldToGo(AllResultEvents(results), p) { GoLater(results, (acts[n].0, result), p); }
      }
    } else {
      var (_, result) := Acted(before, p, t, now);
      ActAnnounces(before, p, t, now, None);
      ActsLeave(db, acts[..n], now, p);
      if t.BecameDisconnected? || t.BecameUnbanned? || (t.BecameBanned? && UpOrDialing(db, p)) {
        var e := ResultEvents(p, result, None)[0];
        NoActionSaysNothing(p, result);
        assert (results + [(p, result)])[|results|] == (p, result);
        ResultAnnounced(results + [(p, result)], |results|, e);
        if t.BecameUnbanned? { assert e == PeerUnbanned(p, e.ips); }
        else { SaidToGo(AllResultEvents(results + [(p, result)]), p, e.reason); }
      }
    }
  }

  lemma GoLater(results: Results, more: (PeerId, ScoreUpdateResult), p: PeerId)
    requires ToldToGo(AllResultEvents(results), p)
    ensures ToldToGo(AllResultEvents(results + [more]), p)
  {
    hide ResultEvents;
    var reason :| DisconnectPeer(p, reason) in AllResultEvents(results);
    assert (results + [more])[..|results|] == results;
    SaidToGo(AllResultEvents(results + [more]), p, reason);
  }

  lemma NoActionSaysNothing(p: PeerId, result: ScoreUpdateResult)
    ensures result.NoAction? ==> ResultEvents(p, result, None) == []
  {
  }

  lemma {:induction false} ScoredOnce(db: Db, gossip: map<PeerId, real>, order: seq<PeerId>, n: nat, allowed: nat,
                                      now: Instant, i: nat)
    requires i < n <= |order| && NoDup(order) && forall p :: p in order ==> p in gossip && p in db.peers
    ensures
      var mid, p := AllScored(db, gossip, order, n, allowed, now), order[i];
      && p in mid.peers
      && mid.peers[p] == GossipScored(db.peers[p], gossip[p], IsForgiven(gossip, order, i, allowed), now)
    decreases n
  {
    hide GossipScored, IsForgiven;
    if i < n - 1 {
      ScoredOnce(db, gossip, order, n - 1, allowed, now, i);
    } else {
      assert order[i] in order;
    }
  }

  lemma {:induction false} ScoredStands(db: Db, gossip: map<PeerId, real>, order: seq<PeerId>, n: nat, allowed: nat,
                                        now: Instant, p: PeerId)
    requires n <= |order| && forall q :: q in order ==> q in gossip && q in db.peers
    ensures
      var mid := AllScored(db, gossip, order, n, allowed, now);
      && (p in mid.peers <==> p in db.peers) && StandingIn(mid, p) == StandingIn(db, p)
      && (p !in order[..n] ==> SameRecord(db, mid, p))
    decreases n
  {
    hide IsForgiven, Scores.GossipUpdated;
    if n > 0 {
      ScoredStands(db, gossip, order, n - 1, allowed, now, p);
      assert order[n - 1] in order && order[..n] == order[..n - 1] + [order[n - 1]];
    }
  }

  /** One gossipsub update, with the order it worked in. */
  lemma GossipPasses(db: Db, c: Call, es: seq<Event>, db': Db)
    returns (order: seq<PeerId>, acts: seq<(PeerId, ScoreTransition)>, mid: Db)
    requires c.Gossip? && Does(db, c, es, db')
    ensures Orders.IsSortedListing(GossipPeers(db, c.scores), Above(c.scores), order) && NoDup(order)
    ensures ActsAre(db, c.scores, order, c.allowed, c.now, acts) && |acts| == |order|
    ensures mid == AllScored(db, c.scores, order, |order|, c.allowed, c.now)
    ensures db' == AllActed(mid, acts, c.now).0 && es == AllResultEvents(AllActed(mid, acts, c.now).1)
    ensures forall p :: p in order ==> p in db.peers && p in c.scores
    ensures forall i, j :: 0 <= i < j < |acts| ==> acts[i].0 != acts[j].0
  {
    hide AllActed, AllScored, AllResultEvents, GossipTransition;
    var results :| GossipUpdated(db, c.scores, c.allowed, c.now, db', results) && es == AllResultEvents(results);
    order, acts :|
      && Orders.IsSortedListing(GossipPeers(db, c.scores), Above(c.scores), order)
      && ActsAre(db, c.scores, order, c.allowed, c.now, acts) && |acts| == |order|
      && (db', results) == AllActed(AllScored(db, c.scores, order, |order|, c.allowed, c.now), acts, c.now);
    mid := AllScored(db, c.scores, order, |order|, c.allowed, c.now);
  }

  lemma GossipMoves(db: Db, c: Call, es: seq<Event>, db': Db, p: PeerId) returns (move: Option<NewConnectionState>)
    requires c.Gossip? && Does(db, c, es, db')
    ensures Explains(db, c, es, db', p, move)
  {
    hide StandingIn, MovedBy, AllActed, AllScored, AllResultEvents, NoConnection, Explains, Does, TransitionOf, Acted,
      GossipScored, IsForgiven, Scores.StateOf, ToldUnbanned;
    var order, acts, mid := GossipPasses(db, c, es, db');
    ManyResultsQuiet(AllActed(mid, acts, c.now).1);
    ScoredStands(db, c.scores, order, |order|, c.allowed, c.now, p);
    assert order[..|order|] == order;
    if p in order {
      var i :| 0 <= i < |order| && order[i] == p;
      var t := acts[i].1;
      var info := GossipScored(db.peers[p], c.scores[p], IsForgiven(c.scores, order, i, c.allowed), c.now);
      GossipStandingOf(db.peers[p], c.scores[p], IsForgiven(c.scores, order, i, c.allowed), c.now);
      ActsMove(mid, acts, c.now, i);
      ActMoves(mid, p, t, c.now);
      SameStandingIn(Acted(mid, p, t, c.now).0, db', p);
      RescoredMoves(db, mid, p, MoveFor(t), c.now);
      ActsAnnounced(mid, acts, c.now, i);
      SameUp(db, mid, p);
      move := ScoreMoveExplains(db, c, es, db', p, Scores.StateOf(db.peers[p].score), info, t);
    } else {
      forall i | 0 <= i < |acts|
        ensures acts[i].0 != p
      {
        assert order[i] in order;
      }
      ActsLeave(mid, acts, c.now, p);
      SameRecordMoves(mid, db', p, None, c.now);
      move := None;
      QuietExplains(db, c, es, db', p);
    }
  }

  lemma SameUp(db: Db, db': Db, p: PeerId)
    requires StandingIn(db', p) == StandingIn(db, p) && (p in db'.peers <==> p in db.peers)
    ensures UpOrDialing(db', p) <==> UpOrDialing(db, p)
  {
  }

  lemma GossipStandingOf(info: PeerInfo, score: real, ignore: bool, now: Instant)
    ensures StandingOf(GossipScored(info, score, ignore, now)) == StandingOf(info)
  {
  }

  // ---- The other calls ----

  lemma CleanupMoves(db: Db, c: Call, es: seq<Event>, db': Db, p: PeerId) returns (move: Option<NewConnectionState>)
    requires (c.CleanupDialing? || c.DisconnectAll?) && Does(db, c, es, db')
    ensures Explains(db, c, es, db', p, move)
  {
    hide StandingIn, MovedBy, Explains, AllDisconnected, AllDisconnecting;
    StaysPut(db, p, c.now);
    if c.CleanupDialing? {
      var order :| IsOverdueOrder(db, c.now, order) && db' == AllDisconnected(db, order, c.now);
      DisconnectsMove(db, order, c.now, p);
      move := if p in order then Some(ToDisconnected) else None;
    } else {
      DisconnectingsMove(db, c.peers, c.now, p);
      move := if p in c.peers then Some(ToDisconnecting(false)) else None;
      if p in c.peers {
        var i :| 0 <= i < |c.peers| && c.peers[i] == p;
        assert es[i] == DisconnectPeer(p, TooManyPeers);
      }
    }
    if move.Some? { MoveExplains(db, c, es, db', p, move.value); } else { QuietExplains(db, c, es, db', p); }
  }

  lemma DisconnectionMoves(db: Db, q: PeerId, now: Instant, es: seq<Event>, db': Db, p: PeerId)
    requires Disconnection(db, q, now, es, db')
    ensures p in db'.peers ==>
              StandingIn(db', p) == MovedBy(db, p, if p == q then Some(ToDisconnected) else None, now)
    ensures NoConnection(es)
  {
    hide Updated, Shrunk, MovedBy;
    var purged :|
      && Shrunk(Updated(db, q, ToDisconnected, now).0, db', purged)
      && es == OpEvents(q, Updated(db, q, ToDisconnected, now).1, None) + PurgeEvents(purged);
    var mid := Updated(db, q, ToDisconnected, now).0;
    EvictionBounded(mid, db', purged);
    StaysPut(db, p, now);
    if p == q { UpdateMoves(db, q, ToDisconnected, now); } else { UpdateElsewhere(db, q, ToDisconnected, now, p); }
  }

  lemma ClosedMoves(db: Db, c: Call, es: seq<Event>, db': Db, p: PeerId) returns (move: Option<NewConnectionState>)
    requires (c.Closed? || c.DialFailed?) && Does(db, c, es, db')
    ensures Explains(db, c, es, db', p, move)
  {
    hide StandingIn, MovedBy, Disconnection;
    StaysPut(db, p, c.now);
    move := if Closes(db, c, p) then Some(ToDisconnected) else None;
    if c.Closed? && c.remaining == 0 {
      var p' := c.peer;
      var noise := if p' in db.peers && (db.peers[p'].status.Connected? || db.peers[p'].status.Disconnecting?)
                   then [PeerDisconnected(p')] else [];
      var tail :| Disconnection(db, c.peer, c.now, tail, db') && es == noise + tail;
      DisconnectionMoves(db, c.peer, c.now, tail, db', p);
    } else if CallShrinks(db, c) {
      DisconnectionMoves(db, c.failed.value, c.now, es, db', p);
    }
  }

  lemma EstablishedMoves(db: Db, c: Call, es: seq<Event>, db': Db, p: PeerId) returns (move: Option<NewConnectionState>)
    requires c.Established? && Does(db, c, es, db') && (c.peer in db.peers ==> ScoreOk(db.peers[c.peer].score))
    ensures Explains(db, c, es, db', p, move)
  {
    hide StandingIn, MovedBy, BanStatus, Rejected, Updated, Reported, ResultEvents, ScoreOk, ToldToGo;
    var noise := if c.others == 0 then [RequestMetaData(c.peer)] else [];
    var tail := Admitted(db, c.peer, c.direction, c.addr, c.limits, c.now).1;
    StaysPut(db, p, c.now);
    match BanStatus(db, c.peer)
    case ByScore =>
      move := ReportMoves(db, c, tail, db', p, c.peer, Scores.Fatal, Some(BannedPeer));
      NoiseExplained(db, c, noise, tail, db', p, move);
    case ByIp =>
      move := ReportMoves(db, c, tail, db', p, c.peer, Scores.Fatal, Some(BannedIp));
      NoiseExplained(db, c, noise, tail, db', p, move);
    case NotBanned =>
      var req := if Rejected(db, c.peer, c.direction, c.limits, c.now) then ToDisconnecting(false)
                 else ToConnected(None, c.addr, c.direction);
      move := if p == c.peer then Some(req) else None;
      if p == c.peer { UpdateMoves(db, p, req, c.now); }
      else { UpdateElsewhere(db, c.peer, req, c.now, p); SameRecordMoves(db, db', p, None, c.now); }
      assert tail[0] in es;
      if req.ToDisconnecting? { SaidToGo(es, c.peer, TooManyPeers); }
  }

  lemma SaidToGo(es: seq<Event>, p: PeerId, reason: GoodbyeReason)
    requires DisconnectPeer(p, reason) in es
    ensures ToldToGo(es, p)
  {
  }

  lemma NoiseExplained(db: Db, c: Call, noise: seq<Event>, es: seq<Event>, db': Db, p: PeerId,
                       move: Option<NewConnectionState>)
    requires Explains(db, c, es, db', p, move) && NoConnection(noise)
    ensures Explains(db, c, noise + es, db', p, move)
  {
    hide StandingIn, MovedBy;
    forall d
      ensures Admits(noise + es, p, d) <==> Admits(es, p, d)
    {
    }
    if ToldToGo(es, p) {
      var reason :| DisconnectPeer(p, reason) in es;
      SaidToGo(noise + es, p, reason);
    }
    if ToldUnbanned(es, p) {
      var ips :| PeerUnbanned(p, ips) in es;
      assert PeerUnbanned(p, ips) in noise + es;
    }
  }

  lemma DialMoves(db: Db, c: Call, es: seq<Event>, db': Db, p: PeerId) returns (move: Option<NewConnectionState>)
    requires c.Dial? && Does(db, c, es, db')
    ensures Explains(db, c, es, db', p, move)
  {
    hide StandingIn, MovedBy, Updated;
    var req := ToDialing(c.enr, c.trusted);
    move := if p == c.peer then Some(req) else None;
    StaysPut(db, p, c.now);
    if p == c.peer { UpdateMoves(db, p, req, c.now); }
    else { UpdateElsewhere(db, c.peer, req, c.now, p); SameRecordMoves(db, db', p, None, c.now); }
  }

  /** Every call moves every peer by at most one transition, and says why. */
  lemma CallMoves(db: Db, c: Call, es: seq<Event>, db': Db, p: PeerId) returns (move: Option<NewConnectionState>)
    requires ScoresOk(db) && Does(db, c, es, db')
    ensures Explains(db, c, es, db', p, move)
  {
    hide Explains, Reported, ResultEvents, ScoreOk, ScoresUpdated, GossipUpdated, AllResultEvents, Disconnection;
    match c
    case Report(q, action, reason, _) => move := ReportMoves(db, c, es, db', p, q, action, reason);
    case Tick(_, _) => move := TickMoves(db, c, es, db', p);
    case Gossip(_, _, _) => move := GossipMoves(db, c, es, db', p);
    case CleanupDialing(_) => move := CleanupMoves(db, c, es, db', p);
    case DisconnectAll(_, _) => move := CleanupMoves(db, c, es, db', p);
    case Established(_, _, _, _, _, _) => move := EstablishedMoves(db, c, es, db', p);
    case Closed(_, _, _) => move := ClosedMoves(db, c, es, db', p);
    case DialFailed(_, _) => move := ClosedMoves(db, c, es, db', p);
    case Dial(_, _, _, _) => move := DialMoves(db, c, es, db', p);
    case Touch =>
      move := None;
      QuietExplains(db, c, es, db', p);
    case Deliver =>
      move := None;
      QuietExplains(db, c, es, db', p);
  }
}
