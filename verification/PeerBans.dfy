/** How the score of a peer and its connection state go together, call by call and over every run. */
module PeerBans {
  import opened Common
  import opened PeerInfos
  import opened PeerTables
  import opened PeerReports
  import opened PeerDbs
  import opened PeerSystems
  import opened PeerMoves
  import opened PeerRuns
  import opened PeerStandings
  import Scores

  /** Banned, or to be banned as soon as its connection is gone. */
  predicate Condemned(info: PeerInfo) { info.status.Banned? || info.status == Disconnecting(true) }

  predicate Crosses(info: PeerInfo, info': PeerInfo) {
    Scores.StateOf(info.score) != Scores.Banned && Scores.StateOf(info'.score) == Scores.Banned
  }

  /**
   * The connection state follows the score at once: crossing the ban threshold condemns the peer, and
   * nothing else does; recovering from it lifts a ban; and getting bad enough to be disconnected, from
   * a healthy score, starts the disconnection of a peer that is connected or being dialed.
   */
  predicate Settled(info: PeerInfo, info': PeerInfo) {
    var before, after := Scores.StateOf(info.score), Scores.StateOf(info'.score);
    && (Crosses(info, info') ==> Condemned(info'))
    && (Condemned(info') ==> Condemned(info) || Crosses(info, info'))
    && (before == Scores.Banned && after != Scores.Banned ==> !info'.status.Banned?)
    && (before == Scores.Healthy && after == Scores.Disconnected && (info.status.Connected? || info.status.Dialing?) ==>
          info'.status == Disconnecting(false))
  }

  // ---- One record ----

  /** The record of a peer after acting on the transition of its score. */
  function Acts(info: PeerInfo, t: ScoreTransition, now: Instant): PeerInfo {
    match t
    case BecameBanned => NextInfo(info, ToBanned, now)
    case BecameDisconnected => NextInfo(info, ToDisconnecting(false), now)
    case BecameUnbanned => NextInfo(info, ToUnbanned, now)
    case NoTransition => info
  }

  lemma ActsAs(db: Db, p: PeerId, t: ScoreTransition, now: Instant)
    requires p in db.peers
    ensures p in Acted(db, p, t, now).0.peers && Acted(db, p, t, now).0.peers[p] == Acts(db.peers[p], t, now)
  {
    hide NextInfo, NextBans, NextDisconnected, NextOperation;
  }

  lemma ActSettles(info: PeerInfo, scored: PeerInfo, now: Instant)
    requires StandingOf(scored) == StandingOf(info)
    ensures Settled(info, Acts(scored, TransitionOf(Scores.StateOf(info.score), scored), now))
  {
    hide Scores.StateOf, Penalised;
  }

  /** Without a change of state there is nothing to settle but the connection. */
  lemma SameScoreSettles(info: PeerInfo, info': PeerInfo)
    requires info'.score == info.score && (Condemned(info') ==> Condemned(info))
    ensures Settled(info, info')
  {
    hide Scores.StateOf;
  }

  lemma ReportSettles(db: Db, p: PeerId, action: Scores.PeerAction, now: Instant)
    requires p in db.peers && ScoreOk(db.peers[p].score)
    ensures
      var db' := Reported(db, p, action, now).0;
      p in db'.peers && Settled(db.peers[p], db'.peers[p])
  {
    hide Settled, Acted, Penalised, TransitionOf, ScoreOk;
    var info := Penalised(db.peers[p], action);
    ReportNeverUnbans(db.peers[p], action);
    PenalisedStanding(db.peers[p], action);
    ActsAs(WithInfo(db, p, info), p, ReportTransition(db.peers[p], action), now);
    ActSettles(db.peers[p], info, now);
  }

  lemma {:induction false} UnbanRecord(db: Db, order: seq<PeerId>, now: Instant, p: PeerId)
    requires NoDup(order) && p in db.peers
    ensures
      var db' := AllUnbanned(db, order, now).0;
      p in db'.peers && db'.peers[p] == if p in order then NextInfo(db.peers[p], ToUnbanned, now) else db.peers[p]
    decreases |order|
  {
    hide NextInfo, NextBans, NextDisconnected, NextOperation, UnbannedIpsOf;
    if order != [] {
      var n := |order| - 1;
      UnbanRecord(db, order[..n], now, p);
      assert order == order[..n] + [order[n]] && order[n] !in order[..n];
    }
  }

  /** A tick lifts bans and does nothing else to a connection. */
  lemma TickedSettles(info: PeerInfo, now: Instant, decay: Decay)
    requires ScoreOk(info.score) && IsDecay(decay)
    ensures
      var scored := Ticked(info, now, decay);
      Settled(info, if TickTransition(info, now, decay).BecameUnbanned? then NextInfo(scored, ToUnbanned, now)
                    else scored)
  {
    hide Scores.StateOf, ScoreOk, IsDecay;
    TickNeverBans(info, now, decay);
  }

  lemma TickSettles(db: Db, c: Call, es: seq<Event>, db': Db, p: PeerId)
    requires c.Tick? && Does(db, c, es, db') && p in db.peers && ScoreOk(db.peers[p].score)
    ensures p in db'.peers && Settled(db.peers[p], db'.peers[p])
  {
    hide Settled, Ticked, NextInfo, AllUnbanned, AllResultEvents, ScoreOk, IsDecay, TransitionOf, Scores.StateOf;
    var results :| ScoresUpdated(db, c.now, c.decay, db', results) && es == AllResultEvents(results);
    var order :|
      && IsUnbanOrder(db, c.now, c.decay, order)
      && (db', results) == AllUnbanned(AllTicked(db, c.now, c.decay), order, c.now);
    UnbanRecord(AllTicked(db, c.now, c.decay), order, c.now, p);
    TickedSettles(db.peers[p], c.now, c.decay);
  }

  lemma GossipSettles(db: Db, c: Call, es: seq<Event>, db': Db, p: PeerId)
    requires c.Gossip? && Does(db, c, es, db') && p in db.peers
    ensures p in db'.peers && Settled(db.peers[p], db'.peers[p])
  {
    hide Settled, Acted, AllActed, AllScored, AllResultEvents, Does, GossipScored, IsForgiven, TransitionOf,
      Scores.StateOf, Acts;
    var order, acts, mid := GossipPasses(db, c, es, db');
    ScoredStands(db, c.scores, order, |order|, c.allowed, c.now, p);
    assert order[..|order|] == order;
    if p in order {
      var i :| 0 <= i < |order| && order[i] == p;
      ScoredOnce(db, c.scores, order, |order|, c.allowed, c.now, i);
      ActsMove(mid, acts, c.now, i);
      ActsAs(mid, p, acts[i].1, c.now);
      GossipStandingOf(db.peers[p], c.scores[p], IsForgiven(c.scores, order, i, c.allowed), c.now);
      ActSettles(db.peers[p], mid.peers[p], c.now);
    } else {
      forall i | 0 <= i < |acts|
        ensures acts[i].0 != p
      {
        assert order[i] in order;
      }
      ActsLeave(mid, acts, c.now, p);
      SameScoreSettles(db.peers[p], db'.peers[p]);
    }
  }

  // ---- Calls that leave scores alone ----

  predicate KeepsScore(db: Db, db': Db, p: PeerId) {
    p in db.peers && p in db'.peers ==> db'.peers[p].score == db.peers[p].score
  }

  lemma UpdateKeepsScore(db: Db, q: PeerId, req: NewConnectionState, now: Instant, p: PeerId)
    requires !req.ToBanned?
    ensures KeepsScore(db, Updated(db, q, req, now).0, p) && (p in db.peers ==> p in Updated(db, q, req, now).0.peers)
  {
    hide NextStatus, NextBans, NextDisconnected, NextOperation;
  }

  lemma {:induction false} CleanupKeepsScore(db: Db, order: seq<PeerId>, now: Instant, p: PeerId)
    ensures KeepsScore(db, AllDisconnected(db, order, now), p)
    ensures p in db.peers ==> p in AllDisconnected(db, order, now).peers
    decreases |order|
  {
    hide Updated;
    if order != [] {
      CleanupKeepsScore(db, order[..|order| - 1], now, p);
      UpdateKeepsScore(AllDisconnected(db, order[..|order| - 1], now), order[|order| - 1], ToDisconnected, now, p);
    }
  }

  lemma {:induction false} PruningKeepsScore(db: Db, order: seq<PeerId>, now: Instant, p: PeerId)
    ensures KeepsScore(db, AllDisconnecting(db, order, now), p)
    ensures p in db.peers ==> p in AllDisconnecting(db, order, now).peers
    decreases |order|
  {
    hide Updated;
    if order != [] {
      PruningKeepsScore(db, order[..|order| - 1], now, p);
      UpdateKeepsScore(AllDisconnecting(db, order[..|order| - 1], now), order[|order| - 1], ToDisconnecting(false), now,
                       p);
    }
  }

  lemma DisconnectionKeepsScore(db: Db, q: PeerId, now: Instant, es: seq<Event>, db': Db, p: PeerId)
    requires Disconnection(db, q, now, es, db')
    ensures KeepsScore(db, db', p)
  {
    hide Updated, Shrunk;
    var purged :|
      && Shrunk(Updated(db, q, ToDisconnected, now).0, db', purged)
      && es == OpEvents(q, Updated(db, q, ToDisconnected, now).1, None) + PurgeEvents(purged);
    UpdateKeepsScore(db, q, ToDisconnected, now, p);
    EvictionBounded(Updated(db, q, ToDisconnected, now).0, db', purged);
  }

  lemma ClosingKeepsScore(db: Db, c: Call, es: seq<Event>, db': Db, p: PeerId)
    requires (c.Closed? || c.DialFailed?) && Does(db, c, es, db')
    ensures KeepsScore(db, db', p)
  {
    hide Disconnection;
    if c.Closed? && c.remaining == 0 {
      var p' := c.peer;
      var noise := if p' in db.peers && (db.peers[p'].status.Connected? || db.peers[p'].status.Disconnecting?)
                   then [PeerDisconnected(p')] else [];
      var tail :| Disconnection(db, c.peer, c.now, tail, db') && es == noise + tail;
      DisconnectionKeepsScore(db, c.peer, c.now, tail, db', p);
    } else if CallShrinks(db, c) {
      DisconnectionKeepsScore(db, c.failed.value, c.now, es, db', p);
    }
  }

  /** The calls that may change scores. */
  predicate MayScore(db: Db, c: Call) {
    c.Report? || c.Tick? || c.Gossip? || (c.Established? && !BanStatus(db, c.peer).NotBanned?)
  }

  lemma OthersKeepScore(db: Db, c: Call, es: seq<Event>, db': Db, p: PeerId)
    requires Does(db, c, es, db') && !MayScore(db, c)
    ensures KeepsScore(db, db', p)
  {
    hide KeepsScore, Disconnection, Updated, BanStatus, Rejected, AllDisconnected, AllDisconnecting;
    match c
    case CleanupDialing(now) =>
      var order :| IsOverdueOrder(db, now, order) && db' == AllDisconnected(db, order, now);
      CleanupKeepsScore(db, order, now, p);
    case DisconnectAll(peers, now) => PruningKeepsScore(db, peers, now, p);
    case Established(q, direction, addr, _, limits, now) =>
      UpdateKeepsScore(db, q, ToDisconnecting(false), now, p);
      UpdateKeepsScore(db, q, ToConnected(None, addr, direction), now, p);
    case Closed(_, _, _) => ClosingKeepsScore(db, c, es, db', p);
    case DialFailed(_, _) => ClosingKeepsScore(db, c, es, db', p);
    case Dial(q, enr, trusted, now) => UpdateKeepsScore(db, q, ToDialing(enr, trusted), now, p);
    case Touch => TouchKeepsScore(db, db', p);
    case Deliver => TouchKeepsScore(db, db', p);
  }

  lemma TouchKeepsScore(db: Db, db': Db, p: PeerId)
    requires Touched(db, db') || db' == db
    ensures KeepsScore(db, db', p)
  {
  }

  /** Only crossing the ban threshold asks for a ban. */
  lemma MovesCondemnNobody(db: Db, c: Call, es: seq<Event>, db': Db, p: PeerId, move: Option<NewConnectionState>)
    requires Explains(db, c, es, db', p, move) && move != Some(ToBanned) && p in db.peers && p in db'.peers
    ensures Condemned(db'.peers[p]) ==> Condemned(db.peers[p])
  {
    hide Closes, Admits, Scores.StateOf;
    if move.Some? { StandingIs(db, p, move.value, TimeOf(c)); }
  }

  lemma StandingIs(db: Db, p: PeerId, req: NewConnectionState, now: Instant)
    requires p in db.peers
    ensures MovedBy(db, p, Some(req), now).status == NextStatus(db.peers[p].status, req, now)
  {
    hide NextStatus, Scores.StateOf;
  }

  /** Over all calls, the connection state of every known peer follows its score. */
  lemma CallSettles(db: Db, c: Call, es: seq<Event>, db': Db, p: PeerId)
    requires ScoresOk(db) && Does(db, c, es, db') && p in db.peers && p in db'.peers
    ensures Settled(db.peers[p], db'.peers[p])
  {
    hide Settled, Explains, Does, ScoreOk, BanStatus, Condemned;
    if c.Tick? {
      TickSettles(db, c, es, db', p);
    } else if c.Gossip? {
      GossipSettles(db, c, es, db', p);
    } else if MayScore(db, c) && c.peer == p {
      PenaltySettles(db, c, es, db');
    } else if MayScore(db, c) {
      PenaltyElsewhere(db, c, es, db', p);
      SameScoreSettles(db.peers[p], db'.peers[p]);
    } else {
      OthersKeepScore(db, c, es, db', p);
      var move := CallMoves(db, c, es, db', p);
      NoBanAsked(db, c, es, db', p, move);
      MovesCondemnNobody(db, c, es, db', p, move);
      SameScoreSettles(db.peers[p], db'.peers[p]);
    }
  }

  lemma NoBanAsked(db: Db, c: Call, es: seq<Event>, db': Db, p: PeerId, move: Option<NewConnectionState>)
    requires Explains(db, c, es, db', p, move) && Does(db, c, es, db') && !MayScore(db, c) && p in db.peers
    requires p in db'.peers
    ensures move != Some(ToBanned)
  {
    hide BanStatus, Scores.StateOf, MovedBy, Rejected, NextBans, NextDisconnected;
    if move == Some(ToBanned) {
      StandingIs(db, p, ToBanned, TimeOf(c));
      assert false;
    }
  }

  lemma PenaltySettles(db: Db, c: Call, es: seq<Event>, db': Db)
    requires (c.Report? || c.Established?) && MayScore(db, c) && Does(db, c, es, db')
    requires c.peer in db.peers && ScoreOk(db.peers[c.peer].score)
    ensures c.peer in db'.peers && Settled(db.peers[c.peer], db'.peers[c.peer])
  {
    hide Settled, Reported, BanStatus, ScoreOk, Rejected;
    ReportSettles(db, c.peer, if c.Report? then c.action else Scores.Fatal, c.now);
  }

  lemma PenaltyElsewhere(db: Db, c: Call, es: seq<Event>, db': Db, p: PeerId)
    requires (c.Report? || c.Established?) && MayScore(db, c) && Does(db, c, es, db') && c.peer != p
    requires p in db.peers && p in db'.peers
    ensures db'.peers[p] == db.peers[p]
  {
    hide Acted, BanStatus, Rejected, ReportTransition, Penalised;
    if c.peer in db.peers {
      var action := if c.Report? then c.action else Scores.Fatal;
      var t := ReportTransition(db.peers[c.peer], action);
      ActElsewhere(WithInfo(db, c.peer, Penalised(db.peers[c.peer], action)), c.peer,
                   if t.BecameUnbanned? then NoTransition else t, c.now, p);
    }
  }

  /** And a peer condemned while it is connected or being dialed is told to disconnect. */
  lemma CondemnedIsToldToGo(db: Db, c: Call, es: seq<Event>, db': Db, p: PeerId)
    requires ScoresOk(db) && Does(db, c, es, db') && p in db.peers && p in db'.peers
    requires Crosses(db.peers[p], db'.peers[p]) && UpOrDialing(db, p)
    ensures db'.peers[p].status == Disconnecting(true) && ToldToGo(es, p)
  {
    hide Does, ScoreOk, Scores.StateOf, NextBans, Closes, ToldToGo;
    CallSettles(db, c, es, db', p);
    var move := CallMoves(db, c, es, db', p);
    if move.Some? { StandingIs(db, p, move.value, TimeOf(c)); }
  }

  // ---- Every run ----

  predicate IsCondemned(db: Db, p: PeerId) { p in db.peers && Condemned(db.peers[p]) }

  /** The peer connects again, is dialed, or is announced as unbanned. */
  ghost predicate Releases(c: Call, es: seq<Event>, p: PeerId) {
    (c.Established? && c.peer == p) || (c.Dial? && c.peer == p) || ToldUnbanned(es, p)
  }

  /** Short of a release, a condemned peer stays so, and is banned at the latest when its connection is gone. */
  lemma CondemnedStep(db: Db, c: Call, es: seq<Event>, db': Db, p: PeerId, move: Option<NewConnectionState>)
    requires Explains(db, c, es, db', p, move) && p in db.peers && p in db'.peers
    ensures Condemned(db.peers[p]) && !Releases(c, es, p) ==> Condemned(db'.peers[p])
    ensures Condemned(db.peers[p]) && Closes(db, c, p) ==> db'.peers[p].status.Banned?
    ensures !Condemned(db.peers[p]) && Closes(db, c, p) ==> db'.peers[p].status.Disconnected?
  {
    hide Closes, Admits, Scores.StateOf, ToldToGo;
    if move.Some? { StandingIs(db, p, move.value, TimeOf(c)); }
  }

  /** At that call the peer stays known and nothing releases it. */
  ghost predicate HeldAt(ss: seq<Sys>, cs: seq<Call>, p: PeerId, j: nat)
    requires j < |cs| && |ss| == |cs| + 1
  {
    p in ss[j + 1].db.peers && !Releases(cs[j], Said(ss[j], ss[j + 1]), p)
  }

  /** A peer condemned at step `i` and known ever since is condemned at the end unless something released it. */
  lemma {:induction false} CondemnedStays(ss: seq<Sys>, cs: seq<Call>, i: nat, p: PeerId)
    requires IsRun(ss, cs) && i <= |cs| && IsCondemned(ss[i].db, p)
    requires forall j :: i <= j < |cs| ==> HeldAt(ss, cs, p, j)
    ensures IsCondemned(ss[|cs|].db, p)
    ensures i < |cs| && Closes(ss[|cs| - 1].db, cs[|cs| - 1], p) ==> ss[|cs|].db.peers[p].status.Banned?
    decreases |cs|
  {
    hide Next, IsStart, ScoresOk, Explains, Said, Releases, Condemned, Closes;
    if i < |cs| {
      var n := |cs| - 1;
      var ss0, cs0 := ss[..n + 1], cs[..n];
      forall j | i <= j < n
        ensures HeldAt(ss0, cs0, p, j)
      {
        assert HeldAt(ss, cs, p, j);
      }
      CondemnedStays(ss0, cs0, i, p);
      assert HeldAt(ss, cs, p, n);
      ScoresStayOk(ss[..n + 1], cs[..n]);
      var es, move := StepMoves(ss[n], cs[n], ss[n + 1], p);
      SaidIs(ss[n], ss[n + 1], es);
      CondemnedStep(ss[n].db, cs[n], es, ss[n + 1].db, p, move);
    }
  }

  /** At that call the score of a known peer crosses the ban threshold. */
  ghost predicate CrossesAt(ss: seq<Sys>, i: nat, p: PeerId) {
    && i + 1 < |ss| && p in ss[i].db.peers && p in ss[i + 1].db.peers
    && Crosses(ss[i].db.peers[p], ss[i + 1].db.peers[p])
  }

  /**
   * Over every run: a peer is condemned only after its score has crossed the ban threshold at some
   * call, at which it was condemned at once.
   */
  lemma {:induction false} CondemnedByScore(ss: seq<Sys>, cs: seq<Call>, p: PeerId)
    requires IsRun(ss, cs)
    ensures IsCondemned(ss[|cs|].db, p) ==> exists i: nat :: CrossesAt(ss, i, p)
    ensures forall i: nat :: CrossesAt(ss, i, p) ==> IsCondemned(ss[i + 1].db, p)
    decreases |cs|
  {
    hide Next, IsStart, ScoresOk, Crosses, Condemned;
    if cs == [] {
      StartsDown(ss[0], p);
      NobodyCondemned(ss[0], p);
    } else {
      var n := |cs| - 1;
      CondemnedByScore(ss[..n + 1], cs[..n], p);
      ScoresStayOk(ss[..n + 1], cs[..n]);
      StepCondemns(ss[n], cs[n], ss[n + 1], p);
      forall i: nat | CrossesAt(ss, i, p)
        ensures IsCondemned(ss[i + 1].db, p)
      {
        if i < n { assert CrossesAt(ss[..n + 1], i, p); }
      }
      if IsCondemned(ss[|cs|].db, p) {
        if IsCondemned(ss[n].db, p) {
          var i: nat :| CrossesAt(ss[..n + 1], i, p);
          assert CrossesAt(ss, i, p);
        } else {
          assert CrossesAt(ss, n, p);
        }
      }
    }
  }

  lemma NobodyCondemned(s: Sys, p: PeerId)
    requires StandingIn(s.db, p).status.Unknown?
    ensures !IsCondemned(s.db, p)
  {
  }

  lemma StepCondemns(s: Sys, c: Call, s': Sys, p: PeerId)
    requires Next(s, c, s') && ScoresOk(s.db)
    ensures p in s.db.peers && p in s'.db.peers && Crosses(s.db.peers[p], s'.db.peers[p]) ==> IsCondemned(s'.db, p)
    ensures IsCondemned(s'.db, p) && !IsCondemned(s.db, p) ==>
              p in s.db.peers && Crosses(s.db.peers[p], s'.db.peers[p])
  {
    hide Crosses, Condemned, ScoresOk, Does, Explains;
    if p in s.db.peers && p in s'.db.peers {
      if c.Deliver? {
        SameScoreSettles(s.db.peers[p], s'.db.peers[p]);
      } else {
        CallSettles(s.db, c, s'.queue[|s.queue|..], s'.db, p);
      }
    } else if p in s'.db.peers {
      var es, move := StepMoves(s, c, s', p);
      NewcomerNotCondemned(s.db, c, es, s'.db, p, move);
    }
  }

  lemma NewcomerNotCondemned(db: Db, c: Call, es: seq<Event>, db': Db, p: PeerId, move: Option<NewConnectionState>)
    requires Explains(db, c, es, db', p, move) && p !in db.peers && p in db'.peers
    ensures !Condemned(db'.peers[p])
  {
    hide Closes, Admits, Scores.StateOf, ToldToGo, ToldUnbanned;
  }

  // ---- Trusted peers ----

  lemma ActKeepsMax(info: PeerInfo, t: ScoreTransition, now: Instant)
    requires info.score.Max?
    ensures Acts(info, t, now).score.Max?
  {
    hide NextStatus;
  }

  lemma PenaltyKeepsMax(db: Db, p: PeerId, action: Scores.PeerAction, now: Instant)
    requires p in db.peers && db.peers[p].score.Max?
    ensures p in Reported(db, p, action, now).0.peers && Reported(db, p, action, now).0.peers[p].score.Max?
  {
    hide Acted, Acts, TransitionOf;
    var info, t := Penalised(db.peers[p], action), ReportTransition(db.peers[p], action);
    var t' := if t.BecameUnbanned? then NoTransition else t;
    ActsAs(WithInfo(db, p, info), p, t', now);
    ActKeepsMax(info, t', now);
  }

  lemma TickKeepsMax(db: Db, c: Call, es: seq<Event>, db': Db, p: PeerId)
    requires c.Tick? && Does(db, c, es, db') && p in db.peers && db.peers[p].score.Max?
    ensures p in db'.peers && db'.peers[p].score.Max?
  {
    hide NextStatus, AllUnbanned, AllResultEvents, IsDecay, TransitionOf, Scores.StateOf;
    var results :| ScoresUpdated(db, c.now, c.decay, db', results) && es == AllResultEvents(results);
    var order :|
      && IsUnbanOrder(db, c.now, c.decay, order)
      && (db', results) == AllUnbanned(AllTicked(db, c.now, c.decay), order, c.now);
    UnbanRecord(AllTicked(db, c.now, c.decay), order, c.now, p);
  }

  lemma GossipKeepsMax(db: Db, c: Call, es: seq<Event>, db': Db, p: PeerId)
    requires c.Gossip? && Does(db, c, es, db') && p in db.peers && db.peers[p].score.Max?
    ensures p in db'.peers && db'.peers[p].score.Max?
  {
    hide Acted, AllActed, AllScored, AllResultEvents, Does, IsForgiven, TransitionOf, Acts;
    var order, acts, mid := GossipPasses(db, c, es, db');
    ScoredStands(db, c.scores, order, |order|, c.allowed, c.now, p);
    assert order[..|order|] == order;
    if p in order {
      var i :| 0 <= i < |order| && order[i] == p;
      ScoredOnce(db, c.scores, order, |order|, c.allowed, c.now, i);
      ActsMove(mid, acts, c.now, i);
      ActsAs(mid, p, acts[i].1, c.now);
      ActKeepsMax(mid.peers[p], acts[i].1, c.now);
    } else {
      forall i | 0 <= i < |acts|
        ensures acts[i].0 != p
      {
        assert order[i] in order;
      }
      ActsLeave(mid, acts, c.now, p);
    }
  }

  lemma CallKeepsMax(db: Db, c: Call, es: seq<Event>, db': Db, p: PeerId)
    requires Does(db, c, es, db') && p in db.peers && p in db'.peers && db.peers[p].score.Max?
    ensures db'.peers[p].score.Max?
  {
    hide BanStatus, Reported, Does;
    if c.Tick? {
      TickKeepsMax(db, c, es, db', p);
    } else if c.Gossip? {
      GossipKeepsMax(db, c, es, db', p);
    } else if MayScore(db, c) && c.peer == p {
      ReportedHere(db, c, es, db');
    } else if MayScore(db, c) {
      PenaltyElsewhere(db, c, es, db', p);
    } else {
      OthersKeepScore(db, c, es, db', p);
    }
  }

  lemma ReportedHere(db: Db, c: Call, es: seq<Event>, db': Db)
    requires (c.Report? || c.Established?) && MayScore(db, c) && Does(db, c, es, db')
    requires c.peer in db.peers && db.peers[c.peer].score.Max?
    ensures c.peer in db'.peers && db'.peers[c.peer].score.Max?
  {
    hide BanStatus, Reported, Rejected;
    PenaltyKeepsMax(db, c.peer, if c.Report? then c.action else Scores.Fatal, c.now);
  }

  /** A peer with the score of a trusted one, not condemned, in a state of the run. */
  predicate IsSafe(db: Db, p: PeerId) { p in db.peers && db.peers[p].score.Max? && !Condemned(db.peers[p]) }

  /**
   * Peers trusted from the start are never banned or disconnected to be banned, whatever is reported
   * about them and however their addresses are banned, as long as they are not evicted.
   */
  lemma {:induction false} TrustedNeverBanned(ss: seq<Sys>, cs: seq<Call>, p: PeerId)
    requires IsRun(ss, cs) && forall i :: 0 <= i < |ss| ==> p in ss[i].db.peers
    ensures IsSafe(ss[|cs|].db, p)
    decreases |cs|
  {
    hide Next, IsStart, ScoresOk, Crosses, Condemned;
    if cs == [] {
      StartsDown(ss[0], p);
      NobodyCondemned(ss[0], p);
    } else {
      var n := |cs| - 1;
      TrustedNeverBanned(ss[..n + 1], cs[..n], p);
      ScoresStayOk(ss[..n + 1], cs[..n]);
      StepKeepsSafe(ss[n], cs[n], ss[n + 1], p);
    }
  }

  lemma StepKeepsSafe(s: Sys, c: Call, s': Sys, p: PeerId)
    requires Next(s, c, s') && ScoresOk(s.db) && IsSafe(s.db, p) && p in s'.db.peers
    ensures IsSafe(s'.db, p)
  {
    hide Condemned, ScoresOk, Does;
    StepCondemns(s, c, s', p);
    if !c.Deliver? { CallKeepsMax(s.db, c, s'.queue[|s.queue|..], s'.db, p); }
  }

  /** A score that is not touched makes no transition. */
  lemma NoTransitionWithoutChange(info: PeerInfo)
    ensures TransitionOf(Scores.StateOf(info.score), info) == NoTransition
  {
    hide Scores.StateOf;
  }

  lemma TrustedReported(db: Db, p: PeerId, action: Scores.PeerAction, now: Instant)
    requires p in db.peers && db.peers[p].isTrusted
    ensures Reported(db, p, action, now).0 == db
  {
    hide TransitionOf;
    NoTransitionWithoutChange(db.peers[p]);
    assert WithInfo(db, p, db.peers[p]) == db;
  }

  lemma TrustedTicked(db: Db, c: Call, es: seq<Event>, db': Db, p: PeerId)
    requires c.Tick? && Does(db, c, es, db') && p in db.peers && db.peers[p].isTrusted
    ensures p in db'.peers && db'.peers[p] == db.peers[p]
  {
    hide NextInfo, AllUnbanned, AllResultEvents, IsDecay, TransitionOf, Scores.StateOf;
    var results :| ScoresUpdated(db, c.now, c.decay, db', results) && es == AllResultEvents(results);
    var order :|
      && IsUnbanOrder(db, c.now, c.decay, order)
      && (db', results) == AllUnbanned(AllTicked(db, c.now, c.decay), order, c.now);
    NoTransitionWithoutChange(db.peers[p]);
    UnbanRecord(AllTicked(db, c.now, c.decay), order, c.now, p);
  }

  /** Nothing but a gossipsub update changes the score of a peer marked as trusted. */
  lemma TrustedScoreKept(db: Db, c: Call, es: seq<Event>, db': Db, p: PeerId)
    requires Does(db, c, es, db') && !c.Gossip? && p in db.peers && p in db'.peers && db.peers[p].isTrusted
    ensures db'.peers[p].score == db.peers[p].score
  {
    hide BanStatus, Does;
    if c.Tick? {
      TrustedTicked(db, c, es, db', p);
    } else if MayScore(db, c) && c.peer == p {
      TrustedReportedHere(db, c, es, db');
    } else if MayScore(db, c) {
      PenaltyElsewhere(db, c, es, db', p);
    } else {
      OthersKeepScore(db, c, es, db', p);
    }
  }

  lemma TrustedReportedHere(db: Db, c: Call, es: seq<Event>, db': Db)
    requires (c.Report? || c.Established?) && MayScore(db, c) && Does(db, c, es, db')
    requires c.peer in db.peers && db.peers[c.peer].isTrusted
    ensures db' == db
  {
    hide BanStatus, Reported, Rejected;
    TrustedReported(db, c.peer, if c.Report? then c.action else Scores.Fatal, c.now);
  }
}
