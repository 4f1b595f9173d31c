/**
 * src/peer_manager/mod.rs and src/peer_manager/network_behaviour.rs: what each call to the peer
 * manager does to the database and the event queue, and its effect on counters and announcements.
 */
module PeerSystems {
  import opened Common
  import opened Sums
  import opened PeerInfos
  import opened PeerTables
  import opened PeerReports
  import opened PeerDbs
  import Orders
  import Scores

  datatype GoodbyeReason = BadScore | TooManyPeers | BannedPeer | BannedIp | OtherReason(code: nat)

  datatype Event =
    | PeerConnected(peer: PeerId, direction: ConnectionDirection)
    | PeerDisconnected(peer: PeerId)
    | RequestMetaData(peer: PeerId)
    | DisconnectPeer(peer: PeerId, reason: GoodbyeReason)
    | PeerBanned(peer: PeerId, ips: set<IpAddr>)
    | PeerUnbanned(peer: PeerId, ips: set<IpAddr>)

  /** The rounded peer limits of the configuration. */
  datatype PeerLimits = PeerLimits(maxPeers: nat, maxOutboundDialing: nat)

  /** What the application, the swarm and the heartbeat do to the peer manager. */
  datatype Call =
    | Report(peer: PeerId, action: Scores.PeerAction, reason: Option<GoodbyeReason>, now: Instant)
    | Tick(now: Instant, decay: Decay)
    | Gossip(scores: map<PeerId, real>, allowed: nat, now: Instant)
    | CleanupDialing(now: Instant)
    | DisconnectAll(peers: seq<PeerId>, now: Instant)
    | Established(peer: PeerId, direction: ConnectionDirection, addr: Option<SocketAddr>, others: nat,
                  limits: PeerLimits, now: Instant)
    | Closed(peer: PeerId, remaining: nat, now: Instant)
    | DialFailed(failed: Option<PeerId>, now: Instant)
    | Dial(peer: PeerId, enr: Option<Enr>, trusted: bool, now: Instant)
    | Touch
    | Deliver

  // ---- Events of one call ----

  function ReasonOr(reason: Option<GoodbyeReason>): GoodbyeReason {
    if reason.Some? then reason.value else BadScore
  }

  function OpEvents(p: PeerId, op: Option<BanOperation>, reason: Option<GoodbyeReason>): seq<Event> {
    match op
    case Some(DisconnectThePeer) => [DisconnectPeer(p, ReasonOr(reason))]
    case Some(ReadyToBan(ips)) => [PeerBanned(p, ips)]
    case _ => []
  }

  function ResultEvents(p: PeerId, result: ScoreUpdateResult, reason: Option<GoodbyeReason>): seq<Event> {
    match result
    case Ban(op) => OpEvents(p, Some(op), reason)
    case Disconnect => [DisconnectPeer(p, BadScore)]
    case Unbanned(ips) => [PeerUnbanned(p, ips)]
    case NoAction => []
  }

  function AllResultEvents(results: Results): seq<Event>
    decreases |results|
  {
    if results == [] then []
    else
      var (p, result) := results[|results| - 1];
      AllResultEvents(results[..|results| - 1]) + ResultEvents(p, result, None)
  }

  function PurgeEvents(purged: Purged): seq<Event> {
    seq(|purged|, i requires 0 <= i < |purged| => PeerUnbanned(purged[i].0, purged[i].1))
  }

  // ---- What each call does ----

  ghost predicate Disconnection(db: Db, p: PeerId, now: Instant, es: seq<Event>, db': Db) {
    exists purged ::
      && Shrunk(Updated(db, p, ToDisconnected, now).0, db', purged)
      && es == OpEvents(p, Updated(db, p, ToDisconnected, now).1, None) + PurgeEvents(purged)
  }

  function AllDisconnecting(db: Db, order: seq<PeerId>, now: Instant): Db
    decreases |order|
  {
    if order == [] then db
    else Updated(AllDisconnecting(db, order[..|order| - 1], now), order[|order| - 1], ToDisconnecting(false), now).0
  }

  function DisconnectEvents(order: seq<PeerId>): seq<Event> {
    seq(|order|, i requires 0 <= i < |order| => DisconnectPeer(order[i], TooManyPeers))
  }

  datatype BanResult = ByScore | ByIp | NotBanned

  function BanStatus(db: Db, p: PeerId): BanResult {
    if p !in db.peers then NotBanned
    else if Scores.StateOf(db.peers[p].score) == Scores.Banned then ByScore
    else if BannedIpsOf(db.bans, db.peers[p].seenAddresses) != {} then ByIp
    else NotBanned
  }

  function LimitReached(db: Db, countDialing: bool, limits: PeerLimits): bool {
    if countDialing
    then |set p | p in db.peers && (db.peers[p].IsConnected() || db.peers[p].IsDialing())| >= limits.maxPeers
    else |set p | p in db.peers && db.peers[p].IsConnected()| >= limits.maxOutboundDialing
  }

  predicate Rejected(db: Db, p: PeerId, direction: ConnectionDirection, limits: PeerLimits, now: Instant) {
    LimitReached(db, direction.Incoming?, limits) && (p in db.peers ==> !db.peers[p].HasFutureDuty(now))
  }

  function Goodbye(db: Db, p: PeerId, reason: GoodbyeReason, now: Instant): (Db, seq<Event>) {
    var (db', result) := Reported(db, p, Scores.Fatal, now);
    (db', ResultEvents(p, result, Some(reason)))
  }

  /** `inject_connection_established`, after the metadata request. */
  function Admitted(db: Db, p: PeerId, direction: ConnectionDirection, addr: Option<SocketAddr>, limits: PeerLimits,
                    now: Instant)
    : (Db, seq<Event>)
  {
    match BanStatus(db, p)
    case ByScore => Goodbye(db, p, BannedPeer, now)
    case ByIp => Goodbye(db, p, BannedIp, now)
    case NotBanned =>
      if Rejected(db, p, direction, limits, now)
      then (Updated(db, p, ToDisconnecting(false), now).0, [DisconnectPeer(p, TooManyPeers)])
      else (Updated(db, p, ToConnected(None, addr, direction), now).0, [PeerConnected(p, direction)])
  }

  /** Bookkeeping that changes no score, status, direction or seen address of a known peer. */
  ghost predicate Touched(db: Db, db': Db) {
    && db'.disconnected == db.disconnected && db'.bans == db.bans && db.peers.Keys <= db'.peers.Keys
    && (forall p :: p in db.peers ==> SameStanding(db.peers[p], db'.peers[p]))
    && (forall p :: p in db'.peers && p !in db.peers ==> Blank(db'.peers[p]))
  }

  ghost predicate SameStanding(info: PeerInfo, info': PeerInfo) {
    && info'.score == info.score && info'.status == info.status && info'.seenAddresses == info.seenAddresses
    && info'.direction == info.direction
  }

  /** A record of a peer that has never connected. */
  ghost predicate Blank(info: PeerInfo) {
    info.status.Unknown? && info.seenAddresses == {} && info.direction.None? && ScoreOk(info.score)
  }

  /** The clock at the time of the call. */
  function TimeOf(c: Call): Instant {
    if c.Touch? || c.Deliver? then 0 else c.now
  }

  /** One call takes the database from `db` to `db'` and queues `es`. */
  ghost predicate Does(db: Db, c: Call, es: seq<Event>, db': Db) {
    match c
    case Report(p, action, reason, now) =>
      && db' == Reported(db, p, action, now).0
      && es == ResultEvents(p, Reported(db, p, action, now).1, reason)
    case Tick(now, decay) =>
      IsDecay(decay) && exists results :: ScoresUpdated(db, now, decay, db', results) && es == AllResultEvents(results)
    case Gossip(scores, allowed, now) =>
      exists results :: GossipUpdated(db, scores, allowed, now, db', results) && es == AllResultEvents(results)
    case CleanupDialing(now) =>
      es == [] && exists order :: IsOverdueOrder(db, now, order) && db' == AllDisconnected(db, order, now)
    case DisconnectAll(peers, now) =>
      && NoDup(peers) && (forall p :: p in peers ==> p in db.peers && db.peers[p].IsConnected())
      && db' == AllDisconnecting(db, peers, now) && es == DisconnectEvents(peers)
    case Established(p, direction, addr, others, limits, now) =>
      && db' == Admitted(db, p, direction, addr, limits, now).0
      && es == (if others == 0 then [RequestMetaData(p)] else []) + Admitted(db, p, direction, addr, limits, now).1
    case Closed(p, remaining, now) =>
      if remaining > 0 then db' == db && es == []
      else
        exists tail ::
          && Disconnection(db, p, now, tail, db')
          && es == (if p in db.peers && (db.peers[p].status.Connected? || db.peers[p].status.Disconnecting?)
                    then [PeerDisconnected(p)] else []) + tail
    case DialFailed(failed, now) =>
      if failed.None? || (failed.value in db.peers && db.peers[failed.value].IsConnected()) then db' == db && es == []
      else Disconnection(db, failed.value, now, es, db')
    case Dial(p, enr, trusted, now) => db' == Updated(db, p, ToDialing(enr, trusted), now).0 && es == []
    case Touch => Touched(db, db') && es == []
    case Deliver => db' == db && es == []
  }

  // ---- The last word on a peer ----

  /** Whether the last ban announcement about `p`, if any, was a ban. */
  function LastWord(es: seq<Event>, p: PeerId): Option<bool>
    decreases |es|
  {
    if es == [] then None
    else
      var e := es[|es| - 1];
      if e.PeerBanned? && e.peer == p then Some(true)
      else if e.PeerUnbanned? && e.peer == p then Some(false)
      else LastWord(es[..|es| - 1], p)
  }

  lemma {:induction false} LastWordOfBoth(es: seq<Event>, es': seq<Event>, p: PeerId)
    ensures LastWord(es + es', p) == if LastWord(es', p).Some? then LastWord(es', p) else LastWord(es, p)
    decreases |es'|
  {
    if es' == [] {
      assert es + es' == es;
    } else {
      assert (es + es')[..|es + es'| - 1] == es + es'[..|es'| - 1];
      LastWordOfBoth(es, es'[..|es'| - 1], p);
    }
  }

  /** How the last word on a peer relates to its standing before and after. */
  predicate Consistent(word: Option<bool>, before: bool, after: bool, exit: bool) {
    match word
    case None => (after ==> before) && (before && !after ==> exit)
    case Some(banned) => if banned then after || exit else !after
  }

  ghost predicate Announces(db: Db, es: seq<Event>, db': Db, exits: set<PeerId>) {
    forall p :: Consistent(LastWord(es, p), IsBanned(db, p), IsBanned(db', p), p in exits)
  }

  ghost predicate Sound(db: Db) { Counted(db) && ScoresOk(db) }

  /**
   * What a call does to the excess of the ban counters: nothing, a banned peer with these addresses
   * leaks out of them, or eviction, which starts them afresh once the excess alone is over the limit.
   */
  datatype Drift = Steady | Leak(seen: set<SocketAddr>) | Shrink

  function Drifted(excess: int, d: Drift): int {
    match d
    case Steady => excess
    case Leak(_) => excess + 1
    case Shrink => if excess > MAX_BANNED_PEERS then 0 else excess
  }

  function DriftedOn(excess: int, excessOn: int, d: Drift, ip: IpAddr): int {
    match d
    case Steady => excessOn
    case Leak(seen) => excessOn + AddrCount(seen, ip)
    case Shrink => if excess > MAX_BANNED_PEERS then 0 else excessOn
  }

  /** Counters stay honest and their excess, in total and per address, drifts as told. */
  ghost predicate Tally(db: Db, db': Db, d: Drift) {
    Sound(db) ==>
      && Sound(db') && Excess(db') == Drifted(Excess(db), d)
      && forall ip :: ExcessOn(db', ip) == DriftedOn(Excess(db), ExcessOn(db, ip), d, ip)
  }

  ghost predicate Effect(db: Db, es: seq<Event>, db': Db, exits: set<PeerId>, d: Drift) {
    Announces(db, es, db', exits) && Tally(db, db', d)
  }

  /** Two effects of which at most one moves the counters. */
  lemma EffectsCompose(a: Db, es: seq<Event>, b: Db, exits: set<PeerId>, d: Drift,
                       es': seq<Event>, c: Db, exits': set<PeerId>, d': Drift)
    requires Effect(a, es, b, exits, d) && Effect(b, es', c, exits', d') && (d.Steady? || d'.Steady?)
    ensures Effect(a, es + es', c, exits + exits', if d.Steady? then d' else d)
  {
    hide Sound, Excess, ExcessOn, IsBanned, AddrCount;
    forall p
      ensures Consistent(LastWord(es + es', p), IsBanned(a, p), IsBanned(c, p), p in exits + exits')
    {
      LastWordOfBoth(es, es', p);
      assert Consistent(LastWord(es, p), IsBanned(a, p), IsBanned(b, p), p in exits);
      assert Consistent(LastWord(es', p), IsBanned(b, p), IsBanned(c, p), p in exits');
    }
  }

  // ---- Effects of the parts ----

  /** A change that touches no peer's standing but its score. */
  ghost predicate Rescored(db: Db, db': Db) {
    && db'.disconnected == db.disconnected && db'.bans == db.bans && db.peers.Keys <= db'.peers.Keys
    && (forall p :: p in db.peers ==>
          && db'.peers[p].status == db.peers[p].status
          && db'.peers[p].seenAddresses == db.peers[p].seenAddresses
          && (ScoreOk(db.peers[p].score) ==> ScoreOk(db'.peers[p].score)))
    && (forall p :: p in db'.peers && p !in db.peers ==> db'.peers[p].status.Unknown? && ScoreOk(db'.peers[p].score))
  }

  lemma RescoredSums(db: Db, db': Db)
    requires Rescored(db, db')
    ensures DisconnectedIn(db') == DisconnectedIn(db) && BannedIn(db') == BannedIn(db)
    ensures forall ip :: BannedOn(db', ip) == BannedOn(db, ip)
  {
    hide AddrCount, ScoreOk;
    MapSumGrown(db.peers, db'.peers, DisconnectedWeight());
    MapSumGrown(db.peers, db'.peers, BannedWeight());
    forall ip
      ensures BannedOn(db', ip) == BannedOn(db, ip)
    {
      MapSumGrown(db.peers, db'.peers, IpWeight(ip));
    }
  }

  /** Events that say nothing about bans. */
  ghost predicate Wordless(es: seq<Event>) {
    forall e :: e in es ==> !e.PeerBanned? && !e.PeerUnbanned?
  }

  lemma {:induction false} NoWord(es: seq<Event>, p: PeerId)
    requires Wordless(es)
    ensures LastWord(es, p) == None
    decreases |es|
  {
    if es != [] {
      assert es[|es| - 1] in es;
      NoWord(es[..|es| - 1], p);
    }
  }

  lemma RescoredTally(db: Db, db': Db)
    requires Rescored(db, db')
    ensures Tally(db, db', Steady)
  {
    hide ScoreOk, BannedIn, BannedOn, DisconnectedIn;
    RescoredSums(db, db');
    if Sound(db) {
      forall p | p in db'.peers
        ensures ScoreOk(db'.peers[p].score)
      {
        if p in db.peers { assert ScoreOk(db.peers[p].score); }
      }
      assert Excess(db') == Excess(db) && forall ip :: ExcessOn(db', ip) == ExcessOn(db, ip);
    }
  }

  lemma RescoredEffect(db: Db, es: seq<Event>, db': Db)
    requires Rescored(db, db') && Wordless(es)
    ensures Effect(db, es, db', {}, Steady)
  {
    hide Wordless, ScoreOk, Tally;
    forall p
      ensures Consistent(LastWord(es, p), IsBanned(db, p), IsBanned(db', p), p in {})
    {
      NoWord(es, p);
    }
    RescoredTally(db, db');
  }

  lemma NothingEffect(db: Db, es: seq<Event>)
    requires Wordless(es)
    ensures Effect(db, es, db, {}, Steady)
  {
    hide Wordless;
    RescoredEffect(db, es, db);
  }

  lemma UpdateKeepsScores(db: Db, p: PeerId, req: NewConnectionState, now: Instant)
    requires ScoresOk(db)
    ensures ScoresOk(Updated(db, p, req, now).0)
  {
    hide NextStatus, NextBans, NextDisconnected, NextOperation, Scores.StateOf, ScoreOk;
    var info := InfoOf(db, p, req, now);
    assert ScoreOk(info.score) by { FreshScoresOk(now); }
    FatalKeepsScoreOk(info.(status := NextStatus(info.status, req, now)));
  }

  lemma FreshScoresOk(now: Instant)
    ensures ScoreOk(DefaultPeerInfo(now).score) && ScoreOk(TrustedPeerInfo(now).score)
  {
  }

  lemma FatalKeepsScoreOk(info: PeerInfo)
    requires ScoreOk(info.score)
    ensures ScoreOk(Penalised(info, Scores.Fatal).score)
  {
    PenaltyKeepsScoreOk(info, Scores.Fatal);
  }

  lemma PenaltyKeepsScoreOk(info: PeerInfo, action: Scores.PeerAction)
    requires ScoreOk(info.score)
    ensures ScoreOk(Penalised(info, action).score)
  {
    if !info.isTrusted && info.score.Real? {
      Scores.AfterStaysReachable(info.score.value, Scores.Report(action));
    }
  }

  function LeakOf(db: Db, p: PeerId, req: NewConnectionState): Drift {
    if Leaks(db, p, req) then Leak(db.peers[p].seenAddresses) else Steady
  }

  lemma UpdateTally(db: Db, p: PeerId, req: NewConnectionState, now: Instant)
    ensures Tally(db, Updated(db, p, req, now).0, LeakOf(db, p, req))
  {
    hide Updated, ScoresOk, Excess, ExcessOn, AddrCount;
    if Sound(db) {
      UpdateKeepsCounted(db, p, req, now);
      UpdateKeepsScores(db, p, req, now);
      ExcessAfterUpdate(db, p, req, now);
      forall ip
        ensures ExcessOn(Updated(db, p, req, now).0, ip)
             == DriftedOn(Excess(db), ExcessOn(db, ip), LeakOf(db, p, req), ip)
      {
        ExcessOnAfterUpdate(db, p, req, now, ip);
      }
    }
  }

  lemma OneWord(e: Event, p: PeerId)
    ensures LastWord([e], p) == if e.PeerBanned? && e.peer == p then Some(true)
                                else if e.PeerUnbanned? && e.peer == p then Some(false) else None
  {
    assert [e][..0] == [];
  }

  lemma PenalisedStatus(info: PeerInfo, action: Scores.PeerAction)
    ensures Penalised(info, action).status == info.status
    ensures Penalised(info, action).seenAddresses == info.seenAddresses
  {
  }

  /** The peer leaves the banned state without anybody being told. */
  function ExitOf(db: Db, p: PeerId, req: NewConnectionState): set<PeerId> {
    if IsBanned(db, p) && (req.ToConnected? || req.ToDialing? || req.ToDisconnecting?) then {p} else {}
  }

  lemma UpdateEffect(db: Db, p: PeerId, req: NewConnectionState, now: Instant, reason: Option<GoodbyeReason>)
    requires !req.ToUnbanned?
    ensures
      var (db', op) := Updated(db, p, req, now);
      Effect(db, OpEvents(p, op, reason), db', ExitOf(db, p, req), LeakOf(db, p, req))
  {
    hide NextBans, NextDisconnected, BannedIpsOf, Penalised, Scores.StateOf, Tally, DefaultPeerInfo, TrustedPeerInfo;
    UpdateTally(db, p, req, now);
    var (db', op) := Updated(db, p, req, now);
    var es := OpEvents(p, op, reason);
    var info := InfoOf(db, p, req, now);
    assert p !in db.peers ==> info.status.Unknown? by { FreshUnknown(now); }
    forall q
      ensures Consistent(LastWord(es, q), IsBanned(db, q), IsBanned(db', q), q in ExitOf(db, p, req))
    {
      if es != [] { OneWord(es[0], q); assert es == [es[0]]; }
      PenalisedStatus(info.(status := NextStatus(info.status, req, now)), Scores.Fatal);
    }
  }

  lemma FreshUnknown(now: Instant)
    ensures DefaultPeerInfo(now).status == Unknown && TrustedPeerInfo(now).status == Unknown
  {
  }

  lemma UnbanEffect(db: Db, p: PeerId, now: Instant)
    ensures
      var (db', result) := Unban(db, p, now);
      Effect(db, ResultEvents(p, result, None), db', {}, Steady)
  {
    hide NextBans, NextDisconnected, UnbannedIpsOf, Scores.StateOf, Tally, DefaultPeerInfo, TrustedPeerInfo;
    UpdateTally(db, p, ToUnbanned, now);
    FreshUnknown(now);
    var (db', result) := Unban(db, p, now);
    forall q
      ensures Consistent(LastWord(ResultEvents(p, result, None), q), IsBanned(db, q), IsBanned(db', q), q in {})
    {
      OneWord(PeerUnbanned(p, result.ips), q);
    }
  }

  lemma {:induction false} PurgedWord(purged: Purged, p: PeerId)
    ensures LastWord(PurgeEvents(purged), p)
         == if exists i :: 0 <= i < |purged| && purged[i].0 == p then Some(false) else None
    decreases |purged|
  {
    if purged != [] {
      var n := |purged| - 1;
      assert PurgeEvents(purged)[..n] == PurgeEvents(purged[..n]);
      PurgedWord(purged[..n], p);
      if exists i :: 0 <= i < |purged| && purged[i].0 == p {
        var i :| 0 <= i < |purged| && purged[i].0 == p;
        if purged[n].0 != p { assert purged[..n][i].0 == p; }
      }
    }
  }

  lemma ShrunkTally(db: Db, db': Db, purged: Purged)
    requires Shrunk(db, db', purged)
    ensures Tally(db, db', Shrink)
  {
    hide BansShrunk, DisconnectedShrunk, ScoreOk, Excess, ExcessOn;
    var mid :| BansShrunk(db, mid, purged) && DisconnectedShrunk(mid, db');
    EvictionBounded(db, db', purged);
    if Sound(db) { ShrunkExcess(db, mid, db', purged); }
  }

  lemma ShrunkExcess(db: Db, mid: Db, db': Db, purged: Purged)
    requires BansShrunk(db, mid, purged) && DisconnectedShrunk(mid, db')
    ensures Counted(db') && Excess(db') == Drifted(Excess(db), Shrink)
    ensures forall ip :: ExcessOn(db', ip) == DriftedOn(Excess(db), ExcessOn(db, ip), Shrink, ip)
  {
    hide DroppedOldest, Names, BannedIn, DisconnectedIn, ExcessOn;
  }

  lemma ShrunkEffect(db: Db, db': Db, purged: Purged)
    requires Shrunk(db, db', purged)
    ensures Effect(db, PurgeEvents(purged), db', {}, Shrink)
  {
    hide Shrunk, PurgeEvents, Tally;
    ShrunkTally(db, db', purged);
    EvictionBounded(db, db', purged);
    forall p
      ensures Consistent(LastWord(PurgeEvents(purged), p), IsBanned(db, p), IsBanned(db', p), p in {})
    {
      PurgedWord(purged, p);
    }
  }

  lemma NoiseAfter(db: Db, es: seq<Event>, db': Db, exits: set<PeerId>, d: Drift, noise: seq<Event>)
    requires Effect(db, es, db', exits, d) && Wordless(noise)
    ensures Effect(db, es + noise, db', exits, d)
  {
    hide Effect, Wordless;
    NothingEffect(db', noise);
    EffectsCompose(db, es, db', exits, d, noise, db', {}, Steady);
    assert exits + {} == exits;
  }

  lemma NoiseBefore(db: Db, es: seq<Event>, db': Db, exits: set<PeerId>, d: Drift, noise: seq<Event>)
    requires Effect(db, es, db', exits, d) && Wordless(noise)
    ensures Effect(db, noise + es, db', exits, d)
  {
    hide Effect, Wordless;
    NothingEffect(db, noise);
    EffectsCompose(db, noise, db, {}, Steady, es, db', exits, d);
    assert {} + exits == exits;
  }

  /** A quiet step and then another one. */
  lemma QuietlyThen(a: Db, es: seq<Event>, b: Db, es': seq<Event>, c: Db)
    requires Effect(a, es, b, {}, Steady) && Effect(b, es', c, {}, Steady)
    ensures Effect(a, es + es', c, {}, Steady)
  {
    hide Effect;
    var none: set<PeerId> := {};
    EffectsCompose(a, es, b, none, Steady, es', c, none, Steady);
    assert none + none == none;
  }

  // ---- Effects of the calls ----

  lemma NoOpUnlessAsked(db: Db, p: PeerId, req: NewConnectionState, now: Instant, reason: Option<GoodbyeReason>)
    requires req.ToDisconnecting? || req.ToConnected? || req.ToDialing?
             || (req.ToDisconnected? && p in db.peers && db.peers[p].IsDialing())
    ensures OpEvents(p, Updated(db, p, req, now).1, reason) == []
  {
    hide NextBans, NextDisconnected, DefaultPeerInfo, TrustedPeerInfo;
  }

  lemma ActedEffect(db: Db, p: PeerId, t: ScoreTransition, now: Instant, reason: Option<GoodbyeReason>)
    requires t.BecameDisconnected? ==> !IsBanned(db, p)
    ensures
      var (db', result) := Acted(db, p, t, now);
      Effect(db, ResultEvents(p, result, reason), db', {}, Steady)
  {
    hide Effect, Updated, Unban;
    match t
    case BecameBanned =>
      UpdateEffect(db, p, ToBanned, now, reason);
      var op := Updated(db, p, ToBanned, now).1;
      assert op.Some? ==> op == Some(op.value);
    case BecameDisconnected =>
      UpdateEffect(db, p, ToDisconnecting(false), now, reason);
      NoOpUnlessAsked(db, p, ToDisconnecting(false), now, reason);
      NoiseAfter(db, [], Updated(db, p, ToDisconnecting(false), now).0, {}, Steady, [DisconnectPeer(p, BadScore)]);
      assert [] + [DisconnectPeer(p, BadScore)] == [DisconnectPeer(p, BadScore)];
    case BecameUnbanned =>
      UnbanEffect(db, p, now);
      UnbanResult(db, p, now);
    case NoTransition => NothingEffect(db, []);
  }

  lemma UnbanResult(db: Db, p: PeerId, now: Instant)
    ensures Unban(db, p, now).1.Unbanned?
  {
  }

  lemma DisconnectMeansConnected(previous: Scores.ScoreState, info: PeerInfo)
    requires TransitionOf(previous, info).BecameDisconnected?
    ensures info.status.Connected? || info.status.Dialing?
  {
  }

  lemma ReportEffect(db: Db, p: PeerId, action: Scores.PeerAction, now: Instant, reason: Option<GoodbyeReason>)
    ensures
      var (db', result) := Reported(db, p, action, now);
      Effect(db, ResultEvents(p, result, reason), db', {}, Steady)
  {
    hide Effect, Acted, TransitionOf, Scores.StateOf, ScoreOk, Penalised;
    if p in db.peers {
      var info := db.peers[p];
      var mid := WithInfo(db, p, Penalised(info, action));
      var t := ReportTransition(info, action);
      PenalisedStatus(info, action);
      if ScoreOk(info.score) { PenaltyKeepsScoreOk(info, action); }
      RescoredEffect(db, [], mid);
      if t.BecameDisconnected? { DisconnectMeansConnected(Scores.StateOf(info.score), Penalised(info, action)); }
      var t' := if t.BecameUnbanned? then NoTransition else t;
      ActedEffect(mid, p, t', now, reason);
      var (db', result) := Acted(mid, p, t', now);
      QuietlyThen(db, [], mid, ResultEvents(p, result, reason), db');
      assert [] + ResultEvents(p, result, reason) == ResultEvents(p, result, reason);
    } else {
      NothingEffect(db, []);
    }
  }

  lemma {:induction false} UnbannedEffect(db: Db, order: seq<PeerId>, now: Instant)
    ensures
      var (db', results) := AllUnbanned(db, order, now);
      Effect(db, AllResultEvents(results), db', {}, Steady)
    decreases |order|
  {
    hide Effect, Unban, ResultEvents;
    if order == [] {
      NothingEffect(db, []);
    } else {
      var p := order[|order| - 1];
      var (before, results) := AllUnbanned(db, order[..|order| - 1], now);
      var (after, result) := Unban(before, p, now);
      UnbannedEffect(db, order[..|order| - 1], now);
      UnbanEffect(before, p, now);
      QuietlyThen(db, AllResultEvents(results), before, ResultEvents(p, result, None), after);
      assert (results + [(p, result)])[..|results|] == results;
    }
  }

  lemma TickedStanding(info: PeerInfo, now: Instant, decay: Decay)
    requires IsDecay(decay)
    ensures Ticked(info, now, decay).status == info.status
    ensures Ticked(info, now, decay).seenAddresses == info.seenAddresses
    ensures ScoreOk(info.score) ==> ScoreOk(Ticked(info, now, decay).score)
  {
    if ScoreOk(info.score) { TickKeepsScoreOk(info, now, decay); }
  }

  lemma TickEffect(db: Db, now: Instant, decay: Decay, db': Db, results: Results)
    requires IsDecay(decay) && ScoresUpdated(db, now, decay, db', results)
    ensures Effect(db, AllResultEvents(results), db', {}, Steady)
  {
    hide Effect, Ticked, AllUnbanned, ScoreOk, AllResultEvents, IsUnbanOrder;
    var order :|
      IsUnbanOrder(db, now, decay, order) && (db', results) == AllUnbanned(AllTicked(db, now, decay), order, now);
    var mid := AllTicked(db, now, decay);
    forall p | p in db.peers
      ensures mid.peers[p].status == db.peers[p].status && mid.peers[p].seenAddresses == db.peers[p].seenAddresses
      ensures ScoreOk(db.peers[p].score) ==> ScoreOk(mid.peers[p].score)
    {
      TickedStanding(db.peers[p], now, decay);
    }
    RescoredEffect(db, [], mid);
    UnbannedEffect(mid, order, now);
    QuietlyThen(db, [], mid, AllResultEvents(results), db');
    assert [] + AllResultEvents(results) == AllResultEvents(results);
  }

  lemma GossipStanding(info: PeerInfo, score: real, ignore: bool, now: Instant)
    ensures
      var info' := GossipScored(info, score, ignore, now);
      && info'.status == info.status && info'.seenAddresses == info.seenAddresses
      && (ScoreOk(info.score) ==> ScoreOk(info'.score))
  {
    if ScoreOk(info.score) { GossipKeepsScoreOk(info, score, ignore, now); }
  }

  lemma {:induction false} ScoredStanding(db: Db, gossip: map<PeerId, real>, order: seq<PeerId>, n: nat, allowed: nat,
                                          now: Instant)
    requires n <= |order| && forall p :: p in order ==> p in gossip && p in db.peers
    ensures Rescored(db, AllScored(db, gossip, order, n, allowed, now))
    ensures AllScored(db, gossip, order, n, allowed, now).peers.Keys == db.peers.Keys
  {
    hide ScoreOk, GossipScored, IsForgiven;
    if n > 0 {
      ScoredStanding(db, gossip, order, n - 1, allowed, now);
      var p := order[n - 1];
      GossipStanding(db.peers[p], gossip[p], IsForgiven(gossip, order, n - 1, allowed), now);
    }
  }

  lemma UpdateElsewhere(db: Db, p: PeerId, req: NewConnectionState, now: Instant, q: PeerId)
    requires q != p
    ensures IsBanned(Updated(db, p, req, now).0, q) == IsBanned(db, q)
    ensures q in Updated(db, p, req, now).0.peers <==> q in db.peers
    ensures q in db.peers ==> Updated(db, p, req, now).0.peers[q] == db.peers[q]
  {
  }

  lemma ActedElsewhere(db: Db, p: PeerId, t: ScoreTransition, now: Instant, q: PeerId)
    requires q != p
    ensures IsBanned(Acted(db, p, t, now).0, q) == IsBanned(db, q)
  {
    hide Updated, IsBanned;
    match t
    case BecameBanned => UpdateElsewhere(db, p, ToBanned, now, q);
    case BecameDisconnected => UpdateElsewhere(db, p, ToDisconnecting(false), now, q);
    case BecameUnbanned => UpdateElsewhere(db, p, ToUnbanned, now, q);
    case NoTransition =>
  }

  lemma {:induction false} AllActedElsewhere(db: Db, acts: seq<(PeerId, ScoreTransition)>, now: Instant, q: PeerId)
    requires forall i :: 0 <= i < |acts| ==> acts[i].0 != q
    ensures IsBanned(AllActed(db, acts, now).0, q) == IsBanned(db, q)
    decreases |acts|
  {
    hide Acted, IsBanned;
    if acts != [] {
      var (p, t) := acts[|acts| - 1];
      AllActedElsewhere(db, acts[..|acts| - 1], now, q);
      ActedElsewhere(AllActed(db, acts[..|acts| - 1], now).0, p, t, now, q);
    }
  }

  /** Every peer of the list once, and only unbanned ones are to be disconnected. */
  ghost predicate ActsApart(db: Db, acts: seq<(PeerId, ScoreTransition)>) {
    && (forall i, j :: 0 <= i < j < |acts| ==> acts[i].0 != acts[j].0)
    && (forall i :: 0 <= i < |acts| ==> !IsBanned(db, acts[i].0))
  }

  lemma {:induction false} AllActedEffect(db: Db, acts: seq<(PeerId, ScoreTransition)>, now: Instant)
    requires ActsApart(db, acts)
    ensures
      var (db', results) := AllActed(db, acts, now);
      Effect(db, AllResultEvents(results), db', {}, Steady)
    decreases |acts|
  {
    hide Effect, Acted, ResultEvents, IsBanned;
    if acts == [] {
      NothingEffect(db, []);
    } else {
      var n := |acts| - 1;
      var (p, t) := acts[n];
      var (before, results) := AllActed(db, acts[..n], now);
      var (after, result) := Acted(before, p, t, now);
      AllActedEffect(db, acts[..n], now);
      AllActedElsewhere(db, acts[..n], now, p);
      ActedEffect(before, p, t, now, None);
      QuietlyThen(db, AllResultEvents(results), before, ResultEvents(p, result, None), after);
      assert (results + [(p, result)])[..|results|] == results;
      if result.NoAction? {
        NoActionNoEvents(p);
        assert AllResultEvents(results) + [] == AllResultEvents(results);
      }
    }
  }

  lemma NoActionNoEvents(p: PeerId)
    ensures ResultEvents(p, NoAction, None) == []
  {
  }

  lemma GossipEffect(db: Db, gossip: map<PeerId, real>, allowed: nat, now: Instant, db': Db, results: Results)
    requires GossipUpdated(db, gossip, allowed, now, db', results)
    ensures Effect(db, AllResultEvents(results), db', {}, Steady)
  {
    hide Effect, AllActed, AllScored, AllResultEvents, GossipTransition;
    var order: seq<PeerId>, acts: seq<(PeerId, ScoreTransition)> :|
      && Orders.IsSortedListing(GossipPeers(db, gossip), Above(gossip), order)
      && ActsAre(db, gossip, order, allowed, now, acts) && |acts| == |order|
      && (db', results) == AllActed(AllScored(db, gossip, order, |order|, allowed, now), acts, now);
    var mid := AllScored(db, gossip, order, |order|, allowed, now);
    ScoredStanding(db, gossip, order, |order|, allowed, now);
    RescoredEffect(db, [], mid);
    forall i | 0 <= i < |acts|
      ensures !IsBanned(mid, acts[i].0)
    {
      assert order[i] in order && acts[i].0 == order[i];
    }
    AllActedEffect(mid, acts, now);
    QuietlyThen(db, [], mid, AllResultEvents(results), db');
    assert [] + AllResultEvents(results) == AllResultEvents(results);
  }

  lemma {:induction false} AllDisconnectedElsewhere(db: Db, order: seq<PeerId>, now: Instant, q: PeerId)
    requires q !in order && q in db.peers
    ensures q in AllDisconnected(db, order, now).peers && AllDisconnected(db, order, now).peers[q] == db.peers[q]
    decreases |order|
  {
    hide Updated, IsBanned;
    if order != [] {
      AllDisconnectedElsewhere(db, order[..|order| - 1], now, q);
      UpdateElsewhere(AllDisconnected(db, order[..|order| - 1], now), order[|order| - 1], ToDisconnected, now, q);
    }
  }

  lemma {:induction false} CleanupEffect(db: Db, order: seq<PeerId>, now: Instant)
    requires NoDup(order) && forall p :: p in order ==> p in db.peers && db.peers[p].IsDialing()
    ensures Effect(db, [], AllDisconnected(db, order, now), {}, Steady)
    decreases |order|
  {
    hide Effect, Updated;
    if order == [] {
      NothingEffect(db, []);
    } else {
      var n := |order| - 1;
      var p := order[n];
      assert p in order;
      var before := AllDisconnected(db, order[..n], now);
      CleanupEffect(db, order[..n], now);
      AllDisconnectedElsewhere(db, order[..n], now, p);
      UpdateEffect(before, p, ToDisconnected, now, None);
      NoOpUnlessAsked(before, p, ToDisconnected, now, None);
      var none: seq<Event> := [];
      QuietlyThen(db, none, before, none, AllDisconnected(db, order, now));
      assert none + none == none;
    }
  }

  lemma {:induction false} AllDisconnectingElsewhere(db: Db, order: seq<PeerId>, now: Instant, q: PeerId)
    requires q !in order && q in db.peers
    ensures q in AllDisconnecting(db, order, now).peers && AllDisconnecting(db, order, now).peers[q] == db.peers[q]
    decreases |order|
  {
    hide Updated, IsBanned;
    if order != [] {
      AllDisconnectingElsewhere(db, order[..|order| - 1], now, q);
      UpdateElsewhere(AllDisconnecting(db, order[..|order| - 1], now), order[|order| - 1], ToDisconnecting(false), now,
                      q);
    }
  }

  lemma {:induction false} DisconnectingEffect(db: Db, order: seq<PeerId>, now: Instant)
    requires NoDup(order) && forall p :: p in order ==> p in db.peers && db.peers[p].IsConnected()
    ensures Effect(db, [], AllDisconnecting(db, order, now), {}, Steady)
    decreases |order|
  {
    hide Effect, Updated;
    if order == [] {
      NothingEffect(db, []);
    } else {
      var n := |order| - 1;
      var p := order[n];
      assert p in order;
      var before := AllDisconnecting(db, order[..n], now);
      DisconnectingEffect(db, order[..n], now);
      AllDisconnectingElsewhere(db, order[..n], now, p);
      UpdateEffect(before, p, ToDisconnecting(false), now, None);
      NoOpUnlessAsked(before, p, ToDisconnecting(false), now, None);
      var none: seq<Event> := [];
      QuietlyThen(db, none, before, none, AllDisconnecting(db, order, now));
      assert none + none == none;
    }
  }

  lemma DisconnectedEffect(db: Db, p: PeerId, now: Instant, es: seq<Event>, db': Db)
    requires Disconnection(db, p, now, es, db')
    ensures Effect(db, es, db', {}, Shrink)
  {
    hide Effect, Updated, Shrunk, OpEvents, PurgeEvents;
    var purged :|
      && Shrunk(Updated(db, p, ToDisconnected, now).0, db', purged)
      && es == OpEvents(p, Updated(db, p, ToDisconnected, now).1, None) + PurgeEvents(purged);
    var mid := Updated(db, p, ToDisconnected, now).0;
    UpdateEffect(db, p, ToDisconnected, now, None);
    ShrunkEffect(mid, db', purged);
    var none: set<PeerId> := {};
    EffectsCompose(db, OpEvents(p, Updated(db, p, ToDisconnected, now).1, None), mid, none, Steady,
                   PurgeEvents(purged), db', none, Shrink);
    assert none + none == none;
  }

  /** The peers whose ban ends with this call without being announced. */
  function Exits(db: Db, c: Call): set<PeerId> {
    match c
    case Established(p, _, _, _, _, _) => if IsBanned(db, p) && BanStatus(db, p).NotBanned? then {p} else {}
    case Dial(p, _, _, _) => if IsBanned(db, p) then {p} else {}
    case _ => {}
  }

  /** The calls that make the ban counters drift: turning away a banned peer whose score has recovered. */
  predicate CallLeaks(db: Db, c: Call) {
    && c.Established? && IsBanned(db, c.peer) && BanStatus(db, c.peer).NotBanned?
    && Rejected(db, c.peer, c.direction, c.limits, c.now)
  }

  /** The calls that end in eviction: the last connection to a peer is gone, or dialing it failed. */
  predicate CallShrinks(db: Db, c: Call) {
    || (c.Closed? && c.remaining == 0)
    || (c.DialFailed? && c.failed.Some? && !(c.failed.value in db.peers && db.peers[c.failed.value].IsConnected()))
  }

  function DriftOf(db: Db, c: Call): Drift {
    if CallLeaks(db, c) then Leak(db.peers[c.peer].seenAddresses)
    else if CallShrinks(db, c) then Shrink
    else Steady
  }

  lemma AdmittedEffect(db: Db, c: Call)
    requires c.Established?
    ensures
      var (db', es) := Admitted(db, c.peer, c.direction, c.addr, c.limits, c.now);
      Effect(db, es, db', Exits(db, c), DriftOf(db, c))
  {
    hide Effect, Updated, IsBanned, BanStatus, Rejected, Reported;
    var p := c.peer;
    match BanStatus(db, p)
    case ByScore => ReportEffect(db, p, Scores.Fatal, c.now, Some(BannedPeer));
    case ByIp => ReportEffect(db, p, Scores.Fatal, c.now, Some(BannedIp));
    case NotBanned =>
      if Rejected(db, p, c.direction, c.limits, c.now) {
        TurnAwayEffect(db, p, ToDisconnecting(false), c.now, [DisconnectPeer(p, TooManyPeers)]);
      } else {
        TurnAwayEffect(db, p, ToConnected(None, c.addr, c.direction), c.now, [PeerConnected(p, c.direction)]);
      }
  }

  lemma TurnAwayEffect(db: Db, p: PeerId, req: NewConnectionState, now: Instant, noise: seq<Event>)
    requires (req.ToDisconnecting? || req.ToConnected?) && Wordless(noise)
    ensures Effect(db, noise, Updated(db, p, req, now).0, if IsBanned(db, p) then {p} else {},
                   if IsBanned(db, p) && req.ToDisconnecting? then Leak(db.peers[p].seenAddresses) else Steady)
  {
    hide Effect, Updated;
    UpdateEffect(db, p, req, now, None);
    NoOpUnlessAsked(db, p, req, now, None);
    NoiseAfter(db, [], Updated(db, p, req, now).0, if IsBanned(db, p) then {p} else {},
               if IsBanned(db, p) && req.ToDisconnecting? then Leak(db.peers[p].seenAddresses) else Steady, noise);
    assert [] + noise == noise;
  }

  lemma EstablishedEffect(db: Db, c: Call, es: seq<Event>, db': Db)
    requires c.Established? && Does(db, c, es, db')
    ensures Effect(db, es, db', Exits(db, c), DriftOf(db, c))
  {
    hide Effect, Admitted, Exits, DriftOf;
    AdmittedEffect(db, c);
    var es' := Admitted(db, c.peer, c.direction, c.addr, c.limits, c.now).1;
    NoiseBefore(db, es', db', Exits(db, c), DriftOf(db, c), if c.others == 0 then [RequestMetaData(c.peer)] else []);
  }

  lemma DialEffect(db: Db, c: Call, es: seq<Event>, db': Db)
    requires c.Dial? && Does(db, c, es, db')
    ensures Effect(db, es, db', Exits(db, c), DriftOf(db, c))
  {
    hide Effect, Updated;
    UpdateEffect(db, c.peer, ToDialing(c.enr, c.trusted), c.now, None);
    NoOpUnlessAsked(db, c.peer, ToDialing(c.enr, c.trusted), c.now, None);
  }

  lemma ClosedEffect(db: Db, c: Call, es: seq<Event>, db': Db)
    requires (c.Closed? || c.DialFailed?) && Does(db, c, es, db')
    ensures Effect(db, es, db', {}, DriftOf(db, c))
  {
    hide Effect, Disconnection;
    if c.Closed? && c.remaining == 0 {
      var p := c.peer;
      var noise := if p in db.peers && (db.peers[p].status.Connected? || db.peers[p].status.Disconnecting?)
                   then [PeerDisconnected(p)] else [];
      var tail :| Disconnection(db, p, c.now, tail, db') && es == noise + tail;
      DisconnectedEffect(db, p, c.now, tail, db');
      NoiseBefore(db, tail, db', {}, Shrink, noise);
    } else if CallShrinks(db, c) {
      DisconnectedEffect(db, c.failed.value, c.now, es, db');
    } else {
      NothingEffect(db, []);
    }
  }

  /** Every call keeps the counters honest and accounts for every change of a ban. */
  lemma CallEffect(db: Db, c: Call, es: seq<Event>, db': Db)
    requires Does(db, c, es, db')
    ensures Effect(db, es, db', Exits(db, c), DriftOf(db, c))
  {
    hide Effect, ScoresUpdated, GossipUpdated, AllResultEvents, Reported, ResultEvents, AllDisconnected,
      AllDisconnecting;
    match c
    case Report(p, action, reason, now) => ReportEffect(db, p, action, now, reason);
    case Tick(now, decay) =>
      var results :| ScoresUpdated(db, now, decay, db', results) && es == AllResultEvents(results);
      TickEffect(db, now, decay, db', results);
    case Gossip(scores, allowed, now) =>
      var results :| GossipUpdated(db, scores, allowed, now, db', results) && es == AllResultEvents(results);
      GossipEffect(db, scores, allowed, now, db', results);
    case CleanupDialing(now) =>
      var order :| IsOverdueOrder(db, now, order) && db' == AllDisconnected(db, order, now);
      CleanupEffect(db, order, now);
    case DisconnectAll(peers, now) =>
      DisconnectingEffect(db, peers, now);
      NoiseAfter(db, [], db', {}, Steady, es);
      assert [] + es == es;
    case Established(_, _, _, _, _, _) => EstablishedEffect(db, c, es, db');
    case Closed(_, _, _) => ClosedEffect(db, c, es, db');
    case DialFailed(_, _) => ClosedEffect(db, c, es, db');
    case Dial(_, _, _, _) => DialEffect(db, c, es, db');
    case Touch => RescoredEffect(db, [], db');
    case Deliver => NothingEffect(db, []);
  }

  /** What the methods of the peer manager need of the database, every call keeps. */
  lemma CallKeepsSound(db: Db, c: Call, es: seq<Event>, db': Db)
    requires Sound(db) && Does(db, c, es, db')
    ensures Sound(db')
  {
    hide Sound, Does, Announces;
    CallEffect(db, c, es, db');
  }
}
