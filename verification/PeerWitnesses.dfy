/** Runs of the peer manager on which its ban counters drift and its announcements go stale. */
module PeerWitnesses {
  import opened Common
  import opened PeerInfos
  import opened PeerTables
  import opened PeerReports
  import opened PeerSystems
  import opened PeerRuns
  import Scores

  /** One configuration throughout, and a clock that never goes back or beyond `now`. */
  ghost predicate Realistic(cs: seq<Call>, limits: PeerLimits, now: Instant) {
    && (forall i :: 0 <= i < |cs| ==> TimeOf(cs[i]) <= now)
    && (forall i, j :: 0 <= i < j < |cs| ==> TimeOf(cs[i]) <= TimeOf(cs[j]))
    && (forall i :: 0 <= i < |cs| && cs[i].Established? ==> cs[i].limits == limits)
  }

  /** By the time `now` a peer manager with these limits can be in this state. */
  ghost predicate Reachable(s: Sys, limits: PeerLimits, now: Instant) {
    exists ss, cs :: IsRun(ss, cs) && Realistic(cs, limits, now) && ss[|cs|] == s
  }

  const Start: Sys := Sys(Fresh({}, 0), [], [])

  lemma StartReachable(limits: PeerLimits)
    ensures Reachable(Start, limits, 0)
  {
    assert IsRun([Start], []) && Realistic([], limits, 0);
  }

  /** The system after a call that queues `es`. */
  function After(s: Sys, es: seq<Event>, db: Db): Sys { Sys(db, s.delivered, s.queue + es) }

  lemma CallReaches(s: Sys, limits: PeerLimits, now: Instant, c: Call, es: seq<Event>, db: Db)
    requires Reachable(s, limits, now) && now <= TimeOf(c) && (c.Established? ==> c.limits == limits)
    requires !c.Deliver? && Does(s.db, c, es, db)
    ensures Next(s, c, After(s, es, db)) && Reachable(After(s, es, db), limits, TimeOf(c))
  {
    hide Does, IsStart, TimeOf;
    var ss, cs :| IsRun(ss, cs) && Realistic(cs, limits, now) && ss[|cs|] == s;
    var s' := After(s, es, db);
    assert s'.queue[|s.queue|..] == es;
    var ss', cs' := ss + [s'], cs + [c];
    forall i | 0 <= i < |cs'|
      ensures Next(ss'[i], cs'[i], ss'[i + 1])
    {
      if i < |cs| { assert ss'[i] == ss[i] && ss'[i + 1] == ss[i + 1]; }
    }
    assert IsRun(ss', cs');
    assert Realistic(cs', limits, TimeOf(c));
  }

  lemma StaysSound(s: Sys, limits: PeerLimits, now: Instant)
    requires Reachable(s, limits, now)
    ensures Sound(s.db)
  {
    hide Next, IsStart, Excess, ExcessOn, DriftOver, DriftOnOver, Realistic;
    var ss, cs :| IsRun(ss, cs) && Realistic(cs, limits, now) && ss[|cs|] == s;
    ExcessOverRuns(ss, cs);
  }

  lemma BannedIsAnnounced(s: Sys, limits: PeerLimits, now: Instant, p: PeerId)
    requires Reachable(s, limits, now) && IsBanned(s.db, p)
    ensures Announced(s, p)
  {
    hide Next, IsStart, IsBanned, Announced, Realistic;
    var ss, cs :| IsRun(ss, cs) && Realistic(cs, limits, now) && ss[|cs|] == s;
    AnnouncementsOverRuns(ss, cs, p);
  }

  // ---- A peer from its first connection to its ban ----

  /** One peer at a time. */
  const Limits: PeerLimits := PeerLimits(1, 1)

  /** An hour after the end of a ban pronounced at time zero. */
  const Thaw: Instant := Scores.BANNED_BEFORE_DECAY + 3600 * NANOS_PER_SEC

  /** One half per elapsed half-life of six hundred seconds. */
  function Halved(n: nat): real { if n == 0 then 1.0 else Halved(n - 1) / 2.0 }

  function Halving(): Decay { (secs: nat) => Halved(secs / 600) }

  lemma {:induction false} HalvedInRange(n: nat)
    ensures 0.0 < Halved(n) <= 1.0
  {
    if n > 0 { HalvedInRange(n - 1); }
  }

  lemma HalvingIsDecay()
    ensures IsDecay(Halving()) && Halving()(3600) == 1.0 / 64.0
  {
    forall secs: nat
      ensures 0.0 < Halving()(secs) <= 1.0
    {
      HalvedInRange(secs / 600);
    }
    assert Halved(1) == 1.0 / 2.0 && Halved(2) == 1.0 / 4.0 && Halved(3) == 1.0 / 8.0;
    assert Halved(4) == 1.0 / 16.0 && Halved(5) == 1.0 / 32.0 && Halved(6) == 1.0 / 64.0;
  }

  /** A peer that has connected once, from no known address. */
  function Peer(status: PeerConnectionStatus, score: Scores.Score): PeerInfo {
    DefaultPeerInfo(0).(status := status, score := score, direction := Some(Incoming))
  }

  /** The database of that peer alone. */
  function Alone(p: PeerId, status: PeerConnectionStatus, score: Scores.Score, bans: BannedPeersCount): Db {
    Db(map[p := Peer(status, score)], 0, bans)
  }

  function Clean(now: Instant): Scores.Score { Scores.Real(Scores.DefaultScore(now)) }

  const Condemned: Scores.Score :=
    Scores.Real(Scores.ScoreValue(-100.0, 0.0, false, -100.0, Scores.BANNED_BEFORE_DECAY))

  const Thawed: Scores.Score :=
    Scores.Real(Scores.ScoreValue(-100.0 / 64.0, 0.0, false, -100.0 / 64.0, Thaw))

  const OneBan: BannedPeersCount := BannedPeersCount(1, map[])

  /** A peer not known before is admitted while nobody is connected or dialing. */
  lemma Admits(db: Db, p: PeerId, now: Instant)
    requires p !in db.peers && forall q :: q in db.peers ==> !db.peers[q].IsConnected() && !db.peers[q].IsDialing()
    ensures Admitted(db, p, Incoming, None, Limits, now)
         == (Db(db.peers[p := Peer(Connected(1, 0), Clean(now))], db.disconnected, db.bans),
             [PeerConnected(p, Incoming)])
  {
    hide Scores.StateOf, BanAdded, BanRemoved;
    var busy := set q | q in db.peers && (db.peers[q].IsConnected() || db.peers[q].IsDialing());
    assert busy == {};
    assert !LimitReached(db, true, Limits);
    assert Peer(Connected(1, 0), Clean(now)).seenAddresses == {} + {};
  }

  /** A peer connects. */
  lemma Connects(p: PeerId) returns (s: Sys)
    ensures Reachable(s, Limits, 0) && s.db == Alone(p, Connected(1, 0), Clean(0), NoBans)
  {
    hide Reachable, Admitted;
    StartReachable(Limits);
    Admits(Start.db, p, 0);
    var (db', es) := Admitted(Start.db, p, Incoming, None, Limits, 0);
    assert db' == Alone(p, Connected(1, 0), Clean(0), NoBans);
    CallReaches(Start, Limits, 0, Established(p, Incoming, None, 0, Limits, 0), [RequestMetaData(p)] + es, db');
    s := After(Start, [RequestMetaData(p)] + es, db');
  }

  /** It is reported for a fatal offence and told to disconnect. */
  lemma IsCondemned(p: PeerId) returns (s: Sys)
    ensures Reachable(s, Limits, 0) && s.db == Alone(p, Disconnecting(true), Condemned, NoBans)
  {
    hide Reachable, BanAdded, BanRemoved;
    var s0 := Connects(p);
    var info := Peer(Connected(1, 0), Clean(0));
    assert Penalised(info, Scores.Fatal) == Peer(Connected(1, 0), Condemned);
    assert ReportTransition(info, Scores.Fatal) == BecameBanned;
    var (db', result) := Reported(s0.db, p, Scores.Fatal, 0);
    assert db' == Alone(p, Disconnecting(true), Condemned, NoBans);
    CallReaches(s0, Limits, 0, Report(p, Scores.Fatal, None, 0), ResultEvents(p, result, None), db');
    s := After(s0, ResultEvents(p, result, None), db');
  }

  /** One tick at the thaw time takes the score from a ban to health. */
  lemma ThawsByHalving()
    ensures
      var info := Peer(Disconnecting(true), Condemned);
      && Ticked(info, Thaw, Halving()) == Peer(Disconnecting(true), Thawed)
      && TickTransition(info, Thaw, Halving()) == BecameUnbanned
  {
    hide Halving, Scores.StateUpdated;
    HalvingIsDecay();
    var secs := (Thaw - Scores.BANNED_BEFORE_DECAY) / NANOS_PER_SEC;
    assert secs == 3600;
    var score := Condemned.value;
    ScaledByOneInSixtyFour(score);
    assert Scores.Decayed(score, Thaw, 1.0 / 64.0) == Thawed.value;
  }

  lemma ScaledByOneInSixtyFour(score: Scores.ScoreValue)
    requires score == Condemned.value
    ensures Scores.StateUpdated(Scores.Scaled(score, Thaw, 1.0 / 64.0)) == Thawed.value
  {
  }

  /** The tick that does it, for the whole database. */
  lemma ThawTick(p: PeerId, db: Db) returns (results: Results)
    requires db == Alone(p, Disconnecting(true), Condemned, NoBans)
    ensures ScoresUpdated(db, Thaw, Halving(), Alone(p, Disconnecting(true), Thawed, NoBans), results)
  {
    hide Halving, Ticked, TransitionOf, AllUnbanned;
    ThawsByHalving();
    assert IsUnbanOrder(db, Thaw, Halving(), [p]);
    var mid := AllTicked(db, Thaw, Halving());
    assert mid.peers == map[p := Peer(Disconnecting(true), Thawed)];
    UnbansNobody(mid, p, Thaw);
    results := AllUnbanned(mid, [p], Thaw).1;
    assert AllUnbanned(mid, [p], Thaw) == (mid, results);
  }

  /** Thirteen hours later, still disconnecting, its score thaws. */
  lemma Thaws(p: PeerId) returns (s: Sys)
    ensures Reachable(s, Limits, Thaw) && s.db == Alone(p, Disconnecting(true), Thawed, NoBans)
  {
    hide Reachable, Halving, ScoresUpdated, IsDecay;
    var s0 := IsCondemned(p);
    HalvingIsDecay();
    var results := ThawTick(p, s0.db);
    var db' := Alone(p, Disconnecting(true), Thawed, NoBans);
    CallReaches(s0, Limits, 0, Tick(Thaw, Halving()), AllResultEvents(results), db');
    s := After(s0, AllResultEvents(results), db');
  }

  /** Lifting the ban of a peer that is not banned yet changes nothing. */
  lemma UnbansNobody(db: Db, p: PeerId, now: Instant)
    requires p in db.peers && db.peers[p].status == Disconnecting(true)
    ensures AllUnbanned(db, [p], now).0 == db
  {
    hide BanAdded, BanRemoved;
    assert [p][..0] == [];
    assert db.peers[p := db.peers[p]] == db.peers;
  }

  /** Eviction with nothing to evict. */
  lemma ShrunkToItself(db: Db)
    requires Counted(db) && db.bans.bannedPeers <= MAX_BANNED_PEERS && db.disconnected <= MAX_DC_PEERS
    ensures Shrunk(db, db, [])
  {
    hide Excess, ExcessOn, DroppedOldest, Names, BansAfter;
    NothingDropped(db.peers, BannedKind);
    NothingDropped(db.peers, DisconnectedKind);
    ExcessAtMostTotal(db);
    BannedNatural(db);
    assert BansShrunk(db, db, []) && DisconnectedShrunk(db, db);
  }

  lemma BannedNatural(db: Db)
    ensures BannedIn(db) >= 0
  {
  }

  /** Its connection closes, and it is banned whatever its score. */
  lemma IsBannedAtLast(s0: Sys, p: PeerId, score: Scores.Score, now: Instant) returns (s: Sys)
    requires Reachable(s0, Limits, now) && s0.db == Alone(p, Disconnecting(true), score, NoBans)
    ensures Reachable(s, Limits, now) && s.db == Alone(p, Banned(now), score, OneBan)
  {
    hide Reachable, Shrunk, Counted;
    var (db', op) := Updated(s0.db, p, ToDisconnected, now);
    assert BanAdded(NoBans, {}) == OneBan;
    assert db' == Alone(p, Banned(now), score, OneBan);
    assert Counted(db') by {
      StaysSound(s0, Limits, now);
      UpdateKeepsCounted(s0.db, p, ToDisconnected, now);
    }
    ShrunkToItself(db');
    var tail := OpEvents(p, op, None) + PurgeEvents([]);
    assert Disconnection(s0.db, p, now, tail, db');
    CallReaches(s0, Limits, now, Closed(p, 0, now), [PeerDisconnected(p)] + tail, db');
    s := After(s0, [PeerDisconnected(p)] + tail, db');
  }

  // ---- The witnesses ----

  /** With the only slot taken, the thawed but banned peer is turned away. */
  lemma TurnedAway(p: PeerId, q: PeerId, db: Db)
    requires p != q && db.bans == OneBan
    requires db.peers == map[p := Peer(Banned(Thaw), Thawed), q := Peer(Connected(1, 0), Clean(Thaw))]
    ensures CallLeaks(db, Established(p, Incoming, None, 0, Limits, Thaw))
  {
    var busy := set r | r in db.peers && (db.peers[r].IsConnected() || db.peers[r].IsDialing());
    assert busy == {q};
    assert BannedIpsOf(OneBan, {}) == {};
  }

  /**
   * On some run a call leaks: a score thaws while its peer is still disconnecting to be banned, the
   * peer is banned all the same, and when it comes back another peer has taken the only slot.
   */
  lemma LeakReachable(p: PeerId, q: PeerId) returns (s: Sys, c: Call, s': Sys)
    requires p != q
    ensures Reachable(s, Limits, Thaw) && Next(s, c, s') && Reachable(s', Limits, Thaw)
    ensures CallLeaks(s.db, c) && !Exact(s'.db)
  {
    hide Reachable, Admitted, CallLeaks, Excess, ExcessOn, AddrCount;
    var s0 := Thaws(p);
    var s1 := IsBannedAtLast(s0, p, Thawed, Thaw);
    Admits(s1.db, q, Thaw);
    var (db1, es1) := Admitted(s1.db, q, Incoming, None, Limits, Thaw);
    CallReaches(s1, Limits, Thaw, Established(q, Incoming, None, 0, Limits, Thaw), [RequestMetaData(q)] + es1, db1);
    s := After(s1, [RequestMetaData(q)] + es1, db1);
    c := Established(p, Incoming, None, 0, Limits, Thaw);
    TurnedAway(p, q, s.db);
    var (db2, es2) := Admitted(s.db, p, Incoming, None, Limits, Thaw);
    CallReaches(s, Limits, Thaw, c, [RequestMetaData(p)] + es2, db2);
    s' := After(s, [RequestMetaData(p)] + es2, db2);
    StaysSound(s, Limits, Thaw);
    LeakIsReal(s.db, c, [RequestMetaData(p)] + es2, db2);
  }

  /** On some run a banned peer is dialed, and the swarm goes on banning it. */
  lemma ExitReachable(p: PeerId) returns (s: Sys, c: Call, s': Sys)
    ensures Reachable(s, Limits, 0) && Next(s, c, s') && Reachable(s', Limits, 0)
    ensures p in Exits(s.db, c) && Stale(s', p)
  {
    hide Reachable, NextBans, NextDisconnected, LastWord;
    var s0 := IsCondemned(p);
    s := IsBannedAtLast(s0, p, Condemned, 0);
    c := Dial(p, None, false, 0);
    var db' := Updated(s.db, p, ToDialing(None, false), 0).0;
    CallReaches(s, Limits, 0, c, [], db');
    s' := After(s, [], db');
    BannedIsAnnounced(s, Limits, 0, p);
    ExitsAreSilent(s, c, s', p);
  }
}
