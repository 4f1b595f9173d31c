/** src/peer_manager/peerdb.rs: score changes and the connection state transitions they cause. */
module PeerReports {
  import opened Common
  import opened Sums
  import opened PeerInfos
  import opened PeerTables
  import opened Orders
  import Scores

  datatype ScoreTransition = BecameDisconnected | BecameBanned | BecameUnbanned | NoTransition

  datatype ScoreUpdateResult = Ban(op: BanOperation) | Disconnect | Unbanned(ips: set<IpAddr>) | NoAction

  type Results = seq<(PeerId, ScoreUpdateResult)>

  /** The decay factor after a whole number of seconds. */
  type Decay = nat -> real

  /** An exponential: one for no time at all, and never above one or down to zero. */
  ghost predicate IsDecay(decay: Decay) {
    decay(0) == 1.0 && forall secs :: 0.0 < decay(secs) <= 1.0
  }

  /** `handle_score_transition`. */
  function TransitionOf(previous: Scores.ScoreState, info: PeerInfo): ScoreTransition {
    match (Scores.StateOf(info.score), previous)
    case (Banned, Healthy) => BecameBanned
    case (Banned, Disconnected) => BecameBanned
    case (Disconnected, Banned) =>
      if info.IsConnected() || info.IsDialing() then BecameDisconnected else BecameUnbanned
    case (Disconnected, Healthy) =>
      if info.IsConnected() || info.IsDialing() then BecameDisconnected else NoTransition
    case (Healthy, Banned) => BecameUnbanned
    case (_, _) => NoTransition
  }

  /** Every real score in the database is one that reports, ticks and gossip updates can reach. */
  ghost predicate ScoresOk(db: Db) {
    forall p :: p in db.peers ==> ScoreOk(db.peers[p].score)
  }

  ghost predicate ScoreOk(score: Scores.Score) {
    score.Real? ==> Scores.Reachable(score.value)
  }

  // ---- Acting on a transition ----

  function Unban(db: Db, p: PeerId, now: Instant): (Db, ScoreUpdateResult) {
    var db' := Updated(db, p, ToUnbanned, now).0;
    (db', Unbanned(UnbannedIpsOf(db'.bans, db'.peers[p].seenAddresses)))
  }

  /** The database and the instruction to the peer manager after a score transition. */
  function Acted(db: Db, p: PeerId, t: ScoreTransition, now: Instant): (Db, ScoreUpdateResult) {
    match t
    case BecameBanned =>
      var (db', op) := Updated(db, p, ToBanned, now);
      (db', if op.Some? then Ban(op.value) else NoAction)
    case BecameDisconnected => (Updated(db, p, ToDisconnecting(false), now).0, Disconnect)
    case BecameUnbanned => Unban(db, p, now)
    case NoTransition => (db, NoAction)
  }

  function WithInfo(db: Db, p: PeerId, info: PeerInfo): Db { db.(peers := db.peers[p := info]) }

  // ---- Reports ----

  function ReportTransition(info: PeerInfo, action: Scores.PeerAction): ScoreTransition {
    TransitionOf(Scores.StateOf(info.score), Penalised(info, action))
  }

  /** `report_peer`. A report that would unban is only logged. */
  function Reported(db: Db, p: PeerId, action: Scores.PeerAction, now: Instant): (Db, ScoreUpdateResult) {
    if p !in db.peers then (db, NoAction)
    else
      var t := ReportTransition(db.peers[p], action);
      Acted(WithInfo(db, p, Penalised(db.peers[p], action)), p, if t.BecameUnbanned? then NoTransition else t, now)
  }

  /** A report never improves a score's state, so the unbanning branch of `report_peer` is dead. */
  lemma ReportNeverUnbans(info: PeerInfo, action: Scores.PeerAction)
    requires ScoreOk(info.score)
    ensures !ReportTransition(info, action).BecameUnbanned?
    ensures Scores.StateOf(Penalised(info, action).score).Severity() >= Scores.StateOf(info.score).Severity()
  {
  }

  // ---- Heartbeat ticks ----

  function Ticked(info: PeerInfo, now: Instant, decay: Decay): PeerInfo {
    if info.isTrusted || info.score.Max? then info
    else
      var last := info.score.value.lastUpdated;
      var secs := if last <= now then (now - last) / NANOS_PER_SEC else 0;
      info.(score := Scores.Real(Scores.Decayed(info.score.value, now, decay(secs))))
  }

  function AllTicked(db: Db, now: Instant, decay: Decay): Db {
    db.(peers := map p | p in db.peers :: Ticked(db.peers[p], now, decay))
  }

  function TickTransition(info: PeerInfo, now: Instant, decay: Decay): ScoreTransition {
    TransitionOf(Scores.StateOf(info.score), Ticked(info, now, decay))
  }

  /** A tick never worsens a score's state, so the banning branch of `update_scores` is dead. */
  lemma TickNeverBans(info: PeerInfo, now: Instant, decay: Decay)
    requires ScoreOk(info.score) && IsDecay(decay)
    ensures !TickTransition(info, now, decay).BecameBanned?
    ensures Scores.StateOf(Ticked(info, now, decay).score).Severity() <= Scores.StateOf(info.score).Severity()
  {
    if !info.isTrusted && info.score.Real? {
      var last := info.score.value.lastUpdated;
      var secs := if last <= now then (now - last) / NANOS_PER_SEC else 0;
      Scores.DecayNeverPenalises(info.score.value, now, decay(secs));
    }
  }

  lemma TickKeepsScoreOk(info: PeerInfo, now: Instant, decay: Decay)
    requires ScoreOk(info.score) && IsDecay(decay)
    ensures ScoreOk(Ticked(info, now, decay).score)
  {
    if !info.isTrusted && info.score.Real? {
      var last := info.score.value.lastUpdated;
      var secs := if last <= now then (now - last) / NANOS_PER_SEC else 0;
      Scores.AfterStaysReachable(info.score.value, Scores.Tick(now, decay(secs)));
    }
  }

  /** Lifts the bans of the listed peers, one after the other. */
  function AllUnbanned(db: Db, order: seq<PeerId>, now: Instant): (Db, Results)
    decreases |order|
  {
    if order == [] then (db, [])
    else
      var (before, results) := AllUnbanned(db, order[..|order| - 1], now);
      var p := order[|order| - 1];
      var (after, result) := Unban(before, p, now);
      (after, results + [(p, result)])
  }

  /** `order` lists exactly the peers whose ban ends with this tick. */
  ghost predicate IsUnbanOrder(db: Db, now: Instant, decay: Decay, order: seq<PeerId>) {
    && NoDup(order)
    && forall p :: p in order <==> p in db.peers && TickTransition(db.peers[p], now, decay).BecameUnbanned?
  }

  /** `update_scores`, whatever the order in which the map is walked. */
  ghost predicate ScoresUpdated(db: Db, now: Instant, decay: Decay, db': Db, results: Results) {
    exists order ::
      IsUnbanOrder(db, now, decay, order) && (db', results) == AllUnbanned(AllTicked(db, now, decay), order, now)
  }

  // ---- Gossipsub scores ----

  function GossipScored(info: PeerInfo, score: real, ignore: bool, now: Instant): PeerInfo {
    if info.score.Max? then info
    else info.(score := Scores.Real(Scores.GossipUpdated(info.score.value, now, score, ignore)))
  }

  lemma GossipKeepsScoreOk(info: PeerInfo, score: real, ignore: bool, now: Instant)
    requires ScoreOk(info.score)
    ensures ScoreOk(GossipScored(info, score, ignore, now).score)
  {
    if info.score.Real? {
      Scores.AfterStaysReachable(info.score.value, Scores.Gossip(now, score, ignore));
    }
  }

  /** The connected peers that gossipsub has a score for. */
  function GossipPeers(db: Db, gossip: map<PeerId, real>): set<PeerId> {
    set p | p in db.peers && p in gossip && db.peers[p].IsConnected()
  }

  function ScoredAbove(gossip: map<PeerId, real>, p: PeerId, q: PeerId): bool {
    p in gossip && q in gossip && gossip[p] > gossip[q]
  }

  function Above(gossip: map<PeerId, real>): (PeerId, PeerId) -> bool {
    (p: PeerId, q: PeerId) => ScoredAbove(gossip, p, q)
  }

  /** How many of the listed peers have a negative gossipsub score. */
  function Negatives(gossip: map<PeerId, real>, order: seq<PeerId>): nat
    requires forall p :: p in order ==> p in gossip
    decreases |order|
  {
    if order == [] then 0
    else
      var last := order[|order| - 1];
      Negatives(gossip, order[..|order| - 1]) + if gossip[last] < 0.0 then 1 else 0
  }

  /** The first `allowed` negative scores of the list are forgiven. */
  function IsForgiven(gossip: map<PeerId, real>, order: seq<PeerId>, i: nat, allowed: nat): bool
    requires i < |order| && forall p :: p in order ==> p in gossip
  {
    gossip[order[i]] < 0.0 && Negatives(gossip, order[..i]) < allowed
  }

  /** The first pass: new gossipsub scores, and the transitions they cause. */
  function AllScored(db: Db, gossip: map<PeerId, real>, order: seq<PeerId>, n: nat, allowed: nat, now: Instant): Db
    requires n <= |order| && forall p :: p in order ==> p in gossip && p in db.peers
  {
    if n == 0 then db
    else
      var p := order[n - 1];
      WithInfo(AllScored(db, gossip, order, n - 1, allowed, now), p,
               GossipScored(db.peers[p], gossip[p], IsForgiven(gossip, order, n - 1, allowed), now))
  }

  function GossipTransition(db: Db, gossip: map<PeerId, real>, order: seq<PeerId>, i: nat, allowed: nat, now: Instant)
    : ScoreTransition
    requires i < |order| && forall p :: p in order ==> p in gossip && p in db.peers
  {
    var info := db.peers[order[i]];
    TransitionOf(Scores.StateOf(info.score),
                 GossipScored(info, gossip[order[i]], IsForgiven(gossip, order, i, allowed), now))
  }

  /** The second pass: acting on the transitions; instructions to do nothing are left out. */
  function AllActed(db: Db, acts: seq<(PeerId, ScoreTransition)>, now: Instant): (Db, Results)
    decreases |acts|
  {
    if acts == [] then (db, [])
    else
      var (before, results) := AllActed(db, acts[..|acts| - 1], now);
      var (p, t) := acts[|acts| - 1];
      var (after, result) := Acted(before, p, t, now);
      (after, if result.NoAction? then results else results + [(p, result)])
  }

  ghost predicate ActsAre(db: Db, gossip: map<PeerId, real>, order: seq<PeerId>, allowed: nat, now: Instant,
                          acts: seq<(PeerId, ScoreTransition)>)
  {
    && (forall p :: p in order ==> p in gossip && p in db.peers)
    && |acts| <= |order|
    && forall i :: 0 <= i < |acts| ==> acts[i] == (order[i], GossipTransition(db, gossip, order, i, allowed, now))
  }

  ghost predicate GossipUpdated(db: Db, gossip: map<PeerId, real>, allowed: nat, now: Instant, db': Db,
                                results: Results)
  {
    exists order, acts ::
      && IsSortedListing(GossipPeers(db, gossip), Above(gossip), order)
      && ActsAre(db, gossip, order, allowed, now, acts) && |acts| == |order|
      && (db', results) == AllActed(AllScored(db, gossip, order, |order|, allowed, now), acts, now)
  }

  lemma {:induction false} NegativesMonotone(gossip: map<PeerId, real>, order: seq<PeerId>, i: nat, j: nat)
    requires i <= j <= |order| && forall p :: p in order ==> p in gossip
    ensures Negatives(gossip, order[..i]) <= Negatives(gossip, order[..j]) <= Negatives(gossip, order[..i]) + (j - i)
    decreases j
  {
    if i < j {
      NegativesMonotone(gossip, order, i, j - 1);
      assert order[..j][..j - 1] == order[..j - 1];
    }
  }

  /** Forgiveness goes to the best of the negative scores: no unforgiven negative peer outranks a forgiven one. */
  lemma ForgivesTheBest(gossip: map<PeerId, real>, s: set<PeerId>, order: seq<PeerId>, allowed: nat, i: nat, j: nat)
    requires IsSortedListing(s, Above(gossip), order) && forall p :: p in order ==> p in gossip
    requires i < |order| && j < |order|
    requires IsForgiven(gossip, order, i, allowed)
    requires gossip[order[j]] < 0.0 && !IsForgiven(gossip, order, j, allowed)
    ensures gossip[order[j]] <= gossip[order[i]]
  {
    if j < i {
      NegativesMonotone(gossip, order, j, i);
    } else {
      assert !Above(gossip)(order[j], order[i]);
    }
  }

  /** How many of the first `n` listed peers are forgiven. */
  function Forgiven(gossip: map<PeerId, real>, order: seq<PeerId>, n: nat, allowed: nat): nat
    requires n <= |order| && forall p :: p in order ==> p in gossip
  {
    if n == 0 then 0
    else Forgiven(gossip, order, n - 1, allowed) + if IsForgiven(gossip, order, n - 1, allowed) then 1 else 0
  }

  /** As many negative scores are forgiven as are allowed, or all of them if there are fewer. */
  lemma {:induction false} ForgivesAllowed(gossip: map<PeerId, real>, order: seq<PeerId>, n: nat, allowed: nat)
    requires n <= |order| && forall p :: p in order ==> p in gossip
    ensures Forgiven(gossip, order, n, allowed) == Min(allowed, Negatives(gossip, order[..n]))
    decreases n
  {
    if n > 0 {
      ForgivesAllowed(gossip, order, n - 1, allowed);
      assert order[..n][..n - 1] == order[..n - 1];
    }
  }
}
