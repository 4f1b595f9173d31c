/** src/peer_manager/mod.rs, `prune_excess_peers`: choosing which connected peers to drop. */
module Pruning {
  import opened Common
  import opened Orders
  import opened Scores
  import opened PeerInfos

  const MIN_SYNC_COMMITTEE_PEERS: nat := 2

  /** The peer database as read once at the start of a pruning round. */
  type Snapshot = map<PeerId, PeerInfo>

  type SubnetLists = map<SubnetId, seq<PeerId>>

  function ConnectedPeers(db: Snapshot): set<PeerId> {
    set p | p in db && db[p].IsConnected()
  }

  function OutboundOnly(db: Snapshot, s: set<PeerId>): set<PeerId> {
    set p | p in s && p in db && db[p].IsOutboundOnly()
  }

  function OnCommittee(db: Snapshot, c: SubnetId, s: set<PeerId>): set<PeerId> {
    set p | p in s && p in db && c in db[p].Committees()
  }

  /** How many peers may be pruned: `connected - target`, saturating. */
  function Excess(db: Snapshot, target: nat): nat { SatSub(|ConnectedPeers(db)|, target) }

  /** The peer is needed for a validator duty that is not past. */
  predicate DutyAhead(info: PeerInfo, now: Instant) { info.minTtl.Some? && now <= info.minTtl.value }

  predicate HasPenalty(info: PeerInfo) { info.score.Real? && info.score.value.score < 0.0 }

  // ---- Quotas ----

  /** The limits of one pruning round. */
  datatype Limits = Limits(target: nat, targetOutbound: nat)

  /** The selection respects the quotas and `outboundPruned` counts its outbound-only peers. */
  ghost predicate Accounted(db: Snapshot, lim: Limits, pruned: set<PeerId>, outboundPruned: nat) {
    && pruned <= ConnectedPeers(db)
    && |pruned| <= Excess(db, lim.target)
    && outboundPruned == |OutboundOnly(db, pruned)|
    && (outboundPruned == 0 || lim.targetOutbound + outboundPruned <= |OutboundOnly(db, ConnectedPeers(db))|)
  }

  lemma SplitOutbound(db: Snapshot, pruned: set<PeerId>)
    requires pruned <= ConnectedPeers(db)
    ensures |OutboundOnly(db, ConnectedPeers(db))|
         == |OutboundOnly(db, pruned)| + |OutboundOnly(db, ConnectedPeers(db) - pruned)|
  {
    assert OutboundOnly(db, ConnectedPeers(db))
        == OutboundOnly(db, pruned) + OutboundOnly(db, ConnectedPeers(db) - pruned);
  }

  lemma SelectOne(db: Snapshot, pruned: set<PeerId>, p: PeerId)
    requires p in db && p !in pruned
    ensures |OutboundOnly(db, pruned + {p})| == |OutboundOnly(db, pruned)| + if db[p].IsOutboundOnly() then 1 else 0
  {
    if db[p].IsOutboundOnly() {
      assert OutboundOnly(db, pruned + {p}) == OutboundOnly(db, pruned) + {p};
    } else {
      assert OutboundOnly(db, pruned + {p}) == OutboundOnly(db, pruned);
    }
  }

  // ---- Stages one and two ----

  /** The two filters of the `prune_peers!` macro. */
  datatype Pass = NegativeScore | NoSubnet

  predicate Candidate(db: Snapshot, now: Instant, pass: Pass, p: PeerId) {
    && p in db
    && !db[p].HasFutureDuty(now)
    && match pass
       case NegativeScore => IsNegative(db[p].score)
       case NoSubnet => !db[p].HasLongLivedSubnet()
  }

  /** No further outbound-only peer may go. */
  predicate OutboundExhausted(db: Snapshot, lim: Limits, outboundPruned: nat) {
    lim.targetOutbound + outboundPruned >= |OutboundOnly(db, ConnectedPeers(db))|
  }

  predicate ScoreBelow(db: Snapshot, p: PeerId, q: PeerId) {
    p in db && q in db && Below(db[p].score, db[q].score)
  }

  /** Prunes `p` unless it is outbound-only and the outbound target forbids it. */
  method ConsiderPeer(db: Snapshot, lim: Limits, p: PeerId, pruned0: set<PeerId>, outboundPruned0: nat)
    returns (pruned: set<PeerId>, outboundPruned: nat)
    requires Accounted(db, lim, pruned0, outboundPruned0)
    requires p in ConnectedPeers(db) - pruned0 && |pruned0| < Excess(db, lim.target)
    ensures Accounted(db, lim, pruned, outboundPruned)
    ensures outboundPruned0 <= outboundPruned
    ensures
      if db[p].IsOutboundOnly() && OutboundExhausted(db, lim, outboundPruned0)
      then pruned == pruned0 && outboundPruned == outboundPruned0
      else pruned == pruned0 + {p}
  {
    pruned, outboundPruned := pruned0, outboundPruned0;
    if db[p].IsOutboundOnly() {
      if lim.targetOutbound + outboundPruned < |OutboundOnly(db, ConnectedPeers(db))| {
        outboundPruned := outboundPruned + 1;
      } else {
        return;
      }
    }
    SelectOne(db, pruned, p);
    pruned := pruned + {p};
  }

  /** What a pass has established after scanning the first `i` peers of `order`. */
  ghost predicate Scanned(db: Snapshot, now: Instant, pass: Pass, lim: Limits, order: seq<PeerId>, i: nat,
                          pruned0: set<PeerId>, pruned: set<PeerId>, outboundPruned: nat)
    requires i <= |order|
  {
    && pruned0 <= pruned
    && (forall p :: p in pruned - pruned0 ==> p in order[..i] && Candidate(db, now, pass, p))
    && (forall j :: (0 <= j < i && Candidate(db, now, pass, order[j]) && order[j] !in pruned) ==>
          db[order[j]].IsOutboundOnly() && OutboundExhausted(db, lim, outboundPruned))
    && (forall j, k ::
          (0 <= j < k < i && order[k] in pruned - pruned0
           && order[j] !in pruned && Candidate(db, now, pass, order[j])) ==>
            !db[order[k]].IsOutboundOnly())
  }

  lemma ScanStep(db: Snapshot, now: Instant, pass: Pass, lim: Limits, order: seq<PeerId>, i: nat,
                 pruned0: set<PeerId>, pruned: set<PeerId>, outboundPruned: nat,
                 pruned': set<PeerId>, outboundPruned': nat)
    requires i < |order| && NoDup(order) && order[i] in db
    requires Scanned(db, now, pass, lim, order, i, pruned0, pruned, outboundPruned)
    requires outboundPruned <= outboundPruned'
    requires
      if !Candidate(db, now, pass, order[i]) || order[i] in pruned
         || (db[order[i]].IsOutboundOnly() && OutboundExhausted(db, lim, outboundPruned))
      then pruned' == pruned && outboundPruned' == outboundPruned
      else pruned' == pruned + {order[i]}
    ensures Scanned(db, now, pass, lim, order, i + 1, pruned0, pruned', outboundPruned')
  {
    assert order[..i + 1] == order[..i] + [order[i]];
    assert order[i] !in order[..i];
  }

  /** Whoever a pass passed over although there was room is outbound-only and held back by the outbound target. */
  ghost predicate LeftHeldBack(db: Snapshot, now: Instant, pass: Pass, lim: Limits, pruned: set<PeerId>,
                               outboundPruned: nat)
  {
    |pruned| < Excess(db, lim.target) ==>
      forall p :: p in ConnectedPeers(db) - pruned && Candidate(db, now, pass, p) ==>
        db[p].IsOutboundOnly() && OutboundExhausted(db, lim, outboundPruned)
  }

  /** A candidate with a strictly worse score than a selected peer is passed over only for being outbound-only. */
  ghost predicate WorstFirst(db: Snapshot, now: Instant, pass: Pass, taken: set<PeerId>, pruned: set<PeerId>) {
    forall p, q ::
      (p in taken && p in db && q in ConnectedPeers(db) - pruned
       && Candidate(db, now, pass, q) && WorseScore(db[q].score, db[p].score)) ==>
        db[q].IsOutboundOnly() && !db[p].IsOutboundOnly()
  }

  /** The score of a trusted peer is better than any number. */
  predicate WorseScore(a: Score, b: Score) { a.Real? && (b.Real? ==> a.value.score < b.value.score) }

  /**
   * Penalised peers go before any other: one that is spared while a peer without a penalty is
   * selected has a duty ahead, or is outbound-only where the other is not.
   */
  ghost predicate PenalisedFirst(db: Snapshot, now: Instant, early: set<PeerId>) {
    forall p, q ::
      (p in early && p in db && !HasPenalty(db[p])
       && q in ConnectedPeers(db) - early && HasPenalty(db[q]) && !DutyAhead(db[q], now)) ==>
        db[q].IsOutboundOnly() && !db[p].IsOutboundOnly()
  }

  /** One expansion of the `prune_peers!` macro: worst scores first. */
  method PrunePass(db: Snapshot, now: Instant, pass: Pass, lim: Limits, pruned0: set<PeerId>, outboundPruned0: nat)
    returns (pruned: set<PeerId>, outboundPruned: nat)
    requires Accounted(db, lim, pruned0, outboundPruned0)
    ensures pruned0 <= pruned && Accounted(db, lim, pruned, outboundPruned)
    ensures forall p :: p in pruned - pruned0 ==> Candidate(db, now, pass, p)
    ensures LeftHeldBack(db, now, pass, lim, pruned, outboundPruned)
    ensures WorstFirst(db, now, pass, pruned - pruned0, pruned)
  {
    var excess := Excess(db, lim.target);
    var order := ShuffleAndSort(ConnectedPeers(db), (a: PeerId, b: PeerId) => ScoreBelow(db, a, b));
    pruned, outboundPruned := pruned0, outboundPruned0;
    var i := 0;
    while i < |order|
      invariant i <= |order| && Accounted(db, lim, pruned, outboundPruned)
      invariant Scanned(db, now, pass, lim, order, i, pruned0, pruned, outboundPruned)
    {
      var p := order[i];
      assert p in order;
      var candidate := Candidate(db, now, pass, p);
      if candidate && |pruned| >= excess {
        break;
      }
      ghost var before, outboundBefore := pruned, outboundPruned;
      if candidate && p !in pruned {
        pruned, outboundPruned := ConsiderPeer(db, lim, p, pruned, outboundPruned);
      }
      ScanStep(db, now, pass, lim, order, i, pruned0, before, outboundBefore, pruned, outboundPruned);
      i := i + 1;
    }
    ScanDone(db, now, pass, lim, order, i, pruned0, pruned, outboundPruned);
  }

  lemma ScanDone(db: Snapshot, now: Instant, pass: Pass, lim: Limits, order: seq<PeerId>, i: nat,
                 pruned0: set<PeerId>, pruned: set<PeerId>, outboundPruned: nat)
    requires IsSortedListing(ConnectedPeers(db), (a: PeerId, b: PeerId) => ScoreBelow(db, a, b), order)
    requires i <= |order| && Scanned(db, now, pass, lim, order, i, pruned0, pruned, outboundPruned)
    ensures i == |order| ==>
              forall p :: p in ConnectedPeers(db) - pruned && Candidate(db, now, pass, p) ==>
                db[p].IsOutboundOnly() && OutboundExhausted(db, lim, outboundPruned)
    ensures WorstFirst(db, now, pass, pruned - pruned0, pruned)
  {
    forall p, q | p in pruned - pruned0 && p in db && q in ConnectedPeers(db) - pruned
                  && Candidate(db, now, pass, q) && WorseScore(db[q].score, db[p].score)
      ensures db[q].IsOutboundOnly() && !db[p].IsOutboundOnly()
    {
      var k :| 0 <= k < i && order[k] == p;
      assert q in order;
      var j :| 0 <= j < |order| && order[j] == q;
    }
    if i == |order| {
      forall p | p in ConnectedPeers(db) - pruned && Candidate(db, now, pass, p)
        ensures db[p].IsOutboundOnly() && OutboundExhausted(db, lim, outboundPruned)
      {
        assert p in order;
      }
    }
  }

  // ---- Stage three: the maps it works on ----

  /** `lists` groups exactly the peers of `s` by attestation subnet. */
  ghost predicate ListsAre(db: Snapshot, s: set<PeerId>, lists: SubnetLists) {
    && ListsWithin(db, s, lists)
    && (forall p, n :: p in s && p in db && db[p].OnLongLived(Attestation(n)) ==> n in lists && p in lists[n])
  }

  ghost predicate ListsWithin(db: Snapshot, s: set<PeerId>, lists: SubnetLists) {
    forall n :: n in lists ==>
      && NoDup(lists[n])
      && (forall p :: p in lists[n] ==> p in s && p in db && db[p].OnLongLived(Attestation(n)))
  }

  /** `syncCount` counts the peers of `s` on each sync committee. */
  ghost predicate CountsAre(db: Snapshot, s: set<PeerId>, syncCount: map<SubnetId, nat>) {
    forall c :: if c in syncCount then syncCount[c] == |OnCommittee(db, c, s)| else OnCommittee(db, c, s) == {}
  }

  ghost predicate CommitteesAre(db: Snapshot, s: set<PeerId>, committees: map<PeerId, set<SubnetId>>) {
    && (forall p :: p in committees ==> p in s && p in db && committees[p] == db[p].Committees())
    && (forall p :: p in s && p in db && p !in committees ==> db[p].Committees() == {})
  }

  // Each map after registering the peers of `done` and, of peer `p`, the given subnets.

  ghost predicate PartLists(db: Snapshot, done: set<PeerId>, p: PeerId, subnets: seq<Subnet>, lists: SubnetLists) {
    && (forall n :: n in lists ==> NoDup(lists[n]))
    && (forall n, q :: n in lists && q in lists[n] ==>
          (q in done && q in db && db[q].OnLongLived(Attestation(n))) || (q == p && Attestation(n) in subnets))
    && (forall n, q :: q in done && q in db && db[q].OnLongLived(Attestation(n)) ==> n in lists && q in lists[n])
    && (forall n :: Attestation(n) in subnets ==> n in lists && p in lists[n])
  }

  ghost predicate PartCounts(db: Snapshot, done: set<PeerId>, subnets: seq<Subnet>, syncCount: map<SubnetId, nat>) {
    forall c ::
      if c in syncCount
      then syncCount[c] == |OnCommittee(db, c, done)| + if SyncCommittee(c) in subnets then 1 else 0
      else OnCommittee(db, c, done) == {} && SyncCommittee(c) !in subnets
  }

  ghost predicate PartCommittees(db: Snapshot, done: set<PeerId>, p: PeerId, subnets: seq<Subnet>,
                                 committees: map<PeerId, set<SubnetId>>)
  {
    && (forall q :: q in committees && q != p ==> q in done && q in db && committees[q] == db[q].Committees())
    && (forall q :: q in done && q in db && q !in committees ==> db[q].Committees() == {})
    && (forall c :: SyncCommittee(c) in subnets <==> p in committees && c in committees[p])
  }

  function Lookup<K, V>(m: map<K, V>, k: K, default: V): V { if k in m then m[k] else default }

  lemma ListAttestation(db: Snapshot, done: set<PeerId>, p: PeerId, subnets: seq<Subnet>, n: SubnetId,
                        lists: SubnetLists)
    requires p !in done && Attestation(n) !in subnets && PartLists(db, done, p, subnets, lists)
    ensures PartLists(db, done, p, subnets + [Attestation(n)], lists[n := Lookup(lists, n, []) + [p]])
  {
  }

  lemma CountCommittee(db: Snapshot, done: set<PeerId>, subnets: seq<Subnet>, c: SubnetId,
                       syncCount: map<SubnetId, nat>)
    requires SyncCommittee(c) !in subnets && PartCounts(db, done, subnets, syncCount)
    ensures PartCounts(db, done, subnets + [SyncCommittee(c)], syncCount[c := Lookup(syncCount, c, 0) + 1])
  {
  }

  lemma RecordCommittee(db: Snapshot, done: set<PeerId>, p: PeerId, subnets: seq<Subnet>, c: SubnetId,
                        committees: map<PeerId, set<SubnetId>>)
    requires p !in done && PartCommittees(db, done, p, subnets, committees)
    ensures PartCommittees(db, done, p, subnets + [SyncCommittee(c)], committees[p := Lookup(committees, p, {}) + {c}])
  {
  }

  lemma CountsComplete(db: Snapshot, done: set<PeerId>, p: PeerId, subnets: seq<Subnet>, syncCount: map<SubnetId, nat>)
    requires p in db && p !in done && (forall s :: s in subnets <==> db[p].OnLongLived(s))
    requires PartCounts(db, done, subnets, syncCount)
    ensures CountsAre(db, done + {p}, syncCount)
  {
    hide OnCommittee;
    forall c
      ensures |OnCommittee(db, c, done + {p})|
           == |OnCommittee(db, c, done)| + if SyncCommittee(c) in subnets then 1 else 0
      ensures SyncCommittee(c) !in subnets ==> OnCommittee(db, c, done + {p}) == OnCommittee(db, c, done)
    {
      OneOnCommittee(db, done, p, c);
    }
  }

  lemma OneOnCommittee(db: Snapshot, done: set<PeerId>, p: PeerId, c: SubnetId)
    requires p in db && p !in done
    ensures |OnCommittee(db, c, done + {p})|
         == |OnCommittee(db, c, done)| + if db[p].OnLongLived(SyncCommittee(c)) then 1 else 0
    ensures !db[p].OnLongLived(SyncCommittee(c)) ==> OnCommittee(db, c, done + {p}) == OnCommittee(db, c, done)
  {
    assert db[p].OnLongLived(SyncCommittee(c)) <==> c in db[p].Committees();
    if c in db[p].Committees() {
      assert OnCommittee(db, c, done + {p}) == OnCommittee(db, c, done) + {p};
    } else {
      assert OnCommittee(db, c, done + {p}) == OnCommittee(db, c, done);
    }
  }

  lemma ListsComplete(db: Snapshot, done: set<PeerId>, p: PeerId, subnets: seq<Subnet>, lists: SubnetLists)
    requires p in db && p !in done && (forall s :: s in subnets <==> db[p].OnLongLived(s))
    requires PartLists(db, done, p, subnets, lists)
    ensures ListsAre(db, done + {p}, lists)
  {
  }

  lemma CommitteesComplete(db: Snapshot, done: set<PeerId>, p: PeerId, subnets: seq<Subnet>,
                           committees: map<PeerId, set<SubnetId>>)
    requires p in db && p !in done && (forall s :: s in subnets <==> db[p].OnLongLived(s))
    requires PartCommittees(db, done, p, subnets, committees)
    ensures CommitteesAre(db, done + {p}, committees)
  {
    assert forall c :: c in db[p].Committees() <==> db[p].OnLongLived(SyncCommittee(c));
  }

  ghost predicate MapsAre(db: Snapshot, s: set<PeerId>, lists: SubnetLists, syncCount: map<SubnetId, nat>,
                          committees: map<PeerId, set<SubnetId>>)
  {
    ListsAre(db, s, lists) && CountsAre(db, s, syncCount) && CommitteesAre(db, s, committees)
  }

  ghost predicate Part(db: Snapshot, done: set<PeerId>, p: PeerId, subnets: seq<Subnet>, lists: SubnetLists,
                       syncCount: map<SubnetId, nat>, committees: map<PeerId, set<SubnetId>>)
  {
    && PartLists(db, done, p, subnets, lists)
    && PartCounts(db, done, subnets, syncCount)
    && PartCommittees(db, done, p, subnets, committees)
  }

  lemma PartStart(db: Snapshot, done: set<PeerId>, p: PeerId, lists: SubnetLists,
                  syncCount: map<SubnetId, nat>, committees: map<PeerId, set<SubnetId>>)
    requires p !in done && MapsAre(db, done, lists, syncCount, committees)
    ensures Part(db, done, p, [], lists, syncCount, committees)
  {
  }

  lemma PartDone(db: Snapshot, done: set<PeerId>, p: PeerId, subnets: seq<Subnet>, lists: SubnetLists,
                 syncCount: map<SubnetId, nat>, committees: map<PeerId, set<SubnetId>>)
    requires p in db && p !in done && (forall s :: s in subnets <==> db[p].OnLongLived(s))
    requires Part(db, done, p, subnets, lists, syncCount, committees)
    ensures MapsAre(db, done + {p}, lists, syncCount, committees)
  {
    hide CountsAre, CommitteesAre, ListsAre, PartCounts, PartCommittees, PartLists;
    ListsComplete(db, done, p, subnets, lists);
    CountsComplete(db, done, p, subnets, syncCount);
    CommitteesComplete(db, done, p, subnets, committees);
  }

  lemma PartAttestation(db: Snapshot, done: set<PeerId>, p: PeerId, subnets: seq<Subnet>, n: SubnetId,
                        lists: SubnetLists, syncCount: map<SubnetId, nat>, committees: map<PeerId, set<SubnetId>>)
    requires p !in done && Attestation(n) !in subnets && Part(db, done, p, subnets, lists, syncCount, committees)
    ensures Part(db, done, p, subnets + [Attestation(n)], lists[n := Lookup(lists, n, []) + [p]], syncCount, committees)
  {
    ListAttestation(db, done, p, subnets, n, lists);
  }

  lemma PartCommittee(db: Snapshot, done: set<PeerId>, p: PeerId, subnets: seq<Subnet>, c: SubnetId,
                      lists: SubnetLists, syncCount: map<SubnetId, nat>, committees: map<PeerId, set<SubnetId>>)
    requires p !in done && SyncCommittee(c) !in subnets && Part(db, done, p, subnets, lists, syncCount, committees)
    ensures Part(db, done, p, subnets + [SyncCommittee(c)], lists,
                 syncCount[c := Lookup(syncCount, c, 0) + 1], committees[p := Lookup(committees, p, {}) + {c}])
  {
    CountCommittee(db, done, subnets, c, syncCount);
    RecordCommittee(db, done, p, subnets, c, committees);
  }

  /** Registers one peer on each of its long-lived subnets. */
  method RegisterPeer(db: Snapshot, ghost done: set<PeerId>, p: PeerId, lists0: SubnetLists,
                      syncCount0: map<SubnetId, nat>, committees0: map<PeerId, set<SubnetId>>)
    returns (lists: SubnetLists, syncCount: map<SubnetId, nat>, committees: map<PeerId, set<SubnetId>>)
    requires p in db && p !in done && MapsAre(db, done, lists0, syncCount0, committees0)
    ensures MapsAre(db, done + {p}, lists, syncCount, committees)
  {
    hide Part, MapsAre;
    lists, syncCount, committees := lists0, syncCount0, committees0;
    PartStart(db, done, p, lists, syncCount, committees);
    var subnets := LongLivedSubnets(db[p]);
    var k := 0;
    while k < |subnets|
      invariant k <= |subnets|
      invariant Part(db, done, p, subnets[..k], lists, syncCount, committees)
    {
      assert subnets[..k + 1] == subnets[..k] + [subnets[k]];
      match subnets[k] {
        case Attestation(n) =>
          PartAttestation(db, done, p, subnets[..k], n, lists, syncCount, committees);
          lists := lists[n := Lookup(lists, n, []) + [p]];
        case SyncCommittee(c) =>
          PartCommittee(db, done, p, subnets[..k], c, lists, syncCount, committees);
          syncCount := syncCount[c := Lookup(syncCount, c, 0) + 1];
          committees := committees[p := Lookup(committees, p, {}) + {c}];
      }
      k := k + 1;
    }
    assert subnets[..k] == subnets;
    PartDone(db, done, p, subnets, lists, syncCount, committees);
  }

  /** Groups the connected peers not yet pruned by subnet and counts sync committee members. */
  method BuildSubnetMaps(db: Snapshot, pruned: set<PeerId>)
    returns (lists: SubnetLists, syncCount: map<SubnetId, nat>, committees: map<PeerId, set<SubnetId>>)
    ensures MapsAre(db, ConnectedPeers(db) - pruned, lists, syncCount, committees)
  {
    lists, syncCount, committees := map[], map[], map[];
    var all := ConnectedPeers(db) - pruned;
    var rest := all;
    while rest != {}
      invariant rest <= all
      invariant MapsAre(db, all - rest, lists, syncCount, committees)
    {
      var p :| p in rest;
      lists, syncCount, committees := RegisterPeer(db, all - rest, p, lists, syncCount, committees);
      assert all - (rest - {p}) == (all - rest) + {p};
      rest := rest - {p};
    }
    assert all - rest == all;
  }

  // ---- Stage three: the greedy loop ----

  /** The variables of the stage-three loop. */
  datatype Stage = Stage(pruned: set<PeerId>, outboundPruned: nat, lists: SubnetLists, syncCount: map<SubnetId, nat>)

  /** Dropping `p` would breach the outbound target or shrink a small sync committee. */
  ghost predicate Protected(db: Snapshot, lim: Limits, pruned: set<PeerId>, p: PeerId)
    requires p in db
  {
    || (db[p].IsOutboundOnly() && |OutboundOnly(db, ConnectedPeers(db) - pruned)| <= lim.targetOutbound)
    || exists c :: c in db[p].Committees()
         && |OnCommittee(db, c, ConnectedPeers(db) - pruned)| <= MIN_SYNC_COMMITTEE_PEERS
  }

  lemma CardinalityMonotone<T>(a: set<T>, b: set<T>)
    requires a <= b
    ensures |a| <= |b|
  {
    assert b == a + (b - a);
  }

  /** Once protected, a peer stays protected: both remaining counts only fall. */
  lemma ProtectedMonotone(db: Snapshot, lim: Limits, pruned: set<PeerId>, pruned': set<PeerId>, p: PeerId)
    requires p in db && pruned <= pruned' && Protected(db, lim, pruned, p)
    ensures Protected(db, lim, pruned', p)
  {
    var left, left' := ConnectedPeers(db) - pruned, ConnectedPeers(db) - pruned';
    CardinalityMonotone(OutboundOnly(db, left'), OutboundOnly(db, left));
    forall c
      ensures |OnCommittee(db, c, left')| <= |OnCommittee(db, c, left)|
    {
      CardinalityMonotone(OnCommittee(db, c, left'), OnCommittee(db, c, left));
    }
  }

  /** Every peer on an attestation subnet is still listed there or is protected. */
  ghost predicate Covered(db: Snapshot, lim: Limits, pruned: set<PeerId>, lists: SubnetLists) {
    forall p, n :: p in ConnectedPeers(db) - pruned && db[p].OnLongLived(Attestation(n)) ==>
      n in lists && (p in lists[n] || Protected(db, lim, pruned, p))
  }

  /** No committee fell below the floor since the stage began with `early` selected. */
  ghost predicate FloorKept(db: Snapshot, early: set<PeerId>, pruned: set<PeerId>) {
    forall c :: |OnCommittee(db, c, ConnectedPeers(db) - pruned)|
             >= Min(MIN_SYNC_COMMITTEE_PEERS, |OnCommittee(db, c, ConnectedPeers(db) - early)|)
  }

  ghost predicate StageInv(db: Snapshot, lim: Limits, early: set<PeerId>, committees: map<PeerId, set<SubnetId>>,
                           st: Stage)
  {
    && early <= st.pruned
    && Accounted(db, lim, st.pruned, st.outboundPruned)
    && ListsWithin(db, ConnectedPeers(db) - st.pruned, st.lists)
    && Covered(db, lim, st.pruned, st.lists)
    && CountsAre(db, ConnectedPeers(db) - st.pruned, st.syncCount)
    && CommitteesAre(db, ConnectedPeers(db) - early, committees)
    && FloorKept(db, early, st.pruned)
  }

  /** The tests the candidate loop makes on one peer. */
  predicate IsEligible(db: Snapshot, lim: Limits, committees: map<PeerId, set<SubnetId>>, st: Stage, p: PeerId)
    requires p in db
  {
    && !(db[p].IsOutboundOnly()
         && lim.targetOutbound >= SatSub(|OutboundOnly(db, ConnectedPeers(db))|, st.outboundPruned))
    && !(p in committees
         && exists c :: c in committees[p] && c in st.syncCount && st.syncCount[c] <= MIN_SYNC_COMMITTEE_PEERS)
  }

  /** Those tests decide exactly whether the peer is protected. */
  lemma EligibleIffNotProtected(db: Snapshot, lim: Limits, early: set<PeerId>, committees: map<PeerId, set<SubnetId>>,
                                st: Stage, p: PeerId)
    requires StageInv(db, lim, early, committees, st) && p in ConnectedPeers(db) - st.pruned
    ensures IsEligible(db, lim, committees, st, p) <==> !Protected(db, lim, st.pruned, p)
  {
    hide Covered, ListsWithin, FloorKept;
    SplitOutbound(db, st.pruned);
    var left := ConnectedPeers(db) - st.pruned;
    forall c | c in db[p].Committees()
      ensures c in st.syncCount && st.syncCount[c] == |OnCommittee(db, c, left)|
    {
      assert p in OnCommittee(db, c, left);
    }
    if p !in committees {
      assert db[p].Committees() == {};
    }
  }

  /** The first eligible peer of an ordered list, if there is one. */
  method FindVictim(db: Snapshot, lim: Limits, committees: map<PeerId, set<SubnetId>>, st: Stage, list: seq<PeerId>)
    returns (index: Option<nat>)
    requires forall p :: p in list ==> p in db
    ensures index.Some? ==> index.value < |list| && IsEligible(db, lim, committees, st, list[index.value])
    ensures forall j :: 0 <= j < (if index.Some? then index.value else |list|) ==>
              !IsEligible(db, lim, committees, st, list[j])
  {
    for i := 0 to |list|
      invariant forall j :: 0 <= j < i ==> !IsEligible(db, lim, committees, st, list[j])
    {
      if IsEligible(db, lim, committees, st, list[i]) {
        return Some(i);
      }
    }
    return None;
  }

  /** `Vec::retain(|q| q != p)`. */
  function Without(s: seq<PeerId>, p: PeerId): (r: seq<PeerId>)
    ensures forall q :: q in r <==> q in s && q != p
    ensures NoDup(s) ==> NoDup(r)
  {
    if s == [] then []
    else
      var front := s[..|s| - 1];
      assert NoDup(s) ==> NoDup(front) && s[|s| - 1] !in front;
      var r := Without(front, p);
      if s[|s| - 1] == p then r else r + [s[|s| - 1]]
  }

  /** Removes a pruned peer from every committee count it is part of. */
  method DropFromCommittees(db: Snapshot, p: PeerId, left: set<PeerId>, mine: set<SubnetId>,
                            syncCount0: map<SubnetId, nat>)
    returns (syncCount: map<SubnetId, nat>)
    requires p in db && p in left && mine == db[p].Committees() && CountsAre(db, left, syncCount0)
    ensures CountsAre(db, left - {p}, syncCount)
  {
    syncCount := syncCount0;
    var rest := mine;
    while rest != {}
      invariant rest <= mine && syncCount.Keys == syncCount0.Keys
      invariant forall c :: c in syncCount ==>
                  syncCount[c] == if c in mine - rest then SatSub(syncCount0[c], 1) else syncCount0[c]
    {
      var c :| c in rest;
      if c in syncCount {
        syncCount := syncCount[c := SatSub(syncCount[c], 1)];
      }
      rest := rest - {c};
    }
    forall c
      ensures if c in syncCount then syncCount[c] == |OnCommittee(db, c, left - {p})|
              else OnCommittee(db, c, left - {p}) == {}
    {
      if c in mine {
        assert p in OnCommittee(db, c, left);
        assert OnCommittee(db, c, left - {p}) == OnCommittee(db, c, left) - {p};
      } else {
        assert OnCommittee(db, c, left - {p}) == OnCommittee(db, c, left);
      }
    }
  }

  /** The (subnet, peer) entries left in the lists; the loop strictly removes some each time round. */
  ghost function Entries(lists: SubnetLists): set<(SubnetId, PeerId)> {
    set n, p | n in lists && p in lists[n] :: (n, p)
  }

  function Purged(lists: SubnetLists, v: PeerId): SubnetLists {
    map n | n in lists :: Without(lists[n], v)
  }

  /** Selecting an unprotected peer keeps the committee floor. */
  lemma FloorAfterSelecting(db: Snapshot, lim: Limits, early: set<PeerId>, pruned: set<PeerId>, v: PeerId)
    requires early <= pruned && FloorKept(db, early, pruned)
    requires v in ConnectedPeers(db) - pruned && !Protected(db, lim, pruned, v)
    ensures FloorKept(db, early, pruned + {v})
  {
    forall c
      ensures |OnCommittee(db, c, ConnectedPeers(db) - (pruned + {v}))|
           >= Min(MIN_SYNC_COMMITTEE_PEERS, |OnCommittee(db, c, ConnectedPeers(db) - early)|)
    {
      var left := ConnectedPeers(db) - pruned;
      if c in db[v].Committees() {
        assert OnCommittee(db, c, ConnectedPeers(db) - (pruned + {v})) == OnCommittee(db, c, left) - {v};
      } else {
        assert OnCommittee(db, c, ConnectedPeers(db) - (pruned + {v})) == OnCommittee(db, c, left);
      }
    }
  }

  lemma CoveredAfterSelecting(db: Snapshot, lim: Limits, pruned: set<PeerId>, lists: SubnetLists, v: PeerId)
    requires Covered(db, lim, pruned, lists)
    ensures Covered(db, lim, pruned + {v}, Purged(lists, v))
  {
    forall p, n | p in ConnectedPeers(db) - (pruned + {v}) && db[p].OnLongLived(Attestation(n))
      ensures n in lists && (p in Purged(lists, v)[n] || Protected(db, lim, pruned + {v}, p))
    {
      if p !in lists[n] {
        ProtectedMonotone(db, lim, pruned, pruned + {v}, p);
      }
    }
  }

  lemma ListsAfterSelecting(db: Snapshot, left: set<PeerId>, lists: SubnetLists, v: PeerId)
    requires ListsWithin(db, left, lists)
    ensures ListsWithin(db, left - {v}, Purged(lists, v))
  {
  }

  lemma VictimCommittees(db: Snapshot, s: set<PeerId>, committees: map<PeerId, set<SubnetId>>, v: PeerId)
    requires CommitteesAre(db, s, committees) && v in s && v in db
    ensures if v in committees then committees[v] == db[v].Committees() else db[v].Committees() == {}
  {
  }

  lemma AccountedAfterSelecting(db: Snapshot, lim: Limits, pruned: set<PeerId>, outboundPruned: nat, v: PeerId)
    requires Accounted(db, lim, pruned, outboundPruned) && |pruned| < Excess(db, lim.target)
    requires v in ConnectedPeers(db) - pruned && !Protected(db, lim, pruned, v)
    ensures Accounted(db, lim, pruned + {v}, outboundPruned + if db[v].IsOutboundOnly() then 1 else 0)
  {
    SelectOne(db, pruned, v);
    SplitOutbound(db, pruned);
  }

  /** What one round of the stage-three loop does to the lists. */
  ghost predicate RoundDone(db: Snapshot, lim: Limits, st: Stage, st': Stage) {
    exists n :: n in st.lists && RoundOn(db, lim, st, st', n)
  }

  /**
   * Round on subnet `n`, one of the fullest: either the unprotected peer with the fewest long-lived
   * subnets goes, or everybody on the subnet is protected and its list is cleared.
   */
  ghost predicate RoundOn(db: Snapshot, lim: Limits, st: Stage, st': Stage, n: SubnetId)
    requires n in st.lists
  {
    && st.lists[n] != [] && (forall m :: m in st.lists ==> |st.lists[m]| <= |st.lists[n]|)
    && (forall p :: p in st.lists[n] ==> p in db)
    && ((exists v :: v in st.lists[n] && IsVictim(db, lim, st, n, v)
           && st'.pruned == st.pruned + {v} && st'.lists == Purged(st.lists, v))
        || ((forall p :: p in st.lists[n] ==> Protected(db, lim, st.pruned, p))
            && st'.pruned == st.pruned && st'.lists == st.lists[n := []]))
  }

  /**
   * The rounds of stage three: they start with the peers that are not selected yet, listed by
   * attestation subnet, go on only while the quota is not met, and end when it is or nobody is listed.
   */
  ghost predicate Thinned(db: Snapshot, lim: Limits, early: set<PeerId>, rounds: seq<Stage>, pruned: set<PeerId>) {
    && rounds != [] && rounds[0].pruned == early && ListsAre(db, ConnectedPeers(db) - early, rounds[0].lists)
    && (forall i :: 0 <= i < |rounds| - 1 ==>
          |rounds[i].pruned| < Excess(db, lim.target) && RoundDone(db, lim, rounds[i], rounds[i + 1]))
    && rounds[|rounds| - 1].pruned == pruned
    && (|pruned| >= Excess(db, lim.target) || NobodyOn(rounds[|rounds| - 1].lists))
  }

  ghost predicate NobodyOn(lists: SubnetLists) {
    forall n :: n in lists ==> lists[n] == []
  }

  /** The peer advertises a long-lived attestation subnet. */
  ghost predicate OnAttestation(info: PeerInfo) {
    exists n :: info.OnLongLived(Attestation(n))
  }

  ghost predicate AllOnAttestation(db: Snapshot, s: set<PeerId>) {
    forall p :: p in s ==> p in db && OnAttestation(db[p])
  }

  ghost predicate IsVictim(db: Snapshot, lim: Limits, st: Stage, n: SubnetId, v: PeerId)
    requires n in st.lists && v in st.lists[n] && forall p :: p in st.lists[n] ==> p in db
  {
    && !Protected(db, lim, st.pruned, v)
    && (forall p :: p in st.lists[n] && !Protected(db, lim, st.pruned, p) ==>
          db[v].LongLivedSubnetCount() <= db[p].LongLivedSubnetCount())
  }

  predicate FewerSubnets(db: Snapshot, p: PeerId, q: PeerId) {
    p in db && q in db && db[p].LongLivedSubnetCount() < db[q].LongLivedSubnetCount()
  }

  /** Orders one subnet's peers by long-lived subnet count and picks the first one that may go. */
  method ChooseOnSubnet(db: Snapshot, lim: Limits, ghost early: set<PeerId>, committees: map<PeerId, set<SubnetId>>,
                        st: Stage, n: SubnetId)
    returns (victim: Option<PeerId>)
    requires StageInv(db, lim, early, committees, st) && n in st.lists
    ensures forall p :: p in st.lists[n] ==> p in db
    ensures victim.Some? ==> victim.value in st.lists[n] && IsVictim(db, lim, st, n, victim.value)
    ensures victim.None? ==> forall p :: p in st.lists[n] ==> Protected(db, lim, st.pruned, p)
  {
    hide Covered, FloorKept, CountsAre, CommitteesAre, Accounted, Protected, IsEligible;
    var order := ShuffleAndSort(set p | p in st.lists[n], (a: PeerId, b: PeerId) => FewerSubnets(db, a, b));
    forall p | p in order
      ensures p in db && (IsEligible(db, lim, committees, st, p) <==> !Protected(db, lim, st.pruned, p))
    {
      EligibleIffNotProtected(db, lim, early, committees, st, p);
    }
    var index := FindVictim(db, lim, committees, st, order);
    var bound := if index.Some? then index.value else |order|;
    forall p | p in st.lists[n] && !Protected(db, lim, st.pruned, p)
      ensures exists j :: bound <= j < |order| && order[j] == p
    {
      assert p in order;
      var j :| 0 <= j < |order| && order[j] == p;
      assert IsEligible(db, lim, committees, st, order[j]);
    }
    victim := None;
    if index.Some? {
      var v := order[index.value];
      assert v in order;
      victim := Some(v);
      forall p | p in st.lists[n] && !Protected(db, lim, st.pruned, p)
        ensures db[v].LongLivedSubnetCount() <= db[p].LongLivedSubnetCount()
      {
        var j :| bound <= j < |order| && order[j] == p;
        assert j == index.value || !FewerSubnets(db, order[j], v);
      }
    }
  }

  lemma {:induction false} FullestExists(lists: SubnetLists, among: set<SubnetId>) returns (n: SubnetId)
    requires among != {} && among <= lists.Keys
    ensures n in among && forall m :: m in among ==> |lists[m]| <= |lists[n]|
    decreases among
  {
    var y :| y in among;
    n := y;
    if among != {y} {
      assert among - {y} < among;
      var r := FullestExists(lists, among - {y});
      if |lists[r]| > |lists[y]| {
        n := r;
      }
    }
  }

  lemma CountsWithoutCommittees(db: Snapshot, p: PeerId, left: set<PeerId>, syncCount: map<SubnetId, nat>)
    requires p in db && db[p].Committees() == {} && CountsAre(db, left, syncCount)
    ensures CountsAre(db, left - {p}, syncCount)
  {
    forall c
      ensures OnCommittee(db, c, left - {p}) == OnCommittee(db, c, left)
    {
    }
  }

  /** Prunes `v` and removes it from all the maps. */
  method SelectVictim(db: Snapshot, lim: Limits, ghost early: set<PeerId>, committees: map<PeerId, set<SubnetId>>,
                      st: Stage, v: PeerId)
    returns (st': Stage)
    requires StageInv(db, lim, early, committees, st) && |st.pruned| < Excess(db, lim.target)
    requires v in ConnectedPeers(db) - st.pruned && !Protected(db, lim, st.pruned, v)
    ensures StageInv(db, lim, early, committees, st')
    ensures st'.pruned == st.pruned + {v} && st'.lists == Purged(st.lists, v)
  {
    hide Protected, FloorKept, Covered, CountsAre, Accounted, CommitteesAre, ListsWithin;
    var left := ConnectedPeers(db) - st.pruned;
    assert ConnectedPeers(db) - (st.pruned + {v}) == left - {v};
    ListsAfterSelecting(db, left, st.lists, v);
    VictimCommittees(db, ConnectedPeers(db) - early, committees, v);
    FloorAfterSelecting(db, lim, early, st.pruned, v);
    CoveredAfterSelecting(db, lim, st.pruned, st.lists, v);
    AccountedAfterSelecting(db, lim, st.pruned, st.outboundPruned, v);
    var outboundPruned := st.outboundPruned;
    if db[v].IsOutboundOnly() {
      outboundPruned := outboundPruned + 1;
    }
    var syncCount := st.syncCount;
    if v in committees {
      syncCount := DropFromCommittees(db, v, left, committees[v], syncCount);
    } else {
      CountsWithoutCommittees(db, v, left, syncCount);
    }
    st' := Stage(st.pruned + {v}, outboundPruned, Purged(st.lists, v), syncCount);
  }

  /** Everybody on subnet `n` is protected: take the subnet out of consideration. */
  lemma ClearingKeepsInv(db: Snapshot, lim: Limits, early: set<PeerId>, committees: map<PeerId, set<SubnetId>>,
                         st: Stage, n: SubnetId)
    requires StageInv(db, lim, early, committees, st) && n in st.lists
    requires forall p :: p in st.lists[n] ==> p in db && Protected(db, lim, st.pruned, p)
    ensures StageInv(db, lim, early, committees, st.(lists := st.lists[n := []]))
  {
    hide FloorKept, CountsAre, CommitteesAre, Accounted, Protected;
  }

  /** One round of the stage-three loop on a fullest, non-empty subnet. */
  method PruneRound(db: Snapshot, lim: Limits, ghost early: set<PeerId>, committees: map<PeerId, set<SubnetId>>,
                    st: Stage, n: SubnetId)
    returns (st': Stage)
    requires StageInv(db, lim, early, committees, st) && |st.pruned| < Excess(db, lim.target)
    requires n in st.lists && st.lists[n] != []
    requires forall m :: m in st.lists ==> |st.lists[m]| <= |st.lists[n]|
    ensures StageInv(db, lim, early, committees, st') && RoundDone(db, lim, st, st')
    ensures Entries(st'.lists) < Entries(st.lists) && AllOnAttestation(db, st'.pruned - st.pruned)
  {
    hide Protected, FloorKept, Covered, CountsAre, CommitteesAre, Accounted, IsVictim, Entries, Purged, ListsWithin,
      AllOnAttestation;
    var victim := ChooseOnSubnet(db, lim, early, committees, st, n);
    if victim.Some? {
      var v := victim.value;
      VictimUnprotected(db, lim, st, n, v);
      VictimListed(db, ConnectedPeers(db) - st.pruned, st.lists, n, v);
      st' := SelectVictim(db, lim, early, committees, st, v);
      OnlyVictim(db, st.pruned, v);
    } else {
      ClearingKeepsInv(db, lim, early, committees, st, n);
      ClearingShrinks(st.lists, n);
      st' := st.(lists := st.lists[n := []]);
      NothingThinned(db, st.pruned);
    }
    assert RoundOn(db, lim, st, st', n);
  }

  /** The victim is connected, unselected and on the subnet, and taking it out of the lists shrinks them. */
  lemma VictimListed(db: Snapshot, left: set<PeerId>, lists: SubnetLists, n: SubnetId, v: PeerId)
    requires ListsWithin(db, left, lists) && n in lists && v in lists[n]
    ensures v in left && v in db && OnAttestation(db[v]) && Entries(Purged(lists, v)) < Entries(lists)
  {
    assert db[v].OnLongLived(Attestation(n));
    assert (n, v) in Entries(lists) && (n, v) !in Entries(Purged(lists, v));
  }

  lemma ClearingShrinks(lists: SubnetLists, n: SubnetId)
    requires n in lists && lists[n] != []
    ensures Entries(lists[n := []]) < Entries(lists)
  {
    assert (n, lists[n][0]) in Entries(lists) && (n, lists[n][0]) !in Entries(lists[n := []]);
  }

  lemma OnlyVictim(db: Snapshot, pruned: set<PeerId>, v: PeerId)
    requires v in db && OnAttestation(db[v])
    ensures AllOnAttestation(db, pruned + {v} - pruned)
  {
  }

  lemma VictimUnprotected(db: Snapshot, lim: Limits, st: Stage, n: SubnetId, v: PeerId)
    requires n in st.lists && v in st.lists[n] && forall p :: p in st.lists[n] ==> p in db
    requires IsVictim(db, lim, st, n, v)
    ensures !Protected(db, lim, st.pruned, v)
  {
  }

  /** When no list holds anybody, coverage makes every remaining subnet peer protected. */
  lemma NobodyListed(db: Snapshot, lim: Limits, pruned: set<PeerId>, lists: SubnetLists)
    requires Covered(db, lim, pruned, lists) && forall n :: n in lists ==> lists[n] == []
    ensures forall p, n :: p in ConnectedPeers(db) - pruned && db[p].OnLongLived(Attestation(n)) ==>
              Protected(db, lim, pruned, p)
  {
    hide Protected;
  }

  /** Stage three: thin out the fullest subnets until the quota is met or everybody left is protected. */
  method PruneSubnets(db: Snapshot, lim: Limits, early: set<PeerId>, outboundPruned0: nat)
    returns (pruned: set<PeerId>, outboundPruned: nat, ghost rounds: seq<Stage>)
    requires Accounted(db, lim, early, outboundPruned0)
    ensures early <= pruned && Accounted(db, lim, pruned, outboundPruned) && FloorKept(db, early, pruned)
    ensures Thinned(db, lim, early, rounds, pruned) && AllOnAttestation(db, pruned - early)
    ensures |pruned| < Excess(db, lim.target) ==>
              forall p, n :: p in ConnectedPeers(db) - pruned && db[p].OnLongLived(Attestation(n)) ==>
                Protected(db, lim, pruned, p)
  {
    hide Protected, CountsAre, CommitteesAre, Accounted, ListsAre, RoundDone, Covered, FloorKept, ListsWithin;
    var lists, syncCount, committees := BuildSubnetMaps(db, early);
    var st := Stage(early, outboundPruned0, lists, syncCount);
    StageStarts(db, lim, early, lists);
    rounds := [st];
    while |st.pruned| < Excess(db, lim.target)
      invariant StageInv(db, lim, early, committees, st)
      invariant rounds != [] && rounds[0] == Stage(early, outboundPruned0, lists, syncCount)
      invariant rounds[|rounds| - 1] == st
      invariant forall i :: 0 <= i < |rounds| - 1 ==>
                  |rounds[i].pruned| < Excess(db, lim.target) && RoundDone(db, lim, rounds[i], rounds[i + 1])
      invariant AllOnAttestation(db, st.pruned - early)
      decreases Entries(st.lists)
    {
      if st.lists == map[] {
        break;
      }
      ghost var fullest := FullestExists(st.lists, st.lists.Keys);
      var n :| n in st.lists && forall m :: m in st.lists ==> |st.lists[m]| <= |st.lists[n]|;
      if st.lists[n] == [] {
        break;
      }
      st := PruneRound(db, lim, early, committees, st, n);
      rounds := rounds + [st];
    }
    pruned, outboundPruned := st.pruned, st.outboundPruned;
    if |pruned| < Excess(db, lim.target) {
      NobodyListed(db, lim, pruned, st.lists);
    }
  }

  lemma StageStarts(db: Snapshot, lim: Limits, early: set<PeerId>, lists: SubnetLists)
    requires ListsAre(db, ConnectedPeers(db) - early, lists)
    ensures FloorKept(db, early, early) && ListsWithin(db, ConnectedPeers(db) - early, lists)
    ensures Covered(db, lim, early, lists)
  {
    hide Protected;
  }

  /** The outbound-only peers that stay: the target, or all of them if there were fewer. */
  lemma OutboundFloor(db: Snapshot, lim: Limits, pruned: set<PeerId>, outboundPruned: nat)
    requires Accounted(db, lim, pruned, outboundPruned)
    ensures |OutboundOnly(db, ConnectedPeers(db) - pruned)|
         >= Min(lim.targetOutbound, |OutboundOnly(db, ConnectedPeers(db))|)
  {
    SplitOutbound(db, pruned);
  }

  /** A pass with room to spare held its candidates back for the outbound target, and still does. */
  lemma StillHeldBack(db: Snapshot, now: Instant, pass: Pass, lim: Limits,
                      before: set<PeerId>, outboundThen: nat, pruned: set<PeerId>, outboundPruned: nat)
    requires Accounted(db, lim, before, outboundThen) && Accounted(db, lim, pruned, outboundPruned)
    requires before <= pruned && |pruned| < Excess(db, lim.target)
    requires LeftHeldBack(db, now, pass, lim, before, outboundThen)
    ensures forall p :: p in ConnectedPeers(db) - pruned && Candidate(db, now, pass, p) ==>
              db[p].IsOutboundOnly() && |OutboundOnly(db, ConnectedPeers(db) - pruned)| <= lim.targetOutbound
  {
    hide Candidate;
    CardinalityMonotone(before, pruned);
    CardinalityMonotone(OutboundOnly(db, before), OutboundOnly(db, pruned));
    SplitOutbound(db, pruned);
  }

  /** The peers stages one and two look at: connected, without a duty, and penalised or on no subnet. */
  function Candidates(db: Snapshot, now: Instant): set<PeerId> {
    set p | p in ConnectedPeers(db) && (Candidate(db, now, NegativeScore, p) || Candidate(db, now, NoSubnet, p))
  }

  /** How many of them may go: outbound-only peers only down to the outbound target. */
  function Available(db: Snapshot, now: Instant, lim: Limits): nat {
    var all := Candidates(db, now);
    |all - OutboundOnly(db, all)|
    + Min(|OutboundOnly(db, all)|, SatSub(|OutboundOnly(db, ConnectedPeers(db))|, lim.targetOutbound))
  }

  /** Whoever is left of the candidates is held back by the outbound target. */
  ghost predicate AllHeldBack(db: Snapshot, now: Instant, lim: Limits, early: set<PeerId>) {
    forall p :: p in Candidates(db, now) - early ==>
      p in OutboundOnly(db, Candidates(db, now)) && |OutboundOnly(db, ConnectedPeers(db) - early)| <= lim.targetOutbound
  }

  /** Stages one and two take exactly as many candidates as the quota and the outbound target allow. */
  lemma EarlyCount(db: Snapshot, now: Instant, lim: Limits, early: set<PeerId>, outboundEarly: nat)
    requires Accounted(db, lim, early, outboundEarly) && early <= Candidates(db, now)
    requires |early| < Excess(db, lim.target) ==> AllHeldBack(db, now, lim, early)
    ensures |early| == Min(Excess(db, lim.target), Available(db, now, lim))
  {
    hide Candidates, ConnectedPeers, AllHeldBack, OutboundOnly;
    var all := Candidates(db, now);
    SplitBy(db, all, early);
    SplitOutbound(db, early);
    if |early| < Excess(db, lim.target) {
      AllTaken(db, now, lim, early);
    }
  }

  /** A selection splits into its outbound-only peers and the others, and so does what it was made from. */
  lemma SplitBy(db: Snapshot, all: set<PeerId>, early: set<PeerId>)
    requires early <= all
    ensures |early| == |OutboundOnly(db, early)| + |early - OutboundOnly(db, early)|
    ensures |OutboundOnly(db, early)| <= |OutboundOnly(db, all)|
    ensures |early - OutboundOnly(db, early)| <= |all - OutboundOnly(db, all)|
  {
    var out, inb := OutboundOnly(db, early), early - OutboundOnly(db, early);
    assert early == out + inb;
    CardinalityMonotone(out, OutboundOnly(db, all));
    CardinalityMonotone(inb, all - OutboundOnly(db, all));
  }

  lemma AllTaken(db: Snapshot, now: Instant, lim: Limits, early: set<PeerId>)
    requires early <= Candidates(db, now) && AllHeldBack(db, now, lim, early)
    ensures
      var all := Candidates(db, now);
      && early - OutboundOnly(db, early) == all - OutboundOnly(db, all)
      && (OutboundOnly(db, early) == OutboundOnly(db, all)
          || |OutboundOnly(db, ConnectedPeers(db) - early)| <= lim.targetOutbound)
  {
    hide Candidates, ConnectedPeers;
  }

  /** At most the excess goes, connected peers only, and the outbound target stays. */
  ghost predicate WithinQuotas(db: Snapshot, lim: Limits, pruned: set<PeerId>) {
    && pruned <= ConnectedPeers(db) && |pruned| <= Excess(db, lim.target)
    && (pruned == {} || lim.target + |pruned| <= |ConnectedPeers(db)|)
    && |OutboundOnly(db, ConnectedPeers(db) - pruned)|
       >= Min(lim.targetOutbound, |OutboundOnly(db, ConnectedPeers(db))|)
  }

  /**
   * Stage one takes penalised peers, stage two subnet-less ones, the penalised before the others and
   * each worst first; neither takes a peer with a validator duty ahead, and together they take as many
   * as they can.
   */
  ghost predicate EarlyStages(db: Snapshot, now: Instant, lim: Limits, worst: set<PeerId>, early: set<PeerId>) {
    && worst <= early
    && (forall p :: p in worst ==> Candidate(db, now, NegativeScore, p) && HasPenalty(db[p]))
    && (forall p :: p in early - worst ==> Candidate(db, now, NoSubnet, p))
    && (forall p :: p in early ==> p in db && !DutyAhead(db[p], now))
    && PenalisedFirst(db, now, early)
    && WorstFirst(db, now, NegativeScore, worst, worst) && WorstFirst(db, now, NoSubnet, early - worst, early)
    && |early| == Min(Excess(db, lim.target), Available(db, now, lim))
  }

  /**
   * More peers left than the target means everybody left on a subnet is protected, and every penalised or
   * subnet-less peer without a duty is held back by the outbound target alone.
   */
  ghost predicate Maximal(db: Snapshot, now: Instant, lim: Limits, pruned: set<PeerId>) {
    lim.target + |pruned| < |ConnectedPeers(db)| ==>
      && (forall p, n :: p in ConnectedPeers(db) - pruned && db[p].OnLongLived(Attestation(n)) ==>
            Protected(db, lim, pruned, p))
      && (forall p, pass :: p in ConnectedPeers(db) - pruned && Candidate(db, now, pass, p) ==>
            db[p].IsOutboundOnly() && |OutboundOnly(db, ConnectedPeers(db) - pruned)| <= lim.targetOutbound)
  }

  /** Stages one and two can fill the quota, or nobody with a duty is where stage three looks. */
  ghost predicate DutiesSafe(db: Snapshot, now: Instant, lim: Limits) {
    || Available(db, now, lim) >= Excess(db, lim.target)
    || forall p :: p in ConnectedPeers(db) && DutyAhead(db[p], now) ==> !OnAttestation(db[p])
  }

  /** What a pruning round selects, with the selections of its stages. */
  ghost predicate Selected(db: Snapshot, now: Instant, lim: Limits, pruned: set<PeerId>, worst: set<PeerId>,
                           early: set<PeerId>)
  {
    && early <= pruned && WithinQuotas(db, lim, pruned)
    && EarlyStages(db, now, lim, worst, early)
    && AllOnAttestation(db, pruned - early)
    && FloorKept(db, early, pruned)
    && (DutiesSafe(db, now, lim) ==> forall p :: p in pruned ==> !DutyAhead(db[p], now))
    && Maximal(db, now, lim, pruned)
  }

  /**
   * The peers one pruning round drops; `worst` are those picked by stage one, `early` those picked
   * by stages one and two, and `rounds` the turns of stage three.
   */
  method PruneExcessPeers(db: Snapshot, now: Instant, lim: Limits)
    returns (pruned: set<PeerId>, worst: set<PeerId>, early: set<PeerId>, ghost rounds: seq<Stage>)
    ensures Selected(db, now, lim, pruned, worst, early)
    ensures if |early| < Excess(db, lim.target) then Thinned(db, lim, early, rounds, pruned) else pruned == early
  {
    hide Protected, Available, Thinned, AllOnAttestation, FloorKept, DutiesSafe, Maximal, WorstFirst, LeftHeldBack,
      OutboundOnly, Candidate;
    pruned, worst, early, rounds := {}, {}, {}, [];
    if |ConnectedPeers(db)| <= lim.target {
      NothingThinned(db, pruned);
      NothingToPrune(db, now, lim);
      return;
    }
    ghost var outboundWorst;
    var outboundEarly;
    worst, outboundWorst, early, outboundEarly := PruneEarly(db, now, lim);
    pruned := early;
    var outboundPruned := outboundEarly;
    NothingThinned(db, pruned);
    if |pruned| < Excess(db, lim.target) {
      pruned, outboundPruned, rounds := PruneSubnets(db, lim, pruned, outboundPruned);
    }
    OutboundFloor(db, lim, pruned, outboundPruned);
    EarlyHaveNoDuty(db, now, lim, worst, early);
    if DutiesSafe(db, now, lim) {
      DutiesKept(db, now, lim, early, pruned);
    }
    MaximalAtLast(db, now, lim, worst, outboundWorst, early, outboundEarly, pruned, outboundPruned);
  }

  /** Both passes with room to spare and a stage three that fell short leave nobody else to prune. */
  lemma MaximalAtLast(db: Snapshot, now: Instant, lim: Limits, worst: set<PeerId>, outboundWorst: nat,
                      early: set<PeerId>, outboundEarly: nat, pruned: set<PeerId>, outboundPruned: nat)
    requires Accounted(db, lim, worst, outboundWorst) && Accounted(db, lim, early, outboundEarly)
    requires Accounted(db, lim, pruned, outboundPruned) && worst <= early <= pruned
    requires LeftHeldBack(db, now, NegativeScore, lim, worst, outboundWorst)
    requires LeftHeldBack(db, now, NoSubnet, lim, early, outboundEarly)
    requires |pruned| < Excess(db, lim.target) ==>
               forall p, n :: p in ConnectedPeers(db) - pruned && db[p].OnLongLived(Attestation(n)) ==>
                 Protected(db, lim, pruned, p)
    ensures Maximal(db, now, lim, pruned)
  {
    hide Protected, Candidate, OutboundExhausted, Accounted;
    if |pruned| < Excess(db, lim.target) {
      CardinalityMonotone(worst, pruned);
      CardinalityMonotone(early, pruned);
      forall p, pass | p in ConnectedPeers(db) - pruned && Candidate(db, now, pass, p)
        ensures db[p].IsOutboundOnly() && |OutboundOnly(db, ConnectedPeers(db) - pruned)| <= lim.targetOutbound
      {
        match pass
        case NegativeScore => StillHeldBack(db, now, pass, lim, worst, outboundWorst, pruned, outboundPruned);
        case NoSubnet => StillHeldBack(db, now, pass, lim, early, outboundEarly, pruned, outboundPruned);
      }
    }
  }

  /** Stages one and two. */
  method PruneEarly(db: Snapshot, now: Instant, lim: Limits)
    returns (worst: set<PeerId>, ghost outboundWorst: nat, early: set<PeerId>, outboundEarly: nat)
    ensures EarlyStages(db, now, lim, worst, early)
    ensures Accounted(db, lim, worst, outboundWorst) && Accounted(db, lim, early, outboundEarly)
    ensures LeftHeldBack(db, now, NegativeScore, lim, worst, outboundWorst)
    ensures LeftHeldBack(db, now, NoSubnet, lim, early, outboundEarly)
  {
    hide Candidate, Candidates, Available, AllHeldBack, WorstFirst, PenalisedFirst;
    NoneSelected(db, now, lim);
    worst, outboundEarly := PrunePass(db, now, NegativeScore, lim, {}, 0);
    assert worst - {} == worst;
    early, outboundWorst := worst, outboundEarly;
    if |early| < Excess(db, lim.target) {
      early, outboundEarly := PrunePass(db, now, NoSubnet, lim, worst, outboundEarly);
    } else {
      NoneSelected(db, now, lim);
      assert early - worst == {};
    }
    EarlyHeldBack(db, now, lim, worst, outboundWorst, early, outboundEarly);
    EarlyCount(db, now, lim, early, outboundEarly);
    NoDutyEarly(db, now, early);
    WorstHavePenalties(db, now, worst);
    PenalisedWereFirst(db, now, lim, worst, outboundWorst, early, outboundEarly);
  }

  lemma WorstHavePenalties(db: Snapshot, now: Instant, worst: set<PeerId>)
    requires forall p :: p in worst ==> Candidate(db, now, NegativeScore, p)
    ensures forall p :: p in worst ==> p in db && HasPenalty(db[p])
  {
  }

  /** Stage two starts only when stage one has nobody left but outbound-only peers that must stay. */
  lemma PenalisedWereFirst(db: Snapshot, now: Instant, lim: Limits, worst: set<PeerId>, outboundWorst: nat,
                           early: set<PeerId>, outboundEarly: nat)
    requires Accounted(db, lim, worst, outboundWorst) && Accounted(db, lim, early, outboundEarly) && worst <= early
    requires forall p :: p in worst ==> p in db && HasPenalty(db[p])
    requires LeftHeldBack(db, now, NegativeScore, lim, worst, outboundWorst)
    ensures PenalisedFirst(db, now, early)
  {
    forall p, q | p in early && p in db && !HasPenalty(db[p])
                  && q in ConnectedPeers(db) - early && HasPenalty(db[q]) && !DutyAhead(db[q], now)
      ensures db[q].IsOutboundOnly() && !db[p].IsOutboundOnly()
    {
      assert worst < early;
      StrictlyMore(worst, early, p);
      assert Candidate(db, now, NegativeScore, q);
      if db[p].IsOutboundOnly() { StrictlyMore(OutboundOnly(db, worst), OutboundOnly(db, early), p); }
    }
  }

  lemma StrictlyMore<T>(a: set<T>, b: set<T>, x: T)
    requires a <= b && x in b && x !in a
    ensures |a| < |b|
  {
    CardinalityMonotone(a + {x}, b);
  }

  lemma NoneSelected(db: Snapshot, now: Instant, lim: Limits)
    ensures Accounted(db, lim, {}, 0)
    ensures forall pass, pruned :: WorstFirst(db, now, pass, {}, pruned)
    ensures PenalisedFirst(db, now, {})
  {
    assert OutboundOnly(db, {}) == {};
  }

  lemma NothingToPrune(db: Snapshot, now: Instant, lim: Limits)
    requires |ConnectedPeers(db)| <= lim.target
    ensures Maximal(db, now, lim, {}) && EarlyStages(db, now, lim, {}, {}) && WithinQuotas(db, lim, {})
  {
    hide Available;
    assert ConnectedPeers(db) - {} == ConnectedPeers(db);
  }

  lemma NothingThinned(db: Snapshot, early: set<PeerId>)
    ensures AllOnAttestation(db, early - early) && FloorKept(db, early, early)
  {
  }

  /** Stage three takes peers on attestation subnets only, so duties elsewhere are safe. */
  lemma DutiesKept(db: Snapshot, now: Instant, lim: Limits, early: set<PeerId>, pruned: set<PeerId>)
    requires early <= pruned <= ConnectedPeers(db) && |pruned| <= Excess(db, lim.target)
    requires |early| == Min(Excess(db, lim.target), Available(db, now, lim))
    requires forall p :: p in early ==> p in db && !DutyAhead(db[p], now)
    requires AllOnAttestation(db, pruned - early) && DutiesSafe(db, now, lim)
    ensures forall p :: p in pruned ==> !DutyAhead(db[p], now)
  {
    hide Available, OnAttestation;
    if Available(db, now, lim) >= Excess(db, lim.target) {
      SameWhenFull(early, pruned);
    }
  }

  lemma SameWhenFull(early: set<PeerId>, pruned: set<PeerId>)
    requires early <= pruned && |pruned| <= |early|
    ensures early == pruned
  {
    assert pruned == early + (pruned - early);
  }

  lemma EarlyHeldBack(db: Snapshot, now: Instant, lim: Limits, worst: set<PeerId>, outboundWorst: nat,
                      early: set<PeerId>, outboundEarly: nat)
    requires Accounted(db, lim, worst, outboundWorst) && Accounted(db, lim, early, outboundEarly) && worst <= early
    requires forall p :: p in worst ==> Candidate(db, now, NegativeScore, p)
    requires forall p :: p in early - worst ==> Candidate(db, now, NoSubnet, p)
    requires LeftHeldBack(db, now, NegativeScore, lim, worst, outboundWorst)
    requires LeftHeldBack(db, now, NoSubnet, lim, early, outboundEarly)
    ensures early <= Candidates(db, now)
    ensures |early| < Excess(db, lim.target) ==> AllHeldBack(db, now, lim, early)
  {
    hide Candidate, OutboundExhausted;
    if |early| < Excess(db, lim.target) {
      StillHeldBack(db, now, NegativeScore, lim, worst, outboundWorst, early, outboundEarly);
      StillHeldBack(db, now, NoSubnet, lim, early, outboundEarly, early, outboundEarly);
    }
  }

  lemma NoDutyEarly(db: Snapshot, now: Instant, early: set<PeerId>)
    requires early <= Candidates(db, now)
    ensures forall p :: p in early ==> p in db && !DutyAhead(db[p], now)
  {
  }

  /**
   * Keeping peers needed for a duty is not a global rule: with a target of one and two connected
   * peers, both on a subnet and both with a duty ahead, stage three drops one of them.
   */
  method DutyPeerCanBePruned(now: Instant) returns (db: Snapshot, p: PeerId, pruned: set<PeerId>)
    ensures ConnectedPeers(db) == {0, 1} && p in pruned && p in db && DutyAhead(db[p], now)
  {
    hide Selected, WithinQuotas, Maximal;
    var info := OnDuty(now);
    db := map[0 := info, 1 := info];
    assert ConnectedPeers(db) == {0, 1};
    var lim := Limits(1, 1);
    var dropped, worst, early, _ := PruneExcessPeers(db, now, lim);
    SelectionParts(db, now, lim, dropped, worst, early);
    QuotaConnected(db, lim, dropped);
    NotProtected(db, lim, 0);
    SomebodyGoes(db, now, lim, dropped, 0);
    pruned := dropped;
    p :| p in pruned;
  }

  /** A connected peer with a duty ahead, on one attestation subnet and no sync committee. */
  function OnDuty(now: Instant): (info: PeerInfo)
    ensures info.IsConnected() && !info.IsOutboundOnly() && DutyAhead(info, now)
    ensures info.OnLongLived(Attestation(0)) && info.Committees() == {}
  {
    DefaultPeerInfo(now).(status := Connected(1, 0), metaData := Some(MetaData([true], None)),
                          subnets := {Attestation(0)}, minTtl := Some(now))
  }

  lemma SelectionParts(db: Snapshot, now: Instant, lim: Limits, pruned: set<PeerId>, worst: set<PeerId>,
                       early: set<PeerId>)
    requires Selected(db, now, lim, pruned, worst, early)
    ensures WithinQuotas(db, lim, pruned) && Maximal(db, now, lim, pruned)
  {
  }

  lemma NotProtected(db: Snapshot, lim: Limits, p: PeerId)
    requires p in db && !db[p].IsOutboundOnly() && db[p].Committees() == {}
    ensures !Protected(db, lim, {}, p)
  {
  }

  lemma SomebodyGoes(db: Snapshot, now: Instant, lim: Limits, pruned: set<PeerId>, p: PeerId)
    requires Maximal(db, now, lim, pruned) && Excess(db, lim.target) > 0
    requires p in ConnectedPeers(db) && db[p].OnLongLived(Attestation(0)) && !Protected(db, lim, {}, p)
    ensures pruned != {}
  {
    hide Protected, Candidate;
  }

  /**
   * And where only peers with a duty are on attestation subnets, one of them is dropped whenever
   * stages one and two cannot fill the quota and leave one of them unprotected.
   */
  lemma DutyIsLost(db: Snapshot, now: Instant, lim: Limits, pruned: set<PeerId>, worst: set<PeerId>,
                   early: set<PeerId>, p: PeerId)
    requires Selected(db, now, lim, pruned, worst, early) && Available(db, now, lim) < Excess(db, lim.target)
    requires forall q :: q in ConnectedPeers(db) && OnAttestation(db[q]) ==> DutyAhead(db[q], now)
    requires p in ConnectedPeers(db) && OnAttestation(db[p]) && !Protected(db, lim, early, p)
    ensures exists q :: q in pruned && DutyAhead(db[q], now)
  {
    hide FloorKept, Available, DutiesSafe, Protected, OnAttestation, EarlyStages, Maximal, WithinQuotas;
    EarlyHaveNoDuty(db, now, lim, worst, early);
    assert p !in early;
    if pruned == early {
      EarlyShort(db, now, lim, worst, early);
      LeftIsProtected(db, now, lim, pruned, p);
      assert false;
    }
    var late := pruned - early;
    assert pruned == early + late;
    var q :| q in late;
    QuotaConnected(db, lim, pruned);
    assert OnAttestation(db[q]) && DutyAhead(db[q], now);
  }

  lemma EarlyHaveNoDuty(db: Snapshot, now: Instant, lim: Limits, worst: set<PeerId>, early: set<PeerId>)
    requires EarlyStages(db, now, lim, worst, early)
    ensures forall p :: p in early ==> p in db && !DutyAhead(db[p], now)
  {
    hide Available;
  }

  lemma EarlyShort(db: Snapshot, now: Instant, lim: Limits, worst: set<PeerId>, early: set<PeerId>)
    requires EarlyStages(db, now, lim, worst, early) && Available(db, now, lim) < Excess(db, lim.target)
    ensures |early| < Excess(db, lim.target)
  {
    hide Available, Candidate;
  }

  lemma LeftIsProtected(db: Snapshot, now: Instant, lim: Limits, pruned: set<PeerId>, p: PeerId)
    requires Maximal(db, now, lim, pruned) && |pruned| < Excess(db, lim.target)
    requires p in ConnectedPeers(db) - pruned && OnAttestation(db[p])
    ensures Protected(db, lim, pruned, p)
  {
    hide Protected, Candidate;
  }

  lemma QuotaConnected(db: Snapshot, lim: Limits, pruned: set<PeerId>)
    requires WithinQuotas(db, lim, pruned)
    ensures pruned <= ConnectedPeers(db)
  {
  }
}
