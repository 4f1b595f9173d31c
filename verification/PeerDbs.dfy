/** src/peer_manager/peerdb.rs: the database of known peers. */
module PeerDbs {
  import opened Common
  import opened PeerInfos
  import opened PeerTables
  import opened PeerReports
  import opened Orders
  import Scores

  const DIAL_TIMEOUT: nat := 15 * NANOS_PER_SEC

  method ConnectIngoing(info: PeerInfo, seen: Option<SocketAddr>) returns (r: PeerInfo)
    ensures r == NextInfo(info, ToConnected(None, seen, Incoming), 0)
  {
    r := info;
    if r.status.Connected? {
      r := r.(status := Connected(Bump(r.status.nIn), r.status.nOut));
    } else {
      r := r.(status := Connected(1, 0), direction := Some(Incoming));
    }
    if seen.Some? {
      r := r.(seenAddresses := r.seenAddresses + {seen.value});
    }
  }

  method ConnectOutgoing(info: PeerInfo, seen: Option<SocketAddr>) returns (r: PeerInfo)
    ensures r == NextInfo(info, ToConnected(None, seen, Outgoing), 0)
  {
    r := info;
    if r.status.Connected? {
      r := r.(status := Connected(r.status.nIn, Bump(r.status.nOut)));
    } else {
      r := r.(status := Connected(0, 1), direction := Some(Outgoing));
    }
    if seen.Some? {
      r := r.(seenAddresses := r.seenAddresses + {seen.value});
    }
  }

  method PenaliseFatally(info: PeerInfo) returns (r: PeerInfo)
    ensures r == Penalised(info, Scores.Fatal)
    ensures r == info.(score := r.score)
    ensures forall status :: Penalised(info.(status := status), Scores.Fatal) == r.(status := status)
  {
    r := Penalised(info, Scores.Fatal);
  }

  class PeerDb {
    var peers: map<PeerId, PeerInfo>
    var disconnectedPeers: nat
    var bannedPeersCount: BannedPeersCount

    function View(): Db
      reads this
    {
      Db(peers, disconnectedPeers, bannedPeersCount)
    }

    constructor (trusted: set<PeerId>, now: Instant)
      ensures View() == Fresh(trusted, now)
    {
      peers := map p | p in trusted :: TrustedPeerInfo(now);
      disconnectedPeers := 0;
      bannedPeersCount := NoBans;
    }

    /** The counters follow one record from `info` to `info'`. */
    twostate predicate Tallied(info: PeerInfo, info': PeerInfo, req: NewConnectionState)
      reads this
    {
      && disconnectedPeers == NextDisconnected(old(disconnectedPeers), info, info')
      && bannedPeersCount == NextBans(old(bannedPeersCount), info, info', req)
    }

    /** Moves a peer to a requested connection state, keeping the counters in step. */
    method UpdateConnectionState(peerId: PeerId, req: NewConnectionState, now: Instant)
      returns (op: Option<BanOperation>)
      modifies this
      ensures (View(), op) == Updated(old(View()), peerId, req, now)
    {
      hide NextInfo, NextBans, NextDisconnected, NextOperation, TrustedPeerInfo, DefaultPeerInfo;
      var info := if peerId in peers then peers[peerId]
                  else if req.ToDialing? && req.trusted then TrustedPeerInfo(now)
                  else DefaultPeerInfo(now);
      match req {
        case ToConnected(enr, seen, direction) =>
          info, op := MoveToConnected(info, enr, seen, direction, now);
        case ToDialing(enr, trusted) =>
          info, op := MoveToDialing(info, enr, trusted, now);
        case ToDisconnected =>
          info, op := MoveToDisconnected(info, now);
        case ToDisconnecting(toBan) =>
          info, op := MoveToDisconnecting(info, toBan, now);
        case ToBanned =>
          info, op := MoveToBanned(info, now);
        case ToUnbanned =>
          info, op := MoveToUnbanned(info, now);
      }
      peers := peers[peerId := info];
    }

    method MoveToConnected(info: PeerInfo, enr: Option<Enr>, seen: Option<SocketAddr>, direction: ConnectionDirection,
                           ghost now: Instant)
      returns (info': PeerInfo, op: Option<BanOperation>)
      modifies this`disconnectedPeers, this`bannedPeersCount
      ensures
        var req := ToConnected(enr, seen, direction);
        && info' == NextInfo(info, req, now) && Tallied(info, info', req)
        && op == NextOperation(info.status, info', req, bannedPeersCount)
    {
      hide BanAdded, BanRemoved, Bump;
      info', op := info, None;
      if enr.Some? {
        info' := info'.(enr := enr);
      }
      if info'.status.Disconnected? {
        disconnectedPeers := SatSub(disconnectedPeers, 1);
      } else if info'.status.Banned? {
        bannedPeersCount := RemoveBannedPeer(bannedPeersCount, info'.seenAddresses);
      }
      match direction {
        case Incoming => info' := ConnectIngoing(info', seen);
        case Outgoing => info' := ConnectOutgoing(info', seen);
      }
    }

    method MoveToDialing(info: PeerInfo, enr: Option<Enr>, trusted: bool, now: Instant)
      returns (info': PeerInfo, op: Option<BanOperation>)
      modifies this`disconnectedPeers, this`bannedPeersCount
      ensures
        var req := ToDialing(enr, trusted);
        && info' == NextInfo(info, req, now) && Tallied(info, info', req)
        && op == NextOperation(info.status, info', req, bannedPeersCount)
    {
      hide BanAdded, BanRemoved;
      info', op := info, None;
      if info'.status.Banned? {
        bannedPeersCount := RemoveBannedPeer(bannedPeersCount, info'.seenAddresses);
      } else if info'.status.Disconnected? {
        disconnectedPeers := SatSub(disconnectedPeers, 1);
      }
      if enr.Some? {
        info' := info'.(enr := enr);
      }
      if trusted {
        info' := info'.(isTrusted := true);
      }
      if !info'.status.Connected? && !info'.status.Dialing? && !info'.status.Disconnecting? {
        info' := info'.(status := Dialing(now));
      }
    }

    method MoveToDisconnected(info: PeerInfo, now: Instant) returns (info': PeerInfo, op: Option<BanOperation>)
      modifies this`disconnectedPeers, this`bannedPeersCount
      ensures info' == NextInfo(info, ToDisconnected, now) && Tallied(info, info', ToDisconnected)
      ensures op == NextOperation(info.status, info', ToDisconnected, bannedPeersCount)
    {
      hide BanAdded, BanRemoved, BannedIpsOf;
      info', op := info.(subnets := {}), None;
      if info'.status.Banned? || info'.status.Disconnected? {
      } else if info'.status == Disconnecting(true) {
        info' := info'.(status := Banned(now));
        bannedPeersCount := AddBannedPeer(bannedPeersCount, info'.seenAddresses);
        op := Some(ReadyToBan(BannedIpsOf(bannedPeersCount, info'.seenAddresses)));
      } else {
        disconnectedPeers := disconnectedPeers + 1;
        info' := info'.(status := Disconnected(now));
      }
    }

    /** A banned peer keeps its place in the ban counts. */
    method MoveToDisconnecting(info: PeerInfo, toBan: bool, ghost now: Instant)
      returns (info': PeerInfo, op: Option<BanOperation>)
      modifies this`disconnectedPeers, this`bannedPeersCount
      ensures info' == NextInfo(info, ToDisconnecting(toBan), now) && Tallied(info, info', ToDisconnecting(toBan))
      ensures op == NextOperation(info.status, info', ToDisconnecting(toBan), bannedPeersCount)
    {
      hide BanAdded, BanRemoved;
      if info.status.Disconnected? {
        disconnectedPeers := SatSub(disconnectedPeers, 1);
      }
      info', op := info.(status := Disconnecting(toBan)), None;
    }

    method MoveToBanned(info: PeerInfo, now: Instant) returns (info': PeerInfo, op: Option<BanOperation>)
      modifies this`disconnectedPeers, this`bannedPeersCount
      ensures info' == NextInfo(info, ToBanned, now) && Tallied(info, info', ToBanned)
      ensures op == NextOperation(info.status, info', ToBanned, bannedPeersCount)
    {
      hide BanAdded, BanRemoved, Penalised, BannedIpsOf, Scores.StateOf;
      info' := info;
      if Scores.StateOf(info'.score) != Scores.Banned {
        info' := PenaliseFatally(info');
      }
      if info'.status.Disconnected? || info'.status.Unknown? {
        if info'.status.Disconnected? {
          disconnectedPeers := SatSub(disconnectedPeers, 1);
        }
        info' := info'.(status := Banned(now));
        bannedPeersCount := AddBannedPeer(bannedPeersCount, info'.seenAddresses);
        op := Some(ReadyToBan(BannedIpsOf(bannedPeersCount, info'.seenAddresses)));
      } else if info'.status.Disconnecting? {
        info' := info'.(status := Disconnecting(true));
        op := Some(PeerDisconnecting);
      } else if info'.status.Banned? {
        op := Some(ReadyToBan(BannedIpsOf(bannedPeersCount, info'.seenAddresses)));
      } else {
        info' := info'.(status := Disconnecting(true));
        op := Some(DisconnectThePeer);
      }
    }

    method MoveToUnbanned(info: PeerInfo, ghost now: Instant) returns (info': PeerInfo, op: Option<BanOperation>)
      modifies this`disconnectedPeers, this`bannedPeersCount
      ensures info' == NextInfo(info, ToUnbanned, now) && Tallied(info, info', ToUnbanned)
      ensures op == NextOperation(info.status, info', ToUnbanned, bannedPeersCount)
    {
      hide BanAdded, BanRemoved;
      info', op := info, None;
      if info'.status.Banned? {
        info' := info'.(status := Disconnected(info'.status.since));
        bannedPeersCount := RemoveBannedPeer(bannedPeersCount, info'.seenAddresses);
        disconnectedPeers := disconnectedPeers + 1;
      }
    }

    /** Drops the longest-banned peers until the ban counter is back at its limit. */
    method ShrinkBans() returns (purged: Purged)
      requires Counted(View())
      modifies this
      ensures BansShrunk(old(View()), View(), purged)
    {
      hide Counted, Excess, ExcessOn, BannedIn, BanRemoved, DroppedOldest, Names, IsOldest, ReportsIps, BansAfter,
        UnbannedIpsOf;
      purged := [];
      ghost var db0, reset := View(), false;
      NothingDropped(peers, BannedKind);
      NothingReported(db0);
      while bannedPeersCount.bannedPeers > MAX_BANNED_PEERS
        invariant Counted(View()) && disconnectedPeers == db0.disconnected
        invariant DroppedOldest(db0.peers, peers, BannedKind) && Names(purged, db0.peers, peers)
        invariant ReportsIps(db0, purged) && (!reset ==> bannedPeersCount == BansAfter(db0, purged))
        invariant reset ==>
                    && bannedPeersCount.bannedPeers == 0 && |purged| == BannedIn(db0)
                    && Excess(db0) > MAX_BANNED_PEERS && db0.bans.bannedPeers > MAX_BANNED_PEERS + |purged|
                    && Excess(View()) == 0 && forall ip :: ExcessOn(View(), ip) == 0
        invariant !reset ==>
                    && Excess(View()) == Excess(db0) && (forall ip :: ExcessOn(View(), ip) == ExcessOn(db0, ip))
                    && |purged| + BannedIn(View()) == BannedIn(db0)
                    && bannedPeersCount.bannedPeers + |purged| == db0.bans.bannedPeers
                    && (purged != [] ==> bannedPeersCount.bannedPeers >= MAX_BANNED_PEERS)
        decreases bannedPeersCount.bannedPeers
      {
        if exists p :: p in peers && peers[p].status.Banned? {
          OldestOfKind(peers, BannedKind);
          var p :| p in peers && IsOldest(peers, BannedKind, p);
          OldestIsKind(peers, BannedKind, p);
          DropOne(db0.peers, peers, BannedKind, p);
          DropBanned(View(), p);
          DropNames(purged, db0.peers, peers, p, BannedKind);
          StillKnown(db0.peers, peers, BannedKind, p);
          ReportOneMore(db0, purged, p);
          BanRemovedTotal(bannedPeersCount, peers[p].seenAddresses);
          bannedPeersCount := RemoveBannedPeer(bannedPeersCount, peers[p].seenAddresses);
          var unbannedIps := UnbannedIpsOf(bannedPeersCount, peers[p].seenAddresses);
          peers := peers - {p};
          purged := purged + [(p, unbannedIps)];
        } else {
          ResetBans(View());
          NoneBanned(View());
          bannedPeersCount := NoBans;
          reset := true;
        }
      }
      ExcessAtMostTotal(View());
    }

    /** Drops the longest-disconnected peers until the counter is back at its limit. */
    method ShrinkDisconnected()
      requires Counted(View())
      modifies this
      ensures DisconnectedShrunk(old(View()), View())
    {
      hide Counted, Excess, ExcessOn, DroppedOldest, IsOldest;
      ghost var db0 := View();
      NothingDropped(peers, DisconnectedKind);
      while disconnectedPeers > MAX_DC_PEERS
        invariant Counted(View()) && bannedPeersCount == db0.bans
        invariant DroppedOldest(db0.peers, peers, DisconnectedKind)
        invariant Excess(View()) == Excess(db0) && forall ip :: ExcessOn(View(), ip) == ExcessOn(db0, ip)
        invariant disconnectedPeers <= db0.disconnected && disconnectedPeers >= Min(db0.disconnected, MAX_DC_PEERS)
        decreases disconnectedPeers
      {
        if exists p :: p in peers && peers[p].status.Disconnected? {
          OldestOfKind(peers, DisconnectedKind);
          var p :| p in peers && IsOldest(peers, DisconnectedKind, p);
          OldestIsKind(peers, DisconnectedKind, p);
          DropOne(db0.peers, peers, DisconnectedKind, p);
          DropDisconnected(View(), p);
          peers := peers - {p};
        } else {
          SomeDisconnected(View());
          assert false;
        }
        disconnectedPeers := SatSub(disconnectedPeers, 1);
      }
    }

    method ShrinkToFit() returns (purged: Purged)
      requires Counted(View())
      modifies this
      ensures Shrunk(old(View()), View(), purged)
    {
      hide BansShrunk, DisconnectedShrunk;
      purged := ShrinkBans();
      ghost var mid := View();
      BansShrunkCounted(old(View()), mid, purged);
      ShrinkDisconnected();
    }

    /** The connection to a peer is gone; a peer waiting to be banned is banned now. */
    method InjectDisconnect(peerId: PeerId, now: Instant) returns (op: Option<BanOperation>, purged: Purged)
      requires Counted(View())
      modifies this
      ensures op == Updated(old(View()), peerId, ToDisconnected, now).1
      ensures Shrunk(Updated(old(View()), peerId, ToDisconnected, now).0, View(), purged)
    {
      hide Updated, Shrunk, Counted;
      UpdateKeepsCounted(View(), peerId, ToDisconnected, now);
      op := UpdateConnectionState(peerId, ToDisconnected, now);
      purged := ShrinkToFit();
    }

    method NotifyDisconnecting(peerId: PeerId, toBan: bool, now: Instant)
      modifies this
      ensures View() == Updated(old(View()), peerId, ToDisconnecting(toBan), now).0
    {
      var _ := UpdateConnectionState(peerId, ToDisconnecting(toBan), now);
    }

    /** Acts on a score transition. */
    method Act(peerId: PeerId, t: ScoreTransition, now: Instant) returns (result: ScoreUpdateResult)
      modifies this
      ensures (View(), result) == Acted(old(View()), peerId, t, now)
    {
      hide NextInfo, NextBans, NextDisconnected, NextOperation, InfoOf;
      match t {
        case BecameBanned =>
          var op := UpdateConnectionState(peerId, ToBanned, now);
          result := if op.Some? then Ban(op.value) else NoAction;
        case BecameDisconnected =>
          var _ := UpdateConnectionState(peerId, ToDisconnecting(false), now);
          result := Disconnect;
        case BecameUnbanned =>
          result := UnbanPeer(peerId, now);
        case NoTransition =>
          result := NoAction;
      }
    }

    method UnbanPeer(peerId: PeerId, now: Instant) returns (result: ScoreUpdateResult)
      modifies this
      ensures (View(), result) == Unban(old(View()), peerId, now)
    {
      hide NextInfo, NextBans, NextDisconnected, NextOperation, InfoOf;
      var _ := UpdateConnectionState(peerId, ToUnbanned, now);
      var b := bannedPeersCount;
      result := Unbanned(set ip | ip in Ips(peers[peerId].seenAddresses) && !b.IpIsBanned(ip));
    }

    /** Lowers a peer's score and bans or disconnects it when it falls too far. */
    method ReportPeer(peerId: PeerId, action: Scores.PeerAction, now: Instant) returns (result: ScoreUpdateResult)
      modifies this
      ensures (View(), result) == Reported(old(View()), peerId, action, now)
    {
      hide Acted, TransitionOf, Penalised;
      if peerId in peers {
        var previous := Scores.StateOf(peers[peerId].score);
        peers := peers[peerId := Penalised(peers[peerId], action)];
        var t := TransitionOf(previous, peers[peerId]);
        result := Act(peerId, if t.BecameUnbanned? then NoTransition else t, now);
      } else {
        result := NoAction;
      }
    }

    /** Decays every score and lifts the bans that have run out. */
    method UpdateScores(now: Instant, decay: Decay) returns (results: Results)
      requires ScoresOk(View()) && IsDecay(decay)
      modifies this
      ensures ScoresUpdated(old(View()), now, decay, View(), results)
    {
      hide Ticked, TransitionOf, Unban;
      ghost var db0 := View();
      var toUnban := [];
      var rest := peers.Keys;
      while rest != {}
        invariant rest <= db0.peers.Keys && peers.Keys == db0.peers.Keys
        invariant disconnectedPeers == db0.disconnected && bannedPeersCount == db0.bans
        invariant forall p :: p in peers ==>
                    peers[p] == if p in rest then db0.peers[p] else Ticked(db0.peers[p], now, decay)
        invariant NoDup(toUnban)
        invariant forall p :: p in toUnban <==>
                    p in db0.peers && p !in rest && TickTransition(db0.peers[p], now, decay).BecameUnbanned?
      {
        var p :| p in rest;
        var previous := Scores.StateOf(peers[p].score);
        TickNeverBans(peers[p], now, decay);
        peers := peers[p := Ticked(peers[p], now, decay)];
        match TransitionOf(previous, peers[p]) {
          case BecameBanned => assert false;
          case BecameDisconnected =>
          case BecameUnbanned => toUnban := toUnban + [p];
          case NoTransition =>
        }
        rest := rest - {p};
      }
      assert View() == AllTicked(db0, now, decay);
      results := UnbanListed(toUnban, now);
      assert IsUnbanOrder(db0, now, decay, toUnban);
    }

    method UnbanListed(order: seq<PeerId>, now: Instant) returns (results: Results)
      modifies this
      ensures (View(), results) == AllUnbanned(old(View()), order, now)
    {
      hide Unban;
      results := [];
      for i := 0 to |order|
        invariant (View(), results) == AllUnbanned(old(View()), order[..i], now)
      {
        assert order[..i + 1][..i] == order[..i];
        var result := UnbanPeer(order[i], now);
        results := results + [(order[i], result)];
      }
      assert order[..|order|] == order;
    }

    /**
     * Takes over the gossipsub scores of the connected peers, best first, forgiving the first
     * `allowed` negative ones, and then acts on the transitions.
     */
    method UpdateGossipsubScores(gossip: map<PeerId, real>, allowed: nat, now: Instant) returns (results: Results)
      modifies this
      ensures GossipUpdated(old(View()), gossip, allowed, now, View(), results)
    {
      hide IsSortedListing, AllActed;
      ghost var db0 := View();
      var connected := set p | p in peers && p in gossip && peers[p].IsConnected();
      var order := ShuffleAndSort(connected, Above(gossip));
      ListsOnly(connected, Above(gossip), order);
      var acts := ScoreListed(gossip, order, allowed, now);
      results := ActListed(acts, now);
    }

    method ScoreListed(gossip: map<PeerId, real>, order: seq<PeerId>, allowed: nat, now: Instant)
      returns (acts: seq<(PeerId, ScoreTransition)>)
      requires NoDup(order) && forall p :: p in order ==> p in gossip && p in peers
      modifies this
      ensures ActsAre(old(View()), gossip, order, allowed, now, acts) && |acts| == |order|
      ensures View() == AllScored(old(View()), gossip, order, |order|, allowed, now)
    {
      hide TransitionOf, GossipScored, ActsAre, GossipTransition, AllScored, Negatives, IsForgiven;
      ghost var db0 := View();
      acts := [];
      var toIgnore := allowed;
      ScoringStarts(db0, gossip, order, allowed, now);
      for i := 0 to |order|
        invariant View() == AllScored(db0, gossip, order, i, allowed, now)
        invariant peers.Keys == db0.peers.Keys
        invariant forall j :: i <= j < |order| ==> peers[order[j]] == db0.peers[order[j]]
        invariant toIgnore == SatSub(allowed, Negatives(gossip, order[..i]))
        invariant |acts| == i && ActsAre(db0, gossip, order, allowed, now, acts)
      {
        var p := order[i];
        var previous := Scores.StateOf(peers[p].score);
        var score := gossip[p];
        var ignore := score < 0.0 && toIgnore > 0;
        ForgivenessSpent(gossip, order, i, allowed);
        if ignore {
          toIgnore := toIgnore - 1;
        }
        ScoringContinues(db0, gossip, order, i, allowed, now, acts);
        peers := peers[p := GossipScored(peers[p], score, ignore, now)];
        acts := acts + [(p, TransitionOf(previous, peers[p]))];
      }
    }

    method ActListed(acts: seq<(PeerId, ScoreTransition)>, now: Instant) returns (results: Results)
      modifies this
      ensures (View(), results) == AllActed(old(View()), acts, now)
    {
      hide Acted;
      results := [];
      for i := 0 to |acts|
        invariant (View(), results) == AllActed(old(View()), acts[..i], now)
      {
        assert acts[..i + 1][..i] == acts[..i];
        var result := Act(acts[i].0, acts[i].1, now);
        if !result.NoAction? {
          results := results + [(acts[i].0, result)];
        }
      }
      assert acts[..|acts|] == acts;
    }

    /** Peers that have been dialing for too long count as disconnected. */
    method CleanupDialingPeers(now: Instant)
      modifies this
      ensures exists order ::
                IsOverdueOrder(old(View()), now, order) && View() == AllDisconnected(old(View()), order, now)
    {
      ghost var db0 := View();
      var order := [];
      var rest := peers.Keys;
      while rest != {}
        invariant rest <= db0.peers.Keys && View() == db0
        invariant NoDup(order)
        invariant forall p :: p in order <==> p in db0.peers && p !in rest && IsOverdue(db0.peers[p], now)
      {
        var p :| p in rest;
        if IsOverdue(peers[p], now) {
          order := order + [p];
        }
        rest := rest - {p};
      }
      assert IsOverdueOrder(db0, now, order);
      DisconnectListed(order, now);
    }

    method DisconnectListed(order: seq<PeerId>, now: Instant)
      modifies this
      ensures View() == AllDisconnected(old(View()), order, now)
    {
      hide Updated;
      for i := 0 to |order|
        invariant View() == AllDisconnected(old(View()), order[..i], now)
      {
        assert order[..i + 1][..i] == order[..i];
        var _ := UpdateConnectionState(order[i], ToDisconnected, now);
      }
      assert order[..|order|] == order;
    }
  }

  lemma NothingReported(db: Db)
    ensures ReportsIps(db, []) && BansAfter(db, []) == db.bans
  {
  }

  lemma StillKnown(before: map<PeerId, PeerInfo>, after: map<PeerId, PeerInfo>, kind: Kind, p: PeerId)
    requires DroppedOldest(before, after, kind) && p in after
    ensures p in before && before[p] == after[p]
  {
  }

  lemma ScoringStarts(db: Db, gossip: map<PeerId, real>, order: seq<PeerId>, allowed: nat, now: Instant)
    requires forall p :: p in order ==> p in gossip && p in db.peers
    ensures AllScored(db, gossip, order, 0, allowed, now) == db
    ensures Negatives(gossip, order[..0]) == 0 && ActsAre(db, gossip, order, allowed, now, [])
  {
  }

  lemma ForgivenessSpent(gossip: map<PeerId, real>, order: seq<PeerId>, i: nat, allowed: nat)
    requires i < |order| && forall p :: p in order ==> p in gossip
    ensures
      var negatives := Negatives(gossip, order[..i]);
      && IsForgiven(gossip, order, i, allowed) == (gossip[order[i]] < 0.0 && SatSub(allowed, negatives) > 0)
      && Negatives(gossip, order[..i + 1]) == negatives + if gossip[order[i]] < 0.0 then 1 else 0
  {
    assert order[..i + 1][..i] == order[..i];
  }

  lemma ScoringContinues(db: Db, gossip: map<PeerId, real>, order: seq<PeerId>, i: nat, allowed: nat, now: Instant,
                         acts: seq<(PeerId, ScoreTransition)>)
    requires i < |order| && forall p :: p in order ==> p in gossip && p in db.peers
    requires |acts| == i && ActsAre(db, gossip, order, allowed, now, acts)
    ensures
      var info := db.peers[order[i]];
      var info' := GossipScored(info, gossip[order[i]], IsForgiven(gossip, order, i, allowed), now);
      && AllScored(db, gossip, order, i + 1, allowed, now)
         == WithInfo(AllScored(db, gossip, order, i, allowed, now), order[i], info')
      && ActsAre(db, gossip, order, allowed, now, acts + [(order[i], TransitionOf(Scores.StateOf(info.score), info'))])
  {
    hide TransitionOf, GossipScored, IsForgiven;
  }

  predicate IsOverdue(info: PeerInfo, now: Instant) {
    info.status.Dialing? && info.status.since + DIAL_TIMEOUT < now
  }

  ghost predicate IsOverdueOrder(db: Db, now: Instant, order: seq<PeerId>) {
    NoDup(order) && forall p :: p in order <==> p in db.peers && IsOverdue(db.peers[p], now)
  }

  function AllDisconnected(db: Db, order: seq<PeerId>, now: Instant): Db
    decreases |order|
  {
    if order == [] then db
    else Updated(AllDisconnected(db, order[..|order| - 1], now), order[|order| - 1], ToDisconnected, now).0
  }

  lemma ListsOnly(s: set<PeerId>, less: (PeerId, PeerId) -> bool, order: seq<PeerId>)
    requires IsSortedListing(s, less, order)
    ensures NoDup(order) && forall p :: p in order <==> p in s
  {
  }
}
