/** src/peer_manager/mod.rs and src/peer_manager/network_behaviour.rs: the peer manager object. */
module PeerManagers {
  import opened Common
  import opened PeerInfos
  import opened PeerTables
  import opened PeerReports
  import opened PeerDbs
  import opened PeerSystems
  import Pruning
  import Scores

  class PeerManager {
    const db: PeerDb
    const limits: PeerLimits
    var events: seq<Event>

    constructor (db: PeerDb, limits: PeerLimits)
      ensures this.db == db && this.limits == limits && events == []
    {
      this.db, this.limits, events := db, limits, [];
    }

    method HandleBanOperation(peerId: PeerId, op: BanOperation, reason: Option<GoodbyeReason>)
      modifies this
      ensures events == old(events) + OpEvents(peerId, Some(op), reason)
    {
      match op {
        case DisconnectThePeer =>
          events := events + [DisconnectPeer(peerId, if reason.Some? then reason.value else BadScore)];
        case PeerDisconnecting =>
        case ReadyToBan(ips) =>
          events := events + [PeerBanned(peerId, ips)];
      }
    }

    method HandleScoreAction(peerId: PeerId, action: ScoreUpdateResult, reason: Option<GoodbyeReason>)
      modifies this
      ensures events == old(events) + ResultEvents(peerId, action, reason)
    {
      match action {
        case Ban(op) => HandleBanOperation(peerId, op, reason);
        case Disconnect => events := events + [DisconnectPeer(peerId, BadScore)];
        case NoAction =>
        case Unbanned(ips) => events := events + [PeerUnbanned(peerId, ips)];
      }
    }

    method HandleScoreActions(actions: Results)
      modifies this
      ensures events == old(events) + AllResultEvents(actions)
    {
      hide ResultEvents;
      for i := 0 to |actions|
        invariant events == old(events) + AllResultEvents(actions[..i])
      {
        assert actions[..i + 1][..i] == actions[..i];
        HandleScoreAction(actions[i].0, actions[i].1, None);
      }
      assert actions[..|actions|] == actions;
    }

    method ReportPeer(peerId: PeerId, action: Scores.PeerAction, reason: Option<GoodbyeReason>, now: Instant)
      modifies this, db
      ensures old(events) <= events
      ensures Does(old(db.View()), Report(peerId, action, reason, now), events[|old(events)|..], db.View())
    {
      hide Reported, ResultEvents;
      var result := db.ReportPeer(peerId, action, now);
      HandleScoreAction(peerId, result, reason);
    }

    /** The heartbeat's score update. */
    method UpdateScores(now: Instant, decay: Decay)
      requires Sound(db.View()) && IsDecay(decay)
      modifies this, db
      ensures old(events) <= events
      ensures Does(old(db.View()), Tick(now, decay), events[|old(events)|..], db.View())
    {
      hide ScoresUpdated, AllResultEvents, IsDecay;
      var results := db.UpdateScores(now, decay);
      HandleScoreActions(results);
    }

    method UpdateGossipsubScores(gossip: map<PeerId, real>, allowed: nat, now: Instant)
      modifies this, db
      ensures old(events) <= events
      ensures Does(old(db.View()), Gossip(gossip, allowed, now), events[|old(events)|..], db.View())
    {
      hide GossipUpdated, AllResultEvents;
      var results := db.UpdateGossipsubScores(gossip, allowed, now);
      HandleScoreActions(results);
    }

    /** The last connection to a peer is gone; purged peers are announced as unbanned. */
    method InjectDisconnect(peerId: PeerId, now: Instant)
      requires Sound(db.View())
      modifies this, db
      ensures old(events) <= events
      ensures Disconnection(old(db.View()), peerId, now, events[|old(events)|..], db.View())
    {
      hide Updated, Shrunk, Counted, ScoresOk, OpEvents;
      ghost var before := db.View();
      var op, purged := db.InjectDisconnect(peerId, now);
      NoOpNoEvents(peerId);
      if op.Some? {
        HandleBanOperation(peerId, op.value, None);
        assert op == Some(op.value);
      }
      assert events == old(events) + OpEvents(peerId, op, None);
      events := events + seq(|purged|, i requires 0 <= i < |purged| => PeerUnbanned(purged[i].0, purged[i].1));
      assert events[|old(events)|..] == OpEvents(peerId, op, None) + PurgeEvents(purged);
    }

    method InjectConnectionClosed(peerId: PeerId, remaining: nat, now: Instant)
      requires Sound(db.View())
      modifies this, db
      ensures old(events) <= events
      ensures Does(old(db.View()), Closed(peerId, remaining, now), events[|old(events)|..], db.View())
    {
      hide Disconnection, Sound;
      if remaining > 0 {
        return;
      }
      ghost var before := events;
      ghost var noise: seq<Event> := [];
      if peerId in db.peers && (db.peers[peerId].status.Connected? || db.peers[peerId].status.Disconnecting?) {
        noise := [PeerDisconnected(peerId)];
        events := events + [PeerDisconnected(peerId)];
      }
      ghost var mid := events;
      InjectDisconnect(peerId, now);
      assert events[|before|..] == noise + events[|mid|..];
    }

    method InjectDialFailure(failed: Option<PeerId>, now: Instant)
      requires Sound(db.View())
      modifies this, db
      ensures old(events) <= events
      ensures Does(old(db.View()), DialFailed(failed, now), events[|old(events)|..], db.View())
    {
      hide Disconnection, Sound;
      if failed.Some? && !(failed.value in db.peers && db.peers[failed.value].IsConnected()) {
        InjectDisconnect(failed.value, now);
      }
    }

    method DialPeer(peerId: PeerId, enr: Option<Enr>, trusted: bool, now: Instant)
      modifies db
      ensures Does(old(db.View()), Dial(peerId, enr, trusted, now), [], db.View())
    {
      hide Updated;
      var _ := db.UpdateConnectionState(peerId, ToDialing(enr, trusted), now);
    }

    method InjectConnectionEstablished(peerId: PeerId, direction: ConnectionDirection, addr: Option<SocketAddr>,
                                       others: nat, now: Instant)
      modifies this, db
      ensures old(events) <= events
      ensures Does(old(db.View()), Established(peerId, direction, addr, others, limits, now),
                   events[|old(events)|..], db.View())
    {
      hide Admitted;
      if others == 0 {
        events := events + [RequestMetaData(peerId)];
      }
      ghost var noise := if others == 0 then [RequestMetaData(peerId)] else [];
      Admit(peerId, direction, addr, now);
      assert events[|old(events)|..] == noise + Admitted(old(db.View()), peerId, direction, addr, limits, now).1;
    }

    /** Sends a banned peer goodbye, turns a peer beyond the limits away, or registers the connection. */
    method Admit(peerId: PeerId, direction: ConnectionDirection, addr: Option<SocketAddr>, now: Instant)
      modifies this, db
      ensures db.View() == Admitted(old(db.View()), peerId, direction, addr, limits, now).0
      ensures events == old(events) + Admitted(old(db.View()), peerId, direction, addr, limits, now).1
    {
      hide Updated, Reported, BanStatus, Rejected, ResultEvents;
      match BanStatus(db.View(), peerId) {
        case ByScore =>
          var result := db.ReportPeer(peerId, Scores.Fatal, now);
          HandleScoreAction(peerId, result, Some(BannedPeer));
        case ByIp =>
          var result := db.ReportPeer(peerId, Scores.Fatal, now);
          HandleScoreAction(peerId, result, Some(BannedIp));
        case NotBanned =>
          if Rejected(db.View(), peerId, direction, limits, now) {
            GracefullyDisconnect(peerId, TooManyPeers, now);
          } else {
            var _ := db.UpdateConnectionState(peerId, ToConnected(None, addr, direction), now);
            events := events + [PeerConnected(peerId, direction)];
          }
      }
    }

    /** Disconnects a peer without banning it. */
    method GracefullyDisconnect(peerId: PeerId, reason: GoodbyeReason, now: Instant)
      modifies this, db
      ensures events == old(events) + [DisconnectPeer(peerId, reason)]
      ensures db.View() == Updated(old(db.View()), peerId, ToDisconnecting(false), now).0
    {
      hide Updated;
      events := events + [DisconnectPeer(peerId, reason)];
      db.NotifyDisconnecting(peerId, false, now);
    }

    /**
     * Brings the number of connected peers down towards the target. Exactly the selection of the
     * pruning round is told to disconnect, once each, and exactly the other connected peers stay: at
     * least the target, and among them at least the outbound target.
     */
    method PruneExcessPeers(now: Instant, lim: Pruning.Limits)
      returns (order: seq<PeerId>, ghost pruned: set<PeerId>, ghost worst: set<PeerId>, ghost early: set<PeerId>,
               ghost rounds: seq<Pruning.Stage>)
      modifies this, db
      ensures Pruning.Selected(old(db.peers), now, lim, pruned, worst, early)
      ensures if |early| < Pruning.Excess(old(db.peers), lim.target)
              then Pruning.Thinned(old(db.peers), lim, early, rounds, pruned) else pruned == early
      ensures NoDup(order) && forall p :: p in order <==> p in pruned
      ensures old(events) <= events
      ensures Does(old(db.View()), DisconnectAll(order, now), events[|old(events)|..], db.View())
      ensures Pruning.ConnectedPeers(db.peers) == Pruning.ConnectedPeers(old(db.peers)) - pruned
      ensures |Pruning.ConnectedPeers(db.peers)|
           >= Min(lim.target, |Pruning.ConnectedPeers(old(db.peers))|)
      ensures |Pruning.OutboundOnly(db.peers, Pruning.ConnectedPeers(db.peers))|
           >= Min(lim.targetOutbound, |Pruning.OutboundOnly(old(db.peers), Pruning.ConnectedPeers(old(db.peers)))|)
    {
      hide Updated, AllDisconnecting, Pruning.Selected, Pruning.Thinned;
      ghost var before := db.View();
      var selection, w, e, r := Pruning.PruneExcessPeers(db.peers, now, lim);
      pruned, worst, early, rounds := selection, w, e, r;
      Pruning.SelectionParts(before.peers, now, lim, pruned, worst, early);
      order := Listing(selection);
      DisconnectListed(order, now);
      assert events[|old(events)|..] == DisconnectEvents(order);
      StillConnected(before, order, pruned, now);
      SurvivorCount(Pruning.ConnectedPeers(before.peers), pruned);
    }

    method DisconnectListed(order: seq<PeerId>, now: Instant)
      modifies this, db
      ensures events == old(events) + DisconnectEvents(order)
      ensures db.View() == AllDisconnecting(old(db.View()), order, now)
    {
      hide Updated;
      for i := 0 to |order|
        invariant events == old(events) + DisconnectEvents(order[..i])
        invariant db.View() == AllDisconnecting(old(db.View()), order[..i], now)
      {
        assert order[..i + 1][..i] == order[..i];
        assert DisconnectEvents(order[..i + 1])
            == DisconnectEvents(order[..i]) + [DisconnectPeer(order[i], TooManyPeers)];
        GracefullyDisconnect(order[i], TooManyPeers, now);
      }
      assert order[..|order|] == order;
    }
  }

  /** The elements of a set in some order. */
  method Listing(s: set<PeerId>) returns (order: seq<PeerId>)
    ensures NoDup(order) && forall p :: p in order <==> p in s
  {
    order := [];
    var rest := s;
    while rest != {}
      invariant rest <= s && NoDup(order) && forall p :: p in order <==> p in s - rest
    {
      var p :| p in rest;
      assert p !in order;
      order := order + [p];
      rest := rest - {p};
    }
  }

  /** Telling connected peers to disconnect leaves exactly the other connected peers, as they were. */
  lemma {:induction false} StillConnected(db: Db, order: seq<PeerId>, pruned: set<PeerId>, now: Instant)
    requires pruned <= Pruning.ConnectedPeers(db.peers)
    requires NoDup(order) && forall p :: p in order <==> p in pruned
    ensures
      var db' := AllDisconnecting(db, order, now);
      && Pruning.ConnectedPeers(db'.peers) == Pruning.ConnectedPeers(db.peers) - pruned
      && Pruning.OutboundOnly(db'.peers, Pruning.ConnectedPeers(db'.peers))
         == Pruning.OutboundOnly(db.peers, Pruning.ConnectedPeers(db.peers) - pruned)
    decreases |order|
  {
    hide Updated;
    if order == [] {
      assert pruned == {};
    } else {
      var n := |order| - 1;
      var p := order[n];
      var before := AllDisconnecting(db, order[..n], now);
      StillConnected(db, order[..n], pruned - {p}, now);
      DisconnectingOne(before, p, now);
      OutboundWithout(db.peers, before.peers, pruned, p);
    }
  }

  lemma DisconnectingOne(db: Db, p: PeerId, now: Instant)
    ensures
      var db' := Updated(db, p, ToDisconnecting(false), now).0;
      && Pruning.ConnectedPeers(db'.peers) == Pruning.ConnectedPeers(db.peers) - {p}
      && Pruning.OutboundOnly(db'.peers, Pruning.ConnectedPeers(db'.peers))
         == Pruning.OutboundOnly(db.peers, Pruning.ConnectedPeers(db.peers)) - {p}
  {
    hide NextBans, NextDisconnected, NextOperation, DefaultPeerInfo, TrustedPeerInfo;
  }

  lemma OutboundWithout(before: Pruning.Snapshot, after: Pruning.Snapshot, pruned: set<PeerId>, p: PeerId)
    requires p in pruned
    requires Pruning.OutboundOnly(after, Pruning.ConnectedPeers(after))
          == Pruning.OutboundOnly(before, Pruning.ConnectedPeers(before) - (pruned - {p}))
    ensures Pruning.OutboundOnly(after, Pruning.ConnectedPeers(after)) - {p}
         == Pruning.OutboundOnly(before, Pruning.ConnectedPeers(before) - pruned)
  {
  }

  lemma SurvivorCount(connected: set<PeerId>, pruned: set<PeerId>)
    requires pruned <= connected
    ensures |connected - pruned| == |connected| - |pruned|
  {
  }

  lemma NoOpNoEvents(p: PeerId)
    ensures OpEvents(p, None, None) == []
  {
  }
}
