/** What holds over every run of the peer manager about the connections, bans and addresses of each peer. */
module PeerStandings {
  import opened Common
  import opened PeerInfos
  import opened PeerTables
  import opened PeerReports
  import opened PeerDbs
  import opened PeerSystems
  import opened PeerMoves
  import opened PeerRuns
  import Scores

  /** One step of a run moves a peer by at most one transition. */
  lemma StepMoves(s: Sys, c: Call, s': Sys, p: PeerId) returns (es: seq<Event>, move: Option<NewConnectionState>)
    requires Next(s, c, s') && ScoresOk(s.db)
    ensures s'.Log() == s.Log() + es && Explains(s.db, c, es, s'.db, p, move)
  {
    hide Explains, ScoresOk, StandingIn, Does;
    if c.Deliver? {
      es, move := [], None;
      DeliveryExplained(s.db, p);
    } else {
      es := s'.queue[|s.queue|..];
      move := CallMoves(s.db, c, es, s'.db, p);
    }
  }

  lemma DeliveryExplained(db: Db, p: PeerId)
    ensures Explains(db, Deliver, [], db, p, None)
  {
    hide StandingIn;
    QuietExplains(db, Deliver, [], db, p);
  }

  lemma ScoresStayOk(ss: seq<Sys>, cs: seq<Call>)
    requires IsRun(ss, cs)
    ensures ScoresOk(ss[|cs|].db)
  {
    hide Next, Excess, ExcessOn, IsStart, ScoresOk, Counted;
    ExcessOverRuns(ss, cs);
  }

  /** What the step reports. */
  function Said(s: Sys, s': Sys): seq<Event> {
    if |s.Log()| <= |s'.Log()| then s'.Log()[|s.Log()|..] else []
  }

  lemma SaidIs(s: Sys, s': Sys, es: seq<Event>)
    requires s'.Log() == s.Log() + es
    ensures Said(s, s') == es
  {
  }

  predicate IsUp(db: Db, p: PeerId) { p in db.peers && db.peers[p].status.Connected? }

  // ---- Connections ----

  /** The connections in one direction announced since the peer was last not connected. */
  function Connections(ss: seq<Sys>, cs: seq<Call>, p: PeerId, d: ConnectionDirection): nat
    requires |ss| == |cs| + 1
    decreases |cs|
  {
    if cs == [] then 0
    else
      var n := |cs| - 1;
      (if IsUp(ss[n].db, p) then Connections(ss[..n + 1], cs[..n], p, d) else 0)
      + if PeerConnected(p, d) in Said(ss[n], ss[n + 1]) then 1 else 0
  }

  /** The direction of the first of them. */
  function FirstDirection(ss: seq<Sys>, cs: seq<Call>, p: PeerId): Option<ConnectionDirection>
    requires |ss| == |cs| + 1
    decreases |cs|
  {
    if cs == [] then None
    else
      var n := |cs| - 1;
      if IsUp(ss[n].db, p) then FirstDirection(ss[..n + 1], cs[..n], p)
      else if PeerConnected(p, Incoming) in Said(ss[n], ss[n + 1]) then Some(Incoming)
      else if PeerConnected(p, Outgoing) in Said(ss[n], ss[n + 1]) then Some(Outgoing)
      else None
  }

  /** A connected peer has these connections, counted in one byte each, the first in that direction. */
  ghost predicate HasConnections(db: Db, p: PeerId, incoming: nat, outgoing: nat, first: Option<ConnectionDirection>) {
    IsUp(db, p) ==>
      && db.peers[p].status == Connected(incoming % 256, outgoing % 256) && incoming + outgoing > 0
      && db.peers[p].direction == first && first.Some?
  }

  lemma ConnectionStep(db: Db, c: Call, es: seq<Event>, db': Db, p: PeerId, move: Option<NewConnectionState>,
                       incoming: nat, outgoing: nat, first: Option<ConnectionDirection>)
    requires Explains(db, c, es, db', p, move) && HasConnections(db, p, incoming, outgoing, first)
    ensures
      var up := IsUp(db, p);
      HasConnections(db', p,
        (if up then incoming else 0) + (if Admits(es, p, Incoming) then 1 else 0),
        (if up then outgoing else 0) + (if Admits(es, p, Outgoing) then 1 else 0),
        if up then first else if Admits(es, p, Incoming) then Some(Incoming)
        else if Admits(es, p, Outgoing) then Some(Outgoing) else None)
  {
    hide Reason, Closes, Admits, Scores.StateOf, Penalised;
    if p in db'.peers {
      assert Admits(es, p, Incoming) <==> move.Some? && move.value.ToConnected? && move.value.direction.Incoming?;
      assert Admits(es, p, Outgoing) <==> move.Some? && move.value.ToConnected? && move.value.direction.Outgoing?;
      if move.Some? {
        var info := InfoOf(db, p, move.value, TimeOf(c));
        PenalisedStanding(info.(status := NextStatus(info.status, move.value, TimeOf(c))), Scores.Fatal);
      }
    }
  }

  lemma {:induction false} ConnectionsCounted(ss: seq<Sys>, cs: seq<Call>, p: PeerId)
    requires IsRun(ss, cs)
    ensures HasConnections(ss[|cs|].db, p, Connections(ss, cs, p, Incoming), Connections(ss, cs, p, Outgoing),
                           FirstDirection(ss, cs, p))
    decreases |cs|
  {
    hide Next, IsStart, ScoresOk, Explains, Said, HasConnections, IsUp;
    if cs == [] {
      StartsDown(ss[0], p);
      NoConnectionsYet(ss[0].db, p);
    } else {
      var n := |cs| - 1;
      ConnectionsCounted(ss[..n + 1], cs[..n], p);
      ScoresStayOk(ss[..n + 1], cs[..n]);
      var es, move := StepMoves(ss[n], cs[n], ss[n + 1], p);
      SaidIs(ss[n], ss[n + 1], es);
      ConnectionStep(ss[n].db, cs[n], es, ss[n + 1].db, p, move, Connections(ss[..n + 1], cs[..n], p, Incoming),
                     Connections(ss[..n + 1], cs[..n], p, Outgoing), FirstDirection(ss[..n + 1], cs[..n], p));
    }
  }

  lemma NoConnectionsYet(db: Db, p: PeerId)
    requires StandingIn(db, p).status.Unknown?
    ensures HasConnections(db, p, 0, 0, None)
  {
  }

  /**
   * Over every run: while a peer is connected, its two counters are, modulo 256, the numbers of
   * incoming and outgoing connections announced since it last was not connected, and its direction is
   * that of the first. So it is outbound-only exactly when its outgoing connections, and none of its
   * incoming ones, count.
   */
  lemma ConnectionsOverRuns(ss: seq<Sys>, cs: seq<Call>, p: PeerId)
    requires IsRun(ss, cs) && IsUp(ss[|cs|].db, p)
    ensures
      var incoming, outgoing := Connections(ss, cs, p, Incoming), Connections(ss, cs, p, Outgoing);
      var info := ss[|cs|].db.peers[p];
      && info.status == Connected(incoming % 256, outgoing % 256) && incoming + outgoing > 0
      && info.direction == FirstDirection(ss, cs, p) && info.direction.Some?
      && (info.IsOutboundOnly() <==> incoming % 256 == 0 && outgoing % 256 > 0)
      && (incoming < 256 && outgoing < 256 ==> (info.IsOutboundOnly() <==> incoming == 0))
  {
    hide Next, IsStart, Connections, FirstDirection;
    ConnectionsCounted(ss, cs, p);
  }

  lemma StartsDown(s: Sys, p: PeerId)
    requires IsStart(s)
    ensures StandingIn(s.db, p) == Standing(Unknown, {}, None)
    ensures p in s.db.peers ==> s.db.peers[p].score.Max?
  {
    var trusted, now :| s.db == Fresh(trusted, now);
  }

  // ---- Since when ----

  predicate SameKind(a: PeerConnectionStatus, b: PeerConnectionStatus) {
    match a
    case Connected(_, _) => b.Connected?
    case Disconnecting(_) => b.Disconnecting?
    case Disconnected(_) => b.Disconnected?
    case Banned(_) => b.Banned?
    case Dialing(_) => b.Dialing?
    case Unknown => b.Unknown?
  }

  /** A change of state, except that a peer whose ban is lifted counts as disconnected since its ban. */
  predicate NewPhase(a: PeerConnectionStatus, b: PeerConnectionStatus) {
    !SameKind(a, b) && !(a.Banned? && b.Disconnected?)
  }

  /** When the peer got into its present state. */
  function Entered(ss: seq<Sys>, cs: seq<Call>, p: PeerId): Instant
    requires |ss| == |cs| + 1
    decreases |cs|
  {
    if cs == [] then 0
    else
      var n := |cs| - 1;
      if NewPhase(StandingIn(ss[n].db, p).status, StandingIn(ss[n + 1].db, p).status) then TimeOf(cs[n])
      else Entered(ss[..n + 1], cs[..n], p)
  }

  predicate IsSince(status: PeerConnectionStatus, at: Instant) {
    status.Disconnected? || status.Banned? || status.Dialing? ==> status.since == at
  }

  lemma SinceStep(db: Db, c: Call, es: seq<Event>, db': Db, p: PeerId, move: Option<NewConnectionState>, at: Instant)
    requires Explains(db, c, es, db', p, move) && IsSince(StandingIn(db, p).status, at)
    ensures
      var a, b := StandingIn(db, p).status, StandingIn(db', p).status;
      IsSince(b, if NewPhase(a, b) then TimeOf(c) else at)
  {
    hide Reason, Closes, Admits, Scores.StateOf, Penalised;
    if p in db'.peers && move.Some? {
      var info := InfoOf(db, p, move.value, TimeOf(c));
      PenalisedStanding(info.(status := NextStatus(info.status, move.value, TimeOf(c))), Scores.Fatal);
    }
  }

  /**
   * Over every run the time recorded with a state, by which eviction and the cleanup of dials go, is
   * that of the call that led into it; being dialed, disconnected or banned again does not renew it.
   */
  lemma {:induction false} SinceOverRuns(ss: seq<Sys>, cs: seq<Call>, p: PeerId)
    requires IsRun(ss, cs)
    ensures IsSince(StandingIn(ss[|cs|].db, p).status, Entered(ss, cs, p))
    decreases |cs|
  {
    hide Next, IsStart, ScoresOk, Explains, StandingIn, NewPhase;
    if cs == [] {
      StartsDown(ss[0], p);
    } else {
      var n := |cs| - 1;
      SinceOverRuns(ss[..n + 1], cs[..n], p);
      ScoresStayOk(ss[..n + 1], cs[..n]);
      var es, move := StepMoves(ss[n], cs[n], ss[n + 1], p);
      SinceStep(ss[n].db, cs[n], es, ss[n + 1].db, p, move, Entered(ss[..n + 1], cs[..n], p));
    }
  }

  // ---- Seen addresses ----

  /** The address of the connection the step admits, if it is known. */
  function AddressOf(s: Sys, c: Call, s': Sys, p: PeerId): set<SocketAddr> {
    if c.Established? && c.addr.Some?
       && (PeerConnected(p, Incoming) in Said(s, s') || PeerConnected(p, Outgoing) in Said(s, s'))
    then {c.addr.value} else {}
  }

  /** The addresses of the connections admitted since the peer became known. */
  function Addresses(ss: seq<Sys>, cs: seq<Call>, p: PeerId): set<SocketAddr>
    requires |ss| == |cs| + 1
    decreases |cs|
  {
    if cs == [] then {}
    else
      var n := |cs| - 1;
      (if p in ss[n].db.peers then Addresses(ss[..n + 1], cs[..n], p) else {})
      + AddressOf(ss[n], cs[n], ss[n + 1], p)
  }

  lemma SeenStep(s: Sys, c: Call, s': Sys, es: seq<Event>, p: PeerId, move: Option<NewConnectionState>)
    requires Explains(s.db, c, es, s'.db, p, move) && Said(s, s') == es && p in s'.db.peers
    ensures s'.db.peers[p].seenAddresses == StandingIn(s.db, p).seen + AddressOf(s, c, s', p)
  {
    hide Closes, NextStatus, Scores.StateOf, Said, ToldToGo, ToldUnbanned;
    assert Admits(es, p, Incoming) <==> move.Some? && move.value.ToConnected? && move.value.direction.Incoming?;
    assert Admits(es, p, Outgoing) <==> move.Some? && move.value.ToConnected? && move.value.direction.Outgoing?;
  }

  /** Over every run the addresses seen of a peer, which a ban counts, are those of its admitted connections. */
  lemma {:induction false} SeenOverRuns(ss: seq<Sys>, cs: seq<Call>, p: PeerId)
    requires IsRun(ss, cs) && p in ss[|cs|].db.peers
    ensures ss[|cs|].db.peers[p].seenAddresses == Addresses(ss, cs, p)
    decreases |cs|
  {
    hide Next, IsStart, ScoresOk, Explains, Said, AddressOf;
    if cs == [] {
      StartsDown(ss[0], p);
    } else {
      var n := |cs| - 1;
      if p in ss[n].db.peers { SeenOverRuns(ss[..n + 1], cs[..n], p); }
      ScoresStayOk(ss[..n + 1], cs[..n]);
      var es, move := StepMoves(ss[n], cs[n], ss[n + 1], p);
      SaidIs(ss[n], ss[n + 1], es);
      SeenStep(ss[n], cs[n], ss[n + 1], es, p, move);
    }
  }

  // ---- Who is let in ----

  /** Connected peers, and with those being dialed. */
  function UpPeers(db: Db): set<PeerId> { set p | p in db.peers && db.peers[p].status.Connected? }

  function UpOrDialingPeers(db: Db): set<PeerId> {
    set p | p in db.peers && (db.peers[p].status.Connected? || db.peers[p].status.Dialing?)
  }

  /** There is room for a connection: incoming ones leave room for the dials, outgoing ones may go further. */
  predicate HasRoom(db: Db, direction: ConnectionDirection, limits: PeerLimits) {
    match direction
    case Incoming => |UpOrDialingPeers(db)| < limits.maxPeers
    case Outgoing => |UpPeers(db)| < limits.maxOutboundDialing
  }

  /** The score is banned, or more than five banned peers, counted by address, share one of its addresses. */
  ghost predicate Unwelcome(db: Db, p: PeerId) {
    p in db.peers
    && (Scores.StateOf(db.peers[p].score) == Scores.Banned
        || exists a :: a in db.peers[p].seenAddresses && db.bans.PerIp(a.ip) > 5)
  }

  /**
   * A connection is admitted exactly if its peer is not unwelcome and there is room for it, or the
   * peer is needed for a duty that is not past; and then the peer is connected afterwards. One that
   * is welcome but finds no room is told that there are too many peers; one that is disconnected for
   * being unwelcome is told that its address is banned, since a score that is banned already says so.
   */
  lemma AdmittedIff(db: Db, c: Call, es: seq<Event>, db': Db)
    requires c.Established? && Does(db, c, es, db')
    ensures
      var p := c.peer;
      var needed := p in db.peers && db.peers[p].minTtl.Some? && c.now <= db.peers[p].minTtl.value;
      && (PeerConnected(p, c.direction) in es <==> !Unwelcome(db, p) && (HasRoom(db, c.direction, c.limits) || needed))
      && (PeerConnected(p, c.direction) in es ==> IsUp(db', p))
      && (DisconnectPeer(p, TooManyPeers) in es <==>
            !Unwelcome(db, p) && !HasRoom(db, c.direction, c.limits) && !needed)
      && (forall reason :: DisconnectPeer(p, reason) in es ==>
            reason == if Unwelcome(db, p) then BannedIp else TooManyPeers)
  {
    hide Reported, Scores.StateOf, NextBans, NextDisconnected, NextOperation;
    var p := c.peer;
    UnwelcomeIff(db, p);
    SameRoom(db, c.direction, c.limits);
    if !BanStatus(db, p).NotBanned? {
      GoodbyeEvents(db, p, if BanStatus(db, p).ByScore? then BannedPeer else BannedIp, c.now);
      if BanStatus(db, p).ByScore? { AlreadyBanned(db, p, c.now); }
    }
  }

  lemma UnwelcomeIff(db: Db, p: PeerId)
    ensures Unwelcome(db, p) <==> !BanStatus(db, p).NotBanned?
  {
    hide Scores.StateOf;
    if p in db.peers {
      var seen := db.peers[p].seenAddresses;
      if exists a :: a in seen && db.bans.PerIp(a.ip) > 5 {
        var a :| a in seen && db.bans.PerIp(a.ip) > 5;
        assert a.ip in BannedIpsOf(db.bans, seen);
      }
      if BannedIpsOf(db.bans, seen) != {} {
        var ip :| ip in BannedIpsOf(db.bans, seen);
        assert ip in Ips(seen);
      }
    }
  }

  lemma SameRoom(db: Db, direction: ConnectionDirection, limits: PeerLimits)
    ensures HasRoom(db, direction, limits) <==> !LimitReached(db, direction.Incoming?, limits)
  {
    assert UpOrDialingPeers(db) == set p | p in db.peers && (db.peers[p].IsConnected() || db.peers[p].IsDialing());
    assert UpPeers(db) == set p | p in db.peers && db.peers[p].IsConnected();
  }

  lemma GoodbyeEvents(db: Db, p: PeerId, reason: GoodbyeReason, now: Instant)
    requires p in db.peers
    ensures forall e :: e in Goodbye(db, p, reason, now).1 ==>
              !e.PeerConnected? && (e.DisconnectPeer? ==> e.reason == reason)
  {
    hide Updated, Unban, Penalised;
    FatalNeverDisconnects(db.peers[p]);
  }

  /** A fatal report bans or finds the peer banned or trusted; it never merely disconnects. */
  lemma FatalNeverDisconnects(info: PeerInfo)
    ensures !ReportTransition(info, Scores.Fatal).BecameDisconnected?
  {
  }

  lemma AlreadyBanned(db: Db, p: PeerId, now: Instant)
    requires p in db.peers && Scores.StateOf(db.peers[p].score) == Scores.Banned
    ensures Goodbye(db, p, BannedPeer, now).1 == []
  {
    hide Updated, Unban;
  }

  // ---- What the application thinks ----

  /** Whether the last notice about the connections of `p`, if any, was a connection. */
  function LastNotice(es: seq<Event>, p: PeerId): Option<bool>
    decreases |es|
  {
    if es == [] then None
    else
      var e := es[|es| - 1];
      if e.PeerConnected? && e.peer == p then Some(true)
      else if e.PeerDisconnected? && e.peer == p then Some(false)
      else LastNotice(es[..|es| - 1], p)
  }

  lemma {:induction false} LastNoticeOfBoth(es: seq<Event>, es': seq<Event>, p: PeerId)
    ensures LastNotice(es + es', p) == if LastNotice(es', p).Some? then LastNotice(es', p) else LastNotice(es, p)
    decreases |es'|
  {
    if es' == [] {
      assert es + es' == es;
    } else {
      assert (es + es')[..|es + es'| - 1] == es + es'[..|es'| - 1];
      LastNoticeOfBoth(es, es'[..|es'| - 1], p);
    }
  }

  /** Events of one kind only, or of none. */
  lemma {:induction false} NoticesOf(es: seq<Event>, p: PeerId)
    ensures LastNotice(es, p) == Some(true) ==> Admits(es, p, Incoming) || Admits(es, p, Outgoing)
    ensures LastNotice(es, p) == Some(false) ==> PeerDisconnected(p) in es
    ensures LastNotice(es, p).None? ==>
              !Admits(es, p, Incoming) && !Admits(es, p, Outgoing) && PeerDisconnected(p) !in es
    decreases |es|
  {
    if es != [] {
      var n := |es| - 1;
      NoticesOf(es[..n], p);
      forall e
        ensures e in es <==> e in es[..n] || e == es[n]
      {
        assert es == es[..n] + [es[n]];
      }
      if es[n].PeerConnected? && es[n].peer == p {
        match es[n].direction
        case Incoming => assert es[n] == PeerConnected(p, Incoming);
        case Outgoing => assert es[n] == PeerConnected(p, Outgoing);
      }
    }
  }

  /** A dial fails for a peer that is still being disconnected, which nobody is told. */
  predicate LosesNotice(db: Db, c: Call, p: PeerId) {
    c.DialFailed? && c.failed == Some(p) && p in db.peers && db.peers[p].status.Disconnecting?
  }

  /** The peer counts as connected, or its disconnection is under way. */
  predicate StillThere(db: Db, p: PeerId) {
    p in db.peers && (db.peers[p].status.Connected? || db.peers[p].status.Disconnecting?)
  }

  /** The three cases of one step: a connection is announced, the end of the last one, or nothing. */
  lemma NoticeCases(db: Db, c: Call, es: seq<Event>, db': Db, p: PeerId, move: Option<NewConnectionState>)
    requires Explains(db, c, es, db', p, move)
    ensures
      match LastNotice(es, p)
      case Some(connected) =>
        if connected then move.Some? && move.value.ToConnected? else GoesDown(db, c, p) && move == Some(ToDisconnected)
      case None => !(move.Some? && move.value.ToConnected?) && !GoesDown(db, c, p)
  {
    hide StandingIn, MovedBy, Reason, LastNotice;
    NoticesOf(es, p);
    assert Admits(es, p, Incoming) <==> move.Some? && move.value.ToConnected? && move.value.direction.Incoming?;
    assert Admits(es, p, Outgoing) <==> move.Some? && move.value.ToConnected? && move.value.direction.Outgoing?;
  }

  lemma NoticeStep(db: Db, c: Call, es: seq<Event>, db': Db, p: PeerId, move: Option<NewConnectionState>)
    requires Explains(db, c, es, db', p, move) && p in db'.peers
    ensures LastNotice(es, p) == Some(true) ==> IsUp(db', p)
    ensures LastNotice(es, p) == Some(false) ==> !IsUp(db', p)
    ensures LastNotice(es, p).None? && IsUp(db', p) ==> IsUp(db, p)
    ensures LastNotice(es, p).None? && StillThere(db, p) ==> StillThere(db', p) || LosesNotice(db, c, p)
  {
    hide Scores.StateOf, Penalised, ToldToGo, ToldUnbanned, LastNotice, Admits;
    NoticeCases(db, c, es, db', p, move);
    if move.Some? {
      var info := InfoOf(db, p, move.value, TimeOf(c));
      PenalisedStanding(info.(status := NextStatus(info.status, move.value, TimeOf(c))), Scores.Fatal);
    }
  }

  /** The peer is not evicted at that call, and no notice about it is lost. */
  predicate NoticedAt(ss: seq<Sys>, cs: seq<Call>, p: PeerId, i: nat)
    requires i < |cs| && |ss| == |cs| + 1
  {
    (p in ss[i].db.peers ==> p in ss[i + 1].db.peers) && !LosesNotice(ss[i].db, cs[i], p)
  }

  /**
   * Over every run the last notice about a connected peer is its connection; and if the peer was never
   * evicted and no dial failed while it was being disconnected, a peer last noticed as connected is
   * connected or being disconnected.
   */
  lemma {:induction false} NoticesOverRuns(ss: seq<Sys>, cs: seq<Call>, p: PeerId)
    requires IsRun(ss, cs)
    ensures IsUp(ss[|cs|].db, p) ==> LastNotice(ss[|cs|].Log(), p) == Some(true)
    ensures (forall i :: 0 <= i < |cs| ==> NoticedAt(ss, cs, p, i)) ==>
              LastNotice(ss[|cs|].Log(), p) == Some(true) ==> StillThere(ss[|cs|].db, p)
    decreases |cs|
  {
    hide Next, IsStart, ScoresOk, Explains, IsUp, StillThere, LosesNotice, LastNotice;
    if cs == [] {
      NothingNoticed(ss[0], p);
    } else {
      var n := |cs| - 1;
      var ss0, cs0 := ss[..n + 1], cs[..n];
      NoticesOverRuns(ss0, cs0, p);
      ScoresStayOk(ss0, cs0);
      var es, move := StepMoves(ss[n], cs[n], ss[n + 1], p);
      LastNoticeOfBoth(ss[n].Log(), es, p);
      if p in ss[n + 1].db.peers { NoticeStep(ss[n].db, cs[n], es, ss[n + 1].db, p, move); }
      if forall i :: 0 <= i < |cs| ==> NoticedAt(ss, cs, p, i) {
        forall i | 0 <= i < n
          ensures NoticedAt(ss0, cs0, p, i)
        {
          assert NoticedAt(ss, cs, p, i);
        }
        assert NoticedAt(ss, cs, p, n);
        GoneStaysGone(ss[n].db, cs[n], es, ss[n + 1].db, p, move);
      }
      OnlyKnownAreUp(ss[n + 1].db, p);
      if LastNotice(es, p).Some? && !LastNotice(es, p).value { assert LastNotice(es, p) == Some(false); }
    }
  }

  lemma OnlyKnownAreUp(db: Db, p: PeerId)
    ensures p !in db.peers ==> !IsUp(db, p) && !StillThere(db, p)
    ensures IsUp(db, p) ==> StillThere(db, p)
  {
  }

  lemma NothingNoticed(s: Sys, p: PeerId)
    requires IsStart(s)
    ensures !IsUp(s.db, p) && LastNotice(s.Log(), p).None?
  {
    assert s.Log() == [];
    StartsDown(s, p);
  }

  /** A peer unknown after a call that evicts nobody was neither admitted by it nor there before. */
  lemma GoneStaysGone(db: Db, c: Call, es: seq<Event>, db': Db, p: PeerId, move: Option<NewConnectionState>)
    requires Explains(db, c, es, db', p, move) && (p in db.peers ==> p in db'.peers)
    ensures p !in db'.peers ==> LastNotice(es, p) != Some(true) && !StillThere(db, p)
  {
    hide StandingIn, MovedBy, LastNotice;
    NoticeCases(db, c, es, db', p, move);
  }

  // ---- Dials that take too long ----

  /** The cleanup disconnects exactly the peers that have been dialed for more than fifteen seconds. */
  lemma CleanupIff(db: Db, c: Call, es: seq<Event>, db': Db, p: PeerId)
    requires c.CleanupDialing? && Does(db, c, es, db') && p in db.peers
    ensures p in db'.peers
    ensures
      if db.peers[p].status.Dialing? && db.peers[p].status.since + 15 * NANOS_PER_SEC < c.now
      then db'.peers[p].status == Disconnected(c.now) else db'.peers[p] == db.peers[p]
  {
    hide AllDisconnected;
    var order :| IsOverdueOrder(db, c.now, order) && db' == AllDisconnected(db, order, c.now);
    DisconnectsMove(db, order, c.now, p);
  }

  // ---- What is remembered besides ----

  lemma DisconnectionForgets(db: Db, p: PeerId, now: Instant, es: seq<Event>, db': Db)
    requires Disconnection(db, p, now, es, db') && p in db'.peers
    ensures db'.peers[p].subnets == {}
    ensures p in db.peers ==> db'.peers[p] == db.peers[p].(status := db'.peers[p].status, subnets := {})
  {
    hide NextStatus, NextBans, NextDisconnected, NextOperation, Shrunk;
    var purged :|
      && Shrunk(Updated(db, p, ToDisconnected, now).0, db', purged)
      && es == OpEvents(p, Updated(db, p, ToDisconnected, now).1, None) + PurgeEvents(purged);
    EvictionBounded(Updated(db, p, ToDisconnected, now).0, db', purged);
  }

  /** A peer whose connection is gone keeps its record, except for its state and its subnet subscriptions. */
  lemma ClosedForgetsSubnets(db: Db, c: Call, es: seq<Event>, db': Db, p: PeerId)
    requires Closes(db, c, p) && Does(db, c, es, db') && p in db'.peers
    ensures db'.peers[p].subnets == {}
    ensures p in db.peers ==> db'.peers[p] == db.peers[p].(status := db'.peers[p].status, subnets := {})
  {
    hide Disconnection;
    if c.Closed? {
      var noise := if p in db.peers && (db.peers[p].status.Connected? || db.peers[p].status.Disconnecting?)
                   then [PeerDisconnected(p)] else [];
      var tail :| Disconnection(db, p, c.now, tail, db') && es == noise + tail;
      DisconnectionForgets(db, p, c.now, tail, db');
    } else {
      DisconnectionForgets(db, p, c.now, es, db');
    }
  }

  /**
   * Dialing records the ENR if one is given and marks the peer as trusted if it is dialed as such; a
   * trusted peer not known before gets the highest score.
   */
  lemma DialRemembers(db: Db, c: Call, es: seq<Event>, db': Db)
    requires c.Dial? && Does(db, c, es, db')
    ensures
      var p := c.peer;
      && p in db'.peers
      && (c.enr.Some? ==> db'.peers[p].enr == c.enr)
      && (c.enr.None? && p in db.peers ==> db'.peers[p].enr == db.peers[p].enr)
      && (db'.peers[p].isTrusted <==> c.trusted || (p in db.peers && db.peers[p].isTrusted))
      && (p !in db.peers ==> (db'.peers[p].score.Max? <==> c.trusted))
      && (p in db.peers ==> db'.peers[p].score == db.peers[p].score)
  {
    hide NextStatus, NextBans, NextDisconnected, NextOperation;
  }
}
