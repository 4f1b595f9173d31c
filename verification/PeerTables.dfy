/** src/peer_manager/peerdb.rs: connection state transitions and the counters that summarise them. */
module PeerTables {
  import opened Common
  import opened Sums
  import opened PeerInfos
  import Scores

  const MAX_DC_PEERS: nat := 500
  const MAX_BANNED_PEERS: nat := 1000
  const BANNED_PEERS_PER_IP_THRESHOLD: nat := 5

  /** A requested connection state; the address is the socket address read off the multiaddr, if any. */
  datatype NewConnectionState =
    | ToConnected(enr: Option<Enr>, seen: Option<SocketAddr>, direction: ConnectionDirection)
    | ToDisconnecting(toBan: bool)
    | ToDialing(enr: Option<Enr>, trusted: bool)
    | ToDisconnected
    | ToBanned
    | ToUnbanned

  datatype BanOperation = DisconnectThePeer | ReadyToBan(ips: set<IpAddr>) | PeerDisconnecting

  /** Banned peers in total and per IP address. */
  datatype BannedPeersCount = BannedPeersCount(bannedPeers: nat, perIp: map<IpAddr, nat>)
  {
    function PerIp(ip: IpAddr): nat { if ip in perIp then perIp[ip] else 0 }

    predicate IpIsBanned(ip: IpAddr) { PerIp(ip) > BANNED_PEERS_PER_IP_THRESHOLD }
  }

  const NoBans: BannedPeersCount := BannedPeersCount(0, map[])

  datatype Db = Db(peers: map<PeerId, PeerInfo>, disconnected: nat, bans: BannedPeersCount)

  // ---- Counting bans per address ----

  function Ips(seen: set<SocketAddr>): set<IpAddr> { set a | a in seen :: a.ip }

  /** Seen socket addresses with that IP address. */
  function AddrCount(seen: set<SocketAddr>, ip: IpAddr): nat { |set a | a in seen && a.ip == ip| }

  function BanAdded(b: BannedPeersCount, seen: set<SocketAddr>): BannedPeersCount {
    BannedPeersCount(b.bannedPeers + 1, map ip | ip in b.perIp.Keys + Ips(seen) :: b.PerIp(ip) + AddrCount(seen, ip))
  }

  function BanRemoved(b: BannedPeersCount, seen: set<SocketAddr>): BannedPeersCount {
    BannedPeersCount(SatSub(b.bannedPeers, 1), map ip | ip in b.perIp :: SatSub(b.perIp[ip], AddrCount(seen, ip)))
  }

  lemma AddrCountSplit(seen: set<SocketAddr>, rest: set<SocketAddr>, a: SocketAddr, ip: IpAddr)
    requires a in rest && rest <= seen
    ensures AddrCount(seen - (rest - {a}), ip) == AddrCount(seen - rest, ip) + if a.ip == ip then 1 else 0
  {
    var before := set x | x in seen - rest && x.ip == ip;
    var after := set x | x in seen - (rest - {a}) && x.ip == ip;
    if a.ip == ip {
      assert after == before + {a};
    } else {
      assert after == before;
    }
  }

  lemma SeenIp(seen: set<SocketAddr>, ip: IpAddr)
    ensures ip in Ips(seen) <==> AddrCount(seen, ip) > 0
  {
    var s := set a | a in seen && a.ip == ip;
    if ip in Ips(seen) {
      var a :| a in seen && a.ip == ip;
      assert a in s;
    }
    if s != {} {
      var a :| a in s;
    }
  }

  method AddBannedPeer(b: BannedPeersCount, seen: set<SocketAddr>) returns (r: BannedPeersCount)
    ensures r == BanAdded(b, seen)
  {
    hide AddrCount;
    var perIp := b.perIp;
    var rest := seen;
    assert Ips(seen - rest) == {};
    forall ip
      ensures AddrCount(seen - rest, ip) == 0
    {
      SeenIp(seen - rest, ip);
    }
    while rest != {}
      invariant rest <= seen && perIp.Keys == b.perIp.Keys + Ips(seen - rest)
      invariant forall ip :: ip in perIp ==> perIp[ip] == b.PerIp(ip) + AddrCount(seen - rest, ip)
    {
      var a :| a in rest;
      forall ip
        ensures AddrCount(seen - (rest - {a}), ip) == AddrCount(seen - rest, ip) + if a.ip == ip then 1 else 0
      {
        AddrCountSplit(seen, rest, a, ip);
      }
      SeenIp(seen - rest, a.ip);
      perIp := perIp[a.ip := (if a.ip in perIp then perIp[a.ip] else 0) + 1];
      assert Ips(seen - (rest - {a})) == Ips(seen - rest) + {a.ip};
      rest := rest - {a};
    }
    assert seen - rest == seen;
    r := BannedPeersCount(b.bannedPeers + 1, perIp);
  }

  method RemoveBannedPeer(b: BannedPeersCount, seen: set<SocketAddr>) returns (r: BannedPeersCount)
    ensures r == BanRemoved(b, seen)
  {
    var perIp := b.perIp;
    var rest := seen;
    while rest != {}
      invariant rest <= seen && perIp.Keys == b.perIp.Keys
      invariant forall ip :: ip in perIp ==> perIp[ip] == SatSub(b.perIp[ip], AddrCount(seen - rest, ip))
    {
      var a :| a in rest;
      forall ip
        ensures AddrCount(seen - (rest - {a}), ip) == AddrCount(seen - rest, ip) + if a.ip == ip then 1 else 0
      {
        AddrCountSplit(seen, rest, a, ip);
      }
      if a.ip in perIp {
        perIp := perIp[a.ip := SatSub(perIp[a.ip], 1)];
      }
      rest := rest - {a};
    }
    assert seen - rest == seen;
    r := BannedPeersCount(SatSub(b.bannedPeers, 1), perIp);
  }

  // ---- The transition table ----

  /** `u8` addition of one. */
  function Bump(n: nat): nat { (n + 1) % 256 }

  function NextStatus(old_: PeerConnectionStatus, req: NewConnectionState, now: Instant): PeerConnectionStatus {
    match req
    case ToConnected(_, _, Incoming) =>
      if old_.Connected? then Connected(Bump(old_.nIn), old_.nOut) else Connected(1, 0)
    case ToConnected(_, _, Outgoing) =>
      if old_.Connected? then Connected(old_.nIn, Bump(old_.nOut)) else Connected(0, 1)
    case ToDialing(_, _) =>
      if old_.Connected? || old_.Dialing? || old_.Disconnecting? then old_ else Dialing(now)
    case ToDisconnected =>
      if old_.Banned? || old_.Disconnected? then old_
      else if old_ == Disconnecting(true) then Banned(now)
      else Disconnected(now)
    case ToDisconnecting(toBan) => Disconnecting(toBan)
    case ToBanned =>
      if old_.Disconnected? || old_.Unknown? then Banned(now)
      else if old_.Banned? then old_
      else Disconnecting(true)
    case ToUnbanned => if old_.Banned? then Disconnected(old_.since) else old_
  }

  function Penalised(info: PeerInfo, action: Scores.PeerAction): PeerInfo {
    if info.isTrusted || info.score.Max? then info
    else info.(score := Scores.Real(Scores.ActionApplied(info.score.value, action)))
  }

  /** The peer's record after a requested transition. */
  function NextInfo(info: PeerInfo, req: NewConnectionState, now: Instant): PeerInfo {
    var moved := info.(status := NextStatus(info.status, req, now));
    match req
    case ToConnected(enr, seen, direction) =>
      moved.(enr := if enr.Some? then enr else moved.enr,
             direction := if info.status.Connected? then moved.direction else Some(direction),
             seenAddresses := moved.seenAddresses + if seen.Some? then {seen.value} else {})
    case ToDialing(enr, trusted) =>
      moved.(enr := if enr.Some? then enr else moved.enr, isTrusted := moved.isTrusted || trusted)
    case ToDisconnected => moved.(subnets := {})
    case ToBanned => if Scores.StateOf(info.score) == Scores.Banned then moved else Penalised(moved, Scores.Fatal)
    case _ => moved
  }

  function InfoOf(db: Db, p: PeerId, req: NewConnectionState, now: Instant): PeerInfo {
    if p in db.peers then db.peers[p]
    else if req.ToDialing? && req.trusted then TrustedPeerInfo(now)
    else DefaultPeerInfo(now)
  }

  /** A banned peer told to disconnect leaves the ban counts as they are. */
  predicate Leaks(db: Db, p: PeerId, req: NewConnectionState) {
    p in db.peers && db.peers[p].status.Banned? && req.ToDisconnecting?
  }

  function NextBans(b: BannedPeersCount, info: PeerInfo, info': PeerInfo, req: NewConnectionState): BannedPeersCount {
    if info.status.Banned? && !info'.status.Banned? && !req.ToDisconnecting? then BanRemoved(b, info.seenAddresses)
    else if !info.status.Banned? && info'.status.Banned? then BanAdded(b, info.seenAddresses)
    else b
  }

  function NextDisconnected(n: nat, info: PeerInfo, info': PeerInfo): nat {
    if info.status.Disconnected? && !info'.status.Disconnected? then SatSub(n, 1)
    else if !info.status.Disconnected? && info'.status.Disconnected? then n + 1
    else n
  }

  function BannedIpsOf(b: BannedPeersCount, seen: set<SocketAddr>): set<IpAddr> {
    set ip | ip in Ips(seen) && b.IpIsBanned(ip)
  }

  function NextOperation(old_: PeerConnectionStatus, info': PeerInfo, req: NewConnectionState, b': BannedPeersCount)
    : Option<BanOperation>
  {
    if req.ToBanned? && (old_.Connected? || old_.Dialing?) then Some(DisconnectThePeer)
    else if req.ToBanned? && old_.Disconnecting? then Some(PeerDisconnecting)
    else if info'.status.Banned? && (req.ToBanned? || (req.ToDisconnected? && !old_.Banned?))
    then Some(ReadyToBan(BannedIpsOf(b', info'.seenAddresses)))
    else None
  }

  /** `update_connection_state`, as a table. */
  function Updated(db: Db, p: PeerId, req: NewConnectionState, now: Instant): (Db, Option<BanOperation>) {
    var info := InfoOf(db, p, req, now);
    var info' := NextInfo(info, req, now);
    var bans' := NextBans(db.bans, info, info', req);
    (Db(db.peers[p := info'], NextDisconnected(db.disconnected, info, info'), bans'),
     NextOperation(info.status, info', req, bans'))
  }

  // ---- What the counters should say ----

  function DisconnectedWeight(): PeerInfo -> nat {
    (info: PeerInfo) => if info.status.Disconnected? then 1 else 0
  }

  function BannedWeight(): PeerInfo -> nat {
    (info: PeerInfo) => if info.status.Banned? then 1 else 0
  }

  function IpWeight(ip: IpAddr): PeerInfo -> nat {
    (info: PeerInfo) => if info.status.Banned? then AddrCount(info.seenAddresses, ip) else 0
  }

  ghost function DisconnectedIn(db: Db): nat { MapSum(db.peers, DisconnectedWeight()) }

  ghost function BannedIn(db: Db): nat { MapSum(db.peers, BannedWeight()) }

  /** Over the banned peers, the seen socket addresses with that IP address. */
  ghost function BannedOn(db: Db, ip: IpAddr): nat { MapSum(db.peers, IpWeight(ip)) }

  /** By how much the ban counters exceed the truth. */
  ghost function Excess(db: Db): int { db.bans.bannedPeers - BannedIn(db) }

  ghost function ExcessOn(db: Db, ip: IpAddr): int { db.bans.PerIp(ip) - BannedOn(db, ip) }

  /** The disconnected count is exact and the ban counts never fall short. */
  ghost predicate Counted(db: Db) {
    && db.disconnected == DisconnectedIn(db)
    && Excess(db) >= 0
    && (forall ip :: ExcessOn(db, ip) >= 0)
  }

  lemma AddedPerIp(b: BannedPeersCount, seen: set<SocketAddr>, ip: IpAddr)
    ensures BanAdded(b, seen).PerIp(ip) == b.PerIp(ip) + AddrCount(seen, ip)
  {
    SeenIp(seen, ip);
  }

  lemma RemovedPerIp(b: BannedPeersCount, seen: set<SocketAddr>, ip: IpAddr)
    ensures BanRemoved(b, seen).PerIp(ip) == SatSub(b.PerIp(ip), AddrCount(seen, ip))
  {
  }

  /** One peer's share of a sum is at most the sum. */
  lemma ShareOf(db: Db, p: PeerId, w: PeerInfo -> nat)
    requires p in db.peers
    ensures w(db.peers[p]) <= MapSum(db.peers, w)
  {
    MapSumRemove(db.peers, p, w);
  }

  lemma DisconnectedAfterUpdate(db: Db, p: PeerId, req: NewConnectionState, now: Instant)
    requires db.disconnected == DisconnectedIn(db)
    ensures Updated(db, p, req, now).0.disconnected == DisconnectedIn(Updated(db, p, req, now).0)
  {
    hide NextBans, NextOperation;
    var info := InfoOf(db, p, req, now);
    MapSumUpdate(db.peers, p, NextInfo(info, req, now), DisconnectedWeight());
    if p in db.peers {
      ShareOf(db, p, DisconnectedWeight());
    }
  }

  /** Addresses of a peer change only while it is not banned, or in the step that lifts the ban. */
  lemma SeenKeptWhileBanned(info: PeerInfo, req: NewConnectionState, now: Instant)
    requires NextInfo(info, req, now).status.Banned?
    ensures NextInfo(info, req, now).seenAddresses == info.seenAddresses
  {
  }

  lemma ExcessAfterUpdate(db: Db, p: PeerId, req: NewConnectionState, now: Instant)
    requires Excess(db) >= 0
    ensures Excess(Updated(db, p, req, now).0) == Excess(db) + if Leaks(db, p, req) then 1 else 0
  {
    hide NextOperation;
    var info := InfoOf(db, p, req, now);
    MapSumUpdate(db.peers, p, NextInfo(info, req, now), BannedWeight());
    if p in db.peers {
      ShareOf(db, p, BannedWeight());
    }
  }

  lemma ExcessOnAfterUpdate(db: Db, p: PeerId, req: NewConnectionState, now: Instant, ip: IpAddr)
    requires ExcessOn(db, ip) >= 0
    ensures ExcessOn(Updated(db, p, req, now).0, ip)
         == ExcessOn(db, ip) + if Leaks(db, p, req) then AddrCount(db.peers[p].seenAddresses, ip) else 0
  {
    hide NextOperation, BanAdded, BanRemoved, AddrCount;
    var info := InfoOf(db, p, req, now);
    var info' := NextInfo(info, req, now);
    MapSumUpdate(db.peers, p, info', IpWeight(ip));
    AddedPerIp(db.bans, info.seenAddresses, ip);
    RemovedPerIp(db.bans, info.seenAddresses, ip);
    if p in db.peers {
      ShareOf(db, p, IpWeight(ip));
    }
    if info'.status.Banned? {
      SeenKeptWhileBanned(info, req, now);
    }
  }

  /** Every transition keeps the counters honest. */
  lemma UpdateKeepsCounted(db: Db, p: PeerId, req: NewConnectionState, now: Instant)
    requires Counted(db)
    ensures Counted(Updated(db, p, req, now).0)
  {
    hide Updated;
    DisconnectedAfterUpdate(db, p, req, now);
    ExcessAfterUpdate(db, p, req, now);
    forall ip
      ensures ExcessOn(Updated(db, p, req, now).0, ip) >= 0
    {
      ExcessOnAfterUpdate(db, p, req, now, ip);
    }
  }

  // ---- Eviction ----

  /** The entry's age counts against it if it is of that kind. */
  datatype Kind = BannedKind | DisconnectedKind

  function Since(info: PeerInfo): Instant {
    if info.status.Banned? || info.status.Disconnected? then info.status.since else 0
  }

  predicate IsKind(info: PeerInfo, kind: Kind) {
    if kind.BannedKind? then info.status.Banned? else info.status.Disconnected?
  }

  predicate IsOldest(peers: map<PeerId, PeerInfo>, kind: Kind, p: PeerId) {
    && p in peers && IsKind(peers[p], kind)
    && forall q :: q in peers && IsKind(peers[q], kind) ==> Since(peers[p]) <= Since(peers[q])
  }

  lemma {:induction false} OldestExists(peers: map<PeerId, PeerInfo>, kind: Kind, among: set<PeerId>)
    returns (p: PeerId)
    requires among != {} && forall q :: q in among ==> q in peers && IsKind(peers[q], kind)
    ensures p in among && forall q :: q in among ==> Since(peers[p]) <= Since(peers[q])
    decreases among
  {
    var y :| y in among;
    p := y;
    if among != {y} {
      assert among - {y} < among;
      var r := OldestExists(peers, kind, among - {y});
      if Since(peers[r]) < Since(peers[y]) {
        p := r;
      }
    }
  }

  /** Only the oldest entries of one kind were dropped; everything else is as it was. */
  ghost predicate DroppedOldest(before: map<PeerId, PeerInfo>, after: map<PeerId, PeerInfo>, kind: Kind) {
    && (forall p :: p in after ==> p in before && after[p] == before[p])
    && (forall p :: p in before && p !in after ==> IsKind(before[p], kind))
    && (forall p, q :: p in before && p !in after && q in after && IsKind(after[q], kind) ==>
          Since(before[p]) <= Since(after[q]))
  }

  lemma DropOne(before: map<PeerId, PeerInfo>, after: map<PeerId, PeerInfo>, kind: Kind, p: PeerId)
    requires DroppedOldest(before, after, kind) && IsOldest(after, kind, p)
    ensures DroppedOldest(before, after - {p}, kind)
  {
  }

  /** The counters after dropping one entry together with its share. */
  lemma DropBanned(db: Db, p: PeerId)
    requires Counted(db) && p in db.peers && db.peers[p].status.Banned?
    ensures
      var db' := Db(db.peers - {p}, db.disconnected, BanRemoved(db.bans, db.peers[p].seenAddresses));
      Counted(db') && Excess(db') == Excess(db) && (forall ip :: ExcessOn(db', ip) == ExcessOn(db, ip))
      && BannedIn(db') == BannedIn(db) - 1
  {
    hide BanRemoved, AddrCount;
    MapSumRemove(db.peers, p, DisconnectedWeight());
    MapSumRemove(db.peers, p, BannedWeight());
    var db' := Db(db.peers - {p}, db.disconnected, BanRemoved(db.bans, db.peers[p].seenAddresses));
    BanRemovedTotal(db.bans, db.peers[p].seenAddresses);
    forall ip
      ensures ExcessOn(db', ip) == ExcessOn(db, ip)
    {
      MapSumRemove(db.peers, p, IpWeight(ip));
      RemovedPerIp(db.bans, db.peers[p].seenAddresses, ip);
    }
  }

  lemma BanRemovedTotal(b: BannedPeersCount, seen: set<SocketAddr>)
    ensures BanRemoved(b, seen).bannedPeers == SatSub(b.bannedPeers, 1)
  {
  }

  lemma DropDisconnected(db: Db, p: PeerId)
    requires Counted(db) && p in db.peers && db.peers[p].status.Disconnected?
    ensures
      var db' := Db(db.peers - {p}, SatSub(db.disconnected, 1), db.bans);
      Counted(db') && Excess(db') == Excess(db) && (forall ip :: ExcessOn(db', ip) == ExcessOn(db, ip))
  {
    hide AddrCount;
    var db' := Db(db.peers - {p}, SatSub(db.disconnected, 1), db.bans);
    MapSumRemove(db.peers, p, DisconnectedWeight());
    MapSumRemove(db.peers, p, BannedWeight());
    forall ip
      ensures ExcessOn(db', ip) == ExcessOn(db, ip)
    {
      MapSumRemove(db.peers, p, IpWeight(ip));
    }
  }

  /** With no banned peer in the database the counters are reset, which makes them exact. */
  lemma ResetBans(db: Db)
    requires Counted(db) && forall p :: p in db.peers ==> !db.peers[p].status.Banned?
    ensures BannedIn(db) == 0
    ensures
      var db' := db.(bans := NoBans);
      Counted(db') && Excess(db') == 0 && (forall ip :: ExcessOn(db', ip) == 0)
  {
    hide AddrCount;
    var db' := db.(bans := NoBans);
    MapSumZero(db.peers, BannedWeight());
    forall ip
      ensures ExcessOn(db', ip) == 0
    {
      MapSumZero(db.peers, IpWeight(ip));
    }
  }

  type Purged = seq<(PeerId, set<IpAddr>)>

  /** `purged` names each of the dropped peers once. */
  ghost predicate Names(purged: Purged, before: map<PeerId, PeerInfo>, after: map<PeerId, PeerInfo>) {
    && (forall i, j :: 0 <= i < j < |purged| ==> purged[i].0 != purged[j].0)
    && (forall i :: 0 <= i < |purged| ==> purged[i].0 in before && purged[i].0 !in after)
    && (forall p :: p in before && p !in after ==> exists i :: 0 <= i < |purged| && purged[i].0 == p)
  }

  /** The addresses among those seen that are not banned. */
  function UnbannedIpsOf(b: BannedPeersCount, seen: set<SocketAddr>): set<IpAddr> {
    set ip | ip in Ips(seen) && !b.IpIsBanned(ip)
  }

  /** The ban counts after dropping the listed peers one after the other. */
  function BansAfter(db: Db, purged: Purged): BannedPeersCount
    decreases |purged|
  {
    if purged == [] then db.bans
    else
      var n := |purged| - 1;
      var b := BansAfter(db, purged[..n]);
      if purged[n].0 in db.peers then BanRemoved(b, db.peers[purged[n].0].seenAddresses) else b
  }

  /** The IP addresses among the seen ones on which at most five bans are counted. */
  ghost predicate AreFree(b: BannedPeersCount, seen: set<SocketAddr>, ips: set<IpAddr>) {
    forall ip :: ip in ips <==> (exists a :: a in seen && a.ip == ip) && b.PerIp(ip) <= 5
  }

  lemma UnbannedIpsAre(b: BannedPeersCount, seen: set<SocketAddr>)
    ensures AreFree(b, seen, UnbannedIpsOf(b, seen))
  {
    forall ip
      ensures ip in Ips(seen) <==> exists a :: a in seen && a.ip == ip
    {
    }
  }

  /** Each dropped peer comes with those of its addresses that are not banned once it is gone. */
  ghost predicate ReportsIps(db: Db, purged: Purged) {
    forall i :: 0 <= i < |purged| ==>
      && purged[i].0 in db.peers
      && AreFree(BansAfter(db, purged[..i + 1]), db.peers[purged[i].0].seenAddresses, purged[i].1)
  }

  lemma ReportOneMore(db: Db, purged: Purged, p: PeerId)
    requires ReportsIps(db, purged) && p in db.peers
    ensures
      var b := BanRemoved(BansAfter(db, purged), db.peers[p].seenAddresses);
      var purged' := purged + [(p, UnbannedIpsOf(b, db.peers[p].seenAddresses))];
      BansAfter(db, purged') == b && ReportsIps(db, purged')
  {
    hide BanRemoved, UnbannedIpsOf, AreFree;
    var b := BanRemoved(BansAfter(db, purged), db.peers[p].seenAddresses);
    UnbannedIpsAre(b, db.peers[p].seenAddresses);
    var purged' := purged + [(p, UnbannedIpsOf(b, db.peers[p].seenAddresses))];
    assert purged'[..|purged|] == purged && purged'[..|purged'|] == purged';
    forall i | 0 <= i < |purged|
      ensures purged'[i] == purged[i] && purged'[..i + 1] == purged[..i + 1]
    {
    }
  }

  /** The first loop of `shrink_to_fit`: at most a thousand banned peers are remembered. */
  ghost predicate BansShrunk(db: Db, db': Db, purged: Purged) {
    && Counted(db') && db'.disconnected == db.disconnected
    && db'.bans.bannedPeers <= MAX_BANNED_PEERS
    && DroppedOldest(db.peers, db'.peers, BannedKind)
    && Names(purged, db.peers, db'.peers) && ReportsIps(db, purged)
    && |purged| == Min(SatSub(db.bans.bannedPeers, MAX_BANNED_PEERS), BannedIn(db))
    && (if Excess(db) > MAX_BANNED_PEERS then Excess(db') == 0 && (forall ip :: ExcessOn(db', ip) == 0)
        else Excess(db') == Excess(db) && (forall ip :: ExcessOn(db', ip) == ExcessOn(db, ip)))
  }

  /** The second loop: at most five hundred disconnected peers are remembered. */
  ghost predicate DisconnectedShrunk(db: Db, db': Db) {
    && Counted(db') && db'.bans == db.bans
    && db'.disconnected == Min(db.disconnected, MAX_DC_PEERS)
    && DroppedOldest(db.peers, db'.peers, DisconnectedKind)
    && Excess(db') == Excess(db) && (forall ip :: ExcessOn(db', ip) == ExcessOn(db, ip))
  }

  ghost predicate Shrunk(db: Db, db': Db, purged: Purged) {
    exists mid :: BansShrunk(db, mid, purged) && DisconnectedShrunk(mid, db')
  }

  lemma NothingDropped(peers: map<PeerId, PeerInfo>, kind: Kind)
    ensures DroppedOldest(peers, peers, kind) && Names([], peers, peers)
  {
  }

  lemma OldestOfKind(peers: map<PeerId, PeerInfo>, kind: Kind)
    requires exists p :: p in peers && IsKind(peers[p], kind)
    ensures exists p :: p in peers && IsOldest(peers, kind, p)
  {
    var among := set p | p in peers && IsKind(peers[p], kind);
    var y :| y in peers && IsKind(peers[y], kind);
    assert y in among;
    var p := OldestExists(peers, kind, among);
    assert IsOldest(peers, kind, p);
  }

  lemma OldestIsKind(peers: map<PeerId, PeerInfo>, kind: Kind, p: PeerId)
    requires IsOldest(peers, kind, p)
    ensures p in peers && IsKind(peers[p], kind)
  {
  }

  lemma DropNames(purged: Purged, before: map<PeerId, PeerInfo>, after: map<PeerId, PeerInfo>, p: PeerId, kind: Kind)
    requires Names(purged, before, after) && DroppedOldest(before, after, kind) && p in after
    ensures forall ips :: Names(purged + [(p, ips)], before, after - {p})
  {
    forall ips
      ensures Names(purged + [(p, ips)], before, after - {p})
    {
      var purged' := purged + [(p, ips)];
      forall q | q in before && q !in after - {p}
        ensures exists i :: 0 <= i < |purged'| && purged'[i].0 == q
      {
        if q == p {
          assert purged'[|purged|].0 == q;
        } else {
          var i :| 0 <= i < |purged| && purged[i].0 == q;
          assert purged'[i].0 == q;
        }
      }
    }
  }

  lemma NoneBanned(db: Db)
    requires Counted(db) && forall p :: p in db.peers ==> !db.peers[p].status.Banned?
    ensures BannedIn(db) == 0 && Excess(db) == db.bans.bannedPeers
  {
    MapSumZero(db.peers, BannedWeight());
  }

  lemma ExcessAtMostTotal(db: Db)
    ensures Excess(db) <= db.bans.bannedPeers
  {
  }

  lemma SomeDisconnected(db: Db)
    requires Counted(db) && db.disconnected > 0
    ensures exists p :: p in db.peers && db.peers[p].status.Disconnected?
  {
    MapSumZero(db.peers, DisconnectedWeight());
  }

  lemma BansShrunkCounted(db: Db, db': Db, purged: Purged)
    requires BansShrunk(db, db', purged)
    ensures Counted(db')
  {
  }

  function Fresh(trusted: set<PeerId>, now: Instant): Db {
    Db(map p | p in trusted :: TrustedPeerInfo(now), 0, NoBans)
  }

  // ---- Consequences ----

  /** Every counter says exactly what the map says. */
  ghost predicate Exact(db: Db) {
    Counted(db) && Excess(db) == 0 && forall ip :: ExcessOn(db, ip) == 0
  }

  predicate IsBanned(db: Db, p: PeerId) { p in db.peers && db.peers[p].status.Banned? }

  function OfKind(db: Db, kind: Kind): set<PeerId> { set p | p in db.peers && IsKind(db.peers[p], kind) }

  function KindWeight(kind: Kind): PeerInfo -> nat {
    if kind.BannedKind? then BannedWeight() else DisconnectedWeight()
  }

  /** The sums behind the counters are numbers of peers. */
  lemma KindCount(db: Db, kind: Kind)
    ensures |OfKind(db, kind)| == MapSum(db.peers, KindWeight(kind))
  {
    MapSumCounts(db.peers, KindWeight(kind), OfKind(db, kind));
  }

  /**
   * Eviction is bounded, ordered and reported: at most 1000 banned and 500 disconnected peers
   * remain, every dropped peer is at least as old as every survivor of its kind, all other entries
   * are untouched, and the report names exactly the dropped banned peers, each with those of its
   * addresses that are not banned once it is gone.
   */
  lemma EvictionBounded(db: Db, db': Db, purged: Purged)
    requires Shrunk(db, db', purged)
    ensures |OfKind(db', BannedKind)| <= MAX_BANNED_PEERS && |OfKind(db', DisconnectedKind)| <= MAX_DC_PEERS
    ensures forall p :: p in db'.peers ==> p in db.peers && db'.peers[p] == db.peers[p]
    ensures forall p, q, kind ::
              (p in db.peers && p !in db'.peers && IsKind(db.peers[p], kind)
               && q in db'.peers && IsKind(db'.peers[q], kind)) ==>
                Since(db.peers[p]) <= Since(db'.peers[q])
    ensures forall p :: p in db.peers && p !in db'.peers ==> exists kind :: IsKind(db.peers[p], kind)
    ensures forall p :: IsBanned(db, p) && p !in db'.peers <==> exists i :: 0 <= i < |purged| && purged[i].0 == p
    ensures forall i, j :: 0 <= i < j < |purged| ==> purged[i].0 != purged[j].0
    ensures ReportsIps(db, purged)
  {
    hide BansShrunk, DisconnectedShrunk, ReportsIps;
    var mid :| BansShrunk(db, mid, purged) && DisconnectedShrunk(mid, db');
    KindCount(db', BannedKind);
    KindCount(db', DisconnectedKind);
    ShrunkCounts(db, mid, db', purged);
    BansShrunkDrops(db, mid, purged);
    DisconnectedShrunkDrops(mid, db');
  }

  lemma ShrunkCounts(db: Db, mid: Db, db': Db, purged: Purged)
    requires BansShrunk(db, mid, purged) && DisconnectedShrunk(mid, db')
    ensures BannedIn(db') <= MAX_BANNED_PEERS && DisconnectedIn(db') <= MAX_DC_PEERS
  {
  }

  lemma BansShrunkDrops(db: Db, mid: Db, purged: Purged)
    requires BansShrunk(db, mid, purged)
    ensures DroppedOldest(db.peers, mid.peers, BannedKind) && Names(purged, db.peers, mid.peers)
    ensures ReportsIps(db, purged)
  {
  }

  lemma DisconnectedShrunkDrops(mid: Db, db': Db)
    requires DisconnectedShrunk(mid, db')
    ensures DroppedOldest(mid.peers, db'.peers, DisconnectedKind)
  {
  }
}
