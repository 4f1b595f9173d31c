/** src/peer_manager/peerdb/peer_info.rs: what is known about one peer. */
module PeerInfos {
  import opened Common
  import opened Scores

  datatype ConnectionDirection = Incoming | Outgoing

  datatype PeerConnectionStatus =
    | Connected(nIn: nat, nOut: nat)
    | Disconnecting(toBan: bool)
    | Disconnected(since: Instant)
    | Banned(since: Instant)
    | Dialing(since: Instant)
    | Unknown

  /** The subnet bitfields of METADATA; version 1 carries no `syncnets`. */
  datatype MetaData = MetaData(attnets: seq<bool>, syncnets: Option<seq<bool>>)

  /** The subnet bitfields of an ENR; either may fail to decode. */
  datatype Enr = Enr(attnets: Option<seq<bool>>, syncnets: Option<seq<bool>>)

  function OrEmpty(bits: Option<seq<bool>>): seq<bool> {
    if bits.Some? then bits.value else []
  }

  predicate IsSet(bits: seq<bool>, i: nat) { i < |bits| && bits[i] }

  predicate IsZero(bits: seq<bool>) { forall i :: 0 <= i < |bits| ==> !bits[i] }

  /** The number of set bits. */
  function NumSetBits(bits: seq<bool>): nat {
    if bits == [] then 0 else NumSetBits(bits[..|bits| - 1]) + if bits[|bits| - 1] then 1 else 0
  }

  /** The position of the last set bit, if any bit is set. */
  function HighestSetBit(bits: seq<bool>): (r: Option<nat>)
    ensures r.Some? ==> IsSet(bits, r.value)
    ensures forall i: nat :: IsSet(bits, i) ==> r.Some? && i <= r.value
  {
    if bits == [] then None
    else if bits[|bits| - 1] then Some(|bits| - 1)
    else
      assert forall i: nat :: IsSet(bits, i) ==> IsSet(bits[..|bits| - 1], i);
      HighestSetBit(bits[..|bits| - 1])
  }

  datatype PeerInfo = PeerInfo(
    score: Score,
    status: PeerConnectionStatus,
    seenAddresses: set<SocketAddr>,
    metaData: Option<MetaData>,
    subnets: set<Subnet>,
    minTtl: Option<Instant>,
    isTrusted: bool,
    direction: Option<ConnectionDirection>,
    enr: Option<Enr>)
  {
    predicate IsConnected() { status.Connected? }

    predicate IsDialing() { status.Dialing? }

    predicate IsOutboundOnly() { status.Connected? && status.nIn == 0 && status.nOut > 0 }

    predicate HasFutureDuty(now: Instant) { minTtl.Some? && minTtl.value >= now }

    /** The attestation subnets the peer advertises: METADATA first, then the ENR. */
    function AttestationBits(): seq<bool> {
      if metaData.Some? then metaData.value.attnets
      else if enr.Some? then OrEmpty(enr.value.attnets) else []
    }

    function SyncBits(): seq<bool> {
      if metaData.Some? then OrEmpty(metaData.value.syncnets)
      else if enr.Some? then OrEmpty(enr.value.syncnets) else []
    }

    predicate OnLongLived(subnet: Subnet) {
      match subnet
      case Attestation(id) => IsSet(AttestationBits(), id)
      case SyncCommittee(id) => IsSet(SyncBits(), id)
    }

    function Committees(): set<SubnetId> {
      set c | 0 <= c < |SyncBits()| && SyncBits()[c]
    }

    function LongLivedSubnetCount(): nat { NumSetBits(AttestationBits()) }

    /** Unlike `LongLivedSubnets`, looks at the gossipsub subscriptions too. */
    predicate HasLongLivedSubnet() {
      || (metaData.Some? && !IsZero(metaData.value.attnets) && subnets != {})
      || (metaData.Some? && !IsZero(OrEmpty(metaData.value.syncnets)))
      || (enr.Some? && !IsZero(OrEmpty(enr.value.attnets)) && subnets != {})
    }
  }

  lemma {:induction false} SetBitsCounted(bits: seq<bool>)
    ensures NumSetBits(bits) == |set i | 0 <= i < |bits| && bits[i]|
    decreases |bits|
  {
    var all := set i | 0 <= i < |bits| && bits[i];
    if bits != [] {
      var n := |bits| - 1;
      SetBitsCounted(bits[..n]);
      var front := set i | 0 <= i < |bits[..n]| && bits[..n][i];
      assert all == front + if bits[n] then {n} else {};
    }
  }

  /** The count that orders the peers of a subnet is the number of attestation subnets they are listed on. */
  lemma SubnetCountIs(info: PeerInfo, listed: set<SubnetId>)
    requires forall n: SubnetId :: n in listed <==> info.OnLongLived(Attestation(n))
    ensures info.LongLivedSubnetCount() == |listed|
  {
    var bits := info.AttestationBits();
    SetBitsCounted(bits);
    assert listed == set i | 0 <= i < |bits| && bits[i];
  }

  /**
   * What stage two of pruning asks against what stage three lists: an attestation subnet, by METADATA
   * or ENR, protects from stage two only together with a gossipsub subscription, and a sync committee
   * only if the METADATA names it.
   */
  lemma HasLongLivedSubnetIff(info: PeerInfo)
    ensures info.HasLongLivedSubnet() <==>
            || (info.metaData.Some? && exists n :: info.OnLongLived(SyncCommittee(n)))
            || (info.subnets != {} && exists n :: info.OnLongLived(Attestation(n)))
            || (info.subnets != {} && info.enr.Some? && info.enr.value.attnets.Some?
                && exists n :: 0 <= n < |info.enr.value.attnets.value| && info.enr.value.attnets.value[n])
  {
    if info.metaData.Some? {
      SomeBit(info.metaData.value.attnets);
      SomeBit(OrEmpty(info.metaData.value.syncnets));
      assert info.AttestationBits() == info.metaData.value.attnets;
      assert info.SyncBits() == OrEmpty(info.metaData.value.syncnets);
      SubnetSome(info);
    } else {
      SubnetSome(info);
    }
    if info.enr.Some? { SomeBit(OrEmpty(info.enr.value.attnets)); }
  }

  lemma SomeBit(bits: seq<bool>)
    ensures !IsZero(bits) <==> exists n: nat :: IsSet(bits, n)
  {
    if !IsZero(bits) {
      var i :| 0 <= i < |bits| && bits[i];
      assert IsSet(bits, i);
    }
  }

  lemma SubnetSome(info: PeerInfo)
    ensures (exists n :: info.OnLongLived(Attestation(n))) <==> exists n: nat :: IsSet(info.AttestationBits(), n)
    ensures (exists n :: info.OnLongLived(SyncCommittee(n))) <==> exists n: nat :: IsSet(info.SyncBits(), n)
  {
    forall n: nat
      ensures info.OnLongLived(Attestation(n)) <==> IsSet(info.AttestationBits(), n)
      ensures info.OnLongLived(SyncCommittee(n)) <==> IsSet(info.SyncBits(), n)
    {
    }
    if exists n: nat :: IsSet(info.AttestationBits(), n) {
      var n: nat :| IsSet(info.AttestationBits(), n);
      assert info.OnLongLived(Attestation(n));
    }
    if exists n: nat :: IsSet(info.SyncBits(), n) {
      var n: nat :| IsSet(info.SyncBits(), n);
      assert info.OnLongLived(SyncCommittee(n));
    }
  }

  function DefaultPeerInfo(now: Instant): PeerInfo {
    PeerInfo(Real(DefaultScore(now)), Unknown, {}, None, {}, None, false, None, None)
  }

  function TrustedPeerInfo(now: Instant): PeerInfo {
    DefaultPeerInfo(now).(score := Max, isTrusted := true)
  }

  /** Appends one subnet per set bit, scanning up to the highest one. */
  method PushSetBits(bits: seq<bool>, sync: bool, before: seq<Subnet>) returns (r: seq<Subnet>)
    requires NoDup(before)
    requires forall id: nat :: (if sync then SyncCommittee(id) else Attestation(id)) !in before
    ensures NoDup(r)
    ensures forall s :: s in r <==> s in before || (s.SyncCommittee? == sync && IsSet(bits, s.id))
  {
    r := before;
    var h := HighestSetBit(bits);
    var last := if h.Some? then h.value else 0;
    var i := 0;
    while i <= last
      invariant i <= last + 1
      invariant NoDup(r)
      invariant forall s :: s in r <==> s in before || (s.SyncCommittee? == sync && s.id < i && IsSet(bits, s.id))
    {
      if i < |bits| && bits[i] {
        r := r + [if sync then SyncCommittee(i) else Attestation(i)];
      }
      i := i + 1;
    }
  }

  /** The bitfield is known and names the subnet. */
  predicate Advertises(bits: Option<seq<bool>>, n: SubnetId) { bits.Some? && IsSet(bits.value, n) }

  /** The long-lived subnets of a peer, each once: those of its METADATA if that is known, else of its ENR. */
  method LongLivedSubnets(info: PeerInfo) returns (r: seq<Subnet>)
    ensures NoDup(r)
    ensures forall s :: s in r <==> info.OnLongLived(s)
    ensures forall n :: Attestation(n) in r <==>
              if info.metaData.Some? then IsSet(info.metaData.value.attnets, n)
              else info.enr.Some? && Advertises(info.enr.value.attnets, n)
    ensures forall n :: SyncCommittee(n) in r <==> n in info.Committees()
    ensures forall n :: SyncCommittee(n) in r <==>
              if info.metaData.Some? then Advertises(info.metaData.value.syncnets, n)
              else info.enr.Some? && Advertises(info.enr.value.syncnets, n)
  {
    r := [];
    if info.metaData.Some? {
      r := PushSetBits(info.metaData.value.attnets, false, r);
      if info.metaData.value.syncnets.Some? {
        r := PushSetBits(info.metaData.value.syncnets.value, true, r);
      }
    } else if info.enr.Some? {
      if info.enr.value.attnets.Some? {
        r := PushSetBits(info.enr.value.attnets.value, false, r);
      }
      if info.enr.value.syncnets.Some? {
        r := PushSetBits(info.enr.value.syncnets.value, true, r);
      }
    }
  }
}
