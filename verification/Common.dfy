/** Types shared by several components. */
module Common {

  datatype Option<+T> = None | Some(value: T)

  datatype Result<+T, +E> = Ok(value: T) | Err(error: E)

  /** Nanoseconds on the process's monotonic clock. */
  type Instant = nat

  const NANOS_PER_SEC: nat := 1_000_000_000

  type PeerId = nat

  type IpAddr = nat

  datatype SocketAddr = SocketAddr(ip: IpAddr, port: nat)

  type SubnetId = nat

  /** src/types/subnet.rs: an attestation subnet or a sync committee subnet. */
  datatype Subnet = Attestation(id: SubnetId) | SyncCommittee(id: SubnetId)

  const TWO_64: nat := 0x1_0000_0000_0000_0000

  type u64 = x: int | 0 <= x < TWO_64

  type u8 = x: int | 0 <= x < 256

  function Min(a: int, b: int): int { if a <= b then a else b }

  /** `saturating_sub` on an unsigned integer. */
  function SatSub(a: nat, b: nat): nat { if a <= b then 0 else a - b }

  /** No element occurs twice. */
  ghost predicate NoDup<T>(s: seq<T>) {
    forall i, j :: 0 <= i < j < |s| ==> s[i] != s[j]
  }
}
