/** src/types/topics.rs: gossipsub topic strings. */
module Topics {
  import opened Common

  const TOPIC_PREFIX: string := "eth2"
  const SSZ_SNAPPY_ENCODING_POSTFIX: string := "ssz_snappy"
  const BEACON_BLOCK_TOPIC: string := "beacon_block"
  const BEACON_AGGREGATE_AND_PROOF_TOPIC: string := "beacon_aggregate_and_proof"
  const BEACON_ATTESTATION_PREFIX: string := "beacon_attestation_"
  const VOLUNTARY_EXIT_TOPIC: string := "voluntary_exit"
  const PROPOSER_SLASHING_TOPIC: string := "proposer_slashing"
  const ATTESTER_SLASHING_TOPIC: string := "attester_slashing"
  const SIGNED_CONTRIBUTION_AND_PROOF_TOPIC: string := "sync_committee_contribution_and_proof"
  const SYNC_COMMITTEE_PREFIX_TOPIC: string := "sync_committee_"

  datatype GossipKind =
    | BeaconBlock
    | BeaconAggregateAndProof
    | AttestationSubnet(subnet: u64)
    | VoluntaryExit
    | ProposerSlashing
    | AttesterSlashing
    | SignedContributionAndProof
    | SyncCommitteeMessage(subnet: u64)

  /** The only encoding is SSZ with snappy, so a topic is a fork digest and a kind. */
  datatype GossipTopic = GossipTopic(forkDigest: seq<u8>, kind: GossipKind)

  predicate ValidTopic(t: GossipTopic) { |t.forkDigest| == 4 }

  datatype TopicError = BadHex | BadDigestSize | UnknownEncoding | UnknownTopic

  // ---- Splitting at slashes ----

  function Split(s: string): (parts: seq<string>)
    ensures |parts| > 0
  {
    if s == [] then [[]]
    else
      var rest := Split(s[1..]);
      if s[0] == '/' then [[]] + rest else [[s[0]] + rest[0]] + rest[1..]
  }

  function Join(parts: seq<string>): string
    requires |parts| > 0
  {
    if |parts| == 1 then parts[0] else parts[0] + "/" + Join(parts[1..])
  }

  lemma {:induction false} SplitPart(part: string, rest: string)
    requires '/' !in part
    ensures Split(part + "/" + rest) == [part] + Split(rest)
    decreases |part|
  {
    var s := part + "/" + rest;
    if part == [] {
      assert s[1..] == rest;
    } else {
      assert s[1..] == part[1..] + "/" + rest;
      SplitPart(part[1..], rest);
      assert [part[0]] + part[1..] == part;
    }
  }

  lemma {:induction false} SplitNoSlash(part: string)
    requires '/' !in part
    ensures Split(part) == [part]
    decreases |part|
  {
    if part != [] {
      SplitNoSlash(part[1..]);
      assert [part[0]] + part[1..] == part;
    }
  }

  /** Splitting loses nothing. */
  lemma {:induction false} JoinSplit(s: string)
    ensures Join(Split(s)) == s
    decreases |s|
  {
    if s != [] {
      JoinSplit(s[1..]);
      var rest := Split(s[1..]);
      if s[0] == '/' {
        assert ([[]] + rest)[1..] == rest;
      } else if |rest| > 1 {
        assert ([[s[0]] + rest[0]] + rest[1..])[1..] == rest[1..];
        assert [s[0]] + rest[0] + "/" + Join(rest[1..]) == [s[0]] + (rest[0] + "/" + Join(rest[1..]));
      }
    }
  }

  // ---- Hexadecimal ----

  function HexDigit(n: nat): char
    requires n < 16
  {
    "0123456789abcdef"[n]
  }

  function HexValue(c: char): Option<nat> {
    if '0' <= c <= '9' then Some(c as int - '0' as int)
    else if 'a' <= c <= 'f' then Some(c as int - 'a' as int + 10)
    else if 'A' <= c <= 'F' then Some(c as int - 'A' as int + 10)
    else None
  }

  function HexEncode(bytes: seq<u8>): string {
    if bytes == [] then "" else [HexDigit(bytes[0] / 16), HexDigit(bytes[0] % 16)] + HexEncode(bytes[1..])
  }

  /** Either case is accepted; an odd length or a foreign character is not. */
  function HexDecode(s: string): Option<seq<u8>> {
    if s == "" then Some([])
    else if |s| == 1 then None
    else
      var hi, lo, rest := HexValue(s[0]), HexValue(s[1]), HexDecode(s[2..]);
      if hi.Some? && lo.Some? && rest.Some? && hi.value < 16 && lo.value < 16
      then Some([hi.value * 16 + lo.value] + rest.value) else None
  }

  predicate IsLowerHex(s: string) {
    forall c :: c in s ==> IsLowerHexDigit(c)
  }

  lemma HexDigitValue(n: nat)
    requires n < 16
    ensures HexValue(HexDigit(n)) == Some(n)
    ensures IsLowerHexDigit(HexDigit(n))
  {
  }

  lemma {:induction false} HexRoundTrip(bytes: seq<u8>)
    ensures HexDecode(HexEncode(bytes)) == Some(bytes) && IsLowerHex(HexEncode(bytes))
    decreases |bytes|
  {
    hide HexDigit, HexValue, IsLowerHexDigit;
    if bytes != [] {
      var b := bytes[0];
      HexDigitValue(b / 16);
      HexDigitValue(b % 16);
      HexRoundTrip(bytes[1..]);
      assert HexEncode(bytes)[2..] == HexEncode(bytes[1..]);
      LowerHexSplit(HexEncode(bytes));
      assert [b] + bytes[1..] == bytes;
    }
  }

  predicate IsLowerHexDigit(c: char) { '0' <= c <= '9' || 'a' <= c <= 'f' }

  lemma HexDigitCanonicalIff(c: char)
    requires HexValue(c).Some?
    ensures HexValue(c).value < 16
    ensures HexDigit(HexValue(c).value) == c <==> IsLowerHexDigit(c)
  {
  }

  /** Re-encoding gives the same digits back exactly when they were lower case. */
  lemma {:induction false} HexCanonicalIff(s: string)
    requires HexDecode(s).Some?
    ensures HexEncode(HexDecode(s).value) == s <==> IsLowerHex(s)
    decreases |s|
  {
    hide HexDigit, HexValue, IsLowerHexDigit;
    if s != "" {
      HexCanonicalIff(s[2..]);
      var bytes := HexDecode(s).value;
      assert bytes[1..] == HexDecode(s[2..]).value;
      HexDigitCanonicalIff(s[0]);
      HexDigitCanonicalIff(s[1]);
      var hi, lo := HexValue(s[0]).value, HexValue(s[1]).value;
      assert bytes[0] / 16 == hi && bytes[0] % 16 == lo;
      var tail := HexEncode(bytes[1..]);
      var out := [HexDigit(hi), HexDigit(lo)] + tail;
      assert s == [s[0], s[1]] + s[2..];
      assert out == s <==> out[0] == s[0] && out[1] == s[1] && tail == s[2..] by {
        assert out[2..] == tail;
      }
      LowerHexSplit(s);
    }
  }

  lemma LowerHexSplit(s: string)
    requires |s| >= 2
    ensures IsLowerHex(s) <==> IsLowerHexDigit(s[0]) && IsLowerHexDigit(s[1]) && IsLowerHex(s[2..])
  {
    hide IsLowerHexDigit;
    assert s == [s[0], s[1]] + s[2..];
    if IsLowerHex(s) {
      assert s[0] in s && s[1] in s && forall c :: c in s[2..] ==> c in s;
    }
  }

  /** Exactly the strings of pairs of hex digits, in either case, are decoded, each pair to one byte. */
  lemma {:induction false} HexAcceptsIff(s: string)
    ensures HexDecode(s).Some? <==> |s| % 2 == 0 && forall c :: c in s ==> HexValue(c).Some?
    ensures HexDecode(s).Some? ==> 2 * |HexDecode(s).value| == |s|
    decreases |s|
  {
    hide HexValue;
    if |s| == 1 {
    } else if s != "" {
      HexAcceptsIff(s[2..]);
      HexPairSplit(s);
    }
  }

  lemma HexPairSplit(s: string)
    requires |s| >= 2
    ensures (forall c :: c in s ==> HexValue(c).Some?) <==>
            HexValue(s[0]).Some? && HexValue(s[1]).Some? && forall c :: c in s[2..] ==> HexValue(c).Some?
    ensures HexValue(s[0]).Some? ==> HexValue(s[0]).value < 16
    ensures HexValue(s[1]).Some? ==> HexValue(s[1]).value < 16
  {
    assert s == [s[0], s[1]] + s[2..];
    if forall c :: c in s ==> HexValue(c).Some? {
      assert s[0] in s && s[1] in s && forall c :: c in s[2..] ==> c in s;
    }
  }

  // ---- Decimal ----

  function DigitChar(n: nat): char
    requires n < 10
  {
    "0123456789"[n]
  }

  predicate IsDigit(c: char) { '0' <= c <= '9' }

  function Digits(n: nat): string {
    if n < 10 then [DigitChar(n)] else Digits(n / 10) + [DigitChar(n % 10)]
  }

  function Value(s: string): nat
    requires forall c :: c in s ==> IsDigit(c)
  {
    if s == "" then 0
    else
      assert IsDigit(s[|s| - 1]);
      Value(s[..|s| - 1]) * 10 + (s[|s| - 1] as int - '0' as int)
  }

  /** `str::parse::<u64>`: an optional plus sign, then at least one digit, below 2^64. */
  function ParseU64(s: string): Option<u64> {
    var d := if s != "" && s[0] == '+' then s[1..] else s;
    if d != "" && (forall c :: c in d ==> IsDigit(c)) && Value(d) < TWO_64 then Some(Value(d)) else None
  }

  /** What `Digits` writes: no sign and no superfluous zero. */
  predicate IsCanonicalNumber(s: string) {
    && s != ""
    && (forall c :: c in s ==> IsDigit(c))
    && (s[0] == '0' ==> |s| == 1)
  }

  lemma {:induction false} DigitsRoundTrip(n: nat)
    ensures IsCanonicalNumber(Digits(n)) && Value(Digits(n)) == n
    ensures n > 0 ==> Digits(n)[0] != '0'
    decreases n
  {
    if n >= 10 {
      DigitsRoundTrip(n / 10);
      var front := Digits(n / 10);
      assert Digits(n)[..|Digits(n)| - 1] == front;
    }
  }

  lemma {:induction false} DigitsOfValue(s: string)
    requires IsCanonicalNumber(s)
    ensures Digits(Value(s)) == s
    ensures s[0] != '0' ==> Value(s) > 0
    decreases |s|
  {
    hide Value, Digits, IsCanonicalNumber;
    var front, last := CanonicalParts(s);
    var d := last as int - '0' as int;
    ValueAppend(front, last);
    if front == "" {
      OneDigit(d);
    } else {
      DigitsOfValue(front);
      DigitsAppend(Value(front), d);
    }
  }

  lemma CanonicalParts(s: string) returns (front: string, last: char)
    requires IsCanonicalNumber(s)
    ensures s == front + [last] && IsDigit(last)
    ensures (forall c :: c in s ==> IsDigit(c)) && forall c :: c in front ==> IsDigit(c)
    ensures front != "" ==> IsCanonicalNumber(front) && front[0] == s[0] && s[0] != '0'
    ensures DigitChar(last as int - '0' as int) == last
  {
    front, last := s[..|s| - 1], s[|s| - 1];
    assert last in s;
  }

  lemma OneDigit(d: nat)
    requires d < 10
    ensures Digits(d) == [DigitChar(d)] && Value("") == 0
  {
  }

  lemma ValueAppend(front: string, last: char)
    requires IsDigit(last) && forall c :: c in front ==> IsDigit(c)
    ensures Value(front + [last]) == Value(front) * 10 + (last as int - '0' as int)
  {
    assert (front + [last])[..|front|] == front;
  }

  lemma DigitsAppend(n: nat, d: nat)
    requires n > 0 && d < 10
    ensures Digits(n * 10 + d) == Digits(n) + [DigitChar(d)]
  {
    assert (n * 10 + d) / 10 == n && (n * 10 + d) % 10 == d;
  }

  // ---- Kinds ----

  predicate StartsWith(s: string, prefix: string) { |prefix| <= |s| && s[..|prefix|] == prefix }

  /** `trim_start_matches`: removes the prefix as often as it occurs. */
  function TrimStart(s: string, prefix: string): string
    requires prefix != ""
    decreases |s|
  {
    if StartsWith(s, prefix) then TrimStart(s[|prefix|..], prefix) else s
  }

  function CommitteeTopicIndex(topic: string): Option<GossipKind> {
    if StartsWith(topic, BEACON_ATTESTATION_PREFIX) then
      var n := ParseU64(TrimStart(topic, BEACON_ATTESTATION_PREFIX));
      if n.Some? then Some(AttestationSubnet(n.value)) else None
    else if StartsWith(topic, SYNC_COMMITTEE_PREFIX_TOPIC) then
      var n := ParseU64(TrimStart(topic, SYNC_COMMITTEE_PREFIX_TOPIC));
      if n.Some? then Some(SyncCommitteeMessage(n.value)) else None
    else None
  }

  function ParseKind(s: string): Option<GossipKind> {
    if s == BEACON_BLOCK_TOPIC then Some(BeaconBlock)
    else if s == BEACON_AGGREGATE_AND_PROOF_TOPIC then Some(BeaconAggregateAndProof)
    else if s == SIGNED_CONTRIBUTION_AND_PROOF_TOPIC then Some(SignedContributionAndProof)
    else if s == VOLUNTARY_EXIT_TOPIC then Some(VoluntaryExit)
    else if s == PROPOSER_SLASHING_TOPIC then Some(ProposerSlashing)
    else if s == ATTESTER_SLASHING_TOPIC then Some(AttesterSlashing)
    else CommitteeTopicIndex(s)
  }

  function PrintKind(k: GossipKind): string {
    match k
    case BeaconBlock => BEACON_BLOCK_TOPIC
    case BeaconAggregateAndProof => BEACON_AGGREGATE_AND_PROOF_TOPIC
    case VoluntaryExit => VOLUNTARY_EXIT_TOPIC
    case ProposerSlashing => PROPOSER_SLASHING_TOPIC
    case AttesterSlashing => ATTESTER_SLASHING_TOPIC
    case AttestationSubnet(n) => BEACON_ATTESTATION_PREFIX + Digits(n)
    case SignedContributionAndProof => SIGNED_CONTRIBUTION_AND_PROOF_TOPIC
    case SyncCommitteeMessage(n) => SYNC_COMMITTEE_PREFIX_TOPIC + Digits(n)
  }

  predicate IsFixedKind(s: string) {
    || s == BEACON_BLOCK_TOPIC || s == BEACON_AGGREGATE_AND_PROOF_TOPIC
    || s == SIGNED_CONTRIBUTION_AND_PROOF_TOPIC || s == VOLUNTARY_EXIT_TOPIC
    || s == PROPOSER_SLASHING_TOPIC || s == ATTESTER_SLASHING_TOPIC
  }

  /** A kind as `Display` writes it. */
  predicate IsCanonicalKind(s: string) {
    || IsFixedKind(s)
    || (StartsWith(s, BEACON_ATTESTATION_PREFIX) && IsCanonicalNumber(s[|BEACON_ATTESTATION_PREFIX|..]))
    || (StartsWith(s, SYNC_COMMITTEE_PREFIX_TOPIC) && IsCanonicalNumber(s[|SYNC_COMMITTEE_PREFIX_TOPIC|..]))
  }

  lemma StartsDifferently(s: string, prefix: string)
    requires s != "" && prefix != "" && s[0] != prefix[0]
    ensures !StartsWith(s, prefix)
  {
    if |prefix| <= |s| {
      assert s[..|prefix|][0] == s[0];
    }
  }

  /** The two numbered families are no fixed name and do not start alike. */
  lemma NumberedKindsStandApart(d: string)
    requires d != "" && IsDigit(d[0])
    ensures !IsFixedKind(BEACON_ATTESTATION_PREFIX + d) && !IsFixedKind(SYNC_COMMITTEE_PREFIX_TOPIC + d)
    ensures !StartsWith(SYNC_COMMITTEE_PREFIX_TOPIC + d, BEACON_ATTESTATION_PREFIX)
  {
    var a, c := BEACON_ATTESTATION_PREFIX + d, SYNC_COMMITTEE_PREFIX_TOPIC + d;
    assert a[0] == 'b' && a[7] == 'a' && a[8] == 't';
    assert c[0] == 's' && c[15] == d[0];
    assert BEACON_BLOCK_TOPIC[7] == 'b' && BEACON_AGGREGATE_AND_PROOF_TOPIC[8] == 'g';
    assert SIGNED_CONTRIBUTION_AND_PROOF_TOPIC[15] == 'c' && BEACON_ATTESTATION_PREFIX[0] == 'b';
    StartsDifferently(c, BEACON_ATTESTATION_PREFIX);
  }

  /** Trimming one prefix off a number leaves the number. */
  lemma TrimNumber(prefix: string, d: string)
    requires prefix != "" && !IsDigit(prefix[0]) && d != "" && IsDigit(d[0])
    ensures StartsWith(prefix + d, prefix) && TrimStart(prefix + d, prefix) == d
  {
    assert (prefix + d)[..|prefix|] == prefix && (prefix + d)[|prefix|..] == d;
    StartsDifferently(d, prefix);
    assert TrimStart(d, prefix) == d;
  }

  lemma ParseDigits(n: u64)
    ensures ParseU64(Digits(n)) == Some(n) && Digits(n) != "" && IsDigit(Digits(n)[0])
  {
    DigitsRoundTrip(n);
    assert Digits(n)[0] in Digits(n);
  }

  lemma KindRoundTrip(k: GossipKind)
    ensures ParseKind(PrintKind(k)) == Some(k)
    ensures IsCanonicalKind(PrintKind(k))
  {
    match k
    case AttestationSubnet(n) =>
      NumberedKindRoundTrip(n);
    case SyncCommitteeMessage(n) =>
      NumberedKindRoundTrip(n);
    case _ =>
      FixedKindRoundTrip(k);
  }

  lemma FixedKindRoundTrip(k: GossipKind)
    requires !k.AttestationSubnet? && !k.SyncCommitteeMessage?
    ensures ParseKind(PrintKind(k)) == Some(k) && IsFixedKind(PrintKind(k))
  {
    assert BEACON_BLOCK_TOPIC[7] == 'b' && BEACON_AGGREGATE_AND_PROOF_TOPIC[7] == 'a';
    assert SIGNED_CONTRIBUTION_AND_PROOF_TOPIC[0] == 's' && VOLUNTARY_EXIT_TOPIC[0] == 'v';
    assert PROPOSER_SLASHING_TOPIC[0] == 'p' && ATTESTER_SLASHING_TOPIC[0] == 'a';
    assert BEACON_BLOCK_TOPIC[0] == 'b' && BEACON_AGGREGATE_AND_PROOF_TOPIC[0] == 'b';
  }

  lemma NumberedKindRoundTrip(n: u64)
    ensures ParseKind(PrintKind(AttestationSubnet(n))) == Some(AttestationSubnet(n))
    ensures ParseKind(PrintKind(SyncCommitteeMessage(n))) == Some(SyncCommitteeMessage(n))
    ensures IsCanonicalKind(PrintKind(AttestationSubnet(n))) && IsCanonicalKind(PrintKind(SyncCommitteeMessage(n)))
  {
    hide Digits, ParseU64, IsFixedKind, IsCanonicalNumber, TrimStart, StartsWith;
    var d := Digits(n);
    DigitsRoundTrip(n);
    ParseDigits(n);
    NumberedKindsStandApart(d);
    NotFixed(BEACON_ATTESTATION_PREFIX + d);
    NotFixed(SYNC_COMMITTEE_PREFIX_TOPIC + d);
    TrimNumber(BEACON_ATTESTATION_PREFIX, d);
    TrimNumber(SYNC_COMMITTEE_PREFIX_TOPIC, d);
    assert (BEACON_ATTESTATION_PREFIX + d)[|BEACON_ATTESTATION_PREFIX|..] == d;
    assert (SYNC_COMMITTEE_PREFIX_TOPIC + d)[|SYNC_COMMITTEE_PREFIX_TOPIC|..] == d;
  }

  lemma NotFixed(s: string)
    requires !IsFixedKind(s)
    ensures ParseKind(s) == CommitteeTopicIndex(s)
  {
  }

  lemma {:induction false} TrimmedOnce(prefix: string, s: string)
    requires prefix != "" && !IsDigit(prefix[0]) && StartsWith(s, prefix)
    requires IsCanonicalNumber(s[|prefix|..])
    ensures TrimStart(s, prefix) == s[|prefix|..] && s == prefix + s[|prefix|..]
  {
    var d := s[|prefix|..];
    assert d[0] in d;
    TrimNumber(prefix, d);
  }

  lemma ParseCanonical(d: string)
    requires IsCanonicalNumber(d) && ParseU64(d).Some?
    ensures ParseU64(d).value == Value(d) && Digits(Value(d)) == d
  {
    assert d[0] in d;
    DigitsOfValue(d);
  }

  /** Among the kinds `decode` accepts, exactly the canonical ones print back as they were. */
  lemma KindCanonicalIff(s: string)
    requires ParseKind(s).Some?
    ensures PrintKind(ParseKind(s).value) == s <==> IsCanonicalKind(s)
  {
    var k := ParseKind(s).value;
    if PrintKind(k) == s {
      KindRoundTrip(k);
    } else if IsCanonicalKind(s) && !IsFixedKind(s) {
      NumberedPrintsBack(s);
    }
  }

  lemma NumberedPrintsBack(s: string)
    requires ParseKind(s).Some? && IsCanonicalKind(s) && !IsFixedKind(s)
    ensures PrintKind(ParseKind(s).value) == s
  {
    hide Digits, ParseU64, IsFixedKind, IsCanonicalNumber, TrimStart;
    NotFixed(s);
    if StartsWith(s, BEACON_ATTESTATION_PREFIX) {
      NotBothPrefixes(s);
      TrimmedOnce(BEACON_ATTESTATION_PREFIX, s);
      ParseCanonical(s[|BEACON_ATTESTATION_PREFIX|..]);
    } else {
      TrimmedOnce(SYNC_COMMITTEE_PREFIX_TOPIC, s);
      ParseCanonical(s[|SYNC_COMMITTEE_PREFIX_TOPIC|..]);
    }
  }

  lemma NotBothPrefixes(s: string)
    requires StartsWith(s, BEACON_ATTESTATION_PREFIX)
    ensures !StartsWith(s, SYNC_COMMITTEE_PREFIX_TOPIC)
  {
    assert s[..|BEACON_ATTESTATION_PREFIX|][0] == 'b';
    StartsDifferently(s, SYNC_COMMITTEE_PREFIX_TOPIC);
  }

  // ---- Exactly which kinds are accepted ----

  /** The prefix written so many times. */
  function Times(prefix: string, n: nat): string { if n == 0 then "" else prefix + Times(prefix, n - 1) }

  lemma {:induction false} TrimmedParts(s: string, prefix: string) returns (n: nat)
    requires prefix != ""
    ensures s == Times(prefix, n) + TrimStart(s, prefix) && !StartsWith(TrimStart(s, prefix), prefix)
    ensures StartsWith(s, prefix) ==> n > 0
    decreases |s|
  {
    if StartsWith(s, prefix) {
      var rest := s[|prefix|..];
      var m := TrimmedParts(rest, prefix);
      n := m + 1;
      assert s == prefix + rest;
      var tail := TrimStart(rest, prefix);
      assert prefix + (Times(prefix, m) + tail) == prefix + Times(prefix, m) + tail;
    } else {
      n := 0;
    }
  }

  lemma {:induction false} TrimTimes(prefix: string, n: nat, d: string)
    requires prefix != "" && !StartsWith(d, prefix)
    ensures TrimStart(Times(prefix, n) + d, prefix) == d
  {
    if n == 0 {
      assert "" + d == d;
    } else {
      TrimTimes(prefix, n - 1, d);
      var s := Times(prefix, n) + d;
      assert s == prefix + (Times(prefix, n - 1) + d);
      assert s[..|prefix|] == prefix && s[|prefix|..] == Times(prefix, n - 1) + d;
    }
  }

  /** The prefix at least once, as often as one likes, and then a number. */
  ghost predicate IsNumbered(s: string, prefix: string, value: u64) {
    exists n: nat, d :: n > 0 && s == Times(prefix, n) + d && ParseU64(d) == Some(value)
  }

  lemma NumberStartsNoWord(d: string, prefix: string)
    requires ParseU64(d).Some? && prefix != "" && !IsDigit(prefix[0]) && prefix[0] != '+'
    ensures !StartsWith(d, prefix)
  {
    assert d != "";
    if d[0] != '+' { assert d[0] in d; }
    StartsDifferently(d, prefix);
  }

  lemma NumberedIff(s: string, prefix: string, value: u64)
    requires prefix != "" && !IsDigit(prefix[0]) && prefix[0] != '+'
    ensures IsNumbered(s, prefix, value) <==> StartsWith(s, prefix) && ParseU64(TrimStart(s, prefix)) == Some(value)
  {
    hide ParseU64, TrimStart;
    if IsNumbered(s, prefix, value) {
      var n: nat, d :| n > 0 && s == Times(prefix, n) + d && ParseU64(d) == Some(value);
      NumberStartsNoWord(d, prefix);
      TrimTimes(prefix, n, d);
      assert s == prefix + (Times(prefix, n - 1) + d);
    }
    if StartsWith(s, prefix) && ParseU64(TrimStart(s, prefix)) == Some(value) {
      var n := TrimmedParts(s, prefix);
      assert s == Times(prefix, n) + TrimStart(s, prefix);
    }
  }

  /**
   * Exactly which names are accepted, and as what: the six fixed ones, and the two prefixes, each
   * repeated as often as one likes, before a number below 2^64 with or without a plus sign.
   */
  lemma KindAcceptedIff(s: string, k: GossipKind)
    ensures ParseKind(s) == Some(k) <==>
            match k
            case BeaconBlock => s == "beacon_block"
            case BeaconAggregateAndProof => s == "beacon_aggregate_and_proof"
            case VoluntaryExit => s == "voluntary_exit"
            case ProposerSlashing => s == "proposer_slashing"
            case AttesterSlashing => s == "attester_slashing"
            case SignedContributionAndProof => s == "sync_committee_contribution_and_proof"
            case AttestationSubnet(n) => IsNumbered(s, "beacon_attestation_", n)
            case SyncCommitteeMessage(n) => IsNumbered(s, "sync_committee_", n)
  {
    hide IsNumbered, ParseU64, TrimStart, StartsWith;
    NamesApart();
    if IsFixedKind(s) {
      FixedIsNotNumbered(s);
      if k.AttestationSubnet? { NumberedIff(s, BEACON_ATTESTATION_PREFIX, k.subnet); }
      if k.SyncCommitteeMessage? { NumberedIff(s, SYNC_COMMITTEE_PREFIX_TOPIC, k.subnet); }
    } else {
      NotFixed(s);
      if k.AttestationSubnet? { NumberedIff(s, BEACON_ATTESTATION_PREFIX, k.subnet); }
      if k.SyncCommitteeMessage? {
        NumberedIff(s, SYNC_COMMITTEE_PREFIX_TOPIC, k.subnet);
        if StartsWith(s, BEACON_ATTESTATION_PREFIX) { NotBothPrefixes(s); }
      }
    }
  }

  lemma NamesApart()
    ensures BEACON_BLOCK_TOPIC != BEACON_AGGREGATE_AND_PROOF_TOPIC && PROPOSER_SLASHING_TOPIC != ATTESTER_SLASHING_TOPIC
    ensures BEACON_BLOCK_TOPIC[0] == 'b' && BEACON_AGGREGATE_AND_PROOF_TOPIC[0] == 'b'
    ensures SIGNED_CONTRIBUTION_AND_PROOF_TOPIC[0] == 's' && VOLUNTARY_EXIT_TOPIC[0] == 'v'
    ensures PROPOSER_SLASHING_TOPIC[0] == 'p' && ATTESTER_SLASHING_TOPIC[0] == 'a'
  {
    assert BEACON_BLOCK_TOPIC[7] == 'b' && BEACON_AGGREGATE_AND_PROOF_TOPIC[7] == 'a';
  }

  /** A fixed name is neither prefix before a number. */
  lemma FixedIsNotNumbered(s: string)
    requires IsFixedKind(s)
    ensures StartsWith(s, BEACON_ATTESTATION_PREFIX) ==> ParseU64(TrimStart(s, BEACON_ATTESTATION_PREFIX)).None?
    ensures StartsWith(s, SYNC_COMMITTEE_PREFIX_TOPIC) ==> ParseU64(TrimStart(s, SYNC_COMMITTEE_PREFIX_TOPIC)).None?
  {
    hide ParseU64, TrimStart;
    if StartsWith(s, BEACON_ATTESTATION_PREFIX) {
      assert s[..19][8] == 't';
      assert s[8] == 't' && BEACON_BLOCK_TOPIC[8] == 'l' && BEACON_AGGREGATE_AND_PROOF_TOPIC[8] == 'g';
      assert s[..19][0] == 'b';
      NamesApart();
      assert false;
    }
    if StartsWith(s, SYNC_COMMITTEE_PREFIX_TOPIC) {
      assert s[..15][0] == 's';
      NamesApart();
      assert s == SIGNED_CONTRIBUTION_AND_PROOF_TOPIC;
      ContributionIsNoNumber();
    }
  }

  lemma ContributionIsNoNumber()
    ensures ParseU64(TrimStart(SIGNED_CONTRIBUTION_AND_PROOF_TOPIC, SYNC_COMMITTEE_PREFIX_TOPIC)).None?
  {
    hide ParseU64, TrimStart, StartsWith;
    assert SIGNED_CONTRIBUTION_AND_PROOF_TOPIC == SYNC_COMMITTEE_PREFIX_TOPIC + "contribution_and_proof";
    TrimWord(SYNC_COMMITTEE_PREFIX_TOPIC, "contribution_and_proof");
    NotANumber("contribution_and_proof");
  }

  lemma TrimWord(prefix: string, d: string)
    requires prefix != "" && d != "" && d[0] != prefix[0]
    ensures TrimStart(prefix + d, prefix) == d
  {
    StartsDifferently(d, prefix);
    TrimTimes(prefix, 1, d);
    assert Times(prefix, 1) == prefix + Times(prefix, 0) == prefix;
  }

  lemma NotANumber(d: string)
    requires d != "" && !IsDigit(d[0]) && d[0] != '+'
    ensures ParseU64(d).None?
  {
    assert d[0] in d;
  }

  // ---- Topics ----

  function Print(t: GossipTopic): string {
    "/" + TOPIC_PREFIX + "/" + HexEncode(t.forkDigest) + "/" + PrintKind(t.kind) + "/" + SSZ_SNAPPY_ENCODING_POSTFIX
  }

  function Decode(topic: string): Result<GossipTopic, TopicError> {
    var parts := Split(topic);
    if |parts| == 5 && parts[1] == TOPIC_PREFIX then
      var digest := HexDecode(parts[2]);
      if digest.None? then Err(BadHex)
      else if |digest.value| != 4 then Err(BadDigestSize)
      else if parts[4] != SSZ_SNAPPY_ENCODING_POSTFIX then Err(UnknownEncoding)
      else
        var kind := ParseKind(parts[3]);
        if kind.Some? then Ok(GossipTopic(digest.value, kind.value)) else Err(UnknownTopic)
    else Err(UnknownTopic)
  }

  lemma NoSlashInConstants()
    ensures '/' !in TOPIC_PREFIX && '/' !in SSZ_SNAPPY_ENCODING_POSTFIX
    ensures '/' !in BEACON_ATTESTATION_PREFIX && '/' !in SYNC_COMMITTEE_PREFIX_TOPIC
  {
  }

  lemma NoSlashInFixedKinds(s: string)
    requires IsFixedKind(s)
    ensures '/' !in s
  {
  }

  lemma PrintedPartsHaveNoSlash(t: GossipTopic)
    ensures '/' !in HexEncode(t.forkDigest) && '/' !in PrintKind(t.kind)
  {
    hide IsFixedKind, ParseKind, Digits;
    HexRoundTrip(t.forkDigest);
    NoSlashInConstants();
    match t.kind
    case AttestationSubnet(n) =>
      DigitsRoundTrip(n);
    case SyncCommitteeMessage(n) =>
      DigitsRoundTrip(n);
    case _ =>
      FixedKindRoundTrip(t.kind);
      NoSlashInFixedKinds(PrintKind(t.kind));
  }

  lemma SplitPrinted(t: GossipTopic)
    ensures Split(Print(t))
         == ["", TOPIC_PREFIX, HexEncode(t.forkDigest), PrintKind(t.kind), SSZ_SNAPPY_ENCODING_POSTFIX]
  {
    hide HexEncode, PrintKind, Split;
    NoSlashInConstants();
    PrintedPartsHaveNoSlash(t);
    var h, k, e := HexEncode(t.forkDigest), PrintKind(t.kind), SSZ_SNAPPY_ENCODING_POSTFIX;
    SplitNoSlash(e);
    SplitPart(k, e);
    SplitPart(h, k + "/" + e);
    SplitPart(TOPIC_PREFIX, h + "/" + (k + "/" + e));
    SplitPart("", TOPIC_PREFIX + "/" + (h + "/" + (k + "/" + e)));
    assert Print(t) == "" + "/" + (TOPIC_PREFIX + "/" + (h + "/" + (k + "/" + e)));
  }

  /** Every topic with a four-byte digest survives printing and decoding. */
  lemma TopicRoundTrip(t: GossipTopic)
    requires ValidTopic(t)
    ensures Decode(Print(t)) == Ok(t)
  {
    SplitPrinted(t);
    HexRoundTrip(t.forkDigest);
    KindRoundTrip(t.kind);
  }

  /** Exactly which strings are topics: five parts, of which the first may be anything. */
  lemma DecodedIff(s: string, t: GossipTopic)
    ensures Decode(s) == Ok(t) <==>
            && |Split(s)| == 5 && Split(s)[1] == "eth2" && Split(s)[4] == "ssz_snappy"
            && |Split(s)[2]| == 8 && (forall c :: c in Split(s)[2] ==> HexValue(c).Some?)
            && HexDecode(Split(s)[2]) == Some(t.forkDigest) && ParseKind(Split(s)[3]) == Some(t.kind)
  {
    hide Split, HexDecode, HexValue, ParseKind;
    if |Split(s)| == 5 { HexAcceptsIff(Split(s)[2]); }
  }

  /** Hence different topics have different names. */
  lemma PrintInjective(t: GossipTopic, t': GossipTopic)
    requires ValidTopic(t) && ValidTopic(t') && Print(t) == Print(t')
    ensures t == t'
  {
    TopicRoundTrip(t);
    TopicRoundTrip(t');
  }

  /**
   * Decoding is only a left inverse: among the strings it accepts, exactly those with nothing before
   * the first slash, a lower-case digest and a canonical kind are printed back unchanged.
   */
  lemma DecodeThenPrintIff(s: string)
    requires Decode(s).Ok?
    ensures Print(Decode(s).value) == s <==>
            Split(s)[0] == "" && IsLowerHex(Split(s)[2]) && IsCanonicalKind(Split(s)[3])
  {
    hide HexEncode, HexDecode, PrintKind, ParseKind, IsCanonicalKind, IsLowerHex;
    var t, parts := Decode(s).value, Split(s);
    HexCanonicalIff(parts[2]);
    KindCanonicalIff(parts[3]);
    JoinSplit(s);
    if Print(t) == s {
      SplitPrinted(t);
    } else {
      JoinFive(parts);
    }
  }

  lemma JoinFive(parts: seq<string>)
    requires |parts| == 5
    ensures Join(parts) == parts[0] + "/" + parts[1] + "/" + parts[2] + "/" + parts[3] + "/" + parts[4]
  {
    var q := parts[1..];
    assert q[1..] == parts[2..] && q[1..][1..] == parts[3..] && parts[3..][1..] == parts[4..];
    assert Join(parts[4..]) == parts[4];
    assert Join(parts[3..]) == parts[3] + "/" + parts[4];
    assert Join(parts[2..]) == parts[2] + "/" + (parts[3] + "/" + parts[4]);
  }

  /** For instance, whatever comes before the first slash is ignored. */
  lemma DecodeIgnoresLeadingPart(junk: string, t: GossipTopic)
    requires ValidTopic(t) && '/' !in junk
    ensures Decode(junk + Print(t)) == Ok(t)
  {
    hide ParseKind, PrintKind, HexEncode, HexDecode, Split;
    SplitPrinted(t);
    var rest := Print(t)[1..];
    SplitPart("", rest);
    assert Print(t) == "" + "/" + rest;
    assert Split(rest) == Split(Print(t))[1..];
    SplitPart(junk, rest);
    assert junk + Print(t) == junk + "/" + rest;
    HexRoundTrip(t.forkDigest);
    KindRoundTrip(t.kind);
  }
}
