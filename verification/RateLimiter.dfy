/** src/rpc/rate_limiter.rs: the Generic Cell Rate Algorithm, one theoretical arrival time per key. */
module RateLimiter {
  import opened Common

  /** Unchecked unsigned 64-bit arithmetic, as in a release build. */
  function Wrap(x: nat): nat { x % TWO_64 }

  type Key = nat

  datatype Quota = Quota(replenishAllEvery: nat, maxTokens: nat)

  /** `tau`: time to refill an empty bucket; `t`: time to refill one token. */
  datatype Params = Params(tau: nat, t: nat)

  datatype QuotaError = NoTokens | NoReplenishTime | TooLong

  datatype Verdict = Allowed | TooLarge | TooSoon(wait: nat)

  /** Theoretical arrival time per key. */
  type Tats = map<Key, nat>

  function FromQuota(q: Quota): Result<Params, QuotaError> {
    if q.maxTokens == 0 then Err(NoTokens)
    else if q.replenishAllEvery == 0 then Err(NoReplenishTime)
    else if q.replenishAllEvery >= TWO_64 then Err(TooLong)
    else Ok(Params(q.replenishAllEvery, q.replenishAllEvery / q.maxTokens))
  }

  /** A request costing `cost` at time `now`: the arrival times afterwards and the verdict. */
  function Decide(tau: nat, tats: Tats, now: nat, key: Key, cost: nat): (Tats, Verdict) {
    if cost > tau then (tats, TooLarge)
    else
      var tat := if key in tats then tats[key] else now;
      var earliest := SatSub(Wrap(tat + cost), tau);
      if now < earliest then (tats[key := tat], TooSoon(earliest - now))
      else (tats[key := Wrap((if tat < now then now else tat) + cost)], Allowed)
  }

  /** One request for `tokens` tokens. */
  function Judge(p: Params, tats: Tats, now: nat, key: Key, tokens: nat): (Tats, Verdict) {
    Decide(p.tau, tats, Wrap(now), key, Wrap(p.t * tokens))
  }

  /** Forgets the keys whose bucket is full again. */
  function Forget(tats: Tats, limit: nat): Tats {
    map k | k in tats && tats[k] >= Wrap(limit) :: tats[k]
  }

  class Limiter {
    const tau: nat
    const t: nat
    var tatPerKey: Tats

    constructor (p: Params)
      ensures Parameters() == p && tatPerKey == map[]
    {
      tau, t := p.tau, p.t;
      tatPerKey := map[];
    }

    function Parameters(): Params { Params(tau, t) }

    method Allows(timeSinceStart: nat, key: Key, tokens: nat) returns (verdict: Verdict)
      modifies this
      ensures (tatPerKey, verdict) == Judge(Parameters(), old(tatPerKey), timeSinceStart, key, tokens)
    {
      hide Wrap;
      var now := Wrap(timeSinceStart);
      var additionalTime := Wrap(t * tokens);
      if additionalTime > tau {
        return TooLarge;
      }
      if key !in tatPerKey {
        tatPerKey := tatPerKey[key := now];
      }
      var tat := tatPerKey[key];
      assert tatPerKey == old(tatPerKey)[key := tat];
      var earliestTime := SatSub(Wrap(tat + additionalTime), tau);
      if now < earliestTime {
        verdict := TooSoon(earliestTime - now);
      } else {
        var newTat := Wrap((if tat < now then now else tat) + additionalTime);
        assert old(tatPerKey)[key := tat][key := newTat] == old(tatPerKey)[key := newTat];
        tatPerKey := tatPerKey[key := newTat];
        verdict := Allowed;
      }
    }

    method Prune(timeLimit: nat)
      modifies this
      ensures tatPerKey == Forget(old(tatPerKey), timeLimit)
    {
      var rest := tatPerKey.Keys;
      ghost var start := tatPerKey;
      while rest != {}
        invariant rest <= tatPerKey.Keys <= start.Keys
        invariant forall k :: k in tatPerKey ==> tatPerKey[k] == start[k]
        invariant forall k :: k in start && k !in rest ==> (k in tatPerKey <==> start[k] >= Wrap(timeLimit))
      {
        var k :| k in rest;
        if tatPerKey[k] < Wrap(timeLimit) {
          tatPerKey := tatPerKey - {k};
        }
        rest := rest - {k};
      }
    }
  }

  // ---- Traces ----

  datatype Op = Request(now: nat, key: Key, tokens: nat) | Prune(now: nat)

  /** The clock never goes back. */
  ghost predicate Ordered(ops: seq<Op>) {
    forall i, j :: 0 <= i < j < |ops| ==> ops[i].now <= ops[j].now
  }

  /** No 64-bit operation of the limiter overflows on this trace. */
  ghost predicate Fits(p: Params, ops: seq<Op>) {
    forall op :: op in ops ==>
      op.now + 2 * p.tau < TWO_64 && (op.Request? ==> p.t * op.tokens < TWO_64)
  }

  function Apply(p: Params, tats: Tats, op: Op): Tats {
    match op
    case Request(now, key, tokens) => Judge(p, tats, now, key, tokens).0
    case Prune(now) => Forget(tats, now)
  }

  function Exec(p: Params, ops: seq<Op>): Tats
    decreases |ops|
  {
    if ops == [] then map[]
    else
      Apply(p, Exec(p, ops[..|ops| - 1]), ops[|ops| - 1])
  }

  function VerdictAt(p: Params, ops: seq<Op>, i: nat): Verdict
    requires i < |ops| && ops[i].Request?
  {
    Judge(p, Exec(p, ops[..i]), ops[i].now, ops[i].key, ops[i].tokens).1
  }

  predicate GrantedAt(p: Params, ops: seq<Op>, key: Key, i: nat)
    requires i < |ops|
  {
    ops[i].Request? && ops[i].key == key && VerdictAt(p, ops, i) == Allowed
  }

  // ---- The reference: a leaky bucket per key ----

  /** A bucket holding `level`, last touched at time `at`, leaking one unit per nanosecond. */
  datatype Bucket = Bucket(level: nat, at: nat)

  function LevelAt(b: Bucket, now: nat): nat { SatSub(b.level, SatSub(now, b.at)) }

  /** Accept what fits below `tau`, and only then pour it in. */
  function Pour(tau: nat, b: Bucket, now: nat, cost: nat): (Bucket, Verdict) {
    if cost > tau then (b, TooLarge)
    else if LevelAt(b, now) + cost <= tau then (Bucket(LevelAt(b, now) + cost, now), Allowed)
    else (b, TooSoon(LevelAt(b, now) + cost - tau))
  }

  function Offer(p: Params, b: Bucket, now: nat, tokens: nat): (Bucket, Verdict) {
    Pour(p.tau, b, now, p.t * tokens)
  }

  /** The bucket of one key: requests of other keys and prunes do not exist for it. */
  function BucketAfter(p: Params, ops: seq<Op>, key: Key): Bucket
    decreases |ops|
  {
    if ops == [] then Bucket(0, 0)
    else
      var b := BucketAfter(p, ops[..|ops| - 1], key);
      match ops[|ops| - 1]
      case Request(now, k, tokens) => if k == key then Offer(p, b, now, tokens).0 else b
      case Prune(_) => b
  }

  /** When the bucket will be empty. */
  function EmptyAt(b: Bucket): nat { b.at + b.level }

  /** The arrival times and the bucket agree for every instant from `now` on. */
  ghost predicate Agrees(tau: nat, tats: Tats, key: Key, b: Bucket, now: nat) {
    && b.at <= now
    && EmptyAt(b) <= now + tau
    && (if key in tats
        then tats[key] == EmptyAt(b) || (tats[key] <= now && EmptyAt(b) <= now)
        else EmptyAt(b) <= now)
  }

  lemma NoWrap(x: nat)
    requires x < TWO_64
    ensures Wrap(x) == x
  {
  }

  lemma AgreesOnDecision(tau: nat, tats: Tats, key: Key, b: Bucket, before: nat, now: nat, cost: nat)
    requires Agrees(tau, tats, key, b, before) && before <= now && now + 2 * tau < TWO_64
    ensures Decide(tau, tats, now, key, cost).1 == Pour(tau, b, now, cost).1
    ensures Agrees(tau, Decide(tau, tats, now, key, cost).0, key, Pour(tau, b, now, cost).0, now)
  {
    hide Wrap;
    if cost <= tau {
      var tat := if key in tats then tats[key] else now;
      NoWrap(tat + cost);
      NoWrap((if tat < now then now else tat) + cost);
    }
  }

  lemma AgreesOnRequest(p: Params, tats: Tats, key: Key, b: Bucket, before: nat, now: nat, tokens: nat)
    requires Agrees(p.tau, tats, key, b, before) && before <= now
    requires now + 2 * p.tau < TWO_64 && p.t * tokens < TWO_64
    ensures Judge(p, tats, now, key, tokens).1 == Offer(p, b, now, tokens).1
    ensures Agrees(p.tau, Judge(p, tats, now, key, tokens).0, key, Offer(p, b, now, tokens).0, now)
  {
    hide Wrap, Agrees, Decide, Pour;
    NoWrap(now);
    NoWrap(p.t * tokens);
    AgreesOnDecision(p.tau, tats, key, b, before, now, p.t * tokens);
  }

  /** Other keys and prunes leave the agreement alone. */
  lemma AgreesOnOther(p: Params, tats: Tats, key: Key, b: Bucket, before: nat, op: Op)
    requires Agrees(p.tau, tats, key, b, before) && before <= op.now < TWO_64
    requires op.Request? ==> op.key != key
    ensures Agrees(p.tau, Apply(p, tats, op), key, b, op.now)
  {
    NoWrap(op.now);
    hide Wrap;
  }

  function LastTime(ops: seq<Op>): nat { if ops == [] then 0 else ops[|ops| - 1].now }

  lemma {:induction false} AgreesOnTrace(p: Params, ops: seq<Op>, key: Key)
    requires Ordered(ops) && Fits(p, ops)
    ensures Agrees(p.tau, Exec(p, ops), key, BucketAfter(p, ops, key), LastTime(ops))
    decreases |ops|
  {
    hide Agrees, Judge, Offer, Wrap, Forget;
    if ops == [] {
      AgreesInitially(p, key);
    } else {
      var front, op := ops[..|ops| - 1], ops[|ops| - 1];
      assert op in ops && forall x :: x in front ==> x in ops;
      AgreesOnTrace(p, front, key);
      var tats, b := Exec(p, front), BucketAfter(p, front, key);
      if op.Request? && op.key == key {
        AgreesOnRequest(p, tats, key, b, LastTime(front), op.now, op.tokens);
      } else {
        AgreesOnOther(p, tats, key, b, LastTime(front), op);
      }
    }
  }

  lemma AgreesInitially(p: Params, key: Key)
    ensures Agrees(p.tau, map[], key, Bucket(0, 0), 0)
  {
  }

  lemma PrefixOk(p: Params, ops: seq<Op>, i: nat)
    requires Ordered(ops) && Fits(p, ops) && i <= |ops|
    ensures Ordered(ops[..i]) && Fits(p, ops[..i])
    ensures i < |ops| ==> LastTime(ops[..i]) <= ops[i].now
  {
    assert forall x :: x in ops[..i] ==> x in ops;
  }

  /** The verdicts of the limiter on every trace are those of independent leaky buckets. */
  lemma RefinesLeakyBucket(p: Params, ops: seq<Op>, i: nat)
    requires Ordered(ops) && Fits(p, ops) && i < |ops| && ops[i].Request?
    ensures VerdictAt(p, ops, i)
         == Offer(p, BucketAfter(p, ops[..i], ops[i].key), ops[i].now, ops[i].tokens).1
  {
    hide Agrees, Judge, Offer, Wrap;
    PrefixOk(p, ops, i);
    assert ops[i] in ops;
    AgreesOnTrace(p, ops[..i], ops[i].key);
    AgreesOnRequest(p, Exec(p, ops[..i]), ops[i].key, BucketAfter(p, ops[..i], ops[i].key),
                    LastTime(ops[..i]), ops[i].now, ops[i].tokens);
  }

  /** Tokens granted to `key` by the operations of `ops` from index `from` on. */
  function GrantedFrom(p: Params, ops: seq<Op>, key: Key, from: nat): nat
    requires from <= |ops|
    decreases |ops|
  {
    if |ops| == from then 0
    else
      GrantedFrom(p, ops[..|ops| - 1], key, from)
      + if GrantedAt(p, ops, key, |ops| - 1) then ops[|ops| - 1].tokens else 0
  }

  /** What a request does to the emptying time of its bucket. */
  lemma PourRaises(tau: nat, b: Bucket, now: nat, cost: nat)
    requires b.at <= now
    ensures
      var (b', v) := Pour(tau, b, now, cost);
      if v == Allowed
      then now + cost <= EmptyAt(b') <= now + tau && EmptyAt(b) + cost <= EmptyAt(b')
      else b' == b
  {
  }

  lemma {:induction false} BucketTouchedBefore(p: Params, ops: seq<Op>, key: Key)
    requires Ordered(ops)
    ensures BucketAfter(p, ops, key).at <= LastTime(ops)
    decreases |ops|
  {
    hide Pour;
    if ops != [] {
      var front, op := ops[..|ops| - 1], ops[|ops| - 1];
      BucketTouchedBefore(p, front, key);
      if op.Request? && op.key == key {
        PourTouches(p.tau, BucketAfter(p, front, key), op.now, p.t * op.tokens);
      }
    }
  }

  lemma PourTouches(tau: nat, b: Bucket, now: nat, cost: nat)
    requires b.at <= now
    ensures Pour(tau, b, now, cost).0.at <= now
  {
  }

  /** The last operation of a trace, seen from the bucket of `key`. */
  lemma LastStep(p: Params, ops: seq<Op>, key: Key)
    requires Ordered(ops) && Fits(p, ops) && ops != []
    ensures
      var b, b', op := BucketAfter(p, ops[..|ops| - 1], key), BucketAfter(p, ops, key), ops[|ops| - 1];
      if GrantedAt(p, ops, key, |ops| - 1)
      then op.now + p.t * op.tokens <= EmptyAt(b') <= op.now + p.tau && EmptyAt(b) + p.t * op.tokens <= EmptyAt(b')
      else b' == b
  {
    hide Judge, Pour, EmptyAt, Ordered, Fits, Exec;
    var front, op := ops[..|ops| - 1], ops[|ops| - 1];
    if op.Request? && op.key == key {
      RefinesLeakyBucket(p, ops, |ops| - 1);
      PrefixOk(p, ops, |ops| - 1);
      BucketTouchedBefore(p, front, key);
      PourRaises(p.tau, BucketAfter(p, front, key), op.now, p.t * op.tokens);
    }
  }

  lemma GrantedInPrefix(p: Params, ops: seq<Op>, key: Key, i: nat)
    requires i < |ops| - 1
    ensures GrantedAt(p, ops, key, i) == GrantedAt(p, ops[..|ops| - 1], key, i)
  {
    assert ops[..|ops| - 1][..i] == ops[..i];
  }

  /** Each grant pushes the emptying time out by its cost; nothing pulls it in. */
  lemma {:induction false} GrantsAccumulate(p: Params, ops: seq<Op>, key: Key, from: nat)
    requires Ordered(ops) && Fits(p, ops) && from < |ops| && GrantedAt(p, ops, key, from)
    ensures ops[from].now + p.t * GrantedFrom(p, ops, key, from) <= EmptyAt(BucketAfter(p, ops, key))
    decreases |ops|
  {
    hide EmptyAt, GrantedAt, BucketAfter, GrantedFrom, Ordered, Fits;
    var front, op := ops[..|ops| - 1], ops[|ops| - 1];
    LastStep(p, ops, key);
    GrantedCost(p, ops, key, from);
    if from < |front| {
      PrefixOk(p, ops, |ops| - 1);
      GrantedInPrefix(p, ops, key, from);
      GrantsAccumulate(p, front, key, from);
    }
  }

  /** The granted cost grows by the cost of the last operation, if that is a grant. */
  lemma GrantedCost(p: Params, ops: seq<Op>, key: Key, from: nat)
    requires from < |ops|
    ensures p.t * GrantedFrom(p, ops, key, from)
         == (if from == |ops| - 1 then 0 else p.t * GrantedFrom(p, ops[..|ops| - 1], key, from))
          + (if GrantedAt(p, ops, key, |ops| - 1) then p.t * ops[|ops| - 1].tokens else 0)
  {
    hide VerdictAt;
    var g := GrantedFrom(p, ops[..|ops| - 1], key, from);
    assert from == |ops| - 1 ==> g == 0;
    if GrantedAt(p, ops, key, |ops| - 1) {
      var n := ops[|ops| - 1].tokens;
      assert p.t * (g + n) == p.t * g + p.t * n;
    }
  }

  /**
   * The rate limit: on any trace, including rejections, other keys and prunes, the cost of the
   * tokens granted to a key between two of its grants exceeds the elapsed time by at most `tau`.
   */
  lemma WindowBound(p: Params, ops: seq<Op>, key: Key, from: nat)
    requires Ordered(ops) && Fits(p, ops)
    requires from < |ops| && GrantedAt(p, ops, key, from) && GrantedAt(p, ops, key, |ops| - 1)
    ensures p.t * GrantedFrom(p, ops, key, from) <= p.tau + (ops[|ops| - 1].now - ops[from].now)
  {
    hide EmptyAt, GrantedAt, BucketAfter, GrantedFrom;
    GrantsAccumulate(p, ops, key, from);
    LastStep(p, ops, key);
  }

  /** No request of `key` is granted from index `from` on. */
  ghost predicate NoGrantFrom(p: Params, ops: seq<Op>, key: Key, from: nat) {
    forall i :: from <= i < |ops| ==> !GrantedAt(p, ops, key, i)
  }

  /** Rejections consume nothing: without a grant the bucket stays the same. */
  lemma {:induction false} BucketUntouched(p: Params, ops: seq<Op>, key: Key, from: nat)
    requires Ordered(ops) && Fits(p, ops) && from <= |ops| && NoGrantFrom(p, ops, key, from)
    ensures BucketAfter(p, ops, key) == BucketAfter(p, ops[..from], key)
    decreases |ops|
  {
    hide GrantedAt, BucketAfter, EmptyAt;
    if from == |ops| {
      assert ops[..from] == ops;
    } else {
      var front := ops[..|ops| - 1];
      forall i | from <= i < |front|
        ensures !GrantedAt(p, front, key, i)
      {
        GrantedInPrefix(p, ops, key, i);
      }
      PrefixOk(p, ops, |ops| - 1);
      BucketUntouched(p, front, key, from);
      assert front[..from] == ops[..from];
      LastStep(p, ops, key);
    }
  }

  lemma PourAgainIffWaited(tau: nat, b: Bucket, now: nat, cost: nat, w: nat, later: nat)
    requires b.at <= now <= later && Pour(tau, b, now, cost).1 == TooSoon(w)
    ensures Pour(tau, b, later, cost).1 == Allowed <==> later >= now + w
  {
  }

  /**
   * The wait a `TooSoon` verdict names is exact: repeated later, with no grant to the key in
   * between, the request is accepted if and only if that wait has passed.
   */
  lemma WaitIsExact(p: Params, ops: seq<Op>, i: nat, w: nat)
    requires Ordered(ops) && Fits(p, ops) && i < |ops| - 1 && ops[i].Request?
    requires VerdictAt(p, ops, i) == TooSoon(w)
    requires NoGrantFrom(p, ops[..|ops| - 1], ops[i].key, i + 1)
    requires ops[|ops| - 1].Request? && ops[|ops| - 1].key == ops[i].key && ops[|ops| - 1].tokens == ops[i].tokens
    ensures VerdictAt(p, ops, |ops| - 1) == Allowed <==> ops[|ops| - 1].now >= ops[i].now + w
  {
    hide BucketAfter, Judge, Pour, EmptyAt, Exec, Ordered, Fits;
    var key, front := ops[i].key, ops[..|ops| - 1];
    RefinesLeakyBucket(p, ops, i);
    RefinesLeakyBucket(p, ops, |ops| - 1);
    PrefixOk(p, ops, |ops| - 1);
    PrefixOk(p, ops, i);
    assert front[..i] == ops[..i];
    GrantedInPrefix(p, ops, key, i);
    assert NoGrantFrom(p, front, key, i);
    BucketUntouched(p, front, key, i);
    BucketTouchedBefore(p, ops[..i], key);
    PourAgainIffWaited(p.tau, BucketAfter(p, ops[..i], key), ops[i].now, p.t * ops[i].tokens, w, ops[|ops| - 1].now);
  }

  // ---- Quotas ----

  /** A quota is refused exactly for no tokens, no time, or a time beyond 64 bits. */
  lemma QuotaAcceptedIff(q: Quota)
    ensures FromQuota(q).Ok? <==> q.maxTokens > 0 && 0 < q.replenishAllEvery < TWO_64
    ensures FromQuota(q).Ok? ==> q.maxTokens * FromQuota(q).value.t <= FromQuota(q).value.tau
  {
  }

  /**
   * The rate the quota promises: between two grants of a key, the tokens granted, at the quota's time
   * for one token each, fit into its replenishment time plus the time elapsed.
   */
  lemma QuotaBoundsRate(q: Quota, p: Params, ops: seq<Op>, key: Key, from: nat)
    requires FromQuota(q) == Ok(p) && Ordered(ops) && Fits(p, ops)
    requires from < |ops| && GrantedAt(p, ops, key, from) && GrantedAt(p, ops, key, |ops| - 1)
    ensures q.replenishAllEvery / q.maxTokens * GrantedFrom(p, ops, key, from)
         <= q.replenishAllEvery + (ops[|ops| - 1].now - ops[from].now)
  {
    hide GrantedAt, GrantedFrom;
    WindowBound(p, ops, key, from);
  }

  /** Each grant to `key` lies at least `wait` before `now`. */
  ghost predicate GrantsBefore(p: Params, ops: seq<Op>, key: Key, wait: nat, now: nat) {
    forall i :: 0 <= i < |ops| && GrantedAt(p, ops, key, i) ==> ops[i].now + wait <= now
  }

  /** A bucket is full at most after a grant, so it has leaked for as long as the last grant is past. */
  lemma {:induction false} LeaksSinceGrants(p: Params, ops: seq<Op>, key: Key, wait: nat, now: nat)
    requires Ordered(ops) && Fits(p, ops) && GrantsBefore(p, ops, key, wait, now) && wait <= p.tau
    ensures EmptyAt(BucketAfter(p, ops, key)) + wait <= now + p.tau
    decreases |ops|
  {
    hide GrantedAt;
    if ops != [] {
      var front := ops[..|ops| - 1];
      forall i | 0 <= i < |front| && GrantedAt(p, front, key, i)
        ensures front[i].now + wait <= now
      {
        GrantedInPrefix(p, ops, key, i);
      }
      PrefixOk(p, ops, |ops| - 1);
      LeaksSinceGrants(p, front, key, wait, now);
      LastStep(p, ops, key);
    }
  }

  /**
   * What the quota grants: a request for at most `max_tokens` tokens is allowed once the quota's time
   * for that many tokens has passed since every earlier grant of its key. In particular all of them
   * are back after `replenish_all_every`.
   */
  lemma QuotaRefills(q: Quota, p: Params, ops: seq<Op>)
    requires FromQuota(q) == Ok(p) && Ordered(ops) && Fits(p, ops)
    requires ops != [] && ops[|ops| - 1].Request? && ops[|ops| - 1].tokens <= q.maxTokens
    ensures
      var last, front := ops[|ops| - 1], ops[..|ops| - 1];
      var wait := q.replenishAllEvery / q.maxTokens * last.tokens;
      && wait <= q.replenishAllEvery
      && (GrantsBefore(p, front, last.key, wait, last.now) ==> VerdictAt(p, ops, |ops| - 1) == Allowed)
      && (GrantsBefore(p, front, last.key, q.replenishAllEvery, last.now) ==> VerdictAt(p, ops, |ops| - 1) == Allowed)
  {
    hide BucketAfter, VerdictAt, Ordered, Fits, Pour, GrantsBefore, EmptyAt;
    var last, front := ops[|ops| - 1], ops[..|ops| - 1];
    var wait := q.replenishAllEvery / q.maxTokens * last.tokens;
    BurstLimitIsSharpIff(q, p);
    assert wait == p.t * last.tokens;
    PrefixOk(p, ops, |ops| - 1);
    RefinesLeakyBucket(p, ops, |ops| - 1);
    BucketTouchedBefore(p, front, last.key);
    LongerBefore(p, front, last.key, wait, q.replenishAllEvery, last.now);
    if GrantsBefore(p, front, last.key, wait, last.now) {
      LeaksSinceGrants(p, front, last.key, wait, last.now);
      PourFits(p.tau, BucketAfter(p, front, last.key), last.now, wait);
    }
  }

  lemma LongerBefore(p: Params, ops: seq<Op>, key: Key, wait: nat, longer: nat, now: nat)
    requires wait <= longer
    ensures GrantsBefore(p, ops, key, longer, now) ==> GrantsBefore(p, ops, key, wait, now)
  {
    hide GrantedAt;
  }

  lemma PourFits(tau: nat, b: Bucket, now: nat, cost: nat)
    requires b.at <= now && cost <= tau && EmptyAt(b) + cost <= now + tau
    ensures Pour(tau, b, now, cost).1 == Allowed
  {
  }

  /** A burst within the quota is never refused as too large, whatever the table and the clock. */
  lemma BurstNeverTooLarge(q: Quota, p: Params, tats: Tats, now: nat, key: Key, tokens: nat)
    requires FromQuota(q) == Ok(p) && tokens <= q.maxTokens
    ensures Judge(p, tats, now, key, tokens).1 != TooLarge
  {
    hide Wrap;
    BurstLimitIsSharpIff(q, p);
    NoWrap(p.t * tokens);
  }

  lemma CostMonotone(t: nat, n: nat, m: nat)
    requires n <= m
    ensures t * n <= t * m
  {
  }

  /**
   * Bursts of up to `max_tokens` are never too large. Because the refill time of one token is
   * rounded down, larger bursts are ruled out if and only if that refill time exceeds the remainder
   * of the division.
   */
  lemma BurstLimitIsSharpIff(q: Quota, p: Params)
    requires FromQuota(q) == Ok(p)
    ensures forall n: nat :: n <= q.maxTokens ==> p.t * n <= p.tau
    ensures (forall n: nat :: n > q.maxTokens ==> p.t * n > p.tau) <==>
            q.replenishAllEvery / q.maxTokens > q.replenishAllEvery % q.maxTokens
  {
    var m := q.maxTokens;
    assert p.tau == m * p.t + p.tau % m;
    forall n: nat
      ensures n <= m ==> p.t * n <= p.tau
      ensures n > m && p.t > p.tau % m ==> p.t * n > p.tau
    {
      if n <= m { CostMonotone(p.t, n, m); } else { CostMonotone(p.t, m + 1, n); }
    }
    if p.t <= p.tau % m {
      assert p.t * (m + 1) <= p.tau;
    }
  }

  /** Three tokens every five nanoseconds lets a burst of five through. */
  lemma BurstLimitCanBeLoose() returns (q: Quota, p: Params)
    ensures FromQuota(q) == Ok(p) && q.maxTokens == 3
    ensures Judge(p, map[], 0, 0, 5).1 == Allowed
  {
    q := Quota(5, 3);
    p := Params(5, 1);
  }

  /**
   * A request costing more than `tau` is meant never to be processed. It is refused as too large if
   * and only if its 64-bit product stays above `tau`; otherwise, whatever the table, it is granted if
   * and only if the wrapped product fits at the key's arrival time, which for a new key it does.
   */
  lemma OversizedGrantedIff(p: Params, tats: Tats, now: nat, key: Key, tokens: nat)
    requires p.t * tokens > p.tau
    ensures
      var cost := p.t * tokens % TWO_64;
      var arrival := if key in tats then tats[key] else now % TWO_64;
      var verdict := Judge(p, tats, now, key, tokens).1;
      && (verdict == TooLarge <==> cost > p.tau)
      && (verdict == Allowed <==> cost <= p.tau && (arrival + cost) % TWO_64 <= now % TWO_64 + p.tau)
      && (key !in tats ==> (verdict == Allowed <==> cost <= p.tau))
  {
    hide Wrap;
    var cost := p.t * tokens % TWO_64;
    var n := now % TWO_64;
    assert Wrap(now) == n && Wrap(p.t * tokens) == cost by { WrapIs(now); WrapIs(p.t * tokens); }
    var arrival := if key in tats then tats[key] else n;
    WrapIs(arrival + cost);
    WrapAtMost(n + cost);
  }

  lemma WrapIs(x: nat)
    ensures Wrap(x) == x % TWO_64
  {
  }

  lemma WrapAtMost(x: nat)
    ensures x % TWO_64 <= x
  {
  }

  /** So such a request passes for some key, at some time, exactly when its product wraps to at most `tau`. */
  lemma OversizedEverGrantedIff(p: Params, tokens: nat)
    requires p.t * tokens > p.tau
    ensures (exists tats, now, key :: Judge(p, tats, now, key, tokens).1 == Allowed) <==>
            p.t * tokens % TWO_64 <= p.tau
  {
    hide Judge;
    OversizedGrantedIff(p, map[], 0, 0, tokens);
    forall tats, now, key | Judge(p, tats, now, key, tokens).1 == Allowed
      ensures p.t * tokens % TWO_64 <= p.tau
    {
      OversizedGrantedIff(p, tats, now, key, tokens);
    }
  }

  /** Two nanoseconds a token and 2^63 tokens: the product wraps to zero. */
  lemma OversizedCanBeGranted() returns (p: Params, tokens: nat)
    ensures p.t * tokens > p.tau && Judge(p, map[], 0, 0, tokens).1 == Allowed
  {
    p, tokens := Params(10, 2), 0x8000_0000_0000_0000;
  }

  /** Nor can the clock come close to 64 bits: in its last nanosecond two full bursts pass at once. */
  lemma ClockWrapDoublesBurst() returns (p: Params, ops: seq<Op>)
    ensures Ordered(ops) && |ops| == 2 && ops[0].now == ops[1].now < TWO_64
    ensures GrantedAt(p, ops, 0, 0) && GrantedAt(p, ops, 0, 1)
    ensures p.t * (ops[0].tokens + ops[1].tokens) > p.tau + (ops[1].now - ops[0].now)
  {
    p := Params(10, 1);
    var now := TWO_64 - 1;
    ops := [Request(now, 0, 10), Request(now, 0, 10)];
    assert ops[..0] == [] && ops[..1] == [ops[0]] && ops[..1][..0] == [];
    assert Exec(p, ops[..0]) == map[];
    assert Judge(p, map[], now, 0, 10) == (map[0 := 9], Allowed);
    assert Exec(p, ops[..1]) == map[0 := 9];
    assert Judge(p, map[0 := 9], now, 0, 10).1 == Allowed;
  }
}
