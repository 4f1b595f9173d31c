/** src/discovery/mod.rs: the scheduler of subnet discovery queries. */
module Discoveries {
  import opened Common

  const MAX_DISCOVERY_RETRY: nat := 3
  const MAX_CONCURRENT_SUBNET_QUERIES: nat := 2
  const MAX_SUBNETS_IN_QUERY: nat := 3
  const TARGET_SUBNET_PEERS: nat := 6
  const DURATION_DIFFERENCE: nat := 1_000_000

  datatype SubnetQuery = SubnetQuery(subnet: Subnet, minTtl: Option<Instant>, retries: nat)
  {
    predicate Expired(now: Instant) { minTtl.Some? && minTtl.value < now }
  }

  datatype QueryType = SubnetSearch(queries: seq<SubnetQuery>) | FindPeers

  /** The scheduler's fields; `active` holds the queries handed to discv5. */
  datatype State = State(queued: seq<SubnetQuery>, active: seq<QueryType>, findPeerActive: bool)

  /** `None < Some(_)`, as Rust orders options. */
  predicate TtlBelow(a: Option<Instant>, b: Option<Instant>) {
    b.Some? && (a.None? || a.value < b.value)
  }

  // ---- Queuing ----

  function Merged(q: SubnetQuery, minTtl: Option<Instant>, retries: nat): SubnetQuery {
    q.(minTtl := if TtlBelow(q.minTtl, minTtl) then minTtl else q.minTtl, retries := retries)
  }

  /** Updates the queued query of that subnet, or appends a new one; too many retries end the search. */
  function Upsert(queue: seq<SubnetQuery>, subnet: Subnet, minTtl: Option<Instant>, retries: nat): seq<SubnetQuery> {
    if retries > MAX_DISCOVERY_RETRY then queue
    else if queue == [] then [SubnetQuery(subnet, minTtl, retries)]
    else if queue[0].subnet == subnet then [Merged(queue[0], minTtl, retries)] + queue[1..]
    else [queue[0]] + Upsert(queue[1..], subnet, minTtl, retries)
  }

  /** `Upsert` acts on the first entry of that subnet, or at the end. */
  lemma {:induction false} UpsertAt(queue: seq<SubnetQuery>, i: nat, subnet: Subnet, minTtl: Option<Instant>,
                                    retries: nat)
    requires i <= |queue| && retries <= MAX_DISCOVERY_RETRY
    requires forall j :: 0 <= j < i ==> queue[j].subnet != subnet
    requires i < |queue| ==> queue[i].subnet == subnet
    ensures Upsert(queue, subnet, minTtl, retries)
         == if i < |queue| then queue[i := Merged(queue[i], minTtl, retries)]
            else queue + [SubnetQuery(subnet, minTtl, retries)]
    decreases i
  {
    hide Merged;
    if i > 0 {
      var tail := queue[1..];
      UpsertAt(tail, i - 1, subnet, minTtl, retries);
      assert queue == [queue[0]] + tail;
      if i < |queue| {
        var q := Merged(queue[i], minTtl, retries);
        assert tail[i - 1] == queue[i];
        assert [queue[0]] + tail[i - 1 := q] == queue[i := q];
      }
    } else if queue != [] {
      var q := Merged(queue[0], minTtl, retries);
      assert [q] + queue[1..] == queue[0 := q];
    }
  }

  /** At most one entry per subnet, none over the retry limit. */
  ghost predicate QueueOk(queue: seq<SubnetQuery>) {
    && (forall i, j :: 0 <= i < j < |queue| ==> queue[i].subnet != queue[j].subnet)
    && (forall q :: q in queue ==> q.retries <= MAX_DISCOVERY_RETRY)
  }

  ghost predicate Queues(queue: seq<SubnetQuery>, subnet: Subnet) {
    exists i :: 0 <= i < |queue| && queue[i].subnet == subnet
  }

  lemma {:induction false} UpsertKeepsQueueOk(queue: seq<SubnetQuery>, subnet: Subnet, minTtl: Option<Instant>,
                                              retries: nat)
    requires QueueOk(queue)
    ensures QueueOk(Upsert(queue, subnet, minTtl, retries))
    ensures forall s :: Queues(Upsert(queue, subnet, minTtl, retries), s) <==>
              Queues(queue, s) || (s == subnet && retries <= MAX_DISCOVERY_RETRY)
    decreases |queue|
  {
    var r := Upsert(queue, subnet, minTtl, retries);
    if retries <= MAX_DISCOVERY_RETRY && queue != [] {
      var tail := queue[1..];
      assert QueueOk(tail) by { assert forall q :: q in tail ==> q in queue; }
      assert forall s :: Queues(queue, s) <==> queue[0].subnet == s || Queues(tail, s) by {
        assert queue == [queue[0]] + tail;
        QueuesCons(queue[0], tail);
      }
      if queue[0].subnet == subnet {
        QueuesCons(Merged(queue[0], minTtl, retries), tail);
      } else {
        UpsertKeepsQueueOk(tail, subnet, minTtl, retries);
        var u := Upsert(tail, subnet, minTtl, retries);
        QueuesCons(queue[0], u);
        assert !Queues(u, queue[0].subnet);
      }
    } else if retries <= MAX_DISCOVERY_RETRY {
      assert r[0].subnet == subnet;
    }
  }

  lemma QueuesCons(q: SubnetQuery, tail: seq<SubnetQuery>)
    ensures forall s :: Queues([q] + tail, s) <==> q.subnet == s || Queues(tail, s)
  {
    var all := [q] + tail;
    assert all[0] == q;
    forall s | Queues(tail, s)
      ensures Queues(all, s)
    {
      var i :| 0 <= i < |tail| && tail[i].subnet == s;
      assert all[i + 1] == tail[i];
    }
    forall s | Queues(all, s)
      ensures q.subnet == s || Queues(tail, s)
    {
      var i :| 0 <= i < |all| && all[i].subnet == s;
      if i > 0 { assert tail[i - 1] == all[i]; }
    }
  }

  /** Wanted at least as long, where no time at all is the shortest. */
  predicate AtLeast(a: Option<Instant>, b: Option<Instant>) {
    b.Some? ==> a.Some? && a.value >= b.value
  }

  /** `queue'` keeps every subnet of `queue`, wanted at least as long. */
  ghost predicate NoShorter(queue: seq<SubnetQuery>, queue': seq<SubnetQuery>) {
    forall q :: q in queue ==> exists e :: e in queue' && e.subnet == q.subnet && AtLeast(e.minTtl, q.minTtl)
  }

  /** Some entry asks for that subnet at least until then, with that many retries. */
  ghost predicate Wants(queue: seq<SubnetQuery>, subnet: Subnet, minTtl: Option<Instant>, retries: nat) {
    exists e :: e in queue && e.subnet == subnet && AtLeast(e.minTtl, minTtl) && e.retries == retries
  }

  /** The time of the entry was asked for by an entry of `queue` for the same subnet. */
  ghost predicate AskedFor(queue: seq<SubnetQuery>, e: SubnetQuery) {
    exists q :: q in queue && q.subnet == e.subnet && q.minTtl == e.minTtl
  }

  /**
   * Merging never shortens the time a subnet is wanted: the entry of the subnet keeps the further of
   * the two times and takes the new number of retries, and no other entry changes.
   */
  lemma UpsertKeepsFurthest(queue: seq<SubnetQuery>, subnet: Subnet, minTtl: Option<Instant>, retries: nat)
    requires QueueOk(queue) && retries <= MAX_DISCOVERY_RETRY
    ensures
      var queue' := Upsert(queue, subnet, minTtl, retries);
      && Wants(queue', subnet, minTtl, retries) && NoShorter(queue, queue')
      && (forall q: SubnetQuery :: q.subnet != subnet ==> (q in queue' <==> q in queue))
      && (forall e :: e in queue' && e.subnet == subnet ==>
            e.retries == retries && (e.minTtl == minTtl || AskedFor(queue, e)))
  {
    hide Upsert;
    var i := FirstOf(queue, subnet);
    UpsertAt(queue, i, subnet, minTtl, retries);
    if i < |queue| {
      UpdatedEntry(queue, i, minTtl, retries);
    } else {
      var e := SubnetQuery(subnet, minTtl, retries);
      assert e in queue + [e];
    }
  }

  lemma UpdatedEntry(queue: seq<SubnetQuery>, i: nat, minTtl: Option<Instant>, retries: nat)
    requires QueueOk(queue) && i < |queue|
    ensures
      var subnet, queue' := queue[i].subnet, queue[i := Merged(queue[i], minTtl, retries)];
      && Wants(queue', subnet, minTtl, retries) && NoShorter(queue, queue')
      && (forall q: SubnetQuery :: q.subnet != subnet ==> (q in queue' <==> q in queue))
      && (forall e :: e in queue' && e.subnet == subnet ==>
            e.retries == retries && (e.minTtl == minTtl || AskedFor(queue, e)))
  {
    var e := Merged(queue[i], minTtl, retries);
    var queue' := queue[i := e];
    assert queue'[i] == e && queue[i] in queue && AtLeast(e.minTtl, minTtl) && AtLeast(e.minTtl, queue[i].minTtl);
    forall j | 0 <= j < |queue| && j != i
      ensures queue[j] in queue' && queue[j].subnet != e.subnet
    {
      assert queue'[j] == queue[j];
    }
    forall q | q in queue
      ensures exists x :: x in queue' && x.subnet == q.subnet && AtLeast(x.minTtl, q.minTtl)
    {
      var j :| 0 <= j < |queue| && queue[j] == q;
      assert queue'[j] in queue';
    }
  }

  lemma FirstOf(queue: seq<SubnetQuery>, subnet: Subnet) returns (i: nat)
    ensures i <= |queue| && (forall j :: 0 <= j < i ==> queue[j].subnet != subnet)
    ensures i < |queue| ==> queue[i].subnet == subnet
  {
    i := 0;
    while i < |queue| && queue[i].subnet != subnet
      invariant i <= |queue| && forall j :: 0 <= j < i ==> queue[j].subnet != subnet
    {
      i := i + 1;
    }
  }

  // ---- The termination measure ----

  /** How many more searches a query may still lead to. */
  function Attempts(q: SubnetQuery): nat { SatSub(MAX_DISCOVERY_RETRY + 1, q.retries) }

  function Total(queue: seq<SubnetQuery>): nat {
    if queue == [] then 0 else Attempts(queue[0]) + Total(queue[1..])
  }

  function TotalActive(active: seq<QueryType>): nat {
    if active == [] then 0
    else (if active[0].SubnetSearch? then Total(active[0].queries) else 0) + TotalActive(active[1..])
  }

  function Potential(s: State): nat { Total(s.queued) + TotalActive(s.active) }

  lemma {:induction false} TotalConcat(a: seq<SubnetQuery>, b: seq<SubnetQuery>)
    ensures Total(a + b) == Total(a) + Total(b)
    decreases |a|
  {
    if a == [] {
      assert a + b == b;
    } else {
      TotalConcat(a[1..], b);
      assert (a + b)[1..] == a[1..] + b;
    }
  }

  lemma {:induction false} TotalActiveConcat(a: seq<QueryType>, b: seq<QueryType>)
    ensures TotalActive(a + b) == TotalActive(a) + TotalActive(b)
    decreases |a|
  {
    if a == [] {
      assert a + b == b;
    } else {
      TotalActiveConcat(a[1..], b);
      assert (a + b)[1..] == a[1..] + b;
    }
  }

  /** Merging into the queue adds at most what the new entry allows, even when it resets `retries`. */
  lemma {:induction false} UpsertTotal(queue: seq<SubnetQuery>, subnet: Subnet, minTtl: Option<Instant>, retries: nat)
    ensures Total(Upsert(queue, subnet, minTtl, retries)) <= Total(queue) + SatSub(MAX_DISCOVERY_RETRY + 1, retries)
    decreases |queue|
  {
    if retries <= MAX_DISCOVERY_RETRY && queue != [] && queue[0].subnet != subnet {
      UpsertTotal(queue[1..], subnet, minTtl, retries);
      assert Upsert(queue, subnet, minTtl, retries)[1..] == Upsert(queue[1..], subnet, minTtl, retries);
    } else if retries <= MAX_DISCOVERY_RETRY && queue != [] {
      assert Upsert(queue, subnet, minTtl, retries)[1..] == queue[1..];
    }
  }

  // ---- Starting queries ----

  /** What the scheduler reads from outside: connected peers per subnet and its own ENR. */
  datatype Env = Env(now: Instant, goodPeers: Subnet -> nat, hasForkId: bool)

  function StillNeeded(queries: seq<SubnetQuery>, env: Env): seq<SubnetQuery> {
    if queries == [] then []
    else
      var rest := StillNeeded(queries[1..], env);
      if env.goodPeers(queries[0].subnet) >= TARGET_SUBNET_PEERS then rest else [queries[0]] + rest
  }

  /** `start_query`: nothing starts without subnets to look for or without a fork id in the local ENR. */
  function Started(active: seq<QueryType>, query: QueryType, hasForkId: bool): seq<QueryType> {
    if (query.SubnetSearch? && query.queries == []) || !hasForkId then active else active + [query]
  }

  function StartedSubnets(active: seq<QueryType>, group: seq<SubnetQuery>, env: Env): seq<QueryType> {
    Started(active, SubnetSearch(StillNeeded(group, env)), env.hasForkId)
  }

  predicate AtCapacity(s: State) {
    SatSub(|s.active|, if s.findPeerActive then 1 else 0) >= MAX_CONCURRENT_SUBNET_QUERIES
  }

  function Unexpired(queue: seq<SubnetQuery>, now: Instant): seq<SubnetQuery> {
    if queue == [] then []
    else
      var rest := Unexpired(queue[1..], now);
      if queue[0].Expired(now) then rest else [queue[0]] + rest
  }

  function GroupSize(queue: seq<SubnetQuery>): nat { Min(MAX_SUBNETS_IN_QUERY, |queue|) }

  /** The simple form of `process_queue`: cut groups of three off the queue while there is capacity. */
  function Dispatched(s: State, env: Env): State
    decreases |s.queued|
  {
    if AtCapacity(s) || s.queued == [] then s
    else
      var n := GroupSize(s.queued);
      Dispatched(State(s.queued[n..], StartedSubnets(s.active, s.queued[..n], env), s.findPeerActive), env)
  }

  /** The groups handed to `start_subnet_query` along the way. */
  function Handed(s: State, env: Env): seq<seq<SubnetQuery>>
    decreases |s.queued|
  {
    if AtCapacity(s) || s.queued == [] then []
    else
      var n := GroupSize(s.queued);
      [s.queued[..n]]
      + Handed(State(s.queued[n..], StartedSubnets(s.active, s.queued[..n], env), s.findPeerActive), env)
  }

  function Flatten(groups: seq<seq<SubnetQuery>>): seq<SubnetQuery> {
    if groups == [] then [] else groups[0] + Flatten(groups[1..])
  }

  /** The scheduler after handing out the first group. */
  function GroupStarted(s: State, env: Env): State {
    var n := GroupSize(s.queued);
    State(s.queued[n..], StartedSubnets(s.active, s.queued[..n], env), s.findPeerActive)
  }

  lemma DispatchTurn(s: State, env: Env)
    requires !AtCapacity(s) && s.queued != []
    ensures Dispatched(s, env) == Dispatched(GroupStarted(s, env), env)
    ensures Handed(s, env) == [s.queued[..GroupSize(s.queued)]] + Handed(GroupStarted(s, env), env)
  {
    hide StartedSubnets, AtCapacity;
  }

  lemma FlattenCons(g: seq<SubnetQuery>, groups: seq<seq<SubnetQuery>>)
    ensures Flatten([g] + groups) == g + Flatten(groups)
  {
    assert ([g] + groups)[1..] == groups;
  }

  /**
   * No query is popped without being handed out: the queue is the handed groups followed by what is
   * still queued, each group has three queries unless it empties the queue, and dispatching stops only
   * at capacity or with an empty queue.
   */
  lemma {:induction false} DispatchLosesNothing(s: State, env: Env)
    ensures s.queued == Flatten(Handed(s, env)) + Dispatched(s, env).queued
    ensures forall g :: g in Handed(s, env) ==> 1 <= |g| <= MAX_SUBNETS_IN_QUERY
    ensures forall g :: g in Handed(s, env) && |g| < MAX_SUBNETS_IN_QUERY ==> Dispatched(s, env).queued == []
    ensures forall i :: 0 <= i < |Handed(s, env)| - 1 ==> |Handed(s, env)[i]| == MAX_SUBNETS_IN_QUERY
    ensures Dispatched(s, env).findPeerActive == s.findPeerActive
    ensures AtCapacity(Dispatched(s, env)) || Dispatched(s, env).queued == []
    decreases |s.queued|
  {
    hide StartedSubnets, AtCapacity, Dispatched, Handed, Flatten, GroupStarted;
    if !AtCapacity(s) && s.queued != [] {
      var g, s' := s.queued[..GroupSize(s.queued)], GroupStarted(s, env);
      DispatchTurn(s, env);
      GroupCut(s, env);
      DispatchLosesNothing(s', env);
      if s'.queued == [] { DispatchStops(s', env); }
      FlattenCons(g, Handed(s', env));
      Reassociate(g, Flatten(Handed(s', env)), Dispatched(s', env).queued);
    } else {
      DispatchStops(s, env);
      NothingFlat();
      assert [] + s.queued == s.queued;
    }
  }

  lemma GroupCut(s: State, env: Env)
    requires s.queued != []
    ensures
      var g, s' := s.queued[..GroupSize(s.queued)], GroupStarted(s, env);
      && s.queued == g + s'.queued && 1 <= |g| <= MAX_SUBNETS_IN_QUERY
      && (|g| < MAX_SUBNETS_IN_QUERY ==> s'.queued == [])
      && |s'.queued| < |s.queued| && s'.findPeerActive == s.findPeerActive
  {
    hide StartedSubnets;
  }

  lemma Reassociate<T>(a: seq<T>, b: seq<T>, c: seq<T>)
    ensures a + (b + c) == a + b + c
  {
  }

  lemma NothingFlat()
    ensures Flatten([]) == []
  {
  }

  lemma DispatchStops(s: State, env: Env)
    requires AtCapacity(s) || s.queued == []
    ensures Dispatched(s, env) == s && Handed(s, env) == []
  {
  }

  /** The queries of the searches under way. */
  function Searching(active: seq<QueryType>): seq<SubnetQuery> {
    if active == [] then []
    else PartOf(active[0]) + Searching(active[1..])
  }

  function PartOf(query: QueryType): seq<SubnetQuery> { if query.SubnetSearch? then query.queries else [] }

  lemma {:induction false} SearchingMore(active: seq<QueryType>, query: QueryType)
    ensures Searching(active + [query]) == Searching(active) + PartOf(query)
    decreases |active|
  {
    var last := PartOf(query);
    if active == [] {
      assert active + [query] == [query] && [query][1..] == [];
      assert last + [] == [] + last;
    } else {
      var first, rest := PartOf(active[0]), active[1..];
      assert (active + [query])[1..] == rest + [query];
      SearchingMore(rest, query);
      assert first + (Searching(rest) + last) == first + Searching(rest) + last;
    }
  }

  lemma {:induction false} StillNeededBoth(a: seq<SubnetQuery>, b: seq<SubnetQuery>, env: Env)
    ensures StillNeeded(a + b, env) == StillNeeded(a, env) + StillNeeded(b, env)
    decreases |a|
  {
    if a == [] {
      assert a + b == b;
    } else {
      assert (a + b)[1..] == a[1..] + b;
      StillNeededBoth(a[1..], b, env);
    }
  }

  lemma {:induction false} StillNeededAre(queries: seq<SubnetQuery>, env: Env)
    ensures forall q ::
              q in StillNeeded(queries, env) <==> q in queries && env.goodPeers(q.subnet) < TARGET_SUBNET_PEERS
    decreases |queries|
  {
    if queries != [] {
      StillNeededAre(queries[1..], env);
      assert queries == [queries[0]] + queries[1..];
    }
  }

  lemma GroupSearched(active: seq<QueryType>, group: seq<SubnetQuery>, env: Env)
    ensures Searching(StartedSubnets(active, group, env))
         == Searching(active) + if env.hasForkId then StillNeeded(group, env) else []
  {
    SearchingMore(active, SubnetSearch(StillNeeded(group, env)));
    assert Searching(active) + [] == Searching(active);
  }

  /** The popped queries that go into searches, in order: with a fork id, those whose subnets still need peers. */
  lemma {:induction false} DispatchSearches(s: State, env: Env)
    ensures Searching(Dispatched(s, env).active)
         == Searching(s.active) + if env.hasForkId then StillNeeded(Flatten(Handed(s, env)), env) else []
    decreases |s.queued|
  {
    hide StartedSubnets, AtCapacity, Dispatched, Handed, Flatten, StillNeeded, Searching;
    if !AtCapacity(s) && s.queued != [] {
      var g, s' := s.queued[..GroupSize(s.queued)], GroupStarted(s, env);
      DispatchTurn(s, env);
      DispatchSearches(s', env);
      GroupSearched(s.active, g, env);
      FlattenCons(g, Handed(s', env));
      StillNeededBoth(g, Flatten(Handed(s', env)), env);
    } else {
      DispatchStops(s, env);
      NothingFlat();
      NoneNeeded(env);
      assert Searching(s.active) + [] == Searching(s.active);
    }
  }

  lemma NoneNeeded(env: Env)
    ensures StillNeeded([], env) == []
  {
  }

  /**
   * A query taken from the queue is searched for if and only if the local ENR has a fork id and its
   * subnet still needs peers; searches under way go on.
   */
  lemma PoppedIsSearchedIff(s: State, env: Env, q: SubnetQuery)
    ensures q in Searching(Dispatched(s, env).active) <==>
            || q in Searching(s.active)
            || (q in Flatten(Handed(s, env)) && env.hasForkId && env.goodPeers(q.subnet) < TARGET_SUBNET_PEERS)
  {
    hide Dispatched, Handed, Flatten, StillNeeded, Searching;
    DispatchSearches(s, env);
    StillNeededAre(Flatten(Handed(s, env)), env);
  }

  lemma {:induction false} StillNeededTotal(queries: seq<SubnetQuery>, env: Env)
    ensures Total(StillNeeded(queries, env)) <= Total(queries)
    decreases |queries|
  {
    if queries != [] {
      StillNeededTotal(queries[1..], env);
      var rest := StillNeeded(queries[1..], env);
      assert ([queries[0]] + rest)[1..] == rest;
    }
  }

  lemma StartedTotal(active: seq<QueryType>, group: seq<SubnetQuery>, env: Env)
    ensures TotalActive(StartedSubnets(active, group, env)) <= TotalActive(active) + Total(group)
  {
    StillNeededTotal(group, env);
    var q := SubnetSearch(StillNeeded(group, env));
    TotalActiveConcat(active, [q]);
    assert TotalActive([q]) == Total(q.queries);
  }

  /** Dispatching moves potential from the queue to the active queries and creates none. */
  lemma {:induction false} DispatchPotential(s: State, env: Env)
    ensures Potential(Dispatched(s, env)) <= Potential(s)
    decreases |s.queued|
  {
    if !AtCapacity(s) && s.queued != [] {
      var n := GroupSize(s.queued);
      DispatchPotential(State(s.queued[n..], StartedSubnets(s.active, s.queued[..n], env), s.findPeerActive), env);
      StartedTotal(s.active, s.queued[..n], env);
      TotalConcat(s.queued[..n], s.queued[n..]);
      assert s.queued == s.queued[..n] + s.queued[n..];
    }
  }

  lemma {:induction false} UnexpiredTotal(queue: seq<SubnetQuery>, now: Instant)
    ensures Total(Unexpired(queue, now)) <= Total(queue)
    decreases |queue|
  {
    if queue != [] {
      UnexpiredTotal(queue[1..], now);
      var rest := Unexpired(queue[1..], now);
      assert ([queue[0]] + rest)[1..] == rest;
    }
  }

  // ---- Completion ----

  /** Puts every query of a completed group back with one more retry. */
  function Requeued(queue: seq<SubnetQuery>, done: seq<SubnetQuery>): seq<SubnetQuery>
    decreases |done|
  {
    if done == [] then queue
    else
      var q := done[|done| - 1];
      Upsert(Requeued(queue, done[..|done| - 1]), q.subnet, q.minTtl, q.retries + 1)
  }

  function RemoveAt<T>(s: seq<T>, i: nat): seq<T>
    requires i < |s|
  {
    s[..i] + s[i + 1..]
  }

  /** Active query `i` has completed; a failed subnet query is not retried. */
  function Completed(s: State, i: nat, failed: bool): State
    requires i < |s.active|
  {
    var rest := RemoveAt(s.active, i);
    match s.active[i]
    case FindPeers => State(s.queued, rest, false)
    case SubnetSearch(queries) =>
      State(if failed then s.queued else Requeued(s.queued, queries), rest, s.findPeerActive)
  }

  lemma {:induction false} RequeuedTotal(queue: seq<SubnetQuery>, done: seq<SubnetQuery>)
    requires forall q :: q in done ==> q.retries <= MAX_DISCOVERY_RETRY
    ensures Total(Requeued(queue, done)) + |done| <= Total(queue) + Total(done)
    decreases |done|
  {
    if done != [] {
      var front, q := done[..|done| - 1], done[|done| - 1];
      assert forall x :: x in front ==> x in done;
      RequeuedTotal(queue, front);
      UpsertTotal(Requeued(queue, front), q.subnet, q.minTtl, q.retries + 1);
      TotalConcat(front, [q]);
      assert done == front + [q] && q in done;
      assert Total([q]) == Attempts(q) + Total([]);
    }
  }

  lemma {:induction false} RequeuedOk(queue: seq<SubnetQuery>, done: seq<SubnetQuery>)
    requires QueueOk(queue)
    ensures QueueOk(Requeued(queue, done))
    decreases |done|
  {
    if done != [] {
      var q := done[|done| - 1];
      RequeuedOk(queue, done[..|done| - 1]);
      UpsertKeepsQueueOk(Requeued(queue, done[..|done| - 1]), q.subnet, q.minTtl, q.retries + 1);
    }
  }

  lemma RemoveAtTotal(active: seq<QueryType>, i: nat)
    requires i < |active|
    ensures TotalActive(active) == TotalActive(RemoveAt(active, i))
                                 + if active[i].SubnetSearch? then Total(active[i].queries) else 0
  {
    hide Total;
    var front, rest := active[..i], active[i..];
    TotalActiveConcat(front, active[i + 1..]);
    TotalActiveConcat(front, rest);
    assert active == front + rest && rest[1..] == active[i + 1..] && rest[0] == active[i];
    assert RemoveAt(active, i) == front + active[i + 1..];
  }

  // ---- Invariants ----

  ghost predicate GroupOk(group: seq<SubnetQuery>) {
    1 <= |group| <= MAX_SUBNETS_IN_QUERY && QueueOk(group)
  }

  function SubnetCount(active: seq<QueryType>): (r: nat)
    ensures r <= |active|
  {
    if active == [] then 0 else (if active[0].SubnetSearch? then 1 else 0) + SubnetCount(active[1..])
  }

  function FindPeersCount(active: seq<QueryType>): nat { |active| - SubnetCount(active) }

  lemma {:induction false} SubnetCountConcat(a: seq<QueryType>, b: seq<QueryType>)
    ensures SubnetCount(a + b) == SubnetCount(a) + SubnetCount(b)
    decreases |a|
  {
    if a == [] {
      assert a + b == b;
    } else {
      SubnetCountConcat(a[1..], b);
      assert (a + b)[1..] == a[1..] + b;
    }
  }

  /** `find_peer_active` is set although no FindPeers query is running. */
  ghost predicate Stuck(s: State) { s.findPeerActive && FindPeersCount(s.active) == 0 }

  ghost predicate Inv(s: State) {
    && QueueOk(s.queued)
    && (forall a :: a in s.active && a.SubnetSearch? ==> GroupOk(a.queries))
    && FindPeersCount(s.active) <= (if s.findPeerActive then 1 else 0)
    && SubnetCount(s.active) <= MAX_CONCURRENT_SUBNET_QUERIES + (if Stuck(s) then 1 else 0)
  }

  lemma {:induction false} SubsequenceOk(queue: seq<SubnetQuery>, env: Env)
    requires QueueOk(queue)
    ensures QueueOk(StillNeeded(queue, env)) && QueueOk(Unexpired(queue, env.now))
    ensures |StillNeeded(queue, env)| <= |queue|
    ensures forall q :: q in StillNeeded(queue, env) ==> q in queue
    ensures forall q :: q in Unexpired(queue, env.now) ==> q in queue
    decreases |queue|
  {
    if queue != [] {
      assert QueueOk(queue[1..]) by { assert forall q :: q in queue[1..] ==> q in queue; }
      SubsequenceOk(queue[1..], env);
      assert forall q :: q in queue[1..] ==> q.subnet != queue[0].subnet;
    }
  }

  lemma StartKeepsInv(s: State, n: nat, env: Env)
    requires Inv(s) && !AtCapacity(s) && 1 <= n <= MAX_SUBNETS_IN_QUERY && n <= |s.queued|
    ensures Inv(State(s.queued[n..], StartedSubnets(s.active, s.queued[..n], env), s.findPeerActive))
    ensures Stuck(State(s.queued[n..], StartedSubnets(s.active, s.queued[..n], env), s.findPeerActive)) == Stuck(s)
  {
    var g := s.queued[..n];
    assert QueueOk(g) by { assert forall q :: q in g ==> q in s.queued; }
    assert QueueOk(s.queued[n..]) by { assert forall q :: q in s.queued[n..] ==> q in s.queued; }
    SubsequenceOk(g, env);
    var q := SubnetSearch(StillNeeded(g, env));
    SubnetCountConcat(s.active, [q]);
    assert SubnetCount([q]) == 1;
  }

  lemma {:induction false} DispatchKeepsInv(s: State, env: Env)
    requires Inv(s)
    ensures Inv(Dispatched(s, env)) && Stuck(Dispatched(s, env)) == Stuck(s)
    decreases |s.queued|
  {
    hide Inv, Stuck;
    if !AtCapacity(s) && s.queued != [] {
      var n := GroupSize(s.queued);
      StartKeepsInv(s, n, env);
      DispatchKeepsInv(State(s.queued[n..], StartedSubnets(s.active, s.queued[..n], env), s.findPeerActive), env);
    }
  }

  // ---- Runs ----

  datatype Op =
    | RequestSubnets(subnets: seq<(Subnet, Option<Instant>)>)
    | RequestPeers(hasForkId: bool)
    | Process(env: Env)
    | Complete(index: nat, failed: bool)

  predicate Enabled(s: State, op: Op) { op.Complete? ==> op.index < |s.active| }

  function Requested(queue: seq<SubnetQuery>, subnets: seq<(Subnet, Option<Instant>)>): seq<SubnetQuery>
    decreases |subnets|
  {
    if subnets == [] then queue
    else
      var last := subnets[|subnets| - 1];
      Upsert(Requested(queue, subnets[..|subnets| - 1]), last.0, last.1, 0)
  }

  /** `discover_peers`: one FindPeers query at a time. */
  function PeersRequested(s: State, hasForkId: bool): State {
    if s.findPeerActive then s
    else s.(findPeerActive := true, active := Started(s.active, FindPeers, hasForkId))
  }

  function Processed(s: State, env: Env): State {
    Dispatched(s.(queued := Unexpired(s.queued, env.now)), env)
  }

  function Step(s: State, op: Op): State
    requires Enabled(s, op)
  {
    match op
    case RequestSubnets(subnets) => s.(queued := Requested(s.queued, subnets))
    case RequestPeers(hasForkId) => PeersRequested(s, hasForkId)
    case Process(env) => Processed(s, env)
    case Complete(i, failed) => Completed(s, i, failed)
  }

  const Initial: State := State([], [], false)

  ghost predicate IsRun(ops: seq<Op>)
    decreases |ops|, 0
  {
    ops == [] || (IsRun(ops[..|ops| - 1]) && Enabled(Run(ops[..|ops| - 1]), ops[|ops| - 1]))
  }

  ghost function Run(ops: seq<Op>): State
    requires IsRun(ops)
    decreases |ops|, 1
  {
    if ops == [] then Initial else Step(Run(ops[..|ops| - 1]), ops[|ops| - 1])
  }

  lemma {:induction false} RequestedOk(queue: seq<SubnetQuery>, subnets: seq<(Subnet, Option<Instant>)>)
    requires QueueOk(queue)
    ensures QueueOk(Requested(queue, subnets))
    ensures Total(Requested(queue, subnets)) <= Total(queue) + (MAX_DISCOVERY_RETRY + 1) * |subnets|
    decreases |subnets|
  {
    if subnets != [] {
      var front, last := subnets[..|subnets| - 1], subnets[|subnets| - 1];
      RequestedOk(queue, front);
      UpsertKeepsQueueOk(Requested(queue, front), last.0, last.1, 0);
      UpsertTotal(Requested(queue, front), last.0, last.1, 0);
    }
  }

  lemma NoShorterTransitive(a: seq<SubnetQuery>, b: seq<SubnetQuery>, c: seq<SubnetQuery>)
    requires NoShorter(a, b) && NoShorter(b, c)
    ensures NoShorter(a, c)
  {
    forall q | q in a
      ensures exists e :: e in c && e.subnet == q.subnet && AtLeast(e.minTtl, q.minTtl)
    {
      var x :| x in b && x.subnet == q.subnet && AtLeast(x.minTtl, q.minTtl);
      var y :| y in c && y.subnet == x.subnet && AtLeast(y.minTtl, x.minTtl);
    }
  }

  /** Nobody's time is shortened, and a subnet wanted with `retries` still is if its entries keep that number. */
  lemma StillWanted(queue: seq<SubnetQuery>, queue': seq<SubnetQuery>, subnet: Subnet, minTtl: Option<Instant>,
                    retries: nat)
    requires Wants(queue, subnet, minTtl, retries) && NoShorter(queue, queue')
    requires forall e :: e in queue' && e.subnet == subnet ==> e.retries == retries
    ensures Wants(queue', subnet, minTtl, retries)
  {
    var q :| q in queue && q.subnet == subnet && AtLeast(q.minTtl, minTtl) && q.retries == retries;
    var e :| e in queue' && e.subnet == q.subnet && AtLeast(e.minTtl, q.minTtl);
  }

  /** Every entry whose subnet was just requested has no retries behind it. */
  ghost predicate AllFresh(queue: seq<SubnetQuery>, subnets: seq<(Subnet, Option<Instant>)>) {
    forall i, e :: 0 <= i < |subnets| && e in queue && e.subnet == subnets[i].0 ==> e.retries == 0
  }

  /** The time of the entry was asked for, now or before. */
  ghost predicate Requester(queue: seq<SubnetQuery>, subnets: seq<(Subnet, Option<Instant>)>, e: SubnetQuery) {
    AskedFor(queue, e) || (e.subnet, e.minTtl) in subnets
  }

  /**
   * After a request, each requested subnet is queued with no retries and at least as long as asked
   * for, nothing queued before is wanted less long, and no entry has a time nobody asked for.
   */
  lemma {:induction false} RequestsKeepFurthest(queue: seq<SubnetQuery>, subnets: seq<(Subnet, Option<Instant>)>)
    requires QueueOk(queue)
    ensures
      var queue' := Requested(queue, subnets);
      && (forall i :: 0 <= i < |subnets| ==> Wants(queue', subnets[i].0, subnets[i].1, 0))
      && NoShorter(queue, queue') && AllFresh(queue', subnets)
      && (forall e :: e in queue' ==> Requester(queue, subnets, e))
    decreases |subnets|
  {
    hide Upsert, QueueOk, NoShorter, Wants;
    if subnets == [] {
      SameIsNoShorter(queue);
    } else {
      var front, last := subnets[..|subnets| - 1], subnets[|subnets| - 1];
      var mid, after := Requested(queue, front), Requested(queue, subnets);
      RequestsKeepFurthest(queue, front);
      RequestedOk(queue, front);
      UpsertKeepsFurthest(mid, last.0, last.1, 0);
      NoShorterTransitive(queue, mid, after);
      forall i | 0 <= i < |subnets|
        ensures Wants(after, subnets[i].0, subnets[i].1, 0)
        ensures forall e :: e in after && e.subnet == subnets[i].0 ==> e.retries == 0
      {
        if i < |front| { StillWanted(mid, after, subnets[i].0, subnets[i].1, 0); }
      }
      forall e | e in after
        ensures Requester(queue, subnets, e)
      {
        RequesterKept(queue, mid, front, last, e);
      }
    }
  }

  lemma SameIsNoShorter(queue: seq<SubnetQuery>)
    ensures NoShorter(queue, queue)
  {
  }

  lemma RequesterKept(queue: seq<SubnetQuery>, mid: seq<SubnetQuery>, front: seq<(Subnet, Option<Instant>)>,
                      last: (Subnet, Option<Instant>), e: SubnetQuery)
    requires forall x :: x in mid ==> Requester(queue, front, x)
    requires e in mid || (e.subnet == last.0 && (e.minTtl == last.1 || AskedFor(mid, e)))
    ensures Requester(queue, front + [last], e)
  {
    if e !in mid && e.minTtl != last.1 {
      var q :| q in mid && q.subnet == e.subnet && q.minTtl == e.minTtl;
      assert Requester(queue, front, q);
    }
  }

  /** The entry comes from the queue, or from a completed query with one more retry. */
  ghost predicate Returned(queue: seq<SubnetQuery>, done: seq<SubnetQuery>, e: SubnetQuery) {
    e in queue || exists q :: q in done && q.subnet == e.subnet && q.retries + 1 == e.retries
  }

  /**
   * A query whose search has succeeded is queued again, at least as long as it was wanted, with one
   * more retry; the fourth search of a subnet is its last; nothing queued meanwhile is shortened.
   */
  lemma {:induction false} RequeuedAre(queue: seq<SubnetQuery>, done: seq<SubnetQuery>)
    requires QueueOk(queue) && QueueOk(done)
    ensures
      var queue' := Requeued(queue, done);
      && (forall q :: q in done && q.retries < MAX_DISCOVERY_RETRY ==>
            Wants(queue', q.subnet, q.minTtl, q.retries + 1))
      && (forall q :: q in done && q.retries == MAX_DISCOVERY_RETRY ==>
            forall e :: e in queue' && e.subnet == q.subnet ==> e in queue)
      && (forall e :: e in queue' ==> Returned(queue, done, e)) && NoShorter(queue, queue')
    decreases |done|
  {
    hide Upsert, NoShorter, Wants;
    if done == [] {
      SameIsNoShorter(queue);
    } else {
      var front, last := done[..|done| - 1], done[|done| - 1];
      var mid := Requeued(queue, front);
      assert done == front + [last];
      RequeuedAre(queue, front);
      RequeuedOk(queue, front);
      if last.retries < MAX_DISCOVERY_RETRY {
        UpsertKeepsFurthest(mid, last.subnet, last.minTtl, last.retries + 1);
        OneMoreReturned(queue, front, last, mid);
      } else {
        TooManyRetries(mid, last);
        NoneReturned(queue, front, last, mid);
      }
    }
  }

  lemma TooManyRetries(queue: seq<SubnetQuery>, q: SubnetQuery)
    requires q.retries >= MAX_DISCOVERY_RETRY
    ensures Upsert(queue, q.subnet, q.minTtl, q.retries + 1) == queue
  {
  }

  /** The entries of a subnet that no completed query is about are those of the queue. */
  lemma OnlyQueued(queue: seq<SubnetQuery>, front: seq<SubnetQuery>, last: SubnetQuery, mid: seq<SubnetQuery>)
    requires QueueOk(front + [last]) && forall e :: e in mid ==> Returned(queue, front, e)
    ensures forall e :: e in mid && e.subnet == last.subnet ==> e in queue
  {
    var done := front + [last];
    forall q | q in front
      ensures q.subnet != last.subnet
    {
      var j :| 0 <= j < |front| && front[j] == q;
      assert done[j].subnet != done[|front|].subnet;
    }
    assert forall e :: e in mid ==> Returned(queue, front, e);
  }

  lemma NoneReturned(queue: seq<SubnetQuery>, front: seq<SubnetQuery>, last: SubnetQuery, mid: seq<SubnetQuery>)
    requires QueueOk(front + [last]) && forall e :: e in mid ==> Returned(queue, front, e)
    ensures forall e :: e in mid ==> Returned(queue, front + [last], e)
    ensures forall e :: e in mid && e.subnet == last.subnet ==> e in queue
  {
    OnlyQueued(queue, front, last, mid);
  }

  lemma OneMoreReturned(queue: seq<SubnetQuery>, front: seq<SubnetQuery>, last: SubnetQuery, mid: seq<SubnetQuery>)
    requires QueueOk(mid) && QueueOk(front + [last]) && last.retries < MAX_DISCOVERY_RETRY && NoShorter(queue, mid)
    requires forall e :: e in mid ==> Returned(queue, front, e)
    requires forall q :: q in front && q.retries < MAX_DISCOVERY_RETRY ==> Wants(mid, q.subnet, q.minTtl, q.retries + 1)
    requires forall q :: q in front && q.retries == MAX_DISCOVERY_RETRY ==>
               forall e :: e in mid && e.subnet == q.subnet ==> e in queue
    ensures
      var done, after := front + [last], Upsert(mid, last.subnet, last.minTtl, last.retries + 1);
      && (forall q :: q in done && q.retries < MAX_DISCOVERY_RETRY ==>
            Wants(after, q.subnet, q.minTtl, q.retries + 1))
      && (forall q :: q in done && q.retries == MAX_DISCOVERY_RETRY ==>
            forall e :: e in after && e.subnet == q.subnet ==> e in queue)
      && (forall e :: e in after ==> Returned(queue, done, e)) && NoShorter(queue, after)
  {
    hide Upsert, NoShorter;
    var done, after := front + [last], Upsert(mid, last.subnet, last.minTtl, last.retries + 1);
    UpsertKeepsFurthest(mid, last.subnet, last.minTtl, last.retries + 1);
    NoShorterTransitive(queue, mid, after);
    forall q | q in front
      ensures q.subnet != last.subnet
    {
      var j :| 0 <= j < |front| && front[j] == q;
      assert done[j].subnet != done[|front|].subnet;
    }
    forall e | e in after
      ensures Returned(queue, done, e)
    {
      if e.subnet == last.subnet { assert last in done; } else { assert Returned(queue, front, e); }
    }
  }

  /** A search that failed returns none of its queries, one that succeeded all of them short of the limit. */
  lemma CompletionReturns(s: State, i: nat, failed: bool)
    requires Inv(s) && i < |s.active| && s.active[i].SubnetSearch?
    ensures
      var s' := Completed(s, i, failed);
      && s'.active == s.active[..i] + s.active[i + 1..] && s'.findPeerActive == s.findPeerActive
      && (failed ==> s'.queued == s.queued)
      && (!failed ==> forall q :: q in s.active[i].queries && q.retries < MAX_DISCOVERY_RETRY ==>
            Wants(s'.queued, q.subnet, q.minTtl, q.retries + 1))
      && NoShorter(s.queued, s'.queued)
  {
    hide Requeued, Wants, NoShorter;
    assert s.active[i] in s.active;
    RequeuedAre(s.queued, s.active[i].queries);
    SameIsNoShorter(s.queued);
  }

  // ---- What processing the queue does to each query ----

  /** The positions are ascending and list exactly the queries of `queue` still wanted at `now`. */
  ghost predicate WantedAt(queue: seq<SubnetQuery>, now: Instant, at: seq<nat>) {
    && (forall i, j :: 0 <= i < j < |at| ==> at[i] < at[j])
    && (forall i :: 0 <= i < |at| ==> at[i] < |queue|)
    && (forall k :: 0 <= k < |queue| ==> (k in at <==> queue[k].minTtl.None? || queue[k].minTtl.value >= now))
  }

  ghost predicate Picks(queue: seq<SubnetQuery>, at: seq<nat>, kept: seq<SubnetQuery>) {
    |kept| == |at| && forall i :: 0 <= i < |at| ==> at[i] < |queue| && kept[i] == queue[at[i]]
  }

  lemma {:induction false} UnexpiredAre(queue: seq<SubnetQuery>, now: Instant) returns (at: seq<nat>)
    ensures WantedAt(queue, now, at) && Picks(queue, at, Unexpired(queue, now))
    decreases |queue|
  {
    hide Unexpired, WantedAt, Picks;
    if queue == [] {
      at := [];
      NoneUnexpired(now);
    } else {
      var n := |queue| - 1;
      var rest := UnexpiredAre(queue[..n], now);
      UnexpiredMore(queue[..n], queue[n], now);
      assert queue == queue[..n] + [queue[n]];
      at := if queue[n].minTtl.Some? && queue[n].minTtl.value < now then rest else rest + [n];
      WantedMore(queue[..n], queue[n], now, rest);
      PicksMore(queue[..n], queue[n], rest, Unexpired(queue[..n], now));
    }
  }

  lemma NoneUnexpired(now: Instant)
    ensures Unexpired([], now) == [] && WantedAt([], now, []) && Picks([], [], [])
  {
  }

  lemma WantedMore(queue: seq<SubnetQuery>, q: SubnetQuery, now: Instant, at: seq<nat>)
    requires WantedAt(queue, now, at)
    ensures WantedAt(queue + [q], now, if q.minTtl.Some? && q.minTtl.value < now then at else at + [|queue|])
  {
    var at' := if q.minTtl.Some? && q.minTtl.value < now then at else at + [|queue|];
    forall k | 0 <= k < |queue|
      ensures k in at' <==> k in at
    {
    }
    assert |queue| !in at;
  }

  lemma PicksMore(queue: seq<SubnetQuery>, q: SubnetQuery, at: seq<nat>, kept: seq<SubnetQuery>)
    requires Picks(queue, at, kept)
    ensures Picks(queue + [q], at, kept + []) && Picks(queue + [q], at + [|queue|], kept + [q])
  {
  }

  lemma {:induction false} UnexpiredMore(queue: seq<SubnetQuery>, q: SubnetQuery, now: Instant)
    ensures Unexpired(queue + [q], now)
         == Unexpired(queue, now) + if q.minTtl.Some? && q.minTtl.value < now then [] else [q]
    decreases |queue|
  {
    if queue == [] {
      assert queue + [q] == [q] && [q][1..] == [];
    } else {
      assert (queue + [q])[1..] == queue[1..] + [q];
      UnexpiredMore(queue[1..], q, now);
    }
  }

  /** The groups handed out when the queue is processed. */
  function HandedOut(s: State, env: Env): seq<seq<SubnetQuery>> {
    Handed(s.(queued := Unexpired(s.queued, env.now)), env)
  }

  /**
   * Processing the queue hands out or keeps, in order, exactly the queries without a time or with a
   * time that is not past.
   */
  lemma ProcessingKeepsWanted(s: State, env: Env) returns (at: seq<nat>)
    ensures WantedAt(s.queued, env.now, at)
    ensures Picks(s.queued, at, Flatten(HandedOut(s, env)) + Processed(s, env).queued)
  {
    hide Dispatched, Handed, Flatten, Unexpired;
    at := UnexpiredAre(s.queued, env.now);
    DispatchLosesNothing(s.(queued := Unexpired(s.queued, env.now)), env);
  }

  /** So a queued query vanishes without being handed out if and only if its time is past. */
  lemma VanishesIffPast(s: State, env: Env, q: SubnetQuery)
    requires q in s.queued
    ensures q !in Flatten(HandedOut(s, env)) && q !in Processed(s, env).queued <==>
            q.minTtl.Some? && q.minTtl.value < env.now
  {
    hide Flatten, HandedOut, Processed;
    var at := ProcessingKeepsWanted(s, env);
    var handed, left := Flatten(HandedOut(s, env)), Processed(s, env).queued;
    var kept := handed + left;
    assert q in kept <==> q in handed || q in left;
    var k :| 0 <= k < |s.queued| && s.queued[k] == q;
    if k in at {
      var i :| 0 <= i < |at| && at[i] == k;
      assert kept[i] == q;
    }
    if q in kept {
      var i :| 0 <= i < |kept| && kept[i] == q;
      assert at[i] in at && s.queued[at[i]] == q;
    }
  }

  /** And what is searched for afterwards is what was before, and what was handed out and still needs peers. */
  lemma SearchedAfterIff(s: State, env: Env, q: SubnetQuery)
    ensures q in Searching(Processed(s, env).active) <==>
            || q in Searching(s.active)
            || (q in Flatten(HandedOut(s, env)) && env.hasForkId && env.goodPeers(q.subnet) < TARGET_SUBNET_PEERS)
  {
    hide Dispatched, Handed, Flatten, Searching, Unexpired;
    PoppedIsSearchedIff(s.(queued := Unexpired(s.queued, env.now)), env, q);
  }

  lemma CompleteKeepsInv(s: State, i: nat, failed: bool)
    requires Inv(s) && i < |s.active|
    ensures Inv(Completed(s, i, failed)) && Stuck(Completed(s, i, failed)) == Stuck(s)
  {
    var rest := RemoveAt(s.active, i);
    SubnetCountConcat(s.active[..i], s.active[i + 1..]);
    SubnetCountConcat(s.active[..i], s.active[i..]);
    assert s.active == s.active[..i] + s.active[i..] && s.active[i..][1..] == s.active[i + 1..];
    assert forall a :: a in rest ==> a in s.active;
    if s.active[i].SubnetSearch? {
      RequeuedOk(s.queued, s.active[i].queries);
    }
  }

  lemma PeersRequestedKeepsInv(s: State, hasForkId: bool)
    requires Inv(s)
    ensures Inv(PeersRequested(s, hasForkId))
    ensures Stuck(PeersRequested(s, hasForkId)) <==> Stuck(s) || (!s.findPeerActive && !hasForkId)
  {
    SubnetCountConcat(s.active, [FindPeers]);
    assert SubnetCount([FindPeers]) == 0;
  }

  /** Every step keeps the invariant; only a FindPeers request without a fork id gets it stuck. */
  lemma StepKeepsInv(s: State, op: Op)
    requires Inv(s) && Enabled(s, op)
    ensures Inv(Step(s, op))
    ensures Stuck(Step(s, op)) <==> Stuck(s) || (op.RequestPeers? && !op.hasForkId && !s.findPeerActive)
  {
    match op
    case RequestSubnets(subnets) => RequestedOk(s.queued, subnets);
    case RequestPeers(hasForkId) => PeersRequestedKeepsInv(s, hasForkId);
    case Process(env) =>
      SubsequenceOk(s.queued, env);
      DispatchKeepsInv(s.(queued := Unexpired(s.queued, env.now)), env);
    case Complete(i, failed) => CompleteKeepsInv(s, i, failed);
  }

  /** A FindPeers query was requested, with none under way, while the local ENR had no fork id. */
  ghost predicate LostFindPeers(ops: seq<Op>)
    requires IsRun(ops)
    decreases |ops|
  {
    && ops != []
    && (|| LostFindPeers(ops[..|ops| - 1])
        || (var s, op := Run(ops[..|ops| - 1]), ops[|ops| - 1];
            op.RequestPeers? && !op.hasForkId && !s.findPeerActive))
  }

  /**
   * The scheduler's promises over every run: one queue entry per subnet, groups of one to three,
   * at most one FindPeers query, and at most two subnet queries at a time, or three from the moment
   * a FindPeers request was lost for want of a fork id.
   */
  lemma {:induction false} RunKeepsInv(ops: seq<Op>)
    requires IsRun(ops)
    ensures Inv(Run(ops))
    ensures Stuck(Run(ops)) <==> LostFindPeers(ops)
    ensures SubnetCount(Run(ops).active) <= MAX_CONCURRENT_SUBNET_QUERIES + (if LostFindPeers(ops) then 1 else 0)
    decreases |ops|
  {
    if ops != [] {
      RunKeepsInv(ops[..|ops| - 1]);
      StepKeepsInv(Run(ops[..|ops| - 1]), ops[|ops| - 1]);
    }
  }

  /** The ENRs the program builds carry their fork id, and with such ENRs no request for peers gets lost. */
  predicate ForkIdKept(ops: seq<Op>) {
    forall i :: 0 <= i < |ops| && ops[i].RequestPeers? ==> ops[i].hasForkId
  }

  /** There at most two subnet searches are under way, and the capacity test stops every third one. */
  lemma {:induction false} TwoSearchesWithForkId(ops: seq<Op>)
    requires IsRun(ops) && ForkIdKept(ops)
    ensures !LostFindPeers(ops) && !Stuck(Run(ops))
    ensures SubnetCount(Run(ops).active) <= MAX_CONCURRENT_SUBNET_QUERIES
    ensures SubnetCount(Run(ops).active) == MAX_CONCURRENT_SUBNET_QUERIES ==> AtCapacity(Run(ops))
    decreases |ops|
  {
    hide Run, Stuck, SubnetCount, AtCapacity;
    RunKeepsInv(ops);
    if ops != [] {
      TwoSearchesWithForkId(ops[..|ops| - 1]);
    }
    if SubnetCount(Run(ops).active) == MAX_CONCURRENT_SUBNET_QUERIES {
      RoomForThirdIffStuck(Run(ops));
    }
  }

  /** With two subnet queries running there is room for another exactly in the stuck state. */
  lemma RoomForThirdIffStuck(s: State)
    requires Inv(s) && SubnetCount(s.active) == MAX_CONCURRENT_SUBNET_QUERIES
    ensures !AtCapacity(s) <==> Stuck(s)
  {
  }

  /** Otherwise there is room exactly for fewer than two searches, or three in the stuck state. */
  lemma CapacityIff(s: State)
    requires Inv(s)
    ensures AtCapacity(s) <==> SubnetCount(s.active) >= 2 + if Stuck(s) then 1 else 0
  {
  }

  /** And then a queued query whose subnet still needs peers does start as the third. */
  lemma ThirdSearchStarts(s: State, q: SubnetQuery, env: Env)
    requires Inv(s) && Stuck(s) && SubnetCount(s.active) == MAX_CONCURRENT_SUBNET_QUERIES
    requires s.queued == [q] && env.hasForkId && env.goodPeers(q.subnet) < TARGET_SUBNET_PEERS
    ensures SubnetCount(Dispatched(s, env).active) == 3
  {
    RoomForThirdIffStuck(s);
    assert s.queued[..1] == [q] && s.queued[1..] == [];
    assert StillNeeded([q], env) == [q];
    SubnetCountConcat(s.active, [SubnetSearch([q])]);
    assert SubnetCount([SubnetSearch([q])]) == 1;
  }

  lemma RunMore(ops: seq<Op>, op: Op)
    requires IsRun(ops) && Enabled(Run(ops), op)
    ensures IsRun(ops + [op]) && Run(ops + [op]) == Step(Run(ops), op)
  {
    assert (ops + [op])[..|ops|] == ops;
  }

  /** Asking for one subnet with nothing queued. */
  lemma AskForOne(s: State, subnet: Subnet)
    requires s.queued == []
    ensures Step(s, RequestSubnets([(subnet, None)])) == s.(queued := [SubnetQuery(subnet, None, 0)])
  {
    var subnets: seq<(Subnet, Option<Instant>)> := [(subnet, None)];
    assert subnets[..0] == [];
    assert Requested(s.queued, subnets) == Upsert(Requested(s.queued, []), subnet, None, 0);
  }

  /** Processing a queue of one while there is room. */
  lemma ProcessOne(s: State, q: SubnetQuery, env: Env)
    requires s.queued == [q] && !AtCapacity(s)
    requires q.minTtl.None? && env.hasForkId && env.goodPeers(q.subnet) < TARGET_SUBNET_PEERS
    ensures Step(s, Process(env)) == State([], s.active + [SubnetSearch([q])], s.findPeerActive)
  {
    assert [q][1..] == [] && [q][..1] == [q];
    assert StillNeeded([], env) == [] && Unexpired([], env.now) == [] && !q.Expired(env.now);
    assert [q] + [] == [q];
    assert Unexpired([q], env.now) == [q] + Unexpired([q][1..], env.now);
    assert StillNeeded([q], env) == [q] + StillNeeded([q][1..], env);
    assert s.(queued := Unexpired(s.queued, env.now)) == s;
    var s' := State([], StartedSubnets(s.active, [q], env), s.findPeerActive);
    assert Dispatched(s, env) == Dispatched(s', env);
  }

  /** Asking for a subnet and processing the queue starts one more search, while there is room. */
  lemma OneMoreSearch(ops: seq<Op>, subnet: Subnet) returns (ops': seq<Op>)
    requires IsRun(ops) && Run(ops).queued == [] && !AtCapacity(Run(ops))
    ensures IsRun(ops') && Run(ops').queued == [] && Run(ops').findPeerActive == Run(ops).findPeerActive
    ensures Run(ops').active == Run(ops).active + [SubnetSearch([SubnetQuery(subnet, None, 0)])]
  {
    hide Step;
    var env := Env(0, (_: Subnet) => 0, true);
    AskForOne(Run(ops), subnet);
    RunMore(ops, RequestSubnets([(subnet, None)]));
    var mid := ops + [RequestSubnets([(subnet, None)])];
    ProcessOne(Run(mid), SubnetQuery(subnet, None, 0), env);
    RunMore(mid, Process(env));
    ops' := mid + [Process(env)];
  }

  /** On some run whose first request for peers finds no fork id, three searches are under way at once. */
  lemma ThirdSearchReachable() returns (ops: seq<Op>)
    ensures IsRun(ops) && LostFindPeers(ops) && SubnetCount(Run(ops).active) == 3
  {
    hide Step, IsRun;
    RunsFromStart();
    RunMore([], RequestPeers(false));
    LosesFindPeers();
    ops := [] + [RequestPeers(false)];
    ops := OneMoreSearch(ops, Attestation(0));
    ops := OneMoreSearch(ops, Attestation(1));
    ops := OneMoreSearch(ops, Attestation(2));
    var one := (n: nat) => SubnetSearch([SubnetQuery(Attestation(n), None, 0)]);
    assert Run(ops).active == [one(0), one(1), one(2)];
    CountThree(one(0), one(1), one(2));
    RunKeepsInv(ops);
  }

  lemma RunsFromStart()
    ensures IsRun([]) && Run([]) == Initial
  {
  }

  lemma LosesFindPeers()
    ensures Step(Initial, RequestPeers(false)) == State([], [], true)
  {
  }

  lemma CountThree(a: QueryType, b: QueryType, c: QueryType)
    requires a.SubnetSearch? && b.SubnetSearch? && c.SubnetSearch?
    ensures SubnetCount([a, b, c]) == 3
  {
    var all := [a, b, c];
    assert all[1..] == [b, c] && all[1..][1..] == [c] && all[1..][1..][1..] == [];
    assert SubnetCount([c]) == 1 && SubnetCount([b, c]) == 2;
  }

  /** Subnets requested from outside over a run. */
  function Requests(ops: seq<Op>): nat
    decreases |ops|
  {
    if ops == [] then 0
    else Requests(ops[..|ops| - 1]) + if ops[|ops| - 1].RequestSubnets? then |ops[|ops| - 1].subnets| else 0
  }

  ghost predicate CompletesSearch(s: State, op: Op)
    requires Enabled(s, op)
  {
    op.Complete? && s.active[op.index].SubnetSearch?
  }

  /** Subnet searches completed over a run. */
  ghost function Searches(ops: seq<Op>): nat
    requires IsRun(ops)
    decreases |ops|
  {
    if ops == [] then 0
    else Searches(ops[..|ops| - 1])
         + if CompletesSearch(Run(ops[..|ops| - 1]), ops[|ops| - 1]) then 1 else 0
  }

  /** Completing a subnet search strictly lowers the potential, even when its queries merge into queued ones. */
  lemma CompletionLowersPotential(s: State, i: nat, failed: bool)
    requires Inv(s) && i < |s.active|
    ensures Potential(Completed(s, i, failed)) <= Potential(s)
    ensures s.active[i].SubnetSearch? ==> Potential(Completed(s, i, failed)) < Potential(s)
  {
    RemoveAtTotal(s.active, i);
    if s.active[i].SubnetSearch? {
      var g := s.active[i].queries;
      assert s.active[i] in s.active;
      RequeuedTotal(s.queued, g);
      assert g[0] in g;
      assert Total(g) >= Attempts(g[0]) > 0;
    }
  }

  lemma StepPotential(s: State, op: Op)
    requires Inv(s) && Enabled(s, op)
    ensures Potential(Step(s, op)) + (if CompletesSearch(s, op) then 1 else 0)
         <= Potential(s) + (MAX_DISCOVERY_RETRY + 1) * (if op.RequestSubnets? then |op.subnets| else 0)
  {
    match op
    case RequestSubnets(subnets) => RequestedOk(s.queued, subnets);
    case RequestPeers(_) =>
      TotalActiveConcat(s.active, [FindPeers]);
      assert TotalActive([FindPeers]) == 0;
    case Process(env) =>
      UnexpiredTotal(s.queued, env.now);
      DispatchPotential(s.(queued := Unexpired(s.queued, env.now)), env);
    case Complete(i, failed) => CompletionLowersPotential(s, i, failed);
  }

  /** Searching ends: over every run there are at most four searches per requested subnet. */
  lemma {:induction false} SearchesBounded(ops: seq<Op>)
    requires IsRun(ops)
    ensures Potential(Run(ops)) + Searches(ops) <= (MAX_DISCOVERY_RETRY + 1) * Requests(ops)
    decreases |ops|
  {
    if ops != [] {
      SearchesBounded(ops[..|ops| - 1]);
      RunKeepsInv(ops[..|ops| - 1]);
      StepPotential(Run(ops[..|ops| - 1]), ops[|ops| - 1]);
    }
  }

  // ---- The results of a search ----

  /** An ENR found by a search: its peer and the subnets its bitfields advertise. */
  datatype Found = Found(peer: PeerId, subnets: set<Subnet>)

  type Results = map<PeerId, Option<Instant>>

  /** Records that `peer` serves a query with that `min_ttl`. */
  function Recorded(m: Results, peer: PeerId, ttl: Option<Instant>): Results {
    if peer !in m then m[peer := ttl]
    else if ttl.None? then m
    else if m[peer].None? then m[peer := ttl]
    else if SatSub(ttl.value, m[peer].value) > DURATION_DIFFERENCE then m[peer := ttl]
    else m
  }

  /** `hits` lists the (peer, min_ttl) pairs seen so far; `m` keeps, per peer, a furthest one up to a millisecond. */
  ghost predicate Summarises(m: Results, hits: seq<(PeerId, Option<Instant>)>) {
    && (forall h :: h in hits ==> h.0 in m)
    && (forall p :: p in m ==> (p, m[p]) in hits)
    && (forall h :: h in hits && h.1.Some? ==> m[h.0].Some? && h.1.value <= m[h.0].value + DURATION_DIFFERENCE)
  }

  lemma RecordedSummarises(m: Results, hits: seq<(PeerId, Option<Instant>)>, peer: PeerId, ttl: Option<Instant>)
    requires Summarises(m, hits)
    ensures Summarises(Recorded(m, peer, ttl), hits + [(peer, ttl)])
  {
    var m', hits' := Recorded(m, peer, ttl), hits + [(peer, ttl)];
    assert (peer, ttl) in hits' && forall h :: h in hits ==> h in hits';
    forall p | p in m'
      ensures (p, m'[p]) in hits'
    {
      if p != peer { assert (p, m[p]) in hits; }
    }
  }

  /** The result of a search for any peers: each found one, without a time. */
  function AnyTime(found: seq<Found>): Results {
    var peers := set f | f in found :: f.peer;
    map p | p in peers :: None
  }

  /** The pairs a search yields: every found peer for every query whose subnet it serves. */
  function HitsOf(q: SubnetQuery, found: seq<Found>): seq<(PeerId, Option<Instant>)> {
    if found == [] then []
    else
      HitsOf(q, found[..|found| - 1])
      + if q.subnet in found[|found| - 1].subnets then [(found[|found| - 1].peer, q.minTtl)] else []
  }

  function Hits(queries: seq<SubnetQuery>, found: seq<Found>): seq<(PeerId, Option<Instant>)> {
    if queries == [] then [] else Hits(queries[..|queries| - 1], found) + HitsOf(queries[|queries| - 1], found)
  }

  lemma {:induction false} HitsOfAre(q: SubnetQuery, found: seq<Found>)
    ensures forall h :: h in HitsOf(q, found) <==>
              exists f :: f in found && q.subnet in f.subnets && h == (f.peer, q.minTtl)
    decreases |found|
  {
    if found != [] {
      HitsOfAre(q, found[..|found| - 1]);
      assert found == found[..|found| - 1] + [found[|found| - 1]];
    }
  }

  /** A pair is a hit exactly when some found peer serves the subnet of some query with that `min_ttl`. */
  lemma {:induction false} HitsAre(queries: seq<SubnetQuery>, found: seq<Found>)
    ensures forall h :: h in Hits(queries, found) <==>
              exists q, f :: q in queries && f in found && q.subnet in f.subnets && h == (f.peer, q.minTtl)
    decreases |queries|
  {
    if queries != [] {
      HitsAre(queries[..|queries| - 1], found);
      HitsOfAre(queries[|queries| - 1], found);
      assert queries == queries[..|queries| - 1] + [queries[|queries| - 1]];
    }
  }

  method MapResults(queries: seq<SubnetQuery>, found: seq<Found>) returns (m: Results)
    ensures Summarises(m, Hits(queries, found))
  {
    m := map[];
    for i := 0 to |queries|
      invariant Summarises(m, Hits(queries[..i], found))
    {
      assert queries[..i + 1][..i] == queries[..i];
      ghost var before := Hits(queries[..i], found);
      var q := queries[i];
      assert HitsOf(q, found[..0]) == [] && before + [] == before;
      for j := 0 to |found|
        invariant Summarises(m, before + HitsOf(q, found[..j]))
      {
        assert found[..j + 1][..j] == found[..j];
        if q.subnet in found[j].subnets {
          RecordedSummarises(m, before + HitsOf(q, found[..j]), found[j].peer, q.minTtl);
          assert before + HitsOf(q, found[..j]) + [(found[j].peer, q.minTtl)] == before + HitsOf(q, found[..j + 1]);
          m := Recorded(m, found[j].peer, q.minTtl);
        } else {
          assert HitsOf(q, found[..j + 1]) == HitsOf(q, found[..j]);
        }
      }
      assert found[..|found|] == found;
    }
    assert queries[..|queries|] == queries;
  }

  // ---- The scheduler itself ----

  class Discovery {
    const started: bool
    var findPeerActive: bool
    var queuedQueries: seq<SubnetQuery>
    var activeQueries: seq<QueryType>

    constructor (started: bool)
      ensures this.started == started && View() == Initial
    {
      this.started := started;
      findPeerActive, queuedQueries, activeQueries := false, [], [];
    }

    ghost function View(): State
      reads this
    {
      State(queuedQueries, activeQueries, findPeerActive)
    }

    method AddSubnetQuery(subnet: Subnet, minTtl: Option<Instant>, retries: nat)
      modifies this`queuedQueries
      ensures queuedQueries == Upsert(old(queuedQueries), subnet, minTtl, retries)
    {
      if retries > MAX_DISCOVERY_RETRY {
        return;
      }
      var found := false;
      var i := 0;
      while i < |queuedQueries|
        invariant i <= |queuedQueries| && !found && queuedQueries == old(queuedQueries)
        invariant forall j :: 0 <= j < i ==> queuedQueries[j].subnet != subnet
      {
        if queuedQueries[i].subnet == subnet {
          UpsertAt(queuedQueries, i, subnet, minTtl, retries);
          var q := queuedQueries[i];
          if TtlBelow(q.minTtl, minTtl) {
            q := q.(minTtl := minTtl);
          }
          queuedQueries := queuedQueries[i := q.(retries := retries)];
          found := true;
          break;
        }
        i := i + 1;
      }
      if !found {
        UpsertAt(queuedQueries, i, subnet, minTtl, retries);
        queuedQueries := queuedQueries + [SubnetQuery(subnet, minTtl, retries)];
      }
    }

    method DiscoverSubnetPeers(subnets: seq<(Subnet, Option<Instant>)>)
      modifies this`queuedQueries
      ensures queuedQueries == if started then Requested(old(queuedQueries), subnets) else old(queuedQueries)
    {
      if !started {
        return;
      }
      for i := 0 to |subnets|
        invariant queuedQueries == Requested(old(queuedQueries), subnets[..i])
      {
        assert subnets[..i + 1][..i] == subnets[..i];
        AddSubnetQuery(subnets[i].0, subnets[i].1, 0);
      }
      assert subnets[..|subnets|] == subnets;
    }

    method DiscoverPeers(hasForkId: bool)
      modifies this`findPeerActive, this`activeQueries
      ensures View() == if started then PeersRequested(old(View()), hasForkId) else old(View())
    {
      if !started || findPeerActive {
        return;
      }
      findPeerActive := true;
      StartQuery(FindPeers, hasForkId);
    }

    method StartQuery(query: QueryType, hasForkId: bool)
      modifies this`activeQueries
      ensures activeQueries == Started(old(activeQueries), query, hasForkId)
    {
      if query.SubnetSearch? && query.queries == [] {
        return;
      }
      if !hasForkId {
        return;
      }
      activeQueries := activeQueries + [query];
    }

    method StartSubnetQuery(subnetQueries: seq<SubnetQuery>, env: Env)
      modifies this`activeQueries
      ensures activeQueries == StartedSubnets(old(activeQueries), subnetQueries, env)
    {
      var needed := StillNeeded(subnetQueries, env);
      if needed != [] {
        StartQuery(SubnetSearch(needed), env.hasForkId);
      }
    }

    /** Pops queries one by one into groups; equal to cutting groups of three off the queue. */
    method ProcessQueue(env: Env) returns (processed: bool)
      modifies this`queuedQueries, this`activeQueries
      ensures View() == Processed(old(View()), env)
      ensures processed <==> Handed(old(View()).(queued := Unexpired(old(queuedQueries), env.now)), env) != []
    {
      hide StartedSubnets, Unexpired, Dispatched, Handed;
      queuedQueries := Unexpired(queuedQueries, env.now);
      ghost var s0 := View();
      var group: seq<SubnetQuery> := [];
      processed := false;
      assert group + queuedQueries == queuedQueries;
      while !AtCapacity(State([], activeQueries, findPeerActive)) && queuedQueries != []
        invariant |group| < MAX_SUBNETS_IN_QUERY
        invariant group != [] ==> queuedQueries != [] && !AtCapacity(View())
        invariant Dispatched(State(group + queuedQueries, activeQueries, findPeerActive), env) == Dispatched(s0, env)
        invariant processed ==> Handed(s0, env) != []
        invariant !processed ==>
                    Handed(State(group + queuedQueries, activeQueries, findPeerActive), env) == Handed(s0, env)
        decreases |queuedQueries|
      {
        ghost var whole := group + queuedQueries;
        var query := queuedQueries[0];
        queuedQueries := queuedQueries[1..];
        group := group + [query];
        assert group + queuedQueries == whole;
        if |group| == MAX_SUBNETS_IN_QUERY || queuedQueries == [] {
          CutGroup(State(whole, activeQueries, findPeerActive), group, queuedQueries, env);
          StartSubnetQuery(group, env);
          group := [];
          assert group + queuedQueries == queuedQueries;
          processed := true;
        }
      }
      assert group + queuedQueries == queuedQueries;
      DispatchStops(View(), env);
    }

    /** A search has finished: its queries go back to the queue and its peers are reported. */
    method ProcessCompletedQuery(i: nat, result: Result<seq<Found>, ()>) returns (peers: Option<Results>)
      requires i < |activeQueries|
      modifies this
      ensures View() == Completed(old(View()), i, result.Err?)
      ensures
        match old(activeQueries)[i]
        case FindPeers =>
          && (peers.Some? <==> result.Ok? && result.value != [])
          && (peers.Some? ==> forall p ::
                (p in peers.value <==> exists f :: f in result.value && f.peer == p)
                && (p in peers.value ==> peers.value[p].None?))
        case SubnetSearch(queries) =>
          var hits := if result.Ok? then Hits(queries, result.value) else [];
          if peers.Some? then peers.value != map[] && Summarises(peers.value, hits) else hits == []
    {
      var query := activeQueries[i];
      activeQueries := RemoveAt(activeQueries, i);
      peers := None;
      match query {
        case FindPeers =>
          findPeerActive := false;
          if result.Ok? && result.value != [] {
            peers := Some(AnyTime(result.value));
          }
        case SubnetSearch(queries) =>
          if result.Ok? {
            for k := 0 to |queries|
              invariant queuedQueries == Requeued(old(queuedQueries), queries[..k])
              invariant activeQueries == RemoveAt(old(activeQueries), i) && findPeerActive == old(findPeerActive)
            {
              assert queries[..k + 1][..k] == queries[..k];
              AddSubnetQuery(queries[k].subnet, queries[k].minTtl, queries[k].retries + 1);
            }
            assert queries[..|queries|] == queries;
            var m := MapResults(queries, result.value);
            if Hits(queries, result.value) != [] {
              HitsAreReported(m, Hits(queries, result.value));
            }
            if m != map[] {
              peers := Some(m);
            }
          }
      }
    }
  }

  /** Starting the group at the front of the queue is one turn of the simple form. */
  lemma CutGroup(s: State, group: seq<SubnetQuery>, rest: seq<SubnetQuery>, env: Env)
    requires s.queued == group + rest && |group| == GroupSize(s.queued) && s.queued != [] && !AtCapacity(s)
    ensures Dispatched(s, env) == Dispatched(State(rest, StartedSubnets(s.active, group, env), s.findPeerActive), env)
    ensures Handed(s, env) != []
  {
    hide StartedSubnets;
    assert s.queued[..|group|] == group && s.queued[|group|..] == rest;
  }

  lemma HitsAreReported(m: Results, hits: seq<(PeerId, Option<Instant>)>)
    requires Summarises(m, hits) && hits != []
    ensures m != map[]
  {
    assert hits[0] in hits;
  }
}
