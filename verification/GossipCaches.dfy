/** src/network/gossip_cache.rs: messages that could not be published, kept for a retry. */
module GossipCaches {
  import opened Common
  import opened DelayQueues
  import opened Topics

  type Data = seq<u8>

  type Message = (GossipTopic, Data)

  /** How long to keep messages of each kind; kinds without a timeout are not kept. */
  datatype Timeouts = Timeouts(
    beaconBlock: Option<nat>,
    aggregates: Option<nat>,
    attestation: Option<nat>,
    voluntaryExit: Option<nat>,
    proposerSlashing: Option<nat>,
    attesterSlashing: Option<nat>,
    signedContributionAndProof: Option<nat>,
    syncCommitteeMessage: Option<nat>)
  {
    function For(kind: GossipKind): Option<nat> {
      match kind
      case BeaconBlock => beaconBlock
      case BeaconAggregateAndProof => aggregates
      case AttestationSubnet(_) => attestation
      case VoluntaryExit => voluntaryExit
      case ProposerSlashing => proposerSlashing
      case AttesterSlashing => attesterSlashing
      case SignedContributionAndProof => signedContributionAndProof
      case SyncCommitteeMessage(_) => syncCommitteeMessage
    }
  }

  /** `GossipCacheBuilder`: each setter enables the timeout of one kind and leaves the others alone. */
  datatype Builder = Builder(defaultTimeout: Option<nat>, own: Timeouts)
  {
    function DefaultTimeout(t: nat): (r: Builder)
      ensures forall kind :: r.Build().For(kind) == if own.For(kind).Some? then own.For(kind) else Some(t)
    {
      this.(defaultTimeout := Some(t))
    }

    function BeaconBlockTimeout(t: nat): (r: Builder)
      ensures forall kind :: r.Build().For(kind) == if kind.BeaconBlock? then Some(t) else Build().For(kind)
    {
      this.(own := own.(beaconBlock := Some(t)))
    }

    function AggregatesTimeout(t: nat): (r: Builder)
      ensures forall kind :: r.Build().For(kind) == if kind.BeaconAggregateAndProof? then Some(t) else Build().For(kind)
    {
      this.(own := own.(aggregates := Some(t)))
    }

    function AttestationTimeout(t: nat): (r: Builder)
      ensures forall kind :: r.Build().For(kind) == if kind.AttestationSubnet? then Some(t) else Build().For(kind)
    {
      this.(own := own.(attestation := Some(t)))
    }

    function VoluntaryExitTimeout(t: nat): (r: Builder)
      ensures forall kind :: r.Build().For(kind) == if kind.VoluntaryExit? then Some(t) else Build().For(kind)
    {
      this.(own := own.(voluntaryExit := Some(t)))
    }

    function ProposerSlashingTimeout(t: nat): (r: Builder)
      ensures forall kind :: r.Build().For(kind) == if kind.ProposerSlashing? then Some(t) else Build().For(kind)
    {
      this.(own := own.(proposerSlashing := Some(t)))
    }

    function AttesterSlashingTimeout(t: nat): (r: Builder)
      ensures forall kind :: r.Build().For(kind) == if kind.AttesterSlashing? then Some(t) else Build().For(kind)
    {
      this.(own := own.(attesterSlashing := Some(t)))
    }

    function SignedContributionAndProofTimeout(t: nat): (r: Builder)
      ensures forall kind ::
                r.Build().For(kind) == if kind.SignedContributionAndProof? then Some(t) else Build().For(kind)
    {
      this.(own := own.(signedContributionAndProof := Some(t)))
    }

    function SyncCommitteeMessageTimeout(t: nat): (r: Builder)
      ensures forall kind :: r.Build().For(kind) == if kind.SyncCommitteeMessage? then Some(t) else Build().For(kind)
    {
      this.(own := own.(syncCommitteeMessage := Some(t)))
    }

    function Or(t: Option<nat>): Option<nat> { if t.Some? then t else defaultTimeout }

    /** A kind without a timeout of its own gets the default one, if there is any. */
    function Build(): Timeouts {
      Timeouts(Or(own.beaconBlock), Or(own.aggregates), Or(own.attestation), Or(own.voluntaryExit),
               Or(own.proposerSlashing), Or(own.attesterSlashing), Or(own.signedContributionAndProof),
               Or(own.syncCommitteeMessage))
    }
  }

  /** What the cache is for: a set of messages, each with the time it expires. */
  type Contents = map<Message, Instant>

  function Inserted(t: Timeouts, c: Contents, topic: GossipTopic, data: Data, now: Instant): Contents {
    var timeout := t.For(topic.kind);
    if timeout.None? then c else c[(topic, data) := now + timeout.value]
  }

  function OfTopic(c: Contents, topic: GossipTopic): set<Message> { set m | m in c && m.0 == topic }

  datatype PollResult = Pending | Finished | Expired(topic: GossipTopic) | TimerFault

  type TopicMsgs = map<GossipTopic, map<Data, TimerKey>>

  /** The timer key registered for a message. */
  function KeyOf(msgs: TopicMsgs, m: Message): Option<TimerKey> {
    if m.0 in msgs && m.1 in msgs[m.0] then Some(msgs[m.0][m.1]) else None
  }

  ghost predicate NoEmptyTopic(msgs: TopicMsgs) {
    forall t :: t in msgs ==> msgs[t] != map[]
  }

  /** Every registered key is the live timer of its message, and every live timer is registered. */
  ghost predicate Bijection(queue: DelayQueue<Message>, msgs: TopicMsgs) {
    && (forall m :: KeyOf(msgs, m).Some? ==>
          KeyOf(msgs, m).value in queue && queue[KeyOf(msgs, m).value].item == m)
    && (forall k :: k in queue ==> KeyOf(msgs, queue[k].item) == Some(k))
  }

  ghost function Abs(queue: DelayQueue<Message>, msgs: TopicMsgs): Contents
    requires Bijection(queue, msgs)
  {
    map m | m in (set k | k in queue :: queue[k].item) :: queue[KeyOf(msgs, m).value].deadline
  }

  /** `Abs` holds exactly the registered messages, with the deadlines of their timers. */
  lemma AbsIs(queue: DelayQueue<Message>, msgs: TopicMsgs)
    requires Bijection(queue, msgs)
    ensures forall m :: m in Abs(queue, msgs) <==> KeyOf(msgs, m).Some?
    ensures forall m :: m in Abs(queue, msgs) ==> Abs(queue, msgs)[m] == queue[KeyOf(msgs, m).value].deadline
  {
    hide KeyOf;
  }

  lemma KeyOfRegister(msgs: TopicMsgs, m: Message, key: TimerKey, m': Message)
    ensures
      var old_: map<Data, TimerKey> := if m.0 in msgs then msgs[m.0] else map[];
      KeyOf(msgs[m.0 := old_[m.1 := key]], m') == if m' == m then Some(key) else KeyOf(msgs, m')
  {
  }

  lemma KeyOfDrop(msgs: TopicMsgs, m: Message, x: Message)
    requires KeyOf(msgs, m).Some?
    ensures
      var left := msgs[m.0] - {m.1};
      KeyOf(if left == map[] then msgs - {m.0} else msgs[m.0 := left], x) == if x == m then None else KeyOf(msgs, x)
  {
    if x.0 == m.0 && x.1 in msgs[m.0] && x.1 != m.1 {
      assert x.1 in msgs[m.0] - {m.1};
    }
  }

  lemma Register(queue: DelayQueue<Message>, msgs: TopicMsgs, m: Message, key: TimerKey, deadline: Instant,
                 msgs': TopicMsgs)
    requires Bijection(queue, msgs) && KeyOf(msgs, m).None? && key !in queue
    requires forall x :: KeyOf(msgs', x) == if x == m then Some(key) else KeyOf(msgs, x)
    ensures
      var queue' := queue[key := Timer(m, deadline)];
      Bijection(queue', msgs') && Abs(queue', msgs') == Abs(queue, msgs)[m := deadline]
  {
    hide KeyOf, Abs;
    var queue' := queue[key := Timer(m, deadline)];
    AbsIs(queue, msgs);
    AbsIs(queue', msgs');
  }

  lemma Refresh(queue: DelayQueue<Message>, msgs: TopicMsgs, m: Message, deadline: Instant)
    requires Bijection(queue, msgs) && KeyOf(msgs, m).Some?
    ensures
      var queue' := queue[KeyOf(msgs, m).value := Timer(m, deadline)];
      Bijection(queue', msgs) && Abs(queue', msgs) == Abs(queue, msgs)[m := deadline]
  {
    hide KeyOf, Abs;
    var queue' := queue[KeyOf(msgs, m).value := Timer(m, deadline)];
    AbsIs(queue, msgs);
    AbsIs(queue', msgs);
  }

  /** Removing some messages together with exactly their timers. */
  lemma Unregister(queue: DelayQueue<Message>, msgs: TopicMsgs, gone: set<Message>,
                   queue': DelayQueue<Message>, msgs': TopicMsgs)
    requires Bijection(queue, msgs)
    requires forall x :: KeyOf(msgs', x) == if x in gone then None else KeyOf(msgs, x)
    requires forall k :: k in queue' <==> k in queue && queue[k].item !in gone
    requires forall k :: k in queue' ==> queue'[k] == queue[k]
    ensures Bijection(queue', msgs') && Abs(queue', msgs') == Abs(queue, msgs) - gone
  {
    hide KeyOf, Abs;
    forall m | KeyOf(msgs', m).Some?
      ensures KeyOf(msgs', m).value in queue' && queue'[KeyOf(msgs', m).value].item == m
    {
      assert KeyOf(msgs, m).Some?;
    }
    forall k | k in queue'
      ensures KeyOf(msgs', queue'[k].item) == Some(k)
    {
      assert k in queue;
    }
    AbsIs(queue, msgs);
    AbsIs(queue', msgs');
  }

  class GossipCache {
    const timeouts: Timeouts
    var expirations: DelayQueue<Message>
    var topicMsgs: TopicMsgs

    ghost predicate Valid()
      reads this
    {
      NoEmptyTopic(topicMsgs) && Bijection(expirations, topicMsgs)
    }

    /** The cached messages with their deadlines. */
    ghost function View(): Contents
      requires Valid()
      reads this
    {
      Abs(expirations, topicMsgs)
    }

    constructor (builder: Builder)
      ensures Valid() && View() == map[] && timeouts == builder.Build()
    {
      timeouts := builder.Build();
      expirations, topicMsgs := map[], map[];
    }

    method Insert(topic: GossipTopic, data: Data, now: Instant)
      requires Valid()
      modifies this
      ensures Valid()
      ensures View() == Inserted(timeouts, old(View()), topic, data, now)
    {
      hide Bijection, Abs;
      var timeout := timeouts.For(topic.kind);
      if timeout.None? {
        return;
      }
      var deadline := now + timeout.value;
      var msgs: map<Data, TimerKey> := if topic in topicMsgs then topicMsgs[topic] else map[];
      if data in msgs {
        var key := msgs[data];
        LiveTimer(expirations, topicMsgs, (topic, data));
        Refresh(expirations, topicMsgs, (topic, data), deadline);
        expirations := expirations[key := Timer(expirations[key].item, deadline)];
      } else {
        ghost var free := FreshKeyExists(expirations);
        var key: TimerKey :| key !in expirations;
        ghost var msgs' := topicMsgs[topic := msgs[data := key]];
        forall x
          ensures KeyOf(msgs', x) == if x == (topic, data) then Some(key) else KeyOf(topicMsgs, x)
        {
          KeyOfRegister(topicMsgs, (topic, data), key, x);
        }
        Register(expirations, topicMsgs, (topic, data), key, deadline, msgs');
        expirations := expirations[key := Timer((topic, data), deadline)];
        topicMsgs := topicMsgs[topic := msgs[data := key]];
      }
    }

    /** Takes all messages of a topic out of the cache, cancelling their timers. */
    method Retrieve(topic: GossipTopic) returns (r: Option<set<Data>>)
      requires Valid()
      modifies this
      ensures Valid()
      ensures View() == old(View()) - OfTopic(old(View()), topic)
      ensures r == if OfTopic(old(View()), topic) == {} then None
                   else Some(set m | m in OfTopic(old(View()), topic) :: m.1)
    {
      hide Bijection, Abs;
      MessagesOf(expirations, topicMsgs, topic);
      if topic !in topicMsgs {
        return None;
      }
      var msgs := topicMsgs[topic];
      ghost var queue0, msgs0 := expirations, topicMsgs;
      ghost var gone := OfTopic(View(), topic);
      forall k | k in queue0
        ensures queue0[k].item in gone <==> queue0[k].item.0 == topic
      {
        OnlyTimerOf(queue0, msgs0, k);
      }
      topicMsgs := topicMsgs - {topic};
      forall x
        ensures KeyOf(topicMsgs, x) == if x in gone then None else KeyOf(msgs0, x)
      {
      }
      var rest := msgs.Keys;
      while rest != {}
        invariant rest <= msgs.Keys && topicMsgs == msgs0 - {topic}
        invariant forall k :: k in expirations ==> k in queue0 && expirations[k] == queue0[k]
        invariant forall k :: k in queue0 ==>
                    (k in expirations <==> queue0[k].item.0 != topic || queue0[k].item.1 in rest)
      {
        var data :| data in rest;
        // `DelayQueue::remove` panics on a key that is not in the queue.
        LiveTimer(queue0, msgs0, (topic, data));
        assert msgs[data] in expirations;
        OnlyTimer(queue0, msgs0, (topic, data));
        expirations := expirations - {msgs[data]};
        rest := rest - {data};
      }
      Unregister(queue0, msgs0, gone, expirations, topicMsgs);
      r := Some(msgs.Keys);
    }

    /** Removes a timer that fired together with its message. */
    method DropTimer(expectedKey: TimerKey) returns (topic: GossipTopic)
      requires Valid() && expectedKey in expirations
      modifies this
      ensures Valid()
      ensures topic == old(expirations)[expectedKey].item.0
      ensures View() == old(View()) - {old(expirations)[expectedKey].item}
    {
      hide Bijection, Abs;
      var m := expirations[expectedKey].item;
      topic := m.0;
      var data := m.1;
      ghost var queue0, msgs0 := expirations, topicMsgs;
      OnlyTimerOf(queue0, msgs0, expectedKey);
      expirations := expirations - {expectedKey};
      if topic in topicMsgs {
        var msgs := topicMsgs[topic];
        assert data in msgs && msgs[data] == expectedKey;
        msgs := msgs - {data};
        topicMsgs := topicMsgs[topic := msgs];
        if msgs == map[] {
          topicMsgs := topicMsgs - {topic};
          assert topicMsgs == msgs0 - {topic};
        }
      } else {
        assert false;
      }
      OnlyTimer(queue0, msgs0, m);
      forall x
        ensures KeyOf(topicMsgs, x) == if x in {m} then None else KeyOf(msgs0, x)
      {
        KeyOfDrop(msgs0, m, x);
      }
      Unregister(queue0, msgs0, {m}, expirations, topicMsgs);
    }

    /** Drops one message whose deadline has passed and reports its topic. */
    method PollNext(now: Instant, fault: bool) returns (r: PollResult)
      requires Valid()
      modifies this
      ensures Valid()
      ensures fault ==> r == TimerFault && View() == old(View())
      ensures !fault && r.Expired? ==>
                exists d :: (r.topic, d) in old(View()) && old(View())[(r.topic, d)] <= now
                  && View() == old(View()) - {(r.topic, d)}
      ensures !fault && !r.Expired? ==>
                && r == (if old(View()) == map[] then Finished else Pending)
                && View() == old(View())
                && forall m :: m in View() ==> now < View()[m]
    {
      hide Bijection, Abs;
      if fault {
        return TimerFault;
      }
      TimersAre(expirations, topicMsgs);
      if expirations == map[] {
        return Finished;
      }
      if !(exists k :: k in expirations && expirations[k].deadline <= now) {
        var k :| k in expirations;
        assert expirations[k].item in View();
        return Pending;
      }
      var expectedKey :| expectedKey in expirations && expirations[expectedKey].deadline <= now;
      ghost var m := expirations[expectedKey].item;
      var topic := DropTimer(expectedKey);
      r := Expired(topic);
      assert m == (topic, m.1);
    }
  }

  /** The contents, read off the timers. */
  lemma TimersAre(queue: DelayQueue<Message>, msgs: TopicMsgs)
    requires Bijection(queue, msgs)
    ensures forall k :: k in queue ==>
              queue[k].item in Abs(queue, msgs) && Abs(queue, msgs)[queue[k].item] == queue[k].deadline
    ensures forall m :: m in Abs(queue, msgs) ==>
              exists k :: k in queue && queue[k].item == m && queue[k].deadline == Abs(queue, msgs)[m]
  {
    hide KeyOf;
  }

  /** The keys stored with the messages are never stale. */
  lemma LiveTimer(queue: DelayQueue<Message>, msgs: TopicMsgs, m: Message)
    requires Bijection(queue, msgs) && KeyOf(msgs, m).Some?
    ensures KeyOf(msgs, m).value in queue && queue[KeyOf(msgs, m).value].item == m
  {
  }

  /** The message of a live timer is registered under that very key. */
  lemma OnlyTimerOf(queue: DelayQueue<Message>, msgs: TopicMsgs, k: TimerKey)
    requires Bijection(queue, msgs) && k in queue
    ensures KeyOf(msgs, queue[k].item) == Some(k)
    ensures queue[k].item in Abs(queue, msgs) && Abs(queue, msgs)[queue[k].item] == queue[k].deadline
  {
  }

  /** No message has two timers. */
  lemma OnlyTimer(queue: DelayQueue<Message>, msgs: TopicMsgs, m: Message)
    requires Bijection(queue, msgs) && KeyOf(msgs, m).Some?
    ensures forall k :: k in queue && queue[k].item == m ==> k == KeyOf(msgs, m).value
  {
  }

  lemma MessagesOf(queue: DelayQueue<Message>, msgs: TopicMsgs, topic: GossipTopic)
    requires Bijection(queue, msgs) && NoEmptyTopic(msgs)
    ensures OfTopic(Abs(queue, msgs), topic) != {} <==> topic in msgs
    ensures topic in msgs ==> (set m | m in OfTopic(Abs(queue, msgs), topic) :: m.1) == msgs[topic].Keys
    ensures forall m :: m in OfTopic(Abs(queue, msgs), topic) <==> topic in msgs && m.0 == topic && m.1 in msgs[topic]
  {
    AbsIs(queue, msgs);
    hide Bijection, Abs;
    if topic in msgs {
      var d :| d in msgs[topic];
      assert (topic, d) in OfTopic(Abs(queue, msgs), topic);
      forall d | d in msgs[topic]
        ensures d in set m | m in OfTopic(Abs(queue, msgs), topic) :: m.1
      {
        assert (topic, d) in OfTopic(Abs(queue, msgs), topic);
      }
    }
  }

  // ---- Runs ----

  /** What can happen to the cache; expiry picks a message whose deadline has passed. */
  datatype CacheOp =
    | InsertOp(topic: GossipTopic, data: Data, now: Instant)
    | RetrieveOp(topic: GossipTopic)
    | ExpireOp(message: Message, now: Instant)

  predicate Enabled(c: Contents, op: CacheOp) {
    op.ExpireOp? ==> op.message in c && c[op.message] <= op.now
  }

  function After(t: Timeouts, c: Contents, op: CacheOp): Contents {
    match op
    case InsertOp(topic, data, now) => Inserted(t, c, topic, data, now)
    case RetrieveOp(topic) => c - OfTopic(c, topic)
    case ExpireOp(m, _) => c - {m}
  }

  function Run(t: Timeouts, ops: seq<CacheOp>): Contents
    decreases |ops|
  {
    if ops == [] then map[] else After(t, Run(t, ops[..|ops| - 1]), ops[|ops| - 1])
  }

  ghost predicate IsRun(t: Timeouts, ops: seq<CacheOp>) {
    forall i :: 0 <= i < |ops| ==> Enabled(Run(t, ops[..i]), ops[i])
  }

  /** The last operation put `m` into the cache, where it was not before. */
  predicate StoresAtEnd(t: Timeouts, ops: seq<CacheOp>, m: Message)
    requires ops != []
  {
    var c, op := Run(t, ops[..|ops| - 1]), ops[|ops| - 1];
    op.InsertOp? && (op.topic, op.data) == m && t.For(op.topic.kind).Some? && m !in c
  }

  /** The last operation handed `m` out: retrieved with its topic, or expired. */
  predicate LeavesAtEnd(t: Timeouts, ops: seq<CacheOp>, m: Message)
    requires ops != []
  {
    var c, op := Run(t, ops[..|ops| - 1]), ops[|ops| - 1];
    (op.RetrieveOp? && m in OfTopic(c, op.topic)) || (op.ExpireOp? && op.message == m)
  }

  function Stores(t: Timeouts, ops: seq<CacheOp>, m: Message): nat
    decreases |ops|
  {
    if ops == [] then 0
    else Stores(t, ops[..|ops| - 1], m) + if StoresAtEnd(t, ops, m) then 1 else 0
  }

  function Leaves(t: Timeouts, ops: seq<CacheOp>, m: Message): nat
    decreases |ops|
  {
    if ops == [] then 0
    else Leaves(t, ops[..|ops| - 1], m) + if LeavesAtEnd(t, ops, m) then 1 else 0
  }

  lemma RunPrefix(t: Timeouts, ops: seq<CacheOp>)
    requires ops != [] && IsRun(t, ops)
    ensures IsRun(t, ops[..|ops| - 1]) && Enabled(Run(t, ops[..|ops| - 1]), ops[|ops| - 1])
  {
    var front := ops[..|ops| - 1];
    assert forall i :: 0 <= i < |front| ==> front[..i] == ops[..i];
  }

  /** Conservation: over every run, each storing of a message is matched by exactly one departure or by its presence. */
  lemma {:induction false} EachStoredMessageLeavesOnce(t: Timeouts, ops: seq<CacheOp>, m: Message)
    requires IsRun(t, ops)
    ensures Stores(t, ops, m) == Leaves(t, ops, m) + if m in Run(t, ops) then 1 else 0
    decreases |ops|
  {
    if ops != [] {
      RunPrefix(t, ops);
      EachStoredMessageLeavesOnce(t, ops[..|ops| - 1], m);
    }
  }

  /** The time a message was last offered to the cache since it entered. */
  function LastOffer(t: Timeouts, ops: seq<CacheOp>, m: Message): nat
    decreases |ops|
  {
    if ops == [] then 0
    else
      var op := ops[|ops| - 1];
      if op.InsertOp? && (op.topic, op.data) == m then op.now else LastOffer(t, ops[..|ops| - 1], m)
  }

  /** Re-insertion only moves the deadline: a cached message expires its kind's timeout after the last offer. */
  lemma {:induction false} DeadlineFollowsLastOffer(t: Timeouts, ops: seq<CacheOp>, m: Message)
    requires IsRun(t, ops) && m in Run(t, ops)
    ensures t.For(m.0.kind).Some?
    ensures Run(t, ops)[m] == LastOffer(t, ops, m) + t.For(m.0.kind).value
    decreases |ops|
  {
    RunPrefix(t, ops);
    var front, op := ops[..|ops| - 1], ops[|ops| - 1];
    if op.InsertOp? && (op.topic, op.data) == m && t.For(m.0.kind).Some? {
    } else {
      DeadlineFollowsLastOffer(t, front, m);
    }
  }
}
