/** What holds over every run of the peer manager: its counters and its announcements. */
module PeerRuns {
  import opened Common
  import opened Sums
  import opened PeerInfos
  import opened PeerTables
  import opened PeerReports
  import opened PeerSystems
  import Scores

  /** The database, the events already handed to the swarm, and those still queued. */
  datatype Sys = Sys(db: Db, delivered: seq<Event>, queue: seq<Event>)
  {
    function Log(): seq<Event> { delivered + queue }
  }

  ghost predicate Next(s: Sys, c: Call, s': Sys) {
    if c.Deliver? then
      s.queue != [] && s' == s.(delivered := s.delivered + [s.queue[0]], queue := s.queue[1..])
    else
      && s'.delivered == s.delivered && s.queue <= s'.queue
      && Does(s.db, c, s'.queue[|s.queue|..], s'.db)
  }

  ghost predicate IsStart(s: Sys) {
    s.delivered == [] && s.queue == [] && exists trusted, now :: s.db == Fresh(trusted, now)
  }

  /** Call `cs[i]` takes the system from `ss[i]` to `ss[i + 1]`. */
  ghost predicate IsRun(ss: seq<Sys>, cs: seq<Call>) {
    && |ss| == |cs| + 1 && IsStart(ss[0])
    && forall i :: 0 <= i < |cs| ==> Next(ss[i], cs[i], ss[i + 1])
  }

  /** The excess of the ban counters, computed from the calls alone. */
  function DriftOver(ss: seq<Sys>, cs: seq<Call>): int
    requires |ss| == |cs| + 1
    decreases |cs|
  {
    if cs == [] then 0
    else
      var n := |cs| - 1;
      Drifted(DriftOver(ss[..n + 1], cs[..n]), DriftOf(ss[n].db, cs[n]))
  }

  /** The same per address. */
  function DriftOnOver(ss: seq<Sys>, cs: seq<Call>, ip: IpAddr): int
    requires |ss| == |cs| + 1
    decreases |cs|
  {
    if cs == [] then 0
    else
      var n := |cs| - 1;
      DriftedOn(DriftOver(ss[..n + 1], cs[..n]), DriftOnOver(ss[..n + 1], cs[..n], ip), DriftOf(ss[n].db, cs[n]), ip)
  }

  /** How many of the calls leaked. */
  function LeakCount(ss: seq<Sys>, cs: seq<Call>): nat
    requires |ss| == |cs| + 1
    decreases |cs|
  {
    if cs == [] then 0
    else
      var n := |cs| - 1;
      LeakCount(ss[..n + 1], cs[..n]) + if CallLeaks(ss[n].db, cs[n]) then 1 else 0
  }

  /** How many seen socket addresses with that IP address leaked. */
  function LeakCountOn(ss: seq<Sys>, cs: seq<Call>, ip: IpAddr): nat
    requires |ss| == |cs| + 1
    decreases |cs|
  {
    if cs == [] then 0
    else
      var n := |cs| - 1;
      LeakCountOn(ss[..n + 1], cs[..n], ip)
      + if CallLeaks(ss[n].db, cs[n]) then AddrCount(ss[n].db.peers[cs[n].peer].seenAddresses, ip) else 0
  }

  /** Without any drift in total there is none on any address. */
  lemma {:induction false} NoDriftNowhere(ss: seq<Sys>, cs: seq<Call>, ip: IpAddr)
    requires |ss| == |cs| + 1
    ensures DriftOver(ss, cs) >= 0 && (DriftOver(ss, cs) == 0 ==> DriftOnOver(ss, cs, ip) == 0)
    decreases |cs|
  {
    hide DriftOf, AddrCount;
    if cs != [] {
      NoDriftNowhere(ss[..|cs|], cs[..|cs| - 1], ip);
    }
  }

  /** Up to the limit, every leak counts and none is forgotten. */
  lemma {:induction false} DriftIsLeaks(ss: seq<Sys>, cs: seq<Call>, ip: IpAddr)
    requires |ss| == |cs| + 1 && LeakCount(ss, cs) <= MAX_BANNED_PEERS
    ensures DriftOver(ss, cs) == LeakCount(ss, cs) && DriftOnOver(ss, cs, ip) == LeakCountOn(ss, cs, ip)
    decreases |cs|
  {
    hide CallLeaks, CallShrinks, AddrCount;
    if cs != [] {
      DriftIsLeaks(ss[..|cs|], cs[..|cs| - 1], ip);
    }
  }

  lemma StartIsExact(s: Sys)
    requires IsStart(s)
    ensures Sound(s.db) && Exact(s.db) && forall p :: !IsBanned(s.db, p)
  {
    hide AddrCount;
    var trusted, now :| s.db == Fresh(trusted, now);
    MapSumZero(s.db.peers, DisconnectedWeight());
    MapSumZero(s.db.peers, BannedWeight());
    forall ip
      ensures ExcessOn(s.db, ip) == 0
    {
      MapSumZero(s.db.peers, IpWeight(ip));
    }
  }

  /** What one step of a run does, as an effect. */
  lemma StepEffect(s: Sys, c: Call, s': Sys) returns (es: seq<Event>)
    requires Next(s, c, s')
    ensures s'.Log() == s.Log() + es && Effect(s.db, es, s'.db, Exits(s.db, c), DriftOf(s.db, c))
  {
    hide Effect, Does;
    if c.Deliver? {
      es := [];
      NothingEffect(s.db, []);
    } else {
      es := s'.queue[|s.queue|..];
      CallEffect(s.db, c, es, s'.db);
    }
  }

  /**
   * Over every run the disconnected count is exact, and the ban counts exceed the truth, in total and
   * on each address, by exactly what the leaking calls and the evictions make of it. So every counter
   * is exact if and only if that drift is zero; and as long as no more than a thousand calls have
   * leaked, the drift is the number of leaks, and on each address the number of leaked addresses.
   */
  lemma CountersOverRuns(ss: seq<Sys>, cs: seq<Call>)
    requires IsRun(ss, cs)
    ensures Sound(ss[|cs|].db)
    ensures Excess(ss[|cs|].db) == DriftOver(ss, cs)
    ensures forall ip :: ExcessOn(ss[|cs|].db, ip) == DriftOnOver(ss, cs, ip)
    ensures Exact(ss[|cs|].db) <==> DriftOver(ss, cs) == 0
    ensures LeakCount(ss, cs) <= MAX_BANNED_PEERS ==> Excess(ss[|cs|].db) == LeakCount(ss, cs)
    ensures LeakCount(ss, cs) <= MAX_BANNED_PEERS ==>
              forall ip :: ExcessOn(ss[|cs|].db, ip) == LeakCountOn(ss, cs, ip)
    ensures LeakCount(ss, cs) <= MAX_BANNED_PEERS ==> (Exact(ss[|cs|].db) <==> LeakCount(ss, cs) == 0)
  {
    hide Next, Excess, ExcessOn, DriftOf, IsStart, ScoresOk;
    ExcessOverRuns(ss, cs);
    forall ip
      ensures DriftOver(ss, cs) == 0 ==> DriftOnOver(ss, cs, ip) == 0
      ensures LeakCount(ss, cs) <= MAX_BANNED_PEERS ==>
                DriftOver(ss, cs) == LeakCount(ss, cs) && DriftOnOver(ss, cs, ip) == LeakCountOn(ss, cs, ip)
    {
      NoDriftNowhere(ss, cs, ip);
      if LeakCount(ss, cs) <= MAX_BANNED_PEERS { DriftIsLeaks(ss, cs, ip); }
    }
    if LeakCount(ss, cs) <= MAX_BANNED_PEERS { DriftIsLeaks(ss, cs, 0); }
  }

  lemma {:induction false} ExcessOverRuns(ss: seq<Sys>, cs: seq<Call>)
    requires IsRun(ss, cs)
    ensures Sound(ss[|cs|].db) && Excess(ss[|cs|].db) == DriftOver(ss, cs)
    ensures forall ip :: ExcessOn(ss[|cs|].db, ip) == DriftOnOver(ss, cs, ip)
    decreases |cs|
  {
    hide Next, Announces, Sound, Excess, ExcessOn, DriftOf, IsStart, AddrCount;
    if cs == [] {
      StartIsExact(ss[0]);
      ExactExcess(ss[0].db);
    } else {
      var n := |cs| - 1;
      ExcessOverRuns(ss[..n + 1], cs[..n]);
      var _ := StepEffect(ss[n], cs[n], ss[n + 1]);
      assert Tally(ss[n].db, ss[n + 1].db, DriftOf(ss[n].db, cs[n]));
    }
  }

  lemma ExactExcess(db: Db)
    requires Exact(db)
    ensures Excess(db) == 0 && forall ip :: ExcessOn(db, ip) == 0
  {
  }

  /** The drift is real: every leaking call adds one to the excess, and the peer's addresses to theirs. */
  lemma LeakIsReal(db: Db, c: Call, es: seq<Event>, db': Db)
    requires Sound(db) && Does(db, c, es, db') && CallLeaks(db, c)
    ensures Excess(db') == Excess(db) + 1
    ensures forall ip :: ExcessOn(db', ip) == ExcessOn(db, ip) + AddrCount(db.peers[c.peer].seenAddresses, ip)
  {
    hide Does, Sound, Excess, ExcessOn, Announces, AddrCount;
    CallEffect(db, c, es, db');
    assert Tally(db, db', DriftOf(db, c));
  }

  predicate Announced(s: Sys, p: PeerId) { LastWord(s.Log(), p) == Some(true) }

  /** The peer is announced as banned although it is not. */
  predicate Stale(s: Sys, p: PeerId) { Announced(s, p) && !IsBanned(s.db, p) }

  /** One step: a stale announcement stays, or arises by a silent exit, exactly when nothing is said about the peer. */
  lemma StaleStep(s: Sys, c: Call, s': Sys, p: PeerId) returns (es: seq<Event>)
    requires Next(s, c, s') && (IsBanned(s.db, p) ==> Announced(s, p))
    ensures s'.Log() == s.Log() + es && (IsBanned(s'.db, p) ==> Announced(s', p))
    ensures Stale(s', p) <==> LastWord(es, p).None? && (Stale(s, p) || p in Exits(s.db, c))
  {
    hide Tally, IsBanned, Exits, Does;
    es := StepEffect(s, c, s');
    LastWordOfBoth(s.Log(), es, p);
    assert Consistent(LastWord(es, p), IsBanned(s.db, p), IsBanned(s'.db, p), p in Exits(s.db, c));
    if p in Exits(s.db, c) {
      ExitsWereBanned(s.db, c, p);
      var es' := s'.queue[|s.queue|..];
      assert s'.Log() == s.Log() + es' && (s.Log() + es)[|s.Log()|..] == es && (s.Log() + es')[|s.Log()|..] == es';
      SilentCall(s.db, c, es, s'.db, p);
    }
  }

  lemma ExitsWereBanned(db: Db, c: Call, p: PeerId)
    requires p in Exits(db, c)
    ensures IsBanned(db, p) && !c.Deliver?
  {
  }

  /** The last silent exit: nothing has been said about the peer from this call on. */
  ghost predicate LeftSilently(ss: seq<Sys>, cs: seq<Call>, p: PeerId, i: nat)
    requires |ss| == |cs| + 1
  {
    && i < |cs| && p in Exits(ss[i].db, cs[i])
    && |ss[i].Log()| <= |ss[|cs|].Log()| && LastWord(ss[|cs|].Log()[|ss[i].Log()|..], p).None?
  }

  /** At some call the peer left the banned state silently, and nothing has been said about it since. */
  ghost predicate SilentlyGone(ss: seq<Sys>, cs: seq<Call>, p: PeerId)
    requires |ss| == |cs| + 1
  {
    exists i: nat :: LeftSilently(ss, cs, p, i)
  }

  /**
   * Over every run, the last announcement about a banned peer, delivered or still queued, is its
   * ban; and a peer is announced as banned without being banned if and only if it has left that
   * state silently and nothing has been said about it since.
   */
  lemma {:induction false} AnnouncementsOverRuns(ss: seq<Sys>, cs: seq<Call>, p: PeerId)
    requires IsRun(ss, cs)
    ensures IsBanned(ss[|cs|].db, p) ==> Announced(ss[|cs|], p)
    ensures Stale(ss[|cs|], p) <==> SilentlyGone(ss, cs, p)
    decreases |cs|
  {
    hide Next, IsStart, IsBanned, Exits, Announced;
    if cs == [] {
      StartIsExact(ss[0]);
      NothingSaid(ss[0], p);
    } else {
      var n := |cs| - 1;
      AnnouncementsOverRuns(ss[..n + 1], cs[..n], p);
      var es := StaleStep(ss[n], cs[n], ss[n + 1], p);
      forall i | 0 <= i < |cs|
        ensures |ss[i].Log()| <= |ss[n].Log()|
      {
        LogsGrow(ss[..n + 1], cs[..n], i);
      }
      LeftStep(ss, cs, p, es);
    }
  }

  lemma {:induction false} LogsGrow(ss: seq<Sys>, cs: seq<Call>, i: nat)
    requires IsRun(ss, cs) && i <= |cs|
    ensures |ss[i].Log()| <= |ss[|cs|].Log()|
    decreases |cs|
  {
    hide Next, IsStart, Effect;
    if i < |cs| {
      var n := |cs| - 1;
      LogsGrow(ss[..n + 1], cs[..n], i);
      var _ := StepEffect(ss[n], cs[n], ss[n + 1]);
    }
  }

  /** What has been said since step `i`, with one more call. */
  lemma SaidSince(early: seq<Event>, before: seq<Event>, es: seq<Event>, p: PeerId)
    requires |early| <= |before|
    ensures LastWord((before + es)[|early|..], p)
         == if LastWord(es, p).Some? then LastWord(es, p) else LastWord(before[|early|..], p)
  {
    assert (before + es)[|early|..] == before[|early|..] + es;
    LastWordOfBoth(before[|early|..], es, p);
  }

  /** An exit is still the last thing exactly when the last call says nothing and it was, or is that call. */
  lemma LeftStep(ss: seq<Sys>, cs: seq<Call>, p: PeerId, es: seq<Event>)
    requires |ss| == |cs| + 1 && cs != [] && ss[|cs|].Log() == ss[|cs| - 1].Log() + es
    requires forall i :: 0 <= i < |cs| ==> |ss[i].Log()| <= |ss[|cs| - 1].Log()|
    ensures
      var n := |cs| - 1;
      SilentlyGone(ss, cs, p) <==>
      LastWord(es, p).None? && (SilentlyGone(ss[..n + 1], cs[..n], p) || p in Exits(ss[n].db, cs[n]))
  {
    hide Exits, LastWord;
    var n := |cs| - 1;
    var before := ss[n].Log();
    forall i: nat | i <= n
      ensures LeftSilently(ss, cs, p, i) <==>
                && LastWord(es, p).None?
                && if i < n then LeftSilently(ss[..n + 1], cs[..n], p, i) else p in Exits(ss[n].db, cs[n])
    {
      SaidSince(ss[i].Log(), before, es, p);
      if i == n {
        assert before[|before|..] == [];
        NoWord([], p);
      }
    }
    if LastWord(es, p).None? && SilentlyGone(ss[..n + 1], cs[..n], p) {
      var i: nat :| LeftSilently(ss[..n + 1], cs[..n], p, i);
      assert LeftSilently(ss, cs, p, i);
    } else if LastWord(es, p).None? && p in Exits(ss[n].db, cs[n]) {
      assert LeftSilently(ss, cs, p, n);
    }
    if SilentlyGone(ss, cs, p) {
      var i: nat :| LeftSilently(ss, cs, p, i);
      assert i <= n;
    }
  }

  lemma NothingSaid(s: Sys, p: PeerId)
    requires IsStart(s)
    ensures !Announced(s, p)
  {
    assert s.Log() == [];
  }

  /** Without silent exits, a swarm that has seen every event bans exactly the banned peers. */
  lemma SwarmAgreesWithoutExits(ss: seq<Sys>, cs: seq<Call>, p: PeerId)
    requires IsRun(ss, cs) && ss[|cs|].queue == []
    requires forall i :: 0 <= i < |cs| ==> p !in Exits(ss[i].db, cs[i])
    ensures IsBanned(ss[|cs|].db, p) <==> LastWord(ss[|cs|].delivered, p) == Some(true)
  {
    hide Next, IsBanned, Exits, LastWord;
    AnnouncementsOverRuns(ss, cs, p);
    assert ss[|cs|].Log() == ss[|cs|].delivered;
  }

  /** Every silent exit leaves the swarm's ban standing on a peer that is no longer banned. */
  lemma ExitsAreSilent(s: Sys, c: Call, s': Sys, p: PeerId)
    requires Next(s, c, s') && p in Exits(s.db, c) && Announced(s, p)
    ensures Announced(s', p) && !IsBanned(s'.db, p)
  {
    hide Does, LastWord;
    var es := s'.queue[|s.queue|..];
    assert s'.Log() == s.Log() + es;
    SilentCall(s.db, c, es, s'.db, p);
    LastWordOfBoth(s.Log(), es, p);
  }

  lemma SilentCall(db: Db, c: Call, es: seq<Event>, db': Db, p: PeerId)
    requires Does(db, c, es, db') && p in Exits(db, c)
    ensures LastWord(es, p) == None && !IsBanned(db', p)
  {
    hide NextBans, NextDisconnected, BanStatus, LimitReached, LastWord;
    NoWord(es, p);
  }
}
