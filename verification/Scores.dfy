/** src/peer_manager/peerdb/score.rs: peer scores, their decay, and the twelve-hour ban. */
module Scores {
  import opened Common

  const MIN_SCORE_BEFORE_DISCONNECT: real := -20.0
  const MIN_SCORE_BEFORE_BAN: real := -50.0
  const MIN_LIGHTHOUSE_SCORE_BEFORE_BAN: real := -60.0
  const MAX_SCORE: real := 100.0
  const MIN_SCORE: real := -100.0
  const BANNED_BEFORE_DECAY: nat := 12 * 3600 * NANOS_PER_SEC
  const GOSSIPSUB_GREYLIST_THRESHOLD: real := -16000.0
  const GOSSIPSUB_SCORE_WEIGHT: real := (MIN_SCORE_BEFORE_DISCONNECT + 1.0) / GOSSIPSUB_GREYLIST_THRESHOLD

  datatype PeerAction = Fatal | LowToleranceError | MidToleranceError | HighToleranceError

  datatype ScoreState = Healthy | Disconnected | Banned {
    /** Higher is worse. */
    function Severity(): nat {
      match this
      case Healthy => 0
      case Disconnected => 1
      case Banned => 2
    }
  }

  /** The fields of a `RealScore`, as a value. */
  datatype ScoreValue = ScoreValue(
    lighthouse: real, gossipsub: real, ignoreNegative: bool, score: real, lastUpdated: Instant)

  /** `Max` is the score of a trusted peer: above every real score. */
  datatype Score = Max | Real(value: ScoreValue)

  function StateOfReal(x: real): ScoreState {
    if x <= MIN_SCORE_BEFORE_BAN then Banned
    else if x <= MIN_SCORE_BEFORE_DISCONNECT then Disconnected
    else Healthy
  }

  function StateOf(s: Score): ScoreState {
    if s.Max? then Healthy else StateOfReal(s.value.score)
  }

  /** `Ord for Score`, strictly below. */
  predicate Below(a: Score, b: Score) {
    a.Real? && (b.Max? || a.value.score < b.value.score)
  }

  predicate IsNegative(s: Score) { s.Real? && s.value.score < 0.0 }

  function DefaultScore(now: Instant): ScoreValue { ScoreValue(0.0, 0.0, false, 0.0, now) }

  /** The part of the gossipsub score that counts. */
  function GossipTerm(lighthouse: real, gossipsub: real, ignore: bool): real {
    if lighthouse <= MIN_LIGHTHOUSE_SCORE_BEFORE_BAN || (gossipsub < 0.0 && ignore) then 0.0
    else gossipsub * GOSSIPSUB_SCORE_WEIGHT
  }

  function Recomputed(s: ScoreValue): ScoreValue {
    s.(score := s.lighthouse + GossipTerm(s.lighthouse, s.gossipsub, s.ignoreNegative))
  }

  /** The cached total agrees with its parts. */
  predicate InSync(s: ScoreValue) { Recomputed(s) == s }

  /** Recompute the total; crossing the ban threshold freezes the score for twelve hours. */
  function StateUpdated(s: ScoreValue): ScoreValue {
    var r := Recomputed(s);
    if s.score > MIN_SCORE_BEFORE_BAN >= r.score
    then r.(lastUpdated := s.lastUpdated + BANNED_BEFORE_DECAY) else r
  }

  function Clamp(x: real): real {
    if x > MAX_SCORE then MAX_SCORE else if x < MIN_SCORE then MIN_SCORE else x
  }

  function Penalty(action: PeerAction): real {
    match action
    case Fatal => 0.0
    case LowToleranceError => -10.0
    case MidToleranceError => -5.0
    case HighToleranceError => -1.0
  }

  function ActionApplied(s: ScoreValue, action: PeerAction): ScoreValue {
    StateUpdated(s.(lighthouse :=
      if action.Fatal? then MIN_SCORE else Clamp(s.lighthouse + Penalty(action))))
  }

  function Scaled(s: ScoreValue, now: Instant, factor: real): ScoreValue {
    s.(lighthouse := s.lighthouse * factor, lastUpdated := now)
  }

  /** `update_at`; `factor` stands for the exponential decay of the elapsed whole seconds. */
  function Decayed(s: ScoreValue, now: Instant, factor: real): ScoreValue {
    if now < s.lastUpdated then s
    else StateUpdated(Scaled(s, now, factor))
  }

  function GossipUpdated(s: ScoreValue, now: Instant, score: real, ignore: bool): ScoreValue {
    if s.lastUpdated <= now
    then StateUpdated(s.(gossipsub := score, ignoreNegative := ignore)) else s
  }

  /** A `RealScore`, updated in place. */
  class RealScore {
    var lighthouseScore: real
    var gossipsubScore: real
    var ignoreNegativeGossipsubScore: bool
    var score: real
    var lastUpdated: Instant

    constructor (now: Instant)
      ensures Value() == DefaultScore(now)
    {
      lighthouseScore, gossipsubScore, score := 0.0, 0.0, 0.0;
      ignoreNegativeGossipsubScore := false;
      lastUpdated := now;
    }

    function Value(): ScoreValue
      reads this
    {
      ScoreValue(lighthouseScore, gossipsubScore, ignoreNegativeGossipsubScore, score, lastUpdated)
    }

    method RecomputeScore()
      modifies this
      ensures Value() == Recomputed(old(Value()))
    {
      score := lighthouseScore;
      if lighthouseScore <= MIN_LIGHTHOUSE_SCORE_BEFORE_BAN {
      } else if gossipsubScore >= 0.0 {
        score := score + gossipsubScore * GOSSIPSUB_SCORE_WEIGHT;
      } else if !ignoreNegativeGossipsubScore {
        score := score + gossipsubScore * GOSSIPSUB_SCORE_WEIGHT;
      }
    }

    method UpdateState()
      modifies this
      ensures Value() == StateUpdated(old(Value()))
    {
      var wasNotBanned := score > MIN_SCORE_BEFORE_BAN;
      RecomputeScore();
      if wasNotBanned && score <= MIN_SCORE_BEFORE_BAN {
        lastUpdated := lastUpdated + BANNED_BEFORE_DECAY;
      }
    }

    method SetLighthouseScore(newScore: real)
      modifies this
      ensures Value() == StateUpdated(old(Value()).(lighthouse := newScore))
    {
      lighthouseScore := newScore;
      UpdateState();
    }

    method Add(amount: real)
      modifies this
      ensures Value() == StateUpdated(old(Value()).(lighthouse := Clamp(old(lighthouseScore) + amount)))
    {
      var newScore := lighthouseScore + amount;
      if newScore > MAX_SCORE {
        newScore := MAX_SCORE;
      }
      if newScore < MIN_SCORE {
        newScore := MIN_SCORE;
      }
      SetLighthouseScore(newScore);
    }

    method ApplyPeerAction(action: PeerAction)
      modifies this
      ensures Value() == ActionApplied(old(Value()), action)
    {
      match action
      case Fatal => SetLighthouseScore(MIN_SCORE);
      case LowToleranceError => Add(-10.0);
      case MidToleranceError => Add(-5.0);
      case HighToleranceError => Add(-1.0);
    }

    method UpdateAt(now: Instant, factor: real)
      modifies this
      ensures Value() == Decayed(old(Value()), now, factor)
    {
      hide StateUpdated;
      ghost var s := Value();
      if lastUpdated <= now {
        lighthouseScore := lighthouseScore * factor;
        lastUpdated := now;
        ghost var decayed := Scaled(s, now, factor);
        assert Value() == decayed;
        UpdateState();
        assert Value() == StateUpdated(decayed);
      }
    }

    method UpdateGossipsubScore(now: Instant, newScore: real, ignore: bool)
      modifies this
      ensures Value() == GossipUpdated(old(Value()), now, newScore, ignore)
    {
      hide StateUpdated;
      if lastUpdated <= now {
        gossipsubScore := newScore;
        ignoreNegativeGossipsubScore := ignore;
        UpdateState();
      }
    }
  }

  // ---- Runs ----

  /** Everything that touches a score outside the test code. */
  datatype ScoreEvent =
    | Report(action: PeerAction)
    | Tick(now: Instant, factor: real)
    | Gossip(now: Instant, newScore: real, ignore: bool)

  /** The exponential decay factor lies in (0, 1]. */
  predicate WellFormed(e: ScoreEvent) { e.Tick? ==> 0.0 < e.factor <= 1.0 }

  function After(s: ScoreValue, e: ScoreEvent): ScoreValue {
    match e
    case Report(action) => ActionApplied(s, action)
    case Tick(now, factor) => Decayed(s, now, factor)
    case Gossip(now, score, ignore) => GossipUpdated(s, now, score, ignore)
  }

  function Run(s: ScoreValue, es: seq<ScoreEvent>): ScoreValue
    decreases |es|
  {
    if es == [] then s else After(Run(s, es[..|es| - 1]), es[|es| - 1])
  }

  lemma DecayFactorShrinks(x: real, factor: real)
    requires x <= 0.0 && 0.0 < factor <= 1.0
    ensures x <= x * factor <= 0.0
  {
    assert x * factor - x == (-x) * (1.0 - factor);
  }

  /** Reachable scores are in sync and never above zero, so decay can only raise them. */
  ghost predicate Reachable(s: ScoreValue) {
    InSync(s) && MIN_SCORE <= s.lighthouse <= 0.0
  }

  lemma AfterStaysReachable(s: ScoreValue, e: ScoreEvent)
    requires Reachable(s) && WellFormed(e)
    ensures Reachable(After(s, e))
  {
    if e.Tick? { DecayFactorShrinks(s.lighthouse, e.factor); }
  }

  lemma {:induction false} RunStaysReachable(now: Instant, es: seq<ScoreEvent>)
    requires forall e :: e in es ==> WellFormed(e)
    ensures Reachable(Run(DefaultScore(now), es))
    decreases |es|
  {
    if es != [] {
      assert forall e :: e in es[..|es| - 1] ==> e in es;
      assert es[|es| - 1] in es;
      RunStaysReachable(now, es[..|es| - 1]);
      AfterStaysReachable(Run(DefaultScore(now), es[..|es| - 1]), es[|es| - 1]);
    }
  }

  /** A fresh score after the same report so many times, with nothing else happening. */
  function ReportedTimes(now: Instant, action: PeerAction, n: nat): ScoreValue {
    if n == 0 then DefaultScore(now) else ActionApplied(ReportedTimes(now, action, n - 1), action)
  }

  /** How many reports of a kind get a peer banned. */
  function BannedAfter(action: PeerAction): nat {
    match action
    case Fatal => 1
    case LowToleranceError => 5
    case MidToleranceError => 10
    case HighToleranceError => 50
  }

  /** With nothing from gossipsub the penalties add up, down to the lowest score. */
  lemma {:induction false} ReportsAddUp(now: Instant, action: PeerAction, n: nat)
    requires !action.Fatal?
    ensures
      var s := ReportedTimes(now, action, n);
      s.gossipsub == 0.0 && s.score == s.lighthouse == Clamp(Penalty(action) * n as real)
  {
    if n > 0 {
      ReportsAddUp(now, action, n - 1);
      match action
      case LowToleranceError => assert -10.0 * n as real == -10.0 * (n - 1) as real - 10.0;
      case MidToleranceError => assert -5.0 * n as real == -5.0 * (n - 1) as real - 5.0;
      case HighToleranceError => assert -1.0 * n as real == -1.0 * (n - 1) as real - 1.0;
      Penalise(ReportedTimes(now, action, n - 1), action);
    }
  }

  lemma Penalise(s: ScoreValue, action: PeerAction)
    requires s.gossipsub == 0.0
    ensures
      var s' := ActionApplied(s, action);
      && s'.gossipsub == 0.0 && s'.score == s'.lighthouse
      && s'.lighthouse == if action.Fatal? then MIN_SCORE else Clamp(s.lighthouse + Penalty(action))
  {
    hide Penalty, Clamp;
    assert 0.0 * GOSSIPSUB_SCORE_WEIGHT == 0.0;
  }

  lemma {:induction false} FatalIsFinal(now: Instant, n: nat)
    ensures
      var s := ReportedTimes(now, Fatal, n);
      s.gossipsub == 0.0 && s.score == if n == 0 then 0.0 else MIN_SCORE
  {
    if n > 0 {
      FatalIsFinal(now, n - 1);
      Penalise(ReportedTimes(now, Fatal, n - 1), Fatal);
    }
  }

  /**
   * The tolerance of each kind of error: five, ten or fifty of them ban a peer, two fifths of that
   * many disconnect it, and one fatal error bans it.
   */
  lemma ToleratedIff(now: Instant, action: PeerAction, n: nat)
    ensures StateOfReal(ReportedTimes(now, action, n).score) == Banned <==> n >= BannedAfter(action)
    ensures StateOfReal(ReportedTimes(now, action, n).score) != Healthy <==> n > 0 && 5 * n >= 2 * BannedAfter(action)
  {
    hide ReportedTimes;
    if action.Fatal? { FatalIsFinal(now, n); } else { ReportsAddUp(now, action, n); }
  }

  /** Frozen until `until`: no decay and no gossipsub update is applied before then. */
  ghost predicate FrozenBanned(s: ScoreValue, until: Instant) {
    Reachable(s) && s.score <= MIN_SCORE_BEFORE_BAN && s.lastUpdated == until
  }

  ghost predicate Before(e: ScoreEvent, until: Instant) {
    !e.Report? ==> e.now < until
  }

  lemma FrozenStepStaysBanned(s: ScoreValue, until: Instant, e: ScoreEvent)
    requires FrozenBanned(s, until) && WellFormed(e) && Before(e, until)
    ensures FrozenBanned(After(s, e), until)
  {
    AfterStaysReachable(s, e);
  }

  /** Crossing the threshold sets the thaw time to twelve hours after the last update. */
  lemma CrossingFreezes(s: ScoreValue, e: ScoreEvent)
    requires Reachable(s) && WellFormed(e)
    requires s.score > MIN_SCORE_BEFORE_BAN >= After(s, e).score
    ensures FrozenBanned(After(s, e),
              (if e.Tick? then e.now else s.lastUpdated) + BANNED_BEFORE_DECAY)
  {
    AfterStaysReachable(s, e);
  }

  /**
   * Bans last: once an event takes the score across the ban threshold, every interleaving of
   * reports, decay ticks and gossipsub updates earlier than twelve hours after the last update
   * leaves the peer banned.
   */
  lemma {:induction false} BanLastsTwelveHours(s: ScoreValue, e: ScoreEvent, es: seq<ScoreEvent>)
    requires Reachable(s) && WellFormed(e) && forall x :: x in es ==> WellFormed(x)
    requires s.score > MIN_SCORE_BEFORE_BAN >= After(s, e).score
    requires forall x :: x in es ==> Before(x, s.lastUpdated + BANNED_BEFORE_DECAY)
    ensures StateOfReal(Run(After(s, e), es).score) == Banned
    ensures FrozenBanned(Run(After(s, e), es), s.lastUpdated + BANNED_BEFORE_DECAY)
    decreases |es|
  {
    var until := s.lastUpdated + BANNED_BEFORE_DECAY;
    if es == [] {
      CrossingFreezes(s, e);
      if e.Tick? { DecayNeverPenalises(s, e.now, e.factor); }
    } else {
      var earlier := es[..|es| - 1];
      assert forall x :: x in earlier ==> x in es;
      BanLastsTwelveHours(s, e, earlier);
      assert es[|es| - 1] in es;
      FrozenStepStaysBanned(Run(After(s, e), earlier), until, es[|es| - 1]);
    }
  }

  /** Raising the lighthouse part of the total never worsens the state. */
  lemma RaisingNeverWorsens(s: ScoreValue, lighthouse: real)
    requires InSync(s) && s.lighthouse <= lighthouse
    ensures StateOfReal(Recomputed(s.(lighthouse := lighthouse)).score).Severity()
         <= StateOfReal(s.score).Severity()
  {
  }

  /** Decay never moves a peer whose lighthouse score is not positive to a worse state. */
  lemma DecayNeverPenalises(s: ScoreValue, now: Instant, factor: real)
    requires InSync(s) && s.lighthouse <= 0.0 && 0.0 < factor <= 1.0
    ensures StateOfReal(Decayed(s, now, factor).score).Severity() <= StateOfReal(s.score).Severity()
  {
    hide StateOfReal, Recomputed;
    DecayFactorShrinks(s.lighthouse, factor);
    if s.lastUpdated <= now {
      DecayedScore(s, now, factor);
      RaisingNeverWorsens(s, s.lighthouse * factor);
    }
  }

  lemma DecayedScore(s: ScoreValue, now: Instant, factor: real)
    requires s.lastUpdated <= now
    ensures Decayed(s, now, factor).score == Recomputed(s.(lighthouse := s.lighthouse * factor)).score
  {
  }

  /** The ticks come in order, none before the score may decay again. */
  ghost predicate TicksFrom(at: Instant, ticks: seq<(Instant, real)>) {
    && (forall i :: 0 <= i < |ticks| ==> at <= ticks[i].0 && 0.0 < ticks[i].1 <= 1.0)
    && (forall i, j :: 0 <= i < j < |ticks| ==> ticks[i].0 <= ticks[j].0)
  }

  function Ticked(s: ScoreValue, ticks: seq<(Instant, real)>): ScoreValue
    decreases |ticks|
  {
    if ticks == [] then s
    else Decayed(Ticked(s, ticks[..|ticks| - 1]), ticks[|ticks| - 1].0, ticks[|ticks| - 1].1)
  }

  function Product(ticks: seq<(Instant, real)>): real
    decreases |ticks|
  {
    if ticks == [] then 1.0 else Product(ticks[..|ticks| - 1]) * ticks[|ticks| - 1].1
  }

  /** One tick that is due multiplies the lighthouse part and touches nothing else but the clock. */
  lemma TickDecays(s: ScoreValue, now: Instant, factor: real)
    requires Reachable(s) && s.lastUpdated <= now && 0.0 < factor <= 1.0
    ensures
      var s' := Decayed(s, now, factor);
      && Reachable(s') && s'.lighthouse == s.lighthouse * factor && s'.lastUpdated == now
      && s'.gossipsub == s.gossipsub && s'.ignoreNegative == s.ignoreNegative
  {
    hide StateOfReal;
    AfterStaysReachable(s, Tick(now, factor));
    DecayNeverPenalises(s, now, factor);
    NoCrossing(s, now, factor);
  }

  lemma NoCrossing(s: ScoreValue, now: Instant, factor: real)
    requires s.lastUpdated <= now
    requires StateOfReal(Decayed(s, now, factor).score).Severity() <= StateOfReal(s.score).Severity()
    ensures s.score > MIN_SCORE_BEFORE_BAN ==> Decayed(s, now, factor).score > MIN_SCORE_BEFORE_BAN
    ensures Decayed(s, now, factor).lastUpdated == now
  {
  }

  /**
   * Once its time is up a score recovers with every tick: the ticks multiply its lighthouse part by
   * their factors, however they are spread. So without gossipsub a ban ends as soon as the product of
   * the factors has brought the score above the threshold.
   */
  lemma {:induction false} TicksRecover(s: ScoreValue, ticks: seq<(Instant, real)>)
    requires Reachable(s) && TicksFrom(s.lastUpdated, ticks)
    ensures
      var s' := Ticked(s, ticks);
      && Reachable(s') && s'.lighthouse == s.lighthouse * Product(ticks)
      && s'.lastUpdated == (if ticks == [] then s.lastUpdated else ticks[|ticks| - 1].0)
      && s'.gossipsub == s.gossipsub && s'.ignoreNegative == s.ignoreNegative
      && (s.gossipsub == 0.0 ==> (StateOfReal(s'.score) == Banned <==> s.lighthouse * Product(ticks) <= -50.0))
    decreases |ticks|
  {
    hide Decayed, Reachable;
    if ticks != [] {
      var n := |ticks| - 1;
      TicksRecover(s, ticks[..n]);
      TickDecays(Ticked(s, ticks[..n]), ticks[n].0, ticks[n].1);
      assert s.lighthouse * (Product(ticks[..n]) * ticks[n].1) == s.lighthouse * Product(ticks[..n]) * ticks[n].1;
    }
    if s.gossipsub == 0.0 { OnlyLighthouse(Ticked(s, ticks)); }
  }

  lemma OnlyLighthouse(s: ScoreValue)
    requires Reachable(s) && s.gossipsub == 0.0
    ensures s.score == s.lighthouse
  {
    assert 0.0 * GOSSIPSUB_SCORE_WEIGHT == 0.0;
  }

  /** Over every run from a fresh score, a decay tick never bans and never disconnects. */
  lemma TickNeverPenalisesOnAnyRun(start: Instant, es: seq<ScoreEvent>, now: Instant, factor: real)
    requires forall e :: e in es ==> WellFormed(e)
    requires 0.0 < factor <= 1.0
    ensures
      var s := Run(DefaultScore(start), es);
      StateOfReal(Decayed(s, now, factor).score).Severity() <= StateOfReal(s.score).Severity()
  {
    RunStaysReachable(start, es);
    DecayNeverPenalises(Run(DefaultScore(start), es), now, factor);
  }

  /** The sign condition is needed: decaying a positive score can disconnect a healthy peer. */
  lemma DecayCanPenalisePositiveScores() returns (s: ScoreValue)
    ensures InSync(s) && s.lighthouse > 0.0
    ensures StateOfReal(s.score) == Healthy && StateOfReal(Decayed(s, s.lastUpdated, 0.5).score) == Disconnected
  {
    s := Recomputed(ScoreValue(30.0, -40000.0, false, 0.0, 0));
  }

  /**
   * The weight of a negative gossipsub score is meant never to disconnect a peer by itself. That
   * holds down to the greylist threshold and, exactly, above -320000/19.
   */
  lemma GossipAloneDisconnectsIff(s: ScoreValue)
    requires InSync(s) && s.lighthouse == 0.0
    ensures StateOfReal(s.score) != Healthy <==> !s.ignoreNegative && s.gossipsub * 19.0 <= -320000.0
    ensures s.gossipsub >= GOSSIPSUB_GREYLIST_THRESHOLD ==> StateOfReal(s.score) == Healthy
  {
    assert GOSSIPSUB_SCORE_WEIGHT == 19.0 / 16000.0;
    assert s.gossipsub * GOSSIPSUB_SCORE_WEIGHT == s.gossipsub * 19.0 / 16000.0;
  }

  /** A gossipsub update that is due decides by itself whether a peer with a clean record is disconnected. */
  lemma GossipUpdateDecides(s: ScoreValue, now: Instant, score: real, ignore: bool)
    requires Reachable(s) && s.lighthouse == 0.0 && s.lastUpdated <= now
    ensures StateOfReal(GossipUpdated(s, now, score, ignore).score) != Healthy <==>
            !ignore && score * 19.0 <= -320000.0
  {
    AfterStaysReachable(s, Gossip(now, score, ignore));
    GossipAloneDisconnectsIff(GossipUpdated(s, now, score, ignore));
  }

  /** A lighthouse score of -60 or below bans whatever gossipsub says; above it gossipsub can tip the balance. */
  lemma LighthouseAloneBans(s: ScoreValue)
    requires InSync(s)
    ensures s.lighthouse <= -60.0 ==> StateOfReal(s.score) == Banned
    ensures s.lighthouse > -60.0 && s.gossipsub >= 12000.0 ==> StateOfReal(s.score) != Banned
    ensures s.lighthouse <= -50.0 && s.gossipsub <= 0.0 ==> StateOfReal(s.score) == Banned
  {
    assert GOSSIPSUB_SCORE_WEIGHT == 19.0 / 16000.0;
    assert s.gossipsub * GOSSIPSUB_SCORE_WEIGHT == s.gossipsub * 19.0 / 16000.0;
  }
}
