/** What the scores come to: their bounds, and the gates `decide` reduces to. */
module Scores {
  import opened Text
  import opened Context
  import opened Generators
  import opened Compiler

  function AtUrgency(s: Situation, urgency: int): Situation {
    s.(trigger := s.trigger.(urgency := urgency))
  }

  /** A festival for which the merchant has no active offer. */
  predicate BareFestival(s: Situation) { s.trigger.occasion.FestivalUpcoming? && !s.merchant.HasActiveOffer() }

  /** A score is at least one half, or at least 0.48 for a bare festival. */
  predicate ShareFor(s: Situation, share: real) { (if BareFestival(s) then 0.48 else 0.5) <= share <= 1.0 }

  lemma {:induction false} UrgencyOne(share: real)
    requires 0.0 <= share <= 1.0
    ensures Scaled(share, 1) == share
  {
    assert UrgencyFactor(1) == 1.0;
  }

  /** `o` is yielded exactly if the gate is open, and its score is that at urgency 1 (`one`),
      scaled. */
  predicate Shaped(s: Situation, o: Option<Opportunity>, one: Option<Opportunity>) {
    && (o.Some? <==> Gate(s))
    && (o.Some? ==>
          && one.Some? && ShareFor(s, one.value.score)
          && o.value == one.value.(score := Scaled(one.value.score, s.trigger.urgency)))
  }

  lemma {:induction false} FestivalShaped(s: Situation)
    requires s.trigger.occasion.FestivalUpcoming?
    ensures Shaped(s, FestivalOpportunity(s), FestivalOpportunity(AtUrgency(s, 1)))
  {
    if Gate(s) {
      FestivalRange(s.trigger.occasion.daysUntil.value, s.merchant.HasActiveOffer());
      UrgencyOne(FestivalShare(s.trigger.occasion.daysUntil.value, s.merchant.HasActiveOffer()));
    }
  }

  lemma {:induction false} FestivalRange(days: real, hasOffer: bool)
    requires 0.0 <= days <= TIMELINESS_WINDOW_DAYS
    ensures FestivalShare(days, hasOffer) == (if hasOffer then 4.6 - days / 14.0 else 3.4 - days / 14.0) / 5.0
    ensures (if hasOffer then 0.72 else 0.48) <= FestivalShare(days, hasOffer) <= 0.92
  {
    assert 0.0 <= days / 14.0 <= 1.0;
  }

  lemma {:induction false} SeasonalShaped(s: Situation)
    requires s.trigger.occasion.SeasonalPerfDip?
    ensures Shaped(s, SeasonalDipReframeOpportunity(s), SeasonalDipReframeOpportunity(AtUrgency(s, 1)))
  {}

  lemma {:induction false} WinbackShaped(s: Situation)
    requires s.trigger.occasion.CustomerLapsedHard?
    ensures Shaped(s, CustomerLapsedWinbackOpportunity(s), CustomerLapsedWinbackOpportunity(AtUrgency(s, 1)))
  {}

  lemma {:induction false} RecallShaped(s: Situation)
    requires s.trigger.occasion.RecallDue?
    ensures Shaped(s, RecallDueOpportunity(s), RecallDueOpportunity(AtUrgency(s, 1)))
  {}

  lemma {:induction false} SupplyShaped(s: Situation)
    requires s.trigger.occasion.SupplyAlert?
    ensures Shaped(s, SupplyAlertOpportunity(s), SupplyAlertOpportunity(AtUrgency(s, 1)))
  {}

  lemma {:induction false} SpikeShaped(s: Situation)
    requires s.trigger.occasion.PerfSpike?
    ensures Shaped(s, PerfSpikeOpportunity(s), PerfSpikeOpportunity(AtUrgency(s, 1)))
  {}

  lemma {:induction false} MilestoneShaped(s: Situation)
    requires s.trigger.occasion.MilestoneReached?
    ensures Shaped(s, MilestoneReachedOpportunity(s), MilestoneReachedOpportunity(AtUrgency(s, 1)))
  {}

  lemma {:induction false} CompetitorShaped(s: Situation)
    requires s.trigger.occasion.CompetitorOpened?
    ensures Shaped(s, CompetitorOpenedOpportunity(s), CompetitorOpenedOpportunity(AtUrgency(s, 1)))
  {}

  lemma {:induction false} RenewalShaped(s: Situation)
    requires s.trigger.occasion.RenewalDue?
    ensures Shaped(s, RenewalDueOpportunity(s), RenewalDueOpportunity(AtUrgency(s, 1)))
  {}

  lemma {:induction false} CuriousShaped(s: Situation)
    requires s.trigger.occasion.CuriousAskDue?
    ensures Shaped(s, CuriousAskDueOpportunity(s), CuriousAskDueOpportunity(AtUrgency(s, 1)))
  {}

  lemma {:induction false} DipShaped(s: Situation)
    requires s.trigger.occasion.PerfDip?
    ensures Shaped(s, PerfDipOpportunity(s), PerfDipOpportunity(AtUrgency(s, 1)))
  {}

  lemma {:induction false} TwoWeights(a: bool, b: bool)
    ensures var share := (1.0 + Weight(a, 1.0, 0.5) + Weight(b, 1.0, 0.6) + 0.6) / 3.6;
      0.5 <= share <= 1.0 && Scaled(share, 1) == share
    ensures var share := (1.0 + Weight(a, 1.0, 0.6) + Weight(b, 1.0, 0.5) + 0.6) / 3.6;
      0.5 <= share <= 1.0 && Scaled(share, 1) == share
  {}

  lemma {:induction false} ReviewShaped(s: Situation)
    requires s.trigger.occasion.ReviewThemeEmerged?
    ensures Shaped(s, ReviewThemeEmergedOpportunity(s), ReviewThemeEmergedOpportunity(AtUrgency(s, 1)))
  {
    hide Visible, Weight, Scaled;
    var o := s.trigger.occasion;
    TwoWeights(Visible(o.quote), o.rising);
  }

  lemma {:induction false} ResearchShaped(s: Situation)
    requires s.trigger.occasion.ResearchDigest?
    ensures Shaped(s, ResearchDigestOpportunity(s), ResearchDigestOpportunity(AtUrgency(s, 1)))
  {
    hide Visible, Weight, Scaled;
    var o := s.trigger.occasion;
    var item := ResolveDigestItem(s, o.itemCategory, o.topItemId);
    if item.Some? { TwoWeights(item.value.hasTrialSize, Visible(item.value.actionable)); }
  }

  lemma {:induction false} RegulationShaped(s: Situation)
    requires s.trigger.occasion.RegulationChange?
    ensures Shaped(s, RegulationChangeOpportunity(s), RegulationChangeOpportunity(AtUrgency(s, 1)))
  {}

  lemma {:induction false} ChronicShaped(s: Situation)
    requires s.trigger.occasion.ChronicRefillDue?
    ensures Shaped(s, ChronicRefillDueOpportunity(s), ChronicRefillDueOpportunity(AtUrgency(s, 1)))
  {
    hide Weight, Scaled, NamesMolecule;
    var o := s.trigger.occasion;
    TwoWeights(Given(o.runOutDate), o.addressSaved);
  }

  lemma {:induction false} OwnShapedEarly(s: Situation)
    requires GeneratorIndex(s.trigger.occasion) < 4
    ensures Shaped(s, Own(s), Own(AtUrgency(s, 1)))
  {
    hide Shaped, FestivalOpportunity, SeasonalDipReframeOpportunity, CustomerLapsedWinbackOpportunity, RecallDueOpportunity;
    match s.trigger.occasion
    case FestivalUpcoming(_, _, _) => FestivalShaped(s);
    case SeasonalPerfDip(_, _, _) => SeasonalShaped(s);
    case CustomerLapsedHard => WinbackShaped(s);
    case RecallDue(_) => RecallShaped(s);
  }

  lemma {:induction false} OwnShapedMiddle(s: Situation)
    requires 4 <= GeneratorIndex(s.trigger.occasion) < 8
    ensures Shaped(s, Own(s), Own(AtUrgency(s, 1)))
  {
    hide Shaped, SupplyAlertOpportunity, PerfSpikeOpportunity, MilestoneReachedOpportunity, CompetitorOpenedOpportunity;
    match s.trigger.occasion
    case SupplyAlert(_) => SupplyShaped(s);
    case PerfSpike(_, _) => SpikeShaped(s);
    case MilestoneReached(_, _, _, _) => MilestoneShaped(s);
    case CompetitorOpened(_, _, _) => CompetitorShaped(s);
  }

  lemma {:induction false} OwnShapedLate(s: Situation)
    requires 8 <= GeneratorIndex(s.trigger.occasion) < 12
    ensures Shaped(s, Own(s), Own(AtUrgency(s, 1)))
  {
    hide Shaped, RenewalDueOpportunity, CuriousAskDueOpportunity, PerfDipOpportunity, ReviewThemeEmergedOpportunity;
    match s.trigger.occasion
    case RenewalDue(_, _) => RenewalShaped(s);
    case CuriousAskDue(_) => CuriousShaped(s);
    case PerfDip(_, _, _) => DipShaped(s);
    case ReviewThemeEmerged(_, _, _, _) => ReviewShaped(s);
  }

  lemma {:induction false} OwnShapedLast(s: Situation)
    requires 12 <= GeneratorIndex(s.trigger.occasion) < 15
    ensures Shaped(s, Own(s), Own(AtUrgency(s, 1)))
  {
    hide Shaped, ResearchDigestOpportunity, RegulationChangeOpportunity, ChronicRefillDueOpportunity;
    match s.trigger.occasion
    case ResearchDigest(_, _) => ResearchShaped(s);
    case RegulationChange(_, _, _) => RegulationShaped(s);
    case ChronicRefillDue(_, _, _) => ChronicShaped(s);
  }

  /** Every generator yields an opportunity exactly if its gate is open. At urgency 1 the score
      is at least one half (0.48 for a bare festival); other urgencies only scale it. */
  lemma {:induction false} OwnShaped(s: Situation)
    ensures Shaped(s, Own(s), Own(AtUrgency(s, 1)))
  {
    var i := GeneratorIndex(s.trigger.occasion);
    if i < 4 {
      OwnShapedEarly(s);
    } else if i < 8 {
      OwnShapedMiddle(s);
    } else if i < 12 {
      OwnShapedLate(s);
    } else if i < 15 {
      OwnShapedLast(s);
    } else {
      assert s.trigger.occasion.OtherKind?;
    }
  }

  // ---- scaling ---------------------------------------------------------------------------------

  lemma {:induction false} Product(share: real, low: real, high: real)
    requires 0.0 <= share && low <= high
    ensures share * low <= share * high
  {}

  lemma {:induction false} FactorGrows(u: int, v: int)
    requires u <= v
    ensures UrgencyFactor(u) <= UrgencyFactor(v)
  {}

  lemma {:induction false} ScaledGrows(share: real, u: int, v: int)
    requires 0.0 <= share && u <= v
    ensures Scaled(share, u) <= Scaled(share, v)
  {
    FactorGrows(u, v);
    Product(share, UrgencyFactor(u), UrgencyFactor(v));
  }

  lemma {:induction false} AtMostFifth(share: real, factor: real)
    requires 0.0 <= share && factor <= 1.2
    ensures share * factor <= 1.2 * share
  {
    Product(share, factor, 1.2);
  }

  lemma {:induction false} ClampAtMost(x: real, most: real)
    requires 0.0 <= most && x <= most
    ensures Clamp(x) <= most
  {}

  lemma {:induction false} ScaledAtMost(share: real, u: int)
    requires 0.0 <= share <= 1.0 && u <= 5
    ensures Scaled(share, u) <= 1.2 * share
  {
    FactorGrows(u, 5);
    AtMostFifth(share, UrgencyFactor(u));
    ClampAtMost(share * UrgencyFactor(u), 1.2 * share);
  }

  /** Over the same trigger at two urgencies: the same gate, a score within [0, 1] that does not
      fall as the urgency grows, and at urgency 1 to 5 at most 1.2 times the score at urgency 1. */
  lemma {:induction false} ScoreBounds(s: Situation, urgency: int)
    requires s.trigger.urgency <= urgency
    ensures Own(s).Some? <==> Own(AtUrgency(s, urgency)).Some?
    ensures Own(s).Some? ==> Own(AtUrgency(s, 1)).Some?
    ensures Own(s).Some? ==>
      var low, high := Own(s).value.score, Own(AtUrgency(s, urgency)).value.score;
      0.0 <= low <= high <= 1.0 && (urgency <= 5 ==> high <= 1.2 * Own(AtUrgency(s, 1)).value.score)
  {
    hide Own, Gate;
    var t := AtUrgency(s, urgency);
    OwnShaped(s);
    OwnShaped(t);
    SameGate(s, urgency);
    if Own(s).Some? {
      var one := Own(AtUrgency(s, 1)).value.score;
      ScaledGrows(one, s.trigger.urgency, urgency);
      if urgency <= 5 { ScaledAtMost(one, urgency); }
    }
  }

  lemma {:induction false} SameGate(s: Situation, urgency: int)
    ensures Gate(s) <==> Gate(AtUrgency(s, urgency))
    ensures AtUrgency(AtUrgency(s, urgency), 1) == AtUrgency(s, 1)
    ensures BareFestival(s) <==> BareFestival(AtUrgency(s, urgency))
  {
    hide NamesMolecule, Visible, AlreadyDiscussed;
  }

  lemma {:induction false} SameCorroboration(s: Situation, urgency: int)
    ensures Corroborated(s) <==> Corroborated(AtUrgency(s, urgency))
  {
    hide Corroborates;
  }

  // ---- what decide comes to --------------------------------------------------------------------

  /** A bare festival more than 12.6 days away, at the lowest urgency. */
  predicate FarBareFestival(s: Situation) {
    && BareFestival(s) && s.trigger.urgency == 1
    && s.trigger.occasion.daysUntil.Some? && s.trigger.occasion.daysUntil.value > 12.6
  }

  /** The score `decide` compares with the threshold. */
  function FinalScore(s: Situation): real {
    if Own(s).Some? then Nudged(Own(s).value, Bonus(Corroborated(s))).score else 0.0
  }

  lemma {:induction false} BestOfTwo(a: Opportunity, b: Opportunity)
    ensures Best([a, b]) == if b.score > a.score then b else a
    ensures Best([a]) == a
  {
    assert [a, b][..1] == [a];
  }

  lemma {:induction false} BestScore(s: Situation)
    ensures Best(Opportunities(s)).score == FinalScore(s)
    ensures FinalScore(s) >= 0.5 ==> Own(s).Some? && Best(Opportunities(s)) == Nudged(Own(s).value, Bonus(Corroborated(s)))
  {
    OwnOnly(s);
    OwnShaped(s);
    if Own(s).Some? {
      var o := Nudged(Own(s).value, Bonus(Corroborated(s)));
      BestOfTwo(NO_STRONG_OPPORTUNITY, o);
      assert [NO_STRONG_OPPORTUNITY] + [o] == [NO_STRONG_OPPORTUNITY, o];
    } else {
      BestOfTwo(NO_STRONG_OPPORTUNITY, NO_STRONG_OPPORTUNITY);
      assert [NO_STRONG_OPPORTUNITY] + [] == [NO_STRONG_OPPORTUNITY];
    }
  }

  lemma {:induction false} BareScore(s: Situation)
    requires Gate(s) && BareFestival(s)
    ensures Own(s).Some?
    ensures Own(s).value.score == Scaled(FestivalShare(s.trigger.occasion.daysUntil.value, false), s.trigger.urgency)
  {
    OwnShaped(s);
  }

  /** A festival without offer before the bonus: the condition for every urgency, and what it
      comes to in the documented range. */
  lemma {:induction false} BareThreshold(days: real, urgency: int)
    requires 0.0 <= days <= 14.0
    ensures Scaled(FestivalShare(days, false), urgency) >= 0.5 <==> (3.4 - days / 14.0) / 5.0 * UrgencyFactor(urgency) >= 0.5
    ensures urgency >= 1 ==> (Scaled(FestivalShare(days, false), urgency) >= 0.5 <==> urgency > 1 || days <= 12.6)
  {
    var share := FestivalShare(days, false);
    FestivalRange(days, false);
    if urgency > 1 {
      ScaledGrows(share, 2, urgency);
      ScaledTwo(share);
    } else if urgency == 1 {
      UrgencyOne(share);
    }
  }

  lemma {:induction false} ScaledTwo(share: real)
    requires 0.48 <= share <= 0.92
    ensures Scaled(share, 2) >= 0.5
  {
    assert UrgencyFactor(2) == 1.05;
    assert share * 1.05 >= 0.5;
  }

  lemma {:induction false} ScoreKept(s: Situation)
    requires Gate(s) && s.trigger.urgency >= 1
    ensures Own(s).Some? && Own(s).value.score >= if BareFestival(s) then 0.48 else 0.5
  {
    OwnShaped(s);
    var one := Own(AtUrgency(s, 1)).value.score;
    ScaledGrows(one, 1, s.trigger.urgency);
    UrgencyOne(one);
  }

  /** Before the bonus, an open gate reaches the threshold for every trigger but a far and bare
      festival. */
  lemma {:induction false} OwnScoreIff(s: Situation)
    requires Gate(s) && s.trigger.urgency >= 1
    ensures Own(s).Some? && (Own(s).value.score >= SEND_THRESHOLD <==> !FarBareFestival(s))
  {
    ScoreKept(s);
    if BareFestival(s) {
      BareScore(s);
      BareThreshold(s.trigger.occasion.daysUntil.value, s.trigger.urgency);
    }
  }

  /** The score at urgency 1. */
  function Base(s: Situation): real {
    if Own(AtUrgency(s, 1)).Some? then Own(AtUrgency(s, 1)).value.score else 0.0
  }

  /** That score, scaled by the trigger's urgency, before any clamping. */
  function Strength(s: Situation): real { Base(s) * UrgencyFactor(s.trigger.urgency) }

  /** The score at urgency 1, scaled by the urgency and nudged by the signals, is enough. */
  predicate Reaches(s: Situation) { Strength(s) + Bonus(Corroborated(s)) >= SEND_THRESHOLD }

  /** The own score is enough without the bonus. */
  predicate SendsAlone(s: Situation) { Own(s).Some? && Own(s).value.score >= SEND_THRESHOLD }

  predicate Sends(s: Situation) { FinalScore(s) >= SEND_THRESHOLD }

  lemma {:induction false} OwnStrength(s: Situation)
    ensures Own(s).Some? <==> Gate(s)
    ensures Own(s).Some? ==> Own(s).value.score == Clamp(Strength(s))
  {
    hide Own, Gate;
    OwnShaped(s);
  }

  /** Clamping, before the bonus and after it, makes no difference at the threshold. */
  lemma {:induction false} ClampedThreshold(o: Opportunity, x: real, corroborated: bool)
    requires o.score == Clamp(x)
    ensures Nudged(o, Bonus(corroborated)).score >= SEND_THRESHOLD <==> x + Bonus(corroborated) >= SEND_THRESHOLD
    ensures o.score >= SEND_THRESHOLD <==> x >= SEND_THRESHOLD
  {}

  lemma {:induction false} FinalScoreReaches(s: Situation)
    ensures Sends(s) <==> Gate(s) && Reaches(s)
    ensures SendsAlone(s) <==> Gate(s) && Strength(s) >= SEND_THRESHOLD
  {
    hide Own, Gate, Corroborated, Bonus, Strength, Nudged;
    OwnStrength(s);
    if Own(s).Some? { ClampedThreshold(Own(s).value, Strength(s), Corroborated(s)); }
  }

  /** In the documented range of urgencies only a far and bare festival needs a signal. */
  lemma {:induction false} ReachesIff(s: Situation)
    requires s.trigger.urgency >= 1 && Gate(s)
    ensures Reaches(s) <==> (FarBareFestival(s) ==> Corroborated(s))
  {
    hide Own, Gate, Corroborated, FarBareFestival, Strength;
    FinalScoreReaches(s);
    OwnScoreIff(s);
    ScoreKept(s);
    OwnStrength(s);
  }

  /** All the scores, weights and factors come to this: a trigger is sent exactly if it is neither
      stale nor suppressed, its kind's gate is open, and its score at urgency 1, scaled and nudged,
      is enough. In the documented range, urgency 1 and above, it always is, except for a far and
      bare festival that no signal corroborates. What is sent is the own generator's opportunity. */
  lemma {:induction false} DecideIff(s: Situation, alreadySuppressed: bool, now: Option<Timestamp>, facts: seq<string>)
    ensures var d := Decide(s, alreadySuppressed, now, facts);
      && (d.send <==> !IsStale(s.trigger, now) && !alreadySuppressed && Gate(s) && Reaches(s))
      && (if d.send then
            Own(s).Some? && d.cta == Own(s).value.cta && d.actionType == Own(s).value.actionType && d.facts == facts
          else d.facts == [])
    ensures s.trigger.urgency >= 1 && Gate(s) ==> (Reaches(s) <==> (FarBareFestival(s) ==> Corroborated(s)))
  {
    hide Own, Gate, FinalScore, FarBareFestival, Corroborated, Reaches, SendsAlone, Opportunities, Best;
    FinalScoreReaches(s);
    BestScore(s);
    if s.trigger.urgency >= 1 && Gate(s) { ReachesIff(s); }
  }

  /** The bonus changes the decision exactly if the gate is open and the scaled score falls short of
      the threshold by no more than the bonus; in the documented range that is a corroborated far
      and bare festival and no other trigger. */
  lemma {:induction false} BonusDecidesIff(s: Situation)
    ensures Sends(s) != SendsAlone(s) <==> Gate(s) && Reaches(s) && Strength(s) < SEND_THRESHOLD
    ensures s.trigger.urgency >= 1 ==> (Sends(s) != SendsAlone(s) <==> Gate(s) && FarBareFestival(s) && Corroborated(s))
  {
    hide Own, Gate, FarBareFestival, Corroborated, FinalScore, Strength, Sends;
    FinalScoreReaches(s);
    if s.trigger.urgency >= 1 && Gate(s) {
      ReachesIff(s);
      OwnScoreIff(s);
    }
  }

  /** The final score keeps the bounds and the order of the own score. */
  lemma {:induction false} FinalScoreBounds(s: Situation, urgency: int)
    requires s.trigger.urgency <= urgency
    ensures 0.0 <= FinalScore(s) <= FinalScore(AtUrgency(s, urgency)) <= 1.0
  {
    ScoreBounds(s, urgency);
    SameCorroboration(s, urgency);
  }
}
