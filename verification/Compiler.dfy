/** The decision compiler: whether a trigger is sent, and with what. */
module Compiler {
  import opened Text
  import opened Brief
  import opened Context
  import opened Generators

  const SEND_THRESHOLD := 0.5

  datatype Decision = Decision(
    send: bool,
    signal: string,
    actionType: string,
    cta: Cta,
    sendAs: SendAs,
    facts: seq<string>,
    suppressionKey: string,
    confidence: real)

  function SendAsOf(trigger: Trigger): SendAs {
    if Given(trigger.customerId) then MerchantOnBehalf else Vera
  }

  function SuppressionKey(merchant: Merchant, trigger: Trigger): string {
    if trigger.suppressionKey != "" then trigger.suppressionKey
    else merchant.id + ":" + KindName(trigger.occasion) + ":" + trigger.id
  }

  /** Only two comparable times can show that a trigger is still fresh; a missing one shows
      nothing. */
  predicate IsStale(trigger: Trigger, now: Option<Timestamp>) {
    && now.Some? && trigger.expiresAt.Some?
    && (now.value.aware != trigger.expiresAt.value.aware || now.value.instant > trigger.expiresAt.value.instant)
  }

  /** The first opportunity with the highest score (Python's `max`). */
  function Best(opportunities: seq<Opportunity>): (best: Opportunity)
    requires opportunities != []
    ensures best in opportunities
    ensures forall o | o in opportunities :: o.score <= best.score
  {
    var n := |opportunities| - 1;
    if n == 0 then opportunities[0]
    else
      var best := Best(opportunities[..n]);
      assert opportunities == opportunities[..n] + [opportunities[n]];
      if opportunities[n].score > best.score then opportunities[n] else best
  }

  function NotSent(s: Situation, signal: string, confidence: real): Decision {
    Decision(false, signal, "none", NoCta, SendAsOf(s.trigger), [], SuppressionKey(s.merchant, s.trigger), confidence)
  }

  /** `facts` is the text of the facts the winning generator states. */
  function Decide(s: Situation, alreadySuppressed: bool, now: Option<Timestamp>, facts: seq<string>): Decision {
    if IsStale(s.trigger, now) then NotSent(s, "stale_trigger", 1.0)
    else if alreadySuppressed then NotSent(s, "suppressed", 1.0)
    else
      var best := Best(Opportunities(s));
      if best.score < SEND_THRESHOLD then NotSent(s, best.name, 1.0 - best.score)
      else
        Decision(true, best.name, best.actionType, best.cta, SendAsOf(s.trigger), facts,
                 SuppressionKey(s.merchant, s.trigger), best.score)
  }

  // ---- the gates, written down without any score ---------------------------------------------

  predicate DigestGate(s: Situation, itemCategory: Option<string>, topItemId: Option<string>, kind: string) {
    var item := ResolveDigestItem(s, itemCategory, topItemId);
    item.Some? && item.value.kind == kind && Visible(item.value.title)
  }

  /** The hard gate of the trigger's kind. */
  predicate Gate(s: Situation) {
    match s.trigger.occasion
    case FestivalUpcoming(festival, days, relevantTo) =>
      festival != "" && s.merchant.categorySlug in relevantTo && InWindow(days)
    case SeasonalPerfDip(metric, delta, expected) => expected && metric.Some? && delta.Some? && delta.value <= MEANINGFUL_DIP
    case CustomerLapsedHard => Consented(s.customer, "winback_offers")
    case RecallDue(_) => Consented(s.customer, "recall_reminders")
    case SupplyAlert(molecule) => Given(molecule) && !AlreadyDiscussed(s.merchant, molecule.value)
    case PerfSpike(metric, delta) => metric.Some? && delta.Some? && delta.value >= MEANINGFUL_SPIKE
    case MilestoneReached(metric, now, milestone, imminent) =>
      metric.Some? && now.Some? && milestone.Some? && (now.value >= milestone.value || imminent)
    case CompetitorOpened(competitor, distance, _) => competitor != "" && distance.Some? && distance.value <= NEARBY_RADIUS_KM
    case RenewalDue(days, plan) => plan.Some? && InWindow(days)
    case CuriousAskDue(ask) => Visible(ask)
    case PerfDip(metric, delta, _) => metric.Some? && delta.Some? && delta.value <= MEANINGFUL_DIP
    case ReviewThemeEmerged(theme, occurrences, quote, _) => Visible(theme) && (occurrences.Some? || Visible(quote))
    case ResearchDigest(itemCategory, topItemId) => DigestGate(s, itemCategory, topItemId, "research")
    case RegulationChange(itemCategory, topItemId, deadline) =>
      DigestGate(s, itemCategory, topItemId, "compliance") && Visible(deadline)
    case ChronicRefillDue(molecules, _, _) => Consented(s.customer, "refill_reminders") && NamesMolecule(molecules)
    case OtherKind(_) => false
  }

  /** The place of the one generator that reads triggers of this kind. */
  function GeneratorIndex(o: Occasion): nat {
    match o
    case FestivalUpcoming(_, _, _) => 0
    case SeasonalPerfDip(_, _, _) => 1
    case CustomerLapsedHard => 2
    case RecallDue(_) => 3
    case SupplyAlert(_) => 4
    case PerfSpike(_, _) => 5
    case MilestoneReached(_, _, _, _) => 6
    case CompetitorOpened(_, _, _) => 7
    case RenewalDue(_, _) => 8
    case CuriousAskDue(_) => 9
    case PerfDip(_, _, _) => 10
    case ReviewThemeEmerged(_, _, _, _) => 11
    case ResearchDigest(_, _) => 12
    case RegulationChange(_, _, _) => 13
    case ChronicRefillDue(_, _, _) => 14
    case OtherKind(_) => 15
  }

  /** The generator whose own test of `trigger.kind` a spelling passes. */
  function IndexOfKind(kind: string): nat {
    if kind == "festival_upcoming" then 0
    else if kind == "seasonal_perf_dip" then 1
    else if kind == "customer_lapsed_hard" then 2
    else if kind == "recall_due" then 3
    else if kind == "supply_alert" then 4
    else if kind == "perf_spike" then 5
    else if kind == "milestone_reached" then 6
    else if kind == "competitor_opened" then 7
    else if kind == "renewal_due" then 8
    else if kind == "curious_ask_due" then 9
    else if kind == "perf_dip" then 10
    else if kind == "review_theme_emerged" then 11
    else if kind == "research_digest" then 12
    else if kind == "regulation_change" then 13
    else if kind == "chronic_refill_due" then 14
    else 15
  }

  /** The fifteen spellings are pairwise different, so that going by a trigger's constructor is
      going by its spelling. */
  lemma {:induction false} KindsApart(o: Occasion)
    requires !o.OtherKind?
    ensures IndexOfKind(KindName(o)) == GeneratorIndex(o)
  {
    hide IndexOfKind, KindName;
    if GeneratorIndex(o) < 8 { EarlyKindsApart(o); } else { LateKindsApart(o); }
  }

  lemma {:induction false} EarlyKindsApart(o: Occasion)
    requires GeneratorIndex(o) < 8
    ensures IndexOfKind(KindName(o)) == GeneratorIndex(o)
  {}

  lemma {:induction false} LateKindsApart(o: Occasion)
    requires 8 <= GeneratorIndex(o) < 15
    ensures IndexOfKind(KindName(o)) == GeneratorIndex(o)
  {}

  /** What the trigger's own generator yields. */
  function Own(s: Situation): Option<Opportunity> {
    var i := GeneratorIndex(s.trigger.occasion);
    if i < GENERATOR_COUNT then GeneratorAt(i)(s) else None
  }

  /** At most one generator fires: the one for the trigger's kind. */
  lemma {:induction false} OnlyOwnFires(s: Situation, i: nat)
    requires i < GENERATOR_COUNT && GeneratorAt(i)(s).Some?
    ensures i == GeneratorIndex(s.trigger.occasion)
  {
    if i < 8 { OnlyOwnFiresEarly(s, i); } else { OnlyOwnFiresLate(s, i); }
  }

  lemma {:induction false} OnlyOwnFiresEarly(s: Situation, i: nat)
    requires i < 8 && GeneratorAt(i)(s).Some?
    ensures i == GeneratorIndex(s.trigger.occasion)
  {}

  lemma {:induction false} OnlyOwnFiresLate(s: Situation, i: nat)
    requires 8 <= i < GENERATOR_COUNT && GeneratorAt(i)(s).Some?
    ensures i == GeneratorIndex(s.trigger.occasion)
  {}

  lemma {:induction false} FiredUpTo(n: nat, s: Situation, bonus: real)
    requires n <= GENERATOR_COUNT
    ensures Fired(n, s, bonus) ==
      if GeneratorIndex(s.trigger.occasion) < n && Own(s).Some? then [Nudged(Own(s).value, bonus)] else []
  {
    hide GeneratorAt, Nudged;
    if n > 0 {
      FiredUpTo(n - 1, s, bonus);
      if GeneratorAt(n - 1)(s).Some? { OnlyOwnFires(s, n - 1); }
    }
  }

  /** Besides the fallback there is the own generator's opportunity, or nothing. */
  lemma {:induction false} OwnOnly(s: Situation)
    ensures Opportunities(s) ==
      [NO_STRONG_OPPORTUNITY] + (if Own(s).Some? then [Nudged(Own(s).value, Bonus(Corroborated(s)))] else [])
  {
    FiredUpTo(GENERATOR_COUNT, s, Bonus(Corroborated(s)));
  }
}
