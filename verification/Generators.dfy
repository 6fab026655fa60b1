/** The fifteen gated opportunity generators, their scores, and the list they produce. */
module Generators {
  import opened Text
  import opened Brief
  import opened Context
  import opened ClaimStripping

  /** What a generator is called with. */
  datatype Situation = Situation(merchant: Merchant, trigger: Trigger, customer: Option<Customer>, category: Option<Category>)

  datatype Opportunity = Opportunity(name: string, actionType: string, score: real, cta: Cta)

  const TIMELINESS_WINDOW_DAYS := 14.0
  const MEANINGFUL_DIP := -0.10
  const STRONG_DIP := -0.15
  const MEANINGFUL_SPIKE := 0.10
  const NEARBY_RADIUS_KM := 5.0
  const URGENCY_STEP := 0.05
  const CORROBORATION_BONUS := 0.03
  const TOKEN_OVERLAP_MIN := 2

  function Clamp(x: real): (r: real)
    ensures 0.0 <= r <= 1.0
    ensures 0.0 <= x <= 1.0 ==> r == x
  {
    if x < 0.0 then 0.0 else if x > 1.0 then 1.0 else x
  }

  function UrgencyFactor(urgency: int): real { 1.0 + URGENCY_STEP * (urgency - 1) as real }

  /** A share of the maximal raw score, scaled by urgency. */
  function Scaled(share: real, urgency: int): real { Clamp(share * UrgencyFactor(urgency)) }

  function Weight(holds: bool, high: real, low: real): real { if holds then high else low }

  predicate Given(s: Option<string>) { s.Some? && s.value != "" }

  predicate Visible(s: Option<string>) { s.Some? && !Blank(s.value) }

  predicate InWindow(days: Option<real>) { days.Some? && 0.0 <= days.value <= TIMELINESS_WINDOW_DAYS }

  predicate Consented(customer: Option<Customer>, scope: string) { customer.Some? && scope in customer.value.consentScope }

  function FestivalShare(days: real, hasOffer: bool): real {
    (1.0 + Weight(hasOffer, 1.0, 0.5) + Clamp(1.0 - days / TIMELINESS_WINDOW_DAYS) + Weight(hasOffer, 1.0, 0.3) + 0.6) / 5.0
  }

  function FestivalOpportunity(s: Situation): Option<Opportunity> {
    match s.trigger.occasion
    case FestivalUpcoming(festival, days, relevantTo) =>
      if festival == "" || s.merchant.categorySlug !in relevantTo || !InWindow(days) then None
      else
        var hasOffer := s.merchant.HasActiveOffer();
        Some(Opportunity("festival:" + festival, "festival_campaign",
                         Scaled(FestivalShare(days.value, hasOffer), s.trigger.urgency),
                         if hasOffer then BinaryYesNo else OpenEnded))
    case _ => None
  }

  function SeasonalDipReframeOpportunity(s: Situation): Option<Opportunity> {
    match s.trigger.occasion
    case SeasonalPerfDip(metric, delta, expected) =>
      if !expected || metric == None || delta == None || delta.value > MEANINGFUL_DIP then None
      else
        var digest := s.category.Some? && s.category.value.HasDigestOfKind("seasonal");
        var raw := 1.0 + Weight(delta.value <= STRONG_DIP, 1.0, 0.4)
                   + Weight(s.merchant.HasActiveOffer(), 1.0, 0.5) + Weight(digest, 1.0, 0.3);
        Some(Opportunity("seasonal_dip_reframe", "seasonal_dip_reframe", Scaled(raw / 4.0, s.trigger.urgency), OpenEnded))
    case _ => None
  }

  function CustomerLapsedWinbackOpportunity(s: Situation): Option<Opportunity> {
    if !s.trigger.occasion.CustomerLapsedHard? || !Consented(s.customer, "winback_offers") then None
    else
      var hasOffer := s.merchant.HasActiveOffer();
      var raw := 1.0 + Weight(hasOffer, 1.0, 0.5) + Weight(hasOffer, 1.0, 0.3) + 0.6;
      Some(Opportunity("customer_winback", "customer_winback", Scaled(raw / 3.6, s.trigger.urgency),
                       if hasOffer then BinaryYesNo else OpenEnded))
  }

  function RecallDueOpportunity(s: Situation): Option<Opportunity> {
    match s.trigger.occasion
    case RecallDue(slotLabels) =>
      if !Consented(s.customer, "recall_reminders") then None
      else
        var raw := 1.0 + Weight(slotLabels != [], 1.0, 0.5) + Weight(s.merchant.HasActiveOffer(), 1.0, 0.5) + 0.6;
        Some(Opportunity("recall_due", "recall_reminder", Scaled(raw / 3.6, s.trigger.urgency),
                         if slotLabels != [] then MultiChoiceSlot else OpenEnded))
    case _ => None
  }

  /** Vera mentioned the molecule and the merchant wrote something. */
  predicate AlreadyDiscussed(merchant: Merchant, molecule: string) {
    && (exists e | e in merchant.history :: e.from == "vera" && Contains(Lower(e.body), Lower(molecule)))
    && (exists e | e in merchant.history :: e.from == "merchant")
  }

  function SupplyAlertOpportunity(s: Situation): Option<Opportunity> {
    match s.trigger.occasion
    case SupplyAlert(molecule) =>
      if !Given(molecule) || AlreadyDiscussed(s.merchant, molecule.value) then None
      else
        var customers := s.merchant.chronicRxCount;
        var raw := 1.0 + Weight(customers.Some? && customers.value != 0, 1.0, 0.3) + 0.6;
        Some(Opportunity("supply_alert:" + molecule.value, "compliance_alert", Scaled(raw / 2.6, s.trigger.urgency), OpenEnded))
    case _ => None
  }

  function PerfSpikeOpportunity(s: Situation): Option<Opportunity> {
    match s.trigger.occasion
    case PerfSpike(metric, delta) =>
      if metric == None || delta == None || delta.value < MEANINGFUL_SPIKE then None
      else
        var raw := 1.0 + Weight(delta.value >= MEANINGFUL_SPIKE * 2.0, 1.0, 0.6)
                   + Weight(s.merchant.HasActiveOffer(), 1.0, 0.5) + 0.6;
        Some(Opportunity("perf_spike", "perf_spike_capitalize", Scaled(raw / 3.6, s.trigger.urgency), OpenEnded))
    case _ => None
  }

  function MilestoneReachedOpportunity(s: Situation): Option<Opportunity> {
    match s.trigger.occasion
    case MilestoneReached(metric, now, milestone, imminent) =>
      if metric == None || now == None || milestone == None || (now.value < milestone.value && !imminent) then None
      else
        var raw := 1.0 + Weight(now.value >= milestone.value, 1.0, 0.7) + 0.7 + 0.6;
        Some(Opportunity("milestone_reached", "milestone_celebration", Scaled(raw / 3.6, s.trigger.urgency), OpenEnded))
    case _ => None
  }

  function CompetitorOpenedOpportunity(s: Situation): Option<Opportunity> {
    match s.trigger.occasion
    case CompetitorOpened(competitor, distance, theirOffer) =>
      if competitor == "" || distance == None || distance.value > NEARBY_RADIUS_KM then None
      else
        var raw := 1.0 + Weight(distance.value <= 2.0, 1.0, 0.6) + Weight(theirOffer, 1.0, 0.6) + 0.6;
        Some(Opportunity("competitor_opened:" + competitor, "competitor_awareness", Scaled(raw / 3.6, s.trigger.urgency), OpenEnded))
    case _ => None
  }

  function RenewalDueOpportunity(s: Situation): Option<Opportunity> {
    match s.trigger.occasion
    case RenewalDue(days, plan) =>
      if days == None || plan == None || !InWindow(days) then None
      else
        var raw := 1.0 + Clamp(1.0 - days.value / TIMELINESS_WINDOW_DAYS) + 0.6;
        Some(Opportunity("renewal_due", "renewal_reminder", Scaled(raw / 2.6, s.trigger.urgency), OpenEnded))
    case _ => None
  }

  function CuriousAskDueOpportunity(s: Situation): Option<Opportunity> {
    match s.trigger.occasion
    case CuriousAskDue(ask) =>
      if !Visible(ask) then None
      else Some(Opportunity("curious_ask", "curious_ask", Scaled((1.0 + 1.0 + 0.6) / 2.6, s.trigger.urgency), OpenEnded))
    case _ => None
  }

  function PerfDipOpportunity(s: Situation): Option<Opportunity> {
    match s.trigger.occasion
    case PerfDip(metric, delta, hasBaseline) =>
      if metric == None || delta == None || delta.value > MEANINGFUL_DIP then None
      else
        var raw := 1.0 + Weight(delta.value <= STRONG_DIP, 1.0, 0.4) + Weight(hasBaseline, 1.0, 0.5) + 0.6;
        Some(Opportunity("perf_dip", "perf_dip_flag", Scaled(raw / 3.6, s.trigger.urgency), OpenEnded))
    case _ => None
  }

  function ReviewThemeEmergedOpportunity(s: Situation): Option<Opportunity> {
    match s.trigger.occasion
    case ReviewThemeEmerged(theme, occurrences, quote, rising) =>
      if !Visible(theme) || (occurrences == None && !Visible(quote)) then None
      else
        var raw := 1.0 + Weight(Visible(quote), 1.0, 0.5) + Weight(rising, 1.0, 0.6) + 0.6;
        Some(Opportunity("review_theme_emerged", "review_theme_flag", Scaled(raw / 3.6, s.trigger.urgency), OpenEnded))
    case _ => None
  }

  /** The digest item the trigger names, if it was curated for the merchant's own category. */
  function ResolveDigestItem(s: Situation, itemCategory: Option<string>, topItemId: Option<string>): Option<DigestItem> {
    if !Given(itemCategory) || !Given(topItemId) || itemCategory.value != s.merchant.categorySlug || s.category == None then None
    else s.category.value.DigestItemById(topItemId.value)
  }

  function ResearchDigestOpportunity(s: Situation): Option<Opportunity> {
    match s.trigger.occasion
    case ResearchDigest(itemCategory, topItemId) =>
      var item := ResolveDigestItem(s, itemCategory, topItemId);
      if item == None || item.value.kind != "research" || !Visible(item.value.title) then None
      else
        var raw := 1.0 + Weight(item.value.hasTrialSize, 1.0, 0.6) + Weight(Visible(item.value.actionable), 1.0, 0.5) + 0.6;
        Some(Opportunity("research_digest:" + item.value.id, "research_digest_share", Scaled(raw / 3.6, s.trigger.urgency), BinaryYesNo))
    case _ => None
  }

  function RegulationChangeOpportunity(s: Situation): Option<Opportunity> {
    match s.trigger.occasion
    case RegulationChange(itemCategory, topItemId, deadline) =>
      var item := ResolveDigestItem(s, itemCategory, topItemId);
      if item == None || item.value.kind != "compliance" || !Visible(item.value.title) || !Visible(deadline) then None
      else
        var raw := 1.0 + Weight(Visible(item.value.actionable), 1.0, 0.5) + 0.6;
        Some(Opportunity("regulation_change:" + item.value.id, "regulatory_compliance_alert", Scaled(raw / 2.6, s.trigger.urgency), OpenEnded))
    case _ => None
  }

  /** Some molecule still has a name when the claims are stripped from it. */
  predicate NamesMolecule(molecules: seq<string>) { exists m | m in molecules :: m != "" && StripNumericClaims(m) != "" }

  function ChronicRefillDueOpportunity(s: Situation): Option<Opportunity> {
    match s.trigger.occasion
    case ChronicRefillDue(molecules, runOutDate, addressSaved) =>
      if !Consented(s.customer, "refill_reminders") || !NamesMolecule(molecules) then None
      else
        var raw := 1.0 + Weight(Given(runOutDate), 1.0, 0.6) + Weight(addressSaved, 1.0, 0.5) + 0.6;
        Some(Opportunity("chronic_refill:" + s.customer.value.id, "chronic_refill_reminder", Scaled(raw / 3.6, s.trigger.urgency),
                         if addressSaved then BinaryConfirmCancel else OpenEnded))
    case _ => None
  }

  type Generator = Situation -> Option<Opportunity>

  const GENERATOR_COUNT := 15

  /** The generators in their order. */
  function GeneratorAt(i: nat): Generator
    requires i < GENERATOR_COUNT
  {
    if i == 0 then FestivalOpportunity
    else if i == 1 then SeasonalDipReframeOpportunity
    else if i == 2 then CustomerLapsedWinbackOpportunity
    else if i == 3 then RecallDueOpportunity
    else if i == 4 then SupplyAlertOpportunity
    else if i == 5 then PerfSpikeOpportunity
    else if i == 6 then MilestoneReachedOpportunity
    else if i == 7 then CompetitorOpenedOpportunity
    else if i == 8 then RenewalDueOpportunity
    else if i == 9 then CuriousAskDueOpportunity
    else if i == 10 then PerfDipOpportunity
    else if i == 11 then ReviewThemeEmergedOpportunity
    else if i == 12 then ResearchDigestOpportunity
    else if i == 13 then RegulationChangeOpportunity
    else ChronicRefillDueOpportunity
  }

  const NO_STRONG_OPPORTUNITY := Opportunity("no_strong_opportunity", "none", 0.0, NoCta)

  // ---- corroboration by the merchant's own signals -------------------------------------------

  function Until(s: string, sep: char): (r: string)
    ensures |r| <= |s| && sep !in r
  {
    if s == "" || s[0] == sep then "" else [s[0]] + Until(s[1..], sep)
  }

  function Split(s: string, sep: char): seq<string>
    decreases |s|
  {
    var head := Until(s, sep);
    if |head| == |s| then [head] else [head] + Split(s[|head| + 1..], sep)
  }

  predicate AllDigits(s: string) { s != "" && forall c | c in s :: IsDigit(c) }

  /** A length of time such as `22d` or `14h`. */
  predicate Duration(s: string) { |s| > 1 && s[|s| - 1] in {'d', 'h', 'm'} && AllDigits(s[..|s| - 1]) }

  /** The words of a tag: no value behind a colon, no number, no length of time. */
  function SignalTokens(value: string): set<string> {
    set t | t in Split(Lower(Until(value, ':')), '_') && t != "" && !AllDigits(t) && !Duration(t)
  }

  predicate Corroborates(signal: string, kind: string) {
    |SignalTokens(signal) * SignalTokens(kind)| >= TOKEN_OVERLAP_MIN
  }

  predicate Corroborated(s: Situation) {
    exists signal | signal in s.merchant.signals :: Corroborates(signal, KindName(s.trigger.occasion))
  }

  function Bonus(corroborated: bool): real { if corroborated then CORROBORATION_BONUS else 0.0 }

  method SignalCorroborationBonus(s: Situation) returns (bonus: real)
    ensures bonus == Bonus(Corroborated(s))
  {
    var kindTokens := SignalTokens(KindName(s.trigger.occasion));
    for i := 0 to |s.merchant.signals|
      invariant forall j | 0 <= j < i :: !Corroborates(s.merchant.signals[j], KindName(s.trigger.occasion))
    {
      if |SignalTokens(s.merchant.signals[i]) * kindTokens| >= TOKEN_OVERLAP_MIN {
        assert Corroborates(s.merchant.signals[i], KindName(s.trigger.occasion));
        return CORROBORATION_BONUS;
      }
    }
    return 0.0;
  }

  function Nudged(o: Opportunity, bonus: real): Opportunity {
    if bonus != 0.0 then o.(score := Clamp(o.score + bonus)) else o
  }

  /** What the first `n` generators produce, in their order. */
  function Fired(n: nat, s: Situation, bonus: real): seq<Opportunity>
    requires n <= GENERATOR_COUNT
  {
    if n == 0 then []
    else
      var o := GeneratorAt(n - 1)(s);
      Fired(n - 1, s, bonus) + (if o.Some? then [Nudged(o.value, bonus)] else [])
  }

  function Opportunities(s: Situation): seq<Opportunity> {
    [NO_STRONG_OPPORTUNITY] + Fired(GENERATOR_COUNT, s, Bonus(Corroborated(s)))
  }

  method GenerateOpportunities(s: Situation) returns (opportunities: seq<Opportunity>)
    ensures opportunities == Opportunities(s)
  {
    hide GeneratorAt, Corroborated;
    opportunities := [NO_STRONG_OPPORTUNITY];
    var corroboration := SignalCorroborationBonus(s);
    for i := 0 to GENERATOR_COUNT
      invariant opportunities == [NO_STRONG_OPPORTUNITY] + Fired(i, s, corroboration)
    {
      var opportunity := GeneratorAt(i)(s);
      if opportunity.Some? {
        var o := opportunity.value;
        if corroboration != 0.0 { o := o.(score := Clamp(o.score + corroboration)); }
        opportunities := opportunities + [o];
      }
    }
  }
}
