/** The contexts the decision layer reads, with their optional fields already resolved. */
module Context {
  import opened Text

  datatype Offer = Offer(active: bool, title: Option<string>)

  datatype HistoryEntry = HistoryEntry(from: string, body: string)

  datatype Merchant = Merchant(
    id: string,
    categorySlug: string,
    name: string,
    ownerFirstName: Option<string>,
    languages: seq<string>,
    offers: seq<Offer>,
    signals: seq<string>,
    chronicRxCount: Option<int>,
    history: seq<HistoryEntry>)
  {
    predicate HasActiveOffer() { exists o | o in offers :: o.active }
  }

  datatype Customer = Customer(
    id: string,
    name: Option<string>,
    languagePref: Option<string>,
    consentScope: seq<string>)

  datatype DigestItem = DigestItem(
    id: string,
    kind: string,
    title: Option<string>,
    hasTrialSize: bool,
    actionable: Option<string>)

  datatype Category = Category(slug: string, vocabTaboo: seq<string>, digest: seq<DigestItem>)
  {
    /** The first item with that id. */
    function DigestItemById(id: string): Option<DigestItem> { FirstWithId(digest, id) }

    predicate HasDigestOfKind(kind: string) { exists i | i in digest :: i.kind == kind }
  }

  function FirstWithId(items: seq<DigestItem>, id: string): (r: Option<DigestItem>)
    ensures r.Some? ==> r.value in items && r.value.id == id
    ensures r == None ==> forall i | i in items :: i.id != id
  {
    if items == [] then None else if items[0].id == id then Some(items[0]) else FirstWithId(items[1..], id)
  }

  /** A trigger's kind together with the payload fields its generator reads. `OtherKind` is any
      kind that no generator reads. */
  datatype Occasion =
    | FestivalUpcoming(festival: string, daysUntil: Option<real>, relevantTo: seq<string>)
    | SeasonalPerfDip(metric: Option<string>, deltaPct: Option<real>, expectedSeasonal: bool)
    | CustomerLapsedHard
    | RecallDue(slotLabels: seq<string>)
    | SupplyAlert(molecule: Option<string>)
    | PerfSpike(metric: Option<string>, deltaPct: Option<real>)
    | MilestoneReached(metric: Option<string>, valueNow: Option<real>, milestoneValue: Option<real>, imminent: bool)
    | CompetitorOpened(competitor: string, distanceKm: Option<real>, hasOffer: bool)
    | RenewalDue(daysRemaining: Option<real>, plan: Option<string>)
    | CuriousAskDue(askTemplate: Option<string>)
    | PerfDip(metric: Option<string>, deltaPct: Option<real>, hasBaseline: bool)
    | ReviewThemeEmerged(theme: Option<string>, occurrences: Option<real>, quote: Option<string>, rising: bool)
    | ResearchDigest(itemCategory: Option<string>, topItemId: Option<string>)
    | RegulationChange(itemCategory: Option<string>, topItemId: Option<string>, deadline: Option<string>)
    | ChronicRefillDue(molecules: seq<string>, runOutDate: Option<string>, addressSaved: bool)
    | OtherKind(kind: string)

  /** The trigger's kind as it is spelled on the wire. */
  function KindName(o: Occasion): string {
    match o
    case FestivalUpcoming(_, _, _) => "festival_upcoming"
    case SeasonalPerfDip(_, _, _) => "seasonal_perf_dip"
    case CustomerLapsedHard => "customer_lapsed_hard"
    case RecallDue(_) => "recall_due"
    case SupplyAlert(_) => "supply_alert"
    case PerfSpike(_, _) => "perf_spike"
    case MilestoneReached(_, _, _, _) => "milestone_reached"
    case CompetitorOpened(_, _, _) => "competitor_opened"
    case RenewalDue(_, _) => "renewal_due"
    case CuriousAskDue(_) => "curious_ask_due"
    case PerfDip(_, _, _) => "perf_dip"
    case ReviewThemeEmerged(_, _, _, _) => "review_theme_emerged"
    case ResearchDigest(_, _) => "research_digest"
    case RegulationChange(_, _, _) => "regulation_change"
    case ChronicRefillDue(_, _, _) => "chronic_refill_due"
    case OtherKind(kind) => kind
  }

  /** A parsed date and time: whether it names its time zone, and the instant. */
  datatype Timestamp = Timestamp(aware: bool, instant: int)

  datatype Trigger = Trigger(
    id: string,
    merchantId: string,
    customerId: Option<string>,
    occasion: Occasion,
    urgency: int,
    suppressionKey: string,
    expiresAt: Option<Timestamp>)
}
