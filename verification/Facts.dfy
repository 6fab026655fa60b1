/** The facts the generators state, and the figures each of them puts among the allowed ones. */
module Facts {
  import opened Text
  import opened Scan
  import opened Cuts
  import opened Firewall
  import opened Readings
  import opened Meaning
  import opened ClaimStripping
  import opened FactFigures

  /** A formatted number: it has neither sign of a claim. */
  type Number = n: string | '%' !in n && '₹' !in n witness "0"

  /** Fixed wording, an untrusted field that is stripped of claims, one that is asked as a question,
      a number the system computed or counted, and text that is stated as it is. */
  datatype Segment = Words(text: string) | Cleaned(field: string) | Question(field: string) | Counted(number: Number) | Given(text: string)

  function Stated(s: Segment): string {
    match s
    case Words(text) => text
    case Cleaned(field) => StripNumericClaims(field)
    case Question(field) => Capital(Strip(StripNumericClaims(field)))
    case Counted(n) => n
    case Given(text) => text
  }

  function Capital(s: string): string { if s == "" then "" else [UpperChar(s[0])] + s[1..] }

  function Spell(segments: seq<Segment>): string {
    if segments == [] then "" else Stated(segments[0]) + Spell(segments[1..])
  }

  /** The figures of what is stated as it is. */
  function GivenClaims(p: Pattern, segments: seq<Segment>): set<string> {
    if segments == [] then {} else (if segments[0].Given? then Claims(p, segments[0].text) else {}) + GivenClaims(p, segments[1..])
  }

  // ---- fields between wording ----------------------------------------------------------------------

  /** Wording that keeps what stands before it apart from what follows. */
  predicate Divides(w: string) {
    w != "" && w[0] != '%' && w[0] != '.' && (IsSpace(w[0]) ==> |w| > 1 && !IsSpace(w[1]) && w[1] != '%')
  }

  predicate Apart(s: Segment, rest: seq<Segment>) {
    rest != [] ==> rest[0].Words? && Divides(rest[0].text) && (s.Given? ==> rest[0].text[0] != ',')
  }

  /** Wording without figures, and fields followed by nothing or by wording that divides. */
  predicate Spelled(segments: seq<Segment>) {
    segments != [] ==>
      && Spelled(segments[1..])
      && (if segments[0].Words? then Wording(segments[0].text) else Apart(segments[0], segments[1..]))
  }

  /** One pass cleans every untrusted field. */
  predicate FieldsClean(segments: seq<Segment>) {
    forall s | s in segments && (s.Cleaned? || s.Question?) :: ClaimFree(StripNumericClaims(s.field))
  }

  lemma {:induction false} QuietBehind(w: string, rest: string)
    requires Wording(w) && Divides(w)
    ensures Quiet(w + rest) && (w + rest)[0] == w[0]
  {
    RunUntil(Space, w + rest, if IsSpace(w[0]) then 1 else 0);
    assert w[0] in w;
    assert IsSpace(w[0]) ==> w[1] in w;
  }

  lemma {:induction false} NumberReads(p: Pattern, n: Number)
    requires NumberPattern(p)
    ensures !Has(p, false, n)
  {
    forall c | c in n ensures !IsSign(c) {}
    NoSigns(n);
    NoSignNoClaim(p, n);
  }

  // A claim-free text stays so in front of wording, even of a comma.

  lemma {:induction false} NoPriceJoins(a: string, b: string)
    requires a != "" && Quiet(b) && CurrencyAt(a) == None
    ensures CurrencyAt(a + b) == None
  {
    if a[0] == '₹' {
      var t := a[1..];
      assert (a + b)[1..] == t + b;
      RunConcat(Space, t, b);
      RunIs(Space, t);
      var w := Run(Space, t);
      if w < |t| {
        assert (t + b)[w..] == t[w..] + b;
        assert Amount(t[w..]) == 0 ==> !IsDigit(t[w]);
      } else {
        assert (t + b)[Run(Space, t + b)..] == b[Run(Space, b)..];
      }
    }
  }

  lemma {:induction false} FreeJoins(p: Pattern, afterWord: bool, a: string, b: string)
    requires NumberPattern(p) && Quiet(b) && !Has(p, afterWord, a)
    ensures FindAll(p, afterWord, a + b) == FindAll(p, EndsInWord(afterWord, a), b)
    decreases |a|
  {
    hide PercentAt, CurrencyAt, Quiet;
    if a == "" {
      assert a + b == b;
    } else {
      if p.Percent? { PercentConcat(a, b); } else { NoPriceJoins(a, b); }
      DropConcat(a, b, 1);
      FindAllStep(p, afterWord, a + b);
      EndsInWordDrop(afterWord, a, 1);
      HasStep(p, afterWord, a);
      FreeJoins(p, EndsInWord(afterWord, a[..1]), a[1..], b);
    }
  }

  lemma {:induction false} FreeAddsNothing(p: Pattern, a: string, b: string)
    requires NumberPattern(p) && !Has(p, false, a) && (b == "" || Quiet(b))
    ensures Claims(p, a + b) == Claims(p, b)
  {
    hide Has, FindAll, Quiet;
    if b == "" {
      assert a + b == a;
      FindsNone(p, false, a);
      FindsNone(p, false, "") by { NothingHas(p); }
    } else {
      FreeJoins(p, false, a, b);
      FindAllFresh(p, b);
    }
  }

  lemma {:induction false} NothingHas(p: Pattern)
    ensures !Has(p, false, "")
  {}

  /** A part of a text makes no claim that the text does not make, whatever its letters become. */
  lemma {:induction false} PartReads(p: Pattern, s: string, t: string, d: nat)
    requires NumberPattern(p) && d + |t| <= |s|
    requires forall i | 0 <= i < |t| :: t[i] == s[d + i] || IsLetter(t[i])
    ensures Has(p, false, t) ==> Has(p, false, s)
  {
    hide Has;
    if Has(p, false, t) {
      if p.Percent? {
        PercentMeans(t);
        PercentMeans(s);
        var j, k :| PercentSpan(t, j, k);
        SpacesMove(s, t, d, j, k);
        assert PercentSpan(s, d + j, d + k);
      } else {
        PriceMeans(t);
        PriceMeans(s);
        var j, k :| PriceSpan(t, j, k);
        SpacesMove(s, t, d, j, k);
        assert PriceSpan(s, d + j, d + k);
      }
    }
  }

  lemma {:induction false} SpacesMove(s: string, t: string, d: nat, j: int, k: int)
    requires d + |t| <= |s| && forall i | 0 <= i < |t| :: t[i] == s[d + i] || IsLetter(t[i])
    requires SpacesBetween(t, j, k)
    ensures SpacesBetween(s, d + j, d + k)
  {
    forall i | d + j < i < d + k ensures IsSpace(s[i]) { assert IsSpace(t[i - d]); }
  }

  lemma {:induction false} StripIsPart(text: string) returns (d: nat)
    ensures d + |Strip(text)| <= |text| && Strip(text) == text[d..d + |Strip(text)|]
  {
    hide IsSpace;
    var l := LStrip(text);
    d := |text| - |l|;
    var n := |Strip(text)|;
    assert Strip(text) == l[..n] && l == text[d..];
    assert text[d..][..n] == text[d..d + n];
  }

  lemma {:induction false} CapitalReads(p: Pattern, s: string)
    requires NumberPattern(p)
    ensures Has(p, false, Capital(s)) ==> Has(p, false, s)
  {
    hide Has;
    PartReads(p, s, Capital(s), 0);
  }

  lemma {:induction false} QuestionReads(p: Pattern, text: string)
    requires NumberPattern(p) && !Has(p, false, text)
    ensures !Has(p, false, Capital(Strip(text)))
  {
    hide Has, Strip, Capital;
    var d := StripIsPart(text);
    PartReads(p, text, Strip(text), d);
    CapitalReads(p, Strip(text));
  }

  // ---- what a fact allows --------------------------------------------------------------------------

  /** One segment in front of the others. */
  lemma {:induction false} SegmentClaims(p: Pattern, s: Segment, rest: seq<Segment>)
    requires NumberPattern(p) && Spelled([s] + rest) && FieldsClean([s])
    ensures Claims(p, Stated(s) + Spell(rest)) == (if s.Given? then Claims(p, s.text) else {}) + Claims(p, Spell(rest))
  {
    hide Has, FindAll, StripNumericClaims, Quiet, Divides, Capital;
    assert ([s] + rest)[1..] == rest && s in [s];
    var b := Spell(rest);
    if !s.Words? && rest != [] {
      QuietBehind(rest[0].text, Spell(rest[1..]));
    }
    match s {
      case Words(w) =>
        ClaimsSplit(p, w, b);
        InertFinds(p, false, w);
      case Given(t) => ClaimsSplit(p, t, b);
      case Counted(n) =>
        NumberReads(p, n);
        FreeAddsNothing(p, n, b);
      case Cleaned(f) => FreeAddsNothing(p, StripNumericClaims(f), b);
      case Question(f) =>
        QuestionReads(p, StripNumericClaims(f));
        FreeAddsNothing(p, Stated(s), b);
    }
  }

  /** The figures of a fact are those of the parts it states as they are: neither its wording nor its
      untrusted fields nor any join adds one. */
  lemma {:induction false} SegmentsAllow(p: Pattern, segments: seq<Segment>)
    requires NumberPattern(p) && Spelled(segments) && FieldsClean(segments)
    ensures Claims(p, Spell(segments)) == GivenClaims(p, segments)
  {
    hide Claims, FieldsClean, Stated, Wording, Apart;
    if segments == [] {
      NothingClaimed(p);
    } else {
      var s, rest := segments[0], segments[1..];
      CleanParts(segments);
      assert segments == [s] + rest;
      SegmentsAllow(p, rest);
      SegmentClaims(p, s, rest);
    }
  }

  lemma {:induction false} NothingClaimed(p: Pattern)
    ensures Claims(p, "") == {}
  {}

  lemma {:induction false} CleanParts(segments: seq<Segment>)
    requires segments != [] && FieldsClean(segments)
    ensures FieldsClean([segments[0]]) && FieldsClean(segments[1..])
  {
    hide ClaimFree, StripNumericClaims;
    assert segments[0] in segments;
    forall s | s in segments[1..] ensures s in segments {}
  }

  // ---- the facts -----------------------------------------------------------------------------------

  datatype DateKind = LastVisit | RecallDue | Opening | LastAsked | Deadline | LastRefill | RunsOut

  function DateLead(kind: DateKind): string {
    match kind
    case LastVisit => "your last visit was on "
    case RecallDue => "your recall is due by "
    case Opening => "opened "
    case LastAsked => "last asked this on "
    case Deadline => "deadline: "
    case LastRefill => "last refilled on "
    case RunsOut => "supply runs out on "
  }

  /** Every shape of fact the fifteen generators state. A `Number` is a value the generator formats. */
  datatype Fact =
    | FestivalAway(festival: string, days: Number)
    | MetricChange(metric: string, down: bool, percent: Number)
    | DigestTitle(title: string, source: string)
    | ActiveMembers(count: Number)
    | OfferTitle(title: string)
    | Dated(kind: DateKind, date: string)
    | VisitsBefore(count: Number)
    | DaysSinceVisit(days: Number)
    | PreviousFocus(focus: string)
    | RecallOf(service: string)
    | AvailableSlot(slot: string)
    | RecallOn(molecule: string)
    | AffectedBatches(batches: seq<string>)
    | MadeBy(manufacturer: string)
    | ChronicCustomers(count: Number)
    | Baseline(value: Number)
    | LikelyDriver(driver: string)
    | MilestonePast(metric: string, now: Number, goal: Number)
    | MilestoneNear(metric: string, now: Number, goal: Number)
    | PeersOf(scope: string, average: Number)
    | Peers(average: Number)
    | CompetitorOpened(name: string, km: Number)
    | TheirOffer(offer: string)
    | PlanRenews(plan: string, days: Number)
    | RenewalAmount(amount: Number)
    | Ask(template: string)
    | ThemeMentioned(theme: string, positively: bool)
    | TimesMentioned(count: Number)
    | ReviewSaid(quote: string)
    | MentionsRising
    | Headline(title: string)
    | Trial(patients: Number, segment: string)
    | SourceOf(source: string)
    | SuggestedAction(action: string)
    | Summary(summary: string)
    | RefillOf(molecules: seq<string>)
    | AddressOnFile

  /** A field with its underscores read as spaces. */
  function Spaced(s: string): string { seq(|s|, i requires 0 <= i < |s| => if s[i] == '_' then ' ' else s[i]) }

  function Phrase(text: string): seq<Segment> { if text == "" then [] else [Words(text)] }

  function Around(lead: string, s: Segment, trail: string): seq<Segment> { Phrase(lead) + ([s] + Phrase(trail)) }

  function Listed(fields: seq<string>, trail: string): seq<Segment> {
    if fields == [] then Phrase(trail)
    else if |fields| == 1 then [Cleaned(fields[0])] + Phrase(trail)
    else [Cleaned(fields[0])] + ([Words(", ")] + Listed(fields[1..], trail))
  }

  function AskSegments(field: string): seq<Segment> {
    var text := Stated(Question(field));
    if text == "" then [] else if text[|text| - 1] == '?' then [Question(field)] else Around("", Question(field), "?")
  }

  /** How the generators spell each fact, field by field. */
  function Segments(fact: Fact): seq<Segment> {
    match fact
    case FestivalAway(festival, days) => [Cleaned(festival)] + Around(" is ", Counted(days), " day(s) away")
    case MetricChange(metric, down, percent) =>
      [Cleaned(metric)] + Around(if down then " down " else " up ", Given(percent + "%"), " this week")
    case DigestTitle(title, source) => [Given(title)] + (if source == "" then [] else Around(" (", Given(source), ")"))
    case ActiveMembers(count) => Around("", Counted(count), " active members")
    case OfferTitle(title) => [Given(title)]
    case Dated(kind, date) => Around(DateLead(kind), Given(date), "")
    case Baseline(value) => Around("vs a baseline of ", Counted(value), "")
    case _ => VisitSegments(fact)
  }

  function VisitSegments(fact: Fact): seq<Segment> {
    match fact
    case VisitsBefore(count) => Around("", Counted(count), " visit(s) with you before this")
    case DaysSinceVisit(days) => Around("it has been ", Counted(days), " days since your last visit")
    case PreviousFocus(focus) => Around("your previous focus was ", Cleaned(Spaced(focus)), "")
    case RecallOf(service) => Around("your ", Cleaned(Spaced(service)), " recall is due")
    case AvailableSlot(slot) => Around("available slot: ", Cleaned(slot), "")
    case _ => SupplySegments(fact)
  }

  function SupplySegments(fact: Fact): seq<Segment> {
    match fact
    case RecallOn(molecule) => Around("voluntary recall on ", Cleaned(molecule), "")
    case AffectedBatches(batches) => Phrase("affected batches: ") + Listed(batches, "")
    case MadeBy(manufacturer) => Around("manufacturer ", Cleaned(manufacturer), "")
    case ChronicCustomers(count) => Around("", Counted(count), " chronic-Rx customers on file")
    case _ => DriverSegments(fact)
  }

  function DriverSegments(fact: Fact): seq<Segment> {
    match fact
    case LikelyDriver(driver) => Around("likely driver: ", Cleaned(Spaced(driver)), "")
    case MilestonePast(metric, now, goal) =>
      [Cleaned(Spaced(metric))] + (Phrase(": ") + ([Counted(now)] + Around(", past the ", Counted(goal), " milestone")))
    case MilestoneNear(metric, now, goal) =>
      [Cleaned(Spaced(metric))] + (Phrase(": ") + ([Counted(now)] + Around(", ", Counted(goal), " milestone within reach")))
    case _ => PeerSegments(fact)
  }

  function PeerSegments(fact: Fact): seq<Segment> {
    match fact
    case PeersOf(scope, average) =>
      Phrase("peer average for ") + ([Cleaned(Spaced(scope))] + Around(" is ", Counted(average), " reviews"))
    case Peers(average) => Around("peer average is ", Counted(average), " reviews")
    case CompetitorOpened(name, km) => [Cleaned(name)] + Around(" opened ", Counted(km), "km away")
    case _ => MarketSegments(fact)
  }

  function MarketSegments(fact: Fact): seq<Segment> {
    match fact
    case TheirOffer(offer) => Around("their offer: ", Given(offer), "")
    case PlanRenews(plan, days) => [Cleaned(plan)] + Around(" plan renews in ", Counted(days), " day(s)")
    case RenewalAmount(amount) => Around("renewal amount ", Given("₹" + amount), "")
    case Ask(template) => AskSegments(Spaced(template))
    case _ => ReviewSegments(fact)
  }

  function ReviewSegments(fact: Fact): seq<Segment> {
    match fact
    case ThemeMentioned(theme, positively) =>
      Around(if positively then "customers have positively mentioned " else "customers have mentioned ", Cleaned(Spaced(theme)), "")
    case TimesMentioned(count) => [Counted(count)] + Around(" time(s) in the last ", Counted("30"), " days")
    case ReviewSaid(quote) => Around("one review said: \"", Cleaned(quote), "\"")
    case MentionsRising => Phrase("mentions have been rising")
    case _ => StudySegments(fact)
  }

  function StudySegments(fact: Fact): seq<Segment> {
    match fact
    case Headline(title) => [Given(title)]
    case Trial(patients, segment) =>
      [Counted(patients)] + (if segment == "" then Phrase("-patient trial") else Around("-patient trial (", Given(Spaced(segment)), ")"))
    case SourceOf(source) => Around("source: ", Given(source), "")
    case SuggestedAction(action) => Around("suggested action: ", Given(action), "")
    case _ => DigestSegments(fact)
  }

  function DigestSegments(fact: Fact): seq<Segment> {
    match fact
    case Summary(summary) => [Given(summary)]
    case RefillOf(molecules) => Listed(molecules, " due for refill")
    case _ => Phrase("home delivery address already on file")
  }

  // ---- they are all spelled so ---------------------------------------------------------------------

  lemma {:induction false} SpelledStep(s: Segment, rest: seq<Segment>)
    ensures Spelled([s] + rest) <==> Spelled(rest) && if s.Words? then Wording(s.text) else Apart(s, rest)
  {
    assert ([s] + rest)[1..] == rest;
  }

  predicate Leads(w: string) { w == "" || Wording(w) }

  predicate Trails(s: Segment, w: string) { w == "" || (Wording(w) && Divides(w) && (s.Given? ==> w[0] != ',')) }

  lemma {:induction false} PhraseSpelled(w: string, rest: seq<Segment>)
    requires Leads(w) && Spelled(rest)
    ensures Spelled(Phrase(w) + rest)
  {
    hide Spelled, Wording;
    if w == "" { assert [] + rest == rest; } else { SpelledStep(Words(w), rest); }
  }

  /** A field in front of more: nothing, or wording that divides. */
  lemma {:induction false} FieldSpelled(s: Segment, w: string, rest: seq<Segment>)
    requires !s.Words? && w != "" && Trails(s, w) && Spelled(rest)
    ensures Spelled([s] + (Phrase(w) + rest))
  {
    hide Spelled, Wording, Divides;
    PhraseSpelled(w, rest);
    SpelledStep(s, Phrase(w) + rest);
  }

  lemma {:induction false} LastSpelled(s: Segment, w: string)
    requires !s.Words? && Trails(s, w)
    ensures Spelled([s] + Phrase(w))
  {
    hide Spelled, Wording, Divides;
    NothingSpelled();
    if w == "" {
      SpelledStep(s, []);
      assert Phrase(w) == [];
    } else {
      FieldSpelled(s, w, []);
      assert Phrase(w) + [] == Phrase(w);
    }
  }

  lemma {:induction false} NothingSpelled()
    ensures Spelled([])
  {}

  lemma {:induction false} AroundSpelled(lead: string, s: Segment, trail: string)
    requires !s.Words? && Leads(lead) && Trails(s, trail)
    ensures Spelled(Around(lead, s, trail))
  {
    hide Spelled, Wording, Divides;
    LastSpelled(s, trail);
    PhraseSpelled(lead, [s] + Phrase(trail));
  }

  /** Two fields, with wording that divides between them. */
  lemma {:induction false} PairSpelled(s: Segment, mid: string, t: Segment, trail: string)
    requires !s.Words? && !t.Words? && mid != "" && Trails(s, mid) && Trails(t, trail)
    ensures Spelled([s] + Around(mid, t, trail))
  {
    hide Spelled, Wording, Divides;
    LastSpelled(t, trail);
    FieldSpelled(s, mid, [t] + Phrase(trail));
  }

  lemma {:induction false} ListSpelled(fields: seq<string>, trail: string)
    requires trail == "" || (Wording(trail) && Divides(trail))
    ensures Spelled(Listed(fields, trail))
  {
    hide Spelled, Wording, Divides;
    if fields == [] {
      NothingSpelled();
      PhraseSpelled(trail, []);
      assert Phrase(trail) + [] == Phrase(trail);
    } else if |fields| == 1 {
      LastSpelled(Cleaned(fields[0]), trail);
    } else {
      ListSpelled(fields[1..], trail);
      CommaDivides();
      FieldSpelled(Cleaned(fields[0]), ", ", Listed(fields[1..], trail));
    }
  }

  lemma {:induction false} CommaDivides()
    ensures Wording(", ") && Divides(", ")
  {}

  lemma {:induction false} AskSpelled(field: string)
    ensures Spelled(AskSegments(field))
  {
    hide Spelled, Wording, Divides, Stated;
    NothingSpelled();
    LastSpelled(Question(field), "");
    MarkDivides();
    AroundSpelled("", Question(field), "?");
    assert [Question(field)] + Phrase("") == [Question(field)];
  }

  lemma {:induction false} MarkDivides()
    ensures Wording("?") && Divides("?")
  {}

  lemma {:induction false} FirstWording()
    ensures Wording("vs a baseline of ")
  {}

  lemma {:induction false} FirstDivider0()
    ensures Wording(" is ") && Divides(" is ")
    ensures Wording(" day(s) away") && Divides(" day(s) away")
    ensures Wording(" down ") && Divides(" down ")
    ensures Wording(" up ") && Divides(" up ")
    ensures Wording(" this week") && Divides(" this week")
    ensures Wording(" (") && Divides(" (")
    ensures Wording(")") && Divides(")")
  {}

  lemma {:induction false} FirstDivider1()
    ensures Wording(" active members") && Divides(" active members")
  {}

  lemma {:induction false} VisitWording0()
    ensures Wording("it has been ")
    ensures Wording("your previous focus was ")
    ensures Wording("your ")
  {}

  lemma {:induction false} VisitWording1()
    ensures Wording("available slot: ")
  {}

  lemma {:induction false} VisitDivider0()
    ensures Wording(" visit(s) with you before this") && Divides(" visit(s) with you before this")
  {}

  lemma {:induction false} VisitDivider1()
    ensures Wording(" days since your last visit") && Divides(" days since your last visit")
    ensures Wording(" recall is due") && Divides(" recall is due")
  {}

  lemma {:induction false} SupplyWording()
    ensures Wording("voluntary recall on ")
    ensures Wording("affected batches: ")
    ensures Wording("manufacturer ")
  {}

  lemma {:induction false} SupplyDivider()
    ensures Wording(" chronic-Rx customers on file") && Divides(" chronic-Rx customers on file")
  {}

  lemma {:induction false} DriverWording()
    ensures Wording("likely driver: ")
  {}

  lemma {:induction false} DriverDivider()
    ensures Wording(", past the ") && Divides(", past the ")
    ensures Wording(" milestone") && Divides(" milestone")
    ensures Wording(": ") && Divides(": ")
    ensures Wording(", ") && Divides(", ")
    ensures Wording(" milestone within reach") && Divides(" milestone within reach")
  {}

  lemma {:induction false} PeerWording()
    ensures Wording("peer average for ")
    ensures Wording("peer average is ")
  {}

  lemma {:induction false} PeerDivider()
    ensures Wording(" is ") && Divides(" is ")
    ensures Wording(" reviews") && Divides(" reviews")
    ensures Wording(" opened ") && Divides(" opened ")
    ensures Wording("km away") && Divides("km away")
  {}

  lemma {:induction false} MarketWording()
    ensures Wording("their offer: ")
    ensures Wording("renewal amount ")
  {}

  lemma {:induction false} MarketDivider()
    ensures Wording(" plan renews in ") && Divides(" plan renews in ")
    ensures Wording(" day(s)") && Divides(" day(s)")
  {}

  lemma {:induction false} ReviewWording0()
    ensures Wording("customers have positively mentioned ")
  {}

  lemma {:induction false} ReviewWording1()
    ensures Wording("customers have mentioned ")
    ensures Wording("one review said: \"")
  {}

  lemma {:induction false} ReviewWording2()
    ensures Wording("mentions have been rising")
  {}

  lemma {:induction false} ReviewDivider()
    ensures Wording("\"") && Divides("\"")
  {}

  lemma {:induction false} StudyWording()
    ensures Wording("source: ")
    ensures Wording("suggested action: ")
  {}

  lemma {:induction false} StudyDivider()
    ensures Wording("-patient trial") && Divides("-patient trial")
    ensures Wording("-patient trial (") && Divides("-patient trial (")
    ensures Wording(")") && Divides(")")
  {}

  lemma {:induction false} DigestWording()
    ensures Wording("home delivery address already on file")
  {}

  lemma {:induction false} DigestDivider()
    ensures Wording(" due for refill") && Divides(" due for refill")
  {}

  lemma {:induction false} DateWording(kind: DateKind)
    ensures Wording(DateLead(kind))
  {
    if kind in {LastVisit, RecallDue} { VisitDateWording(); } else { OtherDateWording(kind); }
  }

  lemma {:induction false} VisitDateWording()
    ensures Wording("your last visit was on ") && Wording("your recall is due by ")
  {}

  lemma {:induction false} OtherDateWording(kind: DateKind)
    requires kind !in {LastVisit, RecallDue}
    ensures Wording(DateLead(kind))
  {}

  lemma {:induction false} TimesDivider()
    ensures Wording(" time(s) in the last ") && Divides(" time(s) in the last ")
    ensures Wording(" days") && Divides(" days")
  {}

  lemma {:induction false} GivenSpelled(text: string)
    ensures Spelled([Given(text)])
  {
    LastSpelled(Given(text), "");
    assert [Given(text)] + Phrase("") == [Given(text)];
  }

  lemma {:induction false} BareSpelled(w: string)
    requires Wording(w)
    ensures Spelled(Phrase(w))
  {
    hide Wording, Spelled;
    NothingSpelled();
    PhraseSpelled(w, []);
    assert Phrase(w) + [] == Phrase(w);
  }

  lemma {:induction false} DigestSpelled(fact: Fact)
    ensures Spelled(DigestSegments(fact))
  {
    hide Wording, Divides, Spelled, Listed, AskSegments, Around, Phrase, Spaced, Stated;
    DigestWording();
    DigestDivider();
    match fact
    case Summary(summary) => GivenSpelled(summary);
    case RefillOf(molecules) => ListSpelled(molecules, " due for refill");
    case _ => BareSpelled("home delivery address already on file");
  }

  lemma {:induction false} StudySpelled(fact: Fact)
    ensures Spelled(StudySegments(fact))
  {
    hide Wording, Divides, Spelled, Listed, AskSegments, Around, Phrase, Spaced, Stated, DigestSegments;
    StudyWording();
    StudyDivider();
    match fact
    case Headline(title) => GivenSpelled(title);
    case Trial(patients, segment) =>
      LastSpelled(Counted(patients), "-patient trial");
      PairSpelled(Counted(patients), "-patient trial (", Given(Spaced(segment)), ")");
    case SourceOf(source) => AroundSpelled("source: ", Given(source), "");
    case SuggestedAction(action) => AroundSpelled("suggested action: ", Given(action), "");
    case _ => DigestSpelled(fact);
  }

  lemma {:induction false} ReviewSpelled(fact: Fact)
    ensures Spelled(ReviewSegments(fact))
  {
    hide Wording, Divides, Spelled, Listed, AskSegments, Around, Phrase, Spaced, Stated, StudySegments;
    ReviewWording0();
    ReviewWording1();
    ReviewWording2();
    ReviewDivider();
    match fact
    case ThemeMentioned(theme, positively) =>
      AroundSpelled(if positively then "customers have positively mentioned " else "customers have mentioned ", Cleaned(Spaced(theme)), "");
    case TimesMentioned(count) =>
      TimesDivider();
      PairSpelled(Counted(count), " time(s) in the last ", Counted("30"), " days");
    case ReviewSaid(quote) => AroundSpelled("one review said: \"", Cleaned(quote), "\"");
    case MentionsRising => BareSpelled("mentions have been rising");
    case _ => StudySpelled(fact);
  }

  lemma {:induction false} MarketSpelled(fact: Fact)
    ensures Spelled(MarketSegments(fact))
  {
    hide Wording, Divides, Spelled, Listed, AskSegments, Around, Phrase, Spaced, Stated, ReviewSegments;
    MarketWording();
    MarketDivider();
    match fact
    case TheirOffer(offer) => AroundSpelled("their offer: ", Given(offer), "");
    case PlanRenews(plan, days) => PairSpelled(Cleaned(plan), " plan renews in ", Counted(days), " day(s)");
    case RenewalAmount(amount) => AroundSpelled("renewal amount ", Given("₹" + amount), "");
    case Ask(template) => AskSpelled(Spaced(template));
    case _ => ReviewSpelled(fact);
  }

  lemma {:induction false} PeerSpelled(fact: Fact)
    ensures Spelled(PeerSegments(fact))
  {
    hide Wording, Divides, Spelled, Listed, AskSegments, Around, Phrase, Spaced, Stated, MarketSegments;
    PeerWording();
    PeerDivider();
    match fact
    case PeersOf(scope, average) =>
      PairSpelled(Cleaned(Spaced(scope)), " is ", Counted(average), " reviews");
      PhraseSpelled("peer average for ", [Cleaned(Spaced(scope))] + Around(" is ", Counted(average), " reviews"));
    case Peers(average) => AroundSpelled("peer average is ", Counted(average), " reviews");
    case CompetitorOpened(name, km) => PairSpelled(Cleaned(name), " opened ", Counted(km), "km away");
    case _ => MarketSpelled(fact);
  }

  lemma {:induction false} DriverSpelled(fact: Fact)
    ensures Spelled(DriverSegments(fact))
  {
    hide Wording, Divides, Spelled, Listed, AskSegments, Around, Phrase, Spaced, Stated, PeerSegments;
    DriverWording();
    DriverDivider();
    match fact
    case LikelyDriver(driver) => AroundSpelled("likely driver: ", Cleaned(Spaced(driver)), "");
    case MilestonePast(metric, now, goal) =>
      PairSpelled(Counted(now), ", past the ", Counted(goal), " milestone");
      FieldSpelled(Cleaned(Spaced(metric)), ": ", [Counted(now)] + Around(", past the ", Counted(goal), " milestone"));
    case MilestoneNear(metric, now, goal) =>
      PairSpelled(Counted(now), ", ", Counted(goal), " milestone within reach");
      FieldSpelled(Cleaned(Spaced(metric)), ": ", [Counted(now)] + Around(", ", Counted(goal), " milestone within reach"));
    case _ => PeerSpelled(fact);
  }

  lemma {:induction false} SupplySpelled(fact: Fact)
    ensures Spelled(SupplySegments(fact))
  {
    hide Wording, Divides, Spelled, Listed, AskSegments, Around, Phrase, Spaced, Stated, DriverSegments;
    SupplyWording();
    SupplyDivider();
    match fact
    case RecallOn(molecule) => AroundSpelled("voluntary recall on ", Cleaned(molecule), "");
    case AffectedBatches(batches) =>
      ListSpelled(batches, "");
      PhraseSpelled("affected batches: ", Listed(batches, ""));
    case MadeBy(manufacturer) => AroundSpelled("manufacturer ", Cleaned(manufacturer), "");
    case ChronicCustomers(count) => AroundSpelled("", Counted(count), " chronic-Rx customers on file");
    case _ => DriverSpelled(fact);
  }

  lemma {:induction false} VisitSpelled(fact: Fact)
    ensures Spelled(VisitSegments(fact))
  {
    hide Wording, Divides, Spelled, Listed, AskSegments, Around, Phrase, Spaced, Stated, SupplySegments;
    VisitWording0();
    VisitWording1();
    VisitDivider0();
    VisitDivider1();
    match fact
    case VisitsBefore(count) => AroundSpelled("", Counted(count), " visit(s) with you before this");
    case DaysSinceVisit(days) => AroundSpelled("it has been ", Counted(days), " days since your last visit");
    case PreviousFocus(focus) => AroundSpelled("your previous focus was ", Cleaned(Spaced(focus)), "");
    case RecallOf(service) => AroundSpelled("your ", Cleaned(Spaced(service)), " recall is due");
    case AvailableSlot(slot) => AroundSpelled("available slot: ", Cleaned(slot), "");
    case _ => SupplySpelled(fact);
  }

  lemma {:induction false} FactSpelled(fact: Fact)
    ensures Spelled(Segments(fact))
  {
    hide Wording, Divides, Spelled, Listed, AskSegments, Around, Phrase, Spaced, Stated, DateLead, VisitSegments;
    FirstWording();
    FirstDivider0();
    FirstDivider1();
    match fact
    case FestivalAway(festival, days) => PairSpelled(Cleaned(festival), " is ", Counted(days), " day(s) away");
    case MetricChange(metric, down, percent) =>
      PairSpelled(Cleaned(metric), if down then " down " else " up ", Given(percent + "%"), " this week");
    case DigestTitle(title, source) =>
      GivenSpelled(title);
      PairSpelled(Given(title), " (", Given(source), ")");
      assert [Given(title)] + [] == [Given(title)];
    case ActiveMembers(count) => AroundSpelled("", Counted(count), " active members");
    case OfferTitle(title) => GivenSpelled(title);
    case Dated(kind, date) =>
      DateWording(kind);
      AroundSpelled(DateLead(kind), Given(date), "");
    case Baseline(value) => AroundSpelled("vs a baseline of ", Counted(value), "");
    case _ => VisitSpelled(fact);
  }

  // ---- which facts add a figure --------------------------------------------------------------------

  function FactOf(fact: Fact): string { Spell(Segments(fact)) }

  /** A fact allows exactly the figures of the texts it states as they are: a curated title, summary,
      action, source, segment or offer, a date, and the figure the system computed. A field that one
      pass cleans adds none, wherever it stands. */
  lemma {:induction false} FactAllows(p: Pattern, fact: Fact)
    requires NumberPattern(p) && FieldsClean(Segments(fact))
    ensures FactClaims(p, [FactOf(fact)]) == GivenClaims(p, Segments(fact))
  {
    hide Spelled, Segments, Spell, Claims, FieldsClean;
    FactSpelled(fact);
    SegmentsAllow(p, Segments(fact));
    OneFactClaims(p, FactOf(fact));
  }

  function Texts(facts: seq<Fact>): seq<string> { if facts == [] then [] else [FactOf(facts[0])] + Texts(facts[1..]) }

  function AllGiven(p: Pattern, facts: seq<Fact>): set<string> {
    if facts == [] then {} else GivenClaims(p, Segments(facts[0])) + AllGiven(p, facts[1..])
  }

  /** So the figures a brief allows are those of its curated texts, its dates and its own numbers. */
  lemma {:induction false} FactsAllow(p: Pattern, facts: seq<Fact>)
    requires NumberPattern(p) && forall f | f in facts :: FieldsClean(Segments(f))
    ensures FactClaims(p, Texts(facts)) == AllGiven(p, facts)
  {
    hide FactOf, Segments, Claims, FieldsClean, GivenClaims;
    if facts != [] {
      assert facts[0] in facts;
      forall f | f in facts[1..] ensures f in facts {}
      FactsAllow(p, facts[1..]);
      FactAllows(p, facts[0]);
      OneFactClaims(p, FactOf(facts[0]));
      assert Texts(facts)[0] == FactOf(facts[0]) && Texts(facts)[1..] == Texts(facts[1..]);
    }
  }

  /** One sign a field is sure to be clean. */
  lemma {:induction false} FewSignsClean(segments: seq<Segment>)
    requires forall s | s in segments && (s.Cleaned? || s.Question?) :: Signs(s.field) <= 1
    ensures FieldsClean(segments)
  {
    hide StripNumericClaims, ClaimFree;
    forall s | s in segments && (s.Cleaned? || s.Question?) ensures ClaimFree(StripNumericClaims(s.field)) {
      OnePassSuffices(s.field);
    }
  }

  lemma {:induction false} AroundGiven(p: Pattern, lead: string, text: string)
    ensures GivenClaims(p, Around(lead, Given(text), "")) == Claims(p, text)
    ensures FieldsClean(Around(lead, Given(text), ""))
  {
    hide Claims, ClaimFree, StripNumericClaims;
    var one := [Given(text)];
    assert one[1..] == [];
    assert one + Phrase("") == one;
    if lead == "" {
      assert Around(lead, Given(text), "") == one;
    } else {
      assert Around(lead, Given(text), "") == [Words(lead)] + one;
      assert ([Words(lead)] + one)[1..] == one;
      assert GivenClaims(p, one) == Claims(p, text);
    }
  }

  /** No date is stripped: whatever figure a trigger writes into one becomes allowed. */
  lemma {:induction false} DatesAddFigures(p: Pattern, kind: DateKind, date: string)
    requires NumberPattern(p)
    ensures FactClaims(p, [FactOf(Dated(kind, date))]) == Claims(p, date)
  {
    hide FactOf, Around, Claims, GivenClaims, FieldsClean, DateLead, VisitSegments;
    AroundGiven(p, DateLead(kind), date);
    FactAllows(p, Dated(kind, date));
  }

  /** For instance a due date "99% off". */
  lemma {:induction false} DateWithFigure(date: string)
    requires date == "99% off"
    ensures FactClaims(Percent, [FactOf(Dated(RecallDue, date))]) == {"99"}
  {
    hide FactOf, Claims;
    DatesAddFigures(Percent, RecallDue, date);
    assert date == "99" + ("%" + " off");
    FigureFound("99", " off");
  }
}
