/** The output firewall: which messages may leave the system. */
module Firewall {
  import opened Text
  import opened Scan
  import opened Brief
  import opened ReplyClauses

  const LENGTH_TOLERANCE := 30

  const ACTION_PHRASES := [
    "reply", "say", "respond", "let us know", "let me know",
    "batayein", "bataiye", "bolo", "bataen", "batao",
    "bata do", "bata dein", "bata dijiye"
  ]

  function OptionWords(cta: Cta): Option<seq<string>> {
    match cta
    case BinaryYesNo => Some(["yes", "no", "haan", "nahi", "nahin"])
    case BinaryConfirmCancel => Some(["confirm", "cancel"])
    case _ => None
  }

  predicate HasAction(lowered: string) { exists p | p in ACTION_PHRASES :: Contains(lowered, p) }

  predicate HasOption(lowered: string, words: seq<string>) { exists w | w in words :: ContainsWord(lowered, w) }

  predicate HasExplicitCta(message: string, cta: Cta) {
    var lowered := Lower(message);
    if cta.MultiChoiceSlot? then HasAction(lowered)
    else
      match OptionWords(cta)
      case None => true
      case Some(words) => HasOption(lowered, words) && HasAction(lowered)
  }

  /** The figures `p` captures in a text. */
  function Claims(p: Pattern, text: string): set<string> { set m | m in FindAll(p, false, text) :: m.word }

  /** The figures of a list of facts (`_fact_numbers`). */
  function FactClaims(p: Pattern, facts: seq<string>): set<string> {
    if facts == [] then {} else Claims(p, facts[0]) + FactClaims(p, facts[1..])
  }

  datatype Violation =
    | EmptyMessage
    | TooLong
    | ContainsUrl
    | ContainsPlaceholder
    | UnsupportedPercentages(figures: set<string>)
    | UnsupportedPrices(figures: set<string>)
    | Taboo(topic: string)
    | ReplyWhenNone
    | CompetingCtas(tokens: set<string>)
    | MissingCta

  function When(condition: bool, v: Violation): seq<Violation> { if condition then [v] else [] }

  function Taboos(lowered: string, topics: seq<string>): seq<Violation> {
    if topics == [] then []
    else When(Contains(lowered, Lower(topics[0])), Taboo(topics[0])) + Taboos(lowered, topics[1..])
  }

  /** Length, URLs, unresolved placeholders. */
  function FormViolations(message: string, brief: Brief): seq<Violation> {
    When(|message| > brief.maxChars + LENGTH_TOLERANCE, TooLong)
    + When(Has(Url, false, message), ContainsUrl)
    + When(Has(Placeholder, false, message), ContainsPlaceholder)
  }

  function Unsupported(p: Pattern, message: string, brief: Brief): set<string> {
    Claims(p, message) - FactClaims(p, brief.facts)
  }

  /** Percentages and prices that no fact states. */
  function ClaimViolations(message: string, brief: Brief): seq<Violation> {
    var percentages := Unsupported(Percent, message, brief);
    var prices := Unsupported(Currency, message, brief);
    When(percentages != {}, UnsupportedPercentages(percentages)) + When(prices != {}, UnsupportedPrices(prices))
  }

  /** Competing, unwanted or missing calls to action. */
  function CtaViolations(message: string, cta: Cta): seq<Violation> {
    var tokens := ReplyTokens(message);
    (if cta.NoCta? && tokens != {} then [ReplyWhenNone] else When(|tokens| > 2, CompetingCtas(tokens)))
    + When(!HasExplicitCta(message, cta), MissingCta)
  }

  /** Every reason to reject `message`, in the order the source reports them. */
  function Violations(message: string, brief: Brief): seq<Violation> {
    if Blank(message) then [EmptyMessage]
    else
      FormViolations(message, brief) + ClaimViolations(message, brief)
      + Taboos(Lower(message), brief.forbiddenTopics) + CtaViolations(message, brief.cta)
  }

  predicate Passes(message: string, brief: Brief) { Violations(message, brief) == [] }

  /** The loop of `_fact_numbers`. */
  method FactNumbers(facts: seq<string>, p: Pattern) returns (numbers: set<string>)
    ensures numbers == FactClaims(p, facts)
  {
    numbers := {};
    for i := 0 to |facts|
      invariant numbers + FactClaims(p, facts[i..]) == FactClaims(p, facts)
    {
      assert facts[i..][0] == facts[i] && facts[i..][1..] == facts[i + 1..];
      numbers := numbers + Claims(p, facts[i]);
    }
  }

  /** `validate`: the reasons are exactly the violations, in order. */
  method Validate(message: string, brief: Brief) returns (ok: bool, reasons: seq<Violation>)
    ensures reasons == Violations(message, brief)
    ensures ok <==> reasons == []
  {
    reasons := [];
    if Blank(message) {
      reasons := reasons + [EmptyMessage];
      return false, reasons;
    }
    reasons := AppendForm(message, brief);
    reasons := AppendClaims(reasons, message, brief);
    reasons := AppendTaboos(reasons, Lower(message), brief.forbiddenTopics);
    reasons := AppendCta(reasons, message, brief.cta);
    ok := |reasons| == 0;
  }

  method AppendForm(message: string, brief: Brief) returns (reasons: seq<Violation>)
    ensures reasons == FormViolations(message, brief)
  {
    reasons := [];
    if |message| > brief.maxChars + LENGTH_TOLERANCE { reasons := reasons + [TooLong]; }
    if Has(Url, false, message) { reasons := reasons + [ContainsUrl]; }
    if Has(Placeholder, false, message) { reasons := reasons + [ContainsPlaceholder]; }
  }

  method AppendClaims(before: seq<Violation>, message: string, brief: Brief) returns (reasons: seq<Violation>)
    ensures reasons == before + ClaimViolations(message, brief)
  {
    reasons := before;
    var allowedPercentages := FactNumbers(brief.facts, Percent);
    var percentages := Claims(Percent, message) - allowedPercentages;
    if percentages != {} { reasons := reasons + [UnsupportedPercentages(percentages)]; }
    var allowedPrices := FactNumbers(brief.facts, Currency);
    var prices := Claims(Currency, message) - allowedPrices;
    if prices != {} { reasons := reasons + [UnsupportedPrices(prices)]; }
  }

  method AppendCta(before: seq<Violation>, message: string, cta: Cta) returns (reasons: seq<Violation>)
    ensures reasons == before + CtaViolations(message, cta)
  {
    reasons := before;
    var tokens := CollectReplyTokens(message);
    if cta.NoCta? && tokens != {} {
      reasons := reasons + [ReplyWhenNone];
    } else if |tokens| > 2 {
      reasons := reasons + [CompetingCtas(tokens)];
    }
    if !HasExplicitCta(message, cta) { reasons := reasons + [MissingCta]; }
  }

  method AppendTaboos(before: seq<Violation>, lowered: string, topics: seq<string>) returns (reasons: seq<Violation>)
    ensures reasons == before + Taboos(lowered, topics)
  {
    reasons := before;
    for i := 0 to |topics|
      invariant reasons + Taboos(lowered, topics[i..]) == before + Taboos(lowered, topics)
    {
      assert topics[i..][0] == topics[i] && topics[i..][1..] == topics[i + 1..];
      if Contains(lowered, Lower(topics[i])) { reasons := reasons + [Taboo(topics[i])]; }
    }
  }

  lemma {:induction false} TaboosIff(lowered: string, topics: seq<string>)
    ensures Taboos(lowered, topics) == [] <==> forall t | t in topics :: !Contains(lowered, Lower(t))
  {
    if topics != [] {
      TaboosIff(lowered, topics[1..]);
      forall t | t in topics[1..] ensures t in topics {}
      assert topics[0] in topics;
    }
  }

  predicate Grounded(message: string, facts: seq<string>) {
    Claims(Percent, message) <= FactClaims(Percent, facts) && Claims(Currency, message) <= FactClaims(Currency, facts)
  }

  lemma {:induction false} FormIff(message: string, brief: Brief)
    ensures FormViolations(message, brief) == [] <==>
      |message| <= brief.maxChars + LENGTH_TOLERANCE && !Has(Url, false, message) && !Has(Placeholder, false, message)
  {}

  lemma {:induction false} UnsupportedIff(p: Pattern, message: string, brief: Brief)
    ensures Unsupported(p, message, brief) == {} <==> Claims(p, message) <= FactClaims(p, brief.facts)
  {
    var claimed, allowed := Claims(p, message), FactClaims(p, brief.facts);
    if claimed - allowed == {} {
      forall c | c in claimed ensures c in allowed { assert c !in claimed - allowed; }
    }
  }

  lemma {:induction false} ClaimsIff(message: string, brief: Brief)
    ensures ClaimViolations(message, brief) == [] <==> Grounded(message, brief.facts)
  {
    UnsupportedIff(Percent, message, brief);
    UnsupportedIff(Currency, message, brief);
    assert ClaimViolations(message, brief) == [] <==>
      Unsupported(Percent, message, brief) == {} && Unsupported(Currency, message, brief) == {};
  }

  lemma {:induction false} CtaIff(message: string, cta: Cta)
    ensures CtaViolations(message, cta) == [] <==>
      |ReplyTokens(message)| <= 2 && (cta.NoCta? ==> ReplyTokens(message) == {}) && HasExplicitCta(message, cta)
  {}

  /** What passing the firewall means. */
  lemma {:induction false} PassesIff(message: string, brief: Brief)
    ensures Passes(message, brief) <==>
      && !Blank(message)
      && |message| <= brief.maxChars + LENGTH_TOLERANCE
      && !Has(Url, false, message) && !Has(Placeholder, false, message)
      && Grounded(message, brief.facts)
      && (forall t | t in brief.forbiddenTopics :: !Contains(Lower(message), Lower(t)))
      && |ReplyTokens(message)| <= 2 && (brief.cta.NoCta? ==> ReplyTokens(message) == {})
      && HasExplicitCta(message, brief.cta)
  {
    FormIff(message, brief);
    ClaimsIff(message, brief);
    CtaIff(message, brief.cta);
    TaboosIff(Lower(message), brief.forbiddenTopics);
  }

  /** An offer of more than two different answers never passes. */
  lemma {:induction false} OffersOfThreeRejected(words: seq<string>, brief: Brief)
    requires words != [] && forall w | w in words :: IsToken(w)
    requires |Uppers(words)| > 2
    ensures !Passes(Offer(words), brief)
    ensures CompetingCtas(Uppers(words)) in Violations(Offer(words), brief) || (brief.cta.NoCta? && ReplyWhenNone in Violations(Offer(words), brief))
  {
    OfferRoundTrip(words);
    BlankIff(Offer(words));
    assert Offer(words)[0] == 'R';
  }
}
