/** The deterministic composer: the safety fallback and the default. */
module Composer {
  import opened Text
  import opened Scan
  import opened Brief

  function CtaText(cta: Cta, hindi: bool): string {
    match cta
    case OpenEnded => if hindi then "Bata dijiye agar aur jaankari chahiye." else "Want me to share more?"
    case BinaryYesNo => if hindi then "Haan ya nahi, bata dijiye." else "Reply YES if you'd like this."
    case BinaryConfirmCancel => "Reply CONFIRM to proceed."
    case MultiChoiceSlot => if hindi then "Apna preferred option bata dijiye." else "Reply with your preferred option."
    case NoCta => ""
  }

  /** The customer's preference when there is one, otherwise the merchant's languages. */
  predicate PrefersHindi(brief: Brief) {
    if Truthy(brief.customerLanguagePref) then Contains(Lower(brief.customerLanguagePref.value), "hi")
    else exists l | l in brief.languages :: Contains(Lower(l), "hi")
  }

  predicate Truthy(s: Option<string>) { s.Some? && s.value != "" }

  function CtaFallbackText(brief: Brief): string { CtaText(brief.cta, PrefersHindi(brief)) }

  function JoinFactsNaturally(facts: seq<string>): string {
    if |facts| == 0 then "" else if |facts| == 1 then facts[0]
    else Join("; ", facts[..|facts| - 1]) + "; and " + facts[|facts| - 1]
  }

  /** URLs, protected-field assignments and the injection phrase are cut out, in that order. */
  function SanitizeFact(fact: string): (r: string)
    ensures |r| <= |fact|
  {
    Trim(Collapse(Sub(Injection, false, Sub(FieldAssignment, false, Sub(Url, false, fact)))))
  }

  /** The non-empty sanitized facts. */
  function SanitizeFacts(facts: seq<string>): seq<string> {
    if facts == [] then []
    else
      var f := SanitizeFact(facts[0]);
      (if f != "" then [f] else []) + SanitizeFacts(facts[1..])
  }

  function CategoryOpener(slug: string): string {
    if slug == "dentists" then "worth a look —"
    else if slug == "gyms" || slug == "pharmacies" then "quick check —"
    else if slug == "restaurants" || slug == "salons" then "quick one —"
    else ""
  }

  function Subject(brief: Brief): string {
    if Truthy(brief.customerName) then brief.customerName.value
    else if Truthy(brief.ownerFirstName) then brief.ownerFirstName.value
    else brief.merchantName
  }

  function FactText(brief: Brief): string {
    var joined := JoinFactsNaturally(SanitizeFacts(brief.facts));
    if joined != "" then joined else brief.merchantName
  }

  function Prefix(intent: Option<Intent>): string {
    match intent
    case None => ""
    case Some(AcceptAndAdvance) => "Great, moving ahead. "
    case Some(RedirectToOriginalAsk) => "Noted. Coming back to this: "
  }

  function MerchantIntro(brief: Brief): string {
    if Truthy(brief.customerName) && brief.isFirstMessage then "this is " + brief.merchantName + ". " else ""
  }

  function Opener(brief: Brief): string {
    if brief.isFirstMessage && CategoryOpener(brief.categorySlug) != "" then CategoryOpener(brief.categorySlug) + " " else ""
  }

  /** No second full stop behind a question or an exclamation. */
  function Terminal(factText: string): string {
    if factText != "" && factText[|factText| - 1] in {'?', '!'} then "" else "."
  }

  /** The message before it is cut to the brief's length. */
  function FullText(brief: Brief): string {
    var cta := CtaFallbackText(brief);
    Prefix(brief.replyIntent) + Subject(brief) + ", " + MerchantIntro(brief) + Opener(brief)
    + FactText(brief) + Terminal(FactText(brief)) + (if cta != "" then " " + cta else "")
  }

  function Compose(brief: Brief): string {
    var text := FullText(brief);
    if |text| <= brief.maxChars then text else text[..brief.maxChars]
  }
}
