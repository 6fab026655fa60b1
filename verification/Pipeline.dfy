/** Composer call, firewall, at most one correction, at most one fallback. */
module Pipeline {
  import opened Text
  import opened Scan
  import opened Cuts
  import opened Brief
  import opened ReplyClauses
  import opened Firewall
  import opened Composer

  /** What the composer call ended in. A call that times out or raises yields no message. */
  datatype Outcome = Message(text: string) | Failed | TimedOut

  datatype FallbackReason = NotUsed | ProviderError | CallerTimeout | Rejected(reasons: seq<Violation>)

  datatype ComposeResult = ComposeResult(message: string, usedFallback: bool, reason: FallbackReason, ctaCorrected: bool)

  /** Append the CTA phrase, if the explicit CTA is missing and that alone makes the message pass. */
  function CorrectWith(message: string, cta: string, brief: Brief): Option<string> {
    if HasExplicitCta(message, brief.cta) || cta == "" then None
    else
      var corrected := Strip(message + " " + cta);
      if Passes(corrected, brief) then Some(corrected) else None
  }

  /** The one bounded correction, with the decision-owned phrase. */
  function TryCtaCorrection(message: string, brief: Brief): Option<string> {
    CorrectWith(message, CtaFallbackText(brief), brief)
  }

  function Fallback(brief: Brief, reason: FallbackReason): ComposeResult {
    var message := Compose(brief);
    ComposeResult(if Passes(message, brief) then message else "", true, reason, false)
  }

  function ComposeAndValidate(brief: Brief, outcome: Outcome): ComposeResult {
    match outcome
    case TimedOut => Fallback(brief, CallerTimeout)
    case Failed => Fallback(brief, ProviderError)
    case Message(text) =>
      if Passes(text, brief) then ComposeResult(text, false, NotUsed, false)
      else
        match TryCtaCorrection(text, brief)
        case Some(corrected) => ComposeResult(corrected, false, NotUsed, true)
        case None => Fallback(brief, Rejected(Violations(text, brief)))
  }

  lemma {:induction false} CorrectionPasses(message: string, brief: Brief)
    ensures TryCtaCorrection(message, brief).Some? ==> Passes(TryCtaCorrection(message, brief).value, brief)
  {}

  lemma {:induction false} FallbackPasses(brief: Brief, reason: FallbackReason)
    ensures var m := Fallback(brief, reason).message; m == "" || Passes(m, brief)
  {}

  lemma {:induction false} ResultPasses(brief: Brief, outcome: Outcome)
    ensures var m := ComposeAndValidate(brief, outcome).message; m == "" || Passes(m, brief)
  {
    match outcome
    case TimedOut => FallbackPasses(brief, CallerTimeout);
    case Failed => FallbackPasses(brief, ProviderError);
    case Message(text) =>
      CorrectionPasses(text, brief);
      FallbackPasses(brief, Rejected(Violations(text, brief)));
  }

  /** Whatever the composer did, a message that is not blank has passed the firewall against its
      own brief: all its percentages and prices are figures of the brief's facts. */
  lemma {:induction false} Grounding(brief: Brief, outcome: Outcome)
    ensures var m := ComposeAndValidate(brief, outcome).message;
      if Blank(m) then m == "" else Passes(m, brief) && Grounded(m, brief.facts) && !Has(Url, false, m)
  {
    ResultPasses(brief, outcome);
    PassesIff(ComposeAndValidate(brief, outcome).message, brief);
  }

  /** Nothing is sent exactly when neither the composer's text, nor its correction, nor the
      template passes. */
  lemma {:induction false} SilentIff(brief: Brief, outcome: Outcome)
    ensures ComposeAndValidate(brief, outcome).message == "" <==>
      && (outcome.Message? ==> !Passes(outcome.text, brief) && TryCtaCorrection(outcome.text, brief) == None)
      && !Passes(Compose(brief), brief)
  {
    assert Blank("");
  }

  // ---- the correction masks no other violation ---------------------------------------------

  lemma {:induction false} CtaTextShape(cta: Cta, hindi: bool)
    ensures var t := CtaText(cta, hindi); t != "" ==> IsLetter(t[0]) && !IsSpace(t[|t| - 1])
  {}

  lemma {:induction false} RStripNothing(s: string)
    requires s != "" && !IsSpace(s[|s| - 1])
    ensures RStrip(s) == s
  {}

  lemma {:induction false} VisibleCharacter(message: string) returns (i: nat)
    requires !Blank(message)
    ensures i < |message| && !IsSpace(message[i])
  {
    BlankIff(message);
    i :| 0 <= i < |message| && !IsSpace(message[i]);
  }

  lemma {:induction false} StripAppended(l: string, cta: string)
    requires cta != "" && !IsSpace(cta[|cta| - 1])
    ensures RStrip(l + (" " + cta)) == l + (" " + cta)
  {
    RStripNothing(l + (" " + cta));
  }

  /** Stripping the corrected message only removes the message's leading white space. */
  lemma {:induction false} CorrectedShape(message: string, cta: string)
    requires !Blank(message) && cta != "" && !IsSpace(cta[|cta| - 1])
    ensures Strip(message + " " + cta) == LStrip(message) + (" " + cta)
  {
    var i := VisibleCharacter(message);
    LStripConcat(message, " " + cta, i);
    StripAppended(LStrip(message), cta);
    assert message + " " + cta == message + (" " + cta);
  }

  lemma {:induction false} LStripConcat(a: string, b: string, i: nat)
    requires i < |a| && !IsSpace(a[i])
    ensures LStrip(a + b) == LStrip(a) + b
  {
    if IsSpace(a[0]) {
      assert (a + b)[1..] == a[1..] + b;
      LStripConcat(a[1..], b, i - 1);
    }
  }

  /** White space in front of a text holds no URL and no placeholder. */
  lemma {:induction false} HasSkip(p: Pattern, afterWord: bool, s: string, n: nat)
    requires p.Url? || p.Placeholder?
    requires n <= |s| && forall i | 0 <= i < n :: IsSpace(s[i])
    ensures Has(p, afterWord, s) <==> Has(p, if n == 0 then afterWord else false, s[n..])
  {
    hide MatchAt;
    if n == 0 {
      assert s[0..] == s;
    } else {
      SpaceHasNone(p, afterWord, s);
      HasSkip(p, false, s[1..], n - 1);
      assert s[1..][n - 1..] == s[n..];
    }
  }

  lemma {:induction false} SpaceHasNone(p: Pattern, afterWord: bool, s: string)
    requires p.Url? || p.Placeholder?
    requires s != "" && IsSpace(s[0])
    ensures MatchAt(p, afterWord, s) == None
  {
    assert Run(Label, s) == 0;
  }

  /** The checks do not see white space in front of a message. */
  lemma {:induction false} LeadingSpaceUnseen(message: string)
    ensures var l := LStrip(message);
      && (Has(Url, false, message) <==> Has(Url, false, l))
      && (Has(Placeholder, false, message) <==> Has(Placeholder, false, l))
      && Claims(Percent, message) == Claims(Percent, l)
      && Claims(Currency, message) == Claims(Currency, l)
      && ReplyTokens(message) == ReplyTokens(l)
  {
    hide Has, FindAll, MatchAt;
    var n := |message| - |LStrip(message)|;
    HasSkip(Url, false, message, n);
    HasSkip(Placeholder, false, message, n);
    FindAllSkip(Percent, false, message, n);
    FindAllSkip(Currency, false, message, n);
    FindAllSkip(ReplyClause, false, message, n);
  }

  /** A URL, a placeholder, a figure or a reply token of a text is still there when a phrase is appended. */
  lemma {:induction false} PhraseKeeps(text: string, phrase: string)
    requires SpaceLed(phrase)
    ensures Has(Url, false, text) ==> Has(Url, false, text + phrase)
    ensures Has(Placeholder, false, text) ==> Has(Placeholder, false, text + phrase)
    ensures Claims(Percent, text) <= Claims(Percent, text + phrase)
    ensures Claims(Currency, text) <= Claims(Currency, text + phrase)
    ensures ReplyTokens(text) <= ReplyTokens(text + phrase)
  {
    HasSplit(Url, false, text, phrase);
    HasSplit(Placeholder, false, text, phrase);
    FindAllSplit(Percent, false, text, phrase);
    FindAllSplit(Currency, false, text, phrase);
    TokensGrow(false, text, phrase);
  }

  lemma {:induction false} SubsetSize<T>(a: set<T>, b: set<T>)
    requires a <= b
    ensures |a| <= |b|
  {
    assert |b| == |a| + |b - a| by { assert b == a + (b - a); }
  }

  lemma {:induction false} TabooKept(text: string, phrase: string, topic: string)
    requires Contains(Lower(text), Lower(topic))
    ensures Contains(Lower(text + phrase), Lower(topic))
  {
    LowerConcat(text, phrase);
    ContainsWithin("", Lower(text), Lower(phrase), Lower(topic));
    assert "" + Lower(text) == Lower(text);
  }

  /** When a text and an appended phrase pass together, the text alone can only lack its CTA. */
  lemma {:induction false} OnlyCtaMissing(text: string, phrase: string, brief: Brief)
    requires SpaceLed(phrase) && Passes(text + phrase, brief)
    ensures |text| < |text + phrase| <= brief.maxChars + LENGTH_TOLERANCE
    ensures !Has(Url, false, text) && !Has(Placeholder, false, text) && Grounded(text, brief.facts)
    ensures forall t | t in brief.forbiddenTopics :: !Contains(Lower(text), Lower(t))
    ensures |ReplyTokens(text)| <= 2 && (brief.cta.NoCta? ==> ReplyTokens(text) == {})
  {
    PassesIff(text + phrase, brief);
    PhraseKeeps(text, phrase);
    SubsetSize(ReplyTokens(text), ReplyTokens(text + phrase));
    forall t | t in brief.forbiddenTopics ensures !Contains(Lower(text), Lower(t)) {
      if Contains(Lower(text), Lower(t)) { TabooKept(text, phrase, t); }
    }
  }

  /** Nothing is wrong with the message but, perhaps, its length, a taboo phrase and the CTA. */
  predicate SoundBody(message: string, brief: Brief) {
    && !Blank(message) && !Has(Url, false, message) && !Has(Placeholder, false, message) && Grounded(message, brief.facts)
    && |ReplyTokens(message)| <= 2 && (brief.cta.NoCta? ==> ReplyTokens(message) == {})
    && !HasExplicitCta(message, brief.cta)
  }

  lemma {:induction false} SoundForm(message: string, brief: Brief)
    requires SoundBody(message, brief)
    ensures FormViolations(message, brief) == When(|message| > brief.maxChars + LENGTH_TOLERANCE, TooLong)
  {}

  lemma {:induction false} SoundCta(message: string, brief: Brief)
    requires SoundBody(message, brief)
    ensures CtaViolations(message, brief.cta) == [MissingCta]
  {}

  lemma {:induction false} SoundViolations(message: string, brief: Brief)
    requires SoundBody(message, brief)
    ensures Violations(message, brief)
      == When(|message| > brief.maxChars + LENGTH_TOLERANCE, TooLong) + Taboos(Lower(message), brief.forbiddenTopics) + [MissingCta]
  {
    SoundForm(message, brief);
    ClaimsIff(message, brief);
    SoundCta(message, brief);
    EmptyMiddle(FormViolations(message, brief), Taboos(Lower(message), brief.forbiddenTopics), [MissingCta]);
  }

  lemma {:induction false} EmptyMiddle<T>(x: seq<T>, y: seq<T>, z: seq<T>)
    ensures x + [] + y + z == x + y + z
  {
    assert x + [] == x;
  }

  predicate IsPhrase(cta: string) { cta != "" && IsLetter(cta[0]) && !IsSpace(cta[|cta| - 1]) }

  lemma {:induction false} CorrectedIs(message: string, cta: string, brief: Brief)
    requires !Blank(message) && IsPhrase(cta) && CorrectWith(message, cta, brief).Some?
    ensures CorrectWith(message, cta, brief).value == LStrip(message) + (" " + cta)
    ensures Passes(LStrip(message) + (" " + cta), brief)
  {
    CorrectedShape(message, cta);
  }

  /** A message that was corrected had a sound body, and no taboo phrase behind its leading white space. */
  lemma {:induction false} CorrectedBody(message: string, cta: string, brief: Brief)
    requires !Blank(message) && IsPhrase(cta) && CorrectWith(message, cta, brief).Some?
    ensures SoundBody(message, brief)
    ensures forall t | t in brief.forbiddenTopics :: !Contains(Lower(LStrip(message)), Lower(t))
    ensures LStrip(message) == message ==> |message| <= brief.maxChars + LENGTH_TOLERANCE
  {
    CorrectedIs(message, cta, brief);
    OnlyCtaMissing(LStrip(message), " " + cta, brief);
    LeadingSpaceUnseen(message);
  }

  /** Every taboo phrase of the message occurs outside its leading white space. */
  predicate TaboosVisible(message: string, brief: Brief) {
    forall t | t in brief.forbiddenTopics ::
      Contains(Lower(message), Lower(t)) ==> Contains(Lower(LStrip(message)), Lower(t))
  }

  lemma {:induction false} MasksNothingWith(message: string, cta: string, brief: Brief)
    requires IsPhrase(cta) && CorrectWith(message, cta, brief).Some?
    ensures Violations(message, brief) == [MissingCta] <==>
      !Blank(message) && |message| <= brief.maxChars + LENGTH_TOLERANCE && TaboosVisible(message, brief)
  {
    if Blank(message) {
      assert Violations(message, brief) == [EmptyMessage];
    } else {
      CorrectedBody(message, cta, brief);
      SoundViolations(message, brief);
      TaboosIff(Lower(message), brief.forbiddenTopics);
      SingletonSum(When(|message| > brief.maxChars + LENGTH_TOLERANCE, TooLong), Taboos(Lower(message), brief.forbiddenTopics), MissingCta);
    }
  }

  lemma {:induction false} CtaIsPhrase(brief: Brief)
    ensures CtaFallbackText(brief) != "" ==> IsPhrase(CtaFallbackText(brief))
  {
    CtaTextShape(brief.cta, PrefersHindi(brief));
  }

  /** A corrected message had no other violation than the missing CTA exactly when the message was
      not blank, was within the length limit before its leading white space was cut, and no taboo
      phrase used that white space. */
  lemma {:induction false} CorrectionMasksNothing(message: string, brief: Brief)
    requires TryCtaCorrection(message, brief).Some?
    ensures Violations(message, brief) == [MissingCta] <==>
      && !Blank(message)
      && |message| <= brief.maxChars + LENGTH_TOLERANCE
      && TaboosVisible(message, brief)
  {
    CtaIsPhrase(brief);
    MasksNothingWith(message, CtaFallbackText(brief), brief);
  }

  lemma {:induction false} SingletonSum(x: seq<Violation>, y: seq<Violation>, v: Violation)
    ensures x + y + [v] == [v] <==> x == [] && y == []
  {
    assert |x + y + [v]| == |x| + |y| + 1;
  }

  /** In particular, for a message that starts with a visible character, the correction is only
      ever made when the missing CTA was the sole violation, and it only appends. */
  lemma {:induction false} CorrectionIsNarrow(message: string, brief: Brief)
    requires message != "" && !IsSpace(message[0])
    requires TryCtaCorrection(message, brief).Some?
    ensures Violations(message, brief) == [MissingCta]
    ensures TryCtaCorrection(message, brief).value == message + (" " + CtaFallbackText(brief))
  {
    BlankIff(message);
    assert LStrip(message) == message;
    CtaIsPhrase(brief);
    CorrectedIs(message, CtaFallbackText(brief), brief);
    CorrectedBody(message, CtaFallbackText(brief), brief);
    MasksNothingWith(message, CtaFallbackText(brief), brief);
  }
}
