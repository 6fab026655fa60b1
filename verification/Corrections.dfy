/** Messages the CTA correction lets through although more was wrong with them. */
module Corrections {
  import opened Text
  import opened Scan
  import opened Brief
  import opened ReplyClauses
  import opened Firewall
  import opened Composer
  import opened Pipeline
  import opened Readings
  import opened FallbackProofs

  predicate AllSpace(s: string) { forall c | c in s :: IsSpace(c) }

  lemma {:induction false} StripLead(lead: string, b: string)
    requires AllSpace(lead) && b != "" && !IsSpace(b[0])
    ensures LStrip(lead + b) == b
  {
    if lead == "" {
      assert lead + b == b;
    } else {
      assert lead[0] in lead;
      assert (lead + b)[1..] == lead[1..] + b;
      forall c | c in lead[1..] ensures c in lead {}
      StripLead(lead[1..], b);
    }
  }

  lemma {:induction false} StripSpaced(lead: string, text: string, cta: string)
    requires AllSpace(lead) && text != "" && !IsSpace(text[0]) && cta != "" && !IsSpace(cta[|cta| - 1])
    ensures Strip(lead + text + " " + cta) == text + (" " + cta)
  {
    assert lead + text + " " + cta == lead + (text + (" " + cta));
    StripLead(lead, text + (" " + cta));
    StripAppended(text, cta);
  }

  lemma {:induction false} StripBlank(lead: string, cta: string)
    requires AllSpace(lead) && cta != "" && !IsSpace(cta[0]) && !IsSpace(cta[|cta| - 1])
    ensures Strip(lead + " " + cta) == cta
  {
    forall c | c in lead + " " ensures IsSpace(c) {}
    StripLead(lead + " ", cta);
    RStripNothing(cta);
  }

  lemma {:induction false} BlankIsSpace(message: string)
    requires Blank(message)
    ensures AllSpace(message)
  {
    BlankIff(message);
  }

  /** White space asks for nothing. */
  lemma {:induction false} SpaceAsksNothing(message: string, cta: Cta)
    requires AllSpace(message) && Asks(cta)
    ensures !HasExplicitCta(message, cta)
  {
    hide HasOption, HasAction;
    if HasAction(Lower(message)) { SpaceHasNoAction(message); }
  }

  lemma {:induction false} ActionOccursIn(lowered: string)
    requires HasAction(lowered)
    ensures exists c :: c in lowered && 'a' <= c <= 'z'
  {
    var p :| p in ACTION_PHRASES && Contains(lowered, p);
    var i :| 0 <= i <= |lowered| - |p| && OccursAt(lowered, p, i);
    assert 'a' <= p[0] <= 'z';
    assert lowered[i..i + |p|][0] == lowered[i];
    assert lowered[i] in lowered;
  }

  lemma {:induction false} SpaceHasNoAction(message: string)
    requires AllSpace(message)
    ensures !HasAction(Lower(message))
  {
    hide HasAction;
    var lowered := Lower(message);
    forall c | c in lowered ensures !('a' <= c <= 'z') {
      var i :| 0 <= i < |lowered| && lowered[i] == c;
      assert message[i] in message;
    }
    if HasAction(lowered) { ActionOccursIn(lowered); }
  }

  /** A fixed phrase alone, or behind plain wording, passes if it fits and holds no taboo phrase. */
  lemma {:induction false} PhrasePasses(lead: string, brief: Brief)
    requires Plain(lead) && Asks(brief.cta)
    requires var m := lead + CtaFallbackText(brief);
      && |m| <= brief.maxChars + LENGTH_TOLERANCE && HasExplicitCta(m, brief.cta)
      && forall t | t in brief.forbiddenTopics :: !Contains(Lower(m), Lower(t))
    ensures Passes(lead + CtaFallbackText(brief), brief)
  {
    hide Passes, Has, ReplyTokens, HasExplicitCta, Claims, FactClaims, Plain, CtaText, PrefersHindi, Blank;
    var cta := CtaFallbackText(brief);
    GluePlain(lead, cta);
    CtaReads(brief.cta, PrefersHindi(brief));
    OneTokenAtMost(brief.cta, PrefersHindi(brief));
    AskingPhrase(brief);
    EndsVisibly(lead, cta);
    PassesIff(lead + cta, brief);
  }

  lemma {:induction false} OneTokenAtMost(cta: Cta, hindi: bool)
    ensures |CtaTokens(cta, hindi)| <= 1
  {}

  lemma {:induction false} AskingPhrase(brief: Brief)
    requires Asks(brief.cta)
    ensures var cta := CtaFallbackText(brief); cta != "" && IsLetter(cta[0]) && !IsSpace(cta[0]) && !IsSpace(cta[|cta| - 1])
  {
    CtaTextShape(brief.cta, PrefersHindi(brief));
  }

  lemma {:induction false} EndsVisibly(a: string, b: string)
    requires b != "" && !IsSpace(b[|b| - 1])
    ensures !Blank(a + b)
  {
    BlankIff(a + b);
    assert (a + b)[|a + b| - 1] == b[|b| - 1];
  }

  lemma {:induction false} EmptyPlain()
    ensures Plain("")
  {}

  lemma {:induction false} OccursAlone(phrase: string, action: string, i: nat)
    requires action in ACTION_PHRASES && OccursAt(Lower(phrase), action, i)
    ensures HasAction(Lower(phrase))
  {}

  lemma {:induction false} WordAlone(phrase: string, option: string, j: nat)
    requires WordAt(phrase, option, j)
    ensures ContainsWord(Lower(phrase), option)
  {}

  lemma {:induction false} BinaryAlone(phrase: string, cta: Cta, action: string, i: nat, option: string, j: nat)
    requires OptionWords(cta).Some? && option in OptionWords(cta).value && action in ACTION_PHRASES
    requires OccursAt(Lower(phrase), action, i) && WordAt(phrase, option, j)
    ensures HasExplicitCta(phrase, cta)
  {
    hide HasAction, ContainsWord, WordAt, OccursAt;
    OccursAlone(phrase, action, i);
    WordAlone(phrase, option, j);
  }

  lemma {:induction false} SelfExplicit(cta: Cta, hindi: bool)
    requires Asks(cta)
    ensures HasExplicitCta(CtaText(cta, hindi), cta)
  {
    hide HasExplicitCta, WordAt, OccursAt;
    var phrase := CtaText(cta, hindi);
    match cta
    case BinaryYesNo =>
      if hindi {
        HaanExplicit();
        BinaryAlone(phrase, cta, "bata dijiye", 14, "haan", 0);
      } else {
        YesExplicit();
        BinaryAlone(phrase, cta, "reply", 0, "yes", 6);
      }
    case BinaryConfirmCancel =>
      ConfirmExplicit();
      BinaryAlone(phrase, cta, "reply", 0, "confirm", 6);
    case MultiChoiceSlot =>
      if hindi {
        ApnaExplicit();
        ActionAlone(phrase, "bata dijiye", 22);
      } else {
        WithExplicit();
        ActionAlone(phrase, "reply", 0);
      }
  }

  lemma {:induction false} ActionAlone(phrase: string, action: string, i: nat)
    requires action in ACTION_PHRASES && OccursAt(Lower(phrase), action, i)
    ensures HasExplicitCta(phrase, MultiChoiceSlot)
  {
    OccursAlone(phrase, action, i);
  }

  /** A blank message becomes the bare CTA: its only violation, that it is empty, is hidden. */
  lemma {:induction false} BlankIsCorrected(message: string, brief: Brief)
    requires Blank(message) && Asks(brief.cta) && |CtaFallbackText(brief)| <= brief.maxChars + LENGTH_TOLERANCE
    requires forall t | t in brief.forbiddenTopics :: !Contains(Lower(CtaFallbackText(brief)), Lower(t))
    ensures TryCtaCorrection(message, brief) == Some(CtaFallbackText(brief))
    ensures Violations(message, brief) == [EmptyMessage]
  {
    hide Passes, Has, ReplyTokens, HasExplicitCta, Claims, CtaText, PrefersHindi, Plain, Strip, IsSpace, IsLetter;
    var cta := CtaFallbackText(brief);
    BlankIsSpace(message);
    SpaceAsksNothing(message, brief.cta);
    AskingPhrase(brief);
    StripBlank(message, cta);
    SelfExplicit(brief.cta, PrefersHindi(brief));
    EmptyPlain();
    assert "" + cta == cta;
    PhrasePasses("", brief);
  }

  /** Plain wording behind white space is corrected, whatever the white space hides. */
  lemma {:induction false} SpacedIsCorrected(lead: string, text: string, brief: Brief)
    requires AllSpace(lead) && text != "" && !IsSpace(text[0]) && Plain(text + " ")
    requires Asks(brief.cta) && !HasExplicitCta(lead + text, brief.cta)
    requires var m := text + (" " + CtaFallbackText(brief));
      && |m| <= brief.maxChars + LENGTH_TOLERANCE
      && forall t | t in brief.forbiddenTopics :: !Contains(Lower(m), Lower(t))
    ensures TryCtaCorrection(lead + text, brief) == Some(text + (" " + CtaFallbackText(brief)))
  {
    hide Passes, Has, ReplyTokens, HasExplicitCta, Claims, CtaText, PrefersHindi, Plain, Strip, IsSpace, IsLetter;
    var cta := CtaFallbackText(brief);
    AskingPhrase(brief);
    StripSpaced(lead, text, cta);
    ExplicitCta(text, brief.cta, PrefersHindi(brief));
    assert text + (" " + cta) == (text + " ") + cta;
    PhrasePasses(text + " ", brief);
  }

  lemma {:induction false} SpacedIsSound(lead: string, text: string, brief: Brief)
    requires AllSpace(lead) && text != "" && !IsSpace(text[0]) && Plain(text + " ")
    requires Asks(brief.cta) && !HasExplicitCta(lead + text, brief.cta)
    requires var m := text + (" " + CtaFallbackText(brief));
      && |m| <= brief.maxChars + LENGTH_TOLERANCE
      && forall t | t in brief.forbiddenTopics :: !Contains(Lower(m), Lower(t))
    ensures TryCtaCorrection(lead + text, brief).Some? && SoundBody(lead + text, brief)
  {
    hide Passes, HasExplicitCta, CtaText, PrefersHindi, Plain, IsSpace, IsLetter, SoundBody, Blank, Contains;
    SpacedIsCorrected(lead, text, brief);
    VisibleBehind(lead, text);
    CtaIsPhrase(brief);
    CorrectedBody(lead + text, CtaFallbackText(brief), brief);
  }

  /** Among them every such message that is too long only because of the white space: that it is
      too long is hidden. */
  lemma {:induction false} LengthIsHidden(lead: string, text: string, brief: Brief)
    requires AllSpace(lead) && text != "" && !IsSpace(text[0]) && Plain(text + " ")
    requires Asks(brief.cta) && !HasExplicitCta(lead + text, brief.cta)
    requires |text| + 1 + |CtaFallbackText(brief)| <= brief.maxChars + LENGTH_TOLERANCE < |lead| + |text|
    requires brief.forbiddenTopics == []
    ensures TryCtaCorrection(lead + text, brief).Some? && Violations(lead + text, brief) == [TooLong, MissingCta]
  {
    hide Passes, Has, ReplyTokens, HasExplicitCta, Claims, CtaText, PrefersHindi, Plain, IsSpace, IsLetter, SoundBody, Blank, Violations, TryCtaCorrection;
    SpacedIsSound(lead, text, brief);
    SoundViolations(lead + text, brief);
  }

  lemma {:induction false} VisibleBehind(lead: string, text: string)
    requires text != "" && !IsSpace(text[0])
    ensures !Blank(lead + text)
  {
    BlankIff(lead + text);
    assert (lead + text)[|lead|] == text[0];
  }

  /** And every such message with a taboo phrase that takes in the white space. */
  lemma {:induction false} TabooIsHidden(lead: string, text: string, topic: string, brief: Brief)
    requires AllSpace(lead) && text != "" && !IsSpace(text[0]) && Plain(text + " ")
    requires Asks(brief.cta) && !HasExplicitCta(lead + text, brief.cta)
    requires |lead| + |text| + 1 + |CtaFallbackText(brief)| <= brief.maxChars + LENGTH_TOLERANCE
    requires brief.forbiddenTopics == [topic] && Contains(Lower(lead + text), Lower(topic))
    requires !Contains(Lower(text + (" " + CtaFallbackText(brief))), Lower(topic))
    ensures TryCtaCorrection(lead + text, brief).Some? && Violations(lead + text, brief) == [Taboo(topic), MissingCta]
  {
    hide Passes, Has, ReplyTokens, HasExplicitCta, Claims, CtaText, PrefersHindi, Plain, IsSpace, IsLetter, SoundBody, Blank, Contains, Taboos, Violations, TryCtaCorrection;
    SpacedIsSound(lead, text, brief);
    SoundViolations(lead + text, brief);
    OneTaboo(Lower(lead + text), topic);
  }

  lemma {:induction false} OneTaboo(lowered: string, topic: string)
    requires Contains(lowered, Lower(topic))
    ensures Taboos(lowered, [topic]) == [Taboo(topic)]
  {
    assert [topic][1..] == [];
  }

  /** For instance " sale today" where " sale" is taboo. */
  lemma {:induction false} SaleIsHidden(brief: Brief)
    requires brief.cta.BinaryConfirmCancel? && brief.forbiddenTopics == [" sale"] && brief.maxChars >= 400
    ensures TryCtaCorrection(" sale today", brief).Some?
    ensures Violations(" sale today", brief) == [Taboo(" sale"), MissingCta]
  {
    hide Passes, Has, Plain, HasExplicitCta, Contains, TryCtaCorrection, Violations, PrefersHindi;
    SalePlain();
    SaleTaboo();
    SaleAsksNothing();
    assert " " + "sale today" == " sale today";
    TabooIsHidden(" ", "sale today", " sale", brief);
  }

  lemma {:induction false} SalePlain()
    ensures Plain("sale today" + " ")
  {}

  lemma {:induction false} SaleTaboo()
    ensures Contains(Lower(" sale today"), Lower(" sale"))
    ensures !Contains(Lower("sale today" + (" " + "Reply CONFIRM to proceed.")), Lower(" sale"))
  {
    SaleOccurs();
    SaleOccursNot();
  }

  lemma {:induction false} SaleOccurs()
    ensures Contains(Lower(" sale today"), Lower(" sale"))
  {
    assert Lower(" sale today")[0..5] == Lower(" sale");
    assert OccursAt(Lower(" sale today"), Lower(" sale"), 0);
  }

  lemma {:induction false} FirstTwo(hay: string, needle: string, i: int)
    requires |needle| > 1
    ensures OccursAt(hay, needle, i) ==> 0 <= i < |hay| - 1 && hay[i] == needle[0] && hay[i + 1] == needle[1]
  {
    if OccursAt(hay, needle, i) {
      var w := hay[i..i + |needle|];
      assert w[0] == hay[i] && w[1] == hay[i + 1];
    }
  }

  /** No space of the corrected text is followed by an s. */
  lemma {:induction false} NoSpacedS()
    ensures var s := Lower("sale today" + (" " + "Reply CONFIRM to proceed."));
      forall i | 0 <= i < |s| - 1 :: s[i] == ' ' ==> s[i + 1] != 's'
  {}

  lemma {:induction false} SaleOccursNot()
    ensures !Contains(Lower("sale today" + (" " + "Reply CONFIRM to proceed.")), Lower(" sale"))
  {
    var s := Lower("sale today" + (" " + "Reply CONFIRM to proceed."));
    NoSpacedS();
    forall i ensures !OccursAt(s, Lower(" sale"), i) { FirstTwo(s, Lower(" sale"), i); }
  }

  lemma {:induction false} SaleAsksNothing()
    ensures !HasExplicitCta(" " + "sale today", BinaryConfirmCancel)
  {}
}
