/** The deterministic fallback against the firewall it is the safety net for. */
module FallbackProofs {
  import opened Text
  import opened Scan
  import opened Cuts
  import opened Brief
  import opened ReplyClauses
  import opened Firewall
  import opened Composer
  import opened Readings

  // ---- the fact list ----------------------------------------------------------------------

  /** What is read in a list of facts joined by punctuation. */
  function Pieces(facts: seq<string>): Reading {
    if facts == [] then NOTHING else Plus(Piece(facts[0]), Pieces(facts[1..]))
  }

  /** The natural join, one fact at a time. */
  function Chain(facts: seq<string>): string
    requires facts != []
  {
    if |facts| == 1 then facts[0]
    else facts[0] + ((if |facts| == 2 then "; and " else "; ") + Chain(facts[1..]))
  }

  lemma {:induction false} NaturalIsChain(facts: seq<string>)
    requires facts != []
    ensures JoinFactsNaturally(facts) == Chain(facts)
  {
    var n := |facts|;
    if n == 2 {
      assert facts[..1] == [facts[0]];
      assert Chain(facts[1..]) == facts[1];
    } else if n > 2 {
      NaturalIsChain(facts[1..]);
      var rest := facts[1..];
      assert facts[..n - 1][1..] == rest[..n - 2];
      assert facts[..n - 1][0] == facts[0];
      assert rest[|rest| - 1] == facts[n - 1];
    }
  }

  lemma {:induction false} DotReads()
    ensures Read(".") == NOTHING
  {
    assert Run(Label, ".") == 0;
    assert SchemeUrl(".") == 0;
    assert !Starts(".", "reply");
    FindAllNone(Percent, false, ".");
    FindAllNone(Currency, false, ".");
    FindAllNone(ReplyClause, false, ".");
  }

  lemma {:induction false} AskedNotDangling(a: string)
    requires EndsIn(a, {'?', '!'})
    ensures Piece(a) == Read(a)
  {
    forall w | w in {"http://", "https://", "www."} && |w| <= |a| ensures Lower(a[|a| - |w|..]) != w {
      assert Lower(a[|a| - |w|..])[|w| - 1] == LowerChar(a[|a| - 1]);
    }
  }

  lemma {:induction false} LastFactReads(fact: string)
    ensures Read(fact + Terminal(fact)) == Piece(fact)
  {
    hide Read, Piece;
    if Terminal(fact) == "" {
      assert fact + "" == fact;
      AskedNotDangling(fact);
    } else {
      GlueMark(fact, ".");
      DotReads();
    }
  }

  lemma {:induction false} OneFact(fact: string, sep: string, tail: string)
    requires sep in {"; ", "; and "}
    ensures Read(fact + (sep + tail)) == Plus(Piece(fact), Read(tail))
  {
    hide Read, Piece;
    assert Plain(sep);
    GluePlain(sep, tail);
    GlueMark(fact, sep + tail);
  }

  lemma {:induction false} TerminalOfTail(a: string, sep: string, b: string)
    requires b != ""
    ensures a + (sep + b) + Terminal(a + (sep + b)) == a + (sep + (b + Terminal(b)))
  {
    var s := a + (sep + b);
    assert s[|s| - 1] == b[|b| - 1];
  }

  lemma {:induction false} PlusNothing(r: Reading)
    ensures Plus(r, NOTHING) == r
  {}

  lemma {:induction false} SingleReads(facts: seq<string>)
    requires |facts| == 1
    ensures Read(facts[0] + Terminal(facts[0])) == Pieces(facts)
  {
    LastFactReads(facts[0]);
    PlusNothing(Piece(facts[0]));
    assert Pieces(facts[1..]) == NOTHING;
  }

  /** All facts of a joined list are read, and nothing else. */
  lemma {:induction false} FactsRead(facts: seq<string>)
    requires facts != [] && forall f | f in facts :: f != ""
    ensures var text := Chain(facts); text != "" && Read(text + Terminal(text)) == Pieces(facts)
  {
    assert facts[0] in facts;
    if |facts| == 1 {
      SingleReads(facts);
    } else {
      forall f | f in facts[1..] ensures f in facts {}
      FactsRead(facts[1..]);
      var sep := if |facts| == 2 then "; and " else "; ";
      var text := Chain(facts[1..]);
      TerminalOfTail(facts[0], sep, text);
      OneFact(facts[0], sep, text + Terminal(text));
    }
  }

  lemma {:induction false} SanitizedNonEmpty(facts: seq<string>)
    ensures forall f | f in SanitizeFacts(facts) :: f != ""
  {
    if facts != [] { SanitizedNonEmpty(facts[1..]); }
  }

  /** The facts the template shows: the sanitized ones, or the merchant's name. */
  function Shown(brief: Brief): (facts: seq<string>)
    ensures facts != []
  {
    var facts := SanitizeFacts(brief.facts);
    if facts != [] then facts else [brief.merchantName]
  }

  lemma {:induction false} ShownText(brief: Brief)
    ensures var facts := SanitizeFacts(brief.facts);
      FactText(brief) == if facts != [] then Chain(facts) else brief.merchantName
  {
    var facts := SanitizeFacts(brief.facts);
    SanitizedNonEmpty(brief.facts);
    if facts != [] {
      NaturalIsChain(facts);
      FactsRead(facts);
    }
  }

  lemma {:induction false} ShownReads(brief: Brief)
    ensures var text := FactText(brief); Read(text + Terminal(text)) == Pieces(Shown(brief))
  {
    ShownText(brief);
    SanitizedNonEmpty(brief.facts);
    if SanitizeFacts(brief.facts) != [] {
      FactsRead(SanitizeFacts(brief.facts));
    } else {
      SingleReads([brief.merchantName]);
    }
  }

  // ---- the calls to action ----------------------------------------------------------------

  /** The reply tokens of the fixed phrases. */
  function CtaTokens(cta: Cta, hindi: bool): set<string> {
    match cta
    case OpenEnded => {}
    case BinaryYesNo => if hindi then {} else {"YES"}
    case BinaryConfirmCancel => {"CONFIRM"}
    case MultiChoiceSlot => if hindi then {} else {"WITH"}
    case NoCta => {}
  }

  function TokenReading(tokens: set<string>): Reading { NOTHING.(tokens := tokens) }

  lemma {:induction false} ClosedReads(a: string)
    requires Closed(a)
    ensures Read(a) == TokenReading(ReplyTokens(a))
  {
    ClosedNoUrl(false, a);
    ClosedNoPlaceholder(false, a);
    InertFinds(Percent, false, a);
    InertFinds(Currency, false, a);
  }

  lemma {:induction false} NoOrStep(t: string)
    requires |t| > 1 && t[0] == ' ' && !IsSpace(t[1]) && LowerChar(t[1]) != 'o'
    ensures OrStep(t).len == 0
  {
    assert Run(Space, t[1..]) == 0;
    StartsCharIf(t[1..], "or", 0);
  }

  lemma {:induction false} LoneClause(s: string, k: Token, t: string)
    requires s != "" && AfterWord(s, "reply") == k && k.len > 0 && s[k.len..] == t && OrStep(t).len == 0
    ensures ReplyTokens(s) == {Upper(k.text)} + TokensFrom(EndsInWord(false, s[..k.len]), t)
  {
    hide AfterWord, FindAll, MatchAt, OrStep, EndsInWord;
    TokensSome(s, k);
    assert OrChain(t) == 0 && StepWords(t) == [];
    assert Uppers([]) == {};
  }

  /** A phrase `Reply w…` whose rest neither continues the clause nor holds another one. */
  lemma {:induction false} ReplyPhrase(w: string, t: string, k: nat)
    requires IsToken(w) && Mute(t, k) && |t| > 1 && t[0] == ' ' && !IsSpace(t[1]) && LowerChar(t[1]) != 'o'
    ensures ReplyTokens("Reply" + (" " + (w + t))) == {Upper(w)}
  {
    var s := "Reply" + (" " + (w + t));
    AfterWordOffer("Reply", w, t);
    NoOrStep(t);
    LoneClause(s, Token(6 + |w|, w), t);
    MuteNoMatch(EndsInWord(false, s[..6 + |w|]), t, k);
  }

  lemma {:induction false} MuteTokens(t: string, k: nat)
    requires Mute(t, k)
    ensures ReplyTokens(t) == {}
  {
    MuteNoMatch(false, t, k);
  }

  // One lemma a phrase: its letters are checked one by one.

  lemma {:induction false} WantClosed()
    ensures Closed("Want me to share more?")
  {}

  lemma {:induction false} BataAgarClosed()
    ensures Closed("Bata dijiye agar aur jaankari chahiye.")
  {}

  lemma {:induction false} HaanClosed()
    ensures Closed("Haan ya nahi, bata dijiye.")
  {}

  lemma {:induction false} ApnaClosed()
    ensures Closed("Apna preferred option bata dijiye.")
  {}

  lemma {:induction false} YesClosed()
    ensures Closed("Reply YES if you'd like this.")
  {}

  lemma {:induction false} ConfirmClosed()
    ensures Closed("Reply CONFIRM to proceed.")
  {}

  lemma {:induction false} WithClosed()
    ensures Closed("Reply with your preferred option.")
  {}

  lemma {:induction false} WantMute()
    ensures Mute("Want me to share more?", 2)
  {}

  lemma {:induction false} BataAgarMute()
    ensures Mute("Bata dijiye agar aur jaankari chahiye.", 2)
  {}

  lemma {:induction false} HaanMute()
    ensures Mute("Haan ya nahi, bata dijiye.", 2)
  {}

  lemma {:induction false} ApnaMute()
    ensures Mute("Apna preferred option bata dijiye.", 3)
  {}

  lemma {:induction false} YesShape()
    ensures "Reply YES if you'd like this." == "Reply" + (" " + ("YES" + " if you'd like this."))
    ensures IsToken("YES") && Upper("YES") == "YES"
  {}

  lemma {:induction false} YesRest()
    ensures Mute(" if you'd like this.", 2)
  {}

  lemma {:induction false} YesTokens()
    ensures ReplyTokens("Reply YES if you'd like this.") == {"YES"}
  {
    YesShape();
    YesRest();
    ReplyPhrase("YES", " if you'd like this.", 2);
  }

  lemma {:induction false} ConfirmShape()
    ensures "Reply CONFIRM to proceed." == "Reply" + (" " + ("CONFIRM" + " to proceed."))
    ensures IsToken("CONFIRM") && Upper("CONFIRM") == "CONFIRM"
  {}

  lemma {:induction false} ConfirmRest()
    ensures Mute(" to proceed.", 3)
  {}

  lemma {:induction false} ConfirmTokens()
    ensures ReplyTokens("Reply CONFIRM to proceed.") == {"CONFIRM"}
  {
    ConfirmShape();
    ConfirmRest();
    ReplyPhrase("CONFIRM", " to proceed.", 3);
  }

  lemma {:induction false} WithShape()
    ensures "Reply with your preferred option." == "Reply" + (" " + ("with" + " your preferred option."))
  {
    WithShapeTail();
  }

  lemma {:induction false} WithShapeTail()
    ensures " " + ("with" + " your preferred option.") == " with your preferred option."
  {}

  lemma {:induction false} WithToken()
    ensures IsToken("with") && Upper("with") == "WITH"
  {}

  lemma {:induction false} WithRest()
    ensures Mute(" your preferred option.", 3)
  {}

  lemma {:induction false} WithTokens()
    ensures ReplyTokens("Reply with your preferred option.") == {"WITH"}
  {
    WithShape();
    WithToken();
    WithRest();
    ReplyPhrase("with", " your preferred option.", 3);
  }

  /** The fixed phrases read as their own reply token and nothing else. */
  lemma {:induction false} CtaReads(cta: Cta, hindi: bool)
    ensures Read(CtaText(cta, hindi)) == TokenReading(CtaTokens(cta, hindi))
  {
    match cta
    case OpenEnded => if hindi { BataAgarClosed(); BataAgarMute(); MutePhrase(CtaText(cta, hindi), 2); }
                      else { WantClosed(); WantMute(); MutePhrase(CtaText(cta, hindi), 2); }
    case BinaryYesNo => if hindi { HaanClosed(); HaanMute(); MutePhrase(CtaText(cta, hindi), 2); }
                        else { YesClosed(); YesTokens(); ClosedReads(CtaText(cta, hindi)); }
    case BinaryConfirmCancel => ConfirmClosed(); ConfirmTokens(); ClosedReads(CtaText(cta, hindi));
    case MultiChoiceSlot => if hindi { ApnaClosed(); ApnaMute(); MutePhrase(CtaText(cta, hindi), 3); }
                            else { WithClosed(); WithTokens(); ClosedReads(CtaText(cta, hindi)); }
    case NoCta => MutePhrase("", 0);
  }

  lemma {:induction false} MutePhrase(a: string, k: nat)
    requires Closed(a) && Mute(a, k)
    ensures Read(a) == NOTHING
  {
    ClosedReads(a);
    MuteTokens(a, k);
  }

  // ---- the whole template ------------------------------------------------------------------

  /** Everything before the call to action. */
  function Body(brief: Brief): string {
    var text := FactText(brief);
    Prefix(brief.replyIntent) + (Subject(brief) + (", " + (MerchantIntro(brief) + (Opener(brief) + (text + Terminal(text))))))
  }

  function Tail(cta: string): string { if cta != "" then " " + cta else "" }

  lemma {:induction false} FullTextShape(brief: Brief)
    ensures FullText(brief) == Body(brief) + Tail(CtaFallbackText(brief))
  {
    var p, s, i, o := Prefix(brief.replyIntent), Subject(brief), MerchantIntro(brief), Opener(brief);
    var f := FactText(brief);
    Regroup(p, s, ", ", i, o, f, Terminal(f), Tail(CtaFallbackText(brief)));
  }

  lemma {:induction false} Regroup(p: string, s: string, c: string, i: string, o: string, f: string, t: string, e: string)
    ensures p + s + c + i + o + f + t + e == (p + (s + (c + (i + (o + (f + t)))))) + e
  {}

  /** The text parts the template takes from its brief: the addressee, the merchant's name when it
      is introduced, and the facts shown. */
  function Ingredients(brief: Brief): Reading {
    var shown := Pieces(Shown(brief));
    var named := if MerchantIntro(brief) != "" then Plus(Piece(brief.merchantName), shown) else shown;
    Plus(Addressed(Subject(brief)), named)
  }

  lemma {:induction false} LookPlain()
    ensures Plain("worth a look — ")
  {}

  lemma {:induction false} CheckPlain()
    ensures Plain("quick check — ")
  {}

  lemma {:induction false} OnePlain()
    ensures Plain("quick one — ")
  {}

  lemma {:induction false} OpenerPlain(brief: Brief)
    ensures Plain(Opener(brief))
  {
    LookPlain();
    CheckPlain();
    OnePlain();
    OpenerIs(brief);
  }

  lemma {:induction false} OpenerIs(brief: Brief)
    ensures Opener(brief) in {"", "worth a look — ", "quick check — ", "quick one — "}
  {
    var slug := brief.categorySlug;
    if CategoryOpener(slug) == "worth a look —" {
      assert "worth a look —" + " " == "worth a look — ";
    } else if CategoryOpener(slug) == "quick check —" {
      assert "quick check —" + " " == "quick check — ";
    } else if CategoryOpener(slug) == "quick one —" {
      assert "quick one —" + " " == "quick one — ";
    }
  }

  lemma {:induction false} GreatPlain()
    ensures Plain("Great, moving ahead. ")
  {}

  lemma {:induction false} NotedClosed()
    ensures Closed("Noted. Coming back to this: ")
  {}

  lemma {:induction false} NotedPlain()
    ensures Plain("Noted. Coming back to this: ")
  {
    NotedClosed();
  }

  lemma {:induction false} PrefixPlain(intent: Option<Intent>)
    ensures Plain(Prefix(intent))
  {
    GreatPlain();
    NotedPlain();
  }

  lemma {:induction false} ThisIsPlain()
    ensures Plain("this is ")
  {}

  lemma {:induction false} DotPlain()
    ensures Plain(". ")
  {}

  lemma {:induction false} NameReads(name: string, rest: string)
    ensures Read("this is " + (name + (". " + rest))) == Plus(Piece(name), Read(rest))
  {
    hide Read, Piece, Plain;
    ThisIsPlain();
    DotPlain();
    GluePlain("this is ", name + (". " + rest));
    GlueMark(name, ". " + rest);
    GluePlain(". ", rest);
  }

  lemma {:induction false} IntroReads(brief: Brief, rest: string)
    ensures Read(MerchantIntro(brief) + rest)
      == if MerchantIntro(brief) != "" then Plus(Piece(brief.merchantName), Read(rest)) else Read(rest)
  {
    hide Read, Piece;
    if MerchantIntro(brief) != "" {
      NameReads(brief.merchantName, rest);
      IntroShape("this is ", brief.merchantName, ". ", rest);
    } else {
      assert "" + rest == rest;
    }
  }

  lemma {:induction false} IntroShape(a: string, b: string, c: string, d: string)
    ensures a + b + c + d == a + (b + (c + d))
  {}

  /** The body reads as its ingredients: the fixed wording adds nothing, no join creates or hides a match. */
  lemma {:induction false} BodyReads(brief: Brief)
    ensures Read(Body(brief)) == Ingredients(brief)
  {
    hide FactText, Terminal, Prefix, Subject, MerchantIntro, Opener, Read, Piece, Addressed, Plain, Pieces, Shown;
    var text := FactText(brief);
    var shown := text + Terminal(text);
    ShownReads(brief);
    OpenerPlain(brief);
    GluePlain(Opener(brief), shown);
    IntroReads(brief, Opener(brief) + shown);
    var rest := MerchantIntro(brief) + (Opener(brief) + shown);
    GlueAddress(Subject(brief), rest);
    PrefixPlain(brief.replyIntent);
    GluePlain(Prefix(brief.replyIntent), Subject(brief) + (", " + rest));
  }

  lemma {:induction false} BodyEnds(brief: Brief)
    ensures EndsIn(Body(brief), {'.', '?', '!'})
  {
    hide FactText, Prefix, Subject, MerchantIntro, Opener;
    var text := FactText(brief);
    TerminalEnds(text);
    LastStays(Prefix(brief.replyIntent) + (Subject(brief) + (", " + (MerchantIntro(brief) + Opener(brief)))), text + Terminal(text));
    assert Body(brief)
      == (Prefix(brief.replyIntent) + (Subject(brief) + (", " + (MerchantIntro(brief) + Opener(brief))))) + (text + Terminal(text));
  }

  lemma {:induction false} TerminalEnds(text: string)
    ensures EndsIn(text + Terminal(text), {'.', '?', '!'})
  {}

  lemma {:induction false} LastStays(a: string, b: string)
    requires EndsIn(b, {'.', '?', '!'})
    ensures EndsIn(a + b, {'.', '?', '!'})
  {
    assert (a + b)[|a + b| - 1] == b[|b| - 1];
  }

  /** The full text reads as its ingredients plus the reply token of its call to action. */
  lemma {:induction false} FullTextReads(brief: Brief)
    ensures Read(FullText(brief)) == Plus(Ingredients(brief), TokenReading(CtaTokens(brief.cta, PrefersHindi(brief))))
  {
    FullTextShape(brief);
    BodyReads(brief);
    CtaReads(brief.cta, PrefersHindi(brief));
    TailGlues(Body(brief), brief.cta, PrefersHindi(brief)) by { BodyEnds(brief); }
  }

  lemma {:induction false} TailGlues(body: string, cta: Cta, hindi: bool)
    requires EndsIn(body, {'.', '?', '!'})
    ensures Read(body + Tail(CtaText(cta, hindi))) == Plus(Read(body), TokenReading(CtaTokens(cta, hindi)))
  {
    CtaReads(cta, hindi);
    PhraseGlues(body, CtaText(cta, hindi), TokenReading(CtaTokens(cta, hindi))) by { CtaLetter(cta, hindi); }
  }

  lemma {:induction false} CtaLetter(cta: Cta, hindi: bool)
    ensures CtaText(cta, hindi) != "" ==> IsLetter(CtaText(cta, hindi)[0])
    ensures CtaText(cta, hindi) == "" ==> CtaTokens(cta, hindi) == {}
  {}

  lemma {:induction false} PhraseGlues(body: string, cta: string, r: Reading)
    requires EndsIn(body, {'.', '?', '!'}) && (cta != "" ==> IsLetter(cta[0])) && Read(cta) == r
    requires cta == "" ==> r == NOTHING
    ensures Read(body + Tail(cta)) == Plus(Read(body), r)
  {
    if cta == "" {
      assert body + "" == body;
      PlusNothing(Read(body));
    } else {
      CommaPlain();
      GluePlain(" ", cta);
      GlueSentence(body, " " + cta);
    }
  }

  /** The CTA asks for certain words. */
  predicate Asks(cta: Cta) { !cta.OpenEnded? && !cta.NoCta? }

  // ---- the explicit call to action ----------------------------------------------------------

  lemma {:induction false} PhraseOccurs(body: string, cta: string, needle: string, i: nat)
    requires OccursAt(Lower(cta), needle, i)
    ensures OccursAt(Lower(body + (" " + cta)), needle, |body| + 1 + i)
  {
    var s := Lower(body + (" " + cta));
    assert s[|body| + 1 + i..|body| + 1 + i + |needle|] == Lower(cta)[i..i + |needle|];
  }

  /** `cta` holds `needle` as a word at `i`. */
  predicate WordAt(cta: string, needle: string, i: nat) {
    && OccursAt(Lower(cta), needle, i)
    && (i > 0 ==> !IsWord(Lower(cta)[i - 1]))
    && (i + |needle| < |cta| ==> !IsWord(Lower(cta)[i + |needle|]))
  }

  lemma {:induction false} WordOccurs(body: string, cta: string, needle: string, i: nat)
    requires WordAt(cta, needle, i)
    ensures ContainsWord(Lower(body + (" " + cta)), needle)
  {
    var s := Lower(body + (" " + cta));
    PhraseOccurs(body, cta, needle, i);
    var k := |body| + 1 + i;
    assert i > 0 ==> s[k - 1] == Lower(cta)[i - 1];
    assert i == 0 ==> s[k - 1] == ' ';
    assert i + |needle| < |cta| ==> s[k + |needle|] == Lower(cta)[i + |needle|];
  }

  lemma {:induction false} ActionOccurs(body: string, cta: string, needle: string, i: nat)
    requires needle in ACTION_PHRASES && OccursAt(Lower(cta), needle, i)
    ensures HasAction(Lower(body + (" " + cta)))
  {
    PhraseOccurs(body, cta, needle, i);
    assert OccursAt(Lower(body + (" " + cta)), needle, |body| + 1 + i);
  }

  lemma {:induction false} OccursBy(cta: string, needle: string, i: nat)
    requires i + |needle| <= |cta| && forall k | 0 <= k < |needle| :: LowerChar(cta[i + k]) == needle[k]
    ensures OccursAt(Lower(cta), needle, i)
  {
    forall k | 0 <= k < |needle| ensures Lower(cta)[i..i + |needle|][k] == needle[k] {
      assert Lower(cta)[i + k] == LowerChar(cta[i + k]);
    }
  }

  lemma {:induction false} YesExplicit()
    ensures OccursAt(Lower("Reply YES if you'd like this."), "reply", 0)
    ensures WordAt("Reply YES if you'd like this.", "yes", 6)
  {
    OccursBy("Reply YES if you'd like this.", "reply", 0);
    OccursBy("Reply YES if you'd like this.", "yes", 6);
  }

  lemma {:induction false} ConfirmExplicit()
    ensures OccursAt(Lower("Reply CONFIRM to proceed."), "reply", 0)
    ensures WordAt("Reply CONFIRM to proceed.", "confirm", 6)
  {
    OccursBy("Reply CONFIRM to proceed.", "reply", 0);
    OccursBy("Reply CONFIRM to proceed.", "confirm", 6);
  }

  lemma {:induction false} WithExplicit()
    ensures OccursAt(Lower("Reply with your preferred option."), "reply", 0)
  {
    OccursBy("Reply with your preferred option.", "reply", 0);
  }

  lemma {:induction false} HaanExplicit()
    ensures OccursAt(Lower("Haan ya nahi, bata dijiye."), "bata dijiye", 14)
    ensures WordAt("Haan ya nahi, bata dijiye.", "haan", 0)
  {
    OccursBy("Haan ya nahi, bata dijiye.", "bata dijiye", 14);
    OccursBy("Haan ya nahi, bata dijiye.", "haan", 0);
  }

  lemma {:induction false} ApnaExplicit()
    ensures OccursAt(Lower("Apna preferred option bata dijiye."), "bata dijiye", 22)
  {
    OccursBy("Apna preferred option bata dijiye.", "bata dijiye", 22);
  }

  lemma {:induction false} BinaryExplicit(body: string, cta: Cta, phrase: string, action: string, i: nat, option: string, j: nat)
    requires OptionWords(cta).Some? && option in OptionWords(cta).value && action in ACTION_PHRASES
    requires OccursAt(Lower(phrase), action, i) && WordAt(phrase, option, j)
    ensures HasExplicitCta(body + (" " + phrase), cta)
  {
    ActionOccurs(body, phrase, action, i);
    WordOccurs(body, phrase, option, j);
  }

  /** A message that ends in its CTA's fixed phrase has the explicit CTA the firewall asks for. */
  lemma {:induction false} ExplicitCta(body: string, cta: Cta, hindi: bool)
    ensures HasExplicitCta(body + Tail(CtaText(cta, hindi)), cta)
  {
    match cta
    case OpenEnded =>
    case NoCta =>
    case BinaryYesNo =>
      if hindi {
        HaanExplicit();
        BinaryExplicit(body, cta, CtaText(cta, hindi), "bata dijiye", 14, "haan", 0);
      } else {
        YesExplicit();
        BinaryExplicit(body, cta, CtaText(cta, hindi), "reply", 0, "yes", 6);
      }
    case BinaryConfirmCancel =>
      ConfirmExplicit();
      BinaryExplicit(body, cta, CtaText(cta, hindi), "reply", 0, "confirm", 6);
    case MultiChoiceSlot =>
      if hindi {
        ApnaExplicit();
        ActionOccurs(body, CtaText(cta, hindi), "bata dijiye", 22);
      } else {
        WithExplicit();
        ActionOccurs(body, CtaText(cta, hindi), "reply", 0);
      }
  }

  // ---- the fallback and its firewall ----------------------------------------------------------

  /** What a reading must satisfy to pass, apart from taboo phrases. */
  predicate Acceptable(r: Reading, facts: seq<string>, cta: Cta) {
    && !r.url && !r.placeholder
    && r.percents <= FactClaims(Percent, facts) && r.prices <= FactClaims(Currency, facts)
    && |r.tokens| <= 2 && (cta.NoCta? ==> r.tokens == {})
  }

  lemma {:induction false} NotBlank(a: string, b: string)
    requires EndsIn(a, {'.', '?', '!'})
    ensures !Blank(a + b)
  {
    BlankIff(a + b);
    assert (a + b)[|a| - 1] == a[|a| - 1];
  }

  lemma {:induction false} VisibleAndExplicit(brief: Brief)
    ensures !Blank(FullText(brief)) && HasExplicitCta(FullText(brief), brief.cta)
  {
    FullTextShape(brief);
    BodyEnds(brief);
    NotBlank(Body(brief), Tail(CtaFallbackText(brief)));
    ExplicitCta(Body(brief), brief.cta, PrefersHindi(brief));
  }

  /** A composed message that fits its length limit passes the firewall exactly when its
      ingredients do: the addressee, the introduced name and the sanitized facts hold no URL, no
      dangling scheme and no placeholder, the figures left in them are figures of the brief's facts,
      their reply tokens and the CTA's own are at most two (none for a message without a CTA), and no
      taboo phrase occurs in the text. The opener, prefix, separators, full stop and CTA phrase never
      make the difference, for any CTA, either language and any reply intent. */
  lemma {:induction false} FallbackPassesIff(brief: Brief)
    requires |FullText(brief)| <= brief.maxChars
    ensures Passes(Compose(brief), brief) <==>
      && Acceptable(Plus(Ingredients(brief), TokenReading(CtaTokens(brief.cta, PrefersHindi(brief)))), brief.facts, brief.cta)
      && forall t | t in brief.forbiddenTopics :: !Contains(Lower(FullText(brief)), Lower(t))
  {
    FullTextReads(brief);
    VisibleAndExplicit(brief);
    PassesIff(FullText(brief), brief);
    assert Compose(brief) == FullText(brief);
  }
}
