/** Sanitizing, and briefs on which the fallback is sure to pass. */
module CleanFacts {
  import opened Text
  import opened Scan
  import opened Cuts
  import opened Brief
  import opened ReplyClauses
  import opened Firewall
  import opened Composer
  import opened Readings
  import opened FallbackProofs
  import opened TemplateCuts
  import opened CtaCuts
  import opened ClaimStripping
  import opened Sanitizing
  import opened SanitizingLeaves

  /** A fact that survives sanitizing unchanged holds no URL. */
  lemma {:induction false} UnchangedHasNoUrl(fact: string)
    requires SanitizeFact(fact) == fact
    ensures !Has(Url, false, fact)
  {
    SubShortens(Url, false, fact);
  }

  /** Unchanged by sanitizing, and free of dangling schemes, placeholders and reply clauses. */
  predicate CleanFact(fact: string) {
    && fact != "" && SanitizeFact(fact) == fact && !Dangling(fact)
    && !Has(Placeholder, false, fact) && ReplyTokens(fact) == {}
  }

  predicate CleanName(name: string) { Piece(name) == NOTHING && '₹' !in name }

  /** The reading of a list of facts with nothing but figures. */
  function FigureReading(facts: seq<string>): Reading {
    NOTHING.(percents := FactClaims(Percent, facts), prices := FactClaims(Currency, facts))
  }

  lemma {:induction false} CleanFactReads(fact: string, rest: seq<string>)
    requires CleanFact(fact)
    ensures Plus(Piece(fact), FigureReading(rest)) == FigureReading([fact] + rest)
  {
    hide SanitizeFact, Has, ReplyTokens, Claims;
    UnchangedHasNoUrl(fact);
    assert ([fact] + rest)[1..] == rest;
  }

  predicate AllClean(facts: seq<string>) { forall f | f in facts :: CleanFact(f) }

  lemma {:induction false} CleanTail(facts: seq<string>)
    requires facts != [] && AllClean(facts)
    ensures CleanFact(facts[0]) && AllClean(facts[1..]) && [facts[0]] + facts[1..] == facts
  {
    hide CleanFact;
  }

  lemma {:induction false} CleanFactsKept(facts: seq<string>)
    requires AllClean(facts)
    ensures SanitizeFacts(facts) == facts
  {
    if facts != [] {
      CleanTail(facts);
      CleanFactsKept(facts[1..]);
      KeptStep(facts);
    }
  }

  lemma {:induction false} KeptStep(facts: seq<string>)
    requires facts != [] && SanitizeFact(facts[0]) == facts[0] != ""
    ensures SanitizeFacts(facts) == [facts[0]] + SanitizeFacts(facts[1..])
  {
    hide SanitizeFact;
  }

  lemma {:induction false} CleanFactsRead(facts: seq<string>)
    requires AllClean(facts)
    ensures Pieces(facts) == FigureReading(facts)
  {
    if facts != [] {
      CleanTail(facts);
      CleanFactsRead(facts[1..]);
      CleanFactReads(facts[0], facts[1..]);
      PiecesStep(facts);
    }
  }

  lemma {:induction false} PiecesStep(facts: seq<string>)
    requires facts != []
    ensures Pieces(facts) == Plus(Piece(facts[0]), Pieces(facts[1..]))
  {}

  lemma {:induction false} NothingPlus(r: Reading)
    ensures Plus(NOTHING, r) == r
  {}

  lemma {:induction false} CleanShown(brief: Brief)
    requires AllClean(brief.facts) && CleanName(brief.merchantName)
    ensures Pieces(Shown(brief)) == FigureReading(brief.facts)
  {
    CleanFactsKept(brief.facts);
    CleanFactsRead(brief.facts);
    NothingPlus(NOTHING);
    if brief.facts == [] {
      assert Pieces([brief.merchantName][1..]) == NOTHING;
    }
  }

  lemma {:induction false} CleanIngredients(brief: Brief)
    requires AllClean(brief.facts)
    requires CleanName(Subject(brief)) && CleanName(brief.merchantName)
    ensures Ingredients(brief) == FigureReading(brief.facts)
  {
    CleanShown(brief);
    AddressedPlainly(Subject(brief));
    NothingPlus(FigureReading(brief.facts));
  }

  lemma {:induction false} FiguresAcceptable(facts: seq<string>, tokens: set<string>, cta: Cta)
    requires |tokens| <= 1 && (cta.NoCta? ==> tokens == {})
    ensures Acceptable(Plus(FigureReading(facts), TokenReading(tokens)), facts, cta)
  {
    assert {} + tokens == tokens;
  }

  /** A brief of clean facts and clean names, without a taboo phrase in the text and with room for
      all but the dispensable end of the CTA phrase, always gets a message: the fallback passes its
      own firewall. */
  lemma {:induction false} CleanBriefsPass(brief: Brief)
    requires AllClean(brief.facts)
    requires CleanName(Subject(brief)) && CleanName(brief.merchantName)
    requires forall t | t in brief.forbiddenTopics :: !Contains(Lower(Compose(brief)), Lower(t))
    requires Roomy(brief)
    ensures Passes(Compose(brief), brief)
  {
    hide Passes, AllClean, CleanName, Ingredients, Subject, Body, FullText, ReplyTokens, Roomy;
    CleanIngredients(brief);
    LeftTokensFew(brief);
    FiguresAcceptable(brief.facts, ReplyTokens(Left(brief)), brief.cta);
    ShortenedPassesIff(brief);
  }

  lemma {:induction false} LeftTokensFew(brief: Brief)
    ensures |ReplyTokens(Left(brief))| <= 1 && (brief.cta.NoCta? ==> ReplyTokens(Left(brief)) == {})
  {
    hide ReplyTokens, Body, CtaText, PrefersHindi, Cut;
    var room := brief.maxChars - |Body(brief)| - 1;
    var n := if room <= 0 then 0 else room;
    CutTokensFew(brief.cta, PrefersHindi(brief), n);
    CutNothing(CtaText(brief.cta, PrefersHindi(brief)));
  }

  /** A fixed set of letters is enough: no digit, rupee sign, slash, bracket or full stop, and one
      letter of "reply" missing. */
  lemma {:induction false} PlainNameIsClean(name: string, k: nat)
    requires Closed(name) && Mute(name, k) && '.' !in name
    ensures CleanName(name)
  {
    hide Mute, Has, Claims, ReplyTokens, Closed, Dangling;
    MutePhrase(name, k);
    ClosedHasNo(name);
    PlainNotDangling(name);
  }

  lemma {:induction false} ClosedHasNo(name: string)
    requires Closed(name)
    ensures '/' !in name && '₹' !in name
  {}

  lemma {:induction false} PlainNotDangling(name: string)
    requires '/' !in name && '.' !in name
    ensures !Dangling(name)
  {
    forall w | w in {"http://", "https://", "www."} && |w| <= |name| ensures Lower(name[|name| - |w|..]) != w {
      var last := name[|name| - 1];
      assert last in name;
      assert Lower(name[|name| - |w|..])[|w| - 1] == LowerChar(last);
    }
  }

  /** Names are not sanitized: an addressee that ends in a bare scheme makes the template fail its
      own firewall, whatever the facts and however long they are, once there is room for the
      comma behind it. */
  lemma {:induction false} DanglingNameFails(brief: Brief)
    requires Dangling(Subject(brief)) && |Prefix(brief.replyIntent)| + |Subject(brief)| < brief.maxChars
    ensures !Passes(Compose(brief), brief)
  {
    hide Passes, Dangling, FactParts, IntroParts, Prefix, Subject, Claims, Has, ReplyTokens, HasExplicitCta, Blank, FactClaims;
    CutFallbackPassesIff(brief);
    AddressIsRead(Parts(brief), brief.maxChars);
  }

  lemma {:induction false} AddressIsRead(parts: seq<Part>, m: nat)
    requires |parts| > 1 && parts[0].Fixed? && parts[1].Addressee? && Dangling(parts[1].text)
    requires |parts[0].text| + |parts[1].text| < m
    ensures CutReading(parts, m).url
  {
    hide Has, Dangling, Claims, ReplyTokens;
    assert parts[1..][0] == parts[1];
  }

  lemma {:induction false} WwwDangles(name: string)
    requires name == "www."
    ensures Dangling(name)
  {
    assert name[0..] == name;
    assert Lower(name) == "www.";
  }

  /** For instance the owner name "www.". */
  lemma {:induction false} FallbackCanFail(brief: Brief)
    requires Subject(brief) == "www." && |Prefix(brief.replyIntent)| + 4 < brief.maxChars
    ensures !Passes(Compose(brief), brief)
  {
    WwwDangles(Subject(brief));
    DanglingNameFails(brief);
  }

  // ---- facts on which the fallback is sure to fail -----------------------------------------------

  /** What no message may say. */
  predicate Refused(r: Reading, facts: seq<string>) {
    r.url || r.placeholder || |r.tokens| > 2 || !(r.percents <= FactClaims(Percent, facts)) || !(r.prices <= FactClaims(Currency, facts))
  }

  /** The addressee, the merchant's name when it is introduced, a fact shown. */
  predicate IsIngredient(brief: Brief, r: Reading) {
    || r == Addressed(Subject(brief))
    || (MerchantIntro(brief) != "" && r == Piece(brief.merchantName))
    || exists f | f in Shown(brief) :: r == Piece(f)
  }

  /** Everything read in a part is read in the whole. */
  predicate Holds(whole: Reading, part: Reading) {
    && (part.url ==> whole.url) && (part.placeholder ==> whole.placeholder)
    && part.percents <= whole.percents && part.prices <= whole.prices && part.tokens <= whole.tokens
  }

  lemma {:induction false} PiecesHold(facts: seq<string>, fact: string)
    requires fact in facts
    ensures Holds(Pieces(facts), Piece(fact))
  {
    hide Piece;
    if fact != facts[0] { PiecesHold(facts[1..], fact); }
  }

  lemma {:induction false} Fewer<T>(a: set<T>, b: set<T>)
    requires a <= b
    ensures |a| <= |b|
  {
    assert b == a + (b - a);
  }

  lemma {:induction false} IngredientHolds(brief: Brief, r: Reading)
    requires IsIngredient(brief, r)
    ensures Holds(Ingredients(brief), r)
  {
    hide Piece, Pieces, Addressed, Shown, Subject, MerchantIntro;
    if f :| f in Shown(brief) && r == Piece(f) { PiecesHold(Shown(brief), f); }
  }

  /** One ingredient with a URL, a placeholder, more than two reply tokens or a figure of no fact
      makes the template fail, whatever else it says. */
  lemma {:induction false} IngredientFails(brief: Brief, r: Reading)
    requires IsIngredient(brief, r) && Refused(r, brief.facts) && Roomy(brief)
    ensures !Passes(Compose(brief), brief)
  {
    hide Passes, Ingredients, IsIngredient, Roomy, Left, Compose, FactClaims, ReplyTokens;
    var whole := Plus(Ingredients(brief), TokenReading(ReplyTokens(Left(brief))));
    IngredientHolds(brief, r);
    Fewer(r.tokens, whole.tokens);
    ShortenedPassesIff(brief);
  }

  lemma {:induction false} SanitizedIsKept(facts: seq<string>, fact: string)
    requires fact in facts && SanitizeFact(fact) != ""
    ensures SanitizeFact(fact) in SanitizeFacts(facts)
  {
    hide SanitizeFact;
    if fact != facts[0] { SanitizedIsKept(facts[1..], fact); }
  }

  /** Sanitizing is one pass: a fact whose kept characters come to make a URL makes a template that
      fits its limit fail. */
  lemma {:induction false} UrlLeftFails(brief: Brief, fact: string)
    requires fact in brief.facts && exists i: nat :: StaysAt(Url, false, Select(KeptOfFact(fact), fact), i)
    requires |FullText(brief)| <= brief.maxChars
    ensures !Passes(Compose(brief), brief)
  {
    hide Passes, SanitizeFact, StaysAt, Select, KeptOfFact, FullText, Roomy, Compose, FactClaims, Claims, ReplyTokens;
    LeftIff(Url, fact);
    SanitizedIsKept(brief.facts, fact);
    FitsIsRoomy(brief);
    assert IsIngredient(brief, Piece(SanitizeFact(fact)));
    IngredientFails(brief, Piece(SanitizeFact(fact)));
  }

  /** For instance the fact `http:/a.com/!`. */
  lemma {:induction false} OneSanitizingFails(brief: Brief)
    requires "http:/a.com/!" in brief.facts && |FullText(brief)| <= brief.maxChars
    ensures !Passes(Compose(brief), brief)
  {
    hide Passes, SanitizeFact, StaysAt, Select, KeptOfFact, FullText, Compose;
    OneSanitizingIsNotEnough("http:/a.com/!");
    LeftIff(Url, "http:/a.com/!");
    UrlLeftFails(brief, "http:/a.com/!");
  }
}
