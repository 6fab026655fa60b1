/** The template's call to action when the length limit cuts it, and the fallback's own firewall. */
module CtaCuts {
  import opened Text
  import opened Scan
  import opened Cuts
  import opened Brief
  import opened ReplyClauses
  import opened Firewall
  import opened Composer
  import opened Readings
  import opened FallbackProofs
  import opened TemplateCuts
  import opened CtaWords

  // ---- cuts inside the call to action ------------------------------------------------------------

  /** What the limit leaves of the fixed phrase. */
  function Left(brief: Brief): string {
    var room := brief.maxChars - |Body(brief)| - 1;
    if room <= 0 then "" else Cut(CtaFallbackText(brief), room)
  }

  lemma {:induction false} TailCut(phrase: string, m: nat)
    ensures Cut(Tail(phrase), m)
      == if m == 0 || phrase == "" then "" else " " + (if m == 1 then "" else Cut(phrase, m - 1))
  {}

  lemma {:induction false} LeftIs(brief: Brief)
    requires |Body(brief)| < brief.maxChars
    ensures Left(brief) == Cut(CtaFallbackText(brief), brief.maxChars - |Body(brief)| - 1)
  {
    CutNothing(CtaFallbackText(brief));
  }

  lemma {:induction false} WholeCut(s: string, m: nat)
    requires |s| <= m
    ensures Cut(s, m) == s
  {}

  lemma {:induction false} CutLength(phrase: string, n: nat, e: nat)
    requires e <= |phrase|
    ensures |Cut(phrase, n)| >= e <==> n >= e
  {}

  /** What the composed text is, in terms of its body and what is left of the phrase. */
  lemma {:induction false} ComposeShape(brief: Brief)
    ensures brief.maxChars <= |Body(brief)| ==> Compose(brief) == Cut(Body(brief), brief.maxChars)
    ensures |Body(brief)| < brief.maxChars ==>
      Compose(brief) == Body(brief) + (if CtaFallbackText(brief) != "" then " " + Left(brief) else "")
  {
    hide Body, FullText, CtaText, PrefersHindi, Left;
    FullTextShape(brief);
    CutBehind(Body(brief), Tail(CtaFallbackText(brief)), brief.maxChars);
    assert Compose(brief) == Cut(FullText(brief), brief.maxChars);
    if |Body(brief)| < brief.maxChars {
      LeftIs(brief);
      TailCut(CtaFallbackText(brief), brief.maxChars - |Body(brief)|);
      CutNothing(CtaFallbackText(brief));
    }
  }

  // ---- when the call to action is left ------------------------------------------------------------

  /** Is there room behind the body for a space and `n` characters of the fixed phrase? */
  predicate RoomFor(brief: Brief, n: nat) { |Body(brief)| + 1 + n <= brief.maxChars }

  /** The action phrase and the option word are each in what the limit leaves of the body, or the
      limit leaves room for the one of the fixed phrase. */
  predicate CtaLeft(brief: Brief) {
    var cta, start := brief.cta, Lower(Cut(Body(brief), brief.maxChars));
    Asks(cta) ==>
      && (HasAction(start) || RoomFor(brief, ActionEnd(cta, PrefersHindi(brief))))
      && (OptionWords(cta).Some? ==>
            HasOption(start, OptionWords(cta).value) || RoomFor(brief, OptionEnd(cta, PrefersHindi(brief))))
  }

  lemma {:induction false} ExplicitBehind(body: string, cta: Cta, hindi: bool, n: nat)
    requires EndsIn(body, {'.', '?', '!'}) && Asks(cta)
    ensures HasExplicitCta(body + (" " + Cut(CtaText(cta, hindi), n)), cta) <==>
      && (HasAction(Lower(body)) || n >= ActionEnd(cta, hindi))
      && (OptionWords(cta).Some? ==> HasOption(Lower(body), OptionWords(cta).value) || n >= OptionEnd(cta, hindi))
  {
    hide HasAction, HasOption, OptionWords, Cut, CtaText, ActionEnd, OptionEnd, Lower;
    var c := Cut(CtaText(cta, hindi), n);
    LowerBehind(body, c);
    PhraseLongEnough(cta, hindi);
    ActionSplit(Lower(body), Lower(c));
    ActionLeft(cta, hindi, n);
    CutLength(CtaText(cta, hindi), n, ActionEnd(cta, hindi));
    CutLength(CtaText(cta, hindi), n, OptionEnd(cta, hindi));
    if OptionWords(cta).Some? {
      OptionSplit(Lower(body), Lower(c), cta);
      OptionLeft(cta, hindi, n);
    }
    ExplicitMeans(body + (" " + c), cta);
  }

  lemma {:induction false} ExplicitMeans(message: string, cta: Cta)
    requires Asks(cta)
    ensures HasExplicitCta(message, cta) <==>
      HasAction(Lower(message)) && (OptionWords(cta).Some? ==> HasOption(Lower(message), OptionWords(cta).value))
  {
    hide HasAction, HasOption;
  }

  lemma {:induction false} LowerBehind(body: string, c: string)
    requires EndsIn(body, {'.', '?', '!'})
    ensures Lower(body + (" " + c)) == Lower(body) + (" " + Lower(c)) && EndsIn(Lower(body), {'.', '?', '!'})
  {
    LowerConcat(body, " " + c);
    LowerConcat(" ", c);
    assert Lower(" ") == " ";
  }

  /** The composed text has the call to action its firewall asks for exactly if that much is left of it. */
  lemma {:induction false} CtaLeftIff(brief: Brief)
    ensures HasExplicitCta(Compose(brief), brief.cta) <==> CtaLeft(brief)
  {
    hide Body, Compose, CtaText, PrefersHindi, HasAction, HasOption, OptionWords, ActionEnd, OptionEnd, HasExplicitCta;
    var cta, hindi := brief.cta, PrefersHindi(brief);
    if Asks(cta) {
      ComposeShape(brief);
      PhraseLongEnough(cta, hindi);
      ExplicitMeans(Compose(brief), cta);
      if |Body(brief)| < brief.maxChars {
        LeftIs(brief);
        BodyEnds(brief);
        WholeCut(Body(brief), brief.maxChars);
        ExplicitBehind(Body(brief), cta, hindi, brief.maxChars - |Body(brief)| - 1);
      }
    } else {
      NothingAsked(Compose(brief), cta);
    }
  }

  lemma {:induction false} NothingAsked(message: string, cta: Cta)
    requires !Asks(cta)
    ensures HasExplicitCta(message, cta)
  {}

  // ---- when anything is left ----------------------------------------------------------------------

  /** A visible character of the addressee is left, or one of the fixed wording around it. */
  predicate VisibleLeft(brief: Brief) {
    && brief.maxChars > 0
    && (brief.replyIntent.Some? || |Subject(brief)| < brief.maxChars || !Blank(Cut(Subject(brief), brief.maxChars)))
  }

  lemma {:induction false} VisibleAt(s: string, i: nat)
    requires i < |s| && !IsSpace(s[i])
    ensures !Blank(s)
  {
    BlankIff(s);
  }

  /** The composed text opens with its prefix, or without one with the addressee and a comma. */
  lemma {:induction false} ComposeOpens(brief: Brief)
    ensures brief.replyIntent.Some? && brief.maxChars > 0 ==> Compose(brief) != "" && IsLetter(Compose(brief)[0])
    ensures brief.replyIntent == None && |Subject(brief)| < brief.maxChars ==>
      |Subject(brief)| < |Compose(brief)| && Compose(brief)[|Subject(brief)|] == ','
    ensures brief.replyIntent == None && brief.maxChars <= |Subject(brief)| ==>
      Compose(brief) == Cut(Subject(brief), brief.maxChars)
  {
    hide FullText, FactText, Terminal, Tail, MerchantIntro, Opener, Subject, CtaText, PrefersHindi;
    var behind := MerchantIntro(brief) + (Opener(brief) + (FactText(brief) + Terminal(FactText(brief))));
    FullTextShape(brief);
    assert Compose(brief) == Cut(FullText(brief), brief.maxChars);
    Opens(Prefix(brief.replyIntent), Subject(brief), ", ", behind, Tail(CtaFallbackText(brief)));
  }

  lemma {:induction false} Opens(p: string, s: string, c: string, b: string, e: string)
    ensures var t := (p + (s + (c + b))) + e;
      && (p != "" ==> t[0] == p[0])
      && (p == "" && c != "" ==> t[|s|] == c[0])
      && (p == "" ==> t[..|s|] == s)
  {}

  lemma {:induction false} VisibleLeftIff(brief: Brief)
    ensures !Blank(Compose(brief)) <==> VisibleLeft(brief)
  {
    hide Compose, Subject, Blank;
    ComposeOpens(brief);
    if brief.maxChars == 0 {
      NothingComposed(brief);
    } else if brief.replyIntent.Some? {
      VisibleAt(Compose(brief), 0);
    } else if |Subject(brief)| < brief.maxChars {
      VisibleAt(Compose(brief), |Subject(brief)|);
    }
  }

  lemma {:induction false} NothingComposed(brief: Brief)
    requires brief.maxChars == 0
    ensures Compose(brief) == "" && Blank("")
  {}

  // ---- the fallback and its firewall --------------------------------------------------------------

  /** However long the template is and wherever its limit cuts it, it passes its own firewall exactly
      if something visible is left, and the words its call to action needs, the parts before the cut
      and the beginning of the one under it read acceptably, and no taboo phrase occurs in the text. */
  lemma {:induction false} CutFallbackPassesIff(brief: Brief)
    ensures Passes(Compose(brief), brief) <==>
      && VisibleLeft(brief) && CtaLeft(brief)
      && Acceptable(CutReading(Parts(brief), brief.maxChars), brief.facts, brief.cta)
      && forall t | t in brief.forbiddenTopics :: !Contains(Lower(Compose(brief)), Lower(t))
  {
    hide Compose, Parts, CutReading, Has, Blank, HasExplicitCta, Claims, FactClaims, ReplyTokens, Passes, VisibleLeft, CtaLeft;
    ComposeReads(brief);
    ComposeLength(brief);
    VisibleLeftIff(brief);
    CtaLeftIff(brief);
    PassesIff(Compose(brief), brief);
  }

  lemma {:induction false} ComposeLength(brief: Brief)
    ensures |Compose(brief)| <= brief.maxChars
  {
    hide FullText;
  }

  // ---- with the whole body ------------------------------------------------------------------------

  lemma {:induction false} LeftReads(brief: Brief)
    ensures Closed(Left(brief)) && Read(Left(brief)) == TokenReading(ReplyTokens(Left(brief)))
    ensures Left(brief) != "" ==> IsLetter(Left(brief)[0])
  {
    hide Closed, Read, ReplyTokens, Body, CtaText, PrefersHindi;
    var phrase := CtaFallbackText(brief);
    CtaClosed(brief.cta, PrefersHindi(brief));
    CtaLetter(brief.cta, PrefersHindi(brief));
    NothingClosed();
    if brief.maxChars > |Body(brief)| + 1 { ClosedCut(phrase, brief.maxChars - |Body(brief)| - 1); }
    ClosedReads(Left(brief));
  }

  /** If the body is whole, the text reads as its ingredients and what is left of the phrase. */
  lemma {:induction false} WholeBodyReads(brief: Brief)
    requires |Body(brief)| <= brief.maxChars
    ensures Read(Compose(brief)) == Plus(Ingredients(brief), TokenReading(ReplyTokens(Left(brief))))
  {
    hide Closed, Read, Body, FullText, Ingredients, CtaText, PrefersHindi, Plain, Tail, ReplyTokens;
    var phrase, room := CtaFallbackText(brief), brief.maxChars - |Body(brief)|;
    FullTextShape(brief);
    CutBehind(Body(brief), Tail(phrase), brief.maxChars);
    CutNothing(Tail(phrase));
    TailCut(phrase, room);
    BodyReads(brief);
    LeftReads(brief);
    if room == 0 || phrase == "" {
      EmptyReads();
      PlusNothing(Ingredients(brief));
      assert Body(brief) + "" == Body(brief);
      assert phrase == "" ==> Left(brief) == "";
      WholeCut(Body(brief), brief.maxChars);
    } else {
      BodyEnds(brief);
      CommaPlain();
      GluePlain(" ", Left(brief));
      GlueSentence(Body(brief), " " + Left(brief));
    }
    assert Compose(brief) == Cut(FullText(brief), brief.maxChars);
  }

  /** The limit cuts nothing but, perhaps, the phrase behind the words it needs. */
  predicate Roomy(brief: Brief) {
    |Body(brief)| <= brief.maxChars && (Asks(brief.cta) ==> RoomFor(brief, Needed(brief.cta, PrefersHindi(brief))))
  }

  /** With that much room the call to action is left, whatever the body says. */
  lemma {:induction false} CtaSurvives(brief: Brief)
    requires Asks(brief.cta) ==> RoomFor(brief, Needed(brief.cta, PrefersHindi(brief)))
    ensures HasExplicitCta(Compose(brief), brief.cta)
  {
    hide Body, PrefersHindi, HasAction, HasOption, Lower, HasExplicitCta, ActionEnd, OptionEnd, OptionWords, Compose, Cut;
    CtaLeftIff(brief);
  }

  /** As long as the limit leaves the words the call to action needs, the template passes exactly if
      its ingredients do together with what is left of the phrase, and no taboo phrase occurs. */
  lemma {:induction false} ShortenedPassesIff(brief: Brief)
    requires Roomy(brief)
    ensures Passes(Compose(brief), brief) <==>
      && Acceptable(Plus(Ingredients(brief), TokenReading(ReplyTokens(Left(brief)))), brief.facts, brief.cta)
      && forall t | t in brief.forbiddenTopics :: !Contains(Lower(Compose(brief)), Lower(t))
  {
    hide Passes, Has, Claims, FactClaims, ReplyTokens, HasExplicitCta, Body, FullText, Ingredients, Left, Blank;
    WholeBodyReads(brief);
    CtaSurvives(brief);
    BodyVisible(brief);
    PassesIff(Compose(brief), brief);
  }

  /** A text that fits is not cut at all. */
  lemma {:induction false} FitsIsRoomy(brief: Brief)
    requires |FullText(brief)| <= brief.maxChars
    ensures Roomy(brief) && Compose(brief) == FullText(brief)
  {
    hide Body, FullText, PrefersHindi, CtaText;
    FullTextShape(brief);
    PhraseLongEnough(brief.cta, PrefersHindi(brief));
  }

  lemma {:induction false} BodyVisible(brief: Brief)
    requires |Body(brief)| <= brief.maxChars
    ensures !Blank(Compose(brief)) && |Compose(brief)| <= brief.maxChars
  {
    hide Body, FullText, Blank, Tail;
    FullTextShape(brief);
    BodyEnds(brief);
    CutBehind(Body(brief), Tail(CtaFallbackText(brief)), brief.maxChars);
    var behind := if |Body(brief)| < brief.maxChars then Cut(Tail(CtaFallbackText(brief)), brief.maxChars - |Body(brief)|) else "";
    assert Body(brief) + "" == Body(brief);
    WholeCut(Body(brief), brief.maxChars);
    assert Compose(brief) == Cut(FullText(brief), brief.maxChars) == Body(brief) + behind;
    NotBlank(Body(brief), behind);
  }

  lemma {:induction false} MuteWithin(s: string, n: nat, k: nat)
    requires Mute(s, k)
    ensures Mute(Cut(s, n), k)
  {
    forall c | c in Cut(s, n) ensures c in s {}
  }

  lemma {:induction false} MuteCut(s: string, n: nat, k: nat)
    requires Mute(s, k)
    ensures ReplyTokens(Cut(s, n)) == {}
  {
    hide Mute, ReplyTokens;
    MuteWithin(s, n, k);
    MuteTokens(Cut(s, n), k);
  }

  /** "Reply ", or less of it, asks for nothing. */
  lemma {:induction false} BareReply(c: string)
    requires |c| < 7 && (c != "" ==> Mute(c[1..], 0))
    ensures ReplyTokens(c) == {}
  {
    hide FindAll, Mute;
    if c == "" {
      FindsNothing();
    } else {
      NoClause(c);
      FindAllNone(ReplyClause, false, c);
      MuteNoMatch(IsWord(c[0]), c[1..], 0);
    }
  }

  lemma {:induction false} NoClause(c: string)
    requires |c| < 7
    ensures MatchAt(ReplyClause, false, c) == None
  {}

  lemma {:induction false} FindsNothing()
    ensures FindAll(ReplyClause, false, "") == []
  {}

  lemma {:induction false} FirstLettersMute()
    ensures Mute("eply ", 0)
  {}

  lemma {:induction false} NoOrBehind(t: string)
    requires t != "" ==> t[0] == ' '
    requires |t| > 1 ==> !IsSpace(t[1]) && LowerChar(t[1]) != 'o'
    ensures OrStep(t).len == 0
  {
    if |t| > 1 { NoOrStep(t); } else { assert t != "" ==> t[1..] == ""; }
  }

  /** A phrase `Reply w…` whose rest neither continues the clause nor holds another one. */
  lemma {:induction false} OneToken(w: string, t: string, k: nat)
    requires IsToken(w) && Mute(t, k) && (t != "" ==> t[0] == ' ')
    requires |t| > 1 ==> !IsSpace(t[1]) && LowerChar(t[1]) != 'o'
    ensures |ReplyTokens("Reply" + (" " + (w + t)))| == 1
  {
    hide Mute, IsToken, AfterWord, OrStep, FindAll, MatchAt, EndsInWord, ReplyTokens;
    var s := "Reply" + (" " + (w + t));
    AfterWordOffer("Reply", w, t);
    NoOrBehind(t);
    LoneClause(s, Token(6 + |w|, w), t);
    MuteNoMatch(EndsInWord(false, s[..6 + |w|]), t, k);
  }

  lemma {:induction false} PhraseShape(w: string, t: string, n: nat)
    ensures var c := Cut("Reply" + (" " + (w + t)), n);
      if n <= 6 then c == "Reply "[..n]
      else if n <= 6 + |w| then c == "Reply" + (" " + (w[..n - 6] + ""))
      else c == "Reply" + (" " + (w + Cut(t, n - 6 - |w|)))
  {
    CutBehind("Reply", " " + (w + t), n);
    if n > 5 { CutBehind(" ", w + t, n - 5); }
    if n > 6 {
      CutBehind(w, t, n - 6);
      assert n <= 6 + |w| ==> Cut(w, n - 6) + "" == w[..n - 6];
    } else {
      ShortShape(w + t, n);
    }
  }

  lemma {:induction false} ShortShape(rest: string, n: nat)
    requires n <= 6
    ensures Cut("Reply" + (" " + rest), n) == "Reply "[..n]
  {
    assert "Reply" + (" " + rest) == "Reply " + rest;
    assert ("Reply " + rest)[..n] == "Reply "[..n];
  }

  /** However it is cut, such a phrase asks for one answer at most. */
  lemma {:induction false} PhraseCut(w: string, t: string, n: nat, k: nat)
    requires IsToken(w) && Mute(t, k) && |t| > 1 && t[0] == ' ' && !IsSpace(t[1]) && LowerChar(t[1]) != 'o'
    ensures |ReplyTokens(Cut("Reply" + (" " + (w + t)), n))| <= 1
  {
    hide Mute, ReplyTokens;
    PhraseShape(w, t, n);
    if n <= 6 {
      FirstLettersMute();
      if n > 0 {
        MuteWithin("eply ", n - 1, 0);
        assert "Reply "[1..] == "eply ";
        assert "Reply "[..n][1..] == Cut("eply ", n - 1);
      }
      BareReply("Reply "[..n]);
    } else if n <= 6 + |w| {
      EmptyMute();
      forall c | c in w[..n - 6] ensures IsAlnum(c) { assert c in w; }
      OneToken(w[..n - 6], "", 0);
    } else {
      MuteWithin(t, n - 6 - |w|, k);
      OneToken(w, Cut(t, n - 6 - |w|), k);
    }
  }

  lemma {:induction false} EmptyMute()
    ensures Mute("", 0)
  {}

  /** The same for every fixed phrase. */
  lemma {:induction false} CutTokensFew(cta: Cta, hindi: bool, n: nat)
    ensures |ReplyTokens(Cut(CtaText(cta, hindi), n))| <= 1
    ensures cta.NoCta? ==> ReplyTokens(Cut(CtaText(cta, hindi), n)) == {}
  {
    hide Mute, ReplyTokens, IsToken, Cut;
    match cta
    case OpenEnded => if hindi { BataAgarMute(); MuteCut(CtaText(cta, hindi), n, 2); } else { WantMute(); MuteCut(CtaText(cta, hindi), n, 2); }
    case BinaryYesNo =>
      if hindi {
        HaanMute();
        MuteCut(CtaText(cta, hindi), n, 2);
      } else {
        YesShape();
        YesRest();
        PhraseCut("YES", " if you'd like this.", n, 2);
      }
    case BinaryConfirmCancel =>
      ConfirmShape();
      ConfirmRest();
      PhraseCut("CONFIRM", " to proceed.", n, 3);
    case MultiChoiceSlot =>
      if hindi {
        ApnaMute();
        MuteCut(CtaText(cta, hindi), n, 3);
      } else {
        WithShape();
        WithToken();
        WithRest();
        PhraseCut("with", " your preferred option.", n, 3);
      }
    case NoCta =>
      EmptyMute();
      MuteCut("", n, 0);
  }

  /** A cut before the call to action loses it: a brief may be acceptable in all its parts and its
      fallback still fails, because its text fills the limit. */
  lemma {:induction false} FullBodyLosesCta(brief: Brief)
    requires Asks(brief.cta)
    requires brief.maxChars <= |Body(brief)| && !HasAction(Lower(Body(brief)[..brief.maxChars]))
    ensures !Passes(Compose(brief), brief)
  {
    hide Body, Compose, HasAction, HasOption, OptionWords, ActionEnd, OptionEnd, PrefersHindi, Passes, Acceptable, VisibleLeft, CutReading, Parts;
    CutFallbackPassesIff(brief);
    assert Cut(Body(brief), brief.maxChars) == Body(brief)[..brief.maxChars];
  }

  /** A merchant's name alone can do that: every action phrase starts with r, s, l or b. */
  lemma {:induction false} LongNameLosesCta(brief: Brief)
    requires Asks(brief.cta) && brief.replyIntent == None
    requires !Truthy(brief.customerName) && !Truthy(brief.ownerFirstName) && |brief.merchantName| >= brief.maxChars
    requires forall c | c in brief.merchantName :: LowerChar(c) !in {'r', 's', 'l', 'b'}
    ensures !Passes(Compose(brief), brief)
  {
    hide Passes, HasAction, FactText, Terminal, MerchantIntro, Opener;
    var name, m := brief.merchantName, brief.maxChars;
    var behind := ", " + (MerchantIntro(brief) + (Opener(brief) + (FactText(brief) + Terminal(FactText(brief)))));
    assert Body(brief) == name + behind by { assert "" + (name + behind) == name + behind; }
    assert (name + behind)[..m] == name[..m];
    forall c | c in Lower(name[..m]) ensures c !in {'r', 's', 'l', 'b'} {
      var i :| 0 <= i < m && Lower(name[..m])[i] == c;
      assert name[i] in name;
    }
    if HasAction(Lower(name[..m])) { ActionHasLetter(Lower(name[..m])); }
    FullBodyLosesCta(brief);
  }

  lemma {:induction false} ActionHasLetter(lowered: string)
    requires HasAction(lowered)
    ensures exists c :: c in lowered && c in {'r', 's', 'l', 'b'}
  {
    var p :| p in ACTION_PHRASES && Contains(lowered, p);
    var i :| 0 <= i <= |lowered| - |p| && OccursAt(lowered, p, i);
    assert p[0] in {'r', 's', 'l', 'b'};
    assert lowered[i..i + |p|][0] == lowered[i];
    assert lowered[i] in lowered;
  }
}
