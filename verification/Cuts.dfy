/** Where a text may be cut without a pattern noticing.

    The composer glues facts, names and fixed phrases together. These lemmas say, per
    pattern, at which joints the matches of the whole are exactly the matches of the
    two parts. */
module Cuts {
  import opened Text
  import opened Scan

  /** A joint that opens with a semicolon, a comma, or a full stop closing a sentence. */
  predicate MarkLed(b: string) {
    |b| > 0 && (b[0] == ';' || b[0] == ',' || (b[0] == '.' && (|b| == 1 || b[1] == ' ')))
  }

  /** A joint that opens with a space, and a letter if anything follows. */
  predicate SpaceLed(b: string) { b != "" && b[0] == ' ' && (|b| > 1 ==> IsLetter(b[1])) }

  predicate EndsIn(a: string, cs: set<char>) { a != "" && a[|a| - 1] in cs }

  /** Does `a` end in a bare `http://`, `https://` or `www.` that the next visible
      character would turn into a URL? */
  predicate Dangling(a: string) {
    exists w | w in {"http://", "https://", "www."} :: |w| <= |a| && Lower(a[|a| - |w|..]) == w
  }

  predicate NumberPattern(p: Pattern) { p.Percent? || p.Currency? }

  lemma {:induction false} RunConcat(k: Class, a: string, b: string)
    ensures Run(k, a) < |a| ==> Run(k, a + b) == Run(k, a)
    ensures Run(k, a) == |a| ==> Run(k, a + b) == |a| + Run(k, b)
  {
    if a == "" {
      assert a + b == b;
    } else {
      assert (a + b)[1..] == a[1..] + b;
      RunConcat(k, a[1..], b);
    }
  }

  lemma {:induction false} StartsConcat(a: string, b: string, word: string)
    ensures |word| <= |a| ==> (Starts(a + b, word) <==> Starts(a, word))
    ensures |a| < |word| && Starts(a + b, word) ==> b != "" && LowerChar(b[0]) == word[|a|]
  {
    if |word| <= |a| {
      assert (a + b)[..|word|] == a[..|word|];
    } else if Starts(a + b, word) {
      assert Lower((a + b)[..|word|])[|a|] == word[|a|];
    }
  }

  /** Neither a digit nor a percent sign comes next in `b`, even past white space. */
  predicate Quiet(b: string) {
    && b != "" && !IsDigit(b[0])
    && (b[0] == '.' && |b| > 1 ==> !IsDigit(b[1]))
    && (Run(Space, b) < |b| ==> !IsDigit(b[Run(Space, b)]) && b[Run(Space, b)] != '%')
  }

  lemma {:induction false} JointsAreQuiet(b: string)
    requires MarkLed(b) || SpaceLed(b)
    ensures Quiet(b)
  {
    if SpaceLed(b) { assert Run(Space, b[1..]) == 0; }
  }

  lemma {:induction false} FractionConcat(a: string, b: string)
    requires Quiet(b)
    ensures Fraction(a + b) == Fraction(a)
  {
    if |a| >= 2 {
      assert (a + b)[1..] == a[1..] + b;
      RunConcat(Digit, a[1..], b);
    }
  }

  // ---- percentages and prices -------------------------------------------------------

  lemma {:induction false} DropConcat(a: string, b: string, n: nat)
    requires n <= |a|
    ensures (a + b)[n..] == a[n..] + b && (a + b)[..n] == a[..n]
  {}

  lemma {:induction false} DecimalConcat(a: string, b: string)
    requires Quiet(b)
    ensures Decimal(a + b) == Decimal(a)
  {
    RunConcat(Digit, a, b);
    DropConcat(a, b, Run(Digit, a));
    FractionConcat(a[Run(Digit, a)..], b);
  }

  lemma {:induction false} PercentSignConcat(a: string, b: string)
    requires Quiet(b)
    ensures PercentSign(a + b) == PercentSign(a)
  {
    RunConcat(Space, a, b);
  }

  lemma {:induction false} PercentConcat(a: string, b: string)
    requires Quiet(b)
    ensures PercentAt(a + b) == PercentAt(a)
  {
    DecimalConcat(a, b);
    DropConcat(a, b, Decimal(a));
    PercentSignConcat(a[Decimal(a)..], b);
  }

  lemma {:induction false} AmountConcat(a: string, b: string)
    requires Quiet(b) && b[0] != ','
    ensures Amount(a + b) == Amount(a)
  {
    if a != "" {
      RunConcat(DigitComma, a, b);
      DropConcat(a, b, Run(DigitComma, a));
      FractionConcat(a[Run(DigitComma, a)..], b);
    }
  }

  lemma {:induction false} PriceConcat(a: string, b: string)
    requires Quiet(b) && b[0] != ','
    ensures Price(a + b) == Price(a)
  {
    var w := Run(Space, a);
    RunConcat(Space, a, b);
    if w < |a| {
      DropConcat(a, b, w);
      AmountConcat(a[w..], b);
      DropConcat(a[w..], b, Amount(a[w..]));
    } else {
      assert (a + b)[w + Run(Space, b)..] == b[Run(Space, b)..];
    }
  }

  lemma {:induction false} CurrencyConcat(a: string, b: string)
    requires a != "" && Quiet(b) && (b[0] == ',' ==> '₹' !in a)
    ensures CurrencyAt(a + b) == CurrencyAt(a)
  {
    assert a[0] in a;
    if a[0] == '₹' {
      DropConcat(a, b, 1);
      PriceConcat(a[1..], b);
    }
  }

  lemma {:induction false} FractionComma(a: string, b: string)
    requires (a == "" || EndsIn(a, {','})) && b != "" && b[0] == ' '
    ensures Fraction(a + b) == Fraction(a)
  {
    if |a| >= 2 {
      DropConcat(a, b, 1);
      RunConcat(Digit, a[1..], b);
    }
  }

  lemma {:induction false} AmountComma(a: string, b: string)
    requires EndsIn(a, {','}) && b != "" && b[0] == ' '
    ensures Amount(a + b) == Amount(a)
  {
    RunConcat(DigitComma, a, b);
    var d := Run(DigitComma, a);
    DropConcat(a, b, d);
    FractionComma(a[d..], b);
  }

  lemma {:induction false} PriceComma(a: string, b: string)
    requires EndsIn(a, {','}) && b != "" && b[0] == ' '
    ensures Price(a + b) == Price(a)
  {
    hide Amount;
    RunConcat(Space, a, b);
    RunIs(Space, a);
    var w := Run(Space, a);
    DropConcat(a, b, w);
    AmountComma(a[w..], b);
    DropConcat(a[w..], b, Amount(a[w..]));
  }

  /** A price that runs up to a comma ends there when a space follows. */
  lemma {:induction false} CurrencyComma(a: string, b: string)
    requires EndsIn(a, {','}) && b != "" && b[0] == ' '
    ensures CurrencyAt(a + b) == CurrencyAt(a)
  {
    hide Price;
    if a[0] == '₹' {
      DropConcat(a, b, 1);
      PriceComma(a[1..], b);
    }
  }

  // ---- reply clauses -----------------------------------------------------------------

  /** `a` ends in a sentence mark and `b` opens with a space, or `b` opens with a mark:
      no word and no run of white space reaches across. */
  predicate Hard(a: string, b: string) {
    MarkLed(b) || (EndsIn(a, {'.', '?', '!'}) && b != "" && b[0] == ' ')
  }

  lemma {:induction false} RunStopsAtMark(k: Class, a: string)
    requires k.Space? || k.Alnum?
    requires EndsIn(a, {'.', '?', '!'})
    ensures Run(k, a) < |a|
  {
    RunIs(k, a);
  }

  lemma {:induction false} HardRun(k: Class, a: string, b: string)
    requires k.Space? || k.Alnum?
    requires Hard(a, b)
    ensures Run(k, a + b) == Run(k, a)
  {
    RunConcat(k, a, b);
    if !MarkLed(b) { RunStopsAtMark(k, a); }
  }

  lemma {:induction false} HardStarts(a: string, b: string, word: string)
    requires Hard(a, b) && word in {"or", "reply"}
    ensures Starts(a + b, word) <==> Starts(a, word)
    ensures Starts(a, word) ==> a[|word|..] != "" || MarkLed(b)
  {
    StartsConcat(a, b, word);
    if Starts(a, word) && |a| == |word| {
      assert LowerChar(a[|a| - 1]) == Lower(a[..|word|])[|word| - 1];
    }
  }

  lemma {:induction false} SpacedWordHard(a: string, b: string)
    requires Hard(a, b)
    ensures SpacedWord(a + b) == SpacedWord(a)
  {
    HardRun(Space, a, b);
    var w := Run(Space, a);
    DropConcat(a, b, w);
    if !MarkLed(b) { RunStopsAtMark(Space, a); }
    HardRun(Alnum, a[w..], b);
    DropConcat(a[w..], b, Run(Alnum, a[w..]));
  }

  lemma {:induction false} AfterWordHard(a: string, b: string, word: string)
    requires Hard(a, b) && word in {"or", "reply"}
    ensures AfterWord(a + b, word) == AfterWord(a, word)
  {
    HardStarts(a, b, word);
    if Starts(a, word) {
      DropConcat(a, b, |word|);
      SpacedWordHard(a[|word|..], b);
    }
  }

  lemma {:induction false} OrStepHard(a: string, b: string)
    requires Hard(a, b)
    ensures OrStep(a + b) == OrStep(a)
  {
    HardRun(Space, a, b);
    DropConcat(a, b, Run(Space, a));
    if !MarkLed(b) { RunStopsAtMark(Space, a); }
    AfterWordHard(a[Run(Space, a)..], b, "or");
  }

  /** A step of an or-chain ends in an alphanumeric character. */
  lemma {:induction false} OrStepEnd(a: string)
    requires EndsIn(a, {'.', '?', '!'})
    ensures OrStep(a).len < |a|
  {
    var c := a[Run(Space, a)..];
    if OrStep(a).len > 0 {
      RunStopsAtMark(Space, a);
      var d := c[2..];
      if d != "" {
        RunStopsAtMark(Space, d);
        RunStopsAtMark(Alnum, d[Run(Space, d)..]);
      }
    }
  }

  lemma {:induction false} OrChainHard(a: string, b: string)
    requires Hard(a, b)
    ensures OrChain(a + b) == OrChain(a)
    decreases |a|
  {
    OrStepHard(a, b);
    var n := OrStep(a).len;
    if n > 0 {
      DropConcat(a, b, n);
      if !MarkLed(b) { OrStepEnd(a); }
      OrChainHard(a[n..], b);
    }
  }

  lemma {:induction false} OrTailHard(a: string, b: string)
    requires Hard(a, b)
    ensures OrTail(a + b) == OrTail(a)
  {
    OrChainHard(a, b);
    DropConcat(a, b, OrChain(a));
  }

  lemma {:induction false} ReplyAtHard(a: string, b: string)
    requires Hard(a, b)
    ensures ReplyAt(a + b) == ReplyAt(a)
  {
    AfterWordHard(a, b, "reply");
    var n := AfterWord(a, "reply").len;
    if n > 0 {
      DropConcat(a, b, n);
      if !MarkLed(b) { AfterWordEnd(a, "reply"); }
      OrTailHard(a[n..], b);
    }
  }

  lemma {:induction false} AfterWordEnd(a: string, word: string)
    requires EndsIn(a, {'.', '?', '!'})
    ensures AfterWord(a, word).len < |a|
  {
    if AfterWord(a, word).len > 0 {
      var d := a[|word|..];
      RunStopsAtMark(Space, d);
      RunStopsAtMark(Alnum, d[Run(Space, d)..]);
    }
  }

  // ---- matches of a glued text ---------------------------------------------------------

  /** A fixed phrase in which no match of `p` starts, whatever follows it. */
  predicate Inert(p: Pattern, a: string) {
    match p
    case ReplyClause => EndsIn(a, {' '}) && 'p' !in a && 'P' !in a
    case _ => forall c | c in a :: !IsDigit(c) && c != '₹'
  }

  /** Joints at which `FindAll` splits. */
  predicate FindCut(p: Pattern, a: string, b: string) {
    || b == ""
    || a == ""
    || Inert(p, a)
    || (p.Percent? && (MarkLed(b) || SpaceLed(b)))
    || (p.Currency? && (MarkLed(b) || SpaceLed(b)) && (b[0] == ',' ==> '₹' !in a))
    || (p.Currency? && EndsIn(a, {','}) && b[0] == ' ')
    || (NumberPattern(p) && Quiet(b) && (b[0] == ',' ==> '₹' !in a))
    || (p.ReplyClause? && Hard(a, b))
  }

  lemma {:induction false} StartsChar(s: string, word: string, k: nat)
    requires Starts(s, word) && k < |word|
    ensures LowerChar(s[k]) == word[k]
  {
    assert Lower(s[..|word|])[k] == word[k];
  }

  lemma {:induction false} Drops(s: string, a: nat, b: nat)
    requires a + b <= |s|
    ensures s[a..][b..] == s[a + b..]
  {}

  lemma {:induction false} StartsCharIf(s: string, word: string, k: nat)
    requires k < |word|
    ensures Starts(s, word) ==> LowerChar(s[k]) == word[k] && s[k] in s
  {
    if Starts(s, word) { StartsChar(s, word, k); }
  }

  lemma {:induction false} InertReply(a: string, b: string)
    requires Inert(ReplyClause, a)
    ensures !Starts(a + b, "reply")
  {
    if Starts(a + b, "reply") {
      if |a| >= 3 {
        assert a[2] in a;
        StartsChar(a + b, "reply", 2);
      } else {
        StartsChar(a + b, "reply", |a| - 1);
      }
    }
  }

  lemma {:induction false} InertMatch(p: Pattern, afterWord: bool, a: string, b: string)
    requires p.Percent? || p.Currency? || p.ReplyClause?
    requires a != "" && Inert(p, a)
    ensures MatchAt(p, afterWord, a + b) == None
  {
    assert a[0] in a;
    if p.ReplyClause? { InertReply(a, b); }
  }

  lemma {:induction false} LocalMatch(p: Pattern, afterWord: bool, a: string, b: string)
    requires p.Percent? || p.Currency? || p.ReplyClause?
    requires a != "" && FindCut(p, a, b)
    ensures MatchAt(p, afterWord, a + b) == MatchAt(p, afterWord, a)
  {
    if b == "" {
      assert a + b == a;
    } else if Inert(p, a) {
      InertMatch(p, afterWord, a, b);
      InertMatch(p, afterWord, a, "");
      assert a + "" == a;
    } else if p.ReplyClause? {
      ReplyAtHard(a, b);
    } else {
      if MarkLed(b) || SpaceLed(b) { JointsAreQuiet(b); }
      if p.Percent? {
        PercentConcat(a, b);
      } else if EndsIn(a, {','}) && b[0] == ' ' {
        CurrencyComma(a, b);
      } else {
        CurrencyConcat(a, b);
      }
    }
  }

  lemma {:induction false} FindCutSuffix(p: Pattern, a: string, b: string, n: nat)
    requires n <= |a| && FindCut(p, a, b)
    ensures FindCut(p, a[n..], b)
  {
    forall c | c in a[n..] ensures c in a {}
  }

  lemma {:induction false} EndsInWordDrop(afterWord: bool, a: string, n: nat)
    requires n <= |a|
    ensures EndsInWord(EndsInWord(afterWord, a[..n]), a[n..]) == EndsInWord(afterWord, a)
  {}

  function Advance(p: Pattern, afterWord: bool, s: string): (n: nat)
    requires s != ""
    ensures 1 <= n <= |s|
  {
    match MatchAt(p, afterWord, s)
    case Some(m) => m.len
    case None => 1
  }

  lemma {:induction false} FindAllStep(p: Pattern, afterWord: bool, s: string)
    requires s != ""
    ensures var n := Advance(p, afterWord, s);
      FindAll(p, afterWord, s)
      == (match MatchAt(p, afterWord, s) case Some(m) => [m] case None => []) + FindAll(p, EndsInWord(afterWord, s[..n]), s[n..])
  {
    assert s[..1] == [s[0]];
  }

  lemma {:induction false} Assoc<T>(x: seq<T>, y: seq<T>, z: seq<T>)
    ensures x + (y + z) == x + y + z
  {}

  /** The matches of a glued text are those of its parts, in order. */
  lemma {:induction false} FindAllSplit(p: Pattern, afterWord: bool, a: string, b: string)
    requires p.Percent? || p.Currency? || p.ReplyClause?
    requires FindCut(p, a, b)
    ensures FindAll(p, afterWord, a + b) == FindAll(p, afterWord, a) + FindAll(p, EndsInWord(afterWord, a), b)
    decreases |a|
  {
    if a == "" {
      assert a + b == b;
    } else {
      LocalMatch(p, afterWord, a, b);
      var n := Advance(p, afterWord, a);
      FindAllStep(p, afterWord, a);
      FindAllStep(p, afterWord, a + b);
      DropConcat(a, b, n);
      FindCutSuffix(p, a, b, n);
      EndsInWordDrop(afterWord, a, n);
      var aw := EndsInWord(afterWord, a[..n]);
      FindAllSplit(p, aw, a[n..], b);
      var head := match MatchAt(p, afterWord, a) case Some(m) => [m] case None => [];
      Assoc(head, FindAll(p, aw, a[n..]), FindAll(p, EndsInWord(afterWord, a), b));
    }
  }

  /** What precedes a text that does not open with a word character is irrelevant. */
  lemma {:induction false} FindAllFresh(p: Pattern, b: string)
    requires p.Percent? || p.Currency? || (p.ReplyClause? && (b == "" || !IsWord(b[0])))
    ensures FindAll(p, true, b) == FindAll(p, false, b)
    decreases |b|
  {
    if b != "" {
      assert p.ReplyClause? ==> !Starts(b, "reply");
      assert MatchAt(p, true, b) == MatchAt(p, false, b);
      if MatchAt(p, true, b) == None { assert FindAll(p, IsWord(b[0]), b[1..]) == FindAll(p, IsWord(b[0]), b[1..]); }
    }
  }

  // ---- removing matches ------------------------------------------------------------------

  lemma {:induction false} SubStep(p: Pattern, afterWord: bool, s: string)
    requires s != "" && MatchAt(p, afterWord, s) == None
    ensures Sub(p, afterWord, s) == [s[0]] + Sub(p, IsWord(s[0]), s[1..])
    ensures Has(p, afterWord, s) <==> Has(p, IsWord(s[0]), s[1..])
  {}

  lemma {:induction false} SubHere(p: Pattern, afterWord: bool, s: string)
    requires s != "" && MatchAt(p, afterWord, s).Some?
    ensures |Sub(p, afterWord, s)| < |s| && Has(p, afterWord, s)
  {}

  /** Cutting matches out shortens a text, unless there is none. */
  lemma {:induction false} SubShortens(p: Pattern, afterWord: bool, s: string)
    ensures Has(p, afterWord, s) ==> |Sub(p, afterWord, s)| < |s|
    ensures !Has(p, afterWord, s) ==> Sub(p, afterWord, s) == s
    decreases |s|
  {
    if s == "" {
    } else if MatchAt(p, afterWord, s) == None {
      SubStep(p, afterWord, s);
      SubShortens(p, IsWord(s[0]), s[1..]);
      assert [s[0]] + s[1..] == s;
    } else {
      SubHere(p, afterWord, s);
    }
  }

  // ---- URLs and placeholders in a glued text --------------------------------------------

  /** Joints at which `Has` splits. */
  predicate HasCut(p: Pattern, a: string, b: string) {
    || b == ""
    || a == ""
    || EndsIn(a, {' '})
    || SpaceLed(b)
    || (MarkLed(b) && (p.Url? ==> !Dangling(a)))
  }

  /** A marker without white space, commas or semicolons does not straddle a joint. */
  lemma {:induction false} StartsJoint(a: string, b: string, word: string)
    requires a != "" && b != "" && (EndsIn(a, {' '}) || SpaceLed(b) || MarkLed(b))
    requires ' ' !in word && ',' !in word && ';' !in word
    ensures Starts(a + b, word) && !Starts(a, word) ==> MarkLed(b) && b[0] == '.' && |a| < |word| && word[|a|] == '.'
    ensures Starts(a, word) ==> Starts(a + b, word)
  {
    StartsConcat(a, b, word);
    if Starts(a + b, word) && |a| < |word| {
      assert LowerChar((a + b)[|a| - 1]) == word[|a| - 1];
      assert word[|a| - 1] in word && word[|a|] in word;
    }
  }

  lemma {:induction false} SchemeJoint(a: string, b: string)
    requires a != "" && b != "" && HasCut(Url, a, b)
    ensures SchemeUrl(a + b) > 0 <==> SchemeUrl(a) > 0
  {
    StartsJoint(a, b, "https://");
    StartsJoint(a, b, "http://");
    StartsJoint(a, b, "www.");
    assert '.' !in "https://" && '.' !in "http://";
    if !Starts(a, "www.") && Starts(a + b, "www.") {
      assert |a| == 3 && MarkLed(b);
      assert |b| > 1 ==> (a + b)[4] == ' ';
    }
    if Scheme(a) == |a| { DanglingScheme(a); }
  }

  /** A text that is nothing but a scheme is dangling. */
  lemma {:induction false} DanglingScheme(a: string)
    requires a != "" && Scheme(a) == |a|
    ensures Dangling(a) && !EndsIn(a, {' '})
  {
    var word := if Starts(a, "https://") then "https://" else if Starts(a, "http://") then "http://" else "www.";
    assert a[|a| - |word|..] == a;
    assert Lower(a) == word;
    assert LowerChar(a[|a| - 1]) == word[|word| - 1];
  }

  lemma {:induction false} KeywordJoint(a: string, b: string, words: set<string>)
    requires b != "" && "" !in words && (SpaceLed(b) || MarkLed(b) || EndsIn(a, {' '}))
    ensures Keyword(a + b, words) == Keyword(a, words)
  {
    RunConcat(Word, a, b);
    RunIs(Word, a);
    var n := Run(Word, a);
    DropConcat(a, b, n);
  }

  lemma {:induction false} EndingsNonEmpty()
    ensures "" !in Vocabulary(Url)
  {}

  lemma {:induction false} HostJoint(a: string, b: string)
    requires a != "" && b != "" && (SpaceLed(b) || MarkLed(b) || EndsIn(a, {' '}))
    ensures Host(a + b) > 0 <==> Host(a) > 0
  {
    hide Vocabulary;
    RunConcat(Label, a, b);
    RunIs(Label, a);
    var n := Run(Label, a);
    if n < |a| {
      DropConcat(a, b, n + 1);
      if n + 1 < |a| || !EndsIn(a, {' '}) {
        EndingsNonEmpty();
        KeywordJoint(a[n + 1..], b, Vocabulary(Url));
      }
    } else if b[0] == '.' {
      assert (a + b)[n + 1..] == b[1..];
      assert Run(Word, b[1..]) == 0;
      assert b[1..][..0] == "";
    }
  }

  lemma {:induction false} PlaceholderJoint(a: string, b: string)
    requires a != "" && b != "" && HasCut(Placeholder, a, b)
    ensures PlaceholderAt(a + b).Some? <==> PlaceholderAt(a).Some?
  {
    hide Starts;
    StartsJoint(a, b, "{{");
    StartsJoint(a, b, "}}");
    StartsJoint(a, b, "[name]");
    StartsJoint(a, b, "[merchant");
    assert '.' !in "{{" && '.' !in "}}" && '.' !in "[name]" && '.' !in "[merchant";
  }

  lemma {:induction false} LocalHas(p: Pattern, afterWord: bool, a: string, b: string)
    requires p.Url? || p.Placeholder?
    requires a != "" && HasCut(p, a, b)
    ensures MatchAt(p, afterWord, a + b).Some? <==> MatchAt(p, afterWord, a).Some?
  {
    if b == "" {
      assert a + b == a;
    } else if p.Url? {
      SchemeJoint(a, b);
      HostJoint(a, b);
    } else {
      PlaceholderJoint(a, b);
    }
  }

  lemma {:induction false} HasCutSuffix(p: Pattern, a: string, b: string)
    requires p.Url? || p.Placeholder?
    requires a != "" && HasCut(p, a, b)
    ensures HasCut(p, a[1..], b)
  {
    if Dangling(a[1..]) {
      var w :| w in {"http://", "https://", "www."} && |w| <= |a[1..]| && Lower(a[1..][|a[1..]| - |w|..]) == w;
      assert a[1..][|a[1..]| - |w|..] == a[|a| - |w|..];
    }
  }

  lemma {:induction false} HasStep(p: Pattern, afterWord: bool, s: string)
    requires s != ""
    ensures Has(p, afterWord, s) <==> MatchAt(p, afterWord, s).Some? || Has(p, EndsInWord(afterWord, s[..1]), s[1..])
  {}

  /** A glued text holds a URL (or a placeholder) exactly when one of its parts does. */
  lemma {:induction false} HasSplit(p: Pattern, afterWord: bool, a: string, b: string)
    requires p.Url? || p.Placeholder?
    requires HasCut(p, a, b)
    ensures Has(p, afterWord, a + b) <==> Has(p, afterWord, a) || Has(p, EndsInWord(afterWord, a), b)
    decreases |a|
  {
    if a == "" {
      assert a + b == b;
    } else {
      LocalHas(p, afterWord, a, b);
      HasCutSuffix(p, a, b);
      DropConcat(a, b, 1);
      EndsInWordDrop(afterWord, a, 1);
      HasStep(p, afterWord, a);
      HasStep(p, afterWord, a + b);
      HasSplit(p, EndsInWord(afterWord, a[..1]), a[1..], b);
    }
  }

  lemma {:induction false} StartsAll(a: string, b: string, word: string)
    requires Lower(a) == word
    ensures Starts(a + b, word)
  {
    forall i | 0 <= i < |word| ensures LowerChar((a + b)[i]) == word[i] {
      assert Lower(a)[i] == LowerChar(a[i]);
    }
  }

  lemma {:induction false} SchemeJoins(a: string, b: string)
    requires Lower(a) in {"http://", "https://", "www."} && b != "" && !IsSpace(b[0])
    ensures SchemeUrl(a + b) > 0
  {
    var s := a + b;
    StartsAll(a, b, Lower(a));
    assert LowerChar(s[0]) == Lower(a)[0];
    if Lower(a) == "http://" {
      assert LowerChar(s[4]) == ':';
      assert !Starts(s, "https://");
    } else if Lower(a) == "www." {
      assert !Starts(s, "https://") && !Starts(s, "http://");
    }
    assert Scheme(s) == |a|;
  }

  /** … and a dangling scheme makes a URL with the next visible character. */
  lemma {:induction false} DanglingJoins(afterWord: bool, a: string, b: string)
    requires Dangling(a) && b != "" && !IsSpace(b[0])
    ensures Has(Url, afterWord, a + b)
    decreases |a|
  {
    if Lower(a) in {"http://", "https://", "www."} {
      SchemeJoins(a, b);
      UrlHere(afterWord, a + b);
    } else {
      DanglingTail(a);
      DropConcat(a, b, 1);
      DanglingJoins(EndsInWord(afterWord, a[..1]), a[1..], b);
      HasStep(Url, afterWord, a + b);
    }
  }

  lemma {:induction false} UrlHere(afterWord: bool, s: string)
    requires SchemeUrl(s) > 0
    ensures Has(Url, afterWord, s)
  {}

  lemma {:induction false} DanglingTail(a: string)
    requires Dangling(a) && Lower(a) !in {"http://", "https://", "www."}
    ensures a != "" && Dangling(a[1..])
  {
    var w :| w in {"http://", "https://", "www."} && |w| <= |a| && Lower(a[|a| - |w|..]) == w;
    assert |w| < |a| by {
      assert a[0..] == a;
    }
    assert a[1..][|a[1..]| - |w|..] == a[|a| - |w|..];
  }

  lemma {:induction false} HasFresh(p: Pattern, b: string)
    requires p.Placeholder? || (p.Url? && (b == "" || !IsWord(b[0])))
    ensures Has(p, true, b) <==> Has(p, false, b)
  {}
}
