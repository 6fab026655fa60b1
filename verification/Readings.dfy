/** What the firewall reads in a text, and how readings add up when texts are glued. */
module Readings {
  import opened Text
  import opened Scan
  import opened Cuts
  import opened ReplyClauses
  import opened Firewall

  datatype Reading = Reading(url: bool, placeholder: bool, percents: set<string>, prices: set<string>, tokens: set<string>)

  const NOTHING := Reading(false, false, {}, {}, {})

  function Read(s: string): Reading {
    Reading(Has(Url, false, s), Has(Placeholder, false, s), Claims(Percent, s), Claims(Currency, s), ReplyTokens(s))
  }

  /** The reading of a text that a punctuation mark follows: a dangling scheme becomes a URL. */
  function Piece(s: string): Reading { Read(s).(url := Has(Url, false, s) || Dangling(s)) }

  /** The reading of an addressee, whom a comma follows: a price takes the comma into its figure. */
  function Addressed(s: string): Reading { Piece(s).(prices := Claims(Currency, s + ",")) }

  function Plus(a: Reading, b: Reading): Reading {
    Reading(a.url || b.url, a.placeholder || b.placeholder, a.percents + b.percents, a.prices + b.prices, a.tokens + b.tokens)
  }

  lemma {:induction false} TokensOfConcat(x: seq<Match>, y: seq<Match>)
    ensures TokensOf(x + y) == TokensOf(x) + TokensOf(y)
  {
    if x == [] {
      assert x + y == y;
    } else {
      assert (x + y)[1..] == x[1..] + y;
      TokensOfConcat(x[1..], y);
    }
  }

  lemma {:induction false} ClaimsSplit(p: Pattern, a: string, b: string)
    requires NumberPattern(p) && FindCut(p, a, b)
    ensures Claims(p, a + b) == Claims(p, a) + Claims(p, b)
  {
    FindAllSplit(p, false, a, b);
    FindAllFresh(p, b);
  }

  lemma {:induction false} TokensSplit(a: string, b: string)
    requires FindCut(ReplyClause, a, b) && (!EndsInWord(false, a) || b == "" || !IsWord(b[0]))
    ensures ReplyTokens(a + b) == ReplyTokens(a) + ReplyTokens(b)
  {
    FindAllSplit(ReplyClause, false, a, b);
    if EndsInWord(false, a) { FindAllFresh(ReplyClause, b); }
    TokensOfConcat(FindAll(ReplyClause, false, a), FindAll(ReplyClause, false, b));
  }

  lemma {:induction false} HasAdds(p: Pattern, a: string, b: string)
    requires p.Url? || p.Placeholder?
    requires HasCut(p, a, b) && (!EndsInWord(false, a) || b == "" || !IsWord(b[0]))
    ensures Has(p, false, a + b) <==> Has(p, false, a) || Has(p, false, b)
  {
    HasSplit(p, false, a, b);
    if EndsInWord(false, a) { HasFresh(p, b); }
  }

  lemma {:induction false} FindsAdd(a: string, b: string)
    requires FindCut(Percent, a, b) && FindCut(Currency, a, b) && FindCut(ReplyClause, a, b)
    requires !EndsInWord(false, a) || b == "" || !IsWord(b[0])
    ensures Claims(Percent, a + b) == Claims(Percent, a) + Claims(Percent, b)
    ensures Claims(Currency, a + b) == Claims(Currency, a) + Claims(Currency, b)
    ensures ReplyTokens(a + b) == ReplyTokens(a) + ReplyTokens(b)
  {
    ClaimsSplit(Percent, a, b);
    ClaimsSplit(Currency, a, b);
    TokensSplit(a, b);
  }

  /** A dangling scheme or a URL of either part makes one of the whole. */
  lemma {:induction false} UrlBeforeMark(a: string, b: string)
    requires MarkLed(b)
    ensures Has(Url, false, a + b) <==> Has(Url, false, a) || Dangling(a) || Has(Url, false, b)
  {
    if Dangling(a) { DanglingJoins(false, a, b); } else { HasAdds(Url, a, b); }
  }

  /** A text before a punctuation mark. */
  lemma {:induction false} GlueMark(a: string, b: string)
    requires MarkLed(b) && (b[0] == ',' ==> '₹' !in a)
    ensures Read(a + b) == Plus(Piece(a), Read(b))
  {
    hide Has, Claims, ReplyTokens, Dangling;
    FindsAdd(a, b);
    HasAdds(Placeholder, a, b);
    UrlBeforeMark(a, b);
  }

  /** A sentence before a phrase. */
  lemma {:induction false} GlueSentence(a: string, b: string)
    requires EndsIn(a, {'.', '?', '!'}) && SpaceLed(b)
    ensures Read(a + b) == Plus(Read(a), Read(b))
  {
    hide Has, Claims, ReplyTokens;
    FindsAdd(a, b);
    HasAdds(Placeholder, a, b);
    HasAdds(Url, a, b);
  }

  /** A fixed phrase: no figure, no slash, no bracket, and its full stops close sentences. */
  predicate Closed(a: string) {
    && (forall c | c in a :: !IsDigit(c) && c != '₹' && c != '/' && c != '{' && c != '}' && c != '[')
    && (forall i | 0 <= i < |a| - 1 :: a[i] == '.' ==> a[i + 1] == ' ')
  }

  /** A fixed phrase in front of a text: it ends in a space and has no `p`, hence no "reply". */
  predicate Plain(a: string) {
    Closed(a) && (a == "" || EndsIn(a, {' '})) && 'p' !in a && 'P' !in a
  }

  lemma {:induction false} ClosedNoUrl(afterWord: bool, a: string)
    requires Closed(a)
    ensures !Has(Url, afterWord, a)
    decreases |a|
  {
    if a != "" {
      ClosedTail(a);
      ClosedNoUrl(IsWord(a[0]), a[1..]);
      ClosedNoScheme(a);
      ClosedNoHost(a);
    }
  }

  lemma {:induction false} ClosedTail(a: string)
    requires a != "" && Closed(a)
    ensures Closed(a[1..])
  {
    forall c | c in a[1..] ensures c in a {}
    forall i | 0 <= i < |a[1..]| - 1 ensures a[1..][i] == '.' ==> a[1..][i + 1] == ' ' {
      assert a[1..][i] == a[i + 1] && a[1..][i + 1] == a[i + 2];
    }
  }

  lemma {:induction false} ClosedNoScheme(a: string)
    requires Closed(a)
    ensures SchemeUrl(a) == 0
  {
    StartsCharIf(a, "https://", 7);
    StartsCharIf(a, "http://", 6);
    StartsCharIf(a, "www.", 3);
  }

  lemma {:induction false} ClosedNoHost(a: string)
    requires Closed(a)
    ensures Host(a) == 0
  {
    var n := Run(Label, a);
    if n < |a| && a[n] == '.' {
      if n + 1 < |a| {
        assert a[n + 1..][0] == ' ';
        assert Run(Word, a[n + 1..]) == 0;
      }
      assert a[n + 1..][..0] == "";
    }
  }

  lemma {:induction false} ClosedNoPlaceholder(afterWord: bool, a: string)
    requires Closed(a)
    ensures !Has(Placeholder, afterWord, a)
    decreases |a|
  {
    if a != "" {
      ClosedTail(a);
      ClosedNoPlaceholder(IsWord(a[0]), a[1..]);
      assert a[0] in a;
      BracketStart(a);
    }
  }

  lemma {:induction false} BracketStart(a: string)
    requires a != "" && a[0] != '{' && a[0] != '}' && a[0] != '['
    ensures PlaceholderAt(a) == None
  {
    StartsCharIf(a, "{{", 0);
    StartsCharIf(a, "}}", 0);
    StartsCharIf(a, "[name]", 0);
    StartsCharIf(a, "[merchant", 0);
  }

  lemma {:induction false} InertFinds(p: Pattern, afterWord: bool, a: string)
    requires NumberPattern(p) || p.ReplyClause?
    requires a != "" ==> Inert(p, a)
    ensures FindAll(p, afterWord, a) == []
    decreases |a|
  {
    if a != "" {
      InertMatch(p, afterWord, a, "");
      assert a + "" == a;
      FindAllNone(p, afterWord, a);
      forall c | c in a[1..] ensures c in a {}
      InertFinds(p, IsWord(a[0]), a[1..]);
    }
  }

  /** Nothing is read in a fixed phrase. */
  lemma {:induction false} PlainReads(a: string)
    requires Plain(a)
    ensures Read(a) == NOTHING
  {
    ClosedNoUrl(false, a);
    ClosedNoPlaceholder(false, a);
    InertFinds(Percent, false, a);
    InertFinds(Currency, false, a);
    InertFinds(ReplyClause, false, a);
  }

  /** A fixed phrase in front of a text adds nothing. */
  lemma {:induction false} GluePlain(a: string, b: string)
    requires Plain(a)
    ensures Read(a + b) == Read(b)
  {
    hide Has, Claims, ReplyTokens;
    PlainReads(a);
    FindsAdd(a, b);
    HasAdds(Placeholder, a, b);
    HasAdds(Url, a, b);
  }

  lemma {:induction false} CommaPlain()
    ensures Plain(", ") && Plain(" ")
  {}

  lemma {:induction false} CommaReads()
    ensures Read(",") == NOTHING
  {
    assert Closed(",") by { assert |","| == 1; }
    ClosedNoUrl(false, ",");
    ClosedNoPlaceholder(false, ",");
    InertFinds(Percent, false, ",");
    InertFinds(Currency, false, ",");
    assert !Starts(",", "reply");
    FindAllNone(ReplyClause, false, ",");
  }

  /** All but the prices of a text before a punctuation mark. */
  lemma {:induction false} BeforeMark(a: string, b: string)
    requires MarkLed(b)
    ensures Read(a + b) == Plus(Piece(a), Read(b)).(prices := Claims(Currency, a + b))
  {
    ClaimsSplit(Percent, a, b);
    TokensSplit(a, b);
    HasAdds(Placeholder, a, b);
    UrlBeforeMark(a, b);
  }

  /** An addressee, with nothing behind the comma. */
  lemma {:induction false} GlueComma(a: string)
    ensures Read(a + ",") == Addressed(a)
  {
    hide Has, Claims, ReplyTokens, Dangling;
    BeforeMark(a, ",");
    CommaReads();
  }

  /** An addressee and whatever the template puts behind. */
  lemma {:induction false} GlueAddress(a: string, rest: string)
    ensures Read(a + (", " + rest)) == Plus(Addressed(a), Read(rest))
  {
    hide Has, ReplyTokens, Dangling, Plain, Claims;
    CommaPlain();
    GluePlain(", ", rest);
    GluePlain(" ", rest);
    BeforeMark(a, ", " + rest);
    ClaimsSplit(Currency, a + ",", " " + rest);
    assert a + (", " + rest) == (a + ",") + (" " + rest);
  }

  /** Without a rupee sign the comma makes no difference. */
  lemma {:induction false} AddressedPlainly(a: string)
    requires '₹' !in a
    ensures Addressed(a) == Piece(a)
  {
    hide Has, ReplyTokens, Dangling, Claims;
    CommaReads();
    ClaimsSplit(Currency, a, ",");
  }
}
