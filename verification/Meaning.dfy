/** What the scanners find, said without any scanning. */
module Meaning {
  import opened Text
  import opened Scan

  /** Is the character before position `i` a word character? */
  predicate Before(afterWord: bool, s: string, i: nat)
    requires i <= |s|
  {
    if i == 0 then afterWord else IsWord(s[i - 1])
  }

  predicate MatchesAt(p: Pattern, afterWord: bool, s: string, i: nat) {
    i < |s| && MatchAt(p, Before(afterWord, s, i), s[i..]).Some?
  }

  lemma {:induction false} Shifted(p: Pattern, afterWord: bool, s: string, i: nat)
    requires 0 < i < |s|
    ensures MatchesAt(p, afterWord, s, i) <==> MatchesAt(p, IsWord(s[0]), s[1..], i - 1)
  {
    hide MatchAt;
    assert s[1..][i - 1..] == s[i..];
  }

  /** A pattern is found exactly if it matches from some position. */
  lemma {:induction false} HasIff(p: Pattern, afterWord: bool, s: string)
    ensures Has(p, afterWord, s) <==> exists i: nat :: MatchesAt(p, afterWord, s, i)
    decreases |s|
  {
    hide MatchAt;
    if s != "" {
      assert s[0..] == s;
      HasIff(p, IsWord(s[0]), s[1..]);
      if MatchAt(p, afterWord, s).Some? {
        assert MatchesAt(p, afterWord, s, 0);
      } else if Has(p, IsWord(s[0]), s[1..]) {
        var i: nat :| MatchesAt(p, IsWord(s[0]), s[1..], i);
        Shifted(p, afterWord, s, i + 1);
        assert MatchesAt(p, afterWord, s, i + 1);
      }
      forall i: nat | MatchesAt(p, afterWord, s, i) ensures Has(p, afterWord, s) {
        if i > 0 {
          Shifted(p, afterWord, s, i);
          assert MatchesAt(p, IsWord(s[0]), s[1..], i - 1);
        }
      }
    }
  }

  predicate SpacesBetween(s: string, j: int, k: int) {
    0 <= j < k < |s| && forall i | j < i < k :: IsSpace(s[i])
  }

  /** A digit, then nothing but white space, then a percent sign. */
  predicate PercentSpan(s: string, j: int, k: int) { SpacesBetween(s, j, k) && IsDigit(s[j]) && s[k] == '%' }

  /** A rupee sign, then nothing but white space, then a digit. */
  predicate PriceSpan(s: string, j: int, k: int) { SpacesBetween(s, j, k) && s[j] == '₹' && IsDigit(s[k]) }

  lemma {:induction false} RunUntil(k: Class, s: string, n: nat)
    requires n < |s| && !In(s[n], k) && forall i | 0 <= i < n :: In(s[i], k)
    ensures Run(k, s) == n
  {
    if n > 0 { RunUntil(k, s[1..], n - 1); }
  }

  lemma {:induction false} LastOfDecimal(s: string)
    requires Decimal(s) > 0
    ensures IsDigit(s[Decimal(s) - 1])
  {
    RunIs(Digit, s);
    var d := Run(Digit, s);
    var rest := s[d..];
    if Fraction(rest) > 0 {
      RunIs(Digit, rest[1..]);
      var r := Run(Digit, rest[1..]);
      assert rest[1..][r - 1] == rest[r] == s[d + r];
    }
  }

  lemma {:induction false} PercentSpanOf(s: string)
    requires PercentAt(s).Some?
    ensures var d := Decimal(s); PercentSpan(s, d - 1, PercentAt(s).value.len - 1)
  {
    var d := Decimal(s);
    LastOfDecimal(s);
    RunIs(Space, s[d..]);
    var w := Run(Space, s[d..]);
    assert s[d..][w] == s[d + w];
    forall i | d - 1 < i < d + w ensures IsSpace(s[i]) { assert s[i] == s[d..][i - d]; }
  }

  lemma {:induction false} PercentFrom(s: string, k: nat)
    requires PercentSpan(s, 0, k)
    ensures PercentAt(s).Some?
  {
    RunUntil(Digit, s, 1);
    assert Fraction(s[1..]) == 0;
    var t := s[1..];
    forall i | 0 <= i < k - 1 ensures IsSpace(t[i]) { assert t[i] == s[i + 1]; }
    RunUntil(Space, t, k - 1);
  }

  /** A text states a percentage exactly if some digit is followed by a percent sign, with at most
      white space in between. */
  lemma {:induction false} PercentMeans(s: string)
    ensures Has(Percent, false, s) <==> exists j, k :: PercentSpan(s, j, k)
  {
    hide PercentAt;
    HasIff(Percent, false, s);
    if Has(Percent, false, s) {
      var i: nat :| MatchesAt(Percent, false, s, i);
      PercentSpanOf(s[i..]);
      var j, k := Decimal(s[i..]) - 1, PercentAt(s[i..]).value.len - 1;
      Unshift(s, i, j, k);
      assert PercentSpan(s, i + j, i + k);
    }
    forall j, k | PercentSpan(s, j, k) ensures Has(Percent, false, s) {
      Shift(s, j, k);
      PercentFrom(s[j..], k - j);
      assert MatchesAt(Percent, false, s, j);
    }
  }

  lemma {:induction false} Shift(s: string, j: int, k: int)
    requires SpacesBetween(s, j, k)
    ensures SpacesBetween(s[j..], 0, k - j) && s[j..][0] == s[j] && s[j..][k - j] == s[k]
  {}

  lemma {:induction false} Unshift(s: string, n: nat, j: int, k: int)
    requires n <= |s| && SpacesBetween(s[n..], j, k)
    ensures SpacesBetween(s, n + j, n + k) && s[n + j] == s[n..][j] && s[n + k] == s[n..][k]
  {
    forall i | n + j < i < n + k ensures IsSpace(s[i]) { assert s[i] == s[n..][i - n]; }
  }

  lemma {:induction false} PriceSpanOf(s: string)
    requires CurrencyAt(s).Some?
    ensures PriceSpan(s, 0, 1 + Run(Space, s[1..]))
  {
    var t := s[1..];
    RunIs(Space, t);
    var w := Run(Space, t);
    assert t[w..][0] == t[w] == s[1 + w];
    forall i | 0 < i < 1 + w ensures IsSpace(s[i]) { assert s[i] == t[i - 1]; }
  }

  lemma {:induction false} PriceFrom(s: string, k: nat)
    requires PriceSpan(s, 0, k)
    ensures CurrencyAt(s).Some?
  {
    var t := s[1..];
    forall i | 0 <= i < k - 1 ensures IsSpace(t[i]) { assert t[i] == s[i + 1]; }
    RunUntil(Space, t, k - 1);
    assert t[k - 1..][0] == s[k];
    assert Run(DigitComma, t[k - 1..]) > 0;
  }

  /** A text states a price exactly if some rupee sign is followed by a digit, with at most white
      space in between. */
  lemma {:induction false} PriceMeans(s: string)
    ensures Has(Currency, false, s) <==> exists j, k :: PriceSpan(s, j, k)
  {
    hide CurrencyAt;
    HasIff(Currency, false, s);
    if Has(Currency, false, s) {
      var i: nat :| MatchesAt(Currency, false, s, i);
      PriceSpanOf(s[i..]);
      var k := 1 + Run(Space, s[i..][1..]);
      Unshift(s, i, 0, k);
      assert PriceSpan(s, i + 0, i + k);
    }
    forall j, k | PriceSpan(s, j, k) ensures Has(Currency, false, s) {
      Shift(s, j, k);
      PriceFrom(s[j..], k - j);
      assert MatchesAt(Currency, false, s, j);
    }
  }

  predicate IsPlaceholder(s: string) {
    Starts(s, "{{") || Starts(s, "}}") || Starts(s, "[name]") || Starts(s, "[merchant")
  }

  lemma {:induction false} PlaceholderAtIff(s: string)
    ensures PlaceholderAt(s).Some? <==> IsPlaceholder(s)
  {}

  /** A text holds a placeholder exactly if one of the four spellings occurs, in any case. */
  lemma {:induction false} PlaceholderMeans(s: string)
    ensures Has(Placeholder, false, s) <==> exists i: nat :: i < |s| && IsPlaceholder(s[i..])
  {
    hide PlaceholderAt, IsPlaceholder;
    HasIff(Placeholder, false, s);
    if Has(Placeholder, false, s) {
      var i: nat :| MatchesAt(Placeholder, false, s, i);
      PlaceholderAtIff(s[i..]);
    }
    forall i: nat | i < |s| && IsPlaceholder(s[i..]) ensures Has(Placeholder, false, s) {
      PlaceholderAtIff(s[i..]);
      assert MatchesAt(Placeholder, false, s, i);
    }
  }

  /** A scheme or `www.` with something behind it, or a host that starts a word. */
  predicate UrlStarts(s: string, i: nat) {
    i < |s| && (SchemeUrl(s[i..]) > 0 || (!Before(false, s, i) && Host(s[i..]) > 0))
  }

  lemma {:induction false} UrlMeans(s: string)
    ensures Has(Url, false, s) <==> exists i: nat :: UrlStarts(s, i)
  {
    hide SchemeUrl, Host, Path;
    HasIff(Url, false, s);
    if Has(Url, false, s) {
      var i: nat :| MatchesAt(Url, false, s, i);
      assert UrlStarts(s, i);
    }
    forall i: nat | UrlStarts(s, i) ensures Has(Url, false, s) { assert MatchesAt(Url, false, s, i); }
  }
}
