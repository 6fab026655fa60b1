/** Stripping percentage and price claims out of untrusted text (`_strip_numeric_claims`). */
module ClaimStripping {
  import opened Text
  import opened Scan
  import opened Cuts
  import opened Meaning

  /** One pass: percentages, then prices, then white space and trimming. */
  function StripNumericClaims(text: string): (r: string)
    ensures |r| <= |text|
  {
    Trim(Collapse(Sub(Currency, false, Sub(Percent, false, text))))
  }

  function Repeated(n: nat, text: string): string {
    if n == 0 then text else StripNumericClaims(Repeated(n - 1, text))
  }

  predicate ClaimFree(text: string) { !Has(Percent, false, text) && !Has(Currency, false, text) }

  predicate IsSign(c: char) { c == '%' || c == '₹' }

  function Signs(s: string): nat {
    if s == "" then 0 else (if IsSign(s[0]) then 1 else 0) + Signs(s[1..])
  }

  lemma {:induction false} SignsConcat(a: string, b: string)
    ensures Signs(a + b) == Signs(a) + Signs(b)
  {
    if a == "" {
      assert a + b == b;
    } else {
      assert (a + b)[1..] == a[1..] + b;
      SignsConcat(a[1..], b);
    }
  }

  lemma {:induction false} SignsAt(s: string, i: nat)
    requires i < |s| && IsSign(s[i])
    ensures Signs(s) > 0
  {
    if i > 0 { SignsAt(s[1..], i - 1); }
  }

  /** A match holds a sign. */
  lemma {:induction false} MatchHoldsSign(p: Pattern, afterWord: bool, s: string)
    requires NumberPattern(p) && MatchAt(p, afterWord, s).Some?
    ensures var n := MatchAt(p, afterWord, s).value.len; Signs(s[..n]) > 0
  {
    var n := MatchAt(p, afterWord, s).value.len;
    if p.Percent? {
      var d := Decimal(s);
      assert s[d..][Run(Space, s[d..])] == s[n - 1];
      SignsAt(s[..n], n - 1);
    } else {
      SignsAt(s[..n], 0);
    }
  }

  lemma {:induction false} MatchSplits(p: Pattern, afterWord: bool, s: string)
    requires NumberPattern(p) && MatchAt(p, afterWord, s).Some?
    ensures Signs(s[MatchAt(p, afterWord, s).value.len..]) < Signs(s)
  {
    var n := MatchAt(p, afterWord, s).value.len;
    MatchHoldsSign(p, afterWord, s);
    SignsConcat(s[..n], s[n..]);
    assert s[..n] + s[n..] == s;
  }

  lemma {:induction false} SubMatched(p: Pattern, afterWord: bool, s: string)
    requires s != "" && MatchAt(p, afterWord, s).Some?
    ensures var n := MatchAt(p, afterWord, s).value.len;
      Sub(p, afterWord, s) == Sub(p, EndsInWord(afterWord, s[..n]), s[n..])
  {}

  /** Removing the matches removes signs, at least one if there is a match. */
  lemma {:induction false} SubRemovesSigns(p: Pattern, afterWord: bool, s: string)
    requires NumberPattern(p)
    ensures Signs(Sub(p, afterWord, s)) <= Signs(s)
    ensures Has(p, afterWord, s) ==> Signs(Sub(p, afterWord, s)) < Signs(s)
    decreases |s|
  {
    if s == "" {
    } else if MatchAt(p, afterWord, s) == None {
      SubStep(p, afterWord, s);
      SubRemovesSigns(p, IsWord(s[0]), s[1..]);
      SignsConcat([s[0]], Sub(p, IsWord(s[0]), s[1..]));
      SignsConcat([s[0]], s[1..]);
      assert [s[0]] + s[1..] == s;
    } else {
      var n := MatchAt(p, afterWord, s).value.len;
      SubMatched(p, afterWord, s);
      MatchSplits(p, afterWord, s);
      SubRemovesSigns(p, EndsInWord(afterWord, s[..n]), s[n..]);
    }
  }

  lemma {:induction false} NoSigns(s: string)
    requires forall c | c in s :: !IsSign(c)
    ensures Signs(s) == 0
  {
    if s != "" {
      assert s[0] in s;
      forall c | c in s[1..] ensures c in s {}
      NoSigns(s[1..]);
    }
  }

  lemma {:induction false} CollapseKeepsSigns(s: string)
    ensures Signs(Collapse(s)) == Signs(s)
    decreases |s|
  {
    if s != "" {
      var w := Run(Space, s);
      if w >= 2 {
        RunIs(Space, s);
        NoSigns(s[..w]);
        SignsConcat(s[..w], s[w..]);
        assert s[..w] + s[w..] == s;
        CollapseKeepsSigns(s[w..]);
        SignsConcat(" ", Collapse(s[w..]));
      } else {
        CollapseKeepsSigns(s[1..]);
        SignsConcat([s[0]], Collapse(s[1..]));
      }
    }
  }

  lemma {:induction false} TrimLeftKeepsSigns(s: string)
    ensures Signs(TrimLeft(s)) == Signs(s)
  {
    if s != "" && IsTrim(s[0]) { TrimLeftKeepsSigns(s[1..]); }
  }

  lemma {:induction false} TrimRightKeepsSigns(s: string)
    ensures Signs(TrimRight(s)) == Signs(s)
  {
    if s != "" && IsTrim(s[|s| - 1]) {
      var n := |s| - 1;
      TrimRightKeepsSigns(s[..n]);
      SignsConcat(s[..n], [s[n]]);
      assert s[..n] + [s[n]] == s;
    }
  }

  /** Every pass over a text that makes a claim removes at least one sign. */
  lemma {:induction false} PassRemovesSign(text: string)
    ensures Signs(StripNumericClaims(text)) <= Signs(text)
    ensures !ClaimFree(text) ==> Signs(StripNumericClaims(text)) < Signs(text)
  {
    var a := Sub(Percent, false, text);
    var b := Sub(Currency, false, a);
    SubRemovesSigns(Percent, false, text);
    SubRemovesSigns(Currency, false, a);
    SubShortens(Percent, false, text);
    CollapseKeepsSigns(b);
    TrimLeftKeepsSigns(Collapse(b));
    TrimRightKeepsSigns(TrimLeft(Collapse(b)));
  }

  // ---- claims as spans -------------------------------------------------------------------------

  /** The first and the last visible character of a claim. */
  predicate Opens(p: Pattern, c: char) { if p.Percent? then IsDigit(c) else c == '₹' }

  predicate Closes(p: Pattern, c: char) { if p.Percent? then c == '%' else IsDigit(c) }

  /** Of the characters marked in `kept`, the first one that is not white space closes a claim. */
  predicate Follows(p: Pattern, kept: seq<bool>, s: string)
    requires |kept| == |s|
  {
    s != "" && if kept[0] then Closes(p, s[0]) || (IsSpace(s[0]) && Follows(p, kept[1..], s[1..])) else Follows(p, kept[1..], s[1..])
  }

  predicate HasSpan(p: Pattern, kept: seq<bool>, s: string)
    requires |kept| == |s|
  {
    s != "" && ((kept[0] && Opens(p, s[0]) && Follows(p, kept[1..], s[1..])) || HasSpan(p, kept[1..], s[1..]))
  }

  /** Two kept characters make a claim once everything between them that is kept is white space. */
  predicate Joins(p: Pattern, kept: seq<bool>, s: string, j: int, k: int)
    requires |kept| == |s|
  {
    && 0 <= j < k < |s| && kept[j] && kept[k] && Opens(p, s[j]) && Closes(p, s[k])
    && forall i | j < i < k && kept[i] :: IsSpace(s[i])
  }

  /** Everything from the start up to `k` that is kept is white space, and `k` closes a claim. */
  predicate ClosesAt(p: Pattern, kept: seq<bool>, s: string, k: int)
    requires |kept| == |s|
  {
    0 <= k < |s| && kept[k] && Closes(p, s[k]) && forall i | 0 <= i < k && kept[i] :: IsSpace(s[i])
  }

  lemma {:induction false} FollowsIff(p: Pattern, kept: seq<bool>, s: string)
    requires NumberPattern(p) && |kept| == |s|
    ensures Follows(p, kept, s) <==> exists k :: ClosesAt(p, kept, s, k)
  {
    if s != "" {
      FollowsIff(p, kept[1..], s[1..]);
      if kept[0] && Closes(p, s[0]) {
        assert ClosesAt(p, kept, s, 0);
      } else if Follows(p, kept, s) {
        var k :| ClosesAt(p, kept[1..], s[1..], k);
        assert ClosesAt(p, kept, s, k + 1);
      }
      forall k | ClosesAt(p, kept, s, k) ensures Follows(p, kept, s) {
        if k > 0 { assert ClosesAt(p, kept[1..], s[1..], k - 1); }
      }
    }
  }

  lemma {:induction false} HasSpanIff(p: Pattern, kept: seq<bool>, s: string)
    requires NumberPattern(p) && |kept| == |s|
    ensures HasSpan(p, kept, s) <==> exists j, k :: Joins(p, kept, s, j, k)
  {
    hide Opens, Closes, Follows;
    if s != "" {
      FollowsIff(p, kept[1..], s[1..]);
      HasSpanIff(p, kept[1..], s[1..]);
      if kept[0] && Opens(p, s[0]) && Follows(p, kept[1..], s[1..]) {
        var k :| ClosesAt(p, kept[1..], s[1..], k);
        assert Joins(p, kept, s, 0, k + 1);
      } else if HasSpan(p, kept[1..], s[1..]) {
        var j, k :| Joins(p, kept[1..], s[1..], j, k);
        assert Joins(p, kept, s, j + 1, k + 1);
      }
      forall j, k | Joins(p, kept, s, j, k) ensures HasSpan(p, kept, s) {
        if j > 0 { assert Joins(p, kept[1..], s[1..], j - 1, k - 1); } else { assert ClosesAt(p, kept[1..], s[1..], k - 1); }
      }
    }
  }

  // ---- a text and the characters kept of it ----------------------------------------------------

  function All(n: nat): (kept: seq<bool>)
    ensures |kept| == n
  {
    seq(n, _ => true)
  }

  function Select(kept: seq<bool>, s: string): string
    requires |kept| == |s|
  {
    if s == "" then "" else (if kept[0] then [s[0]] else "") + Select(kept[1..], s[1..])
  }

  predicate Follow(p: Pattern, s: string) { s != "" && (Closes(p, s[0]) || (IsSpace(s[0]) && Follow(p, s[1..]))) }

  /** Some claim of the pattern is made in the text. */
  predicate Span(p: Pattern, s: string) { s != "" && ((Opens(p, s[0]) && Follow(p, s[1..])) || Span(p, s[1..])) }

  lemma {:induction false} SelectFollow(p: Pattern, kept: seq<bool>, s: string)
    requires |kept| == |s|
    ensures Follow(p, Select(kept, s)) <==> Follows(p, kept, s)
  {
    hide Closes;
    if s != "" {
      SelectFollow(p, kept[1..], s[1..]);
      SelectStep(kept, s);
    }
  }

  lemma {:induction false} SelectStep(kept: seq<bool>, s: string)
    requires |kept| == |s| && s != ""
    ensures var rest := Select(kept[1..], s[1..]);
      if kept[0] then Select(kept, s) != "" && Select(kept, s)[0] == s[0] && Select(kept, s)[1..] == rest else Select(kept, s) == rest
  {
    var rest := Select(kept[1..], s[1..]);
    assert ([s[0]] + rest)[1..] == rest;
    assert "" + rest == rest;
  }

  lemma {:induction false} SelectSpan(p: Pattern, kept: seq<bool>, s: string)
    requires |kept| == |s|
    ensures Span(p, Select(kept, s)) <==> HasSpan(p, kept, s)
  {
    hide Opens;
    if s != "" {
      SelectSpan(p, kept[1..], s[1..]);
      SelectFollow(p, kept[1..], s[1..]);
      SelectStep(kept, s);
    }
  }

  lemma {:induction false} SelectAll(s: string)
    ensures Select(All(|s|), s) == s
  {
    if s != "" {
      assert All(|s|)[1..] == All(|s| - 1);
      SelectAll(s[1..]);
    }
  }

  /** A text makes a claim exactly if the pattern is found in it. */
  lemma {:induction false} SpanIff(p: Pattern, s: string)
    requires NumberPattern(p)
    ensures Span(p, s) <==> Has(p, false, s)
  {
    hide Span, HasSpan, Has;
    SelectAll(s);
    SelectSpan(p, All(|s|), s);
    HasSpanIff(p, All(|s|), s);
    if p.Percent? {
      PercentMeans(s);
      forall j, k ensures PercentSpan(s, j, k) <==> Joins(p, All(|s|), s, j, k) {}
    } else {
      PriceMeans(s);
      forall j, k ensures PriceSpan(s, j, k) <==> Joins(p, All(|s|), s, j, k) {}
    }
  }

  // ---- collapsing and trimming neither make nor break a claim ----------------------------------

  lemma {:induction false} SkipSpaces(p: Pattern, s: string, n: nat)
    requires NumberPattern(p) && n <= |s| && forall i | 0 <= i < n :: IsSpace(s[i])
    ensures Follow(p, s) <==> Follow(p, s[n..])
    ensures Span(p, s) <==> Span(p, s[n..])
  {
    if n == 0 {
      assert s[0..] == s;
    } else {
      SkipSpaces(p, s[1..], n - 1);
      Drops(s, 1, n - 1);
    }
  }

  lemma {:induction false} ConsReads(p: Pattern, c: char, rest: string)
    ensures Follow(p, [c] + rest) <==> Closes(p, c) || (IsSpace(c) && Follow(p, rest))
    ensures Span(p, [c] + rest) <==> (Opens(p, c) && Follow(p, rest)) || Span(p, rest)
  {
    assert ([c] + rest)[1..] == rest;
  }

  lemma {:induction false} SpaceReads(p: Pattern, rest: string)
    requires NumberPattern(p)
    ensures Follow(p, " " + rest) <==> Follow(p, rest)
    ensures Span(p, " " + rest) <==> Span(p, rest)
  {
    ConsReads(p, ' ', rest);
  }

  lemma {:induction false} CollapseKeeps(p: Pattern, s: string)
    requires NumberPattern(p)
    ensures Follow(p, Collapse(s)) <==> Follow(p, s)
    ensures Span(p, Collapse(s)) <==> Span(p, s)
    decreases |s|
  {
    hide Follow, Span, Opens, Closes, IsSpace;
    if s != "" {
      var w := Run(Space, s);
      if w >= 2 {
        RunIs(Space, s);
        SkipSpaces(p, s, w);
        CollapseKeeps(p, s[w..]);
        SpaceReads(p, Collapse(s[w..]));
      } else {
        CollapseKeeps(p, s[1..]);
        ConsReads(p, s[0], Collapse(s[1..]));
        ConsReads(p, s[0], s[1..]);
        assert [s[0]] + s[1..] == s;
      }
    }
  }

  lemma {:induction false} TrimLeftKeeps(p: Pattern, s: string)
    requires NumberPattern(p)
    ensures Span(p, TrimLeft(s)) <==> Span(p, s)
  {
    if s != "" && IsTrim(s[0]) { TrimLeftKeeps(p, s[1..]); }
  }

  lemma {:induction false} LastFollow(p: Pattern, s: string, c: char)
    requires NumberPattern(p) && IsTrim(c)
    ensures Follow(p, s + [c]) <==> Follow(p, s)
  {
    if s != "" {
      assert (s + [c])[1..] == s[1..] + [c];
      LastFollow(p, s[1..], c);
    }
  }

  lemma {:induction false} LastSpan(p: Pattern, s: string, c: char)
    requires NumberPattern(p) && IsTrim(c)
    ensures Span(p, s + [c]) <==> Span(p, s)
  {
    if s == "" {
      ConsReads(p, c, "");
      assert "" + [c] == [c] + "";
    } else {
      assert (s + [c])[1..] == s[1..] + [c];
      LastFollow(p, s[1..], c);
      LastSpan(p, s[1..], c);
    }
  }

  lemma {:induction false} TrimRightKeeps(p: Pattern, s: string)
    requires NumberPattern(p)
    ensures Span(p, TrimRight(s)) <==> Span(p, s)
  {
    if s != "" && IsTrim(s[|s| - 1]) {
      var n := |s| - 1;
      TrimRightKeeps(p, s[..n]);
      LastSpan(p, s[..n], s[n]);
      assert s[..n] + [s[n]] == s;
    }
  }

  lemma {:induction false} TidyKeeps(p: Pattern, s: string)
    requires NumberPattern(p)
    ensures Has(p, false, Trim(Collapse(s))) <==> Has(p, false, s)
  {
    hide Span, Has;
    SpanIff(p, s);
    SpanIff(p, Trim(Collapse(s)));
    CollapseKeeps(p, s);
    TrimLeftKeeps(p, Collapse(s));
    TrimRightKeeps(p, TrimLeft(Collapse(s)));
  }

  /** A pass over a claim-free text leaves it claim-free. */
  lemma {:induction false} ClaimFreeStays(text: string)
    requires ClaimFree(text)
    ensures ClaimFree(StripNumericClaims(text))
  {
    hide Has, Sub;
    SubShortens(Percent, false, text);
    SubShortens(Currency, false, text);
    TidyKeeps(Percent, text);
    TidyKeeps(Currency, text);
  }

  // ---- exactly when one pass is enough ---------------------------------------------------------

  /** Marks the characters that belong to no match. */
  function Unmatched(p: Pattern, afterWord: bool, s: string): (kept: seq<bool>)
    ensures |kept| == |s|
    decreases |s|
  {
    if s == "" then []
    else
      match MatchAt(p, afterWord, s)
      case Some(m) => seq(m.len, _ => false) + Unmatched(p, EndsInWord(afterWord, s[..m.len]), s[m.len..])
      case None => [true] + Unmatched(p, IsWord(s[0]), s[1..])
  }

  lemma {:induction false} SelectUnfold(k: bool, c: char, kept: seq<bool>, s: string)
    requires |kept| == |s|
    ensures Select([k] + kept, [c] + s) == (if k then [c] else "") + Select(kept, s)
  {
    assert ([k] + kept)[1..] == kept && ([c] + s)[1..] == s;
  }

  lemma {:induction false} SelectConcat(k: seq<bool>, l: seq<bool>, a: string, b: string)
    requires |k| == |a| && |l| == |b|
    ensures Select(k + l, a + b) == Select(k, a) + Select(l, b)
  {
    if a == "" {
      assert k + l == l && a + b == b;
    } else {
      SelectConcat(k[1..], l, a[1..], b);
      SelectHead(k[0], a[0], k[1..], l, a[1..], b);
      assert [k[0]] + k[1..] == k && [a[0]] + a[1..] == a;
    }
  }

  lemma {:induction false} SelectHead(h: bool, c: char, k: seq<bool>, l: seq<bool>, a: string, b: string)
    requires |k| == |a| && |l| == |b| && Select(k + l, a + b) == Select(k, a) + Select(l, b)
    ensures Select(([h] + k) + l, ([c] + a) + b) == Select([h] + k, [c] + a) + Select(l, b)
  {
    hide Select;
    SelectUnfold(h, c, k, a);
    SelectUnfold(h, c, k + l, a + b);
    Assoc([h], k, l);
    Assoc([c], a, b);
    Assoc(if h then [c] else "", Select(k, a), Select(l, b));
  }

  lemma {:induction false} SelectNone(n: nat, s: string)
    requires n == |s|
    ensures Select(seq(n, _ => false), s) == ""
  {
    if n > 0 {
      assert seq(n, _ => false)[1..] == seq(n - 1, _ => false);
      SelectNone(n - 1, s[1..]);
    }
  }

  /** Removing the matches leaves the unmatched characters. */
  lemma {:induction false} SubSelects(p: Pattern, afterWord: bool, s: string)
    ensures Sub(p, afterWord, s) == Select(Unmatched(p, afterWord, s), s)
    decreases |s|
  {
    hide MatchAt, EndsInWord;
    if s != "" {
      match MatchAt(p, afterWord, s) {
        case Some(m) =>
          var n := m.len;
          SubSelects(p, EndsInWord(afterWord, s[..n]), s[n..]);
          SelectNone(n, s[..n]);
          SelectConcat(seq(n, _ => false), Unmatched(p, EndsInWord(afterWord, s[..n]), s[n..]), s[..n], s[n..]);
          assert s[..n] + s[n..] == s;
        case None =>
          SubSelects(p, IsWord(s[0]), s[1..]);
      }
    }
  }

  /** The marks of `inner`, which are marks on what `outer` keeps, as marks on the whole. */
  function Within(outer: seq<bool>, inner: seq<bool>): (kept: seq<bool>)
    ensures |kept| == |outer|
  {
    if outer == [] then []
    else if outer[0] && inner != [] then [inner[0]] + Within(outer[1..], inner[1..])
    else [false] + Within(outer[1..], inner)
  }

  lemma {:induction false} SelectTwice(outer: seq<bool>, inner: seq<bool>, s: string)
    requires |outer| == |s| && |inner| == |Select(outer, s)|
    ensures Select(inner, Select(outer, s)) == Select(Within(outer, inner), s)
  {
    if s != "" {
      SelectStep(outer, s);
      if outer[0] {
        SelectStep(inner, Select(outer, s));
        SelectTwice(outer[1..], inner[1..], s[1..]);
      } else {
        SelectTwice(outer[1..], inner, s[1..]);
      }
      SelectStep(Within(outer, inner), s);
    }
  }

  /** The characters that belong neither to a percentage of the text nor to a price of what is left
      without the percentages. */
  function Kept(text: string): (kept: seq<bool>)
    ensures |kept| == |text|
  {
    Within(Unmatched(Percent, false, text), Unmatched(Currency, false, Sub(Percent, false, text)))
  }

  lemma {:induction false} KeptSelects(text: string)
    ensures Sub(Currency, false, Sub(Percent, false, text)) == Select(Kept(text), text)
  {
    hide Sub, Unmatched, Select, Within;
    SubSelects(Percent, false, text);
    SubSelects(Currency, false, Sub(Percent, false, text));
    SelectTwice(Unmatched(Percent, false, text), Unmatched(Currency, false, Sub(Percent, false, text)), text);
  }

  lemma {:induction false} JoinsIff(p: Pattern, text: string)
    requires NumberPattern(p)
    ensures Has(p, false, StripNumericClaims(text)) <==> exists j, k :: Joins(p, Kept(text), text, j, k)
  {
    hide Has, Sub, Collapse, Trim, Kept, Select, Joins;
    var left := Sub(Currency, false, Sub(Percent, false, text));
    TidyKeeps(p, left);
    SpanIff(p, left);
    KeptSelects(text);
    SelectSpan(p, Kept(text), text);
    HasSpanIff(p, Kept(text), text);
  }

  /** One pass leaves no claim exactly if no two characters that are kept come to make one: a digit
      and a percent sign, or a rupee sign and a digit, with nothing but white space kept between. */
  lemma {:induction false} OnePassIff(text: string)
    ensures ClaimFree(StripNumericClaims(text)) <==>
      !exists p: Pattern, j, k :: NumberPattern(p) && Joins(p, Kept(text), text, j, k)
  {
    hide Has, StripNumericClaims, Joins, Kept;
    JoinsIff(Percent, text);
    JoinsIff(Currency, text);
  }

  lemma {:induction false} NumberFresh(p: Pattern, s: string)
    requires NumberPattern(p)
    ensures Has(p, true, s) <==> Has(p, false, s)
  {}

  lemma {:induction false} NoSignNoClaim(p: Pattern, s: string)
    requires NumberPattern(p) && Signs(s) == 0
    ensures !Has(p, false, s)
  {
    if s != "" {
      if MatchAt(p, false, s).Some? { MatchSplits(p, false, s); }
      NoSignNoClaim(p, s[1..]);
      NumberFresh(p, s[1..]);
    }
  }

  lemma {:induction false} SomeSign(text: string)
    requires !ClaimFree(text)
    ensures Signs(text) > 0
  {
    if Signs(text) == 0 {
      NoSignNoClaim(Percent, text);
      NoSignNoClaim(Currency, text);
    }
  }

  /** One more pass: the text is claim-free, or it has lost another sign. */
  lemma {:induction false} OneMore(text: string, k: nat, total: nat)
    requires ClaimFree(text) || Signs(text) + k <= total
    ensures ClaimFree(StripNumericClaims(text)) || Signs(StripNumericClaims(text)) + k + 1 <= total
  {
    if ClaimFree(text) { ClaimFreeStays(text); } else { PassRemovesSign(text); }
  }

  lemma {:induction false} PassesProgress(n: nat, text: string)
    ensures ClaimFree(Repeated(n, text)) || Signs(Repeated(n, text)) + n <= Signs(text)
  {
    hide StripNumericClaims;
    if n > 0 {
      PassesProgress(n - 1, text);
      OneMore(Repeated(n - 1, text), n - 1, Signs(text));
    }
  }

  /** As many passes as there are signs leave no claim, and so do more. */
  lemma {:induction false} PassesSuffice(n: nat, text: string)
    requires Signs(text) <= n
    ensures ClaimFree(Repeated(n, text))
  {
    PassesProgress(n, text);
    if !ClaimFree(Repeated(n, text)) { SomeSign(Repeated(n, text)); }
  }

  /** A text with at most one sign satisfies the condition: no two kept characters make a claim. */
  lemma {:induction false} OnePassSuffices(text: string)
    requires Signs(text) <= 1
    ensures !exists p: Pattern, j, k :: NumberPattern(p) && Joins(p, Kept(text), text, j, k)
    ensures ClaimFree(StripNumericClaims(text))
  {
    hide Joins, Kept;
    PassesSuffice(1, text);
    assert Repeated(1, text) == StripNumericClaims(Repeated(0, text));
    OnePassIff(text);
  }

  lemma {:induction false} SubKeeps(p: Pattern, afterWord: bool, c: char, rest: string)
    requires NumberPattern(p) && MatchAt(p, afterWord, [c] + rest) == None
    ensures Sub(p, afterWord, [c] + rest) == [c] + Sub(p, IsWord(c), rest)
  {
    SubStep(p, afterWord, [c] + rest);
    assert ([c] + rest)[1..] == rest;
  }

  lemma {:induction false} DigitThenSpaceDigit(s: string)
    requires |s| > 2 && IsDigit(s[0]) && s[1] == ' ' && IsDigit(s[2])
    ensures MatchAt(Percent, false, s) == None
  {
    assert Run(Digit, s[1..]) == 0;
    assert s[1..][1..][0] == s[2];
    assert Run(Space, s[1..]) == 1;
  }

  lemma {:induction false} DigitThenPercent(s: string)
    requires |s| > 1 && IsDigit(s[0]) && s[1] == '%'
    ensures MatchAt(Percent, false, s).Some? && MatchAt(Percent, false, s).value.len == 2
  {
    assert Run(Digit, s[1..]) == 0;
    assert Run(Space, s[1..]) == 0;
  }

  lemma {:induction false} NoDigitNoMatch(s: string)
    requires s != "" && !IsDigit(s[0])
    ensures MatchAt(Percent, false, s) == None
  {}

  /** `<digit> <digit>%%`: the first pass joins the first digit and the second percent sign. */
  lemma {:induction false} PercentJoins(a: char, b: char)
    requires IsDigit(a) && IsDigit(b)
    ensures Sub(Percent, false, [a] + ([' '] + [b, '%', '%'])) == [a] + ([' '] + ['%'])
  {
    var tail := [b, '%', '%'];
    DigitThenSpaceDigit([a] + ([' '] + tail));
    SubKeeps(Percent, false, a, [' '] + tail);
    NoDigitNoMatch([' '] + tail);
    SubKeeps(Percent, true, ' ', tail);
    DigitThenPercent(tail);
    SubMatched(Percent, false, tail);
    assert tail[2..] == ['%'];
    LonePercent();
  }

  lemma {:induction false} LonePercent()
    ensures Sub(Percent, false, ['%']) == ['%'] && Sub(Percent, true, ['%']) == ['%']
  {
    NoDigitNoMatch(['%']);
    SubStep(Percent, false, ['%']);
    SubStep(Percent, true, ['%']);
    assert ['%'][1..] == "";
  }

  /** One pass can leave a claim behind: `5 1%%` becomes `5 %`. */
  lemma {:induction false} OnePassIsNotEnough(text: string)
    requires text == "5 1%%"
    ensures !ClaimFree(StripNumericClaims(text))
  {
    assert text == ['5'] + ([' '] + ['1', '%', '%']);
    PercentJoins('5', '1');
    var rest := ['5'] + ([' '] + ['%']);
    UntouchedFigure(rest);
    FigureMatches(rest);
  }

  predicate SpacedFigure(t: string) { |t| == 3 && IsDigit(t[0]) && t[1] == ' ' && t[2] == '%' }

  lemma {:induction false} FigureMatches(t: string)
    requires SpacedFigure(t)
    ensures Has(Percent, false, t)
  {
    assert Run(Digit, t[1..]) == 0;
    assert Fraction(t[1..]) == 0;
    assert Run(Space, t[1..][1..]) == 0;
    assert PercentSign(t[1..]) == 2;
  }

  lemma {:induction false} FigureCollapses(t: string)
    requires SpacedFigure(t)
    ensures Collapse(t) == t
  {
    var u := t[1..];
    assert u[1..] == ['%'];
    assert Collapse(['%']) == ['%'] by { assert ['%'][1..] == ""; }
    assert Run(Space, u[1..]) == 0;
    assert Collapse(u) == [' '] + ['%'];
  }

  lemma {:induction false} FigureTrims(t: string)
    requires SpacedFigure(t)
    ensures Trim(t) == t
  {
    assert TrimLeft(t) == t;
    assert TrimRight(t) == t;
  }

  lemma {:induction false} FigureHasNoPrice(t: string)
    requires SpacedFigure(t)
    ensures !Has(Currency, false, t)
  {
    NoPriceSign(t);
  }

  lemma {:induction false} UntouchedFigure(t: string)
    requires SpacedFigure(t)
    ensures Trim(Collapse(Sub(Currency, false, t))) == t
  {
    FigureHasNoPrice(t);
    SubShortens(Currency, false, t);
    FigureCollapses(t);
    FigureTrims(t);
  }

  lemma {:induction false} NoPriceSign(t: string)
    requires '₹' !in t
    ensures !Has(Currency, false, t)
  {
    if t != "" {
      assert t[0] in t;
      forall c | c in t[1..] ensures c in t {}
      NoPriceSign(t[1..]);
      NumberFresh(Currency, t[1..]);
    }
  }
}
