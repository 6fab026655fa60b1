/** What `_sanitize_fact` leaves: one pass over URLs, field assignments and the injection phrase. */
module Sanitizing {
  import opened Text
  import opened Scan
  import opened Cuts
  import opened Meaning
  import opened ClaimStripping
  import opened Tidying
  import opened Composer

  // ---- passes ------------------------------------------------------------------------------------

  predicate Harmless(s: string) { !Has(Url, false, s) && !Has(FieldAssignment, false, s) && !Has(Injection, false, s) }

  lemma {:induction false} CollapseShortens(s: string)
    ensures |Collapse(s)| == |s| ==> Collapse(s) == s
    decreases |s|
  {
    if s != "" {
      var w := Run(Space, s);
      if w < 2 {
        CollapseShortens(s[1..]);
        assert [s[0]] + s[1..] == s;
      }
    }
  }

  lemma {:induction false} TrimShortens(s: string)
    ensures |Trim(s)| == |s| ==> Trim(s) == s
  {}

  /** Sanitizing changes nothing exactly if there is nothing to cut out, collapse or trim; otherwise
      it shortens the fact. */
  lemma {:induction false} UnchangedIff(fact: string)
    ensures SanitizeFact(fact) == fact <==> Harmless(fact) && Collapse(fact) == fact && Trim(fact) == fact
    ensures SanitizeFact(fact) != fact ==> |SanitizeFact(fact)| < |fact|
  {
    hide Has, Sub, Collapse, Trim;
    var a := Sub(Url, false, fact);
    var b := Sub(FieldAssignment, false, a);
    var c := Sub(Injection, false, b);
    SubShortens(Url, false, fact);
    SubShortens(FieldAssignment, false, a);
    SubShortens(Injection, false, b);
    CollapseShortens(c);
    TrimShortens(Collapse(c));
  }

  function Sanitized(n: nat, fact: string): string { if n == 0 then fact else SanitizeFact(Sanitized(n - 1, fact)) }

  lemma {:induction false} PassesShorten(n: nat, fact: string)
    ensures var r := Sanitized(n, fact); SanitizeFact(r) == r || |r| + n <= |fact|
  {
    hide SanitizeFact;
    if n > 0 {
      PassesShorten(n - 1, fact);
      UnchangedIff(Sanitized(n - 1, fact));
    }
  }

  lemma {:induction false} NothingToSanitize()
    ensures SanitizeFact("") == ""
  {}

  /** As many passes as the fact has characters leave no URL, no field assignment and no injection
      phrase, and no later pass changes anything. */
  lemma {:induction false} PassesEnd(n: nat, fact: string)
    requires |fact| <= n
    ensures Harmless(Sanitized(n, fact)) && SanitizeFact(Sanitized(n, fact)) == Sanitized(n, fact)
  {
    hide SanitizeFact, Harmless;
    PassesShorten(n, fact);
    NothingToSanitize();
    UnchangedIff(Sanitized(n, fact));
  }

  // ---- exactly what one pass leaves ---------------------------------------------------------------

  /** The three patterns that are cut out. */
  predicate CutOut(p: Pattern) { p.Url? || p.FieldAssignment? || p.Injection? }

  /** Does a match start here that tidying leaves? */
  predicate Stays(p: Pattern, afterWord: bool, s: string)
    requires CutOut(p)
  {
    match p
    case Url => SchemeStays(s) || (!afterWord && Host(s) > 0)
    case FieldAssignment => !afterWord && FieldStays(s)
    case _ => !afterWord && InjectionAt(s).Some?
  }

  predicate StaysAt(p: Pattern, afterWord: bool, s: string, i: nat)
    requires CutOut(p)
  {
    i < |s| && Stays(p, Before(afterWord, s, i), s[i..])
  }

  predicate Survives(p: Pattern, afterWord: bool, s: string)
    requires CutOut(p)
    decreases |s|
  {
    s != "" && (Stays(p, afterWord, s) || Survives(p, IsWord(s[0]), s[1..]))
  }

  lemma {:induction false} StaysShifted(p: Pattern, afterWord: bool, s: string, i: nat)
    requires CutOut(p) && 0 < i < |s|
    ensures StaysAt(p, afterWord, s, i) <==> StaysAt(p, IsWord(s[0]), s[1..], i - 1)
  {
    hide Stays;
    assert s[1..][i - 1..] == s[i..];
  }

  lemma {:induction false} SurvivesIff(p: Pattern, afterWord: bool, s: string)
    requires CutOut(p)
    ensures Survives(p, afterWord, s) <==> exists i: nat :: StaysAt(p, afterWord, s, i)
    decreases |s|
  {
    hide Stays;
    if s != "" {
      assert s[0..] == s;
      SurvivesIff(p, IsWord(s[0]), s[1..]);
      if Stays(p, afterWord, s) {
        assert StaysAt(p, afterWord, s, 0);
      } else if Survives(p, IsWord(s[0]), s[1..]) {
        var i: nat :| StaysAt(p, IsWord(s[0]), s[1..], i);
        StaysShifted(p, afterWord, s, i + 1);
        assert StaysAt(p, afterWord, s, i + 1);
      }
      forall i: nat | StaysAt(p, afterWord, s, i) ensures Survives(p, afterWord, s) {
        if i > 0 {
          StaysShifted(p, afterWord, s, i);
          assert StaysAt(p, IsWord(s[0]), s[1..], i - 1);
        }
      }
    }
  }

  lemma {:induction false} NoKeyword(s: string, words: set<string>)
    requires s != "" && !IsWord(s[0]) && "" !in words
    ensures Keyword(s, words) == 0
  {
    assert Run(Word, s) == 0 && Lower(s[..0]) == "";
  }

  /** Every match starts with a letter or a digit. */
  lemma {:induction false} MatchNeedsWord(p: Pattern, afterWord: bool, s: string)
    requires CutOut(p) && s != "" && !IsWord(s[0])
    ensures MatchAt(p, afterWord, s) == None && !Stays(p, afterWord, s)
  {
    hide Keyword;
    NoKeyword(s, Vocabulary(FieldAssignment));
    NoKeyword(s, {"ignore", "disregard"});
    UrlNeedsLetter(afterWord, s);
  }

  lemma {:induction false} UrlNeedsLetter(afterWord: bool, s: string)
    requires s != "" && !IsWord(s[0])
    ensures SchemeUrl(s) == 0 && Host(s) == 0 && Scheme(s) == 0
  {}

  lemma {:induction false} HasCons(p: Pattern, afterWord: bool, c: char, r: string)
    requires CutOut(p) && !IsWord(c)
    ensures Has(p, afterWord, [c] + r) <==> Has(p, false, r)
  {
    hide MatchAt;
    MatchNeedsWord(p, afterWord, [c] + r);
    assert ([c] + r)[1..] == r;
  }

  lemma {:induction false} SpacesSurvive(p: Pattern, afterWord: bool, s: string, n: nat)
    requires CutOut(p) && 0 < n <= |s| && forall i | 0 <= i < n :: IsSpace(s[i])
    ensures Survives(p, afterWord, s) <==> Survives(p, false, s[n..])
  {
    hide Stays;
    MatchNeedsWord(p, afterWord, s);
    if n > 1 {
      SpacesSurvive(p, false, s[1..], n - 1);
      Drops(s, 1, n - 1);
    }
  }

  /** A match starts in a tidied text where one starts that stays. */
  lemma {:induction false} MatchTidied(p: Pattern, afterWord: bool, s: string)
    requires CutOut(p)
    ensures MatchAt(p, afterWord, Tidy(s)).Some? <==> Stays(p, afterWord, s)
  {
    hide Tidy, SchemeUrl, Host, Path, SchemeStays, FieldStays, FieldAssignmentAt, InjectionAt;
    HostTidied(s);
    SchemeTidied(s);
    FieldTidied(s);
    PhraseTidied(s);
  }

  lemma {:induction false} TidyHas(p: Pattern, afterWord: bool, s: string)
    requires CutOut(p)
    ensures Has(p, afterWord, Tidy(s)) <==> Survives(p, afterWord, s)
    decreases |s|
  {
    hide TrimRight, Has, Stays, IsSpace;
    SweptNothing();
    NothingFound(p);
    if s != "" && Run(Space, s) >= 2 {
      var w := Run(Space, s);
      RunIs(Space, s);
      TidyHas(p, false, s[w..]);
      SpacesSurvive(p, afterWord, s, w);
      TrimRightCons(' ', Collapse(s[w..]));
      HasCons(p, afterWord, ' ', Tidy(s[w..]));
    } else if s != "" {
      TidyHas(p, IsWord(s[0]), s[1..]);
      TidyHasOne(p, afterWord, s);
    }
  }

  lemma {:induction false} NothingFound(p: Pattern)
    ensures forall aw :: !Has(p, aw, "")
  {}

  lemma {:induction false} TidyHasOne(p: Pattern, afterWord: bool, s: string)
    requires CutOut(p) && s != "" && Run(Space, s) < 2
    requires Has(p, IsWord(s[0]), Tidy(s[1..])) <==> Survives(p, IsWord(s[0]), s[1..])
    ensures Has(p, afterWord, Tidy(s)) <==> Survives(p, afterWord, s)
  {
    hide TrimRight, MatchAt, Stays, IsSpace;
    var c, r := s[0], Tidy(s[1..]);
    TrimRightCons(c, Collapse(s[1..]));
    MatchTidied(p, afterWord, s);
    if r == "" && IsTrim(c) {
      MatchNeedsWord(p, afterWord, s);
    } else {
      assert Tidy(s) == [c] + r && ([c] + r)[1..] == r;
    }
  }

  lemma {:induction false} TrimFront(p: Pattern, s: string)
    requires CutOut(p)
    ensures Has(p, false, Trim(s)) <==> Has(p, false, TrimRight(s))
  {
    hide Has;
    if s != "" && IsTrim(s[0]) {
      TrimFront(p, s[1..]);
      TrimRightCons(s[0], s[1..]);
      assert [s[0]] + s[1..] == s;
      HasCons(p, false, s[0], TrimRight(s[1..]));
    }
  }

  /** Marks the characters of a fact that none of the three substitutions takes. */
  function KeptOfFact(fact: string): (kept: seq<bool>)
    ensures |kept| == |fact|
  {
    var a := Sub(Url, false, fact);
    var b := Sub(FieldAssignment, false, a);
    Within(Within(Unmatched(Url, false, fact), Unmatched(FieldAssignment, false, a)), Unmatched(Injection, false, b))
  }

  lemma {:induction false} KeptOfFactSelects(fact: string)
    ensures Sub(Injection, false, Sub(FieldAssignment, false, Sub(Url, false, fact))) == Select(KeptOfFact(fact), fact)
  {
    hide Sub, Unmatched, Select, Within;
    var a := Sub(Url, false, fact);
    var b := Sub(FieldAssignment, false, a);
    SubSelects(Url, false, fact);
    SubSelects(FieldAssignment, false, a);
    SubSelects(Injection, false, b);
    SelectTwice(Unmatched(Url, false, fact), Unmatched(FieldAssignment, false, a), fact);
    SelectTwice(Within(Unmatched(Url, false, fact), Unmatched(FieldAssignment, false, a)), Unmatched(Injection, false, b), fact);
  }

  /** A sanitized fact holds one of the patterns exactly if the characters the substitutions keep come
      to make one that trimming leaves. */
  lemma {:induction false} LeftIff(p: Pattern, fact: string)
    requires CutOut(p)
    ensures Has(p, false, SanitizeFact(fact)) <==> exists i: nat :: StaysAt(p, false, Select(KeptOfFact(fact), fact), i)
  {
    hide Has, Sub, Select, KeptOfFact, Trim, TrimRight, Collapse, StaysAt, Survives;
    var left := Select(KeptOfFact(fact), fact);
    KeptOfFactSelects(fact);
    TrimFront(p, Collapse(left));
    TidyHas(p, false, left);
    SurvivesIff(p, false, left);
  }

  /** One pass is enough exactly if the kept characters make no URL, no field assignment and no
      injection phrase. */
  lemma {:induction false} HarmlessIff(fact: string)
    ensures Harmless(SanitizeFact(fact)) <==>
      !exists p: Pattern, i: nat :: CutOut(p) && StaysAt(p, false, Select(KeptOfFact(fact), fact), i)
  {
    hide Has, SanitizeFact, StaysAt, Select, KeptOfFact;
    LeftIff(Url, fact);
    LeftIff(FieldAssignment, fact);
    LeftIff(Injection, fact);
  }
}
