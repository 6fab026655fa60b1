/** Collapsing white space and trimming the end, and what that does to the patterns `_sanitize_fact`
    cuts out. */
module Tidying {
  import opened Text
  import opened Scan
  import opened Cuts

  // ---- white space and trimming against URLs ------------------------------------------------------

  function Tidy(s: string): string { TrimRight(Collapse(s)) }

  lemma {:induction false} TrimRightConcat(a: string, b: string)
    ensures TrimRight(a + b) == if TrimRight(b) != "" then a + TrimRight(b) else TrimRight(a)
  {
    if b == "" {
      assert a + b == a;
    } else {
      var n := |b| - 1;
      assert (a + b)[|a + b| - 1] == b[n];
      if IsTrim(b[n]) {
        assert (a + b)[..|a + b| - 1] == a + b[..n];
        TrimRightConcat(a, b[..n]);
      }
    }
  }

  predicate Visible(s: string) { forall c | c in s :: !IsSpace(c) }

  /** Collapsing leaves the visible beginning alone. */
  lemma {:induction false} CollapseVisible(a: string, b: string)
    requires Visible(a)
    ensures Collapse(a + b) == a + Collapse(b)
  {
    if a == "" {
      assert a + b == b;
    } else {
      assert a[0] in a;
      assert (a + b)[1..] == a[1..] + b;
      forall c | c in a[1..] ensures c in a {}
      CollapseVisible(a[1..], b);
      assert Run(Space, a + b) == 0;
      Assoc([a[0]], a[1..], Collapse(b));
      assert [a[0]] + a[1..] == a;
    }
  }

  lemma {:induction false} TidyVisible(a: string, b: string)
    requires Visible(a)
    ensures Tidy(a + b) == if Tidy(b) != "" then a + Tidy(b) else TrimRight(a)
  {
    CollapseVisible(a, b);
    TrimRightConcat(a, Collapse(b));
  }

  /** Tidying a text leaves its first character first, if it leaves anything. */
  lemma {:induction false} TidyHead(b: string)
    requires Tidy(b) != ""
    ensures b != "" && (if IsSpace(b[0]) then IsSpace(Tidy(b)[0]) else Tidy(b)[0] == b[0])
  {
    assert Collapse("") == "" && TrimRight("") == "";
    assert Tidy(b)[0] == Collapse(b)[0];
  }

  // A host ends where no further word character follows.

  lemma {:induction false} HostBefore(a: string, b: string)
    requires b != "" ==> !IsWord(b[0]) && b[0] != '.' && (In(b[0], Label) ==> |b| == 1)
    ensures Host(a + b) == Host(a)
  {
    hide Vocabulary;
    if b == "" {
      assert a + b == a;
    } else {
      RunConcat(Label, a, b);
      var n := Run(Label, a);
      if n < |a| {
        DropConcat(a, b, n + 1);
        KeywordBefore(a[n + 1..], b);
      } else {
        LoneLabel(b);
      }
    }
  }

  lemma {:induction false} LoneLabel(b: string)
    requires b != "" && b[0] != '.' && (In(b[0], Label) ==> |b| == 1)
    ensures Run(Label, b) < |b| ==> b[Run(Label, b)] != '.'
  {}

  lemma {:induction false} KeywordBefore(a: string, b: string)
    requires b != "" && !IsWord(b[0])
    ensures Keyword(a + b, Vocabulary(Url)) == Keyword(a, Vocabulary(Url))
  {
    hide Vocabulary;
    RunConcat(Word, a, b);
    DropConcat(a, b, Run(Word, a));
  }

  lemma {:induction false} HostTrimmed(a: string)
    ensures Host(TrimRight(a)) == Host(a)
  {
    hide Host;
    if a != "" && IsTrim(a[|a| - 1]) {
      var n := |a| - 1;
      HostTrimmed(a[..n]);
      HostBefore(a[..n], [a[n]]);
      assert a[..n] + [a[n]] == a;
    }
  }

  lemma {:induction false} SplitVisible(s: string)
    ensures var h := Run(NonSpace, s); Visible(s[..h]) && (h < |s| ==> IsSpace(s[h])) && s[..h] + s[h..] == s
  {
    RunIs(NonSpace, s);
  }

  lemma {:induction false} HostTidied(s: string)
    ensures Host(Tidy(s)) == Host(s)
  {
    hide Host, Tidy;
    var h := Run(NonSpace, s);
    var a, b := s[..h], s[h..];
    SplitVisible(s);
    TidyVisible(a, b);
    HostBefore(a, b);
    if Tidy(b) != "" {
      TidyHead(b);
      HostBefore(a, Tidy(b));
    } else {
      HostTrimmed(a);
    }
  }

  // A scheme needs a visible character that no trimming takes.

  /** Does trimming take all of `s`, the end of a text, once its white space is collapsed? Every
      character is one that is trimmed, or white space beside white space. */
  predicate Swept(s: string) { forall j | 0 <= j < |s| :: IsTrim(s[j]) || SpaceBeside(s, j) }

  predicate SpaceBeside(s: string, j: nat)
    requires j < |s|
  {
    IsSpace(s[j]) && ((j > 0 && IsSpace(s[j - 1])) || (j + 1 < |s| && IsSpace(s[j + 1])))
  }

  lemma {:induction false} SweptTail(s: string)
    requires s != "" && (!IsSpace(s[0]) || Run(Space, s) == 1)
    ensures Swept(s) <==> IsTrim(s[0]) && Swept(s[1..])
  {
    var t := s[1..];
    RunIs(Space, s);
    forall j | 0 <= j < |t| ensures SpaceBeside(t, j) == SpaceBeside(s, j + 1) {}
    if Swept(s) { forall j | 0 <= j < |t| ensures IsTrim(t[j]) || SpaceBeside(t, j) { assert t[j] == s[j + 1]; } }
    if IsTrim(s[0]) && Swept(t) { forall j | 0 < j < |s| ensures IsTrim(s[j]) || SpaceBeside(s, j) { assert t[j - 1] == s[j]; } }
  }

  lemma {:induction false} SweptRun(s: string)
    requires Run(Space, s) >= 2
    ensures Swept(s) <==> Swept(s[Run(Space, s)..])
  {
    var w := Run(Space, s);
    var t := s[w..];
    RunIs(Space, s);
    forall j | 0 <= j < |t| ensures SpaceBeside(t, j) == SpaceBeside(s, j + w) {}
    if Swept(s) { forall j | 0 <= j < |t| ensures IsTrim(t[j]) || SpaceBeside(t, j) { assert t[j] == s[j + w]; } }
    if Swept(t) {
      forall j | 0 <= j < |s| ensures IsTrim(s[j]) || SpaceBeside(s, j) {
        if j >= w { assert t[j - w] == s[j]; } else { assert IsSpace(s[j]) && IsSpace(s[if j == 0 then 1 else j - 1]); }
      }
    }
  }

  lemma {:induction false} TrimRightCons(c: char, rest: string)
    ensures TrimRight([c] + rest) == if TrimRight(rest) == "" && IsTrim(c) then "" else [c] + TrimRight(rest)
  {
    TrimRightConcat([c], rest);
    assert [c][..0] == "";
  }

  lemma {:induction false} SweptIff(s: string)
    ensures Swept(s) <==> Tidy(s) == ""
    decreases |s|
  {
    hide TrimRight, Swept;
    if s == "" {
      SweptNothing();
    } else {
      var w := Run(Space, s);
      RunIs(Space, s);
      if w >= 2 {
        SweptIff(s[w..]);
        SweptRun(s);
        TrimRightCons(' ', Collapse(s[w..]));
      } else {
        SweptIff(s[1..]);
        SpaceRunOne(s);
        SweptTail(s);
        TrimRightCons(s[0], Collapse(s[1..]));
      }
    }
  }

  lemma {:induction false} SpaceRunOne(s: string)
    requires s != "" && Run(Space, s) < 2
    ensures !IsSpace(s[0]) || Run(Space, s) == 1
  {}

  lemma {:induction false} SweptNothing()
    ensures Swept("") && Tidy("") == ""
  {}

  /** A scheme with something visible behind it that is not all swept away. */
  predicate SchemeStays(s: string) {
    var k := Scheme(s);
    0 < k < |s| && !IsSpace(s[k]) && !Swept(s[k..])
  }

  lemma {:induction false} SchemeText(s: string)
    requires Scheme(s) > 0
    ensures var a := s[..Scheme(s)]; Visible(a) && Lower(a) in {"http://", "https://", "www."} && TrimRight(a) == a
  {
    var a := s[..Scheme(s)];
    var word := if Starts(s, "https://") then "https://" else if Starts(s, "http://") then "http://" else "www.";
    assert Lower(a) == word;
    forall c | c in a ensures !IsSpace(c) {
      var i :| 0 <= i < |a| && a[i] == c;
      assert LowerChar(a[i]) == word[i] && word[i] in {'h', 't', 'p', 's', ':', '/', 'w', '.'};
    }
    assert LowerChar(a[|a| - 1]) == word[|word| - 1];
  }

  /** The scheme a text opens with is the one its beginning opens with. */
  lemma {:induction false} SchemeOfBeginning(s: string, t: string)
    requires var k := Scheme(t); 0 < k <= |s| && s[..k] == t[..k]
    ensures Scheme(s) == Scheme(t)
  {
    var k := Scheme(t);
    forall i | 0 <= i < k ensures s[i] == t[i] { assert s[..k][i] == t[..k][i]; }
    if Starts(t, "https://") {
    } else if Starts(t, "http://") {
      assert LowerChar(s[4]) == ':';
    } else {
      assert LowerChar(s[0]) == 'w';
    }
  }

  lemma {:induction false} SchemeTidied(s: string)
    ensures SchemeUrl(Tidy(s)) > 0 <==> SchemeStays(s)
  {
    hide Tidy, Scheme, Swept;
    if SchemeStays(s) { StaysTidied(s); }
    if SchemeUrl(Tidy(s)) > 0 { TidiedStays(s); }
  }

  lemma {:induction false} StaysTidied(s: string)
    requires SchemeStays(s)
    ensures SchemeUrl(Tidy(s)) > 0
  {
    hide Tidy, Swept, SchemeUrl;
    var k := Scheme(s);
    var a, b := s[..k], s[k..];
    SchemeText(s);
    assert a + b == s;
    TidyVisible(a, b);
    SweptIff(b);
    TidyHead(b);
    SchemeJoins(a, Tidy(b));
  }

  lemma {:induction false} TidiedStays(s: string)
    requires SchemeUrl(Tidy(s)) > 0
    ensures SchemeStays(s)
  {
    hide Tidy, Swept, Scheme;
    var t := Tidy(s);
    var k := Scheme(t);
    SchemeText(t);
    TidyBegins(s, k + 1);
    Shorter(s, t, k);
    SchemeOfBeginning(s, t);
    var b := s[k..];
    assert s[..k] + b == s;
    TidyVisible(s[..k], b);
    SweptIff(b);
  }

  lemma {:induction false} Shorter(s: string, t: string, k: nat)
    requires k < |s| && k < |t| && s[..k + 1] == t[..k + 1]
    ensures s[..k] == t[..k] && s[k] == t[k]
  {
    assert s[..k + 1][..k] == s[..k] && t[..k + 1][..k] == t[..k];
    assert s[..k + 1][k] == s[k] && t[..k + 1][k] == t[k];
  }

  lemma {:induction false} SpaceSeen(a: string, b: string, n: nat)
    requires |a| < n <= |a + b| && IsSpace(b[0])
    ensures !Visible((a + b)[..n])
  {
    assert (a + b)[..n][|a|] == b[0];
  }

  /** What is visible at the beginning of the tidied text was there before. */
  lemma {:induction false} TidyBegins(s: string, n: nat)
    requires n <= |Tidy(s)| && Visible(Tidy(s)[..n])
    ensures n <= |s| && s[..n] == Tidy(s)[..n]
  {
    hide Tidy;
    var h := Run(NonSpace, s);
    var a, b := s[..h], s[h..];
    SplitVisible(s);
    TidyVisible(a, b);
    if Tidy(b) != "" {
      TidyHead(b);
      if n > h { SpaceSeen(a, Tidy(b), n); }
    }
  }

  // ---- white space and trimming against field names and the injection phrase -----------------------

  lemma {:induction false} WordBeforeKeyword(a: string, b: string, words: set<string>)
    requires b != "" ==> !IsWord(b[0])
    ensures Keyword(a + b, words) == Keyword(a, words) && Run(Word, a + b) == Run(Word, a)
  {
    if b == "" {
      assert a + b == a;
    } else {
      RunConcat(Word, a, b);
      DropConcat(a, b, Run(Word, a));
    }
  }

  lemma {:induction false} LeadingWord(s: string)
    ensures var n := Run(Word, s); Visible(s[..n]) && TrimRight(s[..n]) == s[..n] && s[..n] + s[n..] == s
    ensures Run(Word, s) < |s| ==> !IsWord(s[Run(Word, s)])
  {
    RunIs(Word, s);
    var n := Run(Word, s);
    forall c | c in s[..n] ensures !IsSpace(c) {
      var i :| 0 <= i < n && s[..n][i] == c;
      assert In(s[i], Word);
    }
    assert n > 0 ==> In(s[..n][n - 1], Word);
  }

  /** Tidying leaves the leading word and tidies what follows. */
  lemma {:induction false} TidyWord(s: string, words: set<string>)
    ensures var n := Run(Word, s); Run(Word, Tidy(s)) == n && Tidy(s) == s[..n] + Tidy(s[n..])
    ensures Keyword(Tidy(s), words) == Keyword(s, words)
  {
    hide Tidy, Keyword;
    var n := Run(Word, s);
    var w, b := s[..n], s[n..];
    LeadingWord(s);
    TidyVisible(w, b);
    assert w + "" == w;
    if Tidy(b) != "" { TidyHead(b); }
    WordBeforeKeyword(w, b, words);
    WordBeforeKeyword(w, Tidy(b), words);
  }

  /** Leading white space becomes one space at most, or goes with everything else that is trimmed. */
  lemma {:induction false} TidySpaces(s: string)
    ensures var r := s[Run(Space, s)..]; var t := Tidy(s);
      && (Tidy(r) != "" ==> (Run(Space, t) > 0 <==> Run(Space, s) > 0) && t[Run(Space, t)..] == Tidy(r))
      && (Tidy(r) == "" ==> Run(Space, t) == |t|)
  {
    hide TrimRight;
    var w := Run(Space, s);
    var r := s[w..];
    RunIs(Space, s);
    if w == 0 {
      if Tidy(r) != "" { TidyHead(r); }
    } else {
      var c := if w >= 2 then ' ' else s[0];
      assert Collapse(s) == [c] + Collapse(r);
      TrimRightCons(c, Collapse(r));
      if Tidy(r) != "" {
        TidyHead(r);
        assert ([c] + Tidy(r))[1..] == Tidy(r);
      } else {
        assert [c] + "" == [c] && [c][1..] == "";
      }
    }
  }

  /** A field name, a sign, and something behind it that is not all swept away. */
  predicate FieldStays(s: string) {
    var n := Keyword(s, Vocabulary(FieldAssignment));
    var w := n + Run(Space, s[n..]);
    n > 0 && w < |s| && s[w] in {':', '='} && ValueStays(s[w + 1..])
  }

  predicate ValueStays(s: string) { Run(Space, s) < |s| && !Swept(s[Run(Space, s)..]) }

  /** Is there a value to assign? */
  predicate HasValue(s: string) { Run(Space, s) < |s| }

  /** What follows the name. */
  predicate Assigns(s: string) {
    var w := Run(Space, s);
    w < |s| && s[w] in {':', '='} && HasValue(s[w + 1..])
  }

  lemma {:induction false} FieldIs(s: string)
    ensures var n := Keyword(s, Vocabulary(FieldAssignment));
      FieldAssignmentAt(s).Some? <==> n > 0 && Assigns(s[n..])
  {
    hide Vocabulary, Keyword;
    var n := Keyword(s, Vocabulary(FieldAssignment));
    var w := Run(Space, s[n..]);
    if n + w < |s| {
      var v := s[n + w + 1..];
      RunIs(Space, v);
      assert s[n..][w] == s[n + w] && s[n..][w + 1..] == v;
      assert s[n + w + 1 + Run(Space, v)..] == v[Run(Space, v)..];
      assert HasValue(v) ==> v[Run(Space, v)..][0] == v[Run(Space, v)];
    }
  }

  lemma {:induction false} ValueTidied(s: string)
    ensures HasValue(Tidy(s)) <==> ValueStays(s)
  {
    hide Tidy, Swept;
    var r := s[Run(Space, s)..];
    TidySpaces(s);
    SweptIff(r);
    SweptNothing();
    if Tidy(r) != "" {
      TidyHead(r);
      RunIs(Space, s);
      var t := Tidy(s);
      assert t[Run(Space, t)..] != "";
    }
  }

  lemma {:induction false} SignTidied(c: char, rest: string)
    requires c == ':' || c == '='
    ensures Tidy([c] + rest) == [c] + Tidy(rest)
  {
    hide Tidy;
    TidyVisible([c], rest);
    assert TrimRight([c]) == [c] && [c] + "" == [c];
  }

  lemma {:induction false} AssignsTidied(s: string)
    ensures Assigns(Tidy(s)) <==> var w := Run(Space, s); w < |s| && s[w] in {':', '='} && ValueStays(s[w + 1..])
  {
    hide Tidy, Swept, HasValue, ValueStays;
    var w := Run(Space, s);
    var r, t := s[w..], Tidy(s);
    RunIs(Space, s);
    TidySpaces(s);
    SweptNothing();
    if w < |s| && s[w] in {':', '='} {
      assert r == [s[w]] + s[w + 1..];
      SignTidied(s[w], s[w + 1..]);
      ValueTidied(s[w + 1..]);
      SignThere(t, s[w], Tidy(s[w + 1..]));
    } else if Tidy(r) != "" {
      TidyHead(r);
      assert t[Run(Space, t)..][0] == r[0] == s[w];
    }
  }

  lemma {:induction false} SignThere(t: string, c: char, rest: string)
    requires t[Run(Space, t)..] == [c] + rest
    ensures Run(Space, t) < |t| && t[Run(Space, t)] == c && t[Run(Space, t) + 1..] == rest
  {
    var k := Run(Space, t);
    assert t[k..][0] == c && t[k..][1..] == rest;
  }

  lemma {:induction false} FieldTidied(s: string)
    ensures FieldAssignmentAt(Tidy(s)).Some? <==> FieldStays(s)
  {
    hide Tidy, Vocabulary, Assigns, ValueStays;
    var t := Tidy(s);
    var n := Keyword(s, Vocabulary(FieldAssignment));
    FieldIs(t);
    TidyWord(s, Vocabulary(FieldAssignment));
    if n > 0 {
      assert t[n..] == Tidy(s[n..]);
      AssignsTidied(s[n..]);
      var w := Run(Space, s[n..]);
      if n + w < |s| { assert s[n..][w] == s[n + w] && s[n..][w + 1..] == s[n + w + 1..]; }
    }
  }

  // The injection phrase ends in a word, which no trimming takes.

  lemma {:induction false} SkipTidied(s: string, words: set<string>)
    ensures var t := Tidy(s); var n, k := SkipWord(s, words), SkipWord(t, words);
      && (n == 0 ==> k == 0)
      && (n > 0 && Tidy(s[n..]) != "" ==> k > 0 && t[k..] == Tidy(s[n..]))
      && (n > 0 && Tidy(s[n..]) == "" ==> k == 0 || t[k..] == "")
  {
    hide Tidy, Keyword;
    var t, n := Tidy(s), Keyword(s, words);
    TidyWord(s, words);
    if n > 0 {
      KeywordIsWord(s, words);
      var r := s[n..];
      assert t[n..] == Tidy(r);
      TidySpaces(r);
      var w, v := Run(Space, r), Run(Space, Tidy(r));
      assert r[w..] == s[n + w..];
      assert Tidy(r)[v..] == t[n + v..];
      if w == 0 { RunIs(Space, r); NoSpaceTidied(r); }
    }
  }

  lemma {:induction false} KeywordIsWord(s: string, words: set<string>)
    ensures Keyword(s, words) > 0 ==> Keyword(s, words) == Run(Word, s)
  {}

  lemma {:induction false} NoSpaceTidied(r: string)
    requires Run(Space, r) == 0
    ensures Run(Space, Tidy(r)) == 0
  {
    hide Tidy;
    if Tidy(r) != "" { TidyHead(r); }
  }

  lemma {:induction false} KeywordLeft(s: string, words: set<string>)
    ensures Keyword(s, words) > 0 <==> Keyword(Tidy(s), words) > 0
    ensures Keyword(s, words) > 0 ==> Tidy(s) != ""
  {
    hide Tidy;
    TidyWord(s, words);
  }

  /** `(previous|…)\s+instructions?` */
  predicate PhraseEnds(s: string) {
    var c := SkipWord(s, {"previous", "prior", "above", "earlier"});
    c > 0 && Keyword(s[c..], {"instruction", "instructions"}) > 0
  }

  lemma {:induction false} EndsTidied(s: string)
    ensures PhraseEnds(Tidy(s)) <==> PhraseEnds(s)
    ensures PhraseEnds(s) ==> Tidy(s) != ""
  {
    hide Tidy, Keyword, SkipWord;
    var first, last := {"previous", "prior", "above", "earlier"}, {"instruction", "instructions"};
    var c := SkipWord(s, first);
    SkipTidied(s, first);
    KeywordLeft(s[c..], last);
    NothingBehind(last);
    NothingSkipped(first);
  }

  lemma {:induction false} NothingBehind(words: set<string>)
    ensures Keyword("", words) == 0
  {}

  lemma {:induction false} NothingSkipped(words: set<string>)
    ensures SkipWord("", words) == 0
  {}

  /** `(the\s+)?` and the end of the phrase */
  predicate PhraseGoesOn(s: string) { PhraseEnds(s[SkipWord(s, {"the"})..]) }

  lemma {:induction false} GoesOnTidied(s: string)
    ensures PhraseGoesOn(Tidy(s)) <==> PhraseGoesOn(s)
    ensures PhraseGoesOn(s) ==> Tidy(s) != ""
  {
    hide Tidy, SkipWord, PhraseEnds;
    var n, t := SkipWord(s, {"the"}), Tidy(s);
    SkipTidied(s, {"the"});
    EndsTidied(s[n..]);
    EndsTidied(s);
    NoEndInNothing();
    TheIsNoEnd(s);
    assert s[0..] == s && t[0..] == t;
  }

  lemma {:induction false} NoEndInNothing()
    ensures !PhraseEnds("") && Tidy("") == ""
  {}

  /** A text that opens with "the" does not open with the end of the phrase. */
  lemma {:induction false} TheIsNoEnd(s: string)
    ensures SkipWord(s, {"the"}) > 0 ==> !PhraseEnds(s)
  {}

  lemma {:induction false} PhraseIs(s: string)
    ensures var a := SkipWord(s, {"ignore", "disregard"});
      InjectionAt(s).Some? <==> a > 0 && PhraseGoesOn(s[a..])
  {
    hide SkipWord, Keyword;
    var a := SkipWord(s, {"ignore", "disregard"});
    var t := SkipWord(s[a..], {"the"});
    assert s[a..][t..] == s[a + t..];
    var c := SkipWord(s[a + t..], {"previous", "prior", "above", "earlier"});
    assert s[a + t..][c..] == s[a + t + c..];
  }

  lemma {:induction false} PhraseTidied(s: string)
    ensures InjectionAt(Tidy(s)).Some? <==> InjectionAt(s).Some?
  {
    hide Tidy, SkipWord, PhraseGoesOn, InjectionAt;
    var a := SkipWord(s, {"ignore", "disregard"});
    PhraseIs(s);
    PhraseIs(Tidy(s));
    SkipTidied(s, {"ignore", "disregard"});
    GoesOnTidied(s[a..]);
    NothingGoesOn();
  }

  lemma {:induction false} NothingGoesOn()
    ensures !PhraseGoesOn("")
  {}
}
