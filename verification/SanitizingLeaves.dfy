/** What one pass of `_sanitize_fact` can leave. */
module SanitizingLeaves {
  import opened Text
  import opened Scan
  import opened Cuts
  import opened Meaning
  import opened ClaimStripping
  import opened Composer
  import opened Tidying
  import opened Sanitizing

  // ---- one pass can leave a URL -------------------------------------------------------------------

  lemma {:induction false} SubSkips(p: Pattern, afterWord: bool, c: char, rest: string)
    requires MatchAt(p, afterWord, [c] + rest) == None
    ensures Sub(p, afterWord, [c] + rest) == [c] + Sub(p, IsWord(c), rest)
  {
    SubStep(p, afterWord, [c] + rest);
    assert ([c] + rest)[1..] == rest;
  }

  lemma {:induction false} HostOf(t: string)
    requires t == "a.com/!"
    ensures Host(t) == 5
  {
    RunUntil(Label, t, 1);
    var ending := t[2..];
    RunUntil(Word, ending, 3);
    assert ending[..3] == "com" && Lower("com") == "com";
  }

  lemma {:induction false} SlashPath()
    ensures Path("/!") == 0
  {
    assert LastBoundary("/!", 1) == 0;
  }

  lemma {:induction false} HostIsMatched(t: string)
    requires t == "a.com/!"
    ensures MatchAt(Url, false, t) == Some(Match(5, "", ""))
  {
    hide Host, Path, Starts;
    HostOf(t);
    assert t[5..] == "/!";
    SlashPath();
    StartsCharIf(t, "https://", 0);
    StartsCharIf(t, "http://", 0);
    StartsCharIf(t, "www.", 0);
  }

  lemma {:induction false} HostIsTaken(t: string)
    requires t == "a.com/!"
    ensures Sub(Url, false, t) == "/!"
  {
    hide MatchAt;
    HostIsMatched(t);
    assert t[5..] == "/!" && t[..5] == "a.com";
    SubMatched(Url, false, t);
    NoUrlBehind();
    SubShortens(Url, true, "/!");
  }

  lemma {:induction false} NoUrlBehind()
    ensures !Has(Url, true, "/!")
  {
    HasCons(Url, true, '/', "!");
    HasCons(Url, false, '!', "");
    NothingFound(Url);
    assert ['/'] + "!" == "/!" && ['!'] + "" == "!";
  }

  lemma {:induction false} NoUrlInside(s: string)
    requires s != "" && s[0] in {'t', 'p', ':', '/'}
    ensures MatchAt(Url, true, s) == None && (s[0] == '/' ==> MatchAt(Url, false, s) == None)
  {}

  lemma {:induction false} NoUrlThere(s: string)
    requires |s| > 6 && s[..4] == "http" && s[4] == ':' && s[6] != '/'
    ensures MatchAt(Url, false, s) == None
  {
    forall i | 0 <= i < 4 ensures s[i] == "http"[i] { assert s[..4][i] == s[i]; }
    RunUntil(Label, s, 4);
    StartsCharIf(s, "http://", 6);
    StartsCharIf(s, "https://", 4);
    StartsCharIf(s, "www.", 0);
  }

  lemma {:induction false} SlashBefore(t: string)
    ensures Sub(Url, true, "ttp:/" + t) == "ttp:/" + Sub(Url, false, t)
  {
    hide MatchAt, Sub;
    var r1 := ['/'] + t;
    var r2 := [':'] + r1;
    var r3 := ['p'] + r2;
    var r4 := ['t'] + r3;
    var r5 := ['t'] + r4;
    NoUrlInside(r1);
    SubSkips(Url, false, '/', t);
    NoUrlInside(r2);
    SubSkips(Url, true, ':', r1);
    NoUrlInside(r3);
    SubSkips(Url, true, 'p', r2);
    NoUrlInside(r4);
    SubSkips(Url, true, 't', r3);
    NoUrlInside(r5);
    SubSkips(Url, true, 't', r4);
    assert "ttp:/" + t == r5;
    assert "ttp:/" + Sub(Url, false, t) == ['t'] + (['t'] + (['p'] + ([':'] + (['/'] + Sub(Url, false, t)))));
  }

  lemma {:induction false} SchemeBefore(t: string)
    requires t != "" && t[0] != '/'
    ensures Sub(Url, false, "http:/" + t) == "http:/" + Sub(Url, false, t)
  {
    hide MatchAt, Sub;
    var r := "ttp:/" + t;
    assert "http:/" + t == ['h'] + r;
    assert (['h'] + r)[..4] == "http";
    NoUrlThere(['h'] + r);
    SubSkips(Url, false, 'h', r);
    SlashBefore(t);
    assert "http:/" + Sub(Url, false, t) == ['h'] + ("ttp:/" + Sub(Url, false, t));
  }

  lemma {:induction false} NoFieldHere(p: Pattern, afterWord: bool, s: string)
    requires p.FieldAssignment? || p.Injection?
    requires s != "" && (IsWord(s[0]) ==> afterWord)
    ensures MatchAt(p, afterWord, s) == None
  {
    hide Keyword;
    if !afterWord {
      NoKeyword(s, Vocabulary(FieldAssignment));
      NoKeyword(s, {"ignore", "disregard"});
    }
  }

  /** Where no word starts, no field name and no injection phrase does. */
  lemma {:induction false} NoWordStarts(p: Pattern, afterWord: bool, s: string)
    requires p.FieldAssignment? || p.Injection?
    requires forall i | 0 <= i < |s| && IsWord(s[i]) :: Before(afterWord, s, i)
    ensures !Has(p, afterWord, s)
    decreases |s|
  {
    hide MatchAt;
    if s != "" {
      NoFieldHere(p, afterWord, s);
      forall i | 0 <= i < |s[1..]| && IsWord(s[1..][i]) ensures Before(IsWord(s[0]), s[1..], i) { assert IsWord(s[i + 1]); }
      NoWordStarts(p, IsWord(s[0]), s[1..]);
    }
  }

  lemma {:induction false} OtherWord(p: Pattern, s: string)
    requires p.FieldAssignment? || p.Injection?
    requires Lower(s[..Run(Word, s)]) == "http"
    ensures MatchAt(p, false, s) == None
  {}

  lemma {:induction false} SchemeIsNoField(p: Pattern, t: string)
    requires p.FieldAssignment? || p.Injection?
    requires t == "http://!"
    ensures !Has(p, false, t)
  {
    hide MatchAt;
    RunUntil(Word, t, 4);
    assert Lower(t[..4]) == "http";
    OtherWord(p, t);
    NoWordStarts(p, true, t[1..]);
  }

  lemma {:induction false} SchemeVisible(t: string)
    requires t == "http://!"
    ensures Visible(t)
  {}

  lemma {:induction false} SchemeIsTidy(t: string)
    requires t == "http://!"
    ensures Trim(Collapse(t)) == t
  {
    hide IsSpace, Visible, Collapse;
    SchemeVisible(t);
    CollapseVisible(t, "");
    NothingCollapses();
    assert t + "" == t;
    PhraseIsTrim(t);
  }

  lemma {:induction false} NothingCollapses()
    ensures Collapse("") == ""
  {}

  /** One pass can leave a URL: without its host, `http:/a.com/!` is `http://!`. */
  lemma {:induction false} OneSanitizingIsNotEnough(fact: string)
    requires fact == "http:/a.com/!"
    ensures SanitizeFact(fact) == "http://!" && Has(Url, false, SanitizeFact(fact))
  {
    hide Sub, Has, Collapse, Trim;
    assert fact == "http:/" + "a.com/!" && "http:/" + "/!" == "http://!" && "http://" + "!" == "http://!";
    SchemeBefore("a.com/!");
    HostIsTaken("a.com/!");
    SchemeIsNoField(FieldAssignment, "http://!");
    SchemeIsNoField(Injection, "http://!");
    SubShortens(FieldAssignment, false, "http://!");
    SubShortens(Injection, false, "http://!");
    SchemeIsTidy("http://!");
    assert Lower("http://") == "http://";
    SchemeJoins("http://", "!");
    UrlHere(false, "http://!");
  }

  // ---- and a phrase ---------------------------------------------------------------------------------

  predicate AllWord(w: string) { w != "" && forall c | c in w :: IsWord(c) }

  lemma {:induction false} KeywordOf(w: string, rest: string, words: set<string>)
    requires AllWord(w) && (rest != "" ==> !IsWord(rest[0])) && "" !in words
    ensures Keyword(w + rest, words) == if Lower(w) in words then |w| else 0
    ensures (w + rest)[|w|..] == rest
  {
    WordBeforeKeyword(w, rest, words);
    AllWordRun(w);
    assert (w + rest)[..|w|] == w;
  }

  lemma {:induction false} AllWordRun(w: string)
    requires forall c | c in w :: IsWord(c)
    ensures Run(Word, w) == |w|
  {
    if w != "" {
      assert w[0] in w;
      forall c | c in w[1..] ensures c in w {}
      AllWordRun(w[1..]);
    }
  }

  lemma {:induction false} SkipOf(w: string, rest: string, words: set<string>)
    requires AllWord(w) && rest != "" && !IsSpace(rest[0]) && "" !in words
    ensures SkipWord(w + (" " + rest), words) == if Lower(w) in words then |w| + 1 else 0
    ensures (w + (" " + rest))[|w| + 1..] == rest
  {
    KeywordOf(w, " " + rest, words);
    RunUntil(Space, " " + rest, 1);
    assert (w + (" " + rest))[0..] == w + (" " + rest);
    assert (" " + rest)[1..] == rest;
    DropConcat(w, " " + rest, |w|);
    Drops(w + (" " + rest), |w|, 1);
  }

  lemma {:induction false} PhraseWords()
    ensures AllWord("ignore") && AllWord("prior") && AllWord("instruction")
    ensures Lower("ignore") == "ignore" && Lower("prior") == "prior" && Lower("instruction") == "instruction"
  {}

  /** `prior instruction`, with no word character behind */
  function EndOfPhrase(tail: string): string { "prior" + (" " + ("instruction" + tail)) }

  lemma {:induction false} WholePhrase(tail: string)
    requires tail != "" ==> !IsWord(tail[0])
    ensures InjectionAt("ignore" + (" " + EndOfPhrase(tail))) == Some(Match(24, "", ""))
  {
    hide Keyword, SkipWord, AllWord;
    PhraseWords();
    var last := "instruction" + tail;
    var end := EndOfPhrase(tail);
    SkipOf("ignore", end, {"ignore", "disregard"});
    SkipOf("prior", last, {"the"});
    SkipOf("prior", last, {"previous", "prior", "above", "earlier"});
    KeywordOf("instruction", tail, {"instruction", "instructions"});
    var s := "ignore" + (" " + end);
    assert s[7..] == end;
    Drops(s, 7, 6);
    assert s[7 + 6..] == last;
  }

  /** A phrase that another one interrupts. */
  function Nested(): string { "ignore" + (" " + ("ignore" + (" " + EndOfPhrase(" " + EndOfPhrase(""))))) }

  lemma {:induction false} TwoVerbs(rest: string)
    requires rest != "" && !IsSpace(rest[0])
    ensures InjectionAt("ignore" + (" " + ("ignore" + (" " + rest)))) == None
  {
    hide Keyword, SkipWord, AllWord;
    PhraseWords();
    var inner := "ignore" + (" " + rest);
    SkipOf("ignore", inner, {"ignore", "disregard"});
    SkipOf("ignore", rest, {"the"});
    SkipOf("ignore", rest, {"previous", "prior", "above", "earlier"});
    var s := "ignore" + (" " + inner);
    assert s[7..] == inner;
  }

  lemma {:induction false} NoVerb(afterWord: bool, s: string)
    requires 'g' !in s && 'G' !in s
    ensures !Has(Injection, afterWord, s)
    decreases |s|
  {
    hide MatchAt;
    if s != "" {
      NoVerbHere(afterWord, s);
      forall c | c in s[1..] ensures c in s {}
      NoVerb(IsWord(s[0]), s[1..]);
    }
  }

  lemma {:induction false} NoVerbHere(afterWord: bool, s: string)
    requires 'g' !in s && 'G' !in s
    ensures MatchAt(Injection, afterWord, s) == None
  {
    hide Keyword;
    NoVerbWord(s);
  }

  lemma {:induction false} NoVerbWord(s: string)
    requires 'g' !in s && 'G' !in s
    ensures Keyword(s, {"ignore", "disregard"}) == 0
  {
    NoLetter(s, "ignore", 1);
    NoLetter(s, "disregard", 5);
  }

  lemma {:induction false} NoLetter(s: string, w: string, k: nat)
    requires 'g' !in s && 'G' !in s && k < |w| && w[k] == 'g'
    ensures Lower(s[..Run(Word, s)]) != w
  {
    hide Run;
    if Lower(s[..Run(Word, s)]) == w { LetterOf(s, Run(Word, s), w, k); }
  }

  lemma {:induction false} LetterOf(s: string, n: nat, w: string, k: nat)
    requires n <= |s| && Lower(s[..n]) == w && k < |w|
    ensures k < |s| && LowerChar(s[k]) == w[k] && s[k] in s
  {
    assert s[..n][k] == s[k];
  }

  lemma {:induction false} NoSignNoField(afterWord: bool, s: string)
    requires ':' !in s && '=' !in s
    ensures !Has(FieldAssignment, afterWord, s)
    decreases |s|
  {
    hide Keyword;
    if s != "" {
      forall c | c in s[1..] ensures c in s {}
      NoSignNoField(IsWord(s[0]), s[1..]);
    }
  }

  lemma {:induction false} NoSlashNoUrl(afterWord: bool, s: string)
    requires '/' !in s && '.' !in s
    ensures !Has(Url, afterWord, s)
    decreases |s|
  {
    hide MatchAt;
    if s != "" {
      NoSlashNoMatch(afterWord, s);
      forall c | c in s[1..] ensures c in s {}
      NoSlashNoUrl(IsWord(s[0]), s[1..]);
    }
  }

  lemma {:induction false} NoSlashNoMatch(afterWord: bool, s: string)
    requires '/' !in s && '.' !in s
    ensures MatchAt(Url, afterWord, s) == None
  {
    hide Starts;
    StartsCharIf(s, "https://", 7);
    StartsCharIf(s, "http://", 6);
    StartsCharIf(s, "www.", 3);
    var n := Run(Label, s);
    assert n < |s| ==> s[n] in s;
  }

  lemma {:induction false} VerbStays(rest: string)
    ensures Sub(Injection, true, "gnore" + (" " + rest)) == "gnore" + (" " + Sub(Injection, false, rest))
  {
    hide MatchAt, Sub;
    var r1 := [' '] + rest;
    var r2 := ['e'] + r1;
    var r3 := ['r'] + r2;
    var r4 := ['o'] + r3;
    var r5 := ['n'] + r4;
    var r6 := ['g'] + r5;
    NoFieldHere(Injection, true, r1);
    SubSkips(Injection, true, ' ', rest);
    NoFieldHere(Injection, true, r2);
    SubSkips(Injection, true, 'e', r1);
    NoFieldHere(Injection, true, r3);
    SubSkips(Injection, true, 'r', r2);
    NoFieldHere(Injection, true, r4);
    SubSkips(Injection, true, 'o', r3);
    NoFieldHere(Injection, true, r5);
    SubSkips(Injection, true, 'n', r4);
    NoFieldHere(Injection, true, r6);
    SubSkips(Injection, true, 'g', r5);
    assert "gnore" + (" " + rest) == r6;
    var left := Sub(Injection, false, rest);
    assert "gnore" + (" " + left) == ['g'] + (['n'] + (['o'] + (['r'] + (['e'] + ([' '] + left)))));
  }

  lemma {:induction false} InnerTaken(x: string, tail: string)
    requires tail == " " + EndOfPhrase("") && x == "ignore" + (" " + EndOfPhrase(tail))
    ensures Sub(Injection, false, x) == tail
  {
    hide MatchAt, Sub, InjectionAt;
    WholePhrase(tail);
    MatchIsPhrase(x);
    PhraseLength(tail);
    SubMatched(Injection, false, x);
    EndHasNoVerb(tail);
    NoVerb(EndsInWord(false, x[..24]), tail);
    SubShortens(Injection, EndsInWord(false, x[..24]), tail);
  }

  lemma {:induction false} MatchIsPhrase(x: string)
    ensures MatchAt(Injection, false, x) == InjectionAt(x)
  {}

  lemma {:induction false} PhraseLength(tail: string)
    ensures ("ignore" + (" " + EndOfPhrase(tail)))[24..] == tail
  {}

  lemma {:induction false} EndHasNoVerb(tail: string)
    requires tail == " " + EndOfPhrase("")
    ensures 'g' !in tail && 'G' !in tail
  {}

  lemma {:induction false} NestedTaken(x: string, tail: string)
    requires tail == " " + EndOfPhrase("") && x == "ignore" + (" " + EndOfPhrase(tail))
    ensures Sub(Injection, false, "ignore" + (" " + x)) == "ignore" + (" " + tail)
  {
    hide MatchAt, Sub, InjectionAt;
    InnerTaken(x, tail);
    TwoVerbs(EndOfPhrase(tail));
    var rest := "gnore" + (" " + x);
    assert "ignore" + (" " + x) == ['i'] + rest;
    MatchIsPhrase(['i'] + rest);
    SubSkips(Injection, false, 'i', rest);
    VerbStays(x);
    assert "ignore" + (" " + tail) == ['i'] + ("gnore" + (" " + tail));
  }

  lemma {:induction false} EndHasNoOther()
    ensures var s := EndOfPhrase(""); ':' !in s && '=' !in s && '/' !in s && '.' !in s
  {}

  lemma {:induction false} NestedHasNoOther()
    ensures var s := Nested(); ':' !in s && '=' !in s && '/' !in s && '.' !in s
  {
    EndHasNoOther();
    var verb := "ignore" + (" " + ("ignore" + " "));
    assert ':' !in verb && '=' !in verb && '/' !in verb && '.' !in verb;
    assert Nested() == verb + ("prior" + (" " + ("instruction" + (" " + EndOfPhrase("")))));
    assert EndOfPhrase("") == "prior" + (" " + "instruction");
    forall c | c in Nested() ensures c in verb || c in EndOfPhrase("") || c == ' ' {}
  }

  lemma {:induction false} WordVisible(w: string)
    requires AllWord(w)
    ensures Visible(w) && !IsSpace(w[0])
  {
    assert w[0] in w;
  }

  /** White space between two words collapses to one space. */
  lemma {:induction false} WordsCollapse(w: string, n: nat, rest: string)
    requires AllWord(w) && rest != "" && !IsSpace(rest[0]) && 1 <= n <= 2
    ensures Collapse(w + (seq(n, _ => ' ') + rest)) == w + (" " + Collapse(rest))
  {
    hide IsSpace;
    var gap := seq(n, _ => ' ');
    var t := gap + rest;
    WordVisible(w);
    CollapseVisible(w, t);
    GapRun(n, rest);
    assert t[n..] == rest && (n == 1 ==> t[1..] == rest);
  }

  lemma {:induction false} GapRun(n: nat, rest: string)
    requires rest != "" && !IsSpace(rest[0])
    ensures Run(Space, seq(n, _ => ' ') + rest) == n
  {
    RunUntil(Space, seq(n, _ => ' ') + rest, n);
  }

  lemma {:induction false} EndCollapses()
    ensures Collapse(EndOfPhrase("")) == EndOfPhrase("")
  {
    hide Collapse, AllWord;
    PhraseWords();
    var w := "instruction";
    WordVisible(w);
    CollapseVisible(w, "");
    assert Collapse("") == "" by { SweptNothing(); }
    assert w + "" == w && seq(1, _ => ' ') + w == " " + w;
    WordsCollapse("prior", 1, w);
  }

  lemma {:induction false} PhraseCollapses()
    ensures Collapse("ignore" + (" " + (" " + EndOfPhrase("")))) == "ignore" + (" " + EndOfPhrase(""))
  {
    hide Collapse, AllWord;
    PhraseWords();
    EndCollapses();
    var end := EndOfPhrase("");
    assert " " + (" " + end) == seq(2, _ => ' ') + end;
    WordsCollapse("ignore", 2, end);
  }

  lemma {:induction false} PhraseIsTrim(t: string)
    requires |t| > 1 && !IsTrim(t[0]) && !IsTrim(t[|t| - 1])
    ensures Trim(t) == t
  {}

  /** Nor does one pass always take the injection phrase: where one phrase interrupts another it takes
      the inner one, and leaves `ignore prior instruction`. */
  lemma {:induction false} NestedPhraseIsLeft(fact: string)
    requires fact == Nested()
    ensures SanitizeFact(fact) == "ignore" + (" " + EndOfPhrase("")) && Has(Injection, false, SanitizeFact(fact))
  {
    hide Sub, Has, Collapse, Trim, MatchAt, InjectionAt, EndOfPhrase;
    NestedIsCut(fact);
    PhraseCollapses();
    var left := "ignore" + (" " + EndOfPhrase(""));
    EndIsWord();
    PhraseIsTrim(left);
    WholePhrase("");
    MatchIsPhrase(left);
    FoundHere(Injection, left);
  }

  lemma {:induction false} EndIsWord()
    ensures var end := EndOfPhrase(""); |end| > 0 && !IsTrim(end[|end| - 1])
  {}

  lemma {:induction false} NestedIsCut(fact: string)
    requires fact == Nested()
    ensures Sub(Injection, false, Sub(FieldAssignment, false, Sub(Url, false, fact))) == "ignore" + (" " + (" " + EndOfPhrase("")))
  {
    hide Sub, Has, EndOfPhrase;
    var tail := " " + EndOfPhrase("");
    NestedHasNoOther();
    NoSlashNoUrl(false, fact);
    NoSignNoField(false, fact);
    SubShortens(Url, false, fact);
    SubShortens(FieldAssignment, false, fact);
    NestedTaken("ignore" + (" " + EndOfPhrase(tail)), tail);
  }

  lemma {:induction false} FoundHere(p: Pattern, s: string)
    requires MatchAt(p, false, s).Some?
    ensures Has(p, false, s)
  {}
}
