/** The tokens a message asks the reader to reply with (`_reply_tokens`). */
module ReplyClauses {
  import opened Text
  import opened Scan
  import opened Cuts

  function Words(ms: seq<Match>): seq<string> {
    if ms == [] then [] else [ms[0].word] + Words(ms[1..])
  }

  function Uppers(words: seq<string>): set<string> { set w | w in words :: Upper(w) }

  /** The words after each `or` of a chain. */
  function ChainWords(chain: string): seq<string> { Words(FindAll(OrWord, false, chain)) }

  function TokensOf(clauses: seq<Match>): set<string> {
    if clauses == [] then {}
    else {Upper(clauses[0].word)} + Uppers(ChainWords(clauses[0].chain)) + TokensOf(clauses[1..])
  }

  function ReplyTokens(message: string): set<string> { TokensOf(FindAll(ReplyClause, false, message)) }

  /** The loops of `_reply_tokens`. */
  method CollectReplyTokens(message: string) returns (tokens: set<string>)
    ensures tokens == ReplyTokens(message)
  {
    tokens := {};
    var clauses := FindAll(ReplyClause, false, message);
    for i := 0 to |clauses|
      invariant tokens + TokensOf(clauses[i..]) == TokensOf(clauses)
    {
      assert clauses[i..][0] == clauses[i] && clauses[i..][1..] == clauses[i + 1..];
      tokens := tokens + {Upper(clauses[i].word)};
      tokens := tokens + Uppers(ChainWords(clauses[i].chain));
    }
  }

  // ---- the two ways to read an or-chain agree --------------------------------------------

  /** The words of the steps that make up a chain. */
  function StepWords(s: string): seq<string>
    decreases |s|
  {
    var t := OrStep(s);
    if t.len == 0 then [] else [t.text] + StepWords(s[t.len..])
  }

  lemma {:induction false} SpacedWordPrefix(y: string, z: string)
    requires 0 < SpacedWord(y + z).len <= |y|
    ensures SpacedWord(y) == SpacedWord(y + z)
  {
    RunConcat(Space, y, z);
    var w := Run(Space, y + z);
    DropConcat(y, z, w);
    RunConcat(Alnum, y[w..], z);
    DropConcat(y[w..], z, Run(Alnum, y[w..]));
  }

  lemma {:induction false} AfterWordPrefix(y: string, z: string, word: string)
    requires 0 < AfterWord(y + z, word).len <= |y|
    ensures AfterWord(y, word) == AfterWord(y + z, word)
  {
    StartsConcat(y, z, word);
    DropConcat(y, z, |word|);
    SpacedWordPrefix(y[|word|..], z);
  }

  lemma {:induction false} SpaceNoMatch(p: Pattern, afterWord: bool, s: string)
    requires p.Percent? || p.Currency? || p.ReplyClause? || p.OrWord?
    requires s != "" && IsSpace(s[0])
    ensures MatchAt(p, afterWord, s) == None
  {
    assert Run(Digit, s) == 0;
  }

  lemma {:induction false} FindAllNone(p: Pattern, afterWord: bool, s: string)
    requires s != "" && MatchAt(p, afterWord, s) == None
    ensures FindAll(p, afterWord, s) == FindAll(p, IsWord(s[0]), s[1..])
  {}

  lemma {:induction false} Slices(s: string, n: nat, l: nat)
    requires n <= l <= |s|
    ensures s[..l][n..] == s[n..l] && s[n..][..l - n] == s[n..l] && s[n..l] + s[l..] == s[n..]
  {}

  /** White space in front of a text holds no match. */
  lemma {:induction false} FindAllSkip(p: Pattern, afterWord: bool, s: string, n: nat)
    requires p.Percent? || p.Currency? || p.ReplyClause? || p.OrWord?
    requires n <= |s| && forall i | 0 <= i < n :: IsSpace(s[i])
    ensures FindAll(p, afterWord, s) == FindAll(p, if n == 0 then afterWord else false, s[n..])
  {
    hide MatchAt;
    if n == 0 {
      assert s[0..] == s;
    } else {
      SpaceNoMatch(p, afterWord, s);
      FindAllNone(p, afterWord, s);
      FindAllSkip(p, false, s[1..], n - 1);
      assert s[1..][n - 1..] == s[n..];
    }
  }

  lemma {:induction false} OrStepStart(s: string)
    requires OrStep(s).len > 0
    ensures s != "" && IsSpace(s[0])
  {}

  lemma {:induction false} OrFresh(s: string)
    requires s == "" || IsSpace(s[0])
    ensures FindAll(OrWord, true, s) == FindAll(OrWord, false, s)
  {
    if s != "" {
      FindAllSkip(OrWord, true, s, 1);
      FindAllSkip(OrWord, false, s, 1);
    }
  }

  lemma {:induction false} LastOfAfterWord(v: string, word: string)
    requires AfterWord(v, word).len > 0
    ensures IsWord(v[AfterWord(v, word).len - 1])
  {
    var d := v[|word|..];
    var e := d[Run(Space, d)..];
    RunIs(Alnum, e);
    assert e[Run(Alnum, e) - 1] == v[AfterWord(v, word).len - 1];
  }

  /** Where `or word` stands first, it is the first match. */
  lemma {:induction false} OrFirst(v: string)
    requires AfterWord(v, "or").len > 0
    ensures var t := AfterWord(v, "or");
      Words(FindAll(OrWord, false, v)) == [t.text] + Words(FindAll(OrWord, true, v[t.len..]))
  {
    hide AfterWord;
    LastOfAfterWord(v, "or");
    FindAllStep(OrWord, false, v);
    var t := AfterWord(v, "or");
    assert v[..t.len] != "" && v[..t.len][t.len - 1] == v[t.len - 1];
    var rest := FindAll(OrWord, true, v[t.len..]);
    assert ([Match(t.len, t.text, "")] + rest)[1..] == rest;
  }

  /** The first step of a chain is the first match of the `or` pattern in it. */
  lemma {:induction false} FirstStep(s: string, l: nat)
    requires 0 < OrStep(s).len <= l <= |s|
    ensures var n := OrStep(s).len;
      ChainWords(s[..l]) == [OrStep(s).text] + Words(FindAll(OrWord, true, s[n..l]))
  {
    var w := Run(Space, s);
    RunIs(Space, s);
    FindAllSkip(OrWord, false, s[..l], w);
    Slices(s, w, l);
    AfterWordPrefix(s[w..l], s[l..], "or");
    OrFirst(s[w..l]);
    assert s[w..l][OrStep(s).len - w..] == s[OrStep(s).len..l];
  }

  /** `findall` on the text of a chain gives the words its steps were matched with. */
  lemma {:induction false} ChainAgrees(s: string)
    ensures ChainWords(s[..OrChain(s)]) == StepWords(s)
    decreases |s|
  {
    var n := OrStep(s).len;
    if n > 0 {
      ChainAgrees(s[n..]);
      FirstStep(s, OrChain(s));
      Slices(s, n, OrChain(s));
      ChainStart(s[n..]);
      OrFresh(s[n..][..OrChain(s[n..])]);
    }
  }

  lemma {:induction false} ChainStart(s: string)
    ensures OrChain(s) > 0 ==> IsSpace(s[0])
  {
    if OrStep(s).len > 0 { OrStepStart(s); }
  }

  // ---- round trip ----------------------------------------------------------------------

  predicate IsToken(w: string) { w != "" && forall c | c in w :: IsAlnum(c) }

  /** ` or a or b …` */
  function Ors(words: seq<string>): string {
    if words == [] then "" else " " + ("or" + (" " + (words[0] + Ors(words[1..]))))
  }

  /** `Reply a1 or a2 … or ak` */
  function Offer(words: seq<string>): string
    requires words != []
  {
    "Reply" + (" " + (words[0] + Ors(words[1..])))
  }

  lemma {:induction false} RunOfToken(w: string)
    requires forall c | c in w :: IsAlnum(c)
    ensures Run(Alnum, w) == |w|
  {
    if w != "" {
      assert w[0] in w;
      RunOfToken(w[1..]);
    }
  }

  lemma {:induction false} SpacedToken(w: string, t: string)
    requires IsToken(w) && (t == "" || t[0] == ' ')
    ensures SpacedWord(" " + (w + t)) == Token(|w| + 1, w)
  {
    var s := " " + (w + t);
    assert w[0] in w;
    assert s[1..] == w + t;
    assert Run(Space, w + t) == 0;
    RunOfToken(w);
    RunConcat(Alnum, w, t);
    assert (w + t)[..|w|] == w;
  }

  lemma {:induction false} OfferStarts(word: string, rest: string)
    requires word in {"or", "Reply"}
    ensures Starts(word + rest, if word == "or" then "or" else "reply") && (word + rest)[|word|..] == rest
  {}

  lemma {:induction false} AfterWordOffer(word: string, w: string, t: string)
    requires word in {"or", "Reply"} && IsToken(w) && (t == "" || t[0] == ' ')
    ensures var s := word + (" " + (w + t));
      AfterWord(s, if word == "or" then "or" else "reply") == Token(|word| + 1 + |w|, w) && s[|word| + 1 + |w|..] == t
  {
    hide Starts, SpacedWord, IsToken;
    OfferStarts(word, " " + (w + t));
    SpacedToken(w, t);
  }

  lemma {:induction false} SpacedOr(rest: string)
    ensures var s := " " + ("or" + rest); Run(Space, s) == 1 && s[1..] == "or" + rest
  {
    var s := " " + ("or" + rest);
    assert s[1..] == "or" + rest;
    assert Run(Space, "or" + rest) == 0;
  }

  lemma {:induction false} OneOr(w: string, t: string)
    requires IsToken(w) && (t == "" || t[0] == ' ')
    ensures var s := " " + ("or" + (" " + (w + t)));
      OrStep(s) == Token(4 + |w|, w) && s[4 + |w|..] == t
  {
    hide AfterWord, Run, IsToken;
    AfterWordOffer("or", w, t);
    SpacedOr(" " + (w + t));
    Drops(" " + ("or" + (" " + (w + t))), 1, 3 + |w|);
  }

  lemma {:induction false} ChainUnfold(s: string)
    requires OrStep(s).len > 0
    ensures var t := OrStep(s);
      OrChain(s) == t.len + OrChain(s[t.len..]) && StepWords(s) == [t.text] + StepWords(s[t.len..])
  {}

  lemma {:induction false} NoSteps()
    ensures OrChain("") == 0 && StepWords("") == []
  {
    assert OrStep("").len == 0;
  }

  lemma {:induction false} OrsSteps(words: seq<string>)
    requires forall w | w in words :: IsToken(w)
    ensures OrChain(Ors(words)) == |Ors(words)| && StepWords(Ors(words)) == words
    ensures Ors(words) == "" || Ors(words)[0] == ' '
  {
    hide OrStep, OrChain, StepWords, IsToken;
    if words != [] {
      OrsSteps(words[1..]);
      OneOr(words[0], Ors(words[1..]));
      ChainUnfold(Ors(words));
      assert [words[0]] + words[1..] == words;
    } else {
      NoSteps();
    }
  }

  lemma {:induction false} ReplyFrom(s: string, k: Token, t: string)
    requires AfterWord(s, "reply") == k && k.len > 0 && s[k.len..] == t && OrTail(t) == Token(|t|, t)
    ensures ReplyAt(s) == Some(WithChain(k, Token(|t|, t)))
  {}

  lemma {:induction false} OrTailWhole(t: string)
    requires OrChain(t) == |t|
    ensures OrTail(t) == Token(|t|, t)
  {}

  lemma {:induction false} ReplyHere(w: string, t: string)
    requires IsToken(w) && (t == "" || t[0] == ' ') && OrChain(t) == |t|
    ensures var s := "Reply" + (" " + (w + t)); MatchAt(ReplyClause, false, s) == Some(Match(|s|, w, t))
  {
    hide AfterWord, ReplyAt, OrTail, OrChain, IsToken;
    AfterWordOffer("Reply", w, t);
    OrTailWhole(t);
    ReplyFrom("Reply" + (" " + (w + t)), Token(6 + |w|, w), t);
  }

  lemma {:induction false} WholeMatch(p: Pattern, s: string, m: Match)
    requires MatchAt(p, false, s) == Some(m) && m.len == |s|
    ensures FindAll(p, false, s) == [m]
  {
    assert s[|s|..] == "";
  }

  lemma {:induction false} TokensOfOne(m: Match)
    ensures TokensOf([m]) == {Upper(m.word)} + Uppers(ChainWords(m.chain))
  {
    assert [m][1..] == [];
  }

  /** The tokens of `Reply a1 or … or ak` are exactly the upper-cased `ai`. */
  lemma {:induction false} OfferRoundTrip(words: seq<string>)
    requires words != [] && forall w | w in words :: IsToken(w)
    ensures ReplyTokens(Offer(words)) == Uppers(words)
  {
    hide OrChain, StepWords, FindAll, MatchAt, Ors, ChainWords, OrStep, IsToken;
    var w, t := words[0], Ors(words[1..]);
    OrsSteps(words[1..]);
    ReplyHere(w, t);
    var m := Match(|Offer(words)|, w, t);
    WholeMatch(ReplyClause, Offer(words), m);
    TokensOfOne(m);
    ChainAgrees(t);
    assert t[..|t|] == t;
    assert [w] + words[1..] == words;
  }

  // ---- appending a phrase never loses a token -----------------------------------------------

  /** Some letter of "reply" is missing from `s`. */
  ghost predicate Mute(s: string, k: nat) {
    k < 5 && forall c | c in s :: c != "reply"[k] && c != "REPLY"[k]
  }

  lemma {:induction false} EitherCase(c: char, k: nat)
    requires k < 5 && LowerChar(c) == "reply"[k]
    ensures c == "reply"[k] || c == "REPLY"[k]
  {
    assert 'a' <= "reply"[k] <= 'z' && "REPLY"[k] == UpperChar("reply"[k]);
  }

  lemma {:induction false} MuteNoStart(s: string, k: nat)
    requires Mute(s, k)
    ensures !Starts(s, "reply")
  {
    hide LowerChar;
    StartsCharIf(s, "reply", k);
    if Starts(s, "reply") { EitherCase(s[k], k); }
  }

  lemma {:induction false} NoStartNoMatch(afterWord: bool, s: string)
    requires !Starts(s, "reply")
    ensures MatchAt(ReplyClause, afterWord, s) == None
  {
    hide Starts;
  }

  lemma {:induction false} MuteNoMatch(afterWord: bool, s: string, k: nat)
    requires Mute(s, k)
    ensures FindAll(ReplyClause, afterWord, s) == []
    decreases |s|
  {
    hide MatchAt, Starts;
    if s != "" {
      MuteNoStart(s, k);
      NoStartNoMatch(afterWord, s);
      FindAllNone(ReplyClause, afterWord, s);
      forall c | c in s[1..] ensures c in s {}
      MuteNoMatch(IsWord(s[0]), s[1..], k);
    }
  }

  /** A spaced word is found again when a phrase follows; otherwise one new word may appear
      only after nothing but white space. */
  lemma {:induction false} SpacedWordGrows(a: string, b: string)
    requires SpaceLed(b)
    ensures SpacedWord(a).len > 0 ==> SpacedWord(a + b) == SpacedWord(a)
    ensures SpacedWord(a).len == 0 && SpacedWord(a + b).len > 0 ==> Run(Space, a) == |a|
  {
    RunConcat(Space, a, b);
    var w := Run(Space, a);
    DropConcat(a, b, w);
    RunConcat(Alnum, a[w..], b);
    DropConcat(a[w..], b, Run(Alnum, a[w..]));
  }

  lemma {:induction false} AfterWordGrows(a: string, b: string, word: string)
    requires SpaceLed(b) && word in {"or", "reply"}
    ensures AfterWord(a, word).len > 0 ==> AfterWord(a + b, word) == AfterWord(a, word)
    ensures AfterWord(a, word).len == 0 && AfterWord(a + b, word).len > 0 ==>
      Starts(a, word) && Run(Space, a[|word|..]) == |a| - |word|
  {
    StartsConcat(a, b, word);
    if |word| <= |a| {
      DropConcat(a, b, |word|);
      SpacedWordGrows(a[|word|..], b);
    }
  }

  /** Nothing but white space behind `word`: no further letters. */
  lemma {:induction false} BareWordLetters(a: string, word: string, l: char)
    requires Starts(a, word) && Run(Space, a[|word|..]) == |a| - |word|
    requires 'a' <= l <= 'z' && l !in word
    ensures forall c | c in a :: LowerChar(c) != l
  {
    RunIs(Space, a[|word|..]);
    forall i | 0 <= i < |a| ensures LowerChar(a[i]) != l {
      if i < |word| {
        StartsChar(a, word, i);
        assert word[i] in word;
      } else {
        assert a[i] == a[|word|..][i - |word|];
      }
    }
  }

  lemma {:induction false} SpaceLetters(a: string, l: char)
    requires Run(Space, a) == |a| && 'a' <= l <= 'z'
    ensures forall c | c in a :: LowerChar(c) != l
  {
    RunIs(Space, a);
  }

  lemma {:induction false} OrStepGrows(a: string, b: string)
    requires SpaceLed(b)
    ensures OrStep(a).len > 0 ==> OrStep(a + b) == OrStep(a)
    ensures OrStep(a).len == 0 && OrStep(a + b).len > 0 ==> Mute(a, 1)
  {
    hide AfterWord, Starts;
    RunConcat(Space, a, b);
    var w := Run(Space, a);
    DropConcat(a, b, w);
    if w < |a| {
      AfterWordGrows(a[w..], b, "or");
      if OrStep(a).len == 0 && OrStep(a + b).len > 0 {
        BareWordLetters(a[w..], "or", 'e');
        SpacePrefixLetters(a, w, 'e');
      }
    } else {
      SpaceLetters(a, 'e');
    }
  }

  lemma {:induction false} SpacePrefixLetters(a: string, w: nat, l: char)
    requires w == Run(Space, a) && 'a' <= l <= 'z'
    requires forall c | c in a[w..] :: LowerChar(c) != l
    ensures forall c | c in a :: LowerChar(c) != l
  {
    RunIs(Space, a);
    forall i | 0 <= i < |a| ensures LowerChar(a[i]) != l {
      if i >= w { assert a[i] == a[w..][i - w]; }
    }
  }

  /** The steps of a chain stay; a chain that grows leaves no reply clause behind it. */
  lemma {:induction false} ChainGrows(a: string, b: string)
    requires SpaceLed(b)
    ensures OrChain(a) <= OrChain(a + b)
    ensures forall w | w in StepWords(a) :: w in StepWords(a + b)
    ensures OrChain(a) < OrChain(a + b) ==> Mute(a[OrChain(a)..], 1)
    decreases |a|
  {
    hide OrStep, Mute;
    OrStepGrows(a, b);
    var n := OrStep(a).len;
    if n > 0 {
      ChainUnfold(a);
      ChainUnfold(a + b);
      DropConcat(a, b, n);
      ChainGrows(a[n..], b);
      assert a[n..][OrChain(a[n..])..] == a[OrChain(a)..];
    } else {
      assert a[0..] == a;
    }
  }

  function TokensFrom(afterWord: bool, s: string): set<string> { TokensOf(FindAll(ReplyClause, afterWord, s)) }

  lemma {:induction false} TokensNone(afterWord: bool, s: string)
    requires s != "" && MatchAt(ReplyClause, afterWord, s) == None
    ensures TokensFrom(afterWord, s) == TokensFrom(EndsInWord(afterWord, s[..1]), s[1..])
  {
    FindAllNone(ReplyClause, afterWord, s);
  }

  lemma {:induction false} TokensSome(s: string, k: Token)
    requires s != "" && AfterWord(s, "reply") == k && k.len > 0
    ensures var x := s[k.len..]; var n := k.len + OrChain(x);
      TokensFrom(false, s) == {Upper(k.text)} + Uppers(StepWords(x)) + TokensFrom(EndsInWord(false, s[..n]), s[n..])
  {
    hide AfterWord, OrStep, OrChain, StepWords, ChainWords, EndsInWord;
    var x := s[k.len..];
    ChainAgrees(x);
    FindAllStep(ReplyClause, false, s);
    var m := WithChain(k, OrTail(x));
    var rest := FindAll(ReplyClause, EndsInWord(false, s[..m.len]), s[m.len..]);
    assert FindAll(ReplyClause, false, s) == [m] + rest;
    assert ([m] + rest)[1..] == rest;
  }

  /** A clause that only the appended phrase completes starts at a bare "reply". */
  lemma {:induction false} NewClause(a: string, b: string)
    requires SpaceLed(b) && AfterWord(a, "reply").len == 0 && AfterWord(a + b, "reply").len > 0
    ensures a != "" && Mute(a[1..], 0)
  {
    hide AfterWord, SpacedWord;
    AfterWordGrows(a, b, "reply");
    RunIs(Space, a[5..]);
    forall i | 1 <= i < |a| ensures LowerChar(a[i]) != 'r' {
      if i < 5 { StartsChar(a, "reply", i); } else { assert a[i] == a[5..][i - 5]; }
    }
  }

  lemma {:induction false} GrowNone(afterWord: bool, a: string, b: string)
    requires a != "" && MatchAt(ReplyClause, afterWord, a) == None == MatchAt(ReplyClause, afterWord, a + b)
    requires var aw := EndsInWord(afterWord, a[..1]); TokensFrom(aw, a[1..]) <= TokensFrom(aw, a[1..] + b)
    ensures TokensFrom(afterWord, a) <= TokensFrom(afterWord, a + b)
  {
    TokensNone(afterWord, a);
    TokensNone(afterWord, a + b);
    DropConcat(a, b, 1);
  }

  lemma {:induction false} GrowNew(a: string, b: string)
    requires SpaceLed(b) && AfterWord(a, "reply").len == 0 && AfterWord(a + b, "reply").len > 0
    ensures TokensFrom(false, a) == {}
  {
    NewClause(a, b);
    TokensNone(false, a);
    MuteNoMatch(EndsInWord(false, a[..1]), a[1..], 0);
  }

  lemma {:induction false} GrowLonger(a: string, b: string, k: Token)
    requires SpaceLed(b) && a != "" && AfterWord(a, "reply") == k == AfterWord(a + b, "reply") && k.len > 0
    requires OrChain(a[k.len..]) < OrChain(a[k.len..] + b)
    ensures TokensFrom(false, a) <= TokensFrom(false, a + b)
  {
    hide FindAll, MatchAt, OrStep, OrChain, StepWords, AfterWord, Mute, EndsInWord;
    var x := a[k.len..];
    var n := k.len + OrChain(x);
    DropConcat(a, b, k.len);
    ChainGrows(x, b);
    TokensSome(a, k);
    TokensSome(a + b, k);
    assert x[OrChain(x)..] == a[n..];
    MuteNoMatch(EndsInWord(false, a[..n]), a[n..], 1);
  }

  lemma {:induction false} GrowSame(a: string, b: string, k: Token, n: nat)
    requires SpaceLed(b) && a != "" && AfterWord(a, "reply") == k == AfterWord(a + b, "reply") && k.len > 0
    requires OrChain(a[k.len..]) == OrChain(a[k.len..] + b) && n == k.len + OrChain(a[k.len..])
    requires var aw := EndsInWord(false, a[..n]); TokensFrom(aw, a[n..]) <= TokensFrom(aw, a[n..] + b)
    ensures TokensFrom(false, a) <= TokensFrom(false, a + b)
  {
    hide TokensFrom, FindAll, MatchAt, OrStep, OrChain, StepWords, AfterWord, EndsInWord;
    DropConcat(a, b, k.len);
    DropConcat(a, b, n);
    ChainGrows(a[k.len..], b);
    TokensSome(a, k);
    TokensSome(a + b, k);
  }

  /** A reply token of a message is still one after a phrase is appended. */
  lemma {:induction false} TokensGrow(afterWord: bool, a: string, b: string)
    requires SpaceLed(b)
    ensures TokensFrom(afterWord, a) <= TokensFrom(afterWord, a + b)
    decreases |a|
  {
    var k := AfterWord(a, "reply");
    AfterWordGrows(a, b, "reply");
    if a == "" {
    } else if afterWord || AfterWord(a + b, "reply").len == 0 {
      TokensGrow(EndsInWord(afterWord, a[..1]), a[1..], b);
      GrowNone(afterWord, a, b);
    } else if k.len == 0 {
      GrowNew(a, b);
    } else {
      DropConcat(a, b, k.len);
      var x := a[k.len..];
      ChainGrows(x, b);
      if OrChain(x) < OrChain(x + b) {
        GrowLonger(a, b, k);
      } else {
        var n := k.len + OrChain(x);
        TokensGrow(EndsInWord(false, a[..n]), a[n..], b);
        GrowSame(a, b, k, n);
      }
    }
  }
}
