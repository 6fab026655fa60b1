/** Which words a call to action needs, and how much of the fixed phrases holds them. */
module CtaWords {
  import opened Text
  import opened Cuts
  import opened Brief
  import opened Firewall
  import opened Composer
  import opened FallbackProofs
  import opened TemplateCuts

  // ---- where the words of a call to action are ---------------------------------------------------

  /** A phrase or word that cannot reach across the end of a sentence and the space behind it. */
  predicate Compact(p: string) { p != "" && p[0] != ' ' && '.' !in p && '?' !in p && '!' !in p }

  lemma {:induction false} OccursSplit(x: string, y: string, p: string, i: int)
    requires EndsIn(x, {'.', '?', '!'}) && Compact(p)
    ensures OccursAt(x + (" " + y), p, i) <==> OccursAt(x, p, i) || OccursAt(y, p, i - |x| - 1)
    ensures OccursAt(x, p, i) ==> i + |p| < |x|
  {
    var s, n := x + (" " + y), i + |p|;
    if 0 <= i && n <= |x| {
      assert s[i..n] == x[i..n];
      if OccursAt(x, p, i) { assert x[i..n][|p| - 1] == x[n - 1] && p[|p| - 1] in p; }
    } else if |x| < i && n <= |s| {
      assert s[i..n] == y[i - |x| - 1..n - |x| - 1];
    } else if 0 <= i <= |x| && n <= |s| {
      var k := if i == |x| then i else |x| - 1;
      assert s[i..n][k - i] == s[k];
      assert p[k - i] in p;
    }
  }

  lemma {:induction false} ContainsSplit(x: string, y: string, p: string)
    requires EndsIn(x, {'.', '?', '!'}) && Compact(p)
    ensures Contains(x + (" " + y), p) <==> Contains(x, p) || Contains(y, p)
  {
    var s := x + (" " + y);
    forall i ensures OccursAt(s, p, i) <==> OccursAt(x, p, i) || OccursAt(y, p, i - |x| - 1) { OccursSplit(x, y, p, i); }
    if Contains(x, p) {
      var i :| 0 <= i <= |x| - |p| && OccursAt(x, p, i);
      assert OccursAt(s, p, i);
    }
    if Contains(y, p) {
      var i :| 0 <= i <= |y| - |p| && OccursAt(y, p, i);
      assert OccursAt(s, p, i + |x| + 1);
    }
  }

  /** An occurrence with no word character on either side. */
  predicate IsWordAt(hay: string, word: string, i: int) {
    && OccursAt(hay, word, i)
    && (i == 0 || !IsWord(hay[i - 1]))
    && (i + |word| == |hay| || !IsWord(hay[i + |word|]))
  }

  lemma {:induction false} WordIff(hay: string, word: string)
    ensures ContainsWord(hay, word) <==> exists i :: IsWordAt(hay, word, i)
  {
    if ContainsWord(hay, word) {
      var i :| 0 <= i <= |hay| - |word| && OccursAt(hay, word, i) && (i == 0 || !IsWord(hay[i - 1]))
        && (i + |word| == |hay| || !IsWord(hay[i + |word|]));
      assert IsWordAt(hay, word, i);
    }
  }

  lemma {:induction false} WordSplitAt(x: string, y: string, w: string, i: int)
    requires EndsIn(x, {'.', '?', '!'}) && Compact(w)
    ensures IsWordAt(x + (" " + y), w, i) <==> IsWordAt(x, w, i) || IsWordAt(y, w, i - |x| - 1)
  {
    OccursSplit(x, y, w, i);
    var s := x + (" " + y);
    if OccursAt(x, w, i) {
      assert s[i + |w|] == x[i + |w|];
    } else if OccursAt(y, w, i - |x| - 1) {
      assert i == |x| + 1 ==> s[i - 1] == ' ';
      assert i > |x| + 1 ==> s[i - 1] == y[i - |x| - 2];
    }
  }

  lemma {:induction false} WordSplit(x: string, y: string, w: string)
    requires EndsIn(x, {'.', '?', '!'}) && Compact(w)
    ensures ContainsWord(x + (" " + y), w) <==> ContainsWord(x, w) || ContainsWord(y, w)
  {
    hide IsWordAt, ContainsWord;
    var s := x + (" " + y);
    WordIff(s, w);
    WordIff(x, w);
    WordIff(y, w);
    forall i ensures IsWordAt(s, w, i) <==> IsWordAt(x, w, i) || IsWordAt(y, w, i - |x| - 1) { WordSplitAt(x, y, w, i); }
    if exists i :: IsWordAt(y, w, i) {
      var i :| IsWordAt(y, w, i);
      assert IsWordAt(y, w, (i + |x| + 1) - |x| - 1);
      assert IsWordAt(s, w, i + |x| + 1);
    }
  }

  lemma {:induction false} ActionsCompact()
    ensures forall p | p in ACTION_PHRASES :: Compact(p)
  {}

  lemma {:induction false} OptionsCompact(cta: Cta)
    ensures OptionWords(cta).Some? ==> forall w | w in OptionWords(cta).value :: Compact(w)
  {}

  lemma {:induction false} ActionSplit(x: string, y: string)
    requires EndsIn(x, {'.', '?', '!'})
    ensures HasAction(x + (" " + y)) <==> HasAction(x) || HasAction(y)
  {
    hide Compact, Contains;
    ActionsCompact();
    forall p | p in ACTION_PHRASES ensures Contains(x + (" " + y), p) <==> Contains(x, p) || Contains(y, p) { ContainsSplit(x, y, p); }
  }

  lemma {:induction false} OptionSplit(x: string, y: string, cta: Cta)
    requires EndsIn(x, {'.', '?', '!'}) && OptionWords(cta).Some?
    ensures var words := OptionWords(cta).value;
      HasOption(x + (" " + y), words) <==> HasOption(x, words) || HasOption(y, words)
  {
    hide Compact, ContainsWord, OptionWords;
    OptionsCompact(cta);
    forall w | w in OptionWords(cta).value
      ensures ContainsWord(x + (" " + y), w) <==> ContainsWord(x, w) || ContainsWord(y, w)
    {
      WordSplit(x, y, w);
    }
  }

  // ---- how much of the fixed phrases is needed ---------------------------------------------------

  /** Where the action phrase of the fixed phrase ends. */
  function ActionEnd(cta: Cta, hindi: bool): nat {
    match cta
    case BinaryYesNo => if hindi then 25 else 5
    case BinaryConfirmCancel => 5
    case MultiChoiceSlot => if hindi then 33 else 5
    case _ => 0
  }

  /** Where its option word ends. */
  function OptionEnd(cta: Cta, hindi: bool): nat {
    match cta
    case BinaryYesNo => if hindi then 4 else 9
    case BinaryConfirmCancel => 13
    case _ => 0
  }

  function Needed(cta: Cta, hindi: bool): nat {
    if ActionEnd(cta, hindi) >= OptionEnd(cta, hindi) then ActionEnd(cta, hindi) else OptionEnd(cta, hindi)
  }

  lemma {:induction false} CutOccurs(phrase: string, needle: string, i: nat, n: nat)
    requires OccursAt(Lower(phrase), needle, i) && i + |needle| <= |Cut(phrase, n)|
    ensures OccursAt(Lower(Cut(phrase, n)), needle, i)
  {
    var c := Lower(Cut(phrase, n));
    assert c == Lower(phrase)[..|c|];
    assert c[i..i + |needle|] == Lower(phrase)[i..i + |needle|];
  }

  lemma {:induction false} CutHasAction(phrase: string, action: string, i: nat, n: nat)
    requires action in ACTION_PHRASES && OccursAt(Lower(phrase), action, i) && i + |action| <= |Cut(phrase, n)|
    ensures HasAction(Lower(Cut(phrase, n)))
  {
    CutOccurs(phrase, action, i, n);
  }

  lemma {:induction false} CutHasWord(phrase: string, word: string, i: nat, n: nat)
    requires WordAt(phrase, word, i) && i + |word| <= |Cut(phrase, n)|
    ensures ContainsWord(Lower(Cut(phrase, n)), word)
  {
    CutOccurs(phrase, word, i, n);
    assert Lower(Cut(phrase, n)) == Lower(phrase)[..|Cut(phrase, n)|];
  }

  /** What a beginning of a text contains, the text contains. */
  lemma {:induction false} BeginningContains(start: string, whole: string, p: string)
    requires start <= whole && Contains(start, p)
    ensures Contains(whole, p)
  {
    var i :| 0 <= i <= |start| - |p| && OccursAt(start, p, i);
    assert whole[i..i + |p|] == start[i..i + |p|];
    assert OccursAt(whole, p, i);
  }

  lemma {:induction false} WordIsContained(hay: string, word: string)
    requires ContainsWord(hay, word)
    ensures Contains(hay, word)
  {}

  /** A character of the needle is missing. */
  lemma {:induction false} Missing(hay: string, needle: string, k: nat)
    requires k < |needle| && needle[k] !in hay
    ensures !Contains(hay, needle)
  {
    forall i ensures !OccursAt(hay, needle, i) { MissingAt(hay, needle, k, i); }
  }

  lemma {:induction false} MissingAt(hay: string, needle: string, k: nat, i: int)
    requires k < |needle|
    ensures OccursAt(hay, needle, i) ==> 0 <= i && i + |needle| <= |hay| && hay[i + k] == needle[k] && needle[k] in hay
  {
    if OccursAt(hay, needle, i) { assert hay[i..i + |needle|][k] == hay[i + k]; }
  }

  /** The needle could only start at one place, and does not. */
  lemma {:induction false} OnlyAt(hay: string, needle: string, at: nat, k: nat)
    requires k < |needle| && forall i | 0 <= i < |hay| && hay[i] == needle[0] :: i == at
    requires at + |needle| > |hay| || hay[at + k] != needle[k]
    ensures !Contains(hay, needle)
  {
    forall i ensures !OccursAt(hay, needle, i) {
      MissingAt(hay, needle, 0, i);
      MissingAt(hay, needle, k, i);
    }
  }

  // The longest beginnings of the fixed phrases that ask for nothing.

  lemma {:induction false} ReplHasNone()
    ensures !HasAction("repl")
  {
    hide Contains;
    var s := "repl";
    assert 's' !in s && 't' !in s && 'b' !in s && 'y' !in s;
    forall p | p in ACTION_PHRASES ensures !Contains(s, p) {
      if p == "reply" { Missing(s, p, 4); }
      else if p == "say" { Missing(s, p, 0); }
      else if p == "respond" { Missing(s, p, 2); }
      else if p == "let us know" || p == "let me know" { Missing(s, p, 2); }
      else { Missing(s, p, 0); }
    }
  }

  /** In such a text an action phrase could only start with its one b, in front of "bata dijiy". */
  predicate BataDijiy(s: string, at: nat) {
    && 'l' !in s && 's' !in s && |s| == at + 10 && s[at..] == "bata dijiy"
    && forall i | 0 <= i < |s| && s[i] == 'b' :: i == at
  }

  lemma {:induction false} BataHasNone(s: string, at: nat)
    requires BataDijiy(s, at)
    ensures !HasAction(s)
  {
    hide Contains;
    BataLetters(s, at);
    forall p | p in ACTION_PHRASES ensures !Contains(s, p) {
      if p == "reply" { Missing(s, p, 3); }
      else if p == "say" { Missing(s, p, 0); }
      else if p == "respond" { Missing(s, p, 2); }
      else if p == "let us know" || p == "let me know" { Missing(s, p, 0); }
      else { BataMisses(s, at, p); }
    }
  }

  lemma {:induction false} BataLetters(s: string, at: nat)
    requires BataDijiy(s, at)
    ensures at + 6 < |s| && s[at + 1] == 'a' && s[at + 4] == ' ' && s[at + 6] == 'i'
  {
    var t := s[at..];
    assert t[1] == s[at + 1] && t[4] == s[at + 4] && t[6] == s[at + 6];
  }

  lemma {:induction false} BataMisses(s: string, at: nat, p: string)
    requires BataDijiy(s, at)
    requires p in ["batayein", "bataiye", "bolo", "bataen", "batao", "bata do", "bata dein", "bata dijiye"]
    ensures !Contains(s, p)
  {
    hide Contains;
    BataLetters(s, at);
    if p == "bolo" { OnlyAt(s, p, at, 1); }
    else if p == "bata do" || p == "bata dein" { OnlyAt(s, p, at, 6); }
    else if p == "bata dijiye" { OnlyAt(s, p, at, 0); }
    else { OnlyAt(s, p, at, 4); }
  }

  lemma {:induction false} HaanBata()
    ensures BataDijiy("haan ya nahi, bata dijiy", 14)
  {
    assert "haan ya nahi, bata dijiy"[14..] == "bata dijiy";
  }

  lemma {:induction false} ApnaBata()
    ensures BataDijiy("apna preferred option bata dijiy", 22)
  {
    assert "apna preferred option bata dijiy"[22..] == "bata dijiy";
  }

  lemma {:induction false} YeHasNone()
    ensures forall w | w in ["yes", "no", "haan", "nahi", "nahin"] :: !Contains("reply ye", w)
  {
    hide Contains;
    var s := "reply ye";
    assert 's' !in s && 'n' !in s && 'h' !in s;
    Missing(s, "yes", 2);
    Missing(s, "no", 0);
    Missing(s, "haan", 0);
    Missing(s, "nahi", 0);
    Missing(s, "nahin", 0);
  }

  lemma {:induction false} HaaHasNone()
    ensures forall w | w in ["yes", "no", "haan", "nahi", "nahin"] :: !Contains("haa", w)
  {
    hide Contains;
    var s := "haa";
    assert 'y' !in s && 'n' !in s;
    Missing(s, "yes", 0);
    Missing(s, "no", 0);
    Missing(s, "haan", 3);
    Missing(s, "nahi", 0);
    Missing(s, "nahin", 0);
  }

  lemma {:induction false} ConfirHasNone()
    ensures forall w | w in ["confirm", "cancel"] :: !Contains("reply confir", w)
  {
    hide Contains;
    var s := "reply confir";
    assert 'm' !in s && 'a' !in s;
    Missing(s, "confirm", 6);
    Missing(s, "cancel", 1);
  }

  lemma {:induction false} CutIsBeginning(phrase: string, start: string, n: nat)
    requires OccursAt(Lower(phrase), start, 0) && |Cut(phrase, n)| <= |start|
    ensures Lower(Cut(phrase, n)) <= start
  {
    var c := Lower(Cut(phrase, n));
    assert Lower(phrase)[0..|start|] == start;
    assert forall k | 0 <= k < |c| :: c[k] == Lower(phrase)[k] == start[k];
  }

  /** A cut phrase asks for an answer exactly if it holds its whole action phrase. */
  lemma {:induction false} ActionIff(phrase: string, start: string, action: string, i: nat, n: nat)
    requires OccursAt(Lower(phrase), start, 0) && !HasAction(start) && |start| + 1 == i + |action|
    requires action in ACTION_PHRASES && OccursAt(Lower(phrase), action, i)
    ensures HasAction(Lower(Cut(phrase, n))) <==> |Cut(phrase, n)| >= i + |action|
  {
    var c := Lower(Cut(phrase, n));
    if |c| >= i + |action| {
      CutHasAction(phrase, action, i, n);
    } else if HasAction(c) {
      CutIsBeginning(phrase, start, n);
      var p :| p in ACTION_PHRASES && Contains(c, p);
      BeginningContains(c, start, p);
    }
  }

  lemma {:induction false} OptionIff(phrase: string, start: string, words: seq<string>, word: string, i: nat, n: nat)
    requires OccursAt(Lower(phrase), start, 0) && (forall w | w in words :: !Contains(start, w)) && |start| + 1 == i + |word|
    requires word in words && WordAt(phrase, word, i)
    ensures HasOption(Lower(Cut(phrase, n)), words) <==> |Cut(phrase, n)| >= i + |word|
  {
    hide ContainsWord, WordAt;
    var c := Lower(Cut(phrase, n));
    if |c| >= i + |word| {
      CutHasWord(phrase, word, i, n);
    } else if HasOption(c, words) {
      CutIsBeginning(phrase, start, n);
      var w :| w in words && ContainsWord(c, w);
      WordIsContained(c, w);
      BeginningContains(c, start, w);
    }
  }

  lemma {:induction false} YesBegins()
    ensures OccursAt(Lower("Reply YES if you'd like this."), "repl", 0)
    ensures OccursAt(Lower("Reply YES if you'd like this."), "reply ye", 0)
  {
    OccursBy("Reply YES if you'd like this.", "repl", 0);
    OccursBy("Reply YES if you'd like this.", "reply ye", 0);
  }

  lemma {:induction false} ConfirmBegins()
    ensures OccursAt(Lower("Reply CONFIRM to proceed."), "repl", 0)
    ensures OccursAt(Lower("Reply CONFIRM to proceed."), "reply confir", 0)
  {
    OccursBy("Reply CONFIRM to proceed.", "repl", 0);
    OccursBy("Reply CONFIRM to proceed.", "reply confir", 0);
  }

  lemma {:induction false} WithBegins()
    ensures OccursAt(Lower("Reply with your preferred option."), "repl", 0)
  {
    OccursBy("Reply with your preferred option.", "repl", 0);
  }

  lemma {:induction false} HaanBegins()
    ensures OccursAt(Lower("Haan ya nahi, bata dijiye."), "haa", 0)
    ensures OccursAt(Lower("Haan ya nahi, bata dijiye."), "haan ya nahi, bata dijiy", 0)
  {
    OccursBy("Haan ya nahi, bata dijiye.", "haa", 0);
    OccursBy("Haan ya nahi, bata dijiye.", "haan ya nahi, bata dijiy", 0);
  }

  lemma {:induction false} BeginsBoth(a: string, b: string, x: string, y: string)
    requires OccursAt(Lower(a), x, 0) && |x| == |a| && OccursAt(Lower(b), y, 0)
    ensures OccursAt(Lower(a + b), x + y, 0)
  {
    var s := Lower(a + b);
    assert s == Lower(a) + Lower(b);
    assert s[0..|x + y|] == Lower(a)[0..|x|] + Lower(b)[0..|y|];
  }

  lemma {:induction false} ApnaOption()
    ensures OccursAt(Lower("Apna preferred option "), "apna preferred option ", 0)
  {
    OccursBy("Apna preferred option ", "apna preferred option ", 0);
  }

  lemma {:induction false} BataBegins()
    ensures OccursAt(Lower("bata dijiye."), "bata dijiy", 0)
  {
    OccursBy("bata dijiye.", "bata dijiy", 0);
  }

  lemma {:induction false} ApnaBegins()
    ensures OccursAt(Lower("Apna preferred option bata dijiye."), "apna preferred option bata dijiy", 0)
  {
    hide Lower, OccursAt;
    ApnaOption();
    BataBegins();
    BeginsBoth("Apna preferred option ", "bata dijiye.", "apna preferred option ", "bata dijiy");
    assert "Apna preferred option " + "bata dijiye." == "Apna preferred option bata dijiye.";
    assert "apna preferred option " + "bata dijiy" == "apna preferred option bata dijiy";
  }

  /** However it is cut, the fixed phrase asks for an answer exactly if `ActionEnd` characters are left. */
  lemma {:induction false} ActionLeft(cta: Cta, hindi: bool, n: nat)
    requires Asks(cta)
    ensures HasAction(Lower(Cut(CtaText(cta, hindi), n))) <==> |Cut(CtaText(cta, hindi), n)| >= ActionEnd(cta, hindi)
  {
    hide HasAction, OccursAt, Cut, WordAt, BataDijiy;
    if cta.BinaryYesNo? && hindi {
      HaanBata();
      BataHasNone("haan ya nahi, bata dijiy", 14);
      HaanBegins();
      HaanExplicit();
      ActionIff(CtaText(cta, hindi), "haan ya nahi, bata dijiy", "bata dijiye", 14, n);
    } else if cta.MultiChoiceSlot? && hindi {
      ApnaBata();
      BataHasNone("apna preferred option bata dijiy", 22);
      ApnaBegins();
      ApnaExplicit();
      ActionIff(CtaText(cta, hindi), "apna preferred option bata dijiy", "bata dijiye", 22, n);
    } else {
      ReplHasNone();
      ReplyBegins(cta, hindi);
      ActionIff(CtaText(cta, hindi), "repl", "reply", 0, n);
    }
  }

  lemma {:induction false} ReplyBegins(cta: Cta, hindi: bool)
    requires Asks(cta) && (hindi ==> cta.BinaryConfirmCancel?)
    ensures OccursAt(Lower(CtaText(cta, hindi)), "repl", 0) && OccursAt(Lower(CtaText(cta, hindi)), "reply", 0)
  {
    hide OccursAt, WordAt;
    YesBegins();
    YesExplicit();
    ConfirmBegins();
    ConfirmExplicit();
    WithBegins();
    WithExplicit();
  }

  /** And it names an option exactly if `OptionEnd` are. */
  lemma {:induction false} OptionLeft(cta: Cta, hindi: bool, n: nat)
    requires OptionWords(cta).Some?
    ensures HasOption(Lower(Cut(CtaText(cta, hindi), n)), OptionWords(cta).value)
      <==> |Cut(CtaText(cta, hindi), n)| >= OptionEnd(cta, hindi)
  {
    hide HasOption, OccursAt, Cut, WordAt, Contains;
    if cta.BinaryConfirmCancel? {
      ConfirHasNone();
      ConfirmBegins();
      ConfirmExplicit();
      OptionIff(CtaText(cta, hindi), "reply confir", OptionWords(cta).value, "confirm", 6, n);
    } else if hindi {
      HaaHasNone();
      HaanBegins();
      HaanExplicit();
      OptionIff(CtaText(cta, hindi), "haa", OptionWords(cta).value, "haan", 0, n);
    } else {
      YeHasNone();
      YesBegins();
      YesExplicit();
      OptionIff(CtaText(cta, hindi), "reply ye", OptionWords(cta).value, "yes", 6, n);
    }
  }

  lemma {:induction false} PhraseLongEnough(cta: Cta, hindi: bool)
    ensures ActionEnd(cta, hindi) <= |CtaText(cta, hindi)| && OptionEnd(cta, hindi) <= |CtaText(cta, hindi)|
    ensures Asks(cta) <==> ActionEnd(cta, hindi) > 0
    ensures Asks(cta) ==> CtaText(cta, hindi) != ""
  {}
}
