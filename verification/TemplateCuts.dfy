/** The template when its length limit cuts it, anywhere. */
module TemplateCuts {
  import opened Text
  import opened Cuts
  import opened Brief
  import opened Composer
  import opened Readings
  import opened FallbackProofs

  /** The template, part by part: fixed wording, the addressee, a text before a punctuation mark, a
      text that closes with a question or exclamation mark, and fixed wording at the very end. */
  datatype Part = Fixed(text: string) | Addressee(text: string) | Taken(text: string) | Asked(text: string) | Closing(text: string)

  function Whole(parts: seq<Part>): string { if parts == [] then "" else parts[0].text + Whole(parts[1..]) }

  function Cut(s: string, m: nat): string { if m < |s| then s[..m] else s }

  /** What is read in the first `m` characters: the parts before the cut, each as the punctuation
      behind it leaves it, and the beginning of the part under the cut. */
  function CutReading(parts: seq<Part>, m: nat): Reading {
    if parts == [] then NOTHING
    else
      var part := parts[0];
      var n := |part.text|;
      if part.Fixed? then (if m <= n then NOTHING else CutReading(parts[1..], m - n))
      else if m <= n || part.Closing? then Read(Cut(part.text, m))
      else
        var here :=
          match part
          case Addressee(s) => Addressed(s)
          case Taken(s) => Piece(s)
          case _ => Read(part.text);
        Plus(here, CutReading(parts[1..], m - n))
  }

  /** A part is what it says, and stands before what it needs behind it. */
  predicate Glues(part: Part, rest: seq<Part>) {
    match part
    case Fixed(s) => Plain(s)
    case Addressee(_) => rest != [] && rest[0] == Fixed(", ")
    case Taken(_) => rest != [] && (rest[0] in {Fixed("; "), Fixed("; and "), Fixed(". ")} || rest == [Closing(".")])
    case Asked(s) => EndsIn(s, {'?', '!'}) && (rest == [] || (|rest| == 2 && rest[0] == Fixed(" ") && OpensWithLetter(rest[1])))
    case Closing(s) => rest == [] && Closed(s)
  }

  predicate Glued(parts: seq<Part>) { parts != [] ==> Glued(parts[1..]) && Glues(parts[0], parts[1..]) }

  predicate OpensWithLetter(p: Part) { p.Closing? && p.text != "" && IsLetter(p.text[0]) }

  // ---- reading the beginning of a text -----------------------------------------------------------

  lemma {:induction false} ClosedCut(a: string, m: nat)
    requires Closed(a)
    ensures Closed(Cut(a, m))
  {
    var c := Cut(a, m);
    forall x | x in c ensures x in a {}
    forall i | 0 <= i < |c| - 1 ensures c[i] == '.' ==> c[i + 1] == ' ' { assert c[i] == a[i] && c[i + 1] == a[i + 1]; }
  }

  lemma {:induction false} PlainCut(a: string, m: nat)
    requires Plain(a)
    ensures Read(Cut(a, m)) == NOTHING
  {
    hide Read;
    ClosedCut(a, m);
    var c := Cut(a, m);
    forall x | x in c ensures x in a {}
    MutePhrase(c, 2);
  }

  lemma {:induction false} CutBehind(a: string, b: string, m: nat)
    ensures m <= |a| ==> Cut(a + b, m) == Cut(a, m)
    ensures m > |a| ==> Cut(a + b, m) == a + Cut(b, m - |a|)
  {}

  lemma {:induction false} CutNothing(s: string)
    ensures Cut(s, 0) == ""
  {}

  lemma {:induction false} EmptyReads()
    ensures Read("") == NOTHING
  {}

  /** A punctuation mark stays one when the text behind it is cut. */
  lemma {:induction false} MarkCut(parts: seq<Part>, m: nat)
    requires m > 0 && parts != []
    requires parts[0] in {Fixed("; "), Fixed("; and "), Fixed(". ")} || parts == [Closing(".")]
    ensures MarkLed(Cut(Whole(parts), m)) && Cut(Whole(parts), m)[0] != ','
  {
    var w := Whole(parts);
    assert parts == [Closing(".")] ==> Whole(parts[1..]) == "";
  }

  lemma {:induction false} TakenCut(s: string, rest: seq<Part>, m: nat)
    requires m > |s| && rest != []
    requires rest[0] in {Fixed("; "), Fixed("; and "), Fixed(". ")} || rest == [Closing(".")]
    ensures Read(Cut(s + Whole(rest), m)) == Plus(Piece(s), Read(Cut(Whole(rest), m - |s|)))
  {
    hide Read, Piece, Cut, Whole;
    CutBehind(s, Whole(rest), m);
    MarkCut(rest, m - |s|);
    GlueMark(s, Cut(Whole(rest), m - |s|));
  }

  lemma {:induction false} AddressCut(s: string, rest: seq<Part>, m: nat)
    requires m > |s| && rest != [] && rest[0] == Fixed(", ")
    ensures Read(Cut(s + Whole(rest), m)) == Plus(Addressed(s), Read(Cut(Whole(rest), m - |s|)))
  {
    hide Read, Addressed;
    var behind := Whole(rest[1..]);
    var k := m - |s|;
    CutBehind(s, Whole(rest), m);
    CutBehind(", ", behind, k);
    if k == 1 {
      assert Cut(", ", 1) == ",";
      GlueComma(s);
      CommaReads();
      PlusNothing(Addressed(s));
    } else {
      var end := if k == 2 then "" else Cut(behind, k - 2);
      assert Cut(", ", 2) == ", " && ", " + "" == ", ";
      GlueAddress(s, end);
      CommaPlain();
      GluePlain(", ", end);
    }
  }

  lemma {:induction false} AskedCut(s: string, rest: seq<Part>, m: nat)
    requires m > |s| && EndsIn(s, {'?', '!'}) && |rest| == 2 && rest[0] == Fixed(" ") && OpensWithLetter(rest[1])
    ensures Read(Cut(s + Whole(rest), m)) == Plus(Read(s), Read(Cut(Whole(rest), m - |s|)))
  {
    hide Read;
    assert rest[1..][0] == rest[1];
    CutBehind(s, Whole(rest), m);
    assert SpaceLed(Cut(Whole(rest), m - |s|));
    GlueSentence(s, Cut(Whole(rest), m - |s|));
  }

  lemma {:induction false} FixedCut(s: string, rest: string, m: nat)
    requires Plain(s)
    ensures Read(Cut(s + rest, m)) == if m <= |s| then NOTHING else Read(Cut(rest, m - |s|))
  {
    hide Read, Plain;
    CutBehind(s, rest, m);
    if m <= |s| { PlainCut(s, m); } else { GluePlain(s, Cut(rest, m - |s|)); }
  }

  /** However far the template is cut, no fixed wording, no join and no cut of the wording adds or
      hides anything: what is read are the parts before the cut and the beginning of the one under it. */
  lemma {:induction false} CutReads(parts: seq<Part>, m: nat)
    requires Glued(parts)
    ensures Read(Cut(Whole(parts), m)) == CutReading(parts, m)
  {
    hide Read, Piece, Addressed, Plain, Closed;
    if parts == [] {
      EmptyReads();
    } else {
      var s, rest := parts[0].text, parts[1..];
      CutBehind(s, Whole(rest), m);
      if m > |s| { CutReads(rest, m - |s|); }
      match parts[0] {
        case Fixed(_) => FixedCut(s, Whole(rest), m);
        case Addressee(_) => if m > |s| { AddressCut(s, rest, m); }
        case Taken(_) => if m > |s| { TakenCut(s, rest, m); }
        case Asked(_) =>
          if m > |s| && rest != [] { AskedCut(s, rest, m); }
          if rest == [] { AskedLast(s, m); }
        case Closing(_) => assert s + "" == s;
      }
    }
  }

  lemma {:induction false} AskedLast(s: string, m: nat)
    ensures s + "" == s && (m > |s| ==> Cut(s, m) == s)
    ensures Plus(Read(s), NOTHING) == Read(s)
  {
    PlusNothing(Read(s));
  }

  // ---- the parts of the template -----------------------------------------------------------------

  function PhraseParts(lead: string, cta: string): seq<Part> {
    if cta != "" then [Fixed(lead), Closing(cta)] else []
  }

  /** The shown facts and what closes them. */
  function FactParts(facts: seq<string>, cta: string): seq<Part>
    requires facts != []
  {
    if |facts| > 1 then [Taken(facts[0]), Fixed(if |facts| == 2 then "; and " else "; ")] + FactParts(facts[1..], cta)
    else if Terminal(facts[0]) == "" then [Asked(facts[0])] + PhraseParts(" ", cta)
    else [Taken(facts[0])] + (if cta != "" then PhraseParts(". ", cta) else [Closing(".")])
  }

  function IntroParts(brief: Brief): seq<Part> {
    if MerchantIntro(brief) != "" then [Fixed("this is "), Taken(brief.merchantName), Fixed(". ")] else []
  }

  function Parts(brief: Brief): seq<Part> {
    [Fixed(Prefix(brief.replyIntent)), Addressee(Subject(brief)), Fixed(", ")]
    + (IntroParts(brief) + ([Fixed(Opener(brief))] + FactParts(Shown(brief), CtaFallbackText(brief))))
  }

  lemma {:induction false} WholeConcat(a: seq<Part>, b: seq<Part>)
    ensures Whole(a + b) == Whole(a) + Whole(b)
  {
    if a == [] {
      assert a + b == b;
    } else {
      assert (a + b)[1..] == a[1..] + b;
      WholeConcat(a[1..], b);
    }
  }

  lemma {:induction false} WholeOne(p: Part)
    ensures Whole([p]) == p.text
  {
    assert [p][1..] == [] && p.text + "" == p.text;
  }

  lemma {:induction false} PhraseWhole(lead: string, cta: string)
    ensures Whole(PhraseParts(lead, cta)) == if cta != "" then lead + cta else ""
  {
    if cta != "" {
      WholeOne(Closing(cta));
      assert [Fixed(lead), Closing(cta)][1..] == [Closing(cta)];
    }
  }

  lemma {:induction false} LastWhole(fact: string, cta: string)
    ensures Whole(FactParts([fact], cta)) == fact + (Terminal(fact) + Tail(cta))
  {
    if Terminal(fact) == "" {
      PhraseWhole(" ", cta);
      WholeConcat([Asked(fact)], PhraseParts(" ", cta));
      WholeOne(Asked(fact));
      assert "" + Tail(cta) == Tail(cta);
    } else {
      PhraseWhole(". ", cta);
      WholeOne(Taken(fact));
      WholeOne(Closing("."));
      WholeConcat([Taken(fact)], PhraseParts(". ", cta));
      WholeConcat([Taken(fact)], [Closing(".")]);
      assert ". " + cta == "." + (" " + cta);
      assert "." + "" == ".";
    }
  }

  lemma {:induction false} FactWhole(facts: seq<string>, cta: string)
    requires facts != [] && forall f | f in facts :: f != ""
    ensures var text := Chain(facts); text != "" && Whole(FactParts(facts, cta)) == text + (Terminal(text) + Tail(cta))
  {
    hide Terminal, Tail;
    assert facts[0] in facts;
    if |facts| == 1 {
      assert facts == [facts[0]];
      LastWhole(facts[0], cta);
    } else {
      forall f | f in facts[1..] ensures f in facts {}
      FactWhole(facts[1..], cta);
      var sep := if |facts| == 2 then "; and " else "; ";
      var text := Chain(facts[1..]);
      TerminalOf(facts[0] + (sep + text), text);
      WholeConcat([Taken(facts[0]), Fixed(sep)], FactParts(facts[1..], cta));
      WholeTwo(Taken(facts[0]), Fixed(sep));
      Regroup4(facts[0], sep, text, Terminal(text) + Tail(cta));
    }
  }

  lemma {:induction false} WholeTwo(p: Part, q: Part)
    ensures Whole([p, q]) == p.text + q.text
  {
    assert [p, q][1..] == [q];
    WholeOne(q);
  }

  lemma {:induction false} TerminalOf(a: string, b: string)
    requires b != "" && |a| >= |b| && a[|a| - |b|..] == b
    ensures Terminal(a) == Terminal(b)
  {
    assert a[|a| - 1] == a[|a| - |b|..][|b| - 1];
  }

  lemma {:induction false} Regroup4(a: string, b: string, c: string, d: string)
    ensures (a + b) + (c + d) == a + (b + c) + d
    ensures (a + (b + c))[|a + b|..] == c
  {}

  lemma {:induction false} ShownWhole(brief: Brief)
    ensures var text := FactText(brief); var cta := CtaFallbackText(brief);
      Whole(FactParts(Shown(brief), cta)) == text + (Terminal(text) + Tail(cta))
  {
    hide Terminal, Tail, Whole, FactParts, SanitizeFacts, Chain, CtaFallbackText;
    var facts := SanitizeFacts(brief.facts);
    ShownText(brief);
    SanitizedNonEmpty(brief.facts);
    if facts != [] { FactWhole(facts, CtaFallbackText(brief)); } else { LastWhole(brief.merchantName, CtaFallbackText(brief)); }
  }

  lemma {:induction false} IntroWhole(brief: Brief)
    ensures Whole(IntroParts(brief)) == MerchantIntro(brief)
  {
    if MerchantIntro(brief) != "" {
      var name := Taken(brief.merchantName);
      assert [Fixed("this is "), name, Fixed(". ")] == [Fixed("this is ")] + [name, Fixed(". ")];
      WholeConcat([Fixed("this is ")], [name, Fixed(". ")]);
      WholeOne(Fixed("this is "));
      WholeTwo(name, Fixed(". "));
      IntroText(brief.merchantName);
    }
  }

  lemma {:induction false} IntroText(name: string)
    ensures "this is " + (name + ". ") == "this is " + name + ". "
  {}

  lemma {:induction false} HeadWhole(p: Part, q: Part, r: Part)
    ensures Whole([p, q, r]) == p.text + (q.text + r.text)
  {
    assert [p, q, r] == [p] + [q, r];
    WholeConcat([p], [q, r]);
    WholeOne(p);
    WholeTwo(q, r);
  }

  /** The parts make up the template. */
  lemma {:induction false} PartsWhole(brief: Brief)
    ensures Whole(Parts(brief)) == FullText(brief)
  {
    hide Whole, FactParts, IntroParts, FullText, FactText, Terminal, Tail, Prefix, Subject, MerchantIntro, Opener, Shown, CtaFallbackText;
    var cta := CtaFallbackText(brief);
    var facts := FactParts(Shown(brief), cta);
    var opener := [Fixed(Opener(brief))];
    var head := [Fixed(Prefix(brief.replyIntent)), Addressee(Subject(brief)), Fixed(", ")];
    ShownWhole(brief);
    WholeConcat(opener, facts);
    WholeOne(Fixed(Opener(brief)));
    IntroWhole(brief);
    WholeConcat(IntroParts(brief), opener + facts);
    HeadWhole(Fixed(Prefix(brief.replyIntent)), Addressee(Subject(brief)), Fixed(", "));
    WholeConcat(head, IntroParts(brief) + (opener + facts));
    FullTextShape(brief);
    Assembled(Prefix(brief.replyIntent), Subject(brief), MerchantIntro(brief), Opener(brief), FactText(brief), Terminal(FactText(brief)), Tail(cta));
  }

  lemma {:induction false} Assembled(p: string, s: string, i: string, o: string, f: string, t: string, e: string)
    ensures (p + (s + ", ")) + (i + (o + (f + (t + e)))) == (p + (s + (", " + (i + (o + (f + t)))))) + e
  {}

  lemma {:induction false} CtaClosed(cta: Cta, hindi: bool)
    ensures Closed(CtaText(cta, hindi))
  {
    hide Closed;
    BataAgarClosed();
    WantClosed();
    HaanClosed();
    YesClosed();
    ConfirmClosed();
    ApnaClosed();
    WithClosed();
    NothingClosed();
  }

  lemma {:induction false} NothingClosed()
    ensures Closed("") && Closed(".")
  {}

  lemma {:induction false} GluedStep(part: Part, rest: seq<Part>)
    ensures Glued([part] + rest) <==> Glued(rest) && Glues(part, rest)
  {
    assert ([part] + rest)[1..] == rest;
  }

  lemma {:induction false} LastGlued(fact: string, cta: string)
    requires Closed(cta) && (cta != "" ==> IsLetter(cta[0]))
    ensures Glued(FactParts([fact], cta))
  {
    hide Closed, Plain;
    CommaPlain();
    DotPlain();
    NothingClosed();
    ClosingGlued(".");
    if cta != "" {
      ClosingGlued(cta);
      GluedStep(Fixed(" "), [Closing(cta)]);
      GluedStep(Fixed(". "), [Closing(cta)]);
      assert PhraseParts(" ", cta) == [Fixed(" ")] + [Closing(cta)];
      assert PhraseParts(". ", cta) == [Fixed(". ")] + [Closing(cta)];
    }
    GluedStep(Asked(fact), PhraseParts(" ", cta));
    GluedStep(Taken(fact), PhraseParts(". ", cta));
    GluedStep(Taken(fact), [Closing(".")]);
  }

  lemma {:induction false} ClosingGlued(s: string)
    requires Closed(s)
    ensures Glued([Closing(s)])
  {
    hide Closed;
    assert [Closing(s)] == [Closing(s)] + [];
    GluedStep(Closing(s), []);
  }

  lemma {:induction false} SeparatorsPlain()
    ensures Plain("; ") && Plain("; and ")
  {}

  lemma {:induction false} FactsGlued(facts: seq<string>, cta: string)
    requires facts != [] && Closed(cta) && (cta != "" ==> IsLetter(cta[0]))
    ensures Glued(FactParts(facts, cta))
  {
    hide Closed, Plain, Terminal;
    if |facts| == 1 {
      assert facts == [facts[0]];
      LastGlued(facts[0], cta);
    } else {
      FactsGlued(facts[1..], cta);
      SeparatorsPlain();
      var rest := FactParts(facts[1..], cta);
      var sep := Fixed(if |facts| == 2 then "; and " else "; ");
      GluedStep(sep, rest);
      GluedStep(Taken(facts[0]), [sep] + rest);
      assert [Taken(facts[0]), sep] + rest == [Taken(facts[0])] + ([sep] + rest);
    }
  }

  lemma {:induction false} IntroGlued(brief: Brief, rest: seq<Part>)
    requires Glued(rest)
    ensures Glued(IntroParts(brief) + rest)
  {
    hide Plain, Closed, Glued, EndsIn;
    if MerchantIntro(brief) != "" {
      ThisIsPlain();
      DotPlain();
      var name := Taken(brief.merchantName);
      GluedStep(Fixed(". "), rest);
      GluedStep(name, [Fixed(". ")] + rest);
      GluedStep(Fixed("this is "), [name] + ([Fixed(". ")] + rest));
      assert IntroParts(brief) + rest == [Fixed("this is ")] + ([name] + ([Fixed(". ")] + rest));
    } else {
      assert [] + rest == rest;
    }
  }

  lemma {:induction false} PartsGlued(brief: Brief)
    ensures Glued(Parts(brief))
  {
    hide Plain, Closed, Glued, FactParts, IntroParts, Prefix, Subject, Opener, Shown, CtaText, PrefersHindi;
    var cta := CtaFallbackText(brief);
    CtaClosed(brief.cta, PrefersHindi(brief));
    CtaLetter(brief.cta, PrefersHindi(brief));
    var facts := FactParts(Shown(brief), cta);
    FactsGlued(Shown(brief), cta);
    OpenerPlain(brief);
    GluedStep(Fixed(Opener(brief)), facts);
    var rest := IntroParts(brief) + ([Fixed(Opener(brief))] + facts);
    IntroGlued(brief, [Fixed(Opener(brief))] + facts);
    CommaPlain();
    PrefixPlain(brief.replyIntent);
    GluedStep(Fixed(", "), rest);
    GluedStep(Addressee(Subject(brief)), [Fixed(", ")] + rest);
    GluedStep(Fixed(Prefix(brief.replyIntent)), [Addressee(Subject(brief))] + ([Fixed(", ")] + rest));
    assert Parts(brief) == [Fixed(Prefix(brief.replyIntent))] + ([Addressee(Subject(brief))] + ([Fixed(", ")] + rest));
  }

  /** The composed text reads as the parts the limit leaves. */
  lemma {:induction false} ComposeReads(brief: Brief)
    ensures Compose(brief) == Cut(FullText(brief), brief.maxChars)
    ensures Read(Compose(brief)) == CutReading(Parts(brief), brief.maxChars)
  {
    hide Read, Whole, Parts, FullText, CutReading, Glued;
    PartsWhole(brief);
    PartsGlued(brief);
    CutReads(Parts(brief), brief.maxChars);
  }
}
