/** Adding a digest summary to a fact list without ever having it cut
    (`_insert_summary_if_it_fits` and what becomes of the facts in the template). */
module Summary {
  import opened Text
  import opened Brief
  import opened Composer

  const SAFE_FACT_TEXT_BUDGET := 340

  /** What the natural join may add on top: `; and ` in place of the last `; `. */
  const NATURAL_ALLOWANCE := 4

  /** The stripped summary without one closing full stop; nothing if it is blank. */
  function Candidate(summary: Option<string>): Option<string> {
    if summary == None || Blank(summary.value) then None
    else
      var s := Strip(summary.value);
      Some(if s[|s| - 1] == '.' then s[..|s| - 1] else s)
  }

  predicate Fits(facts: seq<string>, candidate: Option<string>) {
    candidate.Some? && |Join("; ", facts + [candidate.value])| <= SAFE_FACT_TEXT_BUDGET
  }

  /** Python's `list.insert`: an index behind the end appends. */
  function InsertAt(facts: seq<string>, index: nat, fact: string): seq<string> {
    var k := if index <= |facts| then index else |facts|;
    facts[..k] + [fact] + facts[k..]
  }

  /** The two lists a generator builds up. */
  class FactSheet {
    var facts: seq<string>
    var evidence: seq<string>

    constructor (facts: seq<string>, evidence: seq<string>)
      ensures this.facts == facts && this.evidence == evidence
    {
      this.facts := facts;
      this.evidence := evidence;
    }

    method InsertSummaryIfItFits(summary: Option<string>, index: nat)
      modifies this
      ensures var c := Candidate(summary);
        if Fits(old(facts), c) then
          facts == InsertAt(old(facts), index, c.value) && evidence == old(evidence) + ["category.digest.summary"]
        else facts == old(facts) && evidence == old(evidence)
    {
      if summary == None || Blank(summary.value) { return; }
      var s := Strip(summary.value);
      var candidate := if s[|s| - 1] == '.' then s[..|s| - 1] else s;
      var projected := Join("; ", facts + [candidate]);
      if |projected| <= SAFE_FACT_TEXT_BUDGET {
        facts := InsertAt(facts, index, candidate);
        evidence := evidence + ["category.digest.summary"];
      }
    }
  }

  /** The summary's words, separated from each other and from nothing else. */
  function TotalLength(facts: seq<string>): nat {
    if facts == [] then 0 else |facts[0]| + TotalLength(facts[1..])
  }

  lemma {:induction false} JoinLength(sep: string, facts: seq<string>)
    ensures facts != [] ==> |Join(sep, facts)| == TotalLength(facts) + |sep| * (|facts| - 1)
    ensures facts == [] ==> |Join(sep, facts)| == 0
  {
    if |facts| == 1 {
      assert TotalLength(facts[1..]) == 0;
    } else if |facts| > 1 {
      JoinLength(sep, facts[1..]);
    }
  }

  lemma {:induction false} TotalLengthConcat(a: seq<string>, b: seq<string>)
    ensures TotalLength(a + b) == TotalLength(a) + TotalLength(b)
  {
    if a == [] {
      assert a + b == b;
    } else {
      assert (a + b)[1..] == a[1..] + b;
      TotalLengthConcat(a[1..], b);
    }
  }

  /** Where a fact goes does not change the length of the joined list. */
  lemma {:induction false} InsertLength(facts: seq<string>, index: nat, fact: string)
    ensures |Join("; ", InsertAt(facts, index, fact))| == |Join("; ", facts + [fact])|
  {
    var k := if index <= |facts| then index else |facts|;
    TotalLengthConcat(facts[..k], [fact]);
    TotalLengthConcat(facts[..k] + [fact], facts[k..]);
    TotalLengthConcat(facts[..k], facts[k..]);
    TotalLengthConcat(facts, [fact]);
    assert facts[..k] + facts[k..] == facts;
    JoinLength("; ", InsertAt(facts, index, fact));
    JoinLength("; ", facts + [fact]);
  }

  lemma {:induction false} NaturalLength(facts: seq<string>)
    ensures |JoinFactsNaturally(facts)| <= |Join("; ", facts)| + NATURAL_ALLOWANCE
  {
    if |facts| >= 2 {
      var n := |facts| - 1;
      JoinLength("; ", facts);
      JoinLength("; ", facts[..n]);
      TotalLengthConcat(facts[..n], [facts[n]]);
      assert facts[..n] + [facts[n]] == facts;
    }
  }

  lemma {:induction false} KeptLength(fact: string, rest: seq<string>)
    ensures var kept := (if fact != "" then [fact] else []) + rest;
      TotalLength(kept) == |fact| + TotalLength(rest) && |kept| <= 1 + |rest|
  {
    if fact != "" {
      assert ([fact] + rest)[1..] == rest;
    } else {
      assert [] + rest == rest;
    }
  }

  lemma {:induction false} SanitizedShorter(facts: seq<string>)
    ensures TotalLength(SanitizeFacts(facts)) <= TotalLength(facts) && |SanitizeFacts(facts)| <= |facts|
  {
    hide SanitizeFact;
    if facts != [] {
      SanitizedShorter(facts[1..]);
      KeptLength(SanitizeFact(facts[0]), SanitizeFacts(facts[1..]));
    }
  }

  /** A joined list within the budget stays within the budget and the allowance when it is
      sanitized and joined naturally. */
  lemma {:induction false} SanitizedJoinFits(facts: seq<string>)
    ensures |JoinFactsNaturally(SanitizeFacts(facts))| <= |Join("; ", facts)| + NATURAL_ALLOWANCE
  {
    var kept := SanitizeFacts(facts);
    NaturalLength(kept);
    SanitizedShorter(facts);
    JoinLength("; ", facts);
    JoinLength("; ", kept);
  }

  /** Everything in front of the facts. */
  function Head(brief: Brief): string {
    Prefix(brief.replyIntent) + Subject(brief) + ", " + MerchantIntro(brief) + Opener(brief)
  }

  lemma {:induction false} FactTextPlace(head: string, facts: string, tail: string, end: string, max: nat)
    requires |head| + |facts| <= max
    ensures var text := head + facts + tail + end; var cut := if |text| <= max then text else text[..max];
      |head| + |facts| <= |cut| && cut[|head|..|head| + |facts|] == facts
  {
    var text := head + facts + tail + end;
    assert text[|head|..|head| + |facts|] == facts;
  }

  lemma {:induction false} ComposedOf(brief: Brief) returns (end: string)
    ensures FullText(brief) == Head(brief) + FactText(brief) + Terminal(FactText(brief)) + end
  {
    var cta := CtaFallbackText(brief);
    end := if cta != "" then " " + cta else "";
  }

  /** The cut keeps a fact text that starts early enough. */
  lemma {:induction false} FactTextKept(brief: Brief)
    requires |Head(brief)| + |FactText(brief)| <= brief.maxChars
    ensures var h := |Head(brief)|; var n := |FactText(brief)|;
      h + n <= |Compose(brief)| && Compose(brief)[h..h + n] == FactText(brief)
  {
    hide Head, FactText, FullText, Terminal;
    var end := ComposedOf(brief);
    FactTextPlace(Head(brief), FactText(brief), Terminal(FactText(brief)), end, brief.maxChars);
  }

  /** A summary that was inserted is never cut: wherever it went, the fact list it is part of
      keeps within its budget, and the template's message holds the whole fact text as long as
      the words in front of it leave room. */
  lemma {:induction false} SummaryNeverCut(facts: seq<string>, summary: Option<string>, index: nat, brief: Brief)
    requires Fits(facts, Candidate(summary)) && brief.facts == InsertAt(facts, index, Candidate(summary).value)
    requires JoinFactsNaturally(SanitizeFacts(brief.facts)) != ""
    requires |Head(brief)| + SAFE_FACT_TEXT_BUDGET + NATURAL_ALLOWANCE <= brief.maxChars
    ensures |Join("; ", brief.facts)| <= SAFE_FACT_TEXT_BUDGET
    ensures |FactText(brief)| <= SAFE_FACT_TEXT_BUDGET + NATURAL_ALLOWANCE
    ensures var h := |Head(brief)|; var n := |FactText(brief)|;
      h + n <= |Compose(brief)| && Compose(brief)[h..h + n] == JoinFactsNaturally(SanitizeFacts(brief.facts))
  {
    InsertLength(facts, index, Candidate(summary).value);
    SanitizedJoinFits(brief.facts);
    FactTextKept(brief);
  }
}
