/** Which figures a fact puts among the allowed ones when an untrusted field is part of it. */
module FactFigures {
  import opened Text
  import opened Scan
  import opened Cuts
  import opened Firewall
  import opened Readings
  import opened ClaimStripping

  /** Fixed wording: no digit and no rupee sign. */
  predicate Wording(s: string) { forall c | c in s :: !IsDigit(c) && c != '₹' }

  predicate Figure(n: string) { n != "" && forall c | c in n :: IsDigit(c) }

  lemma {:induction false} FindsNone(p: Pattern, afterWord: bool, s: string)
    requires NumberPattern(p) && !Has(p, afterWord, s)
    ensures FindAll(p, afterWord, s) == []
    decreases |s|
  {
    hide MatchAt;
    if s != "" { FindsNone(p, IsWord(s[0]), s[1..]); }
  }

  /** An untrusted field that one pass cleans adds no figure, whatever wording stands in front of
      it and whatever wording or figures follow behind a space. */
  lemma {:induction false} FieldAddsNothing(p: Pattern, lead: string, field: string, behind: string)
    requires NumberPattern(p) && Wording(lead) && (behind == "" || SpaceLed(behind))
    requires ClaimFree(StripNumericClaims(field))
    ensures Claims(p, lead + (StripNumericClaims(field) + behind)) == Claims(p, behind)
  {
    hide Has, FindAll, StripNumericClaims;
    var clean := StripNumericClaims(field);
    ClaimsSplit(p, lead, clean + behind);
    InertFinds(p, false, lead);
    ClaimsSplit(p, clean, behind);
    FindsNone(p, false, clean);
  }

  lemma {:induction false} DigitRun(n: string, rest: string)
    requires Figure(n) && rest != "" && !IsDigit(rest[0])
    ensures Run(Digit, n + rest) == |n|
  {
    AllDigit(n);
    RunConcat(Digit, n, rest);
  }

  lemma {:induction false} AllDigit(n: string)
    requires forall c | c in n :: IsDigit(c)
    ensures Run(Digit, n) == |n|
  {
    if n != "" {
      assert n[0] in n;
      forall c | c in n[1..] ensures c in n {}
      AllDigit(n[1..]);
    }
  }

  lemma {:induction false} FigureMatch(n: string, rest: string)
    requires Figure(n)
    ensures MatchAt(Percent, false, n + ("%" + rest)) == Some(Match(|n| + 1, n, ""))
  {
    var s := n + ("%" + rest);
    DigitRun(n, "%" + rest);
    DropConcat(n, "%" + rest, |n|);
    assert s[|n|..] == "%" + rest && s[..|n|] == n;
    assert Fraction("%" + rest) == 0;
    assert Run(Space, "%" + rest) == 0;
  }

  lemma {:induction false} FigureFound(n: string, rest: string)
    requires Figure(n) && Wording(rest)
    ensures Claims(Percent, n + ("%" + rest)) == {n}
  {
    hide MatchAt;
    var s := n + ("%" + rest);
    FigureMatch(n, rest);
    FindAllStep(Percent, false, s);
    assert s[|n| + 1..] == rest;
    InertFinds(Percent, EndsInWord(false, s[..|n| + 1]), rest);
  }

  /** ` down N% this week`: the figure and nothing else. */
  lemma {:induction false} ChangeClaims(lead: string, n: string, rest: string)
    requires Wording(lead) && Figure(n) && Wording(rest)
    ensures Claims(Percent, lead + (n + ("%" + rest))) == {n}
    ensures Claims(Currency, lead + (n + ("%" + rest))) == {}
  {
    hide Has, FindAll;
    var s := n + ("%" + rest);
    ClaimsSplit(Percent, lead, s);
    InertFinds(Percent, false, lead);
    FigureFound(n, rest);
    forall c | c in lead + s ensures c != '₹' { if c in n { assert IsDigit(c); } }
    NoPriceSign(lead + s);
    FindsNone(Currency, false, lead + s);
  }

  /** A performance fact states the change the system computed, and no other figure: what the
      untrusted metric claims does not become allowed. */
  lemma {:induction false} ChangeFact(metric: string, down: bool, n: string)
    requires ClaimFree(StripNumericClaims(metric)) && Figure(n)
    ensures var fact := StripNumericClaims(metric) + ((if down then " down " else " up ") + (n + ("%" + " this week")));
      FactClaims(Percent, [fact]) == {n} && FactClaims(Currency, [fact]) == {}
  {
    hide Has, FindAll, StripNumericClaims, ClaimFree, Claims;
    var lead := if down then " down " else " up ";
    var behind := lead + (n + ("%" + " this week"));
    var fact := StripNumericClaims(metric) + behind;
    ChangeWording();
    ChangeClaims(lead, n, " this week");
    assert "" + fact == fact;
    FieldAddsNothing(Percent, "", metric, behind);
    FieldAddsNothing(Currency, "", metric, behind);
    OneFactClaims(Percent, fact);
    OneFactClaims(Currency, fact);
  }

  lemma {:induction false} ChangeWording()
    ensures Wording(" down ") && Wording(" up ") && Wording(" this week")
  {}

  lemma {:induction false} OneFactClaims(p: Pattern, fact: string)
    ensures FactClaims(p, [fact]) == Claims(p, fact)
  {
    assert [fact][1..] == [];
  }

  /** In particular for a metric with at most one percent or rupee sign. */
  lemma {:induction false} OneSignChangeFact(metric: string, down: bool, n: string)
    requires Signs(metric) <= 1 && Figure(n)
    ensures var fact := StripNumericClaims(metric) + ((if down then " down " else " up ") + (n + ("%" + " this week")));
      FactClaims(Percent, [fact]) == {n} && FactClaims(Currency, [fact]) == {}
  {
    OnePassSuffices(metric);
    ChangeFact(metric, down, n);
  }
}
