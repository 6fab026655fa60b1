/** The regular expressions of the message code, as scanners.

    Every pattern used by the source matches in at most one way from a given start
    once its greedy runs are fixed, so a match is computed left to right from run
    lengths. `FindAll`, `Has` and `Sub` are Python's `findall`/`finditer`, `search`
    and `sub("", …)`. A start position is described by the text that follows it and
    by whether the preceding character is a word character (for `\b`). */
module Scan {
  import opened Text

  datatype Class = Space | NonSpace | Digit | DigitComma | Alnum | Word | Label

  predicate In(c: char, k: Class) {
    match k
    case Space => IsSpace(c)
    case NonSpace => !IsSpace(c)
    case Digit => IsDigit(c)
    case DigitComma => IsDigit(c) || c == ','
    case Alnum => IsAlnum(c)
    case Word => IsWord(c)
    case Label => IsAlnum(c) || c == '-'
  }

  /** Length of the longest prefix of `s` inside class `k`. */
  function Run(k: Class, s: string): (n: nat)
    ensures n <= |s|
  {
    if s != "" && In(s[0], k) then 1 + Run(k, s[1..]) else 0
  }

  /** What the number returned by `Run` means. */
  lemma {:induction false} RunIs(k: Class, s: string)
    ensures forall i | 0 <= i < Run(k, s) :: In(s[i], k)
    ensures Run(k, s) < |s| ==> !In(s[Run(k, s)], k)
  {
    if s != "" && In(s[0], k) { RunIs(k, s[1..]); }
  }

  /** Does `s` start with `word`, ignoring case? `word` is given in lower case. */
  predicate Starts(s: string, word: string) {
    |word| <= |s| && forall i | 0 <= i < |word| :: LowerChar(s[i]) == word[i]
  }

  /** The length of the leading word when it is one of `words`, otherwise 0. */
  function Keyword(s: string, words: set<string>): (n: nat)
    ensures n <= |s|
  {
    var n := Run(Word, s);
    if Lower(s[..n]) in words then n else 0
  }

  datatype Pattern =
    | Percent          // (\d+(?:\.\d+)?)\s*%
    | Currency         // ₹\s*(\d[\d,]*(?:\.\d+)?)
    | ReplyClause      // \breply\s+([A-Za-z0-9]+)((?:\s+or\s+[A-Za-z0-9]+)*)
    | OrWord           // \bor\s+([A-Za-z0-9]+)
    | Url              // scheme or www. token, or bare domain with a known ending
    | Placeholder      // {{ }} [name] [merchant
    | FieldAssignment  // \b(send|cta|…)\s*[:=]\s*\S+
    | Injection        // \b(ignore|disregard)\s+(the\s+)?(previous|…)\s+instructions?\b

  /** A match: its length, its first captured group and, for a reply clause, its second. */
  datatype Match = Match(len: nat, word: string, chain: string)

  /** Part of a match: how much text it takes, and the captured word. Length 0: no match. */
  datatype Token = Token(len: nat, text: string)

  /** The alternatives a pattern lists: top-level domains, protected fields. */
  function Vocabulary(p: Pattern): set<string> {
    match p
    case Url =>
      {"com", "in", "co", "io", "ly", "link", "app", "net", "org", "shop", "store", "xyz", "info", "biz"}
    case FieldAssignment =>
      {"send", "action_type", "cta", "send_as", "suppression_key", "merchant_id", "customer_id", "trigger_id"}
    case _ => {}
  }

  /** `(?:\.\d+)?` */
  function Fraction(s: string): (n: nat)
    ensures n <= |s|
  {
    if |s| >= 2 && s[0] == '.' && IsDigit(s[1]) then 1 + Run(Digit, s[1..]) else 0
  }

  /** `\d+(?:\.\d+)?` */
  function Decimal(s: string): (n: nat)
    ensures n <= |s|
  {
    var d := Run(Digit, s);
    if d == 0 then 0 else d + Fraction(s[d..])
  }

  /** `\s*%` */
  function PercentSign(s: string): (n: nat)
    ensures n <= |s|
  {
    var w := Run(Space, s);
    if w < |s| && s[w] == '%' then w + 1 else 0
  }

  function PercentAt(s: string): (m: Option<Match>)
    ensures m.Some? ==> 1 <= m.value.len <= |s|
  {
    var d := Decimal(s);
    var w := PercentSign(s[d..]);
    if d > 0 && w > 0 then Some(Match(d + w, s[..d], "")) else None
  }

  /** `\d[\d,]*(?:\.\d+)?` */
  function Amount(s: string): (n: nat)
    ensures n <= |s|
  {
    if s == "" || !IsDigit(s[0]) then 0
    else
      var d := Run(DigitComma, s);
      d + Fraction(s[d..])
  }

  /** `\s*(\d[\d,]*(?:\.\d+)?)` */
  function Price(s: string): (t: Token)
    ensures t.len <= |s|
  {
    var w := Run(Space, s);
    var n := Amount(s[w..]);
    if n > 0 then Token(w + n, s[w..][..n]) else Token(0, "")
  }

  function CurrencyAt(s: string): (m: Option<Match>)
    ensures m.Some? ==> 1 <= m.value.len <= |s|
  {
    if s == "" || s[0] != '₹' then None
    else
      var t := Price(s[1..]);
      if t.len > 0 then Some(Match(1 + t.len, t.text, "")) else None
  }

  /** `\s+([A-Za-z0-9]+)` */
  function SpacedWord(s: string): (t: Token)
    ensures t.len <= |s|
    ensures t.len > 0 ==> 2 <= t.len
  {
    var w := Run(Space, s);
    var n := Run(Alnum, s[w..]);
    if w > 0 && n > 0 then Token(w + n, s[w..][..n]) else Token(0, "")
  }

  /** `or\s+([A-Za-z0-9]+)` or `reply\s+([A-Za-z0-9]+)` */
  function AfterWord(s: string, word: string): (t: Token)
    ensures t.len <= |s|
    ensures t.len > 0 ==> |word| + 2 <= t.len
  {
    if !Starts(s, word) then Token(0, "")
    else
      var t := SpacedWord(s[|word|..]);
      if t.len > 0 then Token(|word| + t.len, t.text) else t
  }

  /** One `\s+or\s+([A-Za-z0-9]+)` */
  function OrStep(s: string): (t: Token)
    ensures t.len <= |s|
  {
    var w := Run(Space, s);
    var t := AfterWord(s[w..], "or");
    if w > 0 && t.len > 0 then Token(w + t.len, t.text) else Token(0, "")
  }

  /** `(?:\s+or\s+[A-Za-z0-9]+)*` */
  function OrChain(s: string): (n: nat)
    ensures n <= |s|
    decreases |s|
  {
    var t := OrStep(s);
    if t.len == 0 then 0 else t.len + OrChain(s[t.len..])
  }

  /** The chain and its text. */
  function OrTail(s: string): (t: Token)
    ensures t.len <= |s|
  {
    Token(OrChain(s), s[..OrChain(s)])
  }

  function WithChain(t: Token, c: Token): Match { Match(t.len + c.len, t.text, c.text) }

  function ReplyAt(s: string): (m: Option<Match>)
    ensures m.Some? ==> 1 <= m.value.len <= |s|
  {
    var t := AfterWord(s, "reply");
    if t.len == 0 then None
    else
      Some(WithChain(t, OrTail(s[t.len..])))
  }

  function OrWordAt(s: string): (m: Option<Match>)
    ensures m.Some? ==> 1 <= m.value.len <= |s|
  {
    var t := AfterWord(s, "or");
    if t.len > 0 then Some(Match(t.len, t.text, "")) else None
  }

  /** `https?://|www\.` */
  function Scheme(s: string): (n: nat)
    ensures n <= |s|
  {
    if Starts(s, "https://") then 8 else if Starts(s, "http://") then 7 else if Starts(s, "www.") then 4 else 0
  }

  /** The last word boundary of `s` at or before `k`, 0 if there is none. */
  function LastBoundary(s: string, k: nat): (n: nat)
    requires k <= |s|
    ensures n <= k
  {
    if k == 0 then 0
    else if IsWord(s[k - 1]) != (k < |s| && IsWord(s[k])) then k
    else LastBoundary(s, k - 1)
  }

  /** `(?:https?://|www\.)\S+`, 0 if absent */
  function SchemeUrl(s: string): (n: nat)
    ensures n <= |s|
  {
    var k := Scheme(s);
    if 0 < k < |s| && !IsSpace(s[k]) then k + Run(NonSpace, s[k..]) else 0
  }

  /** A domain label, a dot and a known ending that no further word character extends, 0 if absent */
  function Host(s: string): (n: nat)
    ensures n <= |s|
  {
    var n := Run(Label, s);
    if n == 0 || n == |s| || !IsAlnum(s[0]) || !IsAlnum(s[n - 1]) || s[n] != '.' then 0
    else
      var t := Keyword(s[n + 1..], Vocabulary(Url));
      if t == 0 then 0 else n + 1 + t
  }

  /** `(?:/\S*)?\b` */
  function Path(s: string): (n: nat)
    ensures n <= |s|
  {
    if s != "" && s[0] == '/' then LastBoundary(s, Run(NonSpace, s)) else 0
  }

  function UrlAt(afterWord: bool, s: string): (m: Option<Match>)
    ensures m.Some? ==> 1 <= m.value.len <= |s|
  {
    if SchemeUrl(s) > 0 then Some(Match(SchemeUrl(s), "", ""))
    else if afterWord || Host(s) == 0 then None
    else Some(Match(Host(s) + Path(s[Host(s)..]), "", ""))
  }

  function PlaceholderAt(s: string): (m: Option<Match>)
    ensures m.Some? ==> 1 <= m.value.len <= |s|
  {
    if Starts(s, "{{") || Starts(s, "}}") then Some(Match(2, "", ""))
    else if Starts(s, "[name]") then Some(Match(6, "", ""))
    else if Starts(s, "[merchant") then Some(Match(9, "", ""))
    else None
  }

  function FieldAssignmentAt(s: string): (m: Option<Match>)
    ensures m.Some? ==> 1 <= m.value.len <= |s|
  {
    var n := Keyword(s, Vocabulary(FieldAssignment));
    var w := n + Run(Space, s[n..]);
    if n == 0 || w == |s| || (s[w] != ':' && s[w] != '=') then None
    else
      var x := w + 1 + Run(Space, s[w + 1..]);
      var v := Run(NonSpace, s[x..]);
      if v == 0 then None else Some(Match(x + v, "", ""))
  }

  /** Skips a keyword of `words` and the white space that must follow it; 0 if absent. */
  function SkipWord(s: string, words: set<string>): (n: nat)
    ensures n <= |s|
  {
    var k := Keyword(s, words);
    var w := Run(Space, s[k..]);
    if k > 0 && w > 0 then k + w else 0
  }

  function InjectionAt(s: string): (m: Option<Match>)
    ensures m.Some? ==> 1 <= m.value.len <= |s|
  {
    var a := SkipWord(s, {"ignore", "disregard"});
    var b := a + SkipWord(s[a..], {"the"});
    var c := SkipWord(s[b..], {"previous", "prior", "above", "earlier"});
    var d := Keyword(s[b + c..], {"instruction", "instructions"});
    if a > 0 && c > 0 && d > 0 then Some(Match(b + c + d, "", "")) else None
  }

  /** The match of `p` that starts at the first character of `s`, if there is one. */
  function MatchAt(p: Pattern, afterWord: bool, s: string): (m: Option<Match>)
    ensures m.Some? ==> 1 <= m.value.len <= |s|
  {
    match p
    case Percent => PercentAt(s)
    case Currency => CurrencyAt(s)
    case ReplyClause => if afterWord then None else ReplyAt(s)
    case OrWord => if afterWord then None else OrWordAt(s)
    case Url => UrlAt(afterWord, s)
    case Placeholder => PlaceholderAt(s)
    case FieldAssignment => if afterWord then None else FieldAssignmentAt(s)
    case Injection => if afterWord then None else InjectionAt(s)
  }

  /** Is the character before the end of `s` a word character? */
  predicate EndsInWord(afterWord: bool, s: string) {
    if s == "" then afterWord else IsWord(s[|s| - 1])
  }

  /** All matches, left to right and not overlapping. */
  function FindAll(p: Pattern, afterWord: bool, s: string): (ms: seq<Match>)
    decreases |s|
  {
    if s == "" then []
    else
      match MatchAt(p, afterWord, s)
      case Some(m) => [m] + FindAll(p, EndsInWord(afterWord, s[..m.len]), s[m.len..])
      case None => FindAll(p, IsWord(s[0]), s[1..])
  }

  /** Does `p` match anywhere in `s`? */
  predicate Has(p: Pattern, afterWord: bool, s: string)
    decreases |s|
  {
    s != "" && (MatchAt(p, afterWord, s).Some? || Has(p, IsWord(s[0]), s[1..]))
  }

  /** `s` with every match of `p` removed. */
  function Sub(p: Pattern, afterWord: bool, s: string): (r: string)
    ensures |r| <= |s|
    decreases |s|
  {
    if s == "" then ""
    else
      match MatchAt(p, afterWord, s)
      case Some(m) => Sub(p, EndsInWord(afterWord, s[..m.len]), s[m.len..])
      case None => [s[0]] + Sub(p, IsWord(s[0]), s[1..])
  }

  /** `\s{2,}` replaced by one space. */
  function Collapse(s: string): (r: string)
    ensures |r| <= |s|
    decreases |s|
  {
    if s == "" then ""
    else
      var w := Run(Space, s);
      if w >= 2 then " " + Collapse(s[w..]) else [s[0]] + Collapse(s[1..])
  }

  predicate IsTrim(c: char) { c == ' ' || c == ',' || c == '-' }

  function TrimLeft(s: string): (r: string)
    ensures |r| <= |s| && r == s[|s| - |r|..]
  {
    if s != "" && IsTrim(s[0]) then TrimLeft(s[1..]) else s
  }

  function TrimRight(s: string): (r: string)
    ensures |r| <= |s| && r == s[..|r|]
  {
    if s != "" && IsTrim(s[|s| - 1]) then TrimRight(s[..|s| - 1]) else s
  }

  /** `strip(" ,-")` */
  function Trim(s: string): (r: string)
    ensures |r| <= |s|
  {
    TrimRight(TrimLeft(s))
  }
}
