/**
 * The rule-based prompt parser: the fallback that turns a free-text sustainability prompt
 * into an intervention (borough, sector, reduction percentage, description) without a
 * language model. Matching is on the lower-cased prompt, first match wins.
 */
module PromptRules {
  import opened Common

  /** The borough names, in the order the parser tries them */
  const Boroughs: seq<string> := ["Manhattan", "Brooklyn", "Queens", "Bronx", "Staten Island"]

  /** The sectors an intervention may name ("all" is accepted, but the rules never pick it) */
  const Sectors: seq<string> := ["transport", "buildings", "industry", "energy", "all"]

  /** Each sector's keywords, in the order the parser tries the sectors */
  const SectorKeywords: seq<(string, seq<string>)> := [
    ("transport", ["taxi", "cab", "bus", "car", "vehicle", "ev", "traffic", "transport"]),
    ("buildings", ["building", "solar", "panel", "heating", "cooling", "hvac", "insulation"]),
    ("industry", ["industry", "industrial", "factory", "manufacturing"]),
    ("energy", ["energy", "power", "electricity", "grid"])
  ]

  /** Defaults and the cap */
  const DefaultBorough: string := "citywide"
  const DefaultSector: string := "transport"
  const DefaultPercent: real := 20.0
  const PercentCap: real := 60.0

  /** The parsed intervention: exactly the four keys the parser fills in */
  datatype RuleIntervention = RuleIntervention(
    borough: string, sector: string, reductionPercent: real, description: string)

  // ---------------------------------------------------------------------------
  // Borough and sector: first match in list order

  /** Index of the first borough, from `k` on, whose lower-cased name occurs in `s` */
  function FirstBoroughFrom(s: string, k: nat): (r: Option<nat>)
    requires k <= |Boroughs|
    ensures r.Some? ==> (k <= r.value < |Boroughs| && Contains(s, Lower(Boroughs[r.value])) &&
      forall m :: k <= m < r.value ==> !Contains(s, Lower(Boroughs[m])))
    ensures r.None? ==> forall m :: k <= m < |Boroughs| ==> !Contains(s, Lower(Boroughs[m]))
    decreases |Boroughs| - k
  {
    if k == |Boroughs| then None
    else if Contains(s, Lower(Boroughs[k])) then Some(k)
    else FirstBoroughFrom(s, k + 1)
  }

  /** The borough the rules pick from the lower-cased prompt */
  function BoroughRule(lower: string): string {
    match FirstBoroughFrom(lower, 0)
    case Some(k) => Boroughs[k]
    case None => DefaultBorough
  }

  /**
   * The borough is the first name in list order that occurs in the prompt (case-insensitively),
   * and "citywide" exactly when none does.
   */
  lemma BoroughRuleFirstMatch(lower: string)
    ensures BoroughRule(lower) == DefaultBorough <==>
      forall m :: 0 <= m < |Boroughs| ==> !Contains(lower, Lower(Boroughs[m]))
    ensures forall k :: 0 <= k < |Boroughs| && BoroughRule(lower) == Boroughs[k] ==>
      Contains(lower, Lower(Boroughs[k])) && forall m :: 0 <= m < k ==> !Contains(lower, Lower(Boroughs[m]))
  {
    var r := FirstBoroughFrom(lower, 0);
    assert forall m :: 0 <= m < |Boroughs| ==> Boroughs[m] != DefaultBorough;
    forall k | 0 <= k < |Boroughs| && BoroughRule(lower) == Boroughs[k]
      ensures Contains(lower, Lower(Boroughs[k])) && forall m :: 0 <= m < k ==> !Contains(lower, Lower(Boroughs[m]))
    {
      assert r.Some?;
      assert forall a, b :: 0 <= a < b < |Boroughs| ==> Boroughs[a] != Boroughs[b];
      assert r.value == k;
    }
  }

  /** Python's `any(keyword in s for keyword in keywords)` */
  function AnyKeyword(s: string, keywords: seq<string>): (r: bool)
    ensures r <==> exists k :: 0 <= k < |keywords| && Contains(s, keywords[k])
  {
    if |keywords| == 0 then false
    else Contains(s, keywords[0]) || AnyKeyword(s, keywords[1..])
  }

  /** Index of the first sector, from `k` on, one of whose keywords occurs in `s` */
  function FirstSectorFrom(s: string, k: nat): (r: Option<nat>)
    requires k <= |SectorKeywords|
    ensures r.Some? ==> (k <= r.value < |SectorKeywords| && AnyKeyword(s, SectorKeywords[r.value].1) &&
      forall m :: k <= m < r.value ==> !AnyKeyword(s, SectorKeywords[m].1))
    ensures r.None? ==> forall m :: k <= m < |SectorKeywords| ==> !AnyKeyword(s, SectorKeywords[m].1)
    decreases |SectorKeywords| - k
  {
    if k == |SectorKeywords| then None
    else if AnyKeyword(s, SectorKeywords[k].1) then Some(k)
    else FirstSectorFrom(s, k + 1)
  }

  /** The sector the rules pick from the lower-cased prompt */
  function SectorRule(lower: string): string {
    match FirstSectorFrom(lower, 0)
    case Some(k) => SectorKeywords[k].0
    case None => DefaultSector
  }

  /**
   * The sector is one of the four keyword sectors (never "all"); it is "transport" when no
   * keyword occurs, and otherwise the first sector in table order with a keyword in the prompt.
   */
  lemma SectorRuleFirstMatch(lower: string)
    ensures SectorRule(lower) in Sectors && SectorRule(lower) != "all"
    ensures (forall m :: 0 <= m < |SectorKeywords| ==> !AnyKeyword(lower, SectorKeywords[m].1)) ==>
      SectorRule(lower) == DefaultSector
    ensures forall k :: 0 <= k < |SectorKeywords| && SectorRule(lower) == SectorKeywords[k].0 ==>
      (AnyKeyword(lower, SectorKeywords[k].1) ||
       forall m :: 0 <= m < |SectorKeywords| ==> !AnyKeyword(lower, SectorKeywords[m].1)) &&
      forall m :: 0 <= m < k ==> !AnyKeyword(lower, SectorKeywords[m].1)
  {
    var r := FirstSectorFrom(lower, 0);
    forall k | 0 <= k < |SectorKeywords| && SectorRule(lower) == SectorKeywords[k].0
      ensures (AnyKeyword(lower, SectorKeywords[k].1) ||
               forall m :: 0 <= m < |SectorKeywords| ==> !AnyKeyword(lower, SectorKeywords[m].1)) &&
        forall m :: 0 <= m < k ==> !AnyKeyword(lower, SectorKeywords[m].1)
    {
      assert forall a, b :: 0 <= a < b < |SectorKeywords| ==> SectorKeywords[a].0 != SectorKeywords[b].0;
      if r.Some? {
        assert r.value == k;
      } else {
        assert k == 0;
      }
    }
  }

  // ---------------------------------------------------------------------------
  // The pattern `(\d+)\s*%`, searched for in the prompt as typed

  predicate IsDigit(c: char) { '0' <= c <= '9' }

  /** `\s` on ASCII: space, tab, newline, vertical tab, form feed, carriage return and 0x1C-0x1F */
  predicate IsSpace(c: char) { c == ' ' || '\t' <= c <= '\r' || '\U{1c}' <= c <= '\U{1f}' }

  /** Length of the run of digits starting at `p` */
  function DigitRun(s: string, p: nat): (n: nat)
    requires p <= |s|
    ensures p + n <= |s|
    ensures forall k :: p <= k < p + n ==> IsDigit(s[k])
    ensures p + n < |s| ==> !IsDigit(s[p + n])
    decreases |s| - p
  {
    if p < |s| && IsDigit(s[p]) then 1 + DigitRun(s, p + 1) else 0
  }

  /** Length of the run of whitespace starting at `p` */
  function SpaceRun(s: string, p: nat): (n: nat)
    requires p <= |s|
    ensures p + n <= |s|
    ensures forall k :: p <= k < p + n ==> IsSpace(s[k])
    ensures p + n < |s| ==> !IsSpace(s[p + n])
    decreases |s| - p
  {
    if p < |s| && IsSpace(s[p]) then 1 + SpaceRun(s, p + 1) else 0
  }

  /**
   * The pattern matches at `p`. Greedy `\d+` and `\s*` never need to give characters back:
   * a shorter digit run leaves a digit, and a shorter space run leaves a space, where `%`
   * or more whitespace is needed.
   */
  predicate MatchesAt(s: string, p: nat) {
    p < |s| && IsDigit(s[p]) &&
    var d := DigitRun(s, p);
    var w := SpaceRun(s, p + d);
    p + d + w < |s| && s[p + d + w] == '%'
  }

  /** `re.search`: the leftmost position, from `p` on, where the pattern matches */
  function SearchPercent(s: string, p: nat): (r: Option<nat>)
    ensures r.Some? ==> (p <= r.value && MatchesAt(s, r.value) &&
      forall k: nat :: p <= k < r.value ==> !MatchesAt(s, k))
    ensures r.None? ==> forall k: nat :: p <= k ==> !MatchesAt(s, k)
    decreases |s| - p
  {
    if p >= |s| then None
    else if MatchesAt(s, p) then Some(p)
    else SearchPercent(s, p + 1)
  }

  function DigitValue(c: char): (v: nat)
    requires IsDigit(c)
    ensures v < 10
  {
    c as int - '0' as int
  }

  /** `int()` of a run of decimal digits */
  function DigitsValue(ds: string): (n: nat)
    requires forall k :: 0 <= k < |ds| ==> IsDigit(ds[k])
    decreases |ds|
  {
    if |ds| == 0 then 0
    else 10 * DigitsValue(ds[..|ds| - 1]) + DigitValue(ds[|ds| - 1])
  }

  /** The decimal spelling of `n`, the inverse of `DigitsValue` */
  function Decimal(n: nat): (ds: string)
    ensures |ds| >= 1 && forall k :: 0 <= k < |ds| ==> IsDigit(ds[k])
  {
    (if n < 10 then "" else Decimal(n / 10)) + [('0' as int + n % 10) as char]
  }

  /** Appending a digit multiplies the value by ten and adds the digit. */
  lemma DigitsValueSnoc(ds: string, c: char)
    requires forall k :: 0 <= k < |ds| ==> IsDigit(ds[k])
    requires IsDigit(c)
    ensures DigitsValue(ds + [c]) == 10 * DigitsValue(ds) + DigitValue(c)
  {
    assert (ds + [c])[..|ds|] == ds;
  }

  /** Reading back a number's decimal spelling gives the number. */
  lemma {:induction false} DigitsValueDecimal(n: nat)
    ensures DigitsValue(Decimal(n)) == n
  {
    var init := if n < 10 then "" else Decimal(n / 10);
    var last := ('0' as int + n % 10) as char;
    assert Decimal(n) == init + [last];
    assert DigitValue(last) == n % 10;
    DigitsValueSnoc(init, last);
    if n >= 10 {
      DigitsValueDecimal(n / 10);
    }
  }

  /** The number the group `(\d+)` captures when the digit run starts at `p` */
  function Captured(s: string, p: nat): nat
    requires p <= |s|
  {
    DigitsValue(s[p..p + DigitRun(s, p)])
  }

  /** The number captured by the leftmost match, if there is one */
  function ExplicitPercent(prompt: string): (r: Option<nat>)
    ensures r.Some? <==> exists p: nat :: MatchesAt(prompt, p)
  {
    match SearchPercent(prompt, 0)
    case Some(p) =>
      Some(Captured(prompt, p))
    case None => None
  }

  /** The percentage when the prompt names none: "all", then "half", then "double"/"increase" */
  function ImplicitPercent(lower: string): real {
    if Contains(lower, "all") then 50.0
    else if Contains(lower, "half") then 25.0
    else if Contains(lower, "double") || Contains(lower, "increase") then 30.0
    else DefaultPercent
  }

  /** A stated percentage, discounted by a fifth when the prompt talks of converting or replacing */
  function StatedPercent(n: nat, lower: string): real {
    if Contains(lower, "convert") || Contains(lower, "replace") then (n as real) * 0.8 else n as real
  }

  /** The reduction percentage the rules produce for a prompt, before the description is written */
  function PercentRule(prompt: string): real {
    Min(UncappedPercent(prompt, Lower(prompt)), PercentCap)
  }

  /** The amount before the cap: the stated number if there is one, the keyword default otherwise */
  function UncappedPercent(prompt: string, lower: string): real {
    match ExplicitPercent(prompt)
    case Some(n) => StatedPercent(n, lower)
    case None => ImplicitPercent(lower)
  }

  /** The percentage is never negative and never above the cap of 60. */
  lemma PercentRuleRange(prompt: string)
    ensures 0.0 <= PercentRule(prompt) <= PercentCap
    ensures ExplicitPercent(prompt).None? ==> PercentRule(prompt) in {20.0, 25.0, 30.0, 50.0}
  {
  }

  /**
   * With a match, the percentage is the leftmost match's number (scaled by 0.8 for a
   * conversion), capped at 60.
   */
  lemma PercentRuleAtMatch(prompt: string, p: nat)
    requires MatchesAt(prompt, p) && forall k: nat :: k < p ==> !MatchesAt(prompt, k)
    ensures PercentRule(prompt) ==
      Min(StatedPercent(Captured(prompt, p), Lower(prompt)), PercentCap)
  {
    SearchFindsLeftmost(prompt, 0, p);
    PercentRuleAtSearch(prompt, p);
  }

  /** The rule's value once the search has found `p` */
  lemma PercentRuleAtSearch(prompt: string, p: nat)
    requires SearchPercent(prompt, 0) == Some(p)
    ensures PercentRule(prompt) ==
      Min(StatedPercent(Captured(prompt, p), Lower(prompt)), PercentCap)
  {
    var n := Captured(prompt, p);
    ExplicitPercentAt(prompt, p);
    assert UncappedPercent(prompt, Lower(prompt)) == StatedPercent(n, Lower(prompt));
  }

  /** A stated number decides the amount before the cap. */
  lemma UncappedOfExplicit(prompt: string, lower: string, n: nat)
    requires ExplicitPercent(prompt) == Some(n)
    ensures UncappedPercent(prompt, lower) == StatedPercent(n, lower)
  {
  }

  /** The number the search finds is the explicit percentage. */
  lemma ExplicitPercentAt(prompt: string, p: nat)
    requires SearchPercent(prompt, 0) == Some(p)
    ensures ExplicitPercent(prompt) == Some(Captured(prompt, p))
  {
  }

  /** The search from `q` stops at the first match at or after `q`. */
  lemma {:induction false} SearchFindsLeftmost(s: string, q: nat, p: nat)
    requires q <= p && MatchesAt(s, p) && forall k: nat :: q <= k < p ==> !MatchesAt(s, k)
    ensures SearchPercent(s, q) == Some(p)
    decreases p - q
  {
    if q < p {
      SearchFindsLeftmost(s, q + 1, p);
    }
  }

  /** Without a match the keyword defaults apply, in order. */
  lemma PercentRuleWithoutMatch(prompt: string)
    requires forall p: nat :: !MatchesAt(prompt, p)
    ensures PercentRule(prompt) == ImplicitPercent(Lower(prompt))
  {
    assert SearchPercent(prompt, 0).None?;
  }

  // ---------------------------------------------------------------------------
  // Description and the parser

  /** "NYC" for the whole city, the borough's name otherwise */
  function Location(borough: string): (loc: string)
    ensures borough == DefaultBorough ==> loc == "NYC"
    ensures borough != DefaultBorough ==> loc == borough
  {
    if borough != DefaultBorough then borough else "NYC"
  }

  /**
   * The one-line description; `formatPercent` stands for the float formatting `{:.0f}`
   * (rounding to a whole number), which the model does not spell out.
   */
  function Description(formatPercent: real -> string, sector: string, borough: string, percent: real): string {
    formatPercent(percent) + "% " + sector + " emission reduction in " + Location(borough)
  }

  /** The description ends with "in NYC" exactly for a citywide intervention. */
  lemma DescriptionNamesLocation(formatPercent: real -> string, sector: string, borough: string, percent: real)
    ensures var d := Description(formatPercent, sector, borough, percent);
      var tail := " emission reduction in " + Location(borough);
      |d| >= |tail| && d[|d| - |tail|..] == tail
    ensures borough in Boroughs ==> Location(borough) == borough
  {
  }

  /** The borough loop: stops at the first name that occurs in the prompt */
  method ParseBorough(promptLower: string) returns (borough: string)
    ensures borough == BoroughRule(promptLower)
  {
    borough := DefaultBorough;
    var i := 0;
    while i < |Boroughs|
      invariant 0 <= i <= |Boroughs|
      invariant FirstBoroughFrom(promptLower, 0) == FirstBoroughFrom(promptLower, i)
      invariant borough == DefaultBorough
    {
      if Contains(promptLower, Lower(Boroughs[i])) {
        borough := Boroughs[i];
        break;
      }
      i := i + 1;
    }
  }

  /** The sector loop: stops at the first sector with a keyword in the prompt */
  method ParseSector(promptLower: string) returns (sector: string)
    ensures sector == SectorRule(promptLower)
  {
    sector := DefaultSector;
    var k := 0;
    while k < |SectorKeywords|
      invariant 0 <= k <= |SectorKeywords|
      invariant FirstSectorFrom(promptLower, 0) == FirstSectorFrom(promptLower, k)
      invariant sector == DefaultSector
    {
      if AnyKeyword(promptLower, SectorKeywords[k].1) {
        sector := SectorKeywords[k].0;
        break;
      }
      k := k + 1;
    }
  }

  /** The number after a match at `p`, discounted for a conversion */
  method StatedAmount(prompt: string, promptLower: string, p: nat) returns (amount: real)
    requires promptLower == Lower(prompt) && SearchPercent(prompt, 0) == Some(p)
    ensures amount == UncappedPercent(prompt, promptLower)
  {
    var n := Captured(prompt, p);
    ExplicitPercentAt(prompt, p);
    UncappedOfExplicit(prompt, promptLower, n);
    amount := n as real;
    if Contains(promptLower, "convert") || Contains(promptLower, "replace") {
      amount := amount * 0.8;
    }
    assert amount == StatedPercent(n, promptLower);
  }

  /** The keyword defaults when no number is stated */
  method KeywordAmount(prompt: string, promptLower: string) returns (amount: real)
    requires promptLower == Lower(prompt) && SearchPercent(prompt, 0).None?
    ensures amount == UncappedPercent(prompt, promptLower)
  {
    assert ExplicitPercent(prompt).None?;
    amount := DefaultPercent;
    if Contains(promptLower, "all") {
      amount := 50.0;
    } else if Contains(promptLower, "half") {
      amount := 25.0;
    } else if Contains(promptLower, "double") || Contains(promptLower, "increase") {
      amount := 30.0;
    }
  }

  /** The percentage: default, overwritten by an explicit or implicit amount, then capped */
  method ParsePercent(prompt: string, promptLower: string) returns (reductionPercent: real)
    requires promptLower == Lower(prompt)
    ensures reductionPercent == PercentRule(prompt)
    ensures 0.0 <= reductionPercent <= PercentCap
  {
    var percentMatch := SearchPercent(prompt, 0);
    if percentMatch.Some? {
      reductionPercent := StatedAmount(prompt, promptLower, percentMatch.value);
    } else {
      reductionPercent := KeywordAmount(prompt, promptLower);
    }
    reductionPercent := Min(reductionPercent, PercentCap);
    PercentRuleRange(prompt);
  }

  /**
   * The rule-based parser: borough, sector and percentage from the lower-cased prompt (the
   * percentage pattern is searched in the prompt as typed), then the description.
   */
  method ParseWithRules(prompt: string, formatPercent: real -> string) returns (iv: RuleIntervention)
    ensures iv.borough == BoroughRule(Lower(prompt))
    ensures iv.sector == SectorRule(Lower(prompt))
    ensures iv.reductionPercent == PercentRule(prompt)
    ensures 0.0 <= iv.reductionPercent <= PercentCap
    ensures iv.description == Description(formatPercent, iv.sector, iv.borough, iv.reductionPercent)
  {
    var promptLower := Lower(prompt);
    var borough := ParseBorough(promptLower);
    var sector := ParseSector(promptLower);
    var reductionPercent := ParsePercent(prompt, promptLower);
    var description := Description(formatPercent, sector, borough, reductionPercent);
    iv := RuleIntervention(borough, sector, reductionPercent, description);
  }
}
