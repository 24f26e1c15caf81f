/** The scoring procedure in the source's own form, and what its answer means:
    which entry of an extraction raises which factor, and how the factors make
    the score. */
module Scorer {
  import opened Text
  import opened Scoring

  const RAW_MAX := 121

  // ----- reading the extraction -----

  lemma LookupStuck(keys: seq<string>)
    ensures Lookup(Null, keys) == Null
    decreases |keys|
  {
    if keys != [] { LookupStuck(keys[1..]); }
  }

  /** The nested lookup: stops with `None` at the first value that is no object. */
  method Get(data: Json, keys: seq<string>) returns (val: Json)
    ensures val == Lookup(data, keys)
  {
    val := data;
    for i := 0 to |keys|
      invariant Lookup(val, keys[i..]) == Lookup(data, keys)
    {
      if !val.Obj? {
        LookupStuck(keys[i..][1..]);
        return Null;
      }
      assert keys[i..][1..] == keys[i + 1..];
      val := Field(val, keys[i]);
    }
  }

  // ----- what the factors say about the extraction -----

  /** The entry `section.key` is there. */
  predicate Has(e: Json, section: string, key: string) {
    e.Obj? && section in e.fields && e.fields[section].Obj? && key in e.fields[section].fields
  }

  function Entry(e: Json, section: string, key: string): Json
    requires Has(e, section, key)
  {
    e.fields[section].fields[key]
  }

  predicate Reads(e: Json, section: string, key: string, word: string) {
    Has(e, section, key) && Entry(e, section, key) == Str(word)
  }

  /** The entry is a list with `n` items. */
  predicate Lists(e: Json, section: string, key: string, n: nat) {
    Has(e, section, key) && Entry(e, section, key).Arr? && |Entry(e, section, key).items| == n
  }

  ghost predicate ListsSome(e: Json, section: string, key: string) {
    exists n: nat :: n > 0 && Lists(e, section, key, n)
  }

  /** Neither absent, false, zero nor empty. */
  predicate Filled(v: Json) {
    v != Null && v != Bool(false) && v != Num(0.0) && v != Str("") && v != Arr([]) && v != Obj(map[])
  }

  /** The next step is there, and is no blank text. */
  predicate Promises(e: Json) {
    && Has(e, "deal_signals", "next_step") && Filled(Entry(e, "deal_signals", "next_step"))
    && (Entry(e, "deal_signals", "next_step").Str? ==> !Blank(Entry(e, "deal_signals", "next_step").s))
  }

  /** The caller's answer when it gave one, otherwise the extracted role. */
  predicate NamesBuyer(e: Json, buyer: Json) {
    if buyer.Bool? then buyer.b else Reads(e, "stakeholder", "role_label", "economic_buyer")
  }

  /** The factors on next step, buyer, threading, sentiment and engagement. */
  ghost predicate FirstFactors(e: Json, stakeholders: int, buyer: Json, factors: seq<string>) {
    && ("No committed next step" in factors <==> !Promises(e))
    && ("No economic buyer identified" in factors <==> !NamesBuyer(e, buyer))
    && ("Single-threaded account" in factors <==> stakeholders <= 1)
    && ("Negative sentiment detected" in factors <==> Reads(e, "interaction", "sentiment", "negative"))
    && ("Low engagement level" in factors <==> Reads(e, "interaction", "engagement_level", "low"))
  }

  /** The factors on security, procurement and budget. */
  ghost predicate BlockerFactors(e: Json, factors: seq<string>) {
    && ("Security or compliance blocker raised" in factors <==> ListsSome(e, "deal_signals", "security_mentions"))
    && ("Procurement process blocker" in factors <==> ListsSome(e, "deal_signals", "procurement_mentions"))
    && ("Negative budget signal" in factors <==> Reads(e, "qualification", "budget_signal", "negative"))
    && ("Budget signal unclear" in factors <==> Reads(e, "qualification", "budget_signal", "unknown"))
  }

  /** The factors on authority, timeline and objections. */
  ghost predicate LastFactors(e: Json, factors: seq<string>) {
    && ("Negative authority signal" in factors <==> Reads(e, "qualification", "authority_signal", "negative"))
    && ("Timeline slippage signal" in factors <==> Reads(e, "qualification", "timeline_signal", "negative"))
    && (forall n: nat :: ObjectionText(n) in factors <==> n > 0 && Lists(e, "deal_signals", "objections", n))
  }

  function ObjectionText(n: nat): string {
    Decimal(n) + " unresolved objection(s)"
  }

  const FIXED_TEXTS := [
    "No committed next step", "No economic buyer identified", "Single-threaded account",
    "Negative sentiment detected", "Low engagement level", "Security or compliance blocker raised",
    "Procurement process blocker", "Negative budget signal", "Budget signal unclear",
    "Negative authority signal", "Timeline slippage signal"]

  predicate Once(s: seq<string>) {
    forall i, j :: 0 <= i < j < |s| ==> s[i] != s[j]
  }

  ghost predicate Precedes(s: string, t: string) {
    s in FIXED_TEXTS &&
    (t !in FIXED_TEXTS || exists a, b :: 0 <= a < b < |FIXED_TEXTS| && FIXED_TEXTS[a] == s && FIXED_TEXTS[b] == t)
  }

  /** Each factor once, in the rules' order, and nothing else in the list. */
  ghost predicate OnlyFactors(factors: seq<string>) {
    && Once(factors) && (forall i, j :: 0 <= i < j < |factors| ==> Precedes(factors[i], factors[j]))
    && (forall t :: t in factors ==> t in FIXED_TEXTS || exists n: nat :: t == ObjectionText(n))
  }

  /** The list tells what the extraction holds, entry by entry. */
  ghost predicate FactorsRead(e: Json, stakeholders: int, buyer: Json, factors: seq<string>) {
    && FirstFactors(e, stakeholders, buyer, factors) && BlockerFactors(e, factors) && LastFactors(e, factors)
    && OnlyFactors(factors)
  }

  /** The points a factor stands for, read off the factor text alone. */
  function Weight(factor: string): nat {
    if factor == "No committed next step" then 15
    else if factor == "No economic buyer identified" then 15
    else if factor == "Single-threaded account" then 10
    else if factor == "Negative sentiment detected" then 12
    else if factor == "Low engagement level" then 8
    else if factor == "Security or compliance blocker raised" then 10
    else if factor == "Procurement process blocker" then 8
    else if factor == "Negative budget signal" then 10
    else if factor == "Budget signal unclear" then 5
    else if factor == "Negative authority signal" then 8
    else if factor == "Timeline slippage signal" then 10
    else ObjectionWeight(factor)
  }

  function ObjectionWeight(factor: string): nat {
    if factor == "1" + OBJECTION_SUFFIX then 5
    else if factor == "2" + OBJECTION_SUFFIX then 10
    else 15
  }

  function SumWeights(factors: seq<string>): nat
    decreases |factors|
  {
    if factors == [] then 0 else SumWeights(factors[..|factors| - 1]) + Weight(factors[|factors| - 1])
  }

  /** The score and the factors are those of the extraction. */
  ghost predicate Scored(e: Json, stakeholders: int, buyer: Json, score: int, factors: seq<string>) {
    && FactorsRead(e, stakeholders, buyer, factors)
    && score == if SumWeights(factors) <= 100 then SumWeights(factors) else 100
  }

  // ----- why it does -----

  lemma LookupTwo(e: Json, section: string, key: string)
    ensures Lookup(e, [section, key]) == if Has(e, section, key) then Entry(e, section, key) else Null
  {
    assert [section, key][1..] == [key] && [key][1..] == [];
    assert Lookup(e, [section, key]) == Lookup(Field(e, section), [key]);
    assert Lookup(Field(e, section), [key]) == Field(Field(e, section), key);
  }

  lemma SaysReads(e: Json, section: string, key: string, word: string)
    ensures Says(Lookup(e, [section, key]), word) <==> Reads(e, section, key, word)
  {
    LookupTwo(e, section, key);
  }

  lemma SizeLists(e: Json, section: string, key: string)
    ensures Size(Lookup(e, [section, key])) > 0 <==> ListsSome(e, section, key)
    ensures forall n: nat :: n > 0 ==> (Size(Lookup(e, [section, key])) == n <==> Lists(e, section, key, n))
  {
    LookupTwo(e, section, key);
    if Size(Lookup(e, [section, key])) > 0 { assert Lists(e, section, key, Size(Lookup(e, [section, key]))); }
  }

  lemma TruthyIff(v: Json)
    ensures Truthy(v) <==> Filled(v)
  {}

  lemma CommittedPromises(e: Json)
    ensures Committed(Lookup(e, ["deal_signals", "next_step"])) <==> Promises(e)
  {
    LookupTwo(e, "deal_signals", "next_step");
    TruthyIff(Lookup(e, ["deal_signals", "next_step"]));
  }

  /** A rule's text is known by its length and its second character. */
  lemma TextShape(k: nat, f: Facts)
    requires k < RULES - 1
    ensures var t := Description(k, f);
            && |t| >= 20 && !('0' <= t[0] <= '9')
            && (|t|, t[1]) == match k
                              case 0 => (22, 'o') case 1 => (28, 'o') case 2 => (23, 'i') case 3 => (27, 'e')
                              case 4 => (20, 'o') case 5 => (37, 'e') case 6 => (27, 'r')
                              case 7 => if f.budget == Negative then (22, 'e') else (21, 'u')
                              case 8 => (25, 'e') case _ => (24, 'i')
  {}

  lemma ObjectionShape(n: nat)
    ensures |ObjectionText(n)| > 0 && '0' <= ObjectionText(n)[0] <= '9'
  {
    DecimalLead(n);
  }

  lemma TextsDiffer(j: nat, k: nat, f: Facts)
    requires j < RULES && k < RULES && Description(j, f) == Description(k, f)
    ensures j == k
  {
    if j < RULES - 1 { TextShape(j, f); }
    if k < RULES - 1 { TextShape(k, f); }
    if j == RULES - 1 || k == RULES - 1 { ObjectionShape(f.objections); }
  }

  /** Exactly the rules that fire are listed, in order. */
  lemma {:induction false} FiredIff(k: nat, f: Facts)
    ensures forall r: nat :: r in FiredUpTo(k, f) <==> r < k && Fires(r, f)
    ensures forall i, j :: 0 <= i < j < |FiredUpTo(k, f)| ==> FiredUpTo(k, f)[i] < FiredUpTo(k, f)[j]
  {
    if k > 0 {
      FiredIff(k - 1, f);
      var before := FiredUpTo(k - 1, f);
      assert forall i :: 0 <= i < |before| ==> before[i] in before;
    }
  }

  lemma ListedIff(k: nat, f: Facts)
    requires k < RULES
    ensures Description(k, f) in Factors(f) <==> Fires(k, f)
  {
    FiredIff(RULES, f);
    var fired := Fired(f);
    if Fires(k, f) {
      var i :| 0 <= i < |fired| && fired[i] == k;
      assert Factors(f)[i] == Description(k, f);
    } else if Description(k, f) in Factors(f) {
      var i :| 0 <= i < |fired| && Factors(f)[i] == Description(k, f);
      assert fired[i] in fired;
      TextsDiffer(fired[i], k, f);
    }
  }

  /** A text that is not the present text of rule 7 is not listed for it. */
  lemma OtherBudgetText(f: Facts, t: string)
    requires t in {"Negative budget signal", "Budget signal unclear"} && t != Description(7, f)
    ensures t !in Factors(f)
  {
    FiredIff(RULES, f);
    var fired := Fired(f);
    if t in Factors(f) {
      var i :| 0 <= i < |fired| && Factors(f)[i] == t;
      assert fired[i] in fired;
      if fired[i] < RULES - 1 { TextShape(fired[i], f); } else { ObjectionShape(f.objections); }
      assert false;
    }
  }

  lemma ObjectionListedIff(f: Facts, n: nat)
    ensures ObjectionText(n) in Factors(f) <==> n > 0 && f.objections == n
  {
    ObjectionShape(n);
    if ObjectionText(n) in Factors(f) {
      FiredIff(RULES, f);
      var fired := Fired(f);
      var i :| 0 <= i < |fired| && Factors(f)[i] == ObjectionText(n);
      assert fired[i] in fired;
      if fired[i] < RULES - 1 { TextShape(fired[i], f); }
      assert Description(RULES - 1, f) == ObjectionText(f.objections);
      SuffixCancels(Decimal(n), Decimal(f.objections), OBJECTION_SUFFIX);
      DecimalInjective(n, f.objections);
    } else {
      ListedIff(RULES - 1, f);
    }
  }

  lemma SuffixCancels(a: string, b: string, suffix: string)
    requires a + suffix == b + suffix
    ensures a == b
  {
    assert a == (a + suffix)[..|a + suffix| - |suffix|] == (b + suffix)[..|b + suffix| - |suffix|] == b;
  }

  lemma FactorsOnly(f: Facts)
    ensures OnlyFactors(Factors(f))
  {
    FiredIff(RULES, f);
    var fired, names := Fired(f), Factors(f);
    forall i, j | 0 <= i < j < |names| ensures names[i] != names[j] && Precedes(names[i], names[j]) {
      assert fired[i] in fired && fired[j] in fired;
      if names[i] == names[j] { TextsDiffer(fired[i], fired[j], f); }
      RulesPrecede(fired[i], fired[j], f);
    }
    forall t | t in names ensures t in FIXED_TEXTS || exists n: nat :: t == ObjectionText(n) {
      var i :| 0 <= i < |names| && names[i] == t;
      assert fired[i] in fired;
      FixedOrObjection(fired[i], f);
    }
  }

  /** Where a rule's text stands among the fixed ones. */
  function PlaceOf(k: nat, f: Facts): nat {
    if k <= 6 || (k == 7 && f.budget == Negative) then k else k + 1
  }

  lemma FixedText(k: nat, f: Facts)
    requires k < RULES - 1
    ensures PlaceOf(k, f) < |FIXED_TEXTS| && Description(k, f) == FIXED_TEXTS[PlaceOf(k, f)]
  {}

  lemma ObjectionNotFixed(n: nat)
    ensures ObjectionText(n) !in FIXED_TEXTS
  {
    ObjectionShape(n);
    assert forall i :: 0 <= i < |FIXED_TEXTS| ==> FIXED_TEXTS[i][0] > '9';
  }

  lemma RulesPrecede(j: nat, k: nat, f: Facts)
    requires j < k < RULES
    ensures Precedes(Description(j, f), Description(k, f))
  {
    FixedText(j, f);
    if k < RULES - 1 {
      FixedText(k, f);
    } else {
      assert Description(k, f) == ObjectionText(f.objections);
      ObjectionNotFixed(f.objections);
    }
  }

  lemma FixedOrObjection(k: nat, f: Facts)
    requires k < RULES
    ensures Description(k, f) in FIXED_TEXTS || exists n: nat :: Description(k, f) == ObjectionText(n)
  {
    if k == RULES - 1 { assert Description(k, f) == ObjectionText(f.objections); } else { FixedText(k, f); }
  }

  lemma FirstRead(e: Json, stakeholders: int, buyer: Json)
    ensures FirstFactors(e, stakeholders, buyer, Factors(FactsOf(e, stakeholders, buyer)))
  {
    var f := FactsOf(e, stakeholders, buyer);
    CommittedPromises(e);
    SaysReads(e, "stakeholder", "role_label", "economic_buyer");
    SaysReads(e, "interaction", "sentiment", "negative");
    SaysReads(e, "interaction", "engagement_level", "low");
    ListedIff(0, f);
    ListedIff(1, f);
    ListedIff(2, f);
    ListedIff(3, f);
    ListedIff(4, f);
  }

  lemma BlockersRead(e: Json, stakeholders: int, buyer: Json)
    ensures BlockerFactors(e, Factors(FactsOf(e, stakeholders, buyer)))
  {
    var f := FactsOf(e, stakeholders, buyer);
    SizeLists(e, "deal_signals", "security_mentions");
    SizeLists(e, "deal_signals", "procurement_mentions");
    ListedIff(5, f);
    ListedIff(6, f);
    BudgetRead(e, f);
  }

  lemma BudgetRead(e: Json, f: Facts)
    requires f.budget == SignalOf(Lookup(e, ["qualification", "budget_signal"]))
    ensures "Negative budget signal" in Factors(f) <==> Reads(e, "qualification", "budget_signal", "negative")
    ensures "Budget signal unclear" in Factors(f) <==> Reads(e, "qualification", "budget_signal", "unknown")
  {
    SaysReads(e, "qualification", "budget_signal", "negative");
    SaysReads(e, "qualification", "budget_signal", "unknown");
    ListedIff(7, f);
    assert |"negative"| == 8 && |"unknown"| == 7 && |"Negative budget signal"| == 22 && |"Budget signal unclear"| == 21;
    OtherBudgetText(f, if f.budget == Negative then "Budget signal unclear" else "Negative budget signal");
  }

  lemma LastRead(e: Json, stakeholders: int, buyer: Json)
    ensures LastFactors(e, Factors(FactsOf(e, stakeholders, buyer)))
  {
    var f := FactsOf(e, stakeholders, buyer);
    SaysReads(e, "qualification", "authority_signal", "negative");
    SaysReads(e, "qualification", "timeline_signal", "negative");
    ListedIff(8, f);
    ListedIff(9, f);
    SizeLists(e, "deal_signals", "objections");
    forall n: nat ensures ObjectionText(n) in Factors(f) <==> n > 0 && Lists(e, "deal_signals", "objections", n) {
      ObjectionListedIff(f, n);
    }
  }

  /** Each fact, over the entry it is read from. */
  ghost predicate FactsRead(e: Json, stakeholders: int, buyer: Json, f: Facts) {
    && (f.nextStep <==> Promises(e)) && (f.buyer <==> NamesBuyer(e, buyer)) && f.stakeholders == stakeholders
    && (f.negativeSentiment <==> Reads(e, "interaction", "sentiment", "negative"))
    && (f.lowEngagement <==> Reads(e, "interaction", "engagement_level", "low"))
    && (forall n: nat :: n > 0 ==> (f.security == n <==> Lists(e, "deal_signals", "security_mentions", n)))
    && (forall n: nat :: n > 0 ==> (f.procurement == n <==> Lists(e, "deal_signals", "procurement_mentions", n)))
    && (forall n: nat :: n > 0 ==> (f.objections == n <==> Lists(e, "deal_signals", "objections", n)))
    && (f.budget == Negative <==> Reads(e, "qualification", "budget_signal", "negative"))
    && (f.budget == Unknown <==> Reads(e, "qualification", "budget_signal", "unknown"))
    && (f.negativeAuthority <==> Reads(e, "qualification", "authority_signal", "negative"))
    && (f.negativeTimeline <==> Reads(e, "qualification", "timeline_signal", "negative"))
  }

  lemma FactsAreRead(e: Json, stakeholders: int, buyer: Json)
    ensures FactsRead(e, stakeholders, buyer, FactsOf(e, stakeholders, buyer))
  {
    CommittedPromises(e);
    SaysReads(e, "stakeholder", "role_label", "economic_buyer");
    SaysReads(e, "interaction", "sentiment", "negative");
    SaysReads(e, "interaction", "engagement_level", "low");
    SizeLists(e, "deal_signals", "security_mentions");
    SizeLists(e, "deal_signals", "procurement_mentions");
    SizeLists(e, "deal_signals", "objections");
    BudgetReads(e);
    SaysReads(e, "qualification", "authority_signal", "negative");
    SaysReads(e, "qualification", "timeline_signal", "negative");
  }

  lemma BudgetReads(e: Json)
    ensures var signal := SignalOf(Lookup(e, ["qualification", "budget_signal"]));
            && (signal == Negative <==> Reads(e, "qualification", "budget_signal", "negative"))
            && (signal == Unknown <==> Reads(e, "qualification", "budget_signal", "unknown"))
  {
    SaysReads(e, "qualification", "budget_signal", "negative");
    SaysReads(e, "qualification", "budget_signal", "unknown");
    assert |"negative"| == 8 && |"unknown"| == 7;
  }

  method ReadFacts(e: Json, stakeholders: int, buyer: Json) returns (f: Facts)
    ensures FactsRead(e, stakeholders, buyer, f) && f == FactsOf(e, stakeholders, buyer)
  {
    FactsAreRead(e, stakeholders, buyer);
    var nextStep := Get(e, ["deal_signals", "next_step"]);
    var hasBuyer := buyer == Bool(true);
    if !buyer.Bool? {
      var role := Get(e, ["stakeholder", "role_label"]);
      hasBuyer := Says(role, "economic_buyer");
    }
    var sentiment := Get(e, ["interaction", "sentiment"]);
    var engagement := Get(e, ["interaction", "engagement_level"]);
    var sec := Get(e, ["deal_signals", "security_mentions"]);
    var proc := Get(e, ["deal_signals", "procurement_mentions"]);
    var budget := Get(e, ["qualification", "budget_signal"]);
    var authority := Get(e, ["qualification", "authority_signal"]);
    var timeline := Get(e, ["qualification", "timeline_signal"]);
    var objections := Get(e, ["deal_signals", "objections"]);
    f := Facts(Committed(nextStep), hasBuyer, stakeholders,
               Says(sentiment, "negative"), Says(engagement, "low"), Size(sec), Size(proc),
               SignalOf(budget), Says(authority, "negative"), Says(timeline, "negative"), Size(objections));
  }

  // ----- the accumulating procedure -----

  /** The running points and factors that the nested helper `_add` updates;
      `fired` records the rules that called it so far. */
  class Tally {
    const facts: Facts
    var points: int
    var factors: seq<string>
    ghost var fired: seq<nat>

    ghost predicate Valid()
      reads this
    {
      points == Total(fired, facts) && factors == Names(fired, facts)
    }

    constructor (facts: Facts)
      ensures Valid() && fired == [] && this.facts == facts
    {
      this.facts := facts;
      points, factors, fired := 0, [], [];
    }

    method Add(pts: int, factor: string, ghost rule: nat)
      requires Valid() && pts == Points(rule, facts) && factor == Description(rule, facts)
      modifies this
      ensures Valid() && fired == old(fired) + [rule]
    {
      points := points + pts;
      factors := factors + [factor];
      fired := fired + [rule];
      assert fired[..|fired| - 1] == old(fired);
    }
  }

  /** Runs the rules one after another on a fresh tally. */
  method ScoreExtraction(e: Json, stakeholders: int, buyer: Json) returns (score: int, factors: seq<string>)
    ensures Scored(e, stakeholders, buyer, score, factors)
    ensures score == Score(FactsOf(e, stakeholders, buyer))
    ensures factors == Factors(FactsOf(e, stakeholders, buyer))
  {
    FirstRead(e, stakeholders, buyer);
    BlockersRead(e, stakeholders, buyer);
    LastRead(e, stakeholders, buyer);
    FactorsOnly(FactsOf(e, stakeholders, buyer));
    ScoreExplained(FactsOf(e, stakeholders, buyer));
    var f := ReadFacts(e, stakeholders, buyer);
    var tally := new Tally(f);
    ApplyFirstRules(tally);
    ApplyBlockerRules(tally);
    ApplyLastRules(tally);
    score := Capped(tally.points);
    factors := tally.factors;
  }

  /** Next step, buyer, threading, sentiment, engagement. */
  method ApplyFirstRules(tally: Tally)
    requires tally.Valid() && tally.fired == []
    modifies tally
    ensures tally.Valid() && tally.fired == FiredUpTo(5, tally.facts)
  {
    var f := tally.facts;
    if !f.nextStep { tally.Add(15, "No committed next step", 0); }
    assert tally.fired == FiredUpTo(1, f);
    if !f.buyer { tally.Add(15, "No economic buyer identified", 1); }
    assert tally.fired == FiredUpTo(2, f);
    if f.stakeholders <= 1 { tally.Add(10, "Single-threaded account", 2); }
    assert tally.fired == FiredUpTo(3, f);
    if f.negativeSentiment { tally.Add(12, "Negative sentiment detected", 3); }
    assert tally.fired == FiredUpTo(4, f);
    if f.lowEngagement { tally.Add(8, "Low engagement level", 4); }
  }

  /** Security, procurement, budget. */
  method ApplyBlockerRules(tally: Tally)
    requires tally.Valid() && tally.fired == FiredUpTo(5, tally.facts)
    modifies tally
    ensures tally.Valid() && tally.fired == FiredUpTo(8, tally.facts)
  {
    var f := tally.facts;
    if f.security > 0 { tally.Add(10, "Security or compliance blocker raised", 5); }
    assert tally.fired == FiredUpTo(6, f);
    if f.procurement > 0 { tally.Add(8, "Procurement process blocker", 6); }
    assert tally.fired == FiredUpTo(7, f);
    if f.budget == Negative { tally.Add(10, "Negative budget signal", 7); }
    else if f.budget == Unknown { tally.Add(5, "Budget signal unclear", 7); }
  }

  /** Authority, timeline, objections. */
  method ApplyLastRules(tally: Tally)
    requires tally.Valid() && tally.fired == FiredUpTo(8, tally.facts)
    modifies tally
    ensures tally.Valid() && tally.fired == Fired(tally.facts)
  {
    var f := tally.facts;
    if f.negativeAuthority { tally.Add(8, "Negative authority signal", 8); }
    assert tally.fired == FiredUpTo(9, f);
    if f.negativeTimeline { tally.Add(10, "Timeline slippage signal", 9); }
    assert tally.fired == FiredUpTo(10, f);
    if f.objections > 0 {
      var pts := if f.objections * 5 < 15 then f.objections * 5 else 15;
      tally.Add(pts, Decimal(f.objections) + OBJECTION_SUFFIX, 10);
    }
  }

  // ----- properties -----

  lemma TotalPush(rules: seq<nat>, k: nat, f: Facts)
    ensures Total(rules + [k], f) == Total(rules, f) + Points(k, f)
  {
    assert (rules + [k])[..|rules|] == rules;
  }

  function RuleMax(k: nat): nat {
    match k
    case 0 => 15 case 1 => 15 case 2 => 10 case 3 => 12 case 4 => 8
    case 5 => 10 case 6 => 8 case 7 => 10 case 8 => 8 case 9 => 10 case _ => 15
  }

  function MaxUpTo(k: nat): nat {
    if k == 0 then 0 else MaxUpTo(k - 1) + RuleMax(k - 1)
  }

  function Contribution(k: nat, f: Facts): nat {
    if Fires(k, f) then Points(k, f) else 0
  }

  function PointsUpTo(k: nat, f: Facts): nat {
    if k == 0 then 0 else PointsUpTo(k - 1, f) + Contribution(k - 1, f)
  }

  /** Adding up the fired rules adds up every rule's contribution. */
  lemma {:induction false} TotalIsContributions(k: nat, f: Facts)
    ensures Total(FiredUpTo(k, f), f) == PointsUpTo(k, f)
  {
    if k > 0 {
      TotalIsContributions(k - 1, f);
      TotalPush(FiredUpTo(k - 1, f), k - 1, f);
    }
  }

  lemma ContributionBound(k: nat, f: Facts)
    ensures Contribution(k, f) <= RuleMax(k)
  {}

  lemma {:induction false} RawBoundUpTo(k: nat, f: Facts)
    ensures PointsUpTo(k, f) <= MaxUpTo(k)
  {
    if k > 0 {
      RawBoundUpTo(k - 1, f);
      ContributionBound(k - 1, f);
    }
  }

  lemma MaxTotal()
    ensures MaxUpTo(RULES) == RAW_MAX
  {
    assert MaxUpTo(4) == 52;
    assert MaxUpTo(8) == 88;
  }

  /** The score lies in 0..100 and the raw points never pass 121. */
  lemma ScoreBounded(f: Facts)
    ensures 0 <= Score(f) <= 100
    ensures Total(Fired(f), f) <= 121
  {
    TotalIsContributions(RULES, f);
    RawBoundUpTo(RULES, f);
    MaxTotal();
  }

  lemma FirstWeights()
    ensures Weight("No committed next step") == 15
    ensures Weight("No economic buyer identified") == 15
    ensures Weight("Single-threaded account") == 10
    ensures Weight("Negative sentiment detected") == 12
    ensures Weight("Low engagement level") == 8
  {}

  lemma MiddleWeights()
    ensures Weight("Security or compliance blocker raised") == 10
    ensures Weight("Procurement process blocker") == 8
    ensures Weight("Negative budget signal") == 10
  {}

  lemma LastWeights()
    ensures Weight("Budget signal unclear") == 5
    ensures Weight("Negative authority signal") == 8
    ensures Weight("Timeline slippage signal") == 10
  {}

  lemma ObjectionFactor(n: nat)
    requires n > 0
    ensures ObjectionWeight(Decimal(n) + OBJECTION_SUFFIX) == if n * 5 < 15 then n * 5 else 15
  {
    var d, f := Decimal(n), Decimal(n) + OBJECTION_SUFFIX;
    DecimalDigit(n, 1);
    DecimalDigit(n, 2);
    assert f[..|f| - |OBJECTION_SUFFIX|] == d;
    assert ("1" + OBJECTION_SUFFIX)[..1] == "1" && ("2" + OBJECTION_SUFFIX)[..1] == "2";
  }

  lemma NumberIsNoFixedFactor(d: string)
    requires |d| > 0 && '0' <= d[0] <= '9'
    ensures Weight(d + OBJECTION_SUFFIX) == ObjectionWeight(d + OBJECTION_SUFFIX)
  {
    var t := d + OBJECTION_SUFFIX;
    assert t[0] == d[0];
    assert forall i :: 0 <= i < |FIXED_TEXTS| ==> FIXED_TEXTS[i][0] > '9';
  }

  lemma DescriptionWeight(k: nat, f: Facts)
    requires k < RULES && Fires(k, f)
    ensures Weight(Description(k, f)) == Points(k, f)
  {
    if k == 10 {
      ObjectionFactor(f.objections);
      DecimalLead(f.objections);
      NumberIsNoFixedFactor(Decimal(f.objections));
    } else {
      FirstWeights();
      MiddleWeights();
      LastWeights();
    }
  }

  lemma {:induction false} FiredFire(k: nat, f: Facts)
    requires k <= RULES
    ensures forall r :: r in FiredUpTo(k, f) ==> r < RULES && Fires(r, f)
  {
    if k > 0 { FiredFire(k - 1, f); }
  }

  lemma {:induction false} Explained(rules: seq<nat>, f: Facts)
    requires forall r :: r in rules ==> r < RULES && Fires(r, f)
    ensures SumWeights(Names(rules, f)) == Total(rules, f)
  {
    if rules != [] {
      var before, k := rules[..|rules| - 1], rules[|rules| - 1];
      assert k in rules;
      assert forall r :: r in before ==> r in rules;
      assert rules == before + [k];
      Explained(before, f);
      PushExplained(before, k, f);
    }
  }

  lemma PushExplained(rules: seq<nat>, k: nat, f: Facts)
    requires k < RULES && Fires(k, f) && SumWeights(Names(rules, f)) == Total(rules, f)
    ensures SumWeights(Names(rules + [k], f)) == Total(rules + [k], f)
  {
    TotalPush(rules, k, f);
    assert Names(rules + [k], f) == Names(rules, f) + [Description(k, f)];
    WeightsPush(Names(rules, f), Description(k, f));
    DescriptionWeight(k, f);
  }

  lemma WeightsPush(factors: seq<string>, factor: string)
    ensures SumWeights(factors + [factor]) == SumWeights(factors) + Weight(factor)
  {
    assert (factors + [factor])[..|factors|] == factors;
  }

  /** The score can be recomputed from the reported factor list alone. */
  lemma ScoreExplained(f: Facts)
    ensures Score(f) == Capped(SumWeights(Factors(f)))
  {
    FiredFire(RULES, f);
    Explained(Fired(f), f);
  }

  lemma {:induction false} ZeroUpTo(k: nat, f: Facts)
    ensures Total(FiredUpTo(k, f), f) == 0 <==> FiredUpTo(k, f) == []
  {
    if k > 0 {
      ZeroUpTo(k - 1, f);
      if Fires(k - 1, f) {
        ZeroPush(FiredUpTo(k - 1, f), k - 1, f);
      } else {
        assert FiredUpTo(k, f) == FiredUpTo(k - 1, f);
      }
    }
  }

  lemma ZeroPush(before: seq<nat>, k: nat, f: Facts)
    requires Fires(k, f)
    ensures Total(before + [k], f) > 0
  {
    TotalPush(before, k, f);
    PointsPositive(k, f);
  }

  lemma PointsPositive(k: nat, f: Facts)
    requires Fires(k, f)
    ensures Points(k, f) > 0
  {}

  /** A score of zero means exactly that no factor is reported. */
  lemma ZeroIffNoFactors(f: Facts)
    ensures Score(f) == 0 <==> Factors(f) == []
  {
    ZeroUpTo(RULES, f);
  }

  function SignalRank(s: Signal): nat {
    match s case Clear => 0 case Unknown => 1 case Negative => 2
  }

  /** Every answer in `g` is at least as bad as in `f`. */
  predicate NoBetter(f: Facts, g: Facts) {
    && (g.nextStep ==> f.nextStep) && (g.buyer ==> f.buyer) && g.stakeholders <= f.stakeholders
    && (f.negativeSentiment ==> g.negativeSentiment) && (f.lowEngagement ==> g.lowEngagement)
    && f.security <= g.security && f.procurement <= g.procurement
    && SignalRank(f.budget) <= SignalRank(g.budget)
    && (f.negativeAuthority ==> g.negativeAuthority) && (f.negativeTimeline ==> g.negativeTimeline)
    && f.objections <= g.objections
  }

  lemma ContributionMonotone(k: nat, f: Facts, g: Facts)
    requires NoBetter(f, g)
    ensures Contribution(k, f) <= Contribution(k, g)
  {}

  lemma {:induction false} MonotoneUpTo(k: nat, f: Facts, g: Facts)
    requires NoBetter(f, g)
    ensures PointsUpTo(k, f) <= PointsUpTo(k, g)
  {
    if k > 0 {
      MonotoneUpTo(k - 1, f, g);
      ContributionMonotone(k - 1, f, g);
    }
  }

  /** Making any input worse never lowers the score or the level. */
  lemma FactsMonotone(f: Facts, g: Facts)
    requires NoBetter(f, g)
    ensures Score(f) <= Score(g)
    ensures Rank(RiskLevel(Score(f))) <= Rank(RiskLevel(Score(g)))
  {
    TotalIsContributions(RULES, f);
    TotalIsContributions(RULES, g);
    MonotoneUpTo(RULES, f, g);
  }

  // ----- the extraction alone decides -----

  lemma SameFixed(e: Json, n: int, b: Json, x: seq<string>, y: seq<string>, t: string)
    requires FactorsRead(e, n, b, x) && FactorsRead(e, n, b, y) && t in FIXED_TEXTS
    ensures t in x <==> t in y
  {}

  lemma SameListed(e: Json, n: int, b: Json, x: seq<string>, y: seq<string>)
    requires FactorsRead(e, n, b, x) && FactorsRead(e, n, b, y)
    ensures forall t :: t in x <==> t in y
  {
    forall t ensures t in x <==> t in y {
      if t in FIXED_TEXTS { SameFixed(e, n, b, x, y, t); }
    }
  }

  lemma FirstIn(s: seq<string>)
    requires s != []
    ensures exists t :: t in s
  {
    assert s[0] in s;
  }

  function SumOf(weight: string -> nat, s: seq<string>): nat {
    if s == [] then 0 else SumOf(weight, s[..|s| - 1]) + weight(s[|s| - 1])
  }

  lemma {:induction false} WeightsAreSum(s: seq<string>)
    ensures SumWeights(s) == SumOf(t => Weight(t), s)
  {
    if s != [] { WeightsAreSum(s[..|s| - 1]); }
  }

  function Without(s: seq<string>, k: nat): seq<string>
    requires k < |s|
  {
    s[..k] + s[k + 1..]
  }

  lemma OnceWithout(s: seq<string>, k: nat)
    requires Once(s) && k < |s|
    ensures Once(Without(s, k)) && forall u :: u in Without(s, k) <==> u in s && u != s[k]
  {
    var rest := Without(s, k);
    assert forall i :: 0 <= i < |rest| ==> rest[i] == if i < k then s[i] else s[i + 1];
    forall u | u in s && u != s[k] ensures u in rest {
      var i :| 0 <= i < |s| && s[i] == u;
      assert rest[if i < k then i else i - 1] == u;
    }
  }

  lemma {:induction false} SumWithout(weight: string -> nat, s: seq<string>, k: nat)
    requires k < |s|
    ensures SumOf(weight, s) == SumOf(weight, Without(s, k)) + weight(s[k])
    decreases |s|
  {
    var n := |s| - 1;
    if k < n {
      SumWithout(weight, s[..n], k);
      assert Without(s, k) == Without(s[..n], k) + [s[n]];
      assert Without(s, k)[..n - 1] == Without(s[..n], k);
    } else {
      assert Without(s, k) == s[..n];
    }
  }

  /** Lists of the same texts, each once, have the same sum. */
  lemma {:induction false} SameSum(weight: string -> nat, x: seq<string>, y: seq<string>)
    requires Once(x) && Once(y) && forall t :: t in x <==> t in y
    ensures SumOf(weight, x) == SumOf(weight, y)
    decreases |x|
  {
    if x == [] {
      if y != [] { FirstIn(y); }
    } else {
      var t, n := x[|x| - 1], |x| - 1;
      assert t in x;
      var k :| 0 <= k < |y| && y[k] == t;
      SumWithout(weight, y, k);
      OnceWithout(x, n);
      OnceWithout(y, k);
      assert Without(x, n) == x[..n];
      SameSum(weight, x[..n], Without(y, k));
    }
  }

  lemma ScoredByRules(e: Json, n: int, b: Json, score: int, factors: seq<string>)
    requires Scored(e, n, b, score, factors)
    ensures score == Score(FactsOf(e, n, b))
  {
    var f := FactsOf(e, n, b);
    FirstRead(e, n, b);
    BlockersRead(e, n, b);
    LastRead(e, n, b);
    FactorsOnly(f);
    SameListed(e, n, b, factors, Factors(f));
    WeightsAreSum(factors);
    WeightsAreSum(Factors(f));
    SameSum(t => Weight(t), factors, Factors(f));
    ScoreExplained(f);
  }

  /** The list entry of `e'` is at least as long. */
  ghost predicate NoFewer(e: Json, e': Json, section: string, key: string) {
    forall n: nat :: n > 0 && Lists(e, section, key, n) ==> exists m: nat :: n <= m && Lists(e', section, key, m)
  }

  /** Every answer of `e'` is at least as bad as the one of `e`, entry by entry. */
  ghost predicate NoBetterAnswers(e: Json, n: int, b: Json, e': Json, n': int, b': Json) {
    && (Promises(e') ==> Promises(e)) && (NamesBuyer(e', b') ==> NamesBuyer(e, b)) && n' <= n
    && (Reads(e, "interaction", "sentiment", "negative") ==> Reads(e', "interaction", "sentiment", "negative"))
    && (Reads(e, "interaction", "engagement_level", "low") ==> Reads(e', "interaction", "engagement_level", "low"))
    && NoFewer(e, e', "deal_signals", "security_mentions")
    && NoFewer(e, e', "deal_signals", "procurement_mentions")
    && NoFewer(e, e', "deal_signals", "objections")
    && NoBetterQualified(e, e')
  }

  ghost predicate NoBetterQualified(e: Json, e': Json) {
    && (Reads(e, "qualification", "budget_signal", "negative") ==>
          Reads(e', "qualification", "budget_signal", "negative"))
    && (Reads(e, "qualification", "budget_signal", "unknown") ==>
          Reads(e', "qualification", "budget_signal", "unknown")
          || Reads(e', "qualification", "budget_signal", "negative"))
    && (Reads(e, "qualification", "authority_signal", "negative") ==>
          Reads(e', "qualification", "authority_signal", "negative"))
    && (Reads(e, "qualification", "timeline_signal", "negative") ==>
          Reads(e', "qualification", "timeline_signal", "negative"))
  }

  lemma NoFewerSize(e: Json, e': Json, section: string, key: string)
    requires NoFewer(e, e', section, key)
    ensures Size(Lookup(e, [section, key])) <= Size(Lookup(e', [section, key]))
  {
    SizeLists(e, section, key);
    SizeLists(e', section, key);
    var n := Size(Lookup(e, [section, key]));
    if n > 0 {
      assert Lists(e, section, key, n);
      var m: nat :| n <= m && Lists(e', section, key, m);
    }
  }

  lemma FirstNoBetter(e: Json, n: int, b: Json, e': Json, n': int, b': Json)
    requires NoBetterAnswers(e, n, b, e', n', b')
    ensures var f, g := FactsOf(e, n, b), FactsOf(e', n', b');
            && (g.nextStep ==> f.nextStep) && (g.buyer ==> f.buyer) && g.stakeholders <= f.stakeholders
            && (f.negativeSentiment ==> g.negativeSentiment) && (f.lowEngagement ==> g.lowEngagement)
  {
    CommittedPromises(e);
    CommittedPromises(e');
    SaysReads(e, "stakeholder", "role_label", "economic_buyer");
    SaysReads(e', "stakeholder", "role_label", "economic_buyer");
    SaysReads(e, "interaction", "sentiment", "negative");
    SaysReads(e', "interaction", "sentiment", "negative");
    SaysReads(e, "interaction", "engagement_level", "low");
    SaysReads(e', "interaction", "engagement_level", "low");
  }

  lemma BudgetNoWorse(e: Json, e': Json)
    requires NoBetterQualified(e, e')
    ensures SignalRank(SignalOf(Lookup(e, ["qualification", "budget_signal"])))
            <= SignalRank(SignalOf(Lookup(e', ["qualification", "budget_signal"])))
  {
    SaysReads(e, "qualification", "budget_signal", "negative");
    SaysReads(e, "qualification", "budget_signal", "unknown");
    SaysReads(e', "qualification", "budget_signal", "negative");
    SaysReads(e', "qualification", "budget_signal", "unknown");
    assert |"negative"| == 8 && |"unknown"| == 7;
  }

  lemma AnswersNoBetter(e: Json, n: int, b: Json, e': Json, n': int, b': Json)
    requires NoBetterAnswers(e, n, b, e', n', b')
    ensures NoBetter(FactsOf(e, n, b), FactsOf(e', n', b'))
  {
    FirstNoBetter(e, n, b, e', n', b');
    NoFewerSize(e, e', "deal_signals", "security_mentions");
    NoFewerSize(e, e', "deal_signals", "procurement_mentions");
    NoFewerSize(e, e', "deal_signals", "objections");
    BudgetNoWorse(e, e');
    SaysReads(e, "qualification", "authority_signal", "negative");
    SaysReads(e', "qualification", "authority_signal", "negative");
    SaysReads(e, "qualification", "timeline_signal", "negative");
    SaysReads(e', "qualification", "timeline_signal", "negative");
  }

  /** Making any answer of an extraction worse never lowers the score or the level. */
  lemma ScoreMonotone(e: Json, n: int, b: Json, score: int, factors: seq<string>,
        e': Json, n': int, b': Json, score': int, factors': seq<string>)
    requires Scored(e, n, b, score, factors) && Scored(e', n', b', score', factors')
    requires NoBetterAnswers(e, n, b, e', n', b')
    ensures score <= score' && Rank(RiskLevel(score)) <= Rank(RiskLevel(score'))
  {
    ScoredByRules(e, n, b, score, factors);
    ScoredByRules(e', n', b', score', factors');
    AnswersNoBetter(e, n, b, e', n', b');
    FactsMonotone(FactsOf(e, n, b), FactsOf(e', n', b'));
  }

  /** The level is the band of the score. */
  predicate LevelFits(score: int, level: Level) {
    && (level == Low <==> score <= 25) && (level == Medium <==> 25 < score <= 50)
    && (level == High <==> 50 < score <= 75) && (level == Critical <==> 75 < score)
  }

  /** The raw bound is reached, so the cap is not idle. */
  lemma CapIsReached()
    ensures exists f :: Total(Fired(f), f) == 121 && Score(f) == 100
  {
    var f := Facts(false, false, 1, true, true, 1, 1, Negative, true, true, 3);
    WorstUpTo(RULES, f);
    TotalIsContributions(RULES, f);
    MaxTotal();
    assert Total(Fired(f), f) == RAW_MAX;
  }

  lemma {:induction false} WorstUpTo(k: nat, f: Facts)
    requires f == Facts(false, false, 1, true, true, 1, 1, Negative, true, true, 3)
    ensures PointsUpTo(k, f) == MaxUpTo(k)
  {
    if k > 0 {
      WorstUpTo(k - 1, f);
      assert Contribution(k - 1, f) == RuleMax(k - 1);
    }
  }
}
