/** Deterministic risk scoring as functions: nested lookup, eleven additive
    rules, a cap, and the mapping from scores to level labels. */
module Scoring {
  import opened Text

  /** A decoded JSON value; `Null` also stands for Python's `None`. */
  datatype Json =
    | Null
    | Bool(b: bool)
    | Num(n: real)
    | Str(s: string)
    | Arr(items: seq<Json>)
    | Obj(fields: map<string, Json>)

  datatype Level = Low | Medium | High | Critical

  const MAX_SCORE := 100
  const OBJECTION_SUFFIX := " unresolved objection(s)"

  predicate Truthy(j: Json) {
    match j
    case Null => false
    case Bool(b) => b
    case Num(n) => n != 0.0
    case Str(s) => s != ""
    case Arr(items) => items != []
    case Obj(fields) => fields != map[]
  }

  function Field(j: Json, key: string): Json {
    if j.Obj? && key in j.fields then j.fields[key] else Null
  }

  function Lookup(j: Json, keys: seq<string>): Json
    decreases |keys|
  {
    if keys == [] then j else Lookup(Field(j, keys[0]), keys[1..])
  }

  // ----- what the rules look at -----

  datatype Signal = Clear | Unknown | Negative

  /** The answers the rules need from one extraction. */
  datatype Facts = Facts(
    nextStep: bool, buyer: bool, stakeholders: int,
    negativeSentiment: bool, lowEngagement: bool,
    security: nat, procurement: nat,
    budget: Signal, negativeAuthority: bool, negativeTimeline: bool,
    objections: nat)

  predicate Committed(v: Json) {
    Truthy(v) && (v.Str? ==> !Blank(v.s))
  }

  predicate Says(v: Json, word: string) {
    v.Str? && v.s == word
  }

  function Size(v: Json): nat {
    if v.Arr? then |v.items| else 0
  }

  function SignalOf(v: Json): Signal {
    if Says(v, "negative") then Negative else if Says(v, "unknown") then Unknown else Clear
  }

  /** `buyer` is the caller's answer when it gave one; otherwise the extracted role decides. */
  function FactsOf(e: Json, stakeholders: int, buyer: Json): Facts {
    Facts(Committed(Lookup(e, ["deal_signals", "next_step"])),
          if buyer.Bool? then buyer.b else Says(Lookup(e, ["stakeholder", "role_label"]), "economic_buyer"),
          stakeholders,
          Says(Lookup(e, ["interaction", "sentiment"]), "negative"),
          Says(Lookup(e, ["interaction", "engagement_level"]), "low"),
          Size(Lookup(e, ["deal_signals", "security_mentions"])),
          Size(Lookup(e, ["deal_signals", "procurement_mentions"])),
          SignalOf(Lookup(e, ["qualification", "budget_signal"])),
          Says(Lookup(e, ["qualification", "authority_signal"]), "negative"),
          Says(Lookup(e, ["qualification", "timeline_signal"]), "negative"),
          Size(Lookup(e, ["deal_signals", "objections"])))
  }

  // ----- the rules -----

  const RULES := 11

  predicate Fires(k: nat, f: Facts) {
    match k
    case 0 => !f.nextStep
    case 1 => !f.buyer
    case 2 => f.stakeholders <= 1
    case 3 => f.negativeSentiment
    case 4 => f.lowEngagement
    case 5 => f.security > 0
    case 6 => f.procurement > 0
    case 7 => f.budget != Clear
    case 8 => f.negativeAuthority
    case 9 => f.negativeTimeline
    case _ => f.objections > 0
  }

  function Points(k: nat, f: Facts): nat {
    match k
    case 0 => 15 case 1 => 15 case 2 => 10 case 3 => 12 case 4 => 8
    case 5 => 10 case 6 => 8
    case 7 => if f.budget == Negative then 10 else 5
    case 8 => 8 case 9 => 10
    case _ => if f.objections * 5 < 15 then f.objections * 5 else 15
  }

  function Description(k: nat, f: Facts): string {
    match k
    case 0 => "No committed next step"
    case 1 => "No economic buyer identified"
    case 2 => "Single-threaded account"
    case 3 => "Negative sentiment detected"
    case 4 => "Low engagement level"
    case 5 => "Security or compliance blocker raised"
    case 6 => "Procurement process blocker"
    case 7 => if f.budget == Negative then "Negative budget signal" else "Budget signal unclear"
    case 8 => "Negative authority signal"
    case 9 => "Timeline slippage signal"
    case _ => Decimal(f.objections) + OBJECTION_SUFFIX
  }

  /** The rules among the first `k` that fire, in rule order. */
  function FiredUpTo(k: nat, f: Facts): seq<nat> {
    if k == 0 then []
    else if Fires(k - 1, f) then FiredUpTo(k - 1, f) + [k - 1]
    else FiredUpTo(k - 1, f)
  }

  function Fired(f: Facts): seq<nat> {
    FiredUpTo(RULES, f)
  }

  function Total(rules: seq<nat>, f: Facts): nat
    decreases |rules|
  {
    if rules == [] then 0 else Total(rules[..|rules| - 1], f) + Points(rules[|rules| - 1], f)
  }

  function Names(rules: seq<nat>, f: Facts): (names: seq<string>)
    ensures |names| == |rules|
  {
    seq(|rules|, i requires 0 <= i < |rules| => Description(rules[i], f))
  }

  function Capped(points: int): int {
    if points < MAX_SCORE then points else MAX_SCORE
  }

  function Score(f: Facts): int {
    Capped(Total(Fired(f), f))
  }

  function Factors(f: Facts): seq<string> {
    Names(Fired(f), f)
  }

  function RiskLevel(score: int): Level {
    if score <= 25 then Low
    else if score <= 50 then Medium
    else if score <= 75 then High
    else Critical
  }

  function Rank(l: Level): nat {
    match l case Low => 0 case Medium => 1 case High => 2 case Critical => 3
  }
}
