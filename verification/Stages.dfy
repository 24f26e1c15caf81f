/** What the post-call stages write: extraction artifacts, risk and coverage of
    a deal, recommendations and memory documents. */
module Stages {
  import opened Text
  import opened Scoring
  import opened Model

  // ----- claims -----

  function Running(stage: Stage): Processing {
    match stage
    case Extracting => ExtractionRunning
    case RiskScoring => SnapshotsUpdating
    case Advising => RecommendationRunning
    case Memorizing => Pending
  }

  predicate Stale(updatedAt: Time, now: Time) {
    now - updatedAt >= STALE_AFTER
  }

  /** Extraction: no takeover. Risk and recommendation: the previous stage's
      result, a retryable failure, or their own running state gone stale. */
  predicate Claimable(stage: Stage, row: Call, now: Time) {
    match stage
    case Extracting => row.processing in {TranscriptFinalized, FailedRetryable}
    case RiskScoring =>
      || row.processing in {ExtractionCompleted, FailedRetryable}
      || (row.processing == SnapshotsUpdating && Stale(row.updatedAt, now))
    case Advising =>
      || row.processing in {RiskRunning, FailedRetryable}
      || (row.processing == RecommendationRunning && Stale(row.updatedAt, now))
    case Memorizing => false
  }

  /** The extraction claim does not touch `updated_at`; the other two do. */
  function ClaimedRow(stage: Stage, row: Call, stamp: Time): Call {
    if stage == Extracting then row.(processing := ExtractionRunning)
    else row.(processing := Running(stage), updatedAt := stamp)
  }

  // ----- extraction -----

  function AnchorFor(t: Option<Transcript>, artifact: nat, ev: Evidence): Anchor {
    Anchor(artifact, ev,
           if t.Some? && 0 <= ev.number < |t.value.turns| then Some(UtteranceId(t.value.batch, ev.number)) else None)
  }

  function AnchorsFor(t: Option<Transcript>, artifact: nat, evidence: seq<Evidence>): (anchors: seq<Anchor>)
    ensures |anchors| == |evidence|
    ensures forall i :: 0 <= i < |anchors| ==> anchors[i] == AnchorFor(t, artifact, evidence[i])
  {
    seq(|evidence|, i requires 0 <= i < |evidence| => AnchorFor(t, artifact, evidence[i]))
  }

  /** The committed extraction: snapshot, anchors and status in one transaction. */
  function Extracted(f: CallFile, out: Output, loaded: Option<Transcript>): CallFile {
    f.(extractions := f.extractions + [Extraction(out.json, out.summary, out.evidence)],
       anchors := f.anchors + AnchorsFor(loaded, |f.extractions|, out.evidence),
       row := f.row.(processing := ExtractionCompleted))
  }

  /** Every utterance an anchor would reference is still stored. */
  predicate LinksExist(f: CallFile, loaded: Option<Transcript>, evidence: seq<Evidence>) {
    forall i :: 0 <= i < |evidence| && AnchorFor(loaded, 0, evidence[i]).utterance.Some? ==>
      f.transcript.Some? && f.transcript.value.batch == loaded.value.batch
  }

  // ----- risk -----

  function Latest<T>(s: seq<T>): Option<T> {
    if s == [] then None else Some(s[|s| - 1])
  }

  function Team(contacts: map<ContactId, Contact>, d: DealId): set<ContactId> {
    set k | k in contacts && contacts[k].deal == d
  }

  predicate Contacted(contacts: map<ContactId, Contact>, k: ContactId) {
    k in contacts && contacts[k].lastContacted.Some?
  }

  /** Coverage of a team once its member `target` counts as contacted. */
  function CoverageOf(contacts: map<ContactId, Contact>, team: set<ContactId>, target: Option<ContactId>): Coverage {
    var reached := set k | k in team && (Contacted(contacts, k) || target == Some(k));
    if team == {} then NoCoverage
    else if |reached| >= |team| then Full
    else if |reached| > 0 then Partial
    else NoCoverage
  }

  /** `extracted.get(section, {})` is usable as a dictionary. */
  predicate SectionOk(e: Json, section: string) {
    e.Obj? && (section in e.fields ==> e.fields[section].Obj?)
  }

  predicate RiskReadable(e: Json) {
    SectionOk(e, "stakeholder") && SectionOk(e, "interaction")
  }

  function RoleLabel(e: Json): Json {
    Field(Field(e, "stakeholder"), "role_label")
  }

  const BUYER := "economic_buyer"

  predicate HasBuyer(contacts: map<ContactId, Contact>, team: set<ContactId>, e: Json) {
    (exists k :: k in team && k in contacts && contacts[k].role == Some(BUYER)) || RoleLabel(e) == Str(BUYER)
  }

  /** The role the extraction assigns, unless it is blank or unknown. */
  function NewRole(e: Json): Option<string> {
    var r := RoleLabel(e);
    if r.Str? && !Blank(r.s) && r.s != "unknown" then Some(r.s) else None
  }

  /** The stakeholder columns an extraction sets. The confidence goes with the
      role; the sentiment is set when there is one. */
  function UpdateFrom(ext: Extraction): ContactUpdate {
    var role := NewRole(ext.json);
    var confidence := Field(Field(ext.json, "stakeholder"), "role_confidence");
    var sentiment := Field(Field(ext.json, "interaction"), "sentiment");
    ContactUpdate(
      role,
      if role.Some? && confidence != Null then Some(confidence) else None,
      if Truthy(sentiment) then Some(sentiment) else None,
      ContactSnapshot(ext.summary, RoleLabel(ext.json), confidence, sentiment))
  }

  function Refreshed(k: Contact, u: ContactUpdate, stamp: Time): Contact {
    k.(lastContacted := Some(stamp), snapshots := k.snapshots + [u.snapshot],
       role := if u.role.Some? then u.role else k.role,
       confidence := if u.confidence.Some? then u.confidence.value else k.confidence,
       sentiment := if u.sentiment.Some? then u.sentiment.value else k.sentiment)
  }

  /** `extracted.get("deal_signals", {})`. */
  function SignalsOf(e: Json): Json {
    if e.Obj? && "deal_signals" in e.fields then e.fields["deal_signals"] else Obj(map[])
  }

  function ChangeFrom(prev: Option<RiskSnapshot>, score: int): Option<Change> {
    if prev.None? then None
    else if score > prev.value.score then Some(Increased(score - prev.value.score))
    else if score < prev.value.score then Some(Decreased(prev.value.score - score))
    else Some(Unchanged)
  }

  function ToSet<T>(s: seq<T>): set<T> {
    set x | x in s
  }

  function NovelFrom(prev: Option<RiskSnapshot>, factors: seq<string>): set<string> {
    if prev.None? then {} else ToSet(factors) - ToSet(prev.value.factors)
  }

  function FactsFor(contacts: map<ContactId, Contact>, d: DealId, e: Json): Facts {
    var team := Team(contacts, d);
    FactsOf(e, |team|, Bool(HasBuyer(contacts, team, e)))
  }

  /** What a risk run computes from the extraction, the stakeholders and the
      deal's previous snapshot. */
  function RiskOf(contacts: map<ContactId, Contact>, c: CallId, row: Call, ext: Extraction,
                  prev: Option<RiskSnapshot>): RiskResult {
    var team := Team(contacts, row.deal);
    var facts := FactsFor(contacts, row.deal, ext.json);
    var score := Score(facts);
    var target := if row.contact in team then Some(row.contact) else None;
    RiskResult(
      RiskSnapshot(c, score, RiskLevel(score), Factors(facts),
                   ChangeFrom(prev, score), NovelFrom(prev, Factors(facts))),
      DealSnapshot(ext.summary, CoverageOf(contacts, team, target), SignalsOf(ext.json), team),
      target,
      UpdateFrom(ext))
  }

  function DealUpdated(f: DealFile, r: RiskResult): DealFile {
    DealFile(Deal(Some(r.risk.score), Some(r.risk.level), Some(r.snapshot.coverage), Some(r.snapshot.summary)),
             f.risks + [r.risk], f.snapshots + [r.snapshot], None)
  }

  // ----- recommendation and memory -----

  /** The stored row of one recommended action. */
  function RowFor(item: Item): Recommendation {
    Recommendation(item.action, item.reason, Obj(map["talk_track" := Str(item.talkTrack)]))
  }

  function DraftFor(item: DraftItem): Draft {
    Draft(item.kind, if item.subject == "" then None else Some(item.subject), item.body)
  }

  function RowsFor(items: seq<Item>): (rows: seq<Recommendation>)
    ensures |rows| == |items|
    ensures forall i :: 0 <= i < |rows| ==> rows[i] == RowFor(items[i])
  {
    seq(|items|, i requires 0 <= i < |items| => RowFor(items[i]))
  }

  function DraftsFor(items: seq<DraftItem>): (rows: seq<Draft>)
    ensures |rows| == |items|
    ensures forall i :: 0 <= i < |rows| ==> rows[i] == DraftFor(items[i])
  {
    seq(|items|, i requires 0 <= i < |items| => DraftFor(items[i]))
  }

  function Advised(f: CallFile, advice: Advice, stamp: Time): CallFile {
    f.(recommendations := f.recommendations + RowsFor(advice.items),
       drafts := f.drafts + DraftsFor(advice.drafts),
       row := f.row.(processing := RecommendationCompleted, updatedAt := stamp))
  }

  /** The documents of one memory run. The deal state is always among them. */
  function DocsFor(ext: Extraction, risk: Option<RiskSnapshot>, hasContact: bool): set<DocType> {
    var sh := Field(ext.json, "stakeholder");
    {DealStateSummary}
    + (if ext.summary != "" then {CallSummary} else {})
    + (if Truthy(Field(Field(ext.json, "deal_signals"), "objections")) then {ObjectionSummary} else {})
    + (if hasContact && Truthy(sh) then {ProfileSummary} else {})
    + (if risk.Some? && risk.value.factors != [] then {RationaleSummary} else {})
  }

  /** Inserting a batch under the unique index on (call, document type). */
  predicate BatchFits(f: CallFile, docs: set<DocType>) {
    forall t :: t in docs ==> t !in f.docs
  }

  function WithDocs(f: CallFile, run: WorkerId, docs: set<DocType>): CallFile {
    f.(docs := f.docs + map t | t in docs :: Doc(run, false))
  }

  // ----- redaction -----

  const REDACTED := "[REDACTED]"
  const REDACTED_JSON := Obj(map["redacted" := Bool(true)])

  function RedactedDocs(docs: map<DocType, Doc>): map<DocType, Doc> {
    map t | t in docs :: docs[t].(redacted := true)
  }

  function ScrubAnchors(anchors: seq<Anchor>): seq<Anchor> {
    seq(|anchors|, i requires 0 <= i < |anchors| =>
      anchors[i].(utterance := None, evidence := anchors[i].evidence.(quote := REDACTED)))
  }

  function ScrubExtractions(extractions: seq<Extraction>): seq<Extraction> {
    seq(|extractions|, i => Extraction(REDACTED_JSON, REDACTED, []))
  }

  /** The action type and the draft type stay. */
  function ScrubRecommendations(rows: seq<Recommendation>): (r: seq<Recommendation>)
    ensures |r| == |rows|
    ensures forall i :: 0 <= i < |r| ==> r[i] == Recommendation(rows[i].action, REDACTED, REDACTED_JSON)
  {
    seq(|rows|, i requires 0 <= i < |rows| => Recommendation(rows[i].action, REDACTED, REDACTED_JSON))
  }

  function ScrubDrafts(rows: seq<Draft>): (r: seq<Draft>)
    ensures |r| == |rows|
    ensures forall i :: 0 <= i < |r| ==> r[i] == Draft(rows[i].kind, Some(REDACTED), REDACTED)
  {
    seq(|rows|, i requires 0 <= i < |rows| => Draft(rows[i].kind, Some(REDACTED), REDACTED))
  }

  /** Scrubs everything derived from a call's transcript. */
  function Redacted(f: CallFile, stamp: Time): CallFile {
    f.(transcript := None,
       anchors := ScrubAnchors(f.anchors),
       extractions := ScrubExtractions(f.extractions),
       docs := RedactedDocs(f.docs),
       recommendations := ScrubRecommendations(f.recommendations),
       drafts := ScrubDrafts(f.drafts),
       row := f.row.(redacted := true, recording := None, updatedAt := stamp))
  }

  /** Ended before the cutoff and not yet redacted. */
  predicate Expired(row: Call, cutoff: Time) {
    row.endedAt.Some? && row.endedAt.value < cutoff && !row.redacted
  }

  /** One batch redaction of a set of calls. */
  function RedactAll(calls: map<CallId, CallFile>, ids: set<CallId>, stamp: Time): map<CallId, CallFile> {
    map c | c in calls :: if c in ids then Redacted(calls[c], stamp) else calls[c]
  }

  function ExpiredCalls(calls: map<CallId, CallFile>, cutoff: Time): set<CallId> {
    set c | c in calls && Expired(calls[c].row, cutoff)
  }
}
