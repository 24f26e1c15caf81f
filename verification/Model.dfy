/** Rows, messages, workers and steps of the call-processing protocol. Fields
    marked "history" are not stored by the program; they record which step
    wrote a row so that properties can be stated. */
module Model {
  import opened Scoring
  import opened Transcripts

  datatype Option<+T> = None | Some(value: T)

  type Time = int
  type CallId = nat
  type DealId = nat
  type ContactId = nat
  type DeliveryId = nat
  type WorkerId = nat

  // ----- call sessions and provider events -----

  datatype Status =
    | Initiating | Queued | Ringing | InProgress | Completed | NoAnswer | Busy | Failed | Canceled

  datatype Processing =
    | Pending | TranscriptPartial | TranscriptFinalized | ExtractionRunning | ExtractionCompleted
    | SnapshotsUpdating | RiskRunning | RecommendationRunning | RecommendationCompleted
    | FailedRetryable | FailedTerminal

  datatype Call = Call(
    deal: DealId, contact: ContactId, providerId: Option<string>,
    status: Status, processing: Processing,
    startedAt: Option<Time>, endedAt: Option<Time>, duration: Option<int>, recording: Option<string>,
    redacted: bool, updatedAt: Time)

  /** The status entry of a payload: missing, a string, or a value that cannot
      be looked up in a dictionary. */
  datatype RawStatus = Absent | Word(word: string) | Unhashable

  datatype RawDuration = NoDuration | Seconds(n: int) | Malformed

  /** A provider payload; an empty string stands for a missing or falsy entry. */
  datatype Payload = Payload(
    eventId: string, id: string, executionId: string, status: RawStatus,
    transcript: string, duration: RawDuration, recording: string, digest: string)

  datatype EventType =
    | CallQueued | CallRinging | CallStarted | CallCompleted | CallBusy | CallNoAnswer | CallCanceled | CallFailed

  /** A logged event. `kind` is `None` for an unknown status. History: `delivery`,
      and `stored`, whether this event's transaction stored the transcript. */
  datatype Event = Event(kind: Option<EventType>, payload: Payload, createdAt: Time, delivery: DeliveryId, stored: bool)

  /** Utterance rows of a call, in sequence order; `batch` is the index of the
      event that stored them and stands for their row identities. */
  datatype Transcript = Transcript(batch: nat, turns: seq<Turn>)

  // ----- artifacts -----

  datatype Evidence = Evidence(field: string, quote: string, speaker: string, number: int)

  /** A validated extraction as the model returned it. */
  datatype Output = Output(json: Json, summary: string, evidence: seq<Evidence>)

  /** A stored snapshot; `evidence` is the evidence list inside its JSON. */
  datatype Extraction = Extraction(json: Json, summary: string, evidence: seq<Evidence>)

  /** An utterance row, by storing batch and sequence number. */
  datatype UtteranceId = UtteranceId(batch: nat, number: nat)

  /** `artifact` is the index of the extraction snapshot the anchor belongs to. */
  datatype Anchor = Anchor(artifact: nat, evidence: Evidence, utterance: Option<UtteranceId>)

  datatype DocType = CallSummary | ObjectionSummary | ProfileSummary | DealStateSummary | RationaleSummary

  /** A memory document; history: the run that wrote it. */
  datatype Doc = Doc(run: WorkerId, redacted: bool)

  /** One recommended action and one follow-up draft as the model returned them. */
  datatype Item = Item(action: string, reason: string, talkTrack: string)

  datatype DraftItem = DraftItem(kind: string, subject: string, body: string)

  datatype Advice = Advice(items: seq<Item>, drafts: seq<DraftItem>)

  /** The stored rows; an empty subject is stored as none. */
  datatype Recommendation = Recommendation(action: string, reason: string, payload: Json)

  datatype Draft = Draft(kind: string, subject: Option<string>, body: string)

  /** Everything stored under one call. */
  datatype CallFile = CallFile(
    row: Call, events: seq<Event>, transcript: Option<Transcript>,
    extractions: seq<Extraction>, anchors: seq<Anchor>,
    recommendations: seq<Recommendation>, drafts: seq<Draft>, docs: map<DocType, Doc>)

  // ----- deals -----

  datatype Coverage = NoCoverage | Partial | Full

  datatype Change = Increased(points: nat) | Decreased(points: nat) | Unchanged

  /** `change` is absent on a deal's first snapshot; `novel` are the new factors reported. */
  datatype RiskSnapshot = RiskSnapshot(
    call: CallId, score: int, level: Level, factors: seq<string>, change: Option<Change>, novel: set<string>)

  /** History: `team`, the stakeholders read when the coverage was computed. */
  datatype DealSnapshot = DealSnapshot(summary: string, coverage: Coverage, signals: Json, team: set<ContactId>)

  datatype Deal = Deal(score: Option<int>, level: Option<Level>, coverage: Option<Coverage>, summary: Option<string>)

  /** A deal row with its snapshots in commit order and its row lock. */
  datatype DealFile = DealFile(
    row: Deal, risks: seq<RiskSnapshot>, snapshots: seq<DealSnapshot>, lock: Option<WorkerId>)

  /** A stakeholder as one extraction described it. */
  datatype ContactSnapshot = ContactSnapshot(summary: string, role: Json, confidence: Json, sentiment: Json)

  datatype Contact = Contact(
    deal: DealId, role: Option<string>, confidence: Json, sentiment: Json,
    lastContacted: Option<Time>, snapshots: seq<ContactSnapshot>)

  /** The stakeholder's update: columns to set, and the snapshot to append. */
  datatype ContactUpdate = ContactUpdate(
    role: Option<string>, confidence: Option<Json>, sentiment: Option<Json>, snapshot: ContactSnapshot)

  /** What a risk worker has computed under the deal lock and is about to write. */
  datatype RiskResult = RiskResult(
    risk: RiskSnapshot, snapshot: DealSnapshot, target: Option<ContactId>, update: ContactUpdate)

  // ----- processes -----

  datatype Message = Extract(call: CallId) | Risk(call: CallId) | Recommend(call: CallId) | Memorize(call: CallId)

  /** A key with its expiry; history: the delivery that set it. */
  datatype KeyEntry = KeyEntry(expires: Time, owner: DeliveryId)

  /** `Enqueueing` has committed and still has the extraction message to send;
      `Releasing` still has its key to delete; `Dropped` stopped early and left its key. */
  datatype DeliveryPhase =
    | Acquired | Resolved(call: CallId) | Releasing | Enqueueing(call: CallId) | Committed | Released | Dropped

  datatype Delivery = Delivery(payload: Payload, key: string, acquiredAt: Time, phase: DeliveryPhase, logged: bool)

  datatype Stage = Extracting | RiskScoring | Advising | Memorizing

  datatype Phase =
    | Claimed
    | Loaded(transcript: Option<Transcript>)
    | Locked
    | Computed(result: RiskResult)
    | Ready
    | Built(docs: set<DocType>)
    | Stored(docs: set<DocType>)
    | Failing
    | Finished(next: Option<Message>)
    | Ended
    | Crashed

  /** A run of a stage. `Stored` is the end of a memory run whose batch was
      committed, with the document types it wrote. */
  datatype Worker = Worker(stage: Stage, call: CallId, claimedAt: Time, phase: Phase)

  datatype Sys = Sys(
    now: Time, ttl: nat,
    calls: map<CallId, CallFile>, deals: map<DealId, DealFile>, contacts: map<ContactId, Contact>,
    keys: map<string, KeyEntry>, deliveries: map<DeliveryId, Delivery>,
    workers: map<WorkerId, Worker>, sent: multiset<Message>)

  const STALE_AFTER := 60
}
