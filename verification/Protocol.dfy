/** The call-processing protocol as a transition system. Every step is one
    atomic effect: a Redis command, a committed or aborted transaction, a sent
    message, a crash, or the passing of time. A message once sent may be
    delivered any number of times. */
module Protocol {
  import opened Scoring
  import opened Model
  import opened Ingestion
  import opened Stages

  datatype ApiStep =
    | Tick(dt: nat)
    | AddDeal(d: DealId)
    | AddContact(k: ContactId, d: DealId)
    | CreateCall(c: CallId, d: DealId, k: ContactId)
    | PlaceCall(c: CallId, providerId: string)
    | RefuseCall(c: CallId)
    | Redact(c: CallId, stamp: Time)
    | Sweep(cutoff: Time, stamp: Time)

  /** `Raise` stands for an exception outside the guarded transaction: from the
      lookup, or from a status that cannot be looked up. `Drop` stands for a crash. */
  datatype IngestStep =
    | Deliver(id: DeliveryId, payload: Payload)
    | Resolve(id: DeliveryId, c: CallId)
    | Unresolved(id: DeliveryId)
    | CommitEvent(id: DeliveryId, stamp: Time, conflict: bool)
    | AbortEvent(id: DeliveryId)
    | ReleaseKey(id: DeliveryId)
    | EnqueueExtraction(id: DeliveryId)
    | Raise(id: DeliveryId)
    | Drop(id: DeliveryId)

  /** `Claim` stands for the three claim transactions, `FailStage` for an
      exception's rollback, `WriteFailure` for the status write after it. */
  datatype WorkStep =
    | Claim(w: WorkerId, stage: Stage, c: CallId, stamp: Time)
    | LoadTranscript(w: WorkerId)
    | CommitExtraction(w: WorkerId, out: Output)
    | FailExtraction(w: WorkerId, terminal: bool)
    | LockDeal(w: WorkerId)
    | ComputeRisk(w: WorkerId)
    | CommitRisk(w: WorkerId, stamp: Time)
    | FindNoExtraction(w: WorkerId, stamp: Time)
    | LoadContext(w: WorkerId)
    | FindNoContext(w: WorkerId, stamp: Time)
    | CommitAdvice(w: WorkerId, advice: Advice, stamp: Time)
    | FailStage(w: WorkerId)
    | WriteFailure(w: WorkerId, stamp: Time)
    | StartMemory(w: WorkerId, c: CallId)
    | BuildDocs(w: WorkerId)
    | CommitDocs(w: WorkerId)
    | SendNext(w: WorkerId)
    | Crash(w: WorkerId)

  datatype Step = Api(a: ApiStep) | Ingest(i: IngestStep) | Work(x: WorkStep)

  // ----- initial state -----

  ghost predicate Init(s: Sys) {
    && s.calls == map[] && s.deals == map[] && s.contacts == map[]
    && s.keys == map[] && s.deliveries == map[] && s.workers == map[] && s.sent == multiset{}
  }

  function NewCall(d: DealId, k: ContactId, now: Time): CallFile {
    CallFile(Call(d, k, None, Initiating, Pending, None, None, None, None, false, now), [], None, [], [], [], [], map[])
  }

  const NEW_DEAL := DealFile(Deal(None, None, None, None), [], [], None)

  // ----- api steps -----

  predicate AwaitsProvider(s: Sys, c: CallId) {
    c in s.calls && s.calls[c].row.providerId.None? && s.calls[c].row.status == Initiating
  }

  predicate ApiEnabled(s: Sys, a: ApiStep) {
    match a
    case Tick(dt) => true
    case AddDeal(d) => d !in s.deals
    case AddContact(k, d) => k !in s.contacts && d in s.deals
    case CreateCall(c, d, k) => c !in s.calls && d in s.deals && k in s.contacts && s.contacts[k].deal == d
    case PlaceCall(c, providerId) =>
      && AwaitsProvider(s, c) && providerId != ""
      && (forall b :: b in s.calls ==> s.calls[b].row.providerId != Some(providerId))
    case RefuseCall(c) => AwaitsProvider(s, c)
    case Redact(c, stamp) => c in s.calls && stamp <= s.now
    case Sweep(cutoff, stamp) => cutoff <= stamp <= s.now
  }

  function SetRow(s: Sys, c: CallId, row: Call): Sys
    requires c in s.calls
  {
    s.(calls := s.calls[c := s.calls[c].(row := row)])
  }

  function ApplyApi(s: Sys, a: ApiStep): Sys
    requires ApiEnabled(s, a)
  {
    match a
    case Tick(dt) => s.(now := s.now + dt)
    case AddDeal(d) => s.(deals := s.deals[d := NEW_DEAL])
    case AddContact(k, d) => s.(contacts := s.contacts[k := Contact(d, None, Null, Null, None, [])])
    case CreateCall(c, d, k) => s.(calls := s.calls[c := NewCall(d, k, s.now)])
    case PlaceCall(c, providerId) =>
      SetRow(s, c, s.calls[c].row.(providerId := Some(providerId), status := Queued))
    case RefuseCall(c) => SetRow(s, c, s.calls[c].row.(status := Failed))
    case Redact(c, stamp) => s.(calls := s.calls[c := Redacted(s.calls[c], stamp)])
    case Sweep(cutoff, stamp) => s.(calls := RedactAll(s.calls, ExpiredCalls(s.calls, cutoff), stamp))
  }

  /** The state a step leads to, if it may happen. */
  function NextApi(s: Sys, a: ApiStep): Option<Sys> {
    if ApiEnabled(s, a) then Some(ApplyApi(s, a)) else None
  }

  predicate ApiTo(s: Sys, a: ApiStep, s': Sys) {
    NextApi(s, a) == Some(s')
  }

  // ----- ingestion steps -----

  predicate KeyLive(s: Sys, k: string) {
    k in s.keys && s.now < s.keys[k].expires
  }

  predicate At(s: Sys, id: DeliveryId, phase: DeliveryPhase) {
    id in s.deliveries && s.deliveries[id].phase == phase
  }

  predicate Matches(s: Sys, c: CallId, p: Payload) {
    Belongs(s.calls, c, ExecutionId(p))
  }

  /** The unique index decides the insert: rows present clash; rows absent do
      not, unless a redaction removed them while the transaction ran. */
  predicate ConflictPossible(f: CallFile, conflict: bool) {
    if f.transcript.Some? then conflict else conflict ==> f.row.redacted
  }

  predicate IngestEnabled(s: Sys, i: IngestStep) {
    var id := i.id;
    match i
    case Deliver(_, p) => id !in s.deliveries
    case Resolve(_, c) => At(s, id, Acquired) && Matches(s, c, s.deliveries[id].payload)
    case Unresolved(_) =>
      At(s, id, Acquired) && forall c :: c in s.calls ==> !Matches(s, c, s.deliveries[id].payload)
    case CommitEvent(_, stamp, conflict) =>
      && id in s.deliveries && s.deliveries[id].phase.Resolved? && s.deliveries[id].phase.call in s.calls
      && stamp <= s.now && !s.deliveries[id].payload.status.Unhashable?
      && Projectable(s.deliveries[id].payload)
      && ConflictPossible(s.calls[s.deliveries[id].phase.call], conflict)
    case AbortEvent(_) =>
      id in s.deliveries && s.deliveries[id].phase.Resolved? && !s.deliveries[id].payload.status.Unhashable?
    case ReleaseKey(_) => At(s, id, Releasing)
    case EnqueueExtraction(_) => id in s.deliveries && s.deliveries[id].phase.Enqueueing?
    case Raise(_) =>
      && id in s.deliveries
      && ((s.deliveries[id].phase == Acquired && ExecutionId(s.deliveries[id].payload) != "")
          || (s.deliveries[id].phase.Resolved? && s.deliveries[id].payload.status.Unhashable?))
    case Drop(_) =>
      id in s.deliveries && (s.deliveries[id].phase in {Acquired, Releasing}
                             || s.deliveries[id].phase.Resolved? || s.deliveries[id].phase.Enqueueing?)
  }

  function SetPhase(s: Sys, id: DeliveryId, phase: DeliveryPhase): Sys
    requires id in s.deliveries
  {
    s.(deliveries := s.deliveries[id := s.deliveries[id].(phase := phase)])
  }

  /** SET NX EX: a live key makes the delivery a duplicate, which changes nothing. */
  function DoDeliver(s: Sys, id: DeliveryId, p: Payload): Sys {
    var key := KeyOf(p);
    if KeyLive(s, key) then s
    else
      s.(keys := s.keys[key := KeyEntry(s.now + s.ttl, id)],
         deliveries := s.deliveries[id := Delivery(p, key, s.now, Acquired, false)])
  }

  function DoCommitEvent(s: Sys, id: DeliveryId, stamp: Time, conflict: bool): Sys
    requires IngestEnabled(s, CommitEvent(id, stamp, conflict))
  {
    var d := s.deliveries[id];
    var c := d.phase.call;
    var phase := if Stores(s.calls[c], d.payload, conflict) then Enqueueing(c) else Committed;
    s.(calls := s.calls[c := Logged(s.calls[c], d.payload, id, stamp, conflict)],
       deliveries := s.deliveries[id := d.(phase := phase, logged := true)])
  }

  function ApplyIngest(s: Sys, i: IngestStep): Sys
    requires IngestEnabled(s, i)
  {
    var id := i.id;
    match i
    case Deliver(_, p) => DoDeliver(s, id, p)
    case Resolve(_, c) => SetPhase(s, id, Resolved(c))
    case Unresolved(_) => SetPhase(s, id, Releasing)
    case CommitEvent(_, stamp, conflict) => DoCommitEvent(s, id, stamp, conflict)
    case AbortEvent(_) => SetPhase(s, id, Releasing)
    case ReleaseKey(_) => SetPhase(s, id, Released).(keys := s.keys - {s.deliveries[id].key})
    case EnqueueExtraction(_) =>
      SetPhase(s, id, Committed).(sent := s.sent + multiset{Extract(s.deliveries[id].phase.call)})
    case Raise(_) => SetPhase(s, id, Dropped)
    case Drop(_) => SetPhase(s, id, if s.deliveries[id].phase.Enqueueing? then Committed else Dropped)
  }

  function NextIngest(s: Sys, i: IngestStep): Option<Sys> {
    if IngestEnabled(s, i) then Some(ApplyIngest(s, i)) else None
  }

  predicate IngestTo(s: Sys, i: IngestStep, s': Sys) {
    NextIngest(s, i) == Some(s')
  }

  // ----- stage steps -----

  function MessageFor(stage: Stage, c: CallId): Message {
    match stage
    case Extracting => Extract(c) case RiskScoring => Risk(c)
    case Advising => Recommend(c) case Memorizing => Memorize(c)
  }

  /** A worker that has not stopped. */
  predicate Busy(p: Phase) {
    !p.Ended? && !p.Stored? && !p.Crashed?
  }

  /** The call, its deal and its stakeholder exist. */
  predicate Present(s: Sys, c: CallId) {
    c in s.calls && s.calls[c].row.deal in s.deals && s.calls[c].row.contact in s.contacts
  }

  function CallOf(s: Sys, x: WorkStep): CallId
    requires x.Claim? || x.StartMemory? || x.w in s.workers
  {
    if x.Claim? || x.StartMemory? then x.c else s.workers[x.w].call
  }

  function LastOf<T>(s: seq<T>): T
    requires s != []
  {
    s[|s| - 1]
  }

  predicate ClaimEnabled(s: Sys, w: WorkerId, stage: Stage, c: CallId, stamp: Time) {
    && w !in s.workers && Present(s, c) && stamp <= s.now
    && stage != Memorizing && MessageFor(stage, c) in s.sent && Claimable(stage, s.calls[c].row, s.now)
  }

  predicate StartEnabled(s: Sys, w: WorkerId, c: CallId) {
    w !in s.workers && Present(s, c) && Memorize(c) in s.sent && s.calls[c].docs == map[]
  }

  predicate WorkEnabled(s: Sys, x: WorkStep) {
    if x.Claim? then ClaimEnabled(s, x.w, x.stage, x.c, x.stamp)
    else if x.StartMemory? then StartEnabled(s, x.w, x.c)
    else x.w in s.workers && Present(s, s.workers[x.w].call) && CallEnabled(s, x, s.workers[x.w])
  }

  predicate CallEnabled(s: Sys, x: WorkStep, wk: Worker)
    requires !x.Claim? && !x.StartMemory? && Present(s, wk.call)
  {
    PhaseEnabled(s, x, wk, s.calls[wk.call], s.deals[s.calls[wk.call].row.deal])
  }

  /** When a step may happen, given the worker, the call's file, its deal's file,
      and the rest of the state. */
  predicate PhaseEnabled(s: Sys, x: WorkStep, wk: Worker, f: CallFile, d: DealFile)
    requires !x.Claim? && !x.StartMemory?
  {
    var p := wk.phase;
    match x
    case LoadTranscript(_) => wk.stage == Extracting && p == Claimed
    case CommitExtraction(_, out) =>
      wk.stage == Extracting && p.Loaded? && p.transcript.Some? && LinksExist(f, p.transcript, out.evidence)
    case FailExtraction(_, terminal) =>
      wk.stage == Extracting && p.Loaded? && (terminal ==> p.transcript.Some?)
    case LockDeal(_) => wk.stage == RiskScoring && p == Claimed && d.lock.None?
    case ComputeRisk(_) =>
      wk.stage == RiskScoring && p == Locked && f.extractions != [] && RiskReadable(LastOf(f.extractions).json)
    case CommitRisk(_, stamp) => wk.stage == RiskScoring && p.Computed? && stamp <= s.now
    case FindNoExtraction(_, stamp) => wk.stage == RiskScoring && p == Locked && stamp <= s.now && f.extractions == []
    case LoadContext(_) => wk.stage == Advising && p == Claimed && f.extractions != [] && d.risks != []
    case FindNoContext(_, stamp) =>
      wk.stage == Advising && p == Claimed && stamp <= s.now && (f.extractions == [] || d.risks == [])
    case CommitAdvice(_, advice, stamp) => wk.stage == Advising && p == Ready && stamp <= s.now
    case FailStage(_) =>
      && wk.stage in {RiskScoring, Advising}
      && (p in {Claimed, Locked, Ready} || p.Computed?)
    case WriteFailure(_, stamp) => wk.stage in {RiskScoring, Advising} && p == Failing && stamp <= s.now
    case BuildDocs(_) => wk.stage == Memorizing && p == Claimed
    case CommitDocs(_) => wk.stage == Memorizing && p.Built?
    case SendNext(_) => p.Finished?
    case Crash(_) => Busy(p)
  }

  /** The rows one stage step leaves: the call's file, the worker, the deal's
      file and the stakeholder, and the messages it sends. */
  datatype Effect = Effect(file: CallFile, worker: Worker, deal: DealFile, contact: Contact, send: multiset<Message>)

  /** A status-only transaction: it ends the worker. */
  function StatusWritten(f: CallFile, p: Processing, updatedAt: Time): CallFile {
    f.(row := f.row.(processing := p, updatedAt := updatedAt))
  }

  /** Ending a transaction releases the deal lock if the worker holds it. */
  function Unlocked(d: DealFile, w: WorkerId): DealFile {
    if d.lock == Some(w) then d.(lock := None) else d
  }

  function Touched(k: Contact, id: ContactId, r: RiskResult, stamp: Time): Contact {
    if r.target == Some(id) then Refreshed(k, r.update, stamp) else k
  }

  function ClaimEffect(s: Sys, stage: Stage, c: CallId, stamp: Time): Effect
    requires Present(s, c)
  {
    var f := s.calls[c];
    Effect(f.(row := ClaimedRow(stage, f.row, stamp)), Worker(stage, c, s.now, Claimed),
           s.deals[f.row.deal], s.contacts[f.row.contact], multiset{})
  }

  function StartEffect(s: Sys, c: CallId): Effect
    requires Present(s, c)
  {
    var f := s.calls[c];
    Effect(f, Worker(Memorizing, c, s.now, Claimed), s.deals[f.row.deal], s.contacts[f.row.contact], multiset{})
  }

  function DocsBuilt(f: CallFile, d: DealFile): Phase {
    if f.extractions == [] then Ended else Built(DocsFor(LastOf(f.extractions), Latest(d.risks), true))
  }

  function PhaseEffect(s: Sys, x: WorkStep, wk: Worker, f: CallFile, d: DealFile, k: Contact): Effect
    requires !x.Claim? && !x.StartMemory? && PhaseEnabled(s, x, wk, f, d)
  {
    var none := multiset{};
    var p, c, w := wk.phase, wk.call, x.w;
    match x
    case LoadTranscript(_) => Effect(f, wk.(phase := Loaded(f.transcript)), d, k, none)
    case CommitExtraction(_, out) =>
      Effect(Extracted(f, out, p.transcript), wk.(phase := Finished(Some(Risk(c)))), d, k, none)
    case FailExtraction(_, terminal) =>
      var status := if terminal then FailedTerminal else FailedRetryable;
      Effect(StatusWritten(f, status, f.row.updatedAt), wk.(phase := Ended), d, k, none)
    case LockDeal(_) => Effect(f, wk.(phase := Locked), d.(lock := Some(w)), k, none)
    case ComputeRisk(_) =>
      var result := RiskOf(s.contacts, c, f.row, LastOf(f.extractions), Latest(d.risks));
      Effect(f, wk.(phase := Computed(result)), d, k, none)
    case CommitRisk(_, stamp) =>
      Effect(StatusWritten(f, RiskRunning, stamp), wk.(phase := Finished(Some(Recommend(c)))),
             DealUpdated(d, p.result), Touched(k, f.row.contact, p.result, stamp), none)
    case FindNoExtraction(_, stamp) =>
      Effect(StatusWritten(f, FailedRetryable, stamp), wk.(phase := Ended), Unlocked(d, w), k, none)
    case LoadContext(_) => Effect(f, wk.(phase := Ready), d, k, none)
    case FindNoContext(_, stamp) => Effect(StatusWritten(f, FailedRetryable, stamp), wk.(phase := Ended), d, k, none)
    case CommitAdvice(_, advice, stamp) =>
      var next := if advice.items != [] then Some(Memorize(c)) else None;
      Effect(Advised(f, advice, stamp), wk.(phase := Finished(next)), d, k, none)
    case FailStage(_) => Effect(f, wk.(phase := Failing), Unlocked(d, w), k, none)
    case WriteFailure(_, stamp) => Effect(StatusWritten(f, FailedRetryable, stamp), wk.(phase := Ended), d, k, none)
    case BuildDocs(_) => Effect(f, wk.(phase := DocsBuilt(f, d)), d, k, none)
    case CommitDocs(_) =>
      if BatchFits(f, p.docs) then Effect(WithDocs(f, w, p.docs), wk.(phase := Stored(p.docs)), d, k, none)
      else Effect(f, wk.(phase := Ended), d, k, none)
    case SendNext(_) =>
      Effect(f, wk.(phase := Ended), d, k, if p.next.Some? then multiset{p.next.value} else none)
    case Crash(_) => Effect(f, wk.(phase := Crashed), Unlocked(d, w), k, none)
  }

  /** What a step of a started worker writes, if the step may happen. */
  function NextPhase(s: Sys, x: WorkStep, wk: Worker, f: CallFile, d: DealFile, k: Contact): Option<Effect> {
    if !x.Claim? && !x.StartMemory? && PhaseEnabled(s, x, wk, f, d) then Some(PhaseEffect(s, x, wk, f, d, k)) else None
  }

  predicate PhaseTo(s: Sys, x: WorkStep, wk: Worker, f: CallFile, d: DealFile, k: Contact, e: Effect) {
    NextPhase(s, x, wk, f, d, k) == Some(e)
  }

  function EffectOf(s: Sys, x: WorkStep): Effect
    requires WorkEnabled(s, x)
  {
    if x.Claim? then ClaimEffect(s, x.stage, x.c, x.stamp)
    else if x.StartMemory? then StartEffect(s, x.c)
    else CallEffect(s, x, s.workers[x.w])
  }

  function CallEffect(s: Sys, x: WorkStep, wk: Worker): Effect
    requires !x.Claim? && !x.StartMemory? && Present(s, wk.call) && CallEnabled(s, x, wk)
  {
    var f := s.calls[wk.call];
    PhaseEffect(s, x, wk, f, s.deals[f.row.deal], s.contacts[f.row.contact])
  }

  function NextEffect(s: Sys, x: WorkStep): Option<Effect> {
    if WorkEnabled(s, x) then Some(EffectOf(s, x)) else None
  }

  /** Step `x` may happen; it writes `e` for the call `c`. */
  predicate Effects(s: Sys, x: WorkStep, c: CallId, e: Effect) {
    && NextEffect(s, x) == Some(e)
    && c == CallOf(s, x)
  }

  function Write(s: Sys, w: WorkerId, c: CallId, e: Effect): Sys
    requires Present(s, c)
  {
    var row := s.calls[c].row;
    s.(calls := s.calls[c := e.file], workers := s.workers[w := e.worker],
       deals := s.deals[row.deal := e.deal], contacts := s.contacts[row.contact := e.contact], sent := s.sent + e.send)
  }

  function NextWork(s: Sys, x: WorkStep): Option<Sys> {
    if WorkEnabled(s, x) then Some(Write(s, x.w, CallOf(s, x), EffectOf(s, x))) else None
  }

  predicate WorkTo(s: Sys, x: WorkStep, s': Sys) {
    NextWork(s, x) == Some(s')
  }

  // ----- the system -----

  function Next(s: Sys, step: Step): Option<Sys> {
    match step
    case Api(a) => NextApi(s, a)
    case Ingest(i) => NextIngest(s, i)
    case Work(x) => NextWork(s, x)
  }

  predicate StepTo(s: Sys, step: Step, s': Sys) {
    Next(s, step) == Some(s')
  }

  ghost predicate Happens(tr: seq<Sys>, steps: seq<Step>, i: nat)
    requires i < |steps| && |tr| == |steps| + 1
  {
    StepTo(tr[i], steps[i], tr[i + 1])
  }

  /** Any interleaving of steps from the initial state: the i-th step leads from
      the i-th state to the next. */
  ghost predicate Run(tr: seq<Sys>, steps: seq<Step>) {
    && |tr| == |steps| + 1 && Init(tr[0])
    && forall i {:trigger Happens(tr, steps, i)} :: 0 <= i < |steps| ==> Happens(tr, steps, i)
  }

  /** The i-th state of a run, the one before it, and the step between them. */
  lemma RunStep(tr: seq<Sys>, steps: seq<Step>, i: nat) returns (s: Sys, step: Step, s': Sys)
    requires Run(tr, steps) && 0 < i < |tr|
    ensures s == tr[i - 1] && step == steps[i - 1] && s' == tr[i] && StepTo(s, step, s')
  {
    s, step, s' := tr[i - 1], steps[i - 1], tr[i];
    assert Happens(tr, steps, i - 1);
  }
}
