/** Runs that exist. From any state, a call with a stored transcript, a queued
    message and a free deal lock can be taken to the end by fresh workers, and the
    empty system can reach such a call. From these runs come the exact window of
    mutual exclusion, and the ways in which a redaction is undone. */
module Witnesses {
  import opened Transcripts
  import opened Text
  import opened Model
  import opened Ingestion
  import opened Stages
  import opened Protocol
  import opened Frames
  import opened Finalisation
  import opened MutualExclusion
  import opened Idempotency
  import opened Provenance
  import opened RedactionLasts
  import opened ProviderWords
  import opened Schema

  /** The step takes no time and its transaction starts when it commits. */
  predicate Still(s: Sys, step: Step) {
    !(step.Api? && step.a.Tick?) && StampOfStep(s, step) == s.now
  }

  ghost predicate StillAt(tr: seq<Sys>, steps: seq<Step>, i: nat)
    requires i < |steps| && |tr| == |steps| + 1
  {
    Happens(tr, steps, i) && Still(tr[i], steps[i])
  }

  ghost predicate Path(tr: seq<Sys>, steps: seq<Step>) {
    |tr| == |steps| + 1 && forall i :: 0 <= i < |steps| ==> StillAt(tr, steps, i)
  }

  ghost predicate Leads(tr: seq<Sys>, steps: seq<Step>, s: Sys, t: Sys) {
    Path(tr, steps) && tr[0] == s && tr[|steps|] == t
  }

  /** Some steps, all at one instant, lead from `s` to `t`. */
  ghost predicate Reaches(s: Sys, t: Sys) {
    exists tr, steps :: Leads(tr, steps, s, t)
  }

  lemma ReachesSelf(s: Sys)
    ensures Reaches(s, s)
  {
    assert Leads([s], [], s, s);
  }

  lemma ReachesNext(s: Sys, t: Sys, step: Step, u: Sys)
    requires Reaches(s, t) && StepTo(t, step, u) && Still(t, step)
    ensures Reaches(s, u)
  {
    var tr, steps :| Leads(tr, steps, s, t);
    var tr', steps' := tr + [u], steps + [step];
    forall i | 0 <= i < |steps'| ensures StillAt(tr', steps', i) {
      if i < |steps| { assert StillAt(tr, steps, i); }
    }
    assert Leads(tr', steps', s, u);
  }

  /** The call's rows are in place, its deal is not locked, and worker ids from `w` on are unused. */
  ghost predicate Open(s: Sys, c: CallId, w: WorkerId) {
    && Present(s, c) && s.deals[s.calls[c].row.deal].lock.None?
    && forall v :: v in s.workers ==> v < w
  }

  /** The newest worker `w` is at work on the call: its row, the call's file and
      the deal's file. */
  ghost predicate AtWork(s: Sys, c: CallId, w: WorkerId, wk: Worker, f: CallFile, d: DealFile) {
    && Present(s, c) && s.calls[c] == f && s.deals[f.row.deal] == d
    && w in s.workers && s.workers[w] == wk && wk.call == c && forall v :: v in s.workers ==> v <= w
  }

  lemma TakeClaim(s: Sys, c: CallId, w: WorkerId, stage: Stage) returns (u: Sys, wk: Worker, f: CallFile)
    requires Open(s, c, w) && stage != Memorizing && MessageFor(stage, c) in s.sent
    requires Claimable(stage, s.calls[c].row, s.now)
    ensures Reaches(s, u) && AtWork(u, c, w, wk, f, s.deals[s.calls[c].row.deal])
    ensures StepTo(s, Work(Claim(w, stage, c, s.now)), u) && u.sent == s.sent
    ensures wk == Worker(stage, c, s.now, Claimed) && f == s.calls[c].(row := ClaimedRow(stage, s.calls[c].row, s.now))
  {
    var x := Claim(w, stage, c, s.now);
    u, wk := NextWork(s, x).value, Worker(stage, c, s.now, Claimed);
    f := s.calls[c].(row := ClaimedRow(stage, s.calls[c].row, s.now));
    ReachesSelf(s);
    ReachesNext(s, s, Work(x), u);
  }

  /** One more step of the worker, with its effect. */
  lemma TakeStep(o: Sys, s: Sys, x: WorkStep, c: CallId, wk: Worker, f: CallFile, d: DealFile)
    returns (u: Sys, e: Effect)
    requires Reaches(o, s) && !x.Claim? && !x.StartMemory?
    requires AtWork(s, c, x.w, wk, f, d) && PhaseEnabled(s, x, wk, f, d)
    ensures e == PhaseEffect(s, x, wk, f, d, s.contacts[f.row.contact])
    ensures Reaches(o, u) && AtWork(u, c, x.w, e.worker, e.file, e.deal) && u.sent == s.sent + e.send && u.now == s.now
  {
    u, e := NextWork(s, x).value, PhaseEffect(s, x, wk, f, d, s.contacts[f.row.contact]);
    StaysAtWork(s, x, wk, f, d, s.contacts[f.row.contact], e);
    ReachesNext(o, s, Work(x), u);
  }

  lemma StaysAtWork(s: Sys, x: WorkStep, wk: Worker, f: CallFile, d: DealFile, k: Contact, e: Effect)
    requires PhaseTo(s, x, wk, f, d, k, e)
    ensures e.worker.call == wk.call && e.file.row.deal == f.row.deal && e.file.row.contact == f.row.contact
  {}

  lemma ExtractStage(s: Sys, c: CallId, w: WorkerId, out: Output) returns (t: Sys)
    requires Open(s, c, w) && Extract(c) in s.sent && s.calls[c].transcript.Some?
    requires s.calls[c].row.processing in {TranscriptFinalized, FailedRetryable}
    ensures Reaches(s, t) && Open(t, c, w + 1) && Risk(c) in t.sent && t.calls[c].row.processing == ExtractionCompleted
    ensures t.calls[c].docs == s.calls[c].docs && t.calls[c].row.redacted == s.calls[c].row.redacted
    ensures t.calls[c].extractions == s.calls[c].extractions + [Extraction(out.json, out.summary, out.evidence)]
  {
    var u, wk, f := TakeClaim(s, c, w, Extracting);
    var e;
    u, e := TakeStep(s, u, LoadTranscript(w), c, wk, f, s.deals[s.calls[c].row.deal]);
    u, e := TakeStep(s, u, CommitExtraction(w, out), c, e.worker, e.file, e.deal);
    t, e := TakeStep(s, u, SendNext(w), c, e.worker, e.file, e.deal);
  }

  /** A risk run is due: after the extraction, after a retryable failure, or when
      another run has left the call updating for a minute. */
  predicate RiskDue(row: Call, now: Time) {
    || row.processing == ExtractionCompleted || row.processing == FailedRetryable
    || (row.processing == SnapshotsUpdating && row.updatedAt + 60 <= now)
  }

  /** A recommendation run is due: after the risk run, after a retryable failure,
      or when another run has been at it for a minute. */
  predicate AdviceDue(row: Call, now: Time) {
    || row.processing == RiskRunning || row.processing == FailedRetryable
    || (row.processing == RecommendationRunning && row.updatedAt + 60 <= now)
  }

  lemma RiskStage(s: Sys, c: CallId, w: WorkerId) returns (t: Sys)
    requires Open(s, c, w) && Risk(c) in s.sent && RiskDue(s.calls[c].row, s.now)
    requires s.calls[c].extractions != [] && RiskReadable(LastOf(s.calls[c].extractions).json)
    ensures Reaches(s, t) && Open(t, c, w + 1) && Recommend(c) in t.sent && t.calls[c].row.processing == RiskRunning
    ensures t.calls[c].docs == s.calls[c].docs && t.calls[c].extractions == s.calls[c].extractions
    ensures t.deals[t.calls[c].row.deal].risks != []
  {
    var u, wk, f := TakeClaim(s, c, w, RiskScoring);
    t := RiskWorks(s, u, c, w, wk, f, s.deals[s.calls[c].row.deal]);
  }

  lemma RiskWorks(o: Sys, s: Sys, c: CallId, w: WorkerId, wk: Worker, f: CallFile, d: DealFile) returns (t: Sys)
    requires Reaches(o, s) && AtWork(s, c, w, wk, f, d)
    requires wk.stage == RiskScoring && wk.phase == Claimed && d.lock.None?
    requires f.extractions != [] && RiskReadable(LastOf(f.extractions).json)
    ensures Reaches(o, t) && Open(t, c, w + 1) && Recommend(c) in t.sent && t.calls[c].row.processing == RiskRunning
    ensures t.calls[c].docs == f.docs && t.calls[c].extractions == f.extractions
    ensures t.deals[t.calls[c].row.deal].risks != []
  {
    var u, e := TakeStep(o, s, LockDeal(w), c, wk, f, d);
    u, e := TakeStep(o, u, ComputeRisk(w), c, e.worker, e.file, e.deal);
    t := RiskWrites(o, u, c, w, e.worker, e.file, e.deal);
  }

  lemma RiskWrites(o: Sys, s: Sys, c: CallId, w: WorkerId, wk: Worker, f: CallFile, d: DealFile) returns (t: Sys)
    requires Reaches(o, s) && AtWork(s, c, w, wk, f, d) && wk.stage == RiskScoring && wk.phase.Computed?
    ensures Reaches(o, t) && Open(t, c, w + 1) && Recommend(c) in t.sent && t.calls[c].row.processing == RiskRunning
    ensures t.calls[c].docs == f.docs && t.calls[c].extractions == f.extractions
    ensures t.deals[t.calls[c].row.deal].risks != []
  {
    var u, e := TakeStep(o, s, CommitRisk(w, s.now), c, wk, f, d);
    t, e := TakeStep(o, u, SendNext(w), c, e.worker, e.file, e.deal);
  }

  lemma AdviseStage(s: Sys, c: CallId, w: WorkerId, advice: Advice) returns (t: Sys)
    requires Open(s, c, w) && Recommend(c) in s.sent && AdviceDue(s.calls[c].row, s.now) && advice.items != []
    requires s.calls[c].extractions != [] && s.deals[s.calls[c].row.deal].risks != []
    ensures Reaches(s, t) && Open(t, c, w + 1) && Memorize(c) in t.sent
    ensures t.calls[c].row.processing == RecommendationCompleted
    ensures t.calls[c].docs == s.calls[c].docs && t.calls[c].extractions == s.calls[c].extractions
  {
    var u, wk, f := TakeClaim(s, c, w, Advising);
    t := AdviceWorks(s, u, c, w, wk, f, s.deals[s.calls[c].row.deal], advice);
  }

  lemma AdviceWorks(o: Sys, s: Sys, c: CallId, w: WorkerId, wk: Worker, f: CallFile, d: DealFile, advice: Advice)
    returns (t: Sys)
    requires Reaches(o, s) && AtWork(s, c, w, wk, f, d) && wk.stage == Advising && wk.phase == Claimed && d.lock.None?
    requires f.extractions != [] && d.risks != [] && advice.items != []
    ensures Reaches(o, t) && Open(t, c, w + 1) && Memorize(c) in t.sent
    ensures t.calls[c].row.processing == RecommendationCompleted
    ensures t.calls[c].docs == f.docs && t.calls[c].extractions == f.extractions
  {
    var u, e := TakeStep(o, s, LoadContext(w), c, wk, f, d);
    u, e := TakeStep(o, u, CommitAdvice(w, advice, u.now), c, e.worker, e.file, e.deal);
    t, e := TakeStep(o, u, SendNext(w), c, e.worker, e.file, e.deal);
  }

  lemma TakeStart(s: Sys, c: CallId, w: WorkerId) returns (u: Sys, wk: Worker)
    requires Open(s, c, w) && Memorize(c) in s.sent && s.calls[c].docs == map[]
    ensures Reaches(s, u) && AtWork(u, c, w, wk, s.calls[c], s.deals[s.calls[c].row.deal])
    ensures wk == Worker(Memorizing, c, s.now, Claimed)
  {
    var x := StartMemory(w, c);
    u, wk := NextWork(s, x).value, Worker(Memorizing, c, s.now, Claimed);
    ReachesSelf(s);
    ReachesNext(s, s, Work(x), u);
  }

  lemma MemorizeStage(s: Sys, c: CallId, w: WorkerId) returns (t: Sys)
    requires Open(s, c, w) && Memorize(c) in s.sent && s.calls[c].docs == map[] && s.calls[c].extractions != []
    ensures Reaches(s, t) && c in t.calls && t.calls[c].row == s.calls[c].row && DealStateSummary in t.calls[c].docs
  {
    var u, wk := TakeStart(s, c, w);
    var e;
    u, e := TakeStep(s, u, BuildDocs(w), c, wk, s.calls[c], s.deals[s.calls[c].row.deal]);
    t, e := TakeStep(s, u, CommitDocs(w), c, e.worker, e.file, e.deal);
  }

  lemma ReachesOn(s: Sys, t: Sys, u: Sys)
    requires Reaches(s, t) && Reaches(t, u)
    ensures Reaches(s, u)
  {
    var tr, steps :| Leads(tr, steps, s, t);
    var tr2, steps2 :| Leads(tr2, steps2, t, u);
    var all, moves := tr + tr2[1..], steps + steps2;
    forall i | 0 <= i < |moves| ensures StillAt(all, moves, i) {
      if i < |steps| { assert StillAt(tr, steps, i); } else { assert StillAt(tr2, steps2, i - |steps|); }
    }
    assert Leads(all, moves, s, u);
  }

  /** Any call with a stored transcript whose extraction message was sent can be
      completed, with documents, whatever else the state holds and whatever valid
      answers the model gives. */
  lemma CallCanComplete(s: Sys, c: CallId, w: WorkerId, out: Output, advice: Advice) returns (t: Sys)
    requires Open(s, c, w) && Extract(c) in s.sent && s.calls[c].transcript.Some? && s.calls[c].docs == map[]
    requires s.calls[c].row.processing in {TranscriptFinalized, FailedRetryable}
    requires Conforms(out.json) && advice.items != []
    ensures Reaches(s, t) && c in t.calls && t.calls[c].row.processing == RecommendationCompleted
    ensures DealStateSummary in t.calls[c].docs
  {
    ConformingIsReadable(out.json);
    var s1 := ExtractStage(s, c, w, out);
    var s2 := RiskStage(s1, c, w + 1);
    var s3 := AdviseStage(s2, c, w + 2, advice);
    t := MemorizeStage(s3, c, w + 3);
    ReachesOn(s, s1, s2);
    ReachesOn(s, s2, s3);
    ReachesOn(s, s3, t);
  }

  // ----- after a failure -----

  /** A started worker's message was sent, and messages are never withdrawn. */
  predicate Called(s: Sys, w: WorkerId) {
    w in s.workers && MessageFor(s.workers[w].stage, s.workers[w].call) in s.sent
  }

  lemma WorkKeepsCalled(s: Sys, x: WorkStep, s': Sys)
    requires WellFormed(s) && WorkTo(s, x, s') && forall w :: w in s.workers ==> Called(s, w)
    ensures forall w :: w in s'.workers ==> Called(s', w)
  {
    var c, e := WorkKeepsFrame(s, x, s');
    forall w | w in s'.workers ensures Called(s', w) {
      if w != x.w {
        assert Called(s, w);
      } else if w in s.workers {
        assert Called(s, w);
      } else {
        ClaimCalled(s, x, c, e);
      }
    }
  }

  lemma ClaimCalled(s: Sys, x: WorkStep, c: CallId, e: Effect)
    requires Effects(s, x, c, e) && x.w !in s.workers
    ensures MessageFor(e.worker.stage, e.worker.call) in s.sent
  {}

  lemma IngestKeepsCalled(s: Sys, i: IngestStep, s': Sys)
    requires IngestTo(s, i, s') && forall w :: w in s.workers ==> Called(s, w)
    ensures forall w :: w in s'.workers ==> Called(s', w)
  {
    IngestKeepsFrame(s, i, s');
    IngestKeepsSent(s, i, s');
    forall w | w in s'.workers ensures Called(s', w) { assert Called(s, w); }
  }

  lemma IngestKeepsSent(s: Sys, i: IngestStep, s': Sys)
    requires IngestTo(s, i, s')
    ensures s.sent <= s'.sent
  {}

  lemma {:induction false} RunCalled(tr: seq<Sys>, steps: seq<Step>, i: nat)
    requires Run(tr, steps) && i < |tr|
    ensures forall w :: w in tr[i].workers ==> Called(tr[i], w)
  {
    if i > 0 {
      RunCalled(tr, steps, i - 1);
      var s, step, s' := RunStep(tr, steps, i);
      WellFormedAt(tr, steps, i - 1, s);
      StepKeepsCalled(s, step, s');
    }
  }

  lemma StepKeepsCalled(s: Sys, step: Step, s': Sys)
    requires WellFormed(s) && StepTo(s, step, s') && forall w :: w in s.workers ==> Called(s, w)
    ensures forall w :: w in s'.workers ==> Called(s', w)
  {
    match step
    case Api(a) =>
      ApiKeepsFrame(s, a, s');
      forall w | w in s'.workers ensures Called(s', w) { assert Called(s, w); }
    case Ingest(i) => IngestKeepsCalled(s, i, s');
    case Work(x) => WorkKeepsCalled(s, x, s');
  }

  /** Once a risk or recommendation run is due, and its message was sent, one
      delivery of the message takes the call over and on to the end. */
  lemma DueRunCompletes(s: Sys, c: CallId, v: WorkerId, stage: Stage, advice: Advice) returns (u: Sys, t: Sys)
    requires Open(s, c, v) && advice.items != [] && s.calls[c].extractions != []
    requires stage == RiskScoring ==>
               && Risk(c) in s.sent && RiskDue(s.calls[c].row, s.now)
               && RiskReadable(LastOf(s.calls[c].extractions).json)
    requires stage == Advising ==>
               && Recommend(c) in s.sent && AdviceDue(s.calls[c].row, s.now)
               && s.deals[s.calls[c].row.deal].risks != []
    requires stage in {RiskScoring, Advising}
    ensures StepTo(s, Work(Claim(v, stage, c, s.now)), u) && Reaches(u, t)
    ensures c in t.calls && t.calls[c].row.processing == RecommendationCompleted
  {
    var wk, f;
    u, wk, f := TakeClaim(s, c, v, stage);
    ReachesSelf(u);
    var d := s.deals[s.calls[c].row.deal];
    if stage == RiskScoring {
      var r := RiskWorks(u, u, c, v, wk, f, d);
      t := AdviseStage(r, c, v + 1, advice);
      ReachesOn(u, r, t);
    } else {
      t := AdviceWorks(u, u, c, v, wk, f, d, advice);
    }
  }

  /** What the failed run leaves. */
  lemma FailureLeaves(s: Sys, w: WorkerId, stamp: Time, s1: Sys, s2: Sys)
    requires WellFormed(s) && StepTo(s, Work(FailStage(w)), s1) && StepTo(s1, Work(WriteFailure(w, stamp)), s2)
    ensures w in s.workers && s.workers[w].stage in {RiskScoring, Advising}
    ensures var c, stage := s.workers[w].call, s.workers[w].stage;
            && c in s.calls && c in s2.calls && s2.now == s.now && s.sent <= s2.sent
            && s2.calls[c] == s.calls[c].(row := s.calls[c].row.(processing := FailedRetryable, updatedAt := stamp))
            && s.calls[c].row.deal in s.deals && s.calls[c].row.deal in s2.deals
            && s2.deals[s.calls[c].row.deal].risks == s.deals[s.calls[c].row.deal].risks
  {
    RollbackLeaves(s, w, s1);
    WriteLeaves(s1, w, stamp, s2);
  }

  lemma RollbackLeaves(s: Sys, w: WorkerId, s': Sys)
    requires StepTo(s, Work(FailStage(w)), s')
    ensures w in s.workers && s.workers[w].stage in {RiskScoring, Advising} && w in s'.workers
    ensures s'.workers[w].call == s.workers[w].call && s'.now == s.now && s'.sent == s.sent && s'.calls == s.calls
    ensures Present(s, s.workers[w].call)
    ensures var d := s.calls[s.workers[w].call].row.deal; d in s'.deals && s'.deals[d].risks == s.deals[d].risks
  {}

  lemma WriteLeaves(s: Sys, w: WorkerId, stamp: Time, s': Sys)
    requires StepTo(s, Work(WriteFailure(w, stamp)), s')
    ensures w in s.workers && Present(s, s.workers[w].call) && s'.now == s.now && s'.sent == s.sent
    ensures var c := s.workers[w].call;
            && c in s'.calls
            && s'.calls[c] == s.calls[c].(row := s.calls[c].row.(processing := FailedRetryable, updatedAt := stamp))
            && s.calls[c].row.deal in s'.deals
            && s'.deals[s.calls[c].row.deal].risks == s.deals[s.calls[c].row.deal].risks
  {}

  /** A risk or recommendation run fails and writes its status: the same message,
      delivered again, takes the call to the end, unless the extraction itself
      cannot be read. */
  lemma FailedRunCanRetry(tr: seq<Sys>, steps: seq<Step>, i: nat, w: WorkerId, stamp: Time, v: WorkerId, advice: Advice)
    returns (u: Sys, t: Sys)
    requires Run(tr, steps) && i + 1 < |steps| && w in tr[i].workers && advice.items != []
    requires steps[i] == Work(FailStage(w)) && steps[i + 1] == Work(WriteFailure(w, stamp))
    requires Open(tr[i + 2], tr[i].workers[w].call, v)
    requires tr[i].workers[w].stage == RiskScoring ==>
               var f := tr[i + 2].calls[tr[i].workers[w].call];
               f.extractions != [] ==> RiskReadable(LastOf(f.extractions).json)
    ensures var c, stage := tr[i].workers[w].call, tr[i].workers[w].stage;
            && c in tr[i + 2].calls && tr[i + 2].calls[c].row.processing == FailedRetryable
            && (if stage == RiskScoring then Risk(c) else Recommend(c)) in tr[i + 2].sent
            && StepTo(tr[i + 2], Work(Claim(v, stage, c, tr[i + 2].now)), u) && Reaches(u, t)
            && c in t.calls && t.calls[c].row.processing == RecommendationCompleted
  {
    var s, s1, s2 := tr[i], tr[i + 1], tr[i + 2];
    var c := s.workers[w].call;
    assert Happens(tr, steps, i) && Happens(tr, steps, i + 1);
    WellFormedAt(tr, steps, i, s);
    FailureLeaves(s, w, stamp, s1, s2);
    MessagesBacked(tr, steps, i);
    BackedHasContext(s, w);
    RunCalled(tr, steps, i);
    assert Called(s, w);
    u, t := DueRunCompletes(s2, c, v, s.workers[w].stage, advice);
  }

  // ----- from the empty system -----

  /** One api step and one ingestion step more. */
  lemma TakeApi(o: Sys, s: Sys, a: ApiStep) returns (u: Sys)
    requires Reaches(o, s) && ApiEnabled(s, a) && !a.Tick?
    ensures Reaches(o, u) && u == ApplyApi(s, a)
  {
    u := ApplyApi(s, a);
    ReachesNext(o, s, Api(a), u);
  }

  lemma TakeIngest(o: Sys, s: Sys, i: IngestStep) returns (u: Sys)
    requires Reaches(o, s) && IngestEnabled(s, i) && (i.CommitEvent? ==> i.stamp == s.now)
    ensures Reaches(o, u) && u == ApplyIngest(s, i)
  {
    u := ApplyIngest(s, i);
    ReachesNext(o, s, Ingest(i), u);
  }

  /** A deal, a stakeholder and a call placed under the provider id `x`. */
  ghost predicate OnePlaced(s: Sys) {
    && s.calls.Keys == {0} && s.calls[0].row.deal == 0 && s.calls[0].row.contact == 0
    && s.calls[0].row.providerId == Some("x") && s.calls[0].row.processing == Pending
    && s.calls[0].transcript.None? && s.calls[0].docs == map[] && !s.calls[0].row.redacted
    && 0 in s.deals && s.deals[0] == NEW_DEAL && 0 in s.contacts
    && s.keys == map[] && s.deliveries == map[] && s.workers == map[] && s.sent == multiset{}
  }

  lemma CreateOne(s: Sys) returns (t: Sys)
    requires Init(s)
    ensures Reaches(s, t) && OnePlaced(t)
  {
    ReachesSelf(s);
    t := TakeApi(s, s, AddDeal(0));
    t := TakeApi(s, t, AddContact(0, 0));
    t := TakeApi(s, t, CreateCall(0, 0, 0));
    t := TakeApi(s, t, PlaceCall(0, "x"));
  }

  const ENDED := Payload("", "x", "", Word("completed"), "hi", NoDuration, "", "")

  lemma EndedIsTerminal()
    ensures EventTypeOf(ENDED) == Some(CallCompleted) && ExecutionId(ENDED) == "x"
  {}

  lemma ParsesSomething(text: string)
    requires text != "" && !IsSpace(text[0])
    ensures SPEAKERS.Parse(text) != []
  {
    SpeakersValid();
    SPEAKERS.ParseEmptyIffBlank(text);
  }

  lemma EndedOffers()
    ensures Offered(EventTypeOf(ENDED), ENDED) != [] && Projectable(ENDED) && ExecutionId(ENDED) == "x"
  {
    EndedIsTerminal();
    EndedParses();
  }

  lemma EndedParses()
    ensures SPEAKERS.Parse(ENDED.transcript) != []
  {
    ParsesSomething("hi");
  }

  lemma ReceiveOne(s: Sys) returns (t: Sys)
    requires OnePlaced(s)
    ensures Reaches(s, t) && t.calls == s.calls && t.deals == s.deals
    ensures t.contacts == s.contacts && t.workers == s.workers
    ensures t.now == s.now && t.sent == multiset{} && t.keys.Keys == {KeyOf(ENDED)}
    ensures t.deliveries == map[0 := Delivery(ENDED, KeyOf(ENDED), s.now, Resolved(0), false)]
  {
    EndedIsTerminal();
    ReachesSelf(s);
    t := TakeIngest(s, s, Deliver(0, ENDED));
    t := TakeIngest(s, t, Resolve(0, 0));
  }

  lemma StoreOne(o: Sys, s: Sys) returns (t: Sys)
    requires Reaches(o, s) && 0 in s.calls && s.calls[0].transcript.None?
    requires s.deliveries == map[0 := Delivery(ENDED, KeyOf(ENDED), s.now, Resolved(0), false)]
    ensures Reaches(o, t) && 0 in t.calls && t.calls[0].transcript.Some?
    ensures t.calls[0].row.processing == TranscriptFinalized
    ensures t.calls[0].row.deal == s.calls[0].row.deal && t.calls[0].row.contact == s.calls[0].row.contact
    ensures t.calls[0].docs == s.calls[0].docs && Extract(0) in t.sent
    ensures t.calls[0].row.redacted == s.calls[0].row.redacted
    ensures t.deals == s.deals && t.contacts == s.contacts && t.workers == s.workers
    ensures t.now == s.now && t.keys == s.keys && t.deliveries.Keys == {0}
    ensures t.calls[0].row.providerId == s.calls[0].row.providerId
  {
    EndedOffers();
    t := TakeIngest(o, s, CommitEvent(0, s.now, false));
    t := TakeIngest(o, t, EnqueueExtraction(0));
  }

  /** A first call with its transcript stored and its extraction message sent. */
  lemma StoreFirst(s: Sys) returns (t: Sys)
    requires Init(s)
    ensures Reaches(s, t) && Open(t, 0, 0) && Extract(0) in t.sent && t.calls[0].transcript.Some?
    ensures t.calls[0].row.processing == TranscriptFinalized && t.calls[0].docs == map[] && !t.calls[0].row.redacted
    ensures t.calls[0].row.providerId == Some("x") && t.keys.Keys == {KeyOf(ENDED)} && t.deliveries.Keys == {0}
  {
    var s1 := CreateOne(s);
    var s2 := ReceiveOne(s1);
    t := StoreOne(s1, s2);
    ReachesOn(s, s1, t);
  }

  // ----- these paths as runs -----

  /** Every claim and every delivery happened at the present instant. */
  ghost predicate AtOnce(s: Sys) {
    && (forall w :: w in s.workers ==> s.workers[w].claimedAt == s.now)
    && (forall id :: id in s.deliveries ==> s.deliveries[id].acquiredAt == s.now)
  }

  lemma WorkKeepsAtOnce(s: Sys, x: WorkStep, s': Sys)
    requires WellFormed(s) && AtOnce(s) && WorkTo(s, x, s')
    ensures AtOnce(s') && s'.now == s.now && s'.ttl == s.ttl
  {
    var c, e := WorkKeepsFrame(s, x, s');
  }

  lemma IngestKeepsAtOnce(s: Sys, i: IngestStep, s': Sys)
    requires AtOnce(s) && IngestTo(s, i, s')
    ensures AtOnce(s') && s'.now == s.now && s'.ttl == s.ttl
  {}

  lemma ApiKeepsAtOnce(s: Sys, a: ApiStep, s': Sys)
    requires AtOnce(s) && ApiTo(s, a, s') && !a.Tick?
    ensures AtOnce(s') && s'.now == s.now && s'.ttl == s.ttl
  {}

  lemma PathIsRun(tr: seq<Sys>, steps: seq<Step>)
    requires Path(tr, steps) && Init(tr[0])
    ensures Run(tr, steps)
  {
    forall i {:trigger Happens(tr, steps, i)} | 0 <= i < |steps| ensures Happens(tr, steps, i) {
      assert StillAt(tr, steps, i);
    }
  }

  lemma {:induction false} PathAtOnce(tr: seq<Sys>, steps: seq<Step>, i: nat)
    requires Path(tr, steps) && Init(tr[0]) && i < |tr|
    ensures AtOnce(tr[i]) && tr[i].now == tr[0].now && tr[i].ttl == tr[0].ttl
  {
    if i > 0 {
      PathAtOnce(tr, steps, i - 1);
      PathIsRun(tr, steps);
      RunWellFormed(tr, steps, i - 1);
      assert StillAt(tr, steps, i - 1);
      match steps[i - 1]
      case Api(a) => ApiKeepsAtOnce(tr[i - 1], a, tr[i]);
      case Ingest(g) => IngestKeepsAtOnce(tr[i - 1], g, tr[i]);
      case Work(x) => WorkKeepsAtOnce(tr[i - 1], x, tr[i]);
    }
  }

  /** What is reached at one instant is reached by a run that is timely for every
      lag and window, and prompt for every time to live. */
  lemma StillRun(s: Sys, t: Sys) returns (tr: seq<Sys>, steps: seq<Step>)
    requires Init(s) && Reaches(s, t)
    ensures Run(tr, steps) && tr[0] == s && tr[|steps|] == t && AtOnce(t) && t.now == s.now
    ensures forall lag: nat, window: int :: window > 0 ==> TimelyRun(tr, steps, lag, window)
    ensures s.ttl > 0 ==> PromptRun(tr, steps)
  {
    tr, steps :| Leads(tr, steps, s, t);
    PathIsRun(tr, steps);
    forall i | 0 <= i < |tr| ensures AtOnce(tr[i]) && tr[i].ttl == s.ttl && tr[i].now == s.now {
      PathAtOnce(tr, steps, i);
    }
    forall i, lag: nat | 0 <= i < |steps| ensures StampedAt(tr, steps, i, lag) { assert StillAt(tr, steps, i); }
    forall i, window: int | 0 <= i < |tr| && window > 0 ensures Timely(tr[i], window) { assert AtOnce(tr[i]); }
    if s.ttl > 0 {
      forall i | 0 <= i < |tr| ensures Prompt(tr[i]) { assert AtOnce(tr[i]); }
    }
  }

  /** A run through a reached state to another. */
  lemma RunThrough(s: Sys, t: Sys, u: Sys) returns (tr: seq<Sys>, steps: seq<Step>, i: nat)
    requires Init(s) && Reaches(s, t) && Reaches(t, u)
    ensures Run(tr, steps) && i <= |steps| && tr[i] == t && tr[|steps|] == u
  {
    var tr1, steps1 :| Leads(tr1, steps1, s, t);
    var tr2, steps2 :| Leads(tr2, steps2, t, u);
    tr, steps, i := tr1 + tr2[1..], steps1 + steps2, |steps1|;
    forall k | 0 <= k < |steps| ensures StillAt(tr, steps, k) {
      if k < i { assert StillAt(tr1, steps1, k); } else { assert StillAt(tr2, steps2, k - i); }
    }
    PathIsRun(tr, steps);
  }

  /** A timely run goes on with any step that keeps it timely. */
  lemma ExtendTimely(tr: seq<Sys>, steps: seq<Step>, lag: nat, window: int, step: Step, u: Sys)
    returns (tr': seq<Sys>, steps': seq<Step>)
    requires TimelyRun(tr, steps, lag, window) && StepTo(tr[|steps|], step, u)
    requires Timely(u, window) && tr[|steps|].now - lag <= StampOfStep(tr[|steps|], step)
    ensures TimelyRun(tr', steps', lag, window) && |steps'| == |steps| + 1 && tr <= tr'
    ensures tr'[|steps'|] == u
  {
    tr', steps' := tr + [u], steps + [step];
    forall i {:trigger Happens(tr', steps', i)} | 0 <= i < |steps'| ensures Happens(tr', steps', i) {
      if i < |steps| { assert Happens(tr, steps, i); }
    }
    forall i | 0 <= i < |steps'| ensures StampedAt(tr', steps', i, lag) {
      if i < |steps| { assert StampedAt(tr, steps, i, lag); }
    }
  }

  // ----- runs that complete a call -----

  const EMPTY := Sys(0, 0, map[], map[], map[], map[], map[], map[], multiset{})

  /** The answers of the deterministic fallback's shape, and a valid extraction. */
  const ADVICE := Advice([Item("send_followup", "momentum", "")], [DraftItem("crm_note", "", "summary")])
  const ANSWER := Output(SAMPLE, "summary", [Evidence("next_step", "hi", "unknown", 0)])

  /** Some run completes a call; it is timely and prompt. */
  lemma SomeRunCompletes(s: Sys) returns (tr: seq<Sys>, steps: seq<Step>)
    requires Init(s) && s.ttl > 0
    ensures TimelyRun(tr, steps, 0, STALE_AFTER) && PromptRun(tr, steps) && tr[0] == s
    ensures 0 in tr[|steps|].calls && tr[|steps|].calls[0].row.processing == RecommendationCompleted
    ensures DealStateSummary in tr[|steps|].calls[0].docs
  {
    SampleConforms();
    var s1 := StoreFirst(s);
    var t := CallCanComplete(s1, 0, 0, ANSWER, ADVICE);
    ReachesOn(s, s1, t);
    tr, steps := StillRun(s, t);
    assert TimelyRun(tr, steps, 0, STALE_AFTER);
  }

  /** A first call with its extraction stored, the risk message sent, and the
      next worker id free. */
  lemma ExtractFirst(s: Sys) returns (t: Sys)
    requires Init(s)
    ensures Reaches(s, t) && Open(t, 0, 1) && Risk(0) in t.sent && t.calls[0].row.processing == ExtractionCompleted
    ensures t.calls[0].docs == map[] && !t.calls[0].row.redacted
    ensures t.calls[0].extractions != [] && RiskReadable(LastOf(t.calls[0].extractions).json)
  {
    SampleConforms();
    ConformingIsReadable(SAMPLE);
    var s1 := StoreFirst(s);
    t := ExtractStage(s1, 0, 0, ANSWER);
    ReachesOn(s, s1, t);
  }

  /** The recommendation run has its context and waits for the model. */
  lemma AwaitAdvice(s: Sys) returns (u: Sys, wk: Worker, f: CallFile, d: DealFile)
    requires Init(s)
    ensures Reaches(s, u) && AtWork(u, 0, 2, wk, f, d) && wk.stage == Advising && wk.phase == Ready
  {
    var s1 := ExtractFirst(s);
    var s2 := RiskStage(s1, 0, 1);
    ReachesOn(s, s1, s2);
    u, wk, f := TakeClaim(s2, 0, 2, Advising);
    var e;
    u, e := TakeStep(s2, u, LoadContext(2), 0, wk, f, s2.deals[s2.calls[0].row.deal]);
    wk, f, d := e.worker, e.file, e.deal;
    ReachesOn(s, s2, u);
  }

  /** A timely run may wait for the model for any time below the stale window: its
      last transaction then starts that long before it commits. */
  lemma LongRunCompletes(s: Sys, wait: nat) returns (tr: seq<Sys>, steps: seq<Step>)
    requires Init(s) && wait < STALE_AFTER
    ensures TimelyRun(tr, steps, 0, STALE_AFTER) && tr[0] == s && tr[|steps|].now == s.now + wait
    ensures 0 in tr[|steps|].calls && tr[|steps|].calls[0].row.processing == RecommendationCompleted
    ensures tr[|steps|].calls[0].row.updatedAt == s.now
  {
    var u, wk, f, d := AwaitAdvice(s);
    tr, steps := StillRun(s, u);
    assert TimelyRun(tr, steps, 0, STALE_AFTER);
    var t := NextApi(u, Tick(wait)).value;
    tr, steps := ExtendTimely(tr, steps, 0, STALE_AFTER, Api(Tick(wait)), t);
    assert AtWork(t, 0, 2, wk, f, d);
    var v := FinishAdvice(t, wk, f, d, s.now);
    tr, steps := ExtendTimely(tr, steps, 0, STALE_AFTER, Work(CommitAdvice(2, ADVICE, s.now)), v);
  }

  lemma FinishAdvice(t: Sys, wk: Worker, f: CallFile, d: DealFile, start: Time) returns (u: Sys)
    requires AtWork(t, 0, 2, wk, f, d) && wk.stage == Advising && wk.phase == Ready
    requires start <= t.now < start + STALE_AFTER && forall w :: w in t.workers ==> t.workers[w].claimedAt == start
    ensures WorkTo(t, CommitAdvice(2, ADVICE, start), u) && Timely(u, STALE_AFTER) && u.now == t.now
    ensures 0 in u.calls && u.calls[0].row.processing == RecommendationCompleted && u.calls[0].row.updatedAt == start
  {
    var x := CommitAdvice(2, ADVICE, start);
    u := NextWork(t, x).value;
    assert u == Write(t, 2, 0, PhaseEffect(t, x, wk, f, d, t.contacts[f.row.contact]));
    WorkKeepsClaims(t, x, u, start);
  }

  /** A step of a started worker leaves every claim time alone. */
  lemma WorkKeepsClaims(s: Sys, x: WorkStep, s': Sys, at: Time)
    requires WorkTo(s, x, s') && !x.Claim? && !x.StartMemory?
    requires forall w :: w in s.workers ==> s.workers[w].claimedAt == at
    ensures s'.now == s.now && forall w :: w in s'.workers ==> s'.workers[w].claimedAt == at
  {}

  // ----- the exact window of mutual exclusion -----

  /** At most one live worker holds each unredacted call. */
  ghost predicate Exclusive(s: Sys) {
    forall c, v, w :: Unredacted(s, c) && Holds(s, v, c) && Holds(s, w, c) ==> v == w
  }

  ghost predicate ExclusiveRun(tr: seq<Sys>) {
    forall i :: 0 <= i < |tr| ==> Exclusive(tr[i])
  }

  lemma WithinWindow(tr: seq<Sys>, steps: seq<Step>, lag: nat, window: int)
    requires TimelyRun(tr, steps, lag, window) && window <= STALE_AFTER - lag
    ensures ExclusiveRun(tr)
  {
    forall i, c, v, w | 0 <= i < |tr| && Unredacted(tr[i], c) && Holds(tr[i], v, c) && Holds(tr[i], w, c)
      ensures v == w
    {
      PipelineExclusive(tr, steps, lag, window, i, c, v, w);
    }
  }

  /** Every claim was made at `base` or later, and the window from `base` is open. */
  ghost predicate Recent(s: Sys, base: Time, window: int) {
    base <= s.now < base + window && forall w :: w in s.workers ==> base <= s.workers[w].claimedAt
  }

  lemma AddClaim(tr: seq<Sys>, steps: seq<Step>, lag: nat, window: int, base: Time, w: WorkerId, stamp: Time)
    returns (tr': seq<Sys>, steps': seq<Step>, t: Sys)
    requires TimelyRun(tr, steps, lag, window) && Recent(tr[|steps|], base, window)
    requires ClaimEnabled(tr[|steps|], w, RiskScoring, 0, stamp) && tr[|steps|].now - lag <= stamp
    ensures TimelyRun(tr', steps', lag, window) && t == tr'[|steps'|] && Recent(t, base, window)
    ensures StepTo(tr[|steps|], Work(Claim(w, RiskScoring, 0, stamp)), t)
  {
    var s, x := tr[|steps|], Claim(w, RiskScoring, 0, stamp);
    t := NextWork(s, x).value;
    ClaimTakes(s, w, 0, stamp, t);
    tr', steps' := ExtendTimely(tr, steps, lag, window, Work(x), t);
  }

  lemma AddTick(tr: seq<Sys>, steps: seq<Step>, lag: nat, window: int, base: Time, dt: nat)
    returns (tr': seq<Sys>, steps': seq<Step>, t: Sys)
    requires TimelyRun(tr, steps, lag, window) && Recent(tr[|steps|], base, window)
    requires tr[|steps|].now + dt < base + window
    ensures TimelyRun(tr', steps', lag, window) && t == tr'[|steps'|] && Recent(t, base, window)
    ensures StepTo(tr[|steps|], Api(Tick(dt)), t)
  {
    t := NextApi(tr[|steps|], Tick(dt)).value;
    tr', steps' := ExtendTimely(tr, steps, lag, window, Api(Tick(dt)), t);
  }

  /** The state in which the risk message of a first call waits. */
  lemma RiskWaits(lag: nat, window: int) returns (tr: seq<Sys>, steps: seq<Step>, t: Sys)
    requires window > 0
    ensures TimelyRun(tr, steps, lag, window) && t == tr[|steps|] && Recent(t, t.now, window)
    ensures Open(t, 0, 1) && Unredacted(t, 0) && ClaimEnabled(t, 1, RiskScoring, 0, t.now - lag)
  {
    t := ExtractFirst(EMPTY);
    tr, steps := StillRun(EMPTY, t);
    assert TimelyRun(tr, steps, lag, window) && AtOnce(t);
  }

  /** A first call is extracted and claimed for risk, the claim stamped `lag`
      early; sixty seconds minus the lag later it can be claimed again. */
  lemma FirstClaimGrowsStale(lag: nat, window: int) returns (tr: seq<Sys>, steps: seq<Step>, s: Sys, base: Time)
    requires lag <= STALE_AFTER && window > STALE_AFTER - lag
    ensures TimelyRun(tr, steps, lag, window) && s == tr[|steps|] && Recent(s, base, window)
    ensures Holds(s, 1, 0) && Unredacted(s, 0) && ClaimEnabled(s, 2, RiskScoring, 0, s.now)
  {
    var t, s1;
    tr, steps, t := RiskWaits(lag, window);
    tr, steps, s1 := AddClaim(tr, steps, lag, window, t.now, 1, t.now - lag);
    tr, steps, s := AddTick(tr, steps, lag, window, t.now, STALE_AFTER - lag);
    ClaimGrowsStale(t, 1, 2, 0, lag, s1, s);
    base := t.now;
  }

  /** Then a second run claims it too, and both hold it. */
  lemma OverlapRun(lag: nat, window: int) returns (tr: seq<Sys>, steps: seq<Step>)
    requires lag <= STALE_AFTER && window > STALE_AFTER - lag
    ensures TimelyRun(tr, steps, lag, window) && !ExclusiveRun(tr)
  {
    var s, base, t;
    tr, steps, s, base := FirstClaimGrowsStale(lag, window);
    tr, steps, t := AddClaim(tr, steps, lag, window, base, 2, s.now);
    ClaimTakes(s, 2, 0, s.now, t);
    NotExclusive(t);
    assert !Exclusive(tr[|steps|]);
  }

  lemma NotExclusive(s: Sys)
    requires Unredacted(s, 0) && BothHold(s, 1, 2, 0)
    ensures !Exclusive(s)
  {}

  /** For claims stamped at most `lag` early, every timely run is exclusive if and
      only if the window is at most sixty seconds minus the lag. */
  lemma ExclusionIff(lag: nat, window: int)
    requires lag <= STALE_AFTER
    ensures (forall tr, steps :: TimelyRun(tr, steps, lag, window) ==> ExclusiveRun(tr))
            <==> window <= STALE_AFTER - lag
  {
    if window <= STALE_AFTER - lag {
      forall tr, steps | TimelyRun(tr, steps, lag, window) ensures ExclusiveRun(tr) {
        WithinWindow(tr, steps, lag, window);
      }
    } else {
      var tr, steps := OverlapRun(lag, window);
      assert TimelyRun(tr, steps, lag, window) && !ExclusiveRun(tr);
    }
  }

  // ----- each way a redaction is undone -----

  datatype Route = ByTranscript | ByRecording | ByExtraction | ByAdvice | ByDocuments

  /** What is disclosed along the route. */
  ghost predicate Shows(route: Route, f: CallFile) {
    match route
    case ByTranscript => f.transcript.Some?
    case ByRecording => f.row.recording.Some?
    case ByExtraction => exists i :: 0 <= i < |f.extractions| && f.extractions[i].json != REDACTED_JSON
    case ByAdvice => exists i :: 0 <= i < |f.recommendations| && f.recommendations[i].reason != REDACTED
    case ByDocuments => exists t :: t in f.docs && !f.docs[t].redacted
  }

  // ----- a worker or a delivery that was under way -----

  /** The call is redacted while its worker is at work; the worker goes on. */
  lemma RedactAtWork(o: Sys, s: Sys, w: WorkerId, wk: Worker, f: CallFile, d: DealFile) returns (t: Sys)
    requires Reaches(o, s) && AtWork(s, 0, w, wk, f, d)
    ensures Reaches(o, t) && AtWork(t, 0, w, wk, Redacted(f, s.now), d) && t.now == s.now
  {
    t := TakeApi(o, s, Redact(0, s.now));
  }

  lemma LoadedCall(s: Sys) returns (u: Sys, wk: Worker, f: CallFile, d: DealFile)
    requires Init(s)
    ensures Reaches(s, u) && AtWork(u, 0, 0, wk, f, d)
    ensures wk.stage == Extracting && wk.phase.Loaded? && wk.phase.transcript.Some?
  {
    var s1 := StoreFirst(s);
    u, wk, f := TakeClaim(s1, 0, 0, Extracting);
    var e;
    u, e := TakeStep(s1, u, LoadTranscript(0), 0, wk, f, s1.deals[s1.calls[0].row.deal]);
    wk, f, d := e.worker, e.file, e.deal;
    ReachesOn(s, s1, u);
  }

  lemma BuiltCall(s: Sys) returns (u: Sys, wk: Worker, f: CallFile, d: DealFile)
    requires Init(s)
    ensures Reaches(s, u) && AtWork(u, 0, 3, wk, f, d) && f.docs == map[]
    ensures wk.stage == Memorizing && wk.phase.Built? && DealStateSummary in wk.phase.docs
  {
    var s1 := ExtractFirst(s);
    var s2 := RiskStage(s1, 0, 1);
    var s3 := AdviseStage(s2, 0, 2, ADVICE);
    ReachesOn(s, s1, s2);
    ReachesOn(s, s2, s3);
    u, wk := TakeStart(s3, 0, 3);
    var e;
    u, e := TakeStep(s3, u, BuildDocs(3), 0, wk, s3.calls[0], s3.deals[s3.calls[0].row.deal]);
    wk, f, d := e.worker, e.file, e.deal;
    ReachesOn(s, s3, u);
  }

  lemma ExtractionReturns(s: Sys) returns (t: Sys, u: Sys)
    requires Init(s)
    ensures Reaches(s, t) && ScrubbedAt(t, 0) && Reaches(t, u) && 0 in u.calls && Shows(ByExtraction, u.calls[0])
  {
    var s1, wk, f, d := LoadedCall(s);
    t := RedactAtWork(s, s1, 0, wk, f, d);
    RedactedScrubs(f, s1.now);
    ReachesSelf(t);
    var e;
    u, e := TakeStep(t, t, CommitExtraction(0, Output(SAMPLE, "summary", [])), 0, wk, Redacted(f, s1.now), d);
    SampleDiscloses();
    assert e.file.extractions[|f.extractions|].json == SAMPLE;
  }

  lemma SampleDiscloses()
    ensures SAMPLE != REDACTED_JSON
  {
    assert "summary" in SAMPLE.fields && |"summary"| == 7 && |"redacted"| == 8;
  }

  lemma AdviceReturns(s: Sys) returns (t: Sys, u: Sys)
    requires Init(s)
    ensures Reaches(s, t) && ScrubbedAt(t, 0) && Reaches(t, u) && 0 in u.calls && Shows(ByAdvice, u.calls[0])
  {
    var s1, wk, f, d := AwaitAdvice(s);
    t := RedactAtWork(s, s1, 2, wk, f, d);
    RedactedScrubs(f, s1.now);
    ReachesSelf(t);
    var e;
    u, e := TakeStep(t, t, CommitAdvice(2, ADVICE, t.now), 0, wk, Redacted(f, s1.now), d);
    assert e.file.recommendations[|f.recommendations|] == RowFor(ADVICE.items[0]);
    assert |"momentum"| == 8 && |REDACTED| == 10;
  }

  lemma DocumentsReturn(s: Sys) returns (t: Sys, u: Sys)
    requires Init(s)
    ensures Reaches(s, t) && ScrubbedAt(t, 0) && Reaches(t, u) && 0 in u.calls && Shows(ByDocuments, u.calls[0])
  {
    var s1, wk, f, d := BuiltCall(s);
    t := RedactAtWork(s, s1, 3, wk, f, d);
    RedactedScrubs(f, s1.now);
    ReachesSelf(t);
    var e;
    u, e := TakeStep(t, t, CommitDocs(3), 0, wk, Redacted(f, s1.now), d);
    assert DealStateSummary in e.file.docs && !e.file.docs[DealStateSummary].redacted;
  }

  /** A second terminal event, with an event id of its own and a recording. */
  const AGAIN := Payload("e2", "", "x", Word("completed"), "hi", NoDuration, "url", "")

  lemma AgainOffers()
    ensures Offered(EventTypeOf(AGAIN), AGAIN) != [] && Projectable(AGAIN) && ExecutionId(AGAIN) == "x"
    ensures IsTerminal(EventTypeOf(AGAIN)) && KeyOf(AGAIN) != KeyOf(ENDED)
  {
    assert EventTypeOf(AGAIN) == EventTypeOf(ENDED);
    EndedOffers();
    ExplicitIdDecides(AGAIN, ENDED);
    assert |"e2"| == 2 && |"x"| == 1;
  }

  /** The call is redacted, and then the second event arrives. */
  lemma EventReturns(s: Sys) returns (t: Sys, u: Sys)
    requires Init(s)
    ensures Reaches(s, t) && ScrubbedAt(t, 0) && Reaches(t, u) && 0 in u.calls
    ensures Shows(ByTranscript, u.calls[0]) && Shows(ByRecording, u.calls[0])
  {
    AgainOffers();
    var s1 := StoreFirst(s);
    t := TakeApi(s, s1, Redact(0, s1.now));
    RedactedScrubs(s1.calls[0], s1.now);
    u := ReceiveAgain(t);
    u := StoreAgain(t, u);
  }

  lemma ReceiveAgain(t: Sys) returns (u: Sys)
    requires 0 in t.calls && t.calls[0].row.providerId == Some("x")
    requires t.keys.Keys == {KeyOf(ENDED)} && 1 !in t.deliveries
    ensures Reaches(t, u) && u.calls == t.calls && u.now == t.now
    ensures 1 in u.deliveries && u.deliveries[1].phase == Resolved(0) && u.deliveries[1].payload == AGAIN
  {
    AgainOffers();
    ReachesSelf(t);
    u := TakeIngest(t, t, Deliver(1, AGAIN));
    u := TakeIngest(t, u, Resolve(1, 0));
  }

  lemma StoreAgain(t: Sys, r: Sys) returns (u: Sys)
    requires Reaches(t, r) && 0 in r.calls && r.calls[0].transcript.None?
    requires 1 in r.deliveries && r.deliveries[1].phase == Resolved(0) && r.deliveries[1].payload == AGAIN
    ensures Reaches(t, u) && 0 in u.calls && u.calls[0].transcript.Some? && u.calls[0].row.recording.Some?
  {
    AgainOffers();
    u := TakeIngest(t, r, CommitEvent(1, r.now, false));
  }

  /** For every route there is a run in which the call is scrubbed at some state
      and discloses data along that route at the end. */
  lemma RedactionCanBeUndone(route: Route) returns (tr: seq<Sys>, steps: seq<Step>, i: nat)
    ensures Run(tr, steps) && i <= |steps| && ScrubbedAt(tr[i], 0)
    ensures 0 in tr[|steps|].calls && Shows(route, tr[|steps|].calls[0])
  {
    var t, u;
    match route {
      case ByExtraction => t, u := ExtractionReturns(EMPTY);
      case ByAdvice => t, u := AdviceReturns(EMPTY);
      case ByDocuments => t, u := DocumentsReturn(EMPTY);
      case _ => t, u := EventReturns(EMPTY);
    }
    tr, steps, i := RunThrough(EMPTY, t, u);
  }
}
