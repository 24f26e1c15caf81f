/** Message provenance, with no assumption on worker speed or redaction: a sent
    message, and every worker started by it, is backed by committed artifacts of
    that very call. */
module Provenance {
  import opened Model
  import opened Stages
  import opened Protocol
  import opened Frames
  import DealHistory

  predicate HasExtraction(s: Sys, c: CallId) {
    c in s.calls && s.calls[c].extractions != []
  }

  /** The call's deal has a risk snapshot carrying the call's id. */
  ghost predicate HasRisk(s: Sys, c: CallId) {
    c in s.calls && s.calls[c].row.deal in s.deals
    && exists i :: 0 <= i < |s.deals[s.calls[c].row.deal].risks| && s.deals[s.calls[c].row.deal].risks[i].call == c
  }

  predicate HasAdvice(s: Sys, c: CallId) {
    c in s.calls && s.calls[c].recommendations != []
  }

  ghost predicate Backed(s: Sys, m: Message) {
    match m
    case Extract(c) => c in s.calls
    case Risk(c) => HasExtraction(s, c)
    case Recommend(c) => HasRisk(s, c)
    case Memorize(c) => HasAdvice(s, c)
  }

  /** A worker stands on its own message, and what it is about to send is backed. */
  ghost predicate WorkerBacked(s: Sys, wk: Worker) {
    && Backed(s, MessageFor(wk.stage, wk.call))
    && (wk.phase.Finished? && wk.phase.next.Some? ==> Backed(s, wk.phase.next.value))
    && (wk.phase.Ready? ==> HasExtraction(s, wk.call))
  }

  ghost predicate StatusBacked(s: Sys, c: CallId)
    requires c in s.calls
  {
    match s.calls[c].row.processing
    case ExtractionCompleted => HasExtraction(s, c)
    case SnapshotsUpdating => HasExtraction(s, c)
    case RiskRunning => HasExtraction(s, c) && HasRisk(s, c)
    case RecommendationRunning => HasRisk(s, c)
    case RecommendationCompleted => HasExtraction(s, c) && HasRisk(s, c)
    case _ => true
  }

  /** Every risk snapshot belongs to a call of its deal that has an extraction. */
  ghost predicate RisksBacked(s: Sys) {
    forall d, i :: d in s.deals && 0 <= i < |s.deals[d].risks| ==>
      HasExtraction(s, s.deals[d].risks[i].call) && s.calls[s.deals[d].risks[i].call].row.deal == d
  }

  ghost predicate ProvenanceInv(s: Sys) {
    && (forall m :: m in s.sent ==> Backed(s, m))
    && (forall w :: w in s.workers ==> WorkerBacked(s, s.workers[w]))
    && (forall c :: c in s.calls ==> StatusBacked(s, c))
    && (forall id :: id in s.deliveries && s.deliveries[id].phase.Enqueueing? ==>
          s.deliveries[id].phase.call in s.calls)
    && RisksBacked(s)
  }

  /** Artifacts only accumulate. */
  ghost predicate Grows(s: Sys, s': Sys) {
    && (forall c :: c in s.calls ==>
          && c in s'.calls && s'.calls[c].row.deal == s.calls[c].row.deal
          && |s.calls[c].extractions| <= |s'.calls[c].extractions|
          && |s.calls[c].recommendations| <= |s'.calls[c].recommendations|)
    && (forall d :: d in s.deals ==> d in s'.deals && s.deals[d].risks <= s'.deals[d].risks)
  }

  lemma GrowsBacks(s: Sys, s': Sys, m: Message)
    requires Grows(s, s') && Backed(s, m)
    ensures Backed(s', m)
  {
    if m.Recommend? {
      var d := s.calls[m.call].row.deal;
      var i :| 0 <= i < |s.deals[d].risks| && s.deals[d].risks[i].call == m.call;
      assert s'.deals[d].risks[i].call == m.call;
    }
  }

  lemma GrowsBacksWorker(s: Sys, s': Sys, wk: Worker)
    requires Grows(s, s') && WorkerBacked(s, wk)
    ensures WorkerBacked(s', wk)
  {
    GrowsBacks(s, s', MessageFor(wk.stage, wk.call));
    if wk.phase.Finished? && wk.phase.next.Some? { GrowsBacks(s, s', wk.phase.next.value); }
  }

  lemma GrowsBacksStatus(s: Sys, s': Sys, c: CallId)
    requires Grows(s, s') && c in s.calls && StatusBacked(s, c)
    requires s'.calls[c].row.processing in
               {s.calls[c].row.processing, Pending, TranscriptFinalized, ExtractionRunning,
                FailedRetryable, FailedTerminal}
    ensures StatusBacked(s', c)
  {
    if HasRisk(s, c) { GrowsBacks(s, s', Recommend(c)); }
  }

  // ----- stage steps -----

  /** What a stage step changes is backed by what it leaves. */
  ghost predicate EffectBacked(s: Sys, f: CallFile, d: DealFile, c: CallId, e: Effect) {
    && |f.extractions| <= |e.file.extractions| && |f.recommendations| <= |e.file.recommendations|
    && (e.deal.risks == d.risks || (exists r: RiskSnapshot :: e.deal.risks == d.risks + [r] && r.call == c))
    && (forall m :: m in e.send ==> Backed(s, m))
  }

  ghost predicate HasRiskFile(d: DealFile, c: CallId) {
    exists i :: 0 <= i < |d.risks| && d.risks[i].call == c
  }

  /** The new phase and status are backed by the new rows of the call and its deal. */
  ghost predicate RowsBack(e: Effect, c: CallId, was: Processing) {
    var p, st := e.worker.phase, e.file.row.processing;
    && (e.worker.stage == RiskScoring ==> e.file.extractions != [])
    && (e.worker.stage == Advising ==> HasRiskFile(e.deal, c))
    && (e.worker.stage == Memorizing ==> e.file.recommendations != [])
    && (p.Finished? && p.next == Some(Risk(c)) ==> e.file.extractions != [])
    && (p.Finished? && p.next == Some(Recommend(c)) ==> HasRiskFile(e.deal, c))
    && (p.Finished? && p.next == Some(Memorize(c)) ==> e.file.recommendations != [])
    && (p.Ready? ==> e.file.extractions != [])
    && (st == was || st in {ExtractionRunning, FailedRetryable, FailedTerminal}
        || (st in {ExtractionCompleted, SnapshotsUpdating} && e.file.extractions != [])
        || (st == RecommendationRunning && HasRiskFile(e.deal, c))
        || (st in {RiskRunning, RecommendationCompleted} && e.file.extractions != [] && HasRiskFile(e.deal, c)))
  }

  lemma ClaimBacked(s: Sys, x: WorkStep, c: CallId, e: Effect)
    requires WellFormed(s) && ProvenanceInv(s) && Effects(s, x, c, e) && (x.Claim? || x.StartMemory?)
    ensures EffectBacked(s, s.calls[c], s.deals[s.calls[c].row.deal], c, e)
    ensures RowsBack(e, c, s.calls[c].row.processing)
  {
    if x.Claim? { assert Backed(s, MessageFor(x.stage, c)); } else { assert Backed(s, Memorize(c)); }
  }

  lemma PhaseBacked(s: Sys, x: WorkStep, wk: Worker, f: CallFile, d: DealFile, k: Contact, c: CallId, e: Effect)
    requires PhaseTo(s, x, wk, f, d, k, e)
    requires c == wk.call && PhaseFits(wk) && WorkerBacked(s, wk)
    requires c in s.calls && s.calls[c] == f && f.row.deal in s.deals && s.deals[f.row.deal] == d
    ensures EffectBacked(s, f, d, c, e)
    ensures RowsBack(e, c, f.row.processing)
  {
    PhaseRowsBacked(s, x, wk, f, d, k, c, e);
    if x.CommitRisk? { assert e.deal.risks == d.risks + [wk.phase.result.risk]; }
  }

  lemma PhaseRowsBacked(s: Sys, x: WorkStep, wk: Worker, f: CallFile, d: DealFile, k: Contact, c: CallId, e: Effect)
    requires PhaseTo(s, x, wk, f, d, k, e)
    requires c == wk.call && PhaseFits(wk) && WorkerBacked(s, wk)
    requires c in s.calls && s.calls[c] == f && f.row.deal in s.deals && s.deals[f.row.deal] == d
    ensures RowsBack(e, c, f.row.processing)
  {
    if x.CommitRisk? {
      CommitBacked(d, wk.phase.result, e.deal, c);
    } else {
      assert HasRisk(s, c) ==> HasRiskFile(d, c);
      assert e.deal.risks == d.risks;
    }
  }

  lemma CommitBacked(d: DealFile, r: RiskResult, d': DealFile, c: CallId)
    requires d' == DealUpdated(d, r) && r.risk.call == c
    ensures HasRiskFile(d', c)
  {
    assert d'.risks[|d.risks|].call == c;
  }

  lemma EffectGrows(s: Sys, s': Sys, w: WorkerId, c: CallId, e: Effect)
    requires Rooted(s) && WorkFrame(s, s', w, c, e)
    requires EffectBacked(s, s.calls[c], s.deals[s.calls[c].row.deal], c, e)
    ensures Grows(s, s')
  {}

  lemma WriteKeepsProvenance(s: Sys, s': Sys, w: WorkerId, c: CallId, e: Effect)
    requires Rooted(s) && ProvenanceInv(s) && WorkFrame(s, s', w, c, e) && Grows(s, s')
    requires EffectBacked(s, s.calls[c], s.deals[s.calls[c].row.deal], c, e)
    requires RowsBack(e, c, s.calls[c].row.processing)
    requires e.file.extractions != [] || e.deal.risks == s.deals[s.calls[c].row.deal].risks
    ensures ProvenanceInv(s')
  {
    forall m | m in s'.sent ensures Backed(s', m) { GrowsBacks(s, s', m); }
    forall v | v in s'.workers ensures WorkerBacked(s', s'.workers[v]) { WriteKeepsWorker(s, s', w, c, e, v); }
    forall b | b in s'.calls ensures StatusBacked(s', b) { WriteKeepsStatus(s, s', w, c, e, b); }
    WriteKeepsRisks(s, s', w, c, e);
  }

  lemma WriteKeepsWorker(s: Sys, s': Sys, w: WorkerId, c: CallId, e: Effect, v: WorkerId)
    requires Rooted(s) && ProvenanceInv(s) && WorkFrame(s, s', w, c, e) && Grows(s, s')
    requires RowsBack(e, c, s.calls[c].row.processing) && v in s'.workers
    ensures WorkerBacked(s', s'.workers[v])
  {
    if v == w { NewWorkerBacked(s', e.worker, e, c); } else { GrowsBacksWorker(s, s', s.workers[v]); }
  }

  lemma WriteKeepsStatus(s: Sys, s': Sys, w: WorkerId, c: CallId, e: Effect, b: CallId)
    requires Rooted(s) && ProvenanceInv(s) && WorkFrame(s, s', w, c, e) && Grows(s, s')
    requires RowsBack(e, c, s.calls[c].row.processing) && b in s'.calls
    ensures StatusBacked(s', b)
  {
    if b != c || e.file.row.processing == s.calls[c].row.processing {
      GrowsBacksStatus(s, s', b);
    } else {
      assert HasRiskFile(e.deal, c) ==> HasRisk(s', c);
    }
  }

  lemma NewWorkerBacked(s': Sys, wk: Worker, e: Effect, c: CallId)
    requires c in s'.calls && s'.calls[c] == e.file
    requires e.file.row.deal in s'.deals && s'.deals[e.file.row.deal] == e.deal
    requires wk == e.worker && wk.call == c && PhaseFits(wk) && RowsBack(e, c, e.file.row.processing)
    ensures WorkerBacked(s', wk)
  {
    assert HasRiskFile(e.deal, c) ==> HasRisk(s', c);
  }

  lemma WriteKeepsRisks(s: Sys, s': Sys, w: WorkerId, c: CallId, e: Effect)
    requires Rooted(s) && RisksBacked(s) && WorkFrame(s, s', w, c, e) && Grows(s, s')
    requires EffectBacked(s, s.calls[c], s.deals[s.calls[c].row.deal], c, e)
    requires e.file.extractions != [] || e.deal.risks == s.deals[s.calls[c].row.deal].risks
    ensures RisksBacked(s')
  {
    forall d, i | d in s'.deals && 0 <= i < |s'.deals[d].risks|
      ensures HasExtraction(s', s'.deals[d].risks[i].call) && s'.calls[s'.deals[d].risks[i].call].row.deal == d
    {
      if i < |s.deals[d].risks| {
        assert s'.deals[d].risks[i] == s.deals[d].risks[i];
        GrowsBacks(s, s', Risk(s.deals[d].risks[i].call));
      }
    }
  }

  lemma StepBacked(s: Sys, x: WorkStep, c: CallId, e: Effect)
    requires WellFormed(s) && ProvenanceInv(s) && Effects(s, x, c, e)
    ensures EffectBacked(s, s.calls[c], s.deals[s.calls[c].row.deal], c, e)
    ensures RowsBack(e, c, s.calls[c].row.processing)
  {
    if x.Claim? || x.StartMemory? {
      ClaimBacked(s, x, c, e);
    } else {
      var wk, f := s.workers[x.w], s.calls[c];
      PhaseBacked(s, x, wk, f, s.deals[f.row.deal], s.contacts[f.row.contact], c, e);
    }
  }

  lemma WorkKeepsProvenance(s: Sys, x: WorkStep, s': Sys)
    requires WellFormed(s) && ProvenanceInv(s) && WorkTo(s, x, s')
    ensures ProvenanceInv(s')
  {
    var c, e := WorkKeepsFrame(s, x, s');
    StepBacked(s, x, c, e);
    EffectGrows(s, s', x.w, c, e);
    RisksNeedExtraction(s, x, c, e);
    WriteKeepsProvenance(s, s', x.w, c, e);
  }

  lemma RisksNeedExtraction(s: Sys, x: WorkStep, c: CallId, e: Effect)
    requires WellFormed(s) && ProvenanceInv(s) && Effects(s, x, c, e)
    requires |s.calls[c].extractions| <= |e.file.extractions|
    ensures e.file.extractions != [] || e.deal.risks == s.deals[s.calls[c].row.deal].risks
  {
    DealHistory.WorkHasDealStep(s, x, c, e);
    if x.CommitRisk? { assert WorkerBacked(s, s.workers[x.w]); }
  }

  // ----- the other steps -----

  lemma ApiGrows(s: Sys, a: ApiStep, s': Sys)
    requires ApiFrame(s, a, s')
    ensures Grows(s, s')
  {
    forall c | c in s.calls
      ensures c in s'.calls && s'.calls[c].row.deal == s.calls[c].row.deal
      ensures |s.calls[c].extractions| <= |s'.calls[c].extractions|
      ensures |s.calls[c].recommendations| <= |s'.calls[c].recommendations|
    {
      assert ServedFile(s.calls[c], s'.calls[c], StampOf(a));
    }
  }

  lemma ApiKeepsProvenance(s: Sys, a: ApiStep, s': Sys)
    requires ProvenanceInv(s) && ApiFrame(s, a, s') && Grows(s, s')
    ensures ProvenanceInv(s')
  {
    forall m | m in s'.sent ensures Backed(s', m) { GrowsBacks(s, s', m); }
    forall w | w in s'.workers ensures WorkerBacked(s', s'.workers[w]) { GrowsBacksWorker(s, s', s.workers[w]); }
    forall c | c in s'.calls ensures StatusBacked(s', c) {
      if c in s.calls {
        assert ServedFile(s.calls[c], s'.calls[c], StampOf(a));
        GrowsBacksStatus(s, s', c);
      }
    }
    OldRisksBacked(s, s');
  }

  lemma OldRisksBacked(s: Sys, s': Sys)
    requires RisksBacked(s) && Grows(s, s')
    requires forall d :: d in s'.deals ==> s'.deals[d].risks == if d in s.deals then s.deals[d].risks else []
    ensures RisksBacked(s')
  {
    forall d, i | d in s'.deals && 0 <= i < |s'.deals[d].risks|
      ensures HasExtraction(s', s'.deals[d].risks[i].call) && s'.calls[s'.deals[d].risks[i].call].row.deal == d
    {
      GrowsBacks(s, s', Risk(s.deals[d].risks[i].call));
    }
  }

  lemma IngestKeepsProvenance(s: Sys, i: IngestStep, s': Sys)
    requires ProvenanceInv(s) && IngestTo(s, i, s') && IngestFrame(s, s')
    ensures ProvenanceInv(s')
  {
    assert Grows(s, s');
    IngestStatuses(s, i, s');
    forall m | m in s'.sent ensures Backed(s', m) {
      if m in s.sent { GrowsBacks(s, s', m); } else { NewIngestMessage(s, i, s', m); }
    }
    forall w | w in s'.workers ensures WorkerBacked(s', s'.workers[w]) { GrowsBacksWorker(s, s', s.workers[w]); }
    forall c | c in s'.calls ensures StatusBacked(s', c) { GrowsBacksStatus(s, s', c); }
    OldRisksBacked(s, s');
    EnqueueingCalls(s, i, s');
  }

  lemma IngestStatuses(s: Sys, i: IngestStep, s': Sys)
    requires IngestTo(s, i, s')
    ensures forall c :: c in s.calls ==>
              c in s'.calls && s'.calls[c].row.processing in {s.calls[c].row.processing, TranscriptFinalized}
  {
    IngestKeepsFrame(s, i, s');
    if i.CommitEvent? { var c, p := CommitHasFrame(s, i.id, i.stamp, i.conflict, s'); }
  }

  lemma NewIngestMessage(s: Sys, i: IngestStep, s': Sys, m: Message)
    requires ProvenanceInv(s) && IngestTo(s, i, s') && m in s'.sent && m !in s.sent
    ensures Backed(s', m)
  {
    if i.EnqueueExtraction? {
      assert m == Extract(s.deliveries[i.id].phase.call);
      assert s'.calls == s.calls;
    }
  }

  lemma EnqueueingCalls(s: Sys, i: IngestStep, s': Sys)
    requires ProvenanceInv(s) && IngestTo(s, i, s')
    ensures forall id :: id in s'.deliveries && s'.deliveries[id].phase.Enqueueing? ==>
              s'.deliveries[id].phase.call in s'.calls
  {
    IngestKeepsFrame(s, i, s');
    if i.CommitEvent? { var c, p := CommitHasFrame(s, i.id, i.stamp, i.conflict, s'); }
  }

  lemma StepKeepsProvenance(s: Sys, step: Step, s': Sys)
    requires WellFormed(s) && ProvenanceInv(s) && StepTo(s, step, s')
    ensures ProvenanceInv(s')
  {
    match step
    case Api(a) =>
      ApiKeepsFrame(s, a, s');
      ApiGrows(s, a, s');
      ApiKeepsProvenance(s, a, s');
    case Ingest(i) =>
      IngestKeepsFrame(s, i, s');
      IngestKeepsProvenance(s, i, s');
    case Work(x) => WorkKeepsProvenance(s, x, s');
  }

  // ----- every reachable state -----

  lemma InitBacked(s: Sys)
    requires Init(s)
    ensures ProvenanceInv(s)
  {}

  /** In every reachable state each message that was ever sent, hence each queued,
      running or retried job, has its artifacts committed; and a call whose
      recommendations are complete has its own extraction and risk snapshot. */
  lemma {:induction false} MessagesBacked(tr: seq<Sys>, steps: seq<Step>, i: nat)
    requires Run(tr, steps) && i < |tr|
    ensures ProvenanceInv(tr[i])
  {
    if i == 0 {
      InitBacked(tr[i]);
    } else {
      MessagesBacked(tr, steps, i - 1);
      NextBacked(tr, steps, i);
    }
  }

  lemma NextBacked(tr: seq<Sys>, steps: seq<Step>, i: nat)
    requires Run(tr, steps) && 0 < i < |tr| && ProvenanceInv(tr[i - 1])
    ensures ProvenanceInv(tr[i])
  {
    var s, step, s' := RunStep(tr, steps, i);
    WellFormedAt(tr, steps, i - 1, s);
    StepKeepsProvenance(s, step, s');
  }

  lemma CompletedCallHasArtifacts(tr: seq<Sys>, steps: seq<Step>, i: nat, c: CallId)
    requires Run(tr, steps) && i < |tr| && c in tr[i].calls
    requires tr[i].calls[c].row.processing == RecommendationCompleted
    ensures HasExtraction(tr[i], c) && HasRisk(tr[i], c)
  {
    MessagesBacked(tr, steps, i);
    assert StatusBacked(tr[i], c);
  }

  /** The retry branches for a missing extraction or missing context are never
      reached: their guards fail in every reachable state. */
  lemma MissingArtifactBranchesDead(tr: seq<Sys>, steps: seq<Step>, i: nat, w: WorkerId, stamp: Time)
    requires Run(tr, steps) && i < |tr|
    ensures !WorkEnabled(tr[i], FindNoExtraction(w, stamp))
    ensures !WorkEnabled(tr[i], FindNoContext(w, stamp))
  {
    MessagesBacked(tr, steps, i);
    if w in tr[i].workers && tr[i].workers[w].stage in {RiskScoring, Advising} { BackedHasContext(tr[i], w); }
  }

  /** A risk or recommendation worker finds an extraction, the latter also a risk snapshot. */
  lemma BackedHasContext(s: Sys, w: WorkerId)
    requires ProvenanceInv(s) && w in s.workers && s.workers[w].stage in {RiskScoring, Advising}
    ensures HasExtraction(s, s.workers[w].call)
    ensures s.workers[w].stage == Advising ==> HasRisk(s, s.workers[w].call)
  {
    assert WorkerBacked(s, s.workers[w]);
    var c := s.workers[w].call;
    if s.workers[w].stage == Advising {
      var d := s.calls[c].row.deal;
      var k :| 0 <= k < |s.deals[d].risks| && s.deals[d].risks[k].call == c;
      assert HasExtraction(s, s.deals[d].risks[k].call);
    }
  }
}
