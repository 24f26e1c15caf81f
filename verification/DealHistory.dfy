/** Deal projections under concurrent calls on one deal, with no assumption on
    worker speed: the deal row always shows its last committed snapshots, each
    snapshot was computed against the one before it, and no update is lost. */
module DealHistory {
  import opened Scoring
  import opened Scorer
  import opened Model
  import opened Stages
  import opened Protocol
  import opened Frames

  /** `r` was computed with `prev` as the deal's latest snapshot: its level and
      score come from its own factors, its change and new factors from `prev`. */
  ghost predicate Follows(prev: Option<RiskSnapshot>, r: RiskSnapshot) {
    && 0 <= r.score <= 100 && LevelFits(r.score, r.level)
    && r.score == (if SumWeights(r.factors) <= 100 then SumWeights(r.factors) else 100)
    && (r.score == 0 <==> r.factors == [])
    && r.change == ChangeFrom(prev, r.score) && r.novel == NovelFrom(prev, r.factors)
  }

  ghost predicate Chained(risks: seq<RiskSnapshot>) {
    forall i: nat :: i < |risks| ==> Follows(Latest(risks[..i]), risks[i])
  }

  /** The row a deal has after the given snapshots. */
  function RowOf(risks: seq<RiskSnapshot>, snapshots: seq<DealSnapshot>): Deal
    requires |risks| == |snapshots|
  {
    if risks == [] then NEW_DEAL.row
    else
      var r, d := LastOf(risks), LastOf(snapshots);
      Deal(Some(r.score), Some(r.level), Some(d.coverage), Some(d.summary))
  }

  ghost predicate DealAgrees(f: DealFile) {
    |f.risks| == |f.snapshots| && f.row == RowOf(f.risks, f.snapshots) && Chained(f.risks)
  }

  /** A result waiting to be committed was computed against the deal's current latest snapshot. */
  ghost predicate PendingAgrees(s: Sys, w: WorkerId)
    requires Rooted(s) && w in s.workers
  {
    s.workers[w].phase.Computed? ==>
      Follows(Latest(s.deals[s.calls[s.workers[w].call].row.deal].risks), s.workers[w].phase.result.risk)
  }

  ghost predicate HistoryInv(s: Sys)
    requires Rooted(s)
  {
    && (forall d :: d in s.deals ==> DealAgrees(s.deals[d]))
    && (forall w :: w in s.workers ==> PendingAgrees(s, w))
  }

  lemma RiskFollows(contacts: map<ContactId, Contact>, c: CallId, row: Call, ext: Extraction,
        prev: Option<RiskSnapshot>)
    ensures Follows(prev, RiskOf(contacts, c, row, ext, prev).risk)
  {
    var facts := FactsFor(contacts, row.deal, ext.json);
    ScoreBounded(facts);
    ScoreExplained(facts);
    ZeroIffNoFactors(facts);
  }

  lemma ChainedPush(risks: seq<RiskSnapshot>, r: RiskSnapshot)
    requires Chained(risks) && Follows(Latest(risks), r)
    ensures Chained(risks + [r])
  {
    forall i: nat | i < |risks| + 1 ensures Follows(Latest((risks + [r])[..i]), (risks + [r])[i]) {
      assert (risks + [r])[..i] == risks[..i];
      if i == |risks| { assert risks[..i] == risks; }
    }
  }

  lemma UpdatedAgrees(f: DealFile, r: RiskResult)
    requires DealAgrees(f) && Follows(Latest(f.risks), r.risk)
    ensures DealAgrees(DealUpdated(f, r))
  {
    ChainedPush(f.risks, r.risk);
  }

  // ----- stage steps -----

  /** Only a risk commit writes a deal beyond its lock, and only the computing
      step makes a result. */
  ghost predicate DealStep(s: Sys, x: WorkStep, f: CallFile, d: DealFile, e: Effect) {
    && (if x.CommitRisk? then
          x.w in s.workers && s.workers[x.w].phase.Computed? && e.deal == DealUpdated(d, s.workers[x.w].phase.result)
        else e.deal == d.(lock := e.deal.lock))
    && (e.worker.phase.Computed? ==>
          x.ComputeRisk? && f.extractions != []
          && e.worker.phase.result == RiskOf(s.contacts, e.worker.call, f.row, LastOf(f.extractions), Latest(d.risks)))
  }

  lemma WorkHasDealStep(s: Sys, x: WorkStep, c: CallId, e: Effect)
    requires Effects(s, x, c, e)
    ensures DealStep(s, x, s.calls[c], s.deals[s.calls[c].row.deal], e)
  {
    if !x.Claim? && !x.StartMemory? {
      var wk, f := s.workers[x.w], s.calls[c];
      PhaseDealStep(s, x, wk, f, s.deals[f.row.deal], s.contacts[f.row.contact], e);
    }
  }

  lemma PhaseDealStep(s: Sys, x: WorkStep, wk: Worker, f: CallFile, d: DealFile, k: Contact, e: Effect)
    requires PhaseTo(s, x, wk, f, d, k, e)
    requires x.w in s.workers && s.workers[x.w] == wk
    ensures DealStep(s, x, f, d, e)
  {}

  lemma WorkKeepsDeals(s: Sys, x: WorkStep, s': Sys, c: CallId, e: Effect)
    requires WellFormed(s) && HistoryInv(s) && WorkFrame(s, s', x.w, c, e)
    requires DealStep(s, x, s.calls[c], s.deals[s.calls[c].row.deal], e)
    ensures forall d :: d in s'.deals ==> DealAgrees(s'.deals[d])
  {
    WorkKeepsDeal(s, x, s.deals[s.calls[c].row.deal], c, e);
  }

  lemma WorkKeepsDeal(s: Sys, x: WorkStep, d: DealFile, c: CallId, e: Effect)
    requires Rooted(s) && HistoryInv(s) && c in s.calls && s.deals[s.calls[c].row.deal] == d
    requires DealStep(s, x, s.calls[c], d, e) && (x.w in s.workers ==> s.workers[x.w].call == c)
    ensures DealAgrees(e.deal)
  {
    if x.CommitRisk? {
      assert PendingAgrees(s, x.w);
      UpdatedAgrees(d, s.workers[x.w].phase.result);
    } else {
      LockKeepsAgreement(d, e.deal);
    }
  }

  lemma LockKeepsAgreement(f: DealFile, g: DealFile)
    requires DealAgrees(f) && g == f.(lock := g.lock)
    ensures DealAgrees(g)
  {}

  /** Two results of one deal cannot both wait: each needs the deal's lock. */
  lemma OnePending(s: Sys, v: WorkerId, w: WorkerId)
    requires WellFormed(s) && v in s.workers && w in s.workers
    requires UnderLock(s.workers[v].phase) && UnderLock(s.workers[w].phase)
    requires s.calls[s.workers[v].call].row.deal == s.calls[s.workers[w].call].row.deal
    ensures v == w
  {
    var d := s.calls[s.workers[v].call].row.deal;
    assert LockAgrees(s, v, d) && LockAgrees(s, w, d);
  }

  lemma WorkKeepsPending(s: Sys, x: WorkStep, s': Sys, c: CallId, e: Effect, v: WorkerId)
    requires WellFormed(s) && HistoryInv(s) && WorkFrame(s, s', x.w, c, e) && Rooted(s')
    requires DealStep(s, x, s.calls[c], s.deals[s.calls[c].row.deal], e)
    requires v in s'.workers
    ensures PendingAgrees(s', v)
  {
    var d := s.calls[c].row.deal;
    if v == x.w {
      if x.ComputeRisk? && e.worker.phase.Computed? {
        RiskFollows(s.contacts, c, s.calls[c].row, LastOf(s.calls[c].extractions), Latest(s.deals[d].risks));
      }
    } else {
      assert PendingAgrees(s, v);
      var b := s.workers[v].call;
      assert s'.calls[b].row.deal == s.calls[b].row.deal;
      if x.CommitRisk? && s.workers[v].phase.Computed? && s.calls[b].row.deal == d { OnePending(s, v, x.w); }
    }
  }

  lemma WorkKeepsHistory(s: Sys, x: WorkStep, s': Sys)
    requires WellFormed(s) && HistoryInv(s) && WorkTo(s, x, s')
    ensures Rooted(s') && HistoryInv(s')
  {
    var c, e := WorkKeepsFrame(s, x, s');
    WorkKeepsRooted(s, s', x.w, c, e);
    WorkHasDealStep(s, x, c, e);
    WorkKeepsDeals(s, x, s', c, e);
    forall v | v in s'.workers ensures PendingAgrees(s', v) { WorkKeepsPending(s, x, s', c, e, v); }
  }

  // ----- all steps -----

  lemma ApiKeepsAgreement(s: Sys, a: ApiStep, s': Sys)
    requires Rooted(s) && HistoryInv(s) && ApiFrame(s, a, s')
    ensures forall d :: d in s'.deals ==> DealAgrees(s'.deals[d])
  {}

  lemma ApiKeepsHistory(s: Sys, a: ApiStep, s': Sys)
    requires Rooted(s) && HistoryInv(s) && ApiFrame(s, a, s') && Rooted(s')
    ensures HistoryInv(s')
  {
    ApiKeepsAgreement(s, a, s');
    forall w | w in s'.workers ensures PendingAgrees(s', w) { ApiKeepsPendingResult(s, a, s', w); }
  }

  lemma ApiKeepsPendingResult(s: Sys, a: ApiStep, s': Sys, w: WorkerId)
    requires Rooted(s) && ApiFrame(s, a, s') && Rooted(s') && w in s.workers && PendingAgrees(s, w)
    ensures PendingAgrees(s', w)
  {
    assert ServedFile(s.calls[s.workers[w].call], s'.calls[s.workers[w].call], StampOf(a));
  }

  lemma IngestKeepsHistory(s: Sys, i: IngestStep, s': Sys)
    requires WellFormed(s) && HistoryInv(s) && IngestFrame(s, s') && Rooted(s')
    ensures HistoryInv(s')
  {
    forall w | w in s'.workers ensures PendingAgrees(s', w) {
      assert PendingAgrees(s, w) && IngestedFile(s.calls[s.workers[w].call], s'.calls[s.workers[w].call]);
    }
  }

  lemma StepKeepsHistory(s: Sys, step: Step, s': Sys)
    requires WellFormed(s) && HistoryInv(s) && StepTo(s, step, s') && WellFormed(s')
    ensures HistoryInv(s')
  {
    match step
    case Api(a) => ApiKeepsFrame(s, a, s'); ApiKeepsHistory(s, a, s');
    case Ingest(i) => IngestKeepsFrame(s, i, s'); IngestKeepsHistory(s, i, s');
    case Work(x) => WorkKeepsHistory(s, x, s');
  }

  lemma {:induction false} RunHistory(tr: seq<Sys>, steps: seq<Step>, i: nat)
    requires Run(tr, steps) && i < |tr|
    ensures WellFormed(tr[i]) && HistoryInv(tr[i])
  {
    if i == 0 {
      RunWellFormed(tr, steps, 0);
    } else {
      RunHistory(tr, steps, i - 1);
      NextHistory(tr, steps, i);
    }
  }

  lemma NextHistory(tr: seq<Sys>, steps: seq<Step>, i: nat)
    requires Run(tr, steps) && 0 < i < |tr| && WellFormed(tr[i - 1]) && HistoryInv(tr[i - 1])
    ensures WellFormed(tr[i]) && HistoryInv(tr[i])
  {
    RunWellFormed(tr, steps, i);
    var s, step, s' := RunStep(tr, steps, i);
    StepKeepsHistory(s, step, s');
  }

  // ----- what it means for deals -----

  function Signed(change: Change): int {
    match change
    case Increased(n) => n
    case Decreased(n) => 0 - n
    case Unchanged => 0
  }

  /** The signed points a snapshot reports. */
  function Delta(r: RiskSnapshot): int {
    if r.change.None? then 0 else Signed(r.change.value)
  }

  function SumDeltas(risks: seq<RiskSnapshot>): int {
    if risks == [] then 0 else SumDeltas(risks[..|risks| - 1]) + Delta(LastOf(risks))
  }

  lemma {:induction false} DeltasTelescope(risks: seq<RiskSnapshot>)
    requires Chained(risks) && risks != []
    ensures risks[0].score + SumDeltas(risks) == LastOf(risks).score
  {
    var front := risks[..|risks| - 1];
    assert Follows(Latest(front), LastOf(risks));
    if front != [] {
      assert forall i: nat :: i < |front| ==> front[..i] == risks[..i];
      DeltasTelescope(front);
    }
  }

  /** The current score is the first plus all reported changes, within bounds,
      and the level belongs to it. */
  predicate ShowsSum(f: DealFile)
    requires f.risks != []
  {
    && f.row.score == Some(f.risks[0].score + SumDeltas(f.risks))
    && 0 <= f.row.score.value <= 100 && f.row.level.Some? && LevelFits(f.row.score.value, f.row.level.value)
  }

  /** In every reachable state a deal's columns are those of its last committed
      snapshots, its level and bounded score belong together, and its first score
      plus every reported change is its current score. */
  lemma DealShowsHistory(tr: seq<Sys>, steps: seq<Step>, i: nat, d: DealId)
    requires Run(tr, steps) && i < |tr| && d in tr[i].deals
    ensures DealAgrees(tr[i].deals[d])
    ensures tr[i].deals[d].risks != [] ==> ShowsSum(tr[i].deals[d])
  {
    RunHistory(tr, steps, i);
    if tr[i].deals[d].risks != [] { LastShown(tr[i].deals[d]); }
  }

  lemma LastShown(f: DealFile)
    requires DealAgrees(f) && f.risks != []
    ensures ShowsSum(f)
  {
    DeltasTelescope(f.risks);
    LastFollows(f.risks);
  }

  lemma LastFollows(risks: seq<RiskSnapshot>)
    requires Chained(risks) && risks != []
    ensures Follows(Latest(risks[..|risks| - 1]), LastOf(risks))
  {
    assert LastOf(risks) == risks[|risks| - 1];
  }

  /** The k-th step commits a risk result of deal `d`. */
  predicate Commits(tr: seq<Sys>, steps: seq<Step>, k: nat, d: DealId)
    requires k < |steps| && |tr| == |steps| + 1
  {
    && steps[k].Work? && steps[k].x.CommitRisk? && steps[k].x.w in tr[k].workers
    && tr[k].workers[steps[k].x.w].call in tr[k].calls
    && tr[k].calls[tr[k].workers[steps[k].x.w].call].row.deal == d
  }

  function CommitsBefore(tr: seq<Sys>, steps: seq<Step>, k: nat, d: DealId): nat
    requires k <= |steps| && |tr| == |steps| + 1
  {
    if k == 0 then 0 else CommitsBefore(tr, steps, k - 1, d) + if Commits(tr, steps, k - 1, d) then 1 else 0
  }

  /** A risk commit appends one snapshot of each kind; anything else leaves the
      row and both histories alone. */
  ghost predicate Appends(f: DealFile, g: DealFile, commit: bool) {
    if commit then
      exists r: RiskResult ::
        f.risks + [r.risk] == g.risks && f.snapshots + [r.snapshot] == g.snapshots && g == DealUpdated(f, r)
    else g == f.(lock := g.lock)
  }

  lemma WorkAppends(s: Sys, x: WorkStep, s': Sys, d: DealId)
    requires WellFormed(s) && WorkTo(s, x, s') && d in s.deals
    ensures d in s'.deals
    ensures Appends(s.deals[d], s'.deals[d], x.CommitRisk? && s.calls[CallOf(s, x)].row.deal == d)
  {
    var c, e := WorkKeepsFrame(s, x, s');
    WorkHasDealStep(s, x, c, e);
    FrameAppends(s, x, s', c, e, d);
  }

  lemma FrameAppends(s: Sys, x: WorkStep, s': Sys, c: CallId, e: Effect, d: DealId)
    requires WorkFrame(s, s', x.w, c, e) && DealStep(s, x, s.calls[c], s.deals[s.calls[c].row.deal], e) && d in s.deals
    ensures d in s'.deals && Appends(s.deals[d], s'.deals[d], x.CommitRisk? && s.calls[c].row.deal == d)
  {
    if x.CommitRisk? && s.calls[c].row.deal == d {
      var f, r := s.deals[d], s.workers[x.w].phase.result;
      assert f.risks + [r.risk] == e.deal.risks && f.snapshots + [r.snapshot] == e.deal.snapshots;
    }
  }

  lemma StepAppends(tr: seq<Sys>, steps: seq<Step>, k: nat, d: DealId)
    requires Run(tr, steps) && k < |steps| && WellFormed(tr[k]) && d in tr[k].deals
    ensures d in tr[k + 1].deals && Appends(tr[k].deals[d], tr[k + 1].deals[d], Commits(tr, steps, k, d))
  {
    var s, s' := tr[k], tr[k + 1];
    assert Happens(tr, steps, k);
    match steps[k]
    case Api(a) => ApiKeepsFrame(s, a, s');
    case Ingest(i) => IngestKeepsFrame(s, i, s');
    case Work(x) => WorkAppends(s, x, s', d);
  }

  lemma NewDealEmpty(tr: seq<Sys>, steps: seq<Step>, k: nat, d: DealId)
    requires Run(tr, steps) && k < |steps| && WellFormed(tr[k]) && d !in tr[k].deals
    ensures d in tr[k + 1].deals ==> tr[k + 1].deals[d] == NEW_DEAL
    ensures !Commits(tr, steps, k, d)
  {
    var s, s' := tr[k], tr[k + 1];
    assert Happens(tr, steps, k);
    match steps[k]
    case Api(a) => ApiKeepsFrame(s, a, s');
    case Ingest(i) => IngestKeepsFrame(s, i, s');
    case Work(x) => var c, e := WorkKeepsFrame(s, x, s');
  }

  /** However the runs of a deal's calls interleave, its histories hold exactly
      one risk and one deal snapshot per risk commit: none lost, none doubled. */
  lemma {:induction false} OneSnapshotPerCommit(tr: seq<Sys>, steps: seq<Step>, k: nat, d: DealId)
    requires Run(tr, steps) && k < |tr|
    ensures d in tr[k].deals ==>
              |tr[k].deals[d].risks| == |tr[k].deals[d].snapshots| == CommitsBefore(tr, steps, k, d)
    ensures d !in tr[k].deals ==> CommitsBefore(tr, steps, k, d) == 0
  {
    if k > 0 {
      OneSnapshotPerCommit(tr, steps, k - 1, d);
      RunWellFormed(tr, steps, k - 1);
      if d in tr[k - 1].deals { StepAppends(tr, steps, k - 1, d); } else { NewDealEmpty(tr, steps, k - 1, d); }
    }
  }
}
