/** Mutual exclusion over the three claimed stages of a call that is never
    redacted. A claim writes `updated_at` with the start time of its transaction,
    so that time may lie up to `lag` before the claim's commit; the same holds for
    a delivery's transaction. A live risk or recommendation run that finishes
    within `window` of its claim keeps its call to itself if the window and the
    lag together stay within the sixty seconds of the stale check. How long its
    own later transactions last does not matter. */
module MutualExclusion {
  import opened Model
  import opened Stages
  import opened Protocol
  import opened Frames
  import opened Finalisation

  /** Between its claim and its last status write a live worker holds its call. */
  predicate Holding(wk: Worker) {
    wk.stage != Memorizing
    && (wk.phase in {Claimed, Locked, Ready, Failing} || wk.phase.Loaded? || wk.phase.Computed?)
  }

  predicate Holds(s: Sys, w: WorkerId, c: CallId) {
    w in s.workers && s.workers[w].call == c && Holding(s.workers[w])
  }

  /** Live holders that another worker could take over are within the window. */
  predicate Timely(s: Sys, window: int) {
    forall w :: w in s.workers && Holding(s.workers[w]) && s.workers[w].stage != Extracting ==>
      s.now < s.workers[w].claimedAt + window
  }

  /** The transaction start time that a claim or a delivery writes. */
  function StampOfStep(s: Sys, step: Step): Time {
    match step
    case Api(a) => s.now
    case Ingest(i) => if i.CommitEvent? then i.stamp else s.now
    case Work(x) => if x.Claim? then x.stamp else s.now
  }

  predicate StampedAt(tr: seq<Sys>, steps: seq<Step>, i: nat, lag: nat)
    requires i < |steps| && |tr| == |steps| + 1
  {
    tr[i].now - lag <= StampOfStep(tr[i], steps[i])
  }

  /** A run whose live risk and recommendation runs finish within `window` of
      their claims, and whose claim and delivery transactions last at most `lag`. */
  ghost predicate TimelyRun(tr: seq<Sys>, steps: seq<Step>, lag: nat, window: int) {
    && Run(tr, steps)
    && (forall i :: 0 <= i < |tr| ==> Timely(tr[i], window))
    && (forall i :: 0 <= i < |steps| ==> StampedAt(tr, steps, i, lag))
  }

  /** The holder's stage is the call's status and its claim is not older than
      `updated_at` by more than the lag. */
  predicate HolderFits(row: Call, wk: Worker, lag: nat) {
    row.processing == Running(wk.stage) && (wk.stage != Extracting ==> wk.claimedAt - lag <= row.updatedAt)
  }

  ghost predicate OneHolder(s: Sys, c: CallId, lag: nat)
    requires c in s.calls
  {
    !s.calls[c].row.redacted ==>
      && (forall v, w :: Holds(s, v, c) && Holds(s, w, c) ==> v == w)
      && (forall w :: Holds(s, w, c) ==> HolderFits(s.calls[c].row, s.workers[w], lag))
  }

  ghost predicate MutexInv(s: Sys, lag: nat) {
    && (forall c :: c in s.calls ==> OneHolder(s, c, lag))
    && (forall w :: w in s.workers ==> s.workers[w].claimedAt <= s.now)
  }

  // ----- stage steps -----

  /** With a timely holder present no claim is possible, stale takeover included. */
  lemma HeldIsNotClaimable(s: Sys, w: WorkerId, c: CallId, stage: Stage, lag: nat)
    requires c in s.calls && OneHolder(s, c, lag) && !s.calls[c].row.redacted
    requires Timely(s, STALE_AFTER - lag) && Holds(s, w, c)
    ensures !Claimable(stage, s.calls[c].row, s.now)
  {
    assert HolderFits(s.calls[c].row, s.workers[w], lag);
  }

  /** A step of a started worker: a holder keeps the row or stops holding; a
      worker that does not hold leaves status and `updated_at` alone. */
  lemma PhaseRow(s: Sys, x: WorkStep, wk: Worker, f: CallFile, d: DealFile, k: Contact, e: Effect)
    requires PhaseTo(s, x, wk, f, d, k, e)
    requires PhaseFits(wk)
    ensures Holding(e.worker) ==> Holding(wk) && e.file.row == f.row
    ensures !Holding(wk) ==> e.file.row == f.row
  {}

  lemma ClaimKeepsHolder(s: Sys, s': Sys, x: WorkStep, c: CallId, e: Effect, lag: nat, b: CallId)
    requires Effects(s, x, c, e) && x.Claim? && WorkFrame(s, s', x.w, c, e)
    requires Timely(s, STALE_AFTER - lag) && s.now - lag <= x.stamp && b in s.calls && OneHolder(s, b, lag)
    ensures b in s'.calls && OneHolder(s', b, lag)
  {
    if b == c && !s.calls[c].row.redacted {
      forall v | Holds(s, v, c) ensures false { HeldIsNotClaimable(s, v, c, x.stage, lag); }
      assert forall v :: Holds(s', v, c) ==> v == x.w;
    } else {
      assert forall v :: Holds(s', v, b) && v != x.w ==> Holds(s, v, b);
    }
  }

  lemma PhaseKeepsHolder(s: Sys, s': Sys, w: WorkerId, c: CallId, e: Effect, lag: nat, b: CallId)
    requires w in s.workers && s.workers[w].call == c && WorkFrame(s, s', w, c, e)
    requires Holding(e.worker) ==> Holding(s.workers[w]) && e.file.row == s.calls[c].row
    requires !Holding(s.workers[w]) ==> e.file.row == s.calls[c].row
    requires b in s.calls && OneHolder(s, b, lag)
    ensures b in s'.calls && OneHolder(s', b, lag)
  {
    assert forall v :: Holds(s', v, b) ==> Holds(s, v, b);
    if b == c && Holding(s.workers[w]) { assert Holds(s, w, c); }
  }

  lemma MemoryKeepsHolder(s: Sys, s': Sys, w: WorkerId, c: CallId, e: Effect, lag: nat, b: CallId)
    requires w !in s.workers && WorkFrame(s, s', w, c, e) && e.file == s.calls[c] && e.worker.stage == Memorizing
    requires b in s.calls && OneHolder(s, b, lag)
    ensures b in s'.calls && OneHolder(s', b, lag)
  {
    assert forall v :: Holds(s', v, b) ==> Holds(s, v, b);
  }

  lemma StartedRow(s: Sys, x: WorkStep, s': Sys, c: CallId, e: Effect)
    requires WellFormed(s) && Effects(s, x, c, e) && !x.Claim? && !x.StartMemory?
    ensures x.w in s.workers && s.workers[x.w].call == c
    ensures Holding(e.worker) ==> Holding(s.workers[x.w]) && e.file.row == s.calls[c].row
    ensures !Holding(s.workers[x.w]) ==> e.file.row == s.calls[c].row
  {
    var wk, f := s.workers[x.w], s.calls[c];
    PhaseRow(s, x, wk, f, s.deals[f.row.deal], s.contacts[f.row.contact], e);
  }

  lemma WorkKeepsMutex(s: Sys, x: WorkStep, s': Sys, lag: nat)
    requires WellFormed(s) && MutexInv(s, lag) && Timely(s, STALE_AFTER - lag)
    requires WorkTo(s, x, s')
    requires s.now - lag <= StampOfStep(s, Work(x))
    ensures MutexInv(s', lag)
  {
    var c, e := WorkKeepsFrame(s, x, s');
    WorkKeepsHolders(s, x, s', c, e, lag);
  }

  lemma PhaseKeepsHolders(s: Sys, s': Sys, w: WorkerId, c: CallId, e: Effect, lag: nat)
    requires MutexInv(s, lag) && w in s.workers && s.workers[w].call == c && WorkFrame(s, s', w, c, e)
    requires Holding(e.worker) ==> Holding(s.workers[w]) && e.file.row == s.calls[c].row
    requires !Holding(s.workers[w]) ==> e.file.row == s.calls[c].row
    ensures forall b :: b in s'.calls ==> OneHolder(s', b, lag)
  {
    forall b | b in s'.calls ensures OneHolder(s', b, lag) { PhaseKeepsHolder(s, s', w, c, e, lag, b); }
  }

  lemma ClaimKeepsHolders(s: Sys, s': Sys, x: WorkStep, c: CallId, e: Effect, lag: nat)
    requires MutexInv(s, lag) && Timely(s, STALE_AFTER - lag) && x.Claim? && s.now - lag <= x.stamp
    requires Effects(s, x, c, e) && WorkFrame(s, s', x.w, c, e)
    ensures forall b :: b in s'.calls ==> OneHolder(s', b, lag)
  {
    forall b | b in s'.calls ensures OneHolder(s', b, lag) { ClaimKeepsHolder(s, s', x, c, e, lag, b); }
  }

  lemma MemoryKeepsHolders(s: Sys, s': Sys, w: WorkerId, c: CallId, e: Effect, lag: nat)
    requires MutexInv(s, lag) && w !in s.workers && WorkFrame(s, s', w, c, e)
    requires e.file == s.calls[c] && e.worker.stage == Memorizing
    ensures forall b :: b in s'.calls ==> OneHolder(s', b, lag)
  {
    forall b | b in s'.calls ensures OneHolder(s', b, lag) { MemoryKeepsHolder(s, s', w, c, e, lag, b); }
  }

  lemma WorkKeepsHolders(s: Sys, x: WorkStep, s': Sys, c: CallId, e: Effect, lag: nat)
    requires WellFormed(s) && MutexInv(s, lag) && Timely(s, STALE_AFTER - lag)
    requires Effects(s, x, c, e) && WorkFrame(s, s', x.w, c, e)
    requires s.now - lag <= StampOfStep(s, Work(x))
    ensures forall b :: b in s'.calls ==> OneHolder(s', b, lag)
  {
    if x.Claim? {
      ClaimKeepsHolders(s, s', x, c, e, lag);
    } else if x.StartMemory? {
      MemoryKeepsHolders(s, s', x.w, c, e, lag);
    } else {
      StartedRow(s, x, s', c, e);
      PhaseKeepsHolders(s, s', x.w, c, e, lag);
    }
  }

  // ----- ingestion and api steps -----

  lemma CommitKeepsHolder(s: Sys, s': Sys, id: DeliveryId, b: CallId, p: Payload, stamp: Time, conflict: bool,
        c: CallId, lag: nat)
    requires c in s.calls && CallFinal(s, c) && OneHolder(s, c, lag)
    requires CommitFrame(s, s', id, b, p, stamp, conflict) && s.now - lag <= stamp
    requires forall w :: w in s.workers ==> s.workers[w].claimedAt <= s.now
    ensures c in s'.calls && OneHolder(s', c, lag)
  {
    assert forall v :: Holds(s', v, c) ==> Holds(s, v, c);
  }

  lemma IngestKeepsMutex(s: Sys, i: IngestStep, s': Sys, lag: nat)
    requires FinalInv(s) && MutexInv(s, lag) && IngestTo(s, i, s')
    requires s.now - lag <= StampOfStep(s, Ingest(i))
    ensures MutexInv(s', lag)
  {
    IngestKeepsFrame(s, i, s');
    if i.CommitEvent? {
      var b, p := CommitHasFrame(s, i.id, i.stamp, i.conflict, s');
      forall c | c in s'.calls ensures OneHolder(s', c, lag) {
        assert CallFinal(s, c);
        CommitKeepsHolder(s, s', i.id, b, p, i.stamp, i.conflict, c, lag);
      }
    } else {
      forall c | c in s'.calls ensures OneHolder(s', c, lag) {
        assert forall v :: Holds(s', v, c) ==> Holds(s, v, c);
      }
    }
  }

  lemma ServedKeepsHolder(s: Sys, s': Sys, lag: nat, c: CallId, stamp: Time)
    requires c in s.calls && c in s'.calls && OneHolder(s, c, lag) && s'.workers == s.workers
    requires ServedFile(s.calls[c], s'.calls[c], stamp)
    ensures OneHolder(s', c, lag)
  {
    assert forall v :: Holds(s', v, c) <==> Holds(s, v, c);
  }

  lemma ApiKeepsHolder(s: Sys, a: ApiStep, s': Sys, lag: nat, c: CallId)
    requires Rooted(s) && MutexInv(s, lag) && ApiFrame(s, a, s') && c in s'.calls
    ensures OneHolder(s', c, lag)
  {
    if c in s.calls {
      ServedKeepsHolder(s, s', lag, c, StampOf(a));
    } else {
      assert forall v :: !Holds(s', v, c);
    }
  }

  lemma ApiKeepsMutex(s: Sys, a: ApiStep, s': Sys, lag: nat)
    requires Rooted(s) && MutexInv(s, lag) && ApiFrame(s, a, s')
    ensures MutexInv(s', lag)
  {
    forall c | c in s'.calls ensures OneHolder(s', c, lag) { ApiKeepsHolder(s, a, s', lag, c); }
  }

  lemma StepKeepsMutex(s: Sys, step: Step, s': Sys, lag: nat)
    requires WellFormed(s) && FinalInv(s) && MutexInv(s, lag) && Timely(s, STALE_AFTER - lag) && StepTo(s, step, s')
    requires s.now - lag <= StampOfStep(s, step)
    ensures MutexInv(s', lag)
  {
    match step
    case Api(a) =>
      ApiKeepsFrame(s, a, s');
      ApiKeepsMutex(s, a, s', lag);
    case Ingest(i) => IngestKeepsMutex(s, i, s', lag);
    case Work(x) => WorkKeepsMutex(s, x, s', lag);
  }

  lemma NextMutex(tr: seq<Sys>, steps: seq<Step>, lag: nat, window: int, i: nat)
    requires TimelyRun(tr, steps, lag, window) && window <= STALE_AFTER - lag
    requires 0 < i < |tr| && MutexInv(tr[i - 1], lag)
    ensures MutexInv(tr[i], lag)
  {
    var s, step, s' := RunStep(tr, steps, i);
    WellFormedAt(tr, steps, i - 1, s);
    FinalAt(tr, steps, i - 1, s);
    assert Timely(s, window) && StampedAt(tr, steps, i - 1, lag);
    StepKeepsMutex(s, step, s', lag);
  }

  lemma {:induction false} RunMutex(tr: seq<Sys>, steps: seq<Step>, lag: nat, window: int, i: nat)
    requires TimelyRun(tr, steps, lag, window) && window <= STALE_AFTER - lag && i < |tr|
    ensures MutexInv(tr[i], lag)
  {
    if i > 0 {
      RunMutex(tr, steps, lag, window, i - 1);
      NextMutex(tr, steps, lag, window, i);
    }
  }

  /** In every state of a timely run, crashes, duplicate messages and stale
      takeovers included, at most one live worker holds an unredacted call across
      all three stages, and the call's status is that worker's running state. */
  lemma PipelineExclusive(tr: seq<Sys>, steps: seq<Step>, lag: nat, window: int, i: nat, c: CallId,
                          v: WorkerId, w: WorkerId)
    requires TimelyRun(tr, steps, lag, window) && window <= STALE_AFTER - lag && i < |tr| && Unredacted(tr[i], c)
    requires Holds(tr[i], v, c) && Holds(tr[i], w, c)
    ensures v == w
    ensures tr[i].calls[c].row.processing == Running(tr[i].workers[w].stage)
  {
    RunMutex(tr, steps, lag, window, i);
    assert OneHolder(tr[i], c, lag);
  }

  /** While an unredacted call is held no claim on it is possible, stale takeover
      included. */
  lemma HeldCallUnclaimable(tr: seq<Sys>, steps: seq<Step>, lag: nat, window: int, i: nat, c: CallId,
                            w: WorkerId, x: WorkStep)
    requires TimelyRun(tr, steps, lag, window) && window <= STALE_AFTER - lag && i < |tr| && Unredacted(tr[i], c)
    requires Holds(tr[i], w, c) && x.Claim? && x.c == c
    ensures !WorkEnabled(tr[i], x)
  {
    RunMutex(tr, steps, lag, window, i);
    HeldIsNotClaimable(tr[i], w, c, x.stage, lag);
  }

  lemma ClaimTakes(s: Sys, w: WorkerId, c: CallId, stamp: Time, s': Sys)
    requires WorkTo(s, Claim(w, RiskScoring, c, stamp), s')
    ensures s'.now == s.now && s'.sent == s.sent && Present(s', c)
    ensures s'.workers == s.workers[w := Worker(RiskScoring, c, s.now, Claimed)]
    ensures s'.calls[c].row.processing == SnapshotsUpdating && s'.calls[c].row.updatedAt == stamp
    ensures s'.calls[c].row.redacted == s.calls[c].row.redacted
  {}

  lemma StaleIsClaimable(s: Sys, v: WorkerId, c: CallId)
    requires Present(s, c) && v !in s.workers && MessageFor(RiskScoring, c) in s.sent
    requires s.calls[c].row.processing == SnapshotsUpdating && s.now - s.calls[c].row.updatedAt >= STALE_AFTER
    ensures ClaimEnabled(s, v, RiskScoring, c, s.now)
  {}

  /** Sixty seconds minus the lag after a risk claim stamped `lag` early, the call
      is still held and can be claimed again. */
  lemma ClaimGrowsStale(s: Sys, w: WorkerId, v: WorkerId, c: CallId, lag: nat, s1: Sys, s2: Sys)
    requires lag <= STALE_AFTER && v != w && v !in s.workers
    requires StepTo(s, Work(Claim(w, RiskScoring, c, s.now - lag)), s1)
    requires StepTo(s1, Api(Tick(STALE_AFTER - lag)), s2)
    ensures ClaimEnabled(s2, v, RiskScoring, c, s2.now) && Holds(s2, w, c) && v !in s2.workers
    ensures s2.calls[c].row.redacted == s.calls[c].row.redacted
  {
    ClaimTakes(s, w, c, s.now - lag, s1);
    StaleIsClaimable(s2, v, c);
  }

  predicate BothHold(s: Sys, w: WorkerId, v: WorkerId, c: CallId) {
    w != v && Holds(s, w, c) && Holds(s, v, c)
  }
}
