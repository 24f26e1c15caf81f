/** Once-only finalisation of a call that is never redacted: its transcript is
    stored at most once and never changes, ingestion moves the processing status
    at most once, and at most one extraction message is ever sent. */
module Finalisation {
  import opened Model
  import opened Ingestion
  import opened Protocol
  import opened Frames

  predicate Unredacted(s: Sys, c: CallId) {
    c in s.calls && !s.calls[c].row.redacted
  }

  /** The stored transcript is what the event at its batch index offered. */
  predicate StoredBy(f: CallFile, t: Transcript) {
    && t.batch < |f.events| && f.events[t.batch].stored
    && t.turns == Offered(f.events[t.batch].kind, f.events[t.batch].payload) != []
  }

  /** Pending means no transcript; a transcript comes from the one event marked
      as storing it, and the call has ended. */
  ghost predicate FileFinal(f: CallFile) {
    && (f.transcript.None? <==> f.row.processing == Pending)
    && (f.transcript.Some? ==> StoredBy(f, f.transcript.value) && f.row.endedAt.Some?)
    && (forall i :: 0 <= i < |f.events| && f.events[i].stored ==> f.transcript.Some? && f.transcript.value.batch == i)
  }

  /** At most one extraction message, and none while its one sender has yet to send it. */
  ghost predicate OneExtract(s: Sys, c: CallId)
    requires c in s.calls && FileFinal(s.calls[c])
  {
    var f := s.calls[c];
    && s.sent[Extract(c)] <= 1
    && (f.transcript.None? ==> s.sent[Extract(c)] == 0)
    && (forall id :: id in s.deliveries && s.deliveries[id].phase == Enqueueing(c) ==>
          f.transcript.Some? && f.events[f.transcript.value.batch].delivery == id && s.sent[Extract(c)] == 0)
  }

  ghost predicate CallFinal(s: Sys, c: CallId)
    requires c in s.calls
  {
    !s.calls[c].row.redacted ==> FileFinal(s.calls[c]) && OneExtract(s, c)
  }

  /** Messages and workers concern existing calls, with a transcript unless redacted. */
  ghost predicate Begun(s: Sys) {
    && (forall m :: m in s.sent ==> m.call in s.calls && HasTranscript(s, m.call))
    && (forall w :: w in s.workers ==> s.workers[w].call in s.calls && HasTranscript(s, s.workers[w].call))
    && (forall id :: id in s.deliveries && s.deliveries[id].phase.Enqueueing? ==>
          s.deliveries[id].phase.call in s.calls)
  }

  predicate HasTranscript(s: Sys, c: CallId)
    requires c in s.calls
  {
    s.calls[c].row.redacted || s.calls[c].transcript.Some?
  }

  ghost predicate FinalInv(s: Sys) {
    Begun(s) && forall c :: c in s.calls ==> CallFinal(s, c)
  }

  // ----- stage steps -----

  lemma WorkKeepsBegun(s: Sys, s': Sys, w: WorkerId, c: CallId, e: Effect)
    requires Begun(s) && WorkFrame(s, s', w, c, e)
    requires HasTranscript(s, c) && forall m :: m in e.send ==> m.call == c
    ensures Begun(s')
  {}

  lemma WorkKeepsCalls(s: Sys, s': Sys, w: WorkerId, c: CallId, e: Effect)
    requires FinalInv(s) && WorkFrame(s, s', w, c, e)
    requires HasTranscript(s, c) && forall m :: m in e.send ==> !m.Extract?
    ensures forall b :: b in s'.calls ==> CallFinal(s', b)
  {
    forall b | b in s'.calls ensures CallFinal(s', b) {
      assert CallFinal(s, b);
      assert s'.sent[Extract(b)] == s.sent[Extract(b)];
    }
  }

  lemma SendsForCall(s: Sys, x: WorkStep, c: CallId, e: Effect)
    requires WellFormed(s) && Effects(s, x, c, e)
    ensures forall m :: m in e.send ==> m.call == c && !m.Extract?
    ensures Begun(s) ==> HasTranscript(s, c)
  {
    if x.Claim? {
      assert MessageFor(x.stage, c) in s.sent;
    } else if x.StartMemory? {
      assert Memorize(c) in s.sent;
    } else {
      var wk, f := s.workers[x.w], s.calls[c];
      PhaseSends(s, x, wk, f, s.deals[f.row.deal], s.contacts[f.row.contact], e);
    }
  }

  lemma PhaseSends(s: Sys, x: WorkStep, wk: Worker, f: CallFile, d: DealFile, k: Contact, e: Effect)
    requires PhaseTo(s, x, wk, f, d, k, e)
    requires PhaseFits(wk)
    ensures forall m :: m in e.send ==> m.call == wk.call && !m.Extract?
  {
    if x.SendNext? && wk.phase.next.Some? { assert NextFits(wk, wk.phase.next.value); }
  }

  // ----- ingestion steps -----

  lemma LoggedFile(f: CallFile, p: Payload, id: DeliveryId, stamp: Time, conflict: bool, g: CallFile)
    requires Projectable(p) && ConflictPossible(f, conflict) && g == Logged(f, p, id, stamp, conflict)
    requires !f.row.redacted && FileFinal(f)
    ensures FileFinal(g)
    ensures Stores(f, p, conflict) ==>
              f.transcript.None? && g.transcript.Some? && g.events[g.transcript.value.batch].delivery == id
    ensures !Stores(f, p, conflict) ==> g.transcript == f.transcript
    ensures g.events[..|f.events|] == f.events
  {}

  lemma CommitKeepsCall(s: Sys, s': Sys, id: DeliveryId, c: CallId, p: Payload, stamp: Time, conflict: bool, b: CallId)
    requires b in s.calls && CallFinal(s, b) && CommitFrame(s, s', id, c, p, stamp, conflict)
    ensures b in s'.calls && CallFinal(s', b)
  {
    if b == c && !s.calls[c].row.redacted { LoggedFile(s.calls[c], p, id, stamp, conflict, s'.calls[c]); }
  }

  lemma CommitKeepsBegun(s: Sys, s': Sys, id: DeliveryId, c: CallId, p: Payload, stamp: Time, conflict: bool)
    requires Begun(s) && CommitFrame(s, s', id, c, p, stamp, conflict)
    ensures Begun(s')
  {
    assert forall b :: b in s.calls && HasTranscript(s, b) ==> HasTranscript(s', b);
  }

  lemma OtherIngestKeepsCall(s: Sys, i: IngestStep, s': Sys, b: CallId)
    requires FinalInv(s) && IngestTo(s, i, s') && !i.CommitEvent? && b in s.calls
    ensures b in s'.calls && CallFinal(s', b)
  {
    assert CallFinal(s, b);
    OtherIngestSends(s, i, s', b);
  }

  /** Only the enqueueing delivery of a call sends its extraction message, and
      then it is no longer enqueueing. */
  lemma OtherIngestSends(s: Sys, i: IngestStep, s': Sys, b: CallId)
    requires IngestTo(s, i, s') && !i.CommitEvent?
    ensures s'.calls == s.calls
    ensures var sends := i.EnqueueExtraction? && s.deliveries[i.id].phase == Enqueueing(b);
            s'.sent[Extract(b)] == s.sent[Extract(b)] + (if sends then 1 else 0)
            && (sends ==> s'.deliveries[i.id].phase == Committed)
    ensures forall id :: id in s'.deliveries && s'.deliveries[id].phase == Enqueueing(b) ==>
              id in s.deliveries && s.deliveries[id].phase == Enqueueing(b)
  {}

  lemma OtherIngestKeepsBegun(s: Sys, i: IngestStep, s': Sys)
    requires FinalInv(s) && IngestTo(s, i, s') && !i.CommitEvent?
    ensures Begun(s')
  {
    if i.EnqueueExtraction? {
      EnqueuedHasTranscript(s, i.id);
      EnqueueKeepsBegun(s, i.id, s.deliveries[i.id].phase.call, s');
    }
  }

  lemma EnqueuedHasTranscript(s: Sys, id: DeliveryId)
    requires FinalInv(s) && id in s.deliveries && s.deliveries[id].phase.Enqueueing?
    ensures s.deliveries[id].phase.call in s.calls && HasTranscript(s, s.deliveries[id].phase.call)
  {
    assert CallFinal(s, s.deliveries[id].phase.call);
  }

  lemma EnqueueKeepsBegun(s: Sys, id: DeliveryId, c: CallId, s': Sys)
    requires Begun(s) && id in s.deliveries && c in s.calls && HasTranscript(s, c)
    requires s' == SetPhase(s, id, Committed).(sent := s.sent + multiset{Extract(c)})
    ensures Begun(s')
  {}

  lemma IngestKeepsFinal(s: Sys, i: IngestStep, s': Sys)
    requires FinalInv(s) && IngestTo(s, i, s')
    ensures FinalInv(s')
  {
    IngestKeepsFrame(s, i, s');
    if i.CommitEvent? {
      var c, p := CommitHasFrame(s, i.id, i.stamp, i.conflict, s');
      CommitKeepsBegun(s, s', i.id, c, p, i.stamp, i.conflict);
      forall b | b in s'.calls ensures CallFinal(s', b) { CommitKeepsCall(s, s', i.id, c, p, i.stamp, i.conflict, b); }
    } else {
      OtherIngestKeepsBegun(s, i, s');
      forall b | b in s'.calls ensures CallFinal(s', b) { OtherIngestKeepsCall(s, i, s', b); }
    }
  }

  // ----- api steps -----

  lemma ApiKeepsCall(s: Sys, a: ApiStep, s': Sys, c: CallId)
    requires FinalInv(s) && ApiFrame(s, a, s') && c in s'.calls
    ensures CallFinal(s', c)
  {
    if c in s.calls {
      assert CallFinal(s, c) && ServedFile(s.calls[c], s'.calls[c], StampOf(a));
    }
  }

  lemma ApiKeepsBegun(s: Sys, a: ApiStep, s': Sys)
    requires Begun(s) && ApiFrame(s, a, s')
    ensures Begun(s')
  {
    forall c | c in s.calls && HasTranscript(s, c) ensures HasTranscript(s', c) {
      assert ServedFile(s.calls[c], s'.calls[c], StampOf(a));
    }
  }

  // ----- all steps -----

  lemma StepKeepsFinal(s: Sys, step: Step, s': Sys)
    requires WellFormed(s) && FinalInv(s) && StepTo(s, step, s')
    ensures FinalInv(s')
  {
    match step
    case Api(a) =>
      ApiKeepsFrame(s, a, s');
      ApiKeepsBegun(s, a, s');
      forall c | c in s'.calls ensures CallFinal(s', c) { ApiKeepsCall(s, a, s', c); }
    case Ingest(i) => IngestKeepsFinal(s, i, s');
    case Work(x) =>
      var c, e := WorkKeepsFrame(s, x, s');
      SendsForCall(s, x, c, e);
      WorkKeepsBegun(s, s', x.w, c, e);
      WorkKeepsCalls(s, s', x.w, c, e);
  }

  lemma InitFinal(s: Sys)
    requires Init(s)
    ensures WellFormed(s) && FinalInv(s)
  {}

  lemma {:induction false} RunFinal(tr: seq<Sys>, steps: seq<Step>, i: nat)
    requires Run(tr, steps) && i < |tr|
    ensures WellFormed(tr[i]) && FinalInv(tr[i])
  {
    if i == 0 {
      InitFinal(tr[i]);
    } else {
      RunFinal(tr, steps, i - 1);
      NextFinal(tr, steps, i);
    }
  }

  lemma NextFinal(tr: seq<Sys>, steps: seq<Step>, i: nat)
    requires Run(tr, steps) && 0 < i < |tr| && WellFormed(tr[i - 1]) && FinalInv(tr[i - 1])
    ensures WellFormed(tr[i]) && FinalInv(tr[i])
  {
    RunWellFormed(tr, steps, i);
    var s, step, s' := RunStep(tr, steps, i);
    StepKeepsFinal(s, step, s');
  }

  lemma FinalAt(tr: seq<Sys>, steps: seq<Step>, k: nat, s: Sys)
    requires Run(tr, steps) && k < |tr| && s == tr[k]
    ensures FinalInv(s)
  {
    RunFinal(tr, steps, k);
  }

  // ----- what it means for runs -----

  /** One step: a stored transcript stays, a status that left pending never
      returns to it, and ingestion changes a status only from pending. */
  ghost predicate Frozen(f: CallFile, g: CallFile) {
    && !f.row.redacted
    && (f.transcript.Some? ==> g.transcript == f.transcript)
    && (f.row.processing != Pending ==> g.row.processing != Pending)
  }

  lemma CommitFreezes(s: Sys, s': Sys, id: DeliveryId, b: CallId, p: Payload, stamp: Time, conflict: bool, c: CallId)
    requires c in s.calls && CallFinal(s, c) && CommitFrame(s, s', id, b, p, stamp, conflict) && Unredacted(s', c)
    ensures Frozen(s.calls[c], s'.calls[c])
    ensures s'.calls[c].row.processing != s.calls[c].row.processing ==>
              s.calls[c].row.processing == Pending && s'.calls[c].row.processing == TranscriptFinalized
  {}

  lemma ApiFreezes(s: Sys, a: ApiStep, s': Sys, c: CallId)
    requires c in s.calls && ApiFrame(s, a, s') && Unredacted(s', c)
    ensures Frozen(s.calls[c], s'.calls[c])
  {
    assert ServedFile(s.calls[c], s'.calls[c], StampOf(a));
  }

  lemma IngestFreezes(s: Sys, i: IngestStep, s': Sys, c: CallId)
    requires c in s.calls && CallFinal(s, c) && IngestTo(s, i, s')
    ensures c in s'.calls
    ensures Unredacted(s', c) ==> Frozen(s.calls[c], s'.calls[c])
    ensures Unredacted(s', c) && s'.calls[c].row.processing != s.calls[c].row.processing ==>
              s.calls[c].row.processing == Pending && s'.calls[c].row.processing == TranscriptFinalized
  {
    IngestKeepsFrame(s, i, s');
    if i.CommitEvent? && Unredacted(s', c) {
      var b, p := CommitHasFrame(s, i.id, i.stamp, i.conflict, s');
      CommitFreezes(s, s', i.id, b, p, i.stamp, i.conflict, c);
    }
  }

  lemma WorkFreezes(s: Sys, s': Sys, w: WorkerId, b: CallId, e: Effect, c: CallId)
    requires c in s.calls && WorkFrame(s, s', w, b, e)
    ensures c in s'.calls && (Unredacted(s', c) ==> Frozen(s.calls[c], s'.calls[c]))
  {}

  lemma StepFreezes(s: Sys, step: Step, s': Sys, c: CallId)
    requires WellFormed(s) && FinalInv(s) && StepTo(s, step, s')
    requires c in s.calls
    ensures c in s'.calls
    ensures Unredacted(s', c) ==> Frozen(s.calls[c], s'.calls[c])
    ensures Unredacted(s', c) && step.Ingest? && s'.calls[c].row.processing != s.calls[c].row.processing ==>
              s.calls[c].row.processing == Pending && s'.calls[c].row.processing == TranscriptFinalized
  {
    assert CallFinal(s, c);
    match step
    case Api(a) =>
      ApiKeepsFrame(s, a, s');
      if Unredacted(s', c) { ApiFreezes(s, a, s', c); }
    case Ingest(i) => IngestFreezes(s, i, s', c);
    case Work(x) =>
      var b, e := WorkKeepsFrame(s, x, s');
      WorkFreezes(s, s', x.w, b, e, c);
  }

  ghost predicate Kept(s: Sys, s': Sys, c: CallId) {
    c in s.calls ==> c in s'.calls && (Unredacted(s', c) ==> Frozen(s.calls[c], s'.calls[c]))
  }

  lemma {:induction false} CallsKept(tr: seq<Sys>, steps: seq<Step>, i: nat, j: nat, c: CallId)
    requires Run(tr, steps) && i <= j < |tr|
    ensures Kept(tr[i], tr[j], c)
    decreases j - i
  {
    if i < j {
      CallsKept(tr, steps, i, j - 1, c);
      NextKept(tr, steps, j, c);
      KeptOn(tr[i], tr[j - 1], tr[j], c);
    }
  }

  lemma NextKept(tr: seq<Sys>, steps: seq<Step>, j: nat, c: CallId)
    requires Run(tr, steps) && 0 < j < |tr|
    ensures Kept(tr[j - 1], tr[j], c)
  {
    var s, step, s' := RunStep(tr, steps, j);
    WellFormedAt(tr, steps, j - 1, s);
    FinalAt(tr, steps, j - 1, s);
    if c in s.calls { StepFreezes(s, step, s', c); }
  }

  lemma KeptOn(s: Sys, t: Sys, u: Sys, c: CallId)
    requires Kept(s, t, c) && Kept(t, u, c)
    ensures Kept(s, u, c)
  {}

  predicate AtMostOneStores(events: seq<Event>) {
    forall m, n :: 0 <= m < |events| && 0 <= n < |events| && events[m].stored && events[n].stored ==> m == n
  }

  /** In every run, for a call not redacted by state `j`: at most one event stored
      a transcript, the transcript is the one that event carried, and once there
      it never changes. */
  lemma TranscriptOnce(tr: seq<Sys>, steps: seq<Step>, i: nat, j: nat, c: CallId)
    requires Run(tr, steps) && i <= j < |tr| && c in tr[i].calls && Unredacted(tr[j], c)
    ensures tr[i].calls[c].transcript.Some? ==> tr[j].calls[c].transcript == tr[i].calls[c].transcript
    ensures AtMostOneStores(tr[j].calls[c].events)
    ensures tr[j].calls[c].transcript.Some? ==> StoredBy(tr[j].calls[c], tr[j].calls[c].transcript.value)
  {
    CallsKept(tr, steps, i, j, c);
    RunFinal(tr, steps, j);
    assert CallFinal(tr[j], c);
  }

  /** The i-th step is an ingestion step that changes the status of `c`. */
  predicate IngestMoves(tr: seq<Sys>, steps: seq<Step>, i: nat, c: CallId)
    requires i < |steps| && |tr| == |steps| + 1
  {
    && steps[i].Ingest? && c in tr[i].calls && c in tr[i + 1].calls
    && tr[i + 1].calls[c].row.processing != tr[i].calls[c].row.processing
  }

  lemma IngestMovesFromPending(tr: seq<Sys>, steps: seq<Step>, i: nat, c: CallId)
    requires Run(tr, steps) && i < |steps| && IngestMoves(tr, steps, i, c) && Unredacted(tr[i + 1], c)
    ensures tr[i].calls[c].row.processing == Pending && tr[i + 1].calls[c].row.processing == TranscriptFinalized
  {
    RunFinal(tr, steps, i);
    assert Happens(tr, steps, i);
    StepFreezes(tr[i], steps[i], tr[i + 1], c);
  }

  /** Ingestion changes the processing status of such a call at most once, from
      pending to transcript_finalized. */
  lemma StatusMovesOnce(tr: seq<Sys>, steps: seq<Step>, i: nat, j: nat, c: CallId)
    requires Run(tr, steps) && i <= j < |steps| && Unredacted(tr[j + 1], c)
    requires IngestMoves(tr, steps, i, c) && IngestMoves(tr, steps, j, c)
    ensures i == j
    ensures tr[i].calls[c].row.processing == Pending && tr[i + 1].calls[c].row.processing == TranscriptFinalized
  {
    CallsKept(tr, steps, i + 1, j + 1, c);
    IngestMovesFromPending(tr, steps, i, c);
    IngestMovesFromPending(tr, steps, j, c);
    if i < j {
      CallsKept(tr, steps, j, j + 1, c);
      CallsKept(tr, steps, i + 1, j, c);
    }
  }

  /** At most one extraction message is ever sent for such a call. */
  lemma ExtractSentOnce(tr: seq<Sys>, steps: seq<Step>, i: nat, c: CallId)
    requires Run(tr, steps) && i < |tr| && Unredacted(tr[i], c)
    ensures tr[i].sent[Extract(c)] <= 1
    ensures tr[i].sent[Extract(c)] == 1 ==> tr[i].calls[c].transcript.Some? && tr[i].calls[c].row.processing != Pending
  {
    RunFinal(tr, steps, i);
    assert CallFinal(tr[i], c);
  }
}
