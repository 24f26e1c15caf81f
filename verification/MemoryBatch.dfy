/** Memory documents: the existence check at the start of a run is racy, but
    every batch holds the deal state document and the unique index on (call,
    document type) rolls back the whole of a later batch. */
module MemoryBatch {
  import opened Model
  import opened Stages
  import opened Protocol
  import opened Frames

  /** The documents of a call are exactly the batch `docs` of run `w`. */
  predicate BatchOf(f: CallFile, w: WorkerId, docs: set<DocType>) {
    f.docs.Keys == docs && forall t :: t in f.docs ==> f.docs[t].run == w
  }

  predicate StoredBatch(s: Sys, w: WorkerId, c: CallId) {
    w in s.workers && s.workers[w].call == c && s.workers[w].phase.Stored?
  }

  ghost predicate OneBatch(s: Sys, c: CallId)
    requires c in s.calls
  {
    var f := s.calls[c];
    && (forall w :: StoredBatch(s, w, c) ==> DealStateSummary in f.docs && BatchOf(f, w, s.workers[w].phase.docs))
    && (f.docs != map[] ==> DealStateSummary in f.docs && StoredBatch(s, f.docs[DealStateSummary].run, c))
  }

  predicate HoldsDealState(p: Phase) {
    p.Built? || p.Stored? ==> DealStateSummary in p.docs
  }

  ghost predicate BatchInv(s: Sys) {
    && (forall c :: c in s.calls ==> OneBatch(s, c))
    && (forall w :: w in s.workers ==> HoldsDealState(s.workers[w].phase))
    && (forall w :: w in s.workers ==> s.workers[w].call in s.calls)
  }

  // ----- stage steps -----

  /** Documents change only when a batch that does not clash is committed. */
  ghost predicate DocsStep(f: CallFile, w: WorkerId, e: Effect) {
    && HoldsDealState(e.worker.phase)
    && (if e.worker.phase.Stored? then
          && e.file.docs == f.docs + (map t | t in e.worker.phase.docs :: Doc(w, false))
          && BatchFits(f, e.worker.phase.docs)
        else e.file.docs == f.docs)
  }

  lemma PhaseDocs(s: Sys, x: WorkStep, wk: Worker, f: CallFile, d: DealFile, k: Contact, e: Effect)
    requires PhaseTo(s, x, wk, f, d, k, e)
    requires HoldsDealState(wk.phase)
    ensures DocsStep(f, x.w, e) && !wk.phase.Stored?
  {}

  lemma WorkHasDocsStep(s: Sys, x: WorkStep, c: CallId, e: Effect)
    requires BatchInv(s) && Effects(s, x, c, e)
    ensures DocsStep(s.calls[c], x.w, e)
    ensures x.w in s.workers ==> !s.workers[x.w].phase.Stored?
  {
    if !x.Claim? && !x.StartMemory? {
      var wk, f := s.workers[x.w], s.calls[c];
      PhaseDocs(s, x, wk, f, s.deals[f.row.deal], s.contacts[f.row.contact], e);
    }
  }

  lemma CommittedBatch(f: CallFile, w: WorkerId, docs: set<DocType>, g: CallFile)
    requires f.docs == map[] && g.docs == f.docs + (map t | t in docs :: Doc(w, false))
    ensures BatchOf(g, w, docs)
  {}

  lemma WorkKeepsBatch(s: Sys, s': Sys, w: WorkerId, c: CallId, e: Effect, b: CallId)
    requires BatchInv(s) && WorkFrame(s, s', w, c, e) && DocsStep(s.calls[c], w, e)
    requires w in s.workers ==> !s.workers[w].phase.Stored?
    requires b in s'.calls
    ensures OneBatch(s', b)
  {
    assert OneBatch(s, b);
    assert forall v :: v != w ==> (StoredBatch(s', v, b) <==> StoredBatch(s, v, b));
    if b == c && e.worker.phase.Stored? {
      CommittedBatch(s.calls[c], w, e.worker.phase.docs, e.file);
      assert DealStateSummary in e.worker.phase.docs;
      assert StoredBatch(s', w, c);
    } else {
      assert !StoredBatch(s', w, b);
    }
  }

  // ----- all steps -----

  lemma RedactedBatch(f: CallFile, stamp: Time)
    ensures Redacted(f, stamp).docs.Keys == f.docs.Keys
    ensures forall t :: t in f.docs ==> Redacted(f, stamp).docs[t].run == f.docs[t].run
  {}

  lemma ServedBatch(f: CallFile, g: CallFile, stamp: Time)
    requires ServedFile(f, g, stamp)
    ensures g.docs.Keys == f.docs.Keys && forall t :: t in f.docs ==> g.docs[t].run == f.docs[t].run
  {
    RedactedBatch(f, stamp);
  }

  lemma SameDocsKeepBatch(s: Sys, s': Sys, c: CallId)
    requires c in s.calls && OneBatch(s, c) && c in s'.calls && s'.workers == s.workers
    requires s'.calls[c].docs.Keys == s.calls[c].docs.Keys
    requires forall t :: t in s.calls[c].docs ==> s'.calls[c].docs[t].run == s.calls[c].docs[t].run
    ensures OneBatch(s', c)
  {
    assert forall v :: StoredBatch(s', v, c) <==> StoredBatch(s, v, c);
  }

  lemma ApiKeepsBatch(s: Sys, a: ApiStep, s': Sys)
    requires BatchInv(s) && ApiFrame(s, a, s')
    ensures BatchInv(s')
  {
    forall c | c in s'.calls ensures OneBatch(s', c) {
      if c in s.calls {
        ServedBatch(s.calls[c], s'.calls[c], StampOf(a));
        SameDocsKeepBatch(s, s', c);
      } else {
        assert forall w :: !StoredBatch(s', w, c);
      }
    }
  }

  lemma IngestKeepsBatch(s: Sys, s': Sys)
    requires BatchInv(s) && IngestFrame(s, s')
    ensures BatchInv(s')
  {
    forall c | c in s'.calls ensures OneBatch(s', c) {
      assert IngestedFile(s.calls[c], s'.calls[c]);
      SameDocsKeepBatch(s, s', c);
    }
  }

  lemma WorkKeepsBatches(s: Sys, x: WorkStep, s': Sys)
    requires WellFormed(s) && BatchInv(s) && WorkTo(s, x, s')
    ensures BatchInv(s')
  {
    var c, e := WorkKeepsFrame(s, x, s');
    WorkHasDocsStep(s, x, c, e);
    forall b | b in s'.calls ensures OneBatch(s', b) { WorkKeepsBatch(s, s', x.w, c, e, b); }
  }

  lemma StepKeepsBatch(s: Sys, step: Step, s': Sys)
    requires WellFormed(s) && BatchInv(s) && StepTo(s, step, s')
    ensures BatchInv(s')
  {
    match step
    case Api(a) => ApiKeepsFrame(s, a, s'); ApiKeepsBatch(s, a, s');
    case Ingest(i) => IngestKeepsFrame(s, i, s'); IngestKeepsBatch(s, s');
    case Work(x) => WorkKeepsBatches(s, x, s');
  }

  lemma {:induction false} RunBatch(tr: seq<Sys>, steps: seq<Step>, i: nat)
    requires Run(tr, steps) && i < |tr|
    ensures BatchInv(tr[i])
  {
    if i > 0 {
      RunBatch(tr, steps, i - 1);
      NextBatch(tr, steps, i);
    }
  }

  lemma NextBatch(tr: seq<Sys>, steps: seq<Step>, i: nat)
    requires Run(tr, steps) && 0 < i < |tr| && BatchInv(tr[i - 1])
    ensures BatchInv(tr[i])
  {
    var s, step, s' := RunStep(tr, steps, i);
    WellFormedAt(tr, steps, i - 1, s);
    StepKeepsBatch(s, step, s');
  }

  // ----- what it means -----

  /** Under every interleaving the documents of a call are none, or exactly the
      whole batch of the one run that committed one. */
  lemma DocumentsOfOneRun(tr: seq<Sys>, steps: seq<Step>, i: nat, c: CallId)
    requires Run(tr, steps) && i < |tr| && c in tr[i].calls
    ensures tr[i].calls[c].docs == map[] <==> forall w :: !StoredBatch(tr[i], w, c)
    ensures forall v, w :: StoredBatch(tr[i], v, c) && StoredBatch(tr[i], w, c) ==> v == w
    ensures forall w :: StoredBatch(tr[i], w, c) ==> BatchOf(tr[i].calls[c], w, tr[i].workers[w].phase.docs)
  {
    RunBatch(tr, steps, i);
    assert OneBatch(tr[i], c);
  }

  predicate SameBatch(f: CallFile, g: CallFile) {
    f.docs != map[] ==> g.docs.Keys == f.docs.Keys && forall t :: t in f.docs ==> g.docs[t].run == f.docs[t].run
  }

  lemma WorkKeepsDocuments(s: Sys, s': Sys, w: WorkerId, b: CallId, e: Effect, c: CallId)
    requires BatchInv(s) && WorkFrame(s, s', w, b, e) && DocsStep(s.calls[b], w, e) && c in s.calls
    ensures c in s'.calls && SameBatch(s.calls[c], s'.calls[c])
  {
    assert OneBatch(s, c);
  }

  lemma StepKeepsDocuments(tr: seq<Sys>, steps: seq<Step>, i: nat, c: CallId)
    requires Run(tr, steps) && i < |steps| && c in tr[i].calls
    ensures c in tr[i + 1].calls && SameBatch(tr[i].calls[c], tr[i + 1].calls[c])
  {
    var s, s' := tr[i], tr[i + 1];
    RunBatch(tr, steps, i);
    RunWellFormed(tr, steps, i);
    assert Happens(tr, steps, i);
    match steps[i]
    case Api(a) =>
      ApiKeepsFrame(s, a, s');
      ServedBatch(s.calls[c], s'.calls[c], StampOf(a));
    case Ingest(g) => IngestKeepsFrame(s, g, s');
    case Work(x) =>
      var b, e := WorkKeepsFrame(s, x, s');
      WorkHasDocsStep(s, x, b, e);
      WorkKeepsDocuments(s, s', x.w, b, e, c);
  }

  /** A stored batch is final: no later run adds to it or replaces any of it. */
  lemma {:induction false} BatchStays(tr: seq<Sys>, steps: seq<Step>, i: nat, j: nat, c: CallId)
    requires Run(tr, steps) && i <= j < |tr| && c in tr[i].calls
    ensures c in tr[j].calls && SameBatch(tr[i].calls[c], tr[j].calls[c])
    decreases j - i
  {
    if i < j {
      BatchStays(tr, steps, i, j - 1, c);
      StepKeepsDocuments(tr, steps, j - 1, c);
    }
  }
}
