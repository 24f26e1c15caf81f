/** Evidence linkage of a call that is never redacted: each extraction snapshot
    has exactly one anchor per evidence item, in order, pointing at the
    utterance with the item's sequence number if and only if one is stored. */
module Linkage {
  import opened Model
  import opened Stages
  import opened Protocol
  import opened Frames
  import opened Finalisation

  /** The anchors of a list of snapshots over one transcript. */
  function AllAnchors(t: Option<Transcript>, extractions: seq<Extraction>): seq<Anchor> {
    if extractions == [] then []
    else
      var k := |extractions| - 1;
      AllAnchors(t, extractions[..k]) + AnchorsFor(t, k, extractions[k].evidence)
  }

  ghost predicate Linked(f: CallFile) {
    f.anchors == AllAnchors(f.transcript, f.extractions) && (f.transcript.None? ==> f.extractions == [])
  }

  /** The utterances a run has loaded are those stored. */
  predicate LoadedFits(s: Sys, w: WorkerId)
    requires w in s.workers
  {
    var wk := s.workers[w];
    wk.phase.Loaded? && Unredacted(s, wk.call) ==> wk.phase.transcript == s.calls[wk.call].transcript
  }

  ghost predicate LinkInv(s: Sys) {
    && (forall c :: c in s.calls && Unredacted(s, c) ==> Linked(s.calls[c]))
    && (forall w :: w in s.workers ==> LoadedFits(s, w))
  }

  // ----- stage steps -----

  /** A stage step leaves snapshots and anchors alone, or adds one snapshot
      together with all of its anchors. */
  ghost predicate LinkStep(s: Sys, x: WorkStep, f: CallFile, e: Effect) {
    && (e.worker.phase.Loaded? ==> e.worker.phase.transcript == f.transcript)
    && ((e.file.extractions == f.extractions && e.file.anchors == f.anchors)
        || (exists out: Output, t :: x.w in s.workers && s.workers[x.w].phase == Loaded(t)
              && e.file.extractions == f.extractions + [Extraction(out.json, out.summary, out.evidence)]
              && e.file.anchors == f.anchors + AnchorsFor(t, |f.extractions|, out.evidence)))
  }

  lemma PhaseLinkStep(s: Sys, x: WorkStep, wk: Worker, f: CallFile, d: DealFile, k: Contact, e: Effect)
    requires PhaseTo(s, x, wk, f, d, k, e)
    requires x.w in s.workers && s.workers[x.w] == wk
    ensures LinkStep(s, x, f, e)
  {
    if x.CommitExtraction? { assert e.file == Extracted(f, x.out, wk.phase.transcript); }
  }

  lemma WorkHasLinkStep(s: Sys, x: WorkStep, c: CallId, e: Effect)
    requires Effects(s, x, c, e)
    ensures LinkStep(s, x, s.calls[c], e)
  {
    if !x.Claim? && !x.StartMemory? {
      var wk, f := s.workers[x.w], s.calls[c];
      PhaseLinkStep(s, x, wk, f, s.deals[f.row.deal], s.contacts[f.row.contact], e);
    }
  }

  lemma AllAnchorsPush(t: Option<Transcript>, extractions: seq<Extraction>, ext: Extraction)
    ensures AllAnchors(t, extractions + [ext])
            == AllAnchors(t, extractions) + AnchorsFor(t, |extractions|, ext.evidence)
  {
    assert (extractions + [ext])[..|extractions|] == extractions;
  }

  lemma WorkKeepsLinked(s: Sys, x: WorkStep, s': Sys, c: CallId, e: Effect, b: CallId)
    requires LinkInv(s) && WorkFrame(s, s', x.w, c, e) && LinkStep(s, x, s.calls[c], e) && HasTranscript(s, c)
    requires b in s'.calls && Unredacted(s', b)
    ensures Linked(s'.calls[b])
  {
    assert Unredacted(s, b);
    if b == c && e.file.extractions != s.calls[c].extractions {
      assert LoadedFits(s, x.w);
      AllAnchorsPush(e.file.transcript, s.calls[c].extractions, e.file.extractions[|s.calls[c].extractions|]);
    }
  }

  lemma WorkKeepsLoaded(s: Sys, x: WorkStep, s': Sys, c: CallId, e: Effect, v: WorkerId)
    requires LinkInv(s) && WorkFrame(s, s', x.w, c, e) && LinkStep(s, x, s.calls[c], e) && v in s'.workers
    ensures LoadedFits(s', v)
  {
    if v != x.w { assert LoadedFits(s, v); }
  }

  lemma WorkKeepsLinks(s: Sys, x: WorkStep, s': Sys)
    requires WellFormed(s) && FinalInv(s) && LinkInv(s) && WorkTo(s, x, s')
    ensures LinkInv(s')
  {
    var c, e := WorkKeepsFrame(s, x, s');
    SendsForCall(s, x, c, e);
    WorkHasLinkStep(s, x, c, e);
    forall b | b in s'.calls && Unredacted(s', b) ensures Linked(s'.calls[b]) { WorkKeepsLinked(s, x, s', c, e, b); }
    forall v | v in s'.workers ensures LoadedFits(s', v) { WorkKeepsLoaded(s, x, s', c, e, v); }
  }

  // ----- ingestion and api steps -----

  lemma IngestKeepsLinked(s: Sys, i: IngestStep, s': Sys, c: CallId)
    requires FinalInv(s) && LinkInv(s) && IngestTo(s, i, s')
    requires c in s'.calls && Unredacted(s', c) && c in s.calls && IngestedFile(s.calls[c], s'.calls[c])
    ensures Linked(s'.calls[c])
    ensures s.calls[c].transcript.Some? ==> s'.calls[c].transcript == s.calls[c].transcript
  {
    assert CallFinal(s, c) && Linked(s.calls[c]);
    if i.CommitEvent? {
      var b, p := CommitHasFrame(s, i.id, i.stamp, i.conflict, s');
      if b == c { LoggedFile(s.calls[c], p, i.id, i.stamp, i.conflict, s'.calls[c]); }
    }
  }

  lemma IngestKeepsLinks(s: Sys, i: IngestStep, s': Sys)
    requires FinalInv(s) && LinkInv(s) && IngestTo(s, i, s')
    ensures LinkInv(s')
  {
    IngestKeepsFrame(s, i, s');
    forall c | c in s'.calls && Unredacted(s', c) ensures Linked(s'.calls[c]) { IngestKeepsLinked(s, i, s', c); }
    forall w | w in s'.workers ensures LoadedFits(s', w) {
      assert LoadedFits(s, w);
      var c := s.workers[w].call;
      assert HasTranscript(s, c);
      if Unredacted(s', c) { IngestKeepsLinked(s, i, s', c); }
    }
  }

  lemma ApiKeepsLinks(s: Sys, a: ApiStep, s': Sys)
    requires FinalInv(s) && LinkInv(s) && ApiFrame(s, a, s')
    ensures LinkInv(s')
  {
    forall c | c in s'.calls && Unredacted(s', c) ensures Linked(s'.calls[c]) {
      if c in s.calls { assert ServedFile(s.calls[c], s'.calls[c], StampOf(a)); }
    }
    forall w | w in s'.workers ensures LoadedFits(s', w) {
      assert LoadedFits(s, w);
      var c := s.workers[w].call;
      assert ServedFile(s.calls[c], s'.calls[c], StampOf(a));
    }
  }

  lemma StepKeepsLinks(s: Sys, step: Step, s': Sys)
    requires WellFormed(s) && FinalInv(s) && LinkInv(s) && StepTo(s, step, s')
    ensures LinkInv(s')
  {
    match step
    case Api(a) => ApiKeepsFrame(s, a, s'); ApiKeepsLinks(s, a, s');
    case Ingest(i) => IngestKeepsLinks(s, i, s');
    case Work(x) => WorkKeepsLinks(s, x, s');
  }

  lemma {:induction false} RunLinks(tr: seq<Sys>, steps: seq<Step>, i: nat)
    requires Run(tr, steps) && i < |tr|
    ensures LinkInv(tr[i])
  {
    if i > 0 {
      RunLinks(tr, steps, i - 1);
      NextLinks(tr, steps, i);
    }
  }

  lemma NextLinks(tr: seq<Sys>, steps: seq<Step>, i: nat)
    requires Run(tr, steps) && 0 < i < |tr| && LinkInv(tr[i - 1])
    ensures LinkInv(tr[i])
  {
    var s, step, s' := RunStep(tr, steps, i);
    WellFormedAt(tr, steps, i - 1, s);
    FinalAt(tr, steps, i - 1, s);
    StepKeepsLinks(s, step, s');
  }

  // ----- what it means -----

  /** The anchors that belong to snapshot `k`. */
  function OfArtifact(anchors: seq<Anchor>, k: nat): seq<Anchor> {
    if anchors == [] then []
    else
      var last := anchors[|anchors| - 1];
      OfArtifact(anchors[..|anchors| - 1], k) + if last.artifact == k then [last] else []
  }

  lemma {:induction false} OfArtifactConcat(a: seq<Anchor>, b: seq<Anchor>, k: nat)
    ensures OfArtifact(a + b, k) == OfArtifact(a, k) + OfArtifact(b, k)
  {
    if b == [] {
      assert a + b == a;
    } else {
      assert (a + b)[..|a + b| - 1] == a + b[..|b| - 1];
      OfArtifactConcat(a, b[..|b| - 1], k);
    }
  }

  lemma {:induction false} OfArtifactAllOrNone(a: seq<Anchor>, k: nat, all: bool)
    requires forall i :: 0 <= i < |a| ==> (a[i].artifact == k) == all
    ensures OfArtifact(a, k) == if all then a else []
  {
    if a != [] {
      OfArtifactAllOrNone(a[..|a| - 1], k, all);
      assert a[..|a| - 1] + [a[|a| - 1]] == a;
    }
  }

  lemma OwnAnchors(t: Option<Transcript>, n: nat, evidence: seq<Evidence>, k: nat)
    ensures OfArtifact(AnchorsFor(t, n, evidence), k) == if n == k then AnchorsFor(t, n, evidence) else []
  {
    OfArtifactAllOrNone(AnchorsFor(t, n, evidence), k, n == k);
  }

  /** The anchors of snapshot `k`, none when there is no such snapshot. */
  function OwnOf(t: Option<Transcript>, extractions: seq<Extraction>, k: nat): seq<Anchor> {
    if k < |extractions| then AnchorsFor(t, k, extractions[k].evidence) else []
  }

  function LastOwn(t: Option<Transcript>, extractions: seq<Extraction>, k: nat): seq<Anchor>
    requires extractions != []
  {
    var n := |extractions| - 1;
    if n == k then AnchorsFor(t, n, extractions[n].evidence) else []
  }

  lemma LastSnapshot(t: Option<Transcript>, extractions: seq<Extraction>, k: nat)
    requires extractions != []
    ensures var n := |extractions| - 1;
            OfArtifact(AllAnchors(t, extractions), k)
            == OfArtifact(AllAnchors(t, extractions[..n]), k) + LastOwn(t, extractions, k)
  {
    var n := |extractions| - 1;
    OfArtifactConcat(AllAnchors(t, extractions[..n]), AnchorsFor(t, n, extractions[n].evidence), k);
    OwnAnchors(t, n, extractions[n].evidence, k);
  }

  lemma {:induction false} AnchorsOfSnapshot(t: Option<Transcript>, extractions: seq<Extraction>, k: nat)
    ensures OfArtifact(AllAnchors(t, extractions), k) == OwnOf(t, extractions, k)
  {
    if extractions != [] {
      var n := |extractions| - 1;
      AnchorsOfSnapshot(t, extractions[..n], k);
      LastSnapshot(t, extractions, k);
      OwnOfLast(t, extractions, k);
    }
  }

  lemma OwnOfLast(t: Option<Transcript>, extractions: seq<Extraction>, k: nat)
    requires extractions != []
    ensures var n := |extractions| - 1;
            OwnOf(t, extractions, k) == OwnOf(t, extractions[..n], k) + LastOwn(t, extractions, k)
  {}

  /** In every reachable state of an unredacted call: the anchors of snapshot `k`
      are one per evidence item in order, and the one for item `j` points to the
      stored utterance with that number, or to nothing when there is none. */
  lemma SnapshotsLinked(tr: seq<Sys>, steps: seq<Step>, i: nat, c: CallId, k: nat, j: nat)
    requires Run(tr, steps) && i < |tr| && c in tr[i].calls && Unredacted(tr[i], c)
    requires k < |tr[i].calls[c].extractions| && j < |tr[i].calls[c].extractions[k].evidence|
    ensures var f := tr[i].calls[c];
            var own, evidence := OfArtifact(f.anchors, k), f.extractions[k].evidence;
            && |own| == |evidence| && own[j].evidence == evidence[j] && f.transcript.Some?
            && (own[j].utterance.Some? <==> 0 <= evidence[j].number < |f.transcript.value.turns|)
            && (own[j].utterance.Some? ==>
                  own[j].utterance.value == UtteranceId(f.transcript.value.batch, evidence[j].number))
  {
    RunLinks(tr, steps, i);
    var f := tr[i].calls[c];
    assert Linked(f);
    AnchorsOfSnapshot(f.transcript, f.extractions, k);
  }

  lemma {:induction false} AllAnchorsBound(t: Option<Transcript>, extractions: seq<Extraction>)
    ensures forall i :: 0 <= i < |AllAnchors(t, extractions)| ==> AllAnchors(t, extractions)[i].artifact < |extractions|
  {
    if extractions != [] { AllAnchorsBound(t, extractions[..|extractions| - 1]); }
  }

  /** A failed persist leaves nothing behind: no anchor is without its snapshot. */
  lemma NoOrphanAnchors(tr: seq<Sys>, steps: seq<Step>, i: nat, c: CallId, n: nat)
    requires Run(tr, steps) && i < |tr| && c in tr[i].calls && Unredacted(tr[i], c) && n < |tr[i].calls[c].anchors|
    ensures tr[i].calls[c].anchors[n].artifact < |tr[i].calls[c].extractions|
  {
    RunLinks(tr, steps, i);
    var f := tr[i].calls[c];
    assert Linked(f);
    AllAnchorsBound(f.transcript, f.extractions);
  }
}
