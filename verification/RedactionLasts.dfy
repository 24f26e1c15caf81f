/** When a redaction lasts. It is not permanent: work that was under way, or a
    late event, may write transcript-derived data again. Exactly the steps named
    here do so. */
module RedactionLasts {
  import opened Model
  import opened Ingestion
  import opened Stages
  import opened Protocol
  import opened Frames
  import opened Retention

  /** An event that stores turns again, or a terminal one that brings a recording. */
  predicate EventDiscloses(f: CallFile, p: Payload, conflict: bool) {
    Stores(f, p, conflict) || (IsTerminal(EventTypeOf(p)) && p.recording != "")
  }

  predicate AdviceDiscloses(advice: Advice) {
    advice.items != [] || exists i :: 0 <= i < |advice.drafts| && !Hidden(advice.drafts[i])
  }

  predicate Hidden(d: DraftItem) {
    d.subject == REDACTED && d.body == REDACTED
  }

  /** What a worker of the call, in phase `p`, is about to write. */
  predicate WorkDiscloses(f: CallFile, x: WorkStep, p: Phase) {
    match x
    case CommitExtraction(w, out) => out != Output(REDACTED_JSON, REDACTED, [])
    case CommitAdvice(w, advice, stamp) => AdviceDiscloses(advice)
    case CommitDocs(w) => p.Built? && p.docs != {} && BatchFits(f, p.docs)
    case _ => false
  }

  predicate Discloses(s: Sys, step: Step, c: CallId)
    requires c in s.calls
  {
    match step
    case Api(a) => false
    case Ingest(i) =>
      && i.CommitEvent? && i.id in s.deliveries && s.deliveries[i.id].phase == Resolved(c)
      && EventDiscloses(s.calls[c], s.deliveries[i.id].payload, i.conflict)
    case Work(x) =>
      && !x.Claim? && !x.StartMemory? && x.w in s.workers && s.workers[x.w].call == c
      && WorkDiscloses(s.calls[c], x, s.workers[x.w].phase)
  }

  // ----- one step -----

  lemma EventExact(f: CallFile, p: Payload, id: DeliveryId, stamp: Time, conflict: bool, g: CallFile)
    requires Projectable(p) && Scrubbed(f) && g == Logged(f, p, id, stamp, conflict)
    ensures Scrubbed(g) <==> !EventDiscloses(f, p, conflict)
  {}

  lemma ExtractedExact(f: CallFile, out: Output, loaded: Option<Transcript>)
    requires Scrubbed(f)
    ensures Scrubbed(Extracted(f, out, loaded)) <==> out == Output(REDACTED_JSON, REDACTED, [])
  {
    var g := Extracted(f, out, loaded);
    var n := |f.extractions|;
    assert g.extractions[n] == Extraction(out.json, out.summary, out.evidence);
    if out.evidence == [] { assert g.anchors == f.anchors; }
  }

  lemma AdvisedExact(f: CallFile, advice: Advice, stamp: Time)
    requires Scrubbed(f)
    ensures Scrubbed(Advised(f, advice, stamp)) <==> !AdviceDiscloses(advice)
  {
    var g := Advised(f, advice, stamp);
    if advice.items != [] {
      RowDiscloses(advice.items[0]);
      assert g.recommendations[|f.recommendations|] == RowFor(advice.items[0]);
    }
    forall i | 0 <= i < |advice.drafts|
      ensures g.drafts[|f.drafts| + i] == DraftFor(advice.drafts[i])
    {}
    forall i | 0 <= i < |advice.drafts|
      ensures Hidden(advice.drafts[i]) <==>
              (DraftFor(advice.drafts[i]).subject == Some(REDACTED) && DraftFor(advice.drafts[i]).body == REDACTED)
    {}
    forall i | 0 <= i < |g.drafts| ensures i < |f.drafts| || g.drafts[i] == DraftFor(advice.drafts[i - |f.drafts|]) {}
  }

  /** A stored payload carries its talk track; a redacted one does not. */
  lemma RowDiscloses(item: Item)
    ensures RowFor(item).payload != REDACTED_JSON
  {
    assert "talk_track" in RowFor(item).payload.fields;
    assert "talk_track" != "redacted" by { assert |"talk_track"| == 10 && |"redacted"| == 8; }
  }

  lemma DocsExact(f: CallFile, run: WorkerId, docs: set<DocType>)
    requires Scrubbed(f) && BatchFits(f, docs)
    ensures Scrubbed(WithDocs(f, run, docs)) <==> docs == {}
  {
    var g := WithDocs(f, run, docs);
    if t :| t in docs { assert t in g.docs && !g.docs[t].redacted; }
  }

  lemma StatusScrubbed(f: CallFile, g: CallFile, p: Processing, at: Time)
    requires g == f.(row := f.row.(processing := p, updatedAt := at))
    ensures Scrubbed(g) <==> Scrubbed(f)
  {}

  lemma PhaseExact(s: Sys, x: WorkStep, wk: Worker, f: CallFile, d: DealFile, k: Contact, e: Effect)
    requires PhaseTo(s, x, wk, f, d, k, e)
    requires Scrubbed(f)
    ensures Scrubbed(e.file) <==> !WorkDiscloses(f, x, wk.phase)
  {
    match x
    case CommitExtraction(w, out) => ExtractedExact(f, out, wk.phase.transcript);
    case CommitAdvice(w, advice, stamp) => AdvisedExact(f, advice, stamp);
    case CommitDocs(w) => if BatchFits(f, wk.phase.docs) { DocsExact(f, w, wk.phase.docs); }
    case _ => StatusScrubbed(f, e.file, e.file.row.processing, e.file.row.updatedAt);
  }

  lemma EffectExact(s: Sys, x: WorkStep, c: CallId, e: Effect)
    requires Effects(s, x, c, e) && Scrubbed(s.calls[c])
    ensures Scrubbed(e.file) <==> !Discloses(s, Work(x), c)
  {
    if x.Claim? || x.StartMemory? {
      StatusScrubbed(s.calls[c], e.file, e.file.row.processing, e.file.row.updatedAt);
    } else {
      var wk, f := s.workers[x.w], s.calls[c];
      PhaseExact(s, x, wk, f, s.deals[f.row.deal], s.contacts[f.row.contact], e);
    }
  }

  lemma WriteExact(s: Sys, x: WorkStep, s': Sys, b: CallId, e: Effect, c: CallId)
    requires WorkFrame(s, s', x.w, b, e) && (x.Claim? || x.StartMemory? || x.w in s.workers)
    requires c in s.calls && Scrubbed(s.calls[c]) && (x.w in s.workers ==> s.workers[x.w].call == b)
    requires b == c ==> (Scrubbed(e.file) <==> !Discloses(s, Work(x), c))
    ensures c in s'.calls && (Scrubbed(s'.calls[c]) <==> !Discloses(s, Work(x), c))
  {
    assert s'.calls[c] == if b == c then e.file else s.calls[c];
  }

  lemma WorkExact(s: Sys, x: WorkStep, s': Sys, c: CallId)
    requires WellFormed(s) && WorkTo(s, x, s') && c in s.calls && Scrubbed(s.calls[c])
    ensures c in s'.calls && (Scrubbed(s'.calls[c]) <==> !Discloses(s, Work(x), c))
  {
    var b, e := WorkKeepsFrame(s, x, s');
    if b == c { EffectExact(s, x, c, e); }
    WriteExact(s, x, s', b, e, c);
  }

  lemma IngestExact(s: Sys, i: IngestStep, s': Sys, c: CallId)
    requires IngestTo(s, i, s') && c in s.calls && Scrubbed(s.calls[c])
    ensures c in s'.calls && (Scrubbed(s'.calls[c]) <==> !Discloses(s, Ingest(i), c))
  {
    IngestKeepsFrame(s, i, s');
    if i.CommitEvent? {
      var b, p := CommitHasFrame(s, i.id, i.stamp, i.conflict, s');
      if b == c { EventExact(s.calls[c], p, i.id, i.stamp, i.conflict, s'.calls[c]); }
    }
  }

  lemma ApiScrubbed(s: Sys, a: ApiStep, s': Sys, c: CallId)
    requires ApiTo(s, a, s') && c in s.calls && Scrubbed(s.calls[c])
    ensures c in s'.calls && Scrubbed(s'.calls[c])
  {
    ApiKeepsFrame(s, a, s');
    assert ServedFile(s.calls[c], s'.calls[c], StampOf(a));
    RedactedScrubs(s.calls[c], StampOf(a));
  }

  lemma RedactedScrubs(f: CallFile, stamp: Time)
    ensures Scrubbed(Redacted(f, stamp))
  {}

  /** A step leaves a scrubbed call scrubbed if and only if it is none of: an
      event of the call that stores turns or brings a recording, the commit of an
      extraction, of advice, or of documents by a worker of the call. */
  lemma StepExact(s: Sys, step: Step, s': Sys, c: CallId)
    requires WellFormed(s) && StepTo(s, step, s') && c in s.calls && Scrubbed(s.calls[c])
    ensures c in s'.calls && (Scrubbed(s'.calls[c]) <==> !Discloses(s, step, c))
  {
    match step
    case Api(a) => ApiScrubbed(s, a, s', c);
    case Ingest(i) => IngestExact(s, i, s', c);
    case Work(x) => WorkExact(s, x, s', c);
  }

  // ----- runs -----

  ghost predicate ScrubbedAt(s: Sys, c: CallId) {
    c in s.calls && Scrubbed(s.calls[c])
  }

  /** The k-th step discloses data of the call. */
  predicate DisclosedBy(tr: seq<Sys>, steps: seq<Step>, k: nat, c: CallId)
    requires k < |steps| && |tr| == |steps| + 1
  {
    c in tr[k].calls && Discloses(tr[k], steps[k], c)
  }

  lemma NextExact(tr: seq<Sys>, steps: seq<Step>, k: nat, c: CallId)
    requires Run(tr, steps) && k < |steps| && ScrubbedAt(tr[k], c)
    ensures ScrubbedAt(tr[k + 1], c) <==> !DisclosedBy(tr, steps, k, c)
  {
    RunWellFormed(tr, steps, k);
    assert Happens(tr, steps, k);
    StepExact(tr[k], steps[k], tr[k + 1], c);
  }

  /** From a scrubbed state on, the call stays scrubbed up to state `j` if and
      only if no step on the way discloses data of it. */
  lemma {:induction false} ScrubbedLastsIff(tr: seq<Sys>, steps: seq<Step>, i: nat, j: nat, c: CallId)
    requires Run(tr, steps) && i <= j < |tr| && ScrubbedAt(tr[i], c)
    ensures (forall k :: i <= k <= j ==> ScrubbedAt(tr[k], c)) <==>
            (forall k :: i <= k < j ==> !DisclosedBy(tr, steps, k, c))
    decreases j - i
  {
    if i < j {
      ScrubbedLastsIff(tr, steps, i, j - 1, c);
      if forall k :: i <= k <= j - 1 ==> ScrubbedAt(tr[k], c) {
        assert ScrubbedAt(tr[j - 1], c);
        NextExact(tr, steps, j - 1, c);
      }
    }
  }

  /** The step redacts the call: by itself, or in a retention sweep. */
  predicate Redacts(s: Sys, step: Step, c: CallId) {
    step.Api? && match step.a
                 case Redact(b, _) => b == c
                 case Sweep(cutoff, _) => c in ExpiredCalls(s.calls, cutoff)
                 case _ => false
  }

  lemma RedactsScrubs(s: Sys, step: Step, s': Sys, c: CallId)
    requires StepTo(s, step, s') && Redacts(s, step, c)
    ensures ScrubbedAt(s', c)
  {
    if step.a.Redact? { RedactStep(s, c, step.a.stamp, s'); } else { SweepStep(s, step.a.cutoff, step.a.stamp, s', c); }
  }

  lemma RedactStep(s: Sys, c: CallId, stamp: Time, s': Sys)
    requires ApiTo(s, Redact(c, stamp), s')
    ensures ScrubbedAt(s', c)
  {
    RedactedScrubs(s.calls[c], stamp);
  }

  lemma SweepStep(s: Sys, cutoff: Time, stamp: Time, s': Sys, c: CallId)
    requires ApiTo(s, Sweep(cutoff, stamp), s') && c in ExpiredCalls(s.calls, cutoff)
    ensures ScrubbedAt(s', c)
  {
    RedactedScrubs(s.calls[c], stamp);
  }

  /** After the redaction of a call in a run, by the user or by the sweep, it stays
      scrubbed up to state `j` if and only if no step between discloses data of it. */
  lemma RedactionLastsIff(tr: seq<Sys>, steps: seq<Step>, i: nat, j: nat, c: CallId)
    requires Run(tr, steps) && i < j < |tr| && Redacts(tr[i], steps[i], c)
    ensures (forall k :: i < k <= j ==> ScrubbedAt(tr[k], c)) <==>
            (forall k :: i < k < j ==> !DisclosedBy(tr, steps, k, c))
  {
    assert Happens(tr, steps, i);
    RedactsScrubs(tr[i], steps[i], tr[i + 1], c);
    ScrubbedLastsIff(tr, steps, i + 1, j, c);
  }
}
