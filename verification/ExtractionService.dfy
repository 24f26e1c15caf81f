/** The extraction stage in the source's own form: the claim, the repair loop
    around the model, and the transaction that stores the snapshot and its
    anchors or rolls everything back. */
module ExtractionService {
  import opened Model
  import opened Stages
  import opened Protocol
  import opened Storage

  // ----- the claim -----

  method ClaimExtraction(db: Store, c: CallId) returns (claimed: bool)
    modifies db`calls
    ensures claimed <==>
              c in old(db.calls) && (old(db.calls)[c].row.processing == TranscriptFinalized
                                     || old(db.calls)[c].row.processing == FailedRetryable)
    ensures claimed ==>
              var f := old(db.calls)[c];
              db.calls == old(db.calls)[c := f.(row := f.row.(processing := ExtractionRunning))]
    ensures claimed == (c in old(db.calls) && Claimable(Extracting, old(db.calls)[c].row, 0))
    ensures db.calls == if claimed then AfterClaim(old(db.calls), c, Extracting, 0) else old(db.calls)
  {
    if c !in db.calls { return false; }
    var row := db.calls[c].row;
    if row.processing !in {TranscriptFinalized, FailedRetryable} { return false; }
    db.WriteRow(c, row.(processing := ExtractionRunning));
    claimed := true;
  }

  // ----- the model call -----

  /** What one call of the model returns: a valid extraction, output that does
      not validate, or any other exception. */
  datatype Answer = Valid(out: Output) | Invalid | Error

  /** How many calls are made at most: one, even for a negative setting. */
  function Attempts(maxRetries: int): (n: nat)
    ensures n >= 1 && (maxRetries >= 0 ==> n == maxRetries + 1)
  {
    if maxRetries < 0 then 1 else maxRetries + 1
  }

  /** The first answer from index `i` on that is not invalid, before index `n`. */
  function FirstDecisive(answer: nat -> Answer, i: nat, n: nat): Answer
    decreases n - i
  {
    if i >= n then Invalid else if !answer(i).Invalid? then answer(i) else FirstDecisive(answer, i + 1, n)
  }

  /** Repeats the call only after invalid output. */
  method CallWithRepair(answer: nat -> Answer, maxRetries: int) returns (r: Answer, used: nat)
    ensures r == FirstDecisive(answer, 0, Attempts(maxRetries))
    ensures 1 <= used <= Attempts(maxRetries) && r == answer(used - 1)
    ensures forall k: nat :: k < used - 1 ==> answer(k).Invalid?
    ensures r.Invalid? ==> used == Attempts(maxRetries)
  {
    used := 1;
    r := answer(0);
    while r.Invalid? && used < Attempts(maxRetries)
      invariant 1 <= used <= Attempts(maxRetries) && r == answer(used - 1)
      invariant forall k: nat :: k < used - 1 ==> answer(k).Invalid?
      invariant FirstDecisive(answer, 0, Attempts(maxRetries)) == FirstDecisive(answer, used - 1, Attempts(maxRetries))
    {
      r := answer(used);
      used := used + 1;
    }
  }

  // ----- the result -----

  /** The loaded utterances by sequence number. */
  method BySequence(t: Transcript) returns (rows: map<int, UtteranceId>)
    ensures forall n :: n in rows <==> 0 <= n < |t.turns|
    ensures forall n :: 0 <= n < |t.turns| ==> rows[n] == UtteranceId(t.batch, n)
  {
    rows := map[];
    for i := 0 to |t.turns|
      invariant forall n :: n in rows <==> 0 <= n < i
      invariant forall n :: 0 <= n < i ==> rows[n] == UtteranceId(t.batch, n)
    {
      rows := rows[i := UtteranceId(t.batch, i)];
    }
  }

  /** Adds the snapshot, then one anchor per evidence item. An anchor whose
      utterance is gone violates the foreign key; then nothing is kept. */
  method PersistExtraction(db: Store, c: CallId, out: Output, loaded: Transcript) returns (ok: bool)
    requires c in db.calls
    modifies db`calls
    ensures ok == LinksExist(old(db.calls)[c], Some(loaded), out.evidence)
    ensures db.calls == if ok then old(db.calls)[c := Extracted(old(db.calls)[c], out, Some(loaded))]
                        else old(db.calls)
  {
    var before := db.calls;
    var f := before[c];
    var rows := BySequence(loaded);
    var artifact := |f.extractions|;
    var snapshots := f.extractions + [Extraction(out.json, out.summary, out.evidence)];
    db.calls := db.calls[c := f.(extractions := snapshots)];
    ghost var all := AnchorsFor(Some(loaded), artifact, out.evidence);
    assert f.anchors + all[..0] == f.anchors;
    for i := 0 to |out.evidence|
      invariant db.calls == before[c := f.(extractions := snapshots, anchors := f.anchors + all[..i])]
      invariant forall j :: 0 <= j < i && AnchorFor(Some(loaded), 0, out.evidence[j]).utterance.Some? ==>
                  f.transcript.Some? && f.transcript.value.batch == loaded.batch
    {
      var ev := out.evidence[i];
      var matched := if ev.number in rows then Some(rows[ev.number]) else None;
      assert Anchor(artifact, ev, matched) == all[i];
      if matched.Some? && !(f.transcript.Some? && f.transcript.value.batch == loaded.batch) {
        assert AnchorFor(Some(loaded), 0, out.evidence[i]).utterance.Some?;
        db.calls := before;
        return false;
      }
      var g := db.calls[c];
      assert f.anchors + all[..i + 1] == f.anchors + all[..i] + [all[i]];
      db.calls := db.calls[c := g.(anchors := g.anchors + [Anchor(artifact, ev, matched)])];
    }
    assert all[..|out.evidence|] == all;
    db.WriteRow(c, db.calls[c].row.(processing := ExtractionCompleted));
    ok := true;
  }

  /** An evidence item points at a loaded utterance that is no longer stored. */
  ghost predicate Dangling(f: CallFile, loaded: Transcript, evidence: seq<Evidence>) {
    && (exists i :: 0 <= i < |evidence| && 0 <= evidence[i].number < |loaded.turns|)
    && !(f.transcript.Some? && f.transcript.value.batch == loaded.batch)
  }

  lemma LinksUnlessDangling(f: CallFile, loaded: Transcript, evidence: seq<Evidence>)
    ensures LinksExist(f, Some(loaded), evidence) <==> !Dangling(f, loaded, evidence)
  {
    assert forall i :: 0 <= i < |evidence| ==>
                         (AnchorFor(Some(loaded), 0, evidence[i]).utterance.Some?
                          <==> 0 <= evidence[i].number < |loaded.turns|);
  }

  /** Everything after the claim: no utterances and invalid output are retryable,
      another exception of the model call is terminal, and a failed write is rolled
      back and retryable; `fails` stands for any database error of the write other
      than a missing utterance. Snapshot and anchors are there exactly when the
      status says so; otherwise only the status changes. */
  method FinishExtraction(db: Store, c: CallId, loaded: Option<Transcript>, answer: nat -> Answer, maxRetries: int,
                          fails: bool)
    returns (status: Processing)
    requires c in db.calls
    modifies db`calls
    ensures loaded.None? ==> status == FailedRetryable
    ensures loaded.Some? ==>
              var r := FirstDecisive(answer, 0, Attempts(maxRetries));
              && (r.Invalid? ==> status == FailedRetryable) && (r.Error? ==> status == FailedTerminal)
              && (r.Valid? && !fails && !Dangling(old(db.calls)[c], loaded.value, r.out.evidence) ==>
                    status == ExtractionCompleted)
              && (r.Valid? && (fails || Dangling(old(db.calls)[c], loaded.value, r.out.evidence)) ==>
                    status == FailedRetryable)
    ensures var f, r := old(db.calls)[c], FirstDecisive(answer, 0, Attempts(maxRetries));
            db.calls == old(db.calls)[c :=
              if status == ExtractionCompleted then Extracted(f, r.out, loaded)
              else StatusWritten(f, status, f.row.updatedAt)]
  {
    var row := db.calls[c].row;
    status := FailedRetryable;
    if loaded.Some? {
      var r, used := CallWithRepair(answer, maxRetries);
      if r.Error? {
        status := FailedTerminal;
      } else if r.Valid? {
        var before := db.calls;
        LinksUnlessDangling(before[c], loaded.value, r.out.evidence);
        var ok := PersistExtraction(db, c, r.out, loaded.value);
        if ok && !fails { return ExtractionCompleted; }
        db.calls := before;
      }
    }
    db.WriteRow(c, row.(processing := status));
  }

  // ----- the protocol's steps are this run -----

  /** The step that ends an extraction run leaves the rows that `FinishExtraction`
      leaves, with the status of that ending. */
  lemma StepsAreTheRun(s: Sys, w: WorkerId, x: WorkStep, s': Sys)
    requires WorkTo(s, x, s') && x.w == w && (x.CommitExtraction? || x.FailExtraction?)
    ensures w in s.workers && s.workers[w].phase.Loaded? && s.workers[w].call in s.calls
    ensures var f, loaded := s.calls[s.workers[w].call], s.workers[w].phase.transcript;
            s'.calls == s.calls[s.workers[w].call :=
              if x.CommitExtraction? then Extracted(f, x.out, loaded)
              else f.(row := f.row.(processing := if x.terminal then FailedTerminal else FailedRetryable))]
    ensures x.CommitExtraction? ==>
              && s.workers[w].phase.transcript.Some?
              && !Dangling(s.calls[s.workers[w].call], s.workers[w].phase.transcript.value, x.out.evidence)
              && s'.calls[s.workers[w].call].row ==
                 s.calls[s.workers[w].call].row.(processing := ExtractionCompleted)
  {
    if x.CommitExtraction? {
      LinksUnlessDangling(s.calls[s.workers[w].call], s.workers[w].phase.transcript.value, x.out.evidence);
    }
  }
}
