/** Redaction in the source's own form: one bulk update per table for a batch of
    calls, and the retention job that selects the batch. */
module RetentionService {
  import opened Model
  import opened Stages
  import opened Storage
  import opened Retention

  // ----- one bulk update per table -----

  /** `UPDATE ... WHERE call_session_id IN (ids)` on one table. */
  method BulkUpdate(db: Store, ids: seq<CallId>, write: CallFile -> CallFile)
    modifies db`calls
    ensures db.calls.Keys == old(db.calls).Keys
    ensures forall c :: c in db.calls ==>
              db.calls[c] == if c in ids then write(old(db.calls)[c]) else old(db.calls)[c]
  {
    db.calls := map c | c in db.calls :: if c in ids then write(db.calls[c]) else db.calls[c];
  }

  method RedactExtractionTables(db: Store, ids: seq<CallId>)
    modifies db`calls
    ensures db.calls.Keys == old(db.calls).Keys
    ensures forall c :: c in db.calls ==>
              var f := old(db.calls)[c];
              db.calls[c] == if c in ids then f.(transcript := None, anchors := ScrubAnchors(f.anchors),
                                                 extractions := ScrubExtractions(f.extractions))
                             else f
  {
    BulkUpdate(db, ids, (f: CallFile) => f.(transcript := None));
    BulkUpdate(db, ids, (f: CallFile) => f.(anchors := ScrubAnchors(f.anchors)));
    BulkUpdate(db, ids, (f: CallFile) => f.(extractions := ScrubExtractions(f.extractions)));
  }

  method RedactAdviceTables(db: Store, ids: seq<CallId>)
    modifies db`calls
    ensures db.calls.Keys == old(db.calls).Keys
    ensures forall c :: c in db.calls ==>
              var f := old(db.calls)[c];
              db.calls[c] == if c in ids then f.(docs := RedactedDocs(f.docs), drafts := ScrubDrafts(f.drafts),
                                                 recommendations := ScrubRecommendations(f.recommendations))
                             else f
  {
    BulkUpdate(db, ids, (f: CallFile) => f.(docs := RedactedDocs(f.docs)));
    BulkUpdate(db, ids, (f: CallFile) => f.(drafts := ScrubDrafts(f.drafts)));
    BulkUpdate(db, ids, (f: CallFile) => f.(recommendations := ScrubRecommendations(f.recommendations)));
  }

  /** The statements one after the other; together they redact each listed call
      completely and nothing else. */
  method RedactBatch(db: Store, ids: seq<CallId>, stamp: Time)
    modifies db`calls
    ensures db.calls == RedactAll(old(db.calls), ToSet(ids), stamp)
  {
    if ids == [] {
      assert RedactAll(db.calls, ToSet(ids), stamp) == db.calls;
      return;
    }
    RedactExtractionTables(db, ids);
    RedactAdviceTables(db, ids);
    BulkUpdate(db, ids, (f: CallFile) => f.(row := f.row.(redacted := true, recording := None, updatedAt := stamp)));
    forall c | c in db.calls ensures db.calls[c] == RedactAll(old(db.calls), ToSet(ids), stamp)[c] {
      if c in ids { assert db.calls[c] == Redacted(old(db.calls)[c], stamp); }
    }
  }

  // ----- the retention job -----

  lemma DueCalls(calls: map<CallId, CallFile>, cutoff: Time)
    ensures ExpiredCalls(calls, cutoff) ==
            set c | c in calls && calls[c].row.endedAt.Some? && calls[c].row.endedAt.value < cutoff
                    && !calls[c].row.redacted
  {}

  method ExpiredIds(calls: map<CallId, CallFile>, cutoff: Time) returns (ids: seq<CallId>)
    ensures Distinct(ids) && ToSet(ids) == ExpiredCalls(calls, cutoff)
  {
    ids := [];
    var rest := calls.Keys;
    while rest != {}
      invariant rest <= calls.Keys && Distinct(ids)
      invariant forall c :: c in ids <==> c in calls && c !in rest && Expired(calls[c].row, cutoff)
      decreases |rest|
    {
      var c :| c in rest;
      var row := calls[c].row;
      if row.endedAt.Some? && row.endedAt.value < cutoff && !row.redacted { ids := ids + [c]; }
      rest := rest - {c};
    }
  }

  /** Returns how many calls were redacted; a second run right after finds none. */
  method ApplyRetention(db: Store, cutoff: Time, stamp: Time) returns (count: nat)
    modifies db`calls
    ensures db.calls.Keys == old(db.calls).Keys
    ensures forall c :: c in db.calls ==> SweptFile(old(db.calls)[c], db.calls[c], cutoff, stamp)
    ensures count == |set c | c in old(db.calls) && old(db.calls)[c].row.endedAt.Some?
                               && old(db.calls)[c].row.endedAt.value < cutoff && !old(db.calls)[c].row.redacted|
    ensures db.calls == Swept(old(db.calls), cutoff, stamp) && count == |ExpiredCalls(old(db.calls), cutoff)|
    ensures ExpiredCalls(db.calls, cutoff) == {}
  {
    var ids := ExpiredIds(db.calls, cutoff);
    DistinctSize(ids);
    DueCalls(db.calls, cutoff);
    forall c | c in db.calls
      ensures SweptFile(db.calls[c], Swept(db.calls, cutoff, stamp)[c], cutoff, stamp)
    {
      SweepTouchesExpiredOnly(db.calls, cutoff, stamp, c);
    }
    if ids == [] {
      assert Swept(db.calls, cutoff, stamp) == db.calls;
      return 0;
    }
    RedactBatch(db, ids, stamp);
    count := |ids|;
    forall c | c in db.calls ensures !Expired(db.calls[c].row, cutoff) {
      assert c in ExpiredCalls(old(db.calls), cutoff) <==> Expired(old(db.calls)[c].row, cutoff);
    }
  }
}
