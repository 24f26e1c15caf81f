/** The recommendation stage in the source's own form: the claim with stale
    takeover, and the transaction that stores one row per action and per draft. */
module RecommendationService {
  import opened Scoring
  import opened Model
  import opened Stages
  import opened Protocol
  import opened Storage

  method ClaimRecommendation(db: Store, c: CallId, now: Time, stamp: Time) returns (claimed: bool)
    modifies db`calls
    ensures claimed <==>
              c in old(db.calls) &&
              var row := old(db.calls)[c].row;
              || row.processing == RiskRunning || row.processing == FailedRetryable
              || (row.processing == RecommendationRunning && row.updatedAt + 60 <= now)
    ensures claimed ==>
              var f := old(db.calls)[c];
              db.calls == old(db.calls)[c := f.(row := f.row.(processing := RecommendationRunning, updatedAt := stamp))]
    ensures claimed == (c in old(db.calls) && Claimable(Advising, old(db.calls)[c].row, now))
    ensures db.calls == if claimed then AfterClaim(old(db.calls), c, Advising, stamp) else old(db.calls)
  {
    if c !in db.calls { return false; }
    var row := db.calls[c].row;
    var canResumeStale := row.processing == RecommendationRunning && now - row.updatedAt >= STALE_AFTER;
    if row.processing !in {RiskRunning, FailedRetryable} && !canResumeStale { return false; }
    db.WriteRow(c, row.(processing := RecommendationRunning, updatedAt := stamp));
    claimed := true;
  }

  /** One row per recommended action. */
  method AddRecommendations(f: CallFile, items: seq<Item>) returns (g: CallFile, rows: seq<Recommendation>)
    ensures |rows| == |items|
    ensures forall i :: 0 <= i < |rows| ==>
              && rows[i].action == items[i].action && rows[i].reason == items[i].reason
              && rows[i].payload == Obj(map["talk_track" := Str(items[i].talkTrack)])
    ensures rows == RowsFor(items) && g == f.(recommendations := f.recommendations + rows)
  {
    g, rows := f, [];
    assert f.recommendations + rows == f.recommendations;
    for i := 0 to |items|
      invariant rows == RowsFor(items)[..i]
      invariant g == f.(recommendations := f.recommendations + rows)
    {
      var row := Recommendation(items[i].action, items[i].reason, Obj(map["talk_track" := Str(items[i].talkTrack)]));
      assert RowsFor(items)[i] == row;
      g := g.(recommendations := g.recommendations + [row]);
      assert f.recommendations + (rows + [row]) == f.recommendations + rows + [row];
      rows := rows + [row];
    }
  }

  /** One row per draft; an empty subject becomes none. */
  method AddDrafts(f: CallFile, items: seq<DraftItem>) returns (g: CallFile)
    ensures |g.drafts| == |f.drafts| + |items|
    ensures forall i :: 0 <= i < |items| ==>
              var row := g.drafts[|f.drafts| + i];
              && row.kind == items[i].kind && row.body == items[i].body
              && (row.subject == if items[i].subject == "" then None else Some(items[i].subject))
    ensures g == f.(drafts := f.drafts + DraftsFor(items))
  {
    g := f;
    assert f.drafts + DraftsFor(items)[..0] == f.drafts;
    for i := 0 to |items|
      invariant g == f.(drafts := f.drafts + DraftsFor(items)[..i])
    {
      var subject := if items[i].subject == "" then None else Some(items[i].subject);
      var row := Draft(items[i].kind, subject, items[i].body);
      assert DraftsFor(items)[i] == row;
      assert f.drafts + DraftsFor(items)[..i + 1] == f.drafts + DraftsFor(items)[..i] + [row];
      g := g.(drafts := g.drafts + [row]);
    }
  }

  /** The second transaction. `fails` stands for any exception in it. Returns the
      stored recommendations; a memory job follows exactly when there are some. */
  method PersistAdvice(db: Store, c: CallId, advice: Advice, stamp: Time, fails: bool)
    returns (stored: seq<Recommendation>)
    requires db.View().Has(c)
    modifies db`calls
    ensures var f, d := old(db.calls)[c], db.deals[old(db.calls)[c].row.deal];
            var done := f.extractions != [] && d.risks != [] && !fails;
            && c in db.calls
            && db.calls[c].row == f.row.(processing := if done then RecommendationCompleted else FailedRetryable,
                                         updatedAt := stamp)
            && |stored| == if done then |advice.items| else 0
    ensures var f, d := old(db.calls)[c], db.deals[old(db.calls)[c].row.deal];
            if f.extractions == [] || d.risks == [] || fails then
              stored == [] && db.calls == old(db.calls)[c := StatusWritten(f, FailedRetryable, stamp)]
            else
              stored == RowsFor(advice.items) && db.calls == old(db.calls)[c := Advised(f, advice, stamp)]
  {
    var f := db.calls[c];
    stored := [];
    if f.extractions == [] || db.deals[f.row.deal].risks == [] {
      db.WriteRow(c, f.row.(processing := FailedRetryable, updatedAt := stamp));
      return;
    }
    var g, rows := AddRecommendations(f, advice.items);
    g := AddDrafts(g, advice.drafts);
    if fails {
      db.WriteRow(c, f.row.(processing := FailedRetryable, updatedAt := stamp));
      return;
    }
    db.calls := db.calls[c := g];
    db.WriteRow(c, g.row.(processing := RecommendationCompleted, updatedAt := stamp));
    stored := rows;
  }
}
