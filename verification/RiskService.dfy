/** The risk stage in the source's own form: a claim transaction, and a second
    transaction that reads under the deal lock, scores, builds its updates step
    by step and writes them. Both are proved against the functions the protocol
    uses for the same steps. */
module RiskService {
  import opened Text
  import opened Scoring
  import opened Scorer
  import opened Model
  import opened Stages
  import opened Protocol
  import opened CoverageHistory
  import opened Storage

  // ----- the claim -----

  /** Takes the call over when its status allows it, or when another risk run
      left it updating for too long. */
  method ClaimRisk(db: Store, c: CallId, now: Time, stamp: Time) returns (claimed: bool)
    modifies db`calls
    ensures claimed <==>
              c in old(db.calls) &&
              var row := old(db.calls)[c].row;
              || row.processing == ExtractionCompleted || row.processing == FailedRetryable
              || (row.processing == SnapshotsUpdating && row.updatedAt + 60 <= now)
    ensures claimed ==>
              var row := old(db.calls)[c].row.(processing := SnapshotsUpdating, updatedAt := stamp);
              db.calls == old(db.calls)[c := old(db.calls)[c].(row := row)]
    ensures claimed == (c in old(db.calls) && Claimable(RiskScoring, old(db.calls)[c].row, now))
    ensures db.calls == if claimed then AfterClaim(old(db.calls), c, RiskScoring, stamp) else old(db.calls)
  {
    if c !in db.calls { return false; }
    var row := db.calls[c].row;
    var canResumeStale := row.processing == SnapshotsUpdating && now - row.updatedAt >= STALE_AFTER;
    if row.processing !in {ExtractionCompleted, FailedRetryable} && !canResumeStale { return false; }
    db.WriteRow(c, row.(processing := SnapshotsUpdating, updatedAt := stamp));
    claimed := true;
  }

  // ----- reading -----

  /** The stakeholders of a deal, in whatever order the database returns them. */
  method LoadStakeholders(contacts: map<ContactId, Contact>, d: DealId) returns (list: seq<ContactId>)
    ensures Distinct(list) && forall k :: k in list <==> k in contacts && contacts[k].deal == d
    ensures ToSet(list) == Team(contacts, d)
  {
    list := [];
    var rest := contacts.Keys;
    while rest != {}
      invariant rest <= contacts.Keys && Distinct(list)
      invariant forall k :: k in list <==> k in contacts && k !in rest && contacts[k].deal == d
      decreases |rest|
    {
      var k :| k in rest;
      if contacts[k].deal == d { list := list + [k]; }
      rest := rest - {k};
    }
  }

  method AnyBuyer(contacts: map<ContactId, Contact>, list: seq<ContactId>, e: Json) returns (found: bool)
    requires forall k :: k in list ==> k in contacts
    ensures found <==>
              || (exists k :: k in list && contacts[k].role == Some("economic_buyer"))
              || Reads(e, "stakeholder", "role_label", "economic_buyer")
    ensures found == HasBuyer(contacts, ToSet(list), e)
  {
    for i := 0 to |list|
      invariant forall j :: 0 <= j < i ==> contacts[list[j]].role != Some(BUYER)
    {
      if contacts[list[i]].role == Some(BUYER) {
        assert list[i] in ToSet(list);
        return true;
      }
    }
    found := RoleLabel(e) == Str(BUYER);
  }

  // ----- what is reported -----

  function SignedPoints(change: Change): int {
    match change
    case Increased(n) => n
    case Decreased(n) => 0 - n
    case Unchanged => 0
  }

  method Summarise(prev: Option<RiskSnapshot>, score: int, factors: seq<string>)
    returns (change: Option<Change>, novel: set<string>)
    ensures change.None? <==> prev.None?
    ensures prev.Some? ==> SignedPoints(change.value) == score - prev.value.score
    ensures forall t :: t in novel <==> prev.Some? && t in factors && t !in prev.value.factors
    ensures change == ChangeFrom(prev, score) && novel == NovelFrom(prev, factors)
  {
    change, novel := None, {};
    if prev.Some? {
      var delta := score - prev.value.score;
      if delta > 0 {
        change := Some(Increased(delta));
      } else if delta < 0 {
        change := Some(Decreased(-delta));
      } else {
        change := Some(Unchanged);
      }
      for i := 0 to |factors|
        invariant novel == ToSet(factors[..i]) - ToSet(prev.value.factors)
      {
        assert factors[..i + 1] == factors[..i] + [factors[i]];
        if factors[i] !in prev.value.factors { novel := novel + {factors[i]}; }
      }
      assert factors[..|factors|] == factors;
    }
  }

  // ----- coverage -----

  predicate Dated(loaded: map<ContactId, Contact>, k: ContactId) {
    k in loaded && loaded[k].lastContacted.Some?
  }

  function ReachedIn(list: seq<ContactId>, loaded: map<ContactId, Contact>): set<ContactId> {
    set k | k in list && Contacted(loaded, k)
  }

  lemma ReachedPush(list: seq<ContactId>, k: ContactId, loaded: map<ContactId, Contact>)
    requires k !in list
    ensures |ReachedIn(list + [k], loaded)| == |ReachedIn(list, loaded)| + if Contacted(loaded, k) then 1 else 0
  {
    assert ReachedIn(list + [k], loaded) == ReachedIn(list, loaded) + if Contacted(loaded, k) then {k} else {};
  }

  /** Counts the contacted rows of the loaded list and compares with its length. */
  method CountCoverage(list: seq<ContactId>, loaded: map<ContactId, Contact>) returns (coverage: Coverage)
    requires Distinct(list)
    ensures coverage == Full <==> list != [] && forall k :: k in list ==> Dated(loaded, k)
    ensures coverage == NoCoverage <==> forall k :: k in list ==> !Dated(loaded, k)
    ensures coverage == CoverageOf(loaded, ToSet(list), None)
  {
    var contacted := 0;
    for i := 0 to |list|
      invariant contacted == |ReachedIn(list[..i], loaded)|
    {
      assert list[..i + 1] == list[..i] + [list[i]];
      ReachedPush(list[..i], list[i], loaded);
      if list[i] in loaded && loaded[list[i]].lastContacted.Some? { contacted := contacted + 1; }
    }
    assert list[..|list|] == list;
    DistinctSize(list);
    CoverageMeaning(loaded, ToSet(list), None);
    assert forall k :: k in list <==> k in ToSet(list);
    assert ReachedIn(list, loaded) == set k | k in ToSet(list) && (Contacted(loaded, k) || None == Some(k));
    if |list| == 0 {
      coverage := NoCoverage;
    } else if contacted >= |list| {
      coverage := Full;
    } else if contacted > 0 {
      coverage := Partial;
    } else {
      coverage := NoCoverage;
    }
  }

  /** Counting after the in-memory update is counting the target as reached. */
  lemma UpdatedCoverage(contacts: map<ContactId, Contact>, team: set<ContactId>, target: Option<ContactId>,
        loaded: map<ContactId, Contact>)
    requires forall k :: k in team ==> (Contacted(loaded, k) <==> Reached(contacts, k, target))
    ensures CoverageOf(loaded, team, None) == CoverageOf(contacts, team, target)
  {
    assert (set k | k in team && (Contacted(loaded, k) || None == Some(k)))
        == (set k | k in team && (Contacted(contacts, k) || target == Some(k)));
  }

  // ----- the second transaction -----

  /** The extraction names a role: a text neither blank nor `unknown`. */
  predicate NamesRole(e: Json) {
    && Has(e, "stakeholder", "role_label") && Entry(e, "stakeholder", "role_label").Str?
    && !Blank(Entry(e, "stakeholder", "role_label").s) && Entry(e, "stakeholder", "role_label").s != "unknown"
  }

  function EntryOrNull(e: Json, section: string, key: string): Json {
    if Has(e, section, key) then Entry(e, section, key) else Null
  }

  /** The row after a call, entry by entry: role, confidence (only with the role)
      and sentiment are those extracted when there are such, otherwise as before;
      a snapshot of all three is appended. */
  predicate Refreshes(k: Contact, ext: Extraction, stamp: Time, row: Contact) {
    var e := ext.json;
    var confidence, sentiment :=
      EntryOrNull(e, "stakeholder", "role_confidence"), EntryOrNull(e, "interaction", "sentiment");
    && row.deal == k.deal && row.lastContacted == Some(stamp)
    && row.role == (if NamesRole(e) then Some(Entry(e, "stakeholder", "role_label").s) else k.role)
    && row.confidence == (if NamesRole(e) && confidence != Null then confidence else k.confidence)
    && row.sentiment == (if Filled(sentiment) then sentiment else k.sentiment)
    && row.snapshots == k.snapshots +
         [ContactSnapshot(ext.summary, EntryOrNull(e, "stakeholder", "role_label"), confidence, sentiment)]
  }

  /** The stakeholder's update record, built field by field, and its snapshot. */
  method StakeholderUpdate(k: Contact, ext: Extraction, stamp: Time) returns (row: Contact)
    ensures Refreshes(k, ext, stamp, row)
    ensures row == Refreshed(k, UpdateFrom(ext), stamp)
  {
    TruthyIff(Field(Field(ext.json, "interaction"), "sentiment"));
    row := k.(lastContacted := Some(stamp));
    var section := Field(ext.json, "stakeholder");
    var role, confidence := Field(section, "role_label"), Field(section, "role_confidence");
    if role.Str? && !Blank(role.s) && role.s != "unknown" {
      row := row.(role := Some(role.s));
      if confidence != Null { row := row.(confidence := confidence); }
    }
    var sentiment := Field(Field(ext.json, "interaction"), "sentiment");
    if Truthy(sentiment) { row := row.(sentiment := sentiment); }
    row := row.(snapshots := row.snapshots + [ContactSnapshot(ext.summary, role, confidence, sentiment)]);
  }

  /** Score and factors are those of the extraction, the size of the deal's team,
      and whether the team or the extraction names an economic buyer. */
  ghost predicate TeamScored(contacts: map<ContactId, Contact>, d: DealId, e: Json, score: int, factors: seq<string>) {
    var team := set k | k in contacts && contacts[k].deal == d;
    var buyer := (exists k :: k in team && contacts[k].role == Some("economic_buyer"))
                 || Reads(e, "stakeholder", "role_label", "economic_buyer");
    Scored(e, |team|, Bool(buyer), score, factors)
  }

  /** Loads the team and runs the rules. */
  method ScoreCall(contacts: map<ContactId, Contact>, d: DealId, e: Json)
    returns (list: seq<ContactId>, score: int, factors: seq<string>)
    ensures Distinct(list) && ToSet(list) == Team(contacts, d) && forall k :: k in list ==> k in contacts
    ensures score == Score(FactsFor(contacts, d, e)) && factors == Factors(FactsFor(contacts, d, e))
  {
    list := LoadStakeholders(contacts, d);
    assert forall k :: k in list ==> k in ToSet(list);
    var buyer := AnyBuyer(contacts, list, e);
    DistinctSize(list);
    score, factors := ScoreExtraction(e, |list|, Bool(buyer));
  }

  /** Coverage counted after the in-memory update of one stakeholder. */
  method CoverUpdated(contacts: map<ContactId, Contact>, list: seq<ContactId>, k: ContactId, updated: Contact)
    returns (coverage: Coverage)
    requires Distinct(list) && k in contacts && updated.lastContacted.Some?
    ensures coverage == CoverageOf(contacts, ToSet(list), Some(k))
  {
    var loaded := contacts[k := updated];
    coverage := CountCoverage(list, loaded);
    UpdatedCoverage(contacts, ToSet(list), Some(k), loaded);
  }

  lemma SectionsReadable(e: Json)
    ensures RiskReadable(e) <==> HasSections(e)
  {}

  lemma ScoreMeans(e: Json, stakeholders: int, buyer: bool)
    ensures var f := FactsOf(e, stakeholders, Bool(buyer)); Scored(e, stakeholders, Bool(buyer), Score(f), Factors(f))
  {
    FirstRead(e, stakeholders, Bool(buyer));
    BlockersRead(e, stakeholders, Bool(buyer));
    LastRead(e, stakeholders, Bool(buyer));
    FactorsOnly(FactsOf(e, stakeholders, Bool(buyer)));
    ScoreExplained(FactsOf(e, stakeholders, Bool(buyer)));
  }

  lemma UpdateMeans(k: Contact, ext: Extraction, stamp: Time)
    ensures Refreshes(k, ext, stamp, Refreshed(k, UpdateFrom(ext), stamp))
  {
    TruthyIff(Field(Field(ext.json, "interaction"), "sentiment"));
  }

  lemma TeamMeans(contacts: map<ContactId, Contact>, d: DealId, e: Json)
    ensures TeamScored(contacts, d, e, Score(FactsFor(contacts, d, e)), Factors(FactsFor(contacts, d, e)))
  {
    var team := Team(contacts, d);
    assert team == set k | k in contacts && contacts[k].deal == d;
    var buyer := (exists k :: k in team && contacts[k].role == Some("economic_buyer"))
                 || Reads(e, "stakeholder", "role_label", "economic_buyer");
    assert HasBuyer(contacts, team, e) == buyer;
    ScoreMeans(e, |team|, buyer);
  }

  /** What a risk run reports, over the extraction's entries and the deal's team:
      score, factors and level, the summary and signals handed on, and how the
      call's stakeholder is updated if it belongs to the deal. */
  lemma RiskMeans(contacts: map<ContactId, Contact>, c: CallId, row: Call, ext: Extraction,
        prev: Option<RiskSnapshot>, k: Contact, stamp: Time)
    ensures var r := RiskOf(contacts, c, row, ext, prev);
            && r.risk.call == c && LevelFits(r.risk.score, r.risk.level)
            && TeamScored(contacts, row.deal, ext.json, r.risk.score, r.risk.factors)
            && r.snapshot.summary == ext.summary
            && r.snapshot.signals == (if ext.json.Obj? && "deal_signals" in ext.json.fields
                                      then ext.json.fields["deal_signals"] else Obj(map[]))
            && (r.target == Some(row.contact) <==> row.contact in contacts && contacts[row.contact].deal == row.deal)
            && Refreshes(k, ext, stamp, Refreshed(k, r.update, stamp))
  {
    TeamMeans(contacts, row.deal, ext.json);
    UpdateMeans(k, ext, stamp);
  }

  /** Scoring, change summary, stakeholder update and coverage, in the source's
      order: the result is the protocol's, and `updated` the stakeholder's new row. */
  method ComputeRisk(contacts: map<ContactId, Contact>, c: CallId, row: Call, ext: Extraction,
        prev: Option<RiskSnapshot>, stamp: Time)
    returns (risk: RiskSnapshot, snapshot: DealSnapshot, updated: Contact)
    requires row.contact in contacts && contacts[row.contact].deal == row.deal
    ensures var res := RiskOf(contacts, c, row, ext, prev);
            && risk == res.risk && snapshot == res.snapshot
            && updated == Touched(contacts[row.contact], row.contact, res, stamp)
  {
    var list, score, factors := ScoreCall(contacts, row.deal, ext.json);
    assert row.contact in Team(contacts, row.deal);
    var change, novel := Summarise(prev, score, factors);
    updated := StakeholderUpdate(contacts[row.contact], ext, stamp);
    var coverage := CoverUpdated(contacts, list, row.contact, updated);
    risk := RiskSnapshot(c, score, RiskLevel(score), factors, change, novel);
    snapshot := DealSnapshot(ext.summary, coverage, SignalsOf(ext.json), ToSet(list));
  }

  /** The tables after a run that computed its result and wrote it. */
  function RiskWritten(t: Tables, c: CallId, stamp: Time): Tables
    requires t.Has(c) && t.calls[c].extractions != []
  {
    var f := t.calls[c];
    var d := t.deals[f.row.deal];
    var res := RiskOf(t.contacts, c, f.row, LastOf(f.extractions), Latest(d.risks));
    Tables(t.calls[c := StatusWritten(f, RiskRunning, stamp)],
           t.deals[f.row.deal := DealUpdated(d, res)],
           t.contacts[f.row.contact := Touched(t.contacts[f.row.contact], f.row.contact, res, stamp)])
  }

  /** The tables after the second transaction: everything the run computed, or
      the retryable status when the extraction is missing or cannot be read.
      `fails` stands for any other exception in it. */
  function RiskTransaction(t: Tables, c: CallId, stamp: Time, fails: bool): Tables
    requires t.Has(c)
  {
    var f := t.calls[c];
    if f.extractions == [] || !RiskReadable(LastOf(f.extractions).json) || fails then
      t.(calls := t.calls[c := StatusWritten(f, FailedRetryable, stamp)])
    else RiskWritten(t, c, stamp)
  }

  /** An object whose sections `stakeholder` and `interaction` are objects or missing. */
  predicate HasSections(e: Json) {
    && e.Obj? && ("stakeholder" in e.fields ==> e.fields["stakeholder"].Obj?)
    && ("interaction" in e.fields ==> e.fields["interaction"].Obj?)
  }

  /** Appends both snapshots and copies them to the deal's columns. */
  method WriteDeal(db: Store, d: DealId, risk: RiskSnapshot, snapshot: DealSnapshot)
    requires d in db.deals
    modifies db`deals
    ensures forall r: RiskResult :: r.risk == risk && r.snapshot == snapshot ==>
              db.deals == old(db.deals)[d := DealUpdated(old(db.deals)[d], r)]
    ensures d in db.deals && db.deals[d].risks == old(db.deals)[d].risks + [risk]
  {
    var deal := db.deals[d];
    var row := Deal(Some(risk.score), Some(risk.level), Some(snapshot.coverage), Some(snapshot.summary));
    db.deals := db.deals[d := DealFile(row, deal.risks + [risk], deal.snapshots + [snapshot], None)];
  }

  /** Computes under the lock and writes all rows. */
  method WriteRisk(db: Store, c: CallId, stamp: Time) returns (risk: RiskSnapshot)
    requires db.View().Has(c) && db.calls[c].extractions != []
    modifies db
    ensures db.View() == RiskWritten(old(db.View()), c, stamp)
    ensures var d := old(db.calls)[c].row.deal;
            d in db.deals && db.deals[d].risks == old(db.deals)[d].risks + [risk]
  {
    var f := db.calls[c];
    var deal := db.deals[f.row.deal];
    var extraction := f.extractions[|f.extractions| - 1];
    var prev := if deal.risks == [] then None else Some(deal.risks[|deal.risks| - 1]);
    assert prev == Latest(deal.risks) && extraction == LastOf(f.extractions);
    var snapshot, updated;
    risk, snapshot, updated := ComputeRisk(db.contacts, c, f.row, extraction, prev, stamp);
    db.contacts := db.contacts[f.row.contact := updated];
    WriteDeal(db, f.row.deal, risk, snapshot);
    db.WriteRow(c, f.row.(processing := RiskRunning, updatedAt := stamp));
  }

  /** The whole second transaction: an exception in it undoes its writes and
      leaves the retryable status. */
  method UpdateRisk(db: Store, c: CallId, stamp: Time, fails: bool) returns (r: Option<RiskSnapshot>)
    requires db.View().Has(c)
    modifies db
    ensures r.Some? <==>
              !fails && old(db.calls)[c].extractions != [] && HasSections(LastOf(old(db.calls)[c].extractions).json)
    ensures c in db.calls && db.calls[c].row ==
              old(db.calls)[c].row.(processing := if r.Some? then RiskRunning else FailedRetryable, updatedAt := stamp)
    ensures db.View() == RiskTransaction(old(db.View()), c, stamp, fails)
    ensures var d := old(db.calls)[c].row.deal;
            d in db.deals && db.deals[d].risks == old(db.deals)[d].risks + if r.Some? then [r.value] else []
  {
    var f := db.calls[c];
    if f.extractions != [] { SectionsReadable(LastOf(f.extractions).json); }
    if f.extractions == [] || !RiskReadable(f.extractions[|f.extractions| - 1].json) {
      db.WriteRow(c, f.row.(processing := FailedRetryable, updatedAt := stamp));
      return None;
    }
    var before := db.View();
    var risk := WriteRisk(db, c, stamp);
    if fails {
      db.calls, db.deals, db.contacts := before.calls, before.deals, before.contacts;
      db.WriteRow(c, f.row.(processing := FailedRetryable, updatedAt := stamp));
      return None;
    }
    r := Some(risk);
  }

  // ----- the protocol's steps are this transaction -----

  predicate Locks(s: Sys, w: WorkerId, s1: Sys) {
    && w in s.workers && Present(s, s.workers[w].call)
    && s1.calls == s.calls && s1.contacts == s.contacts
    && var d := s.calls[s.workers[w].call].row.deal;
    && s1.deals == s.deals[d := s.deals[d].(lock := Some(w))]
    && w in s1.workers && s1.workers[w].call == s.workers[w].call
  }

  predicate Computes(s: Sys, w: WorkerId, s': Sys) {
    && w in s.workers && Present(s, s.workers[w].call)
    && s'.calls == s.calls && s'.contacts == s.contacts && s'.deals == s.deals
    && var f := s.calls[s.workers[w].call];
    && f.extractions != [] && RiskReadable(LastOf(f.extractions).json)
    && w in s'.workers && s'.workers[w].call == s.workers[w].call
    && var prev := Latest(s.deals[f.row.deal].risks);
    && s'.workers[w].phase == Computed(RiskOf(s.contacts, s.workers[w].call, f.row, LastOf(f.extractions), prev))
  }

  predicate Writes(s: Sys, w: WorkerId, stamp: Time, s': Sys) {
    && w in s.workers && Present(s, s.workers[w].call) && s.workers[w].phase.Computed?
    && var f, r := s.calls[s.workers[w].call], s.workers[w].phase.result;
    && s'.calls == s.calls[s.workers[w].call := StatusWritten(f, RiskRunning, stamp)]
    && s'.deals == s.deals[f.row.deal := DealUpdated(s.deals[f.row.deal], r)]
    && s'.contacts == s.contacts[f.row.contact := Touched(s.contacts[f.row.contact], f.row.contact, r, stamp)]
  }

  lemma LockStep(s: Sys, w: WorkerId, s': Sys)
    requires WorkTo(s, LockDeal(w), s')
    ensures Locks(s, w, s')
  {}

  lemma ComputeStep(s: Sys, w: WorkerId, s': Sys)
    requires WorkTo(s, WorkStep.ComputeRisk(w), s')
    ensures Computes(s, w, s')
  {
    var wk := s.workers[w];
    var f := s.calls[wk.call];
    var d, k := s.deals[f.row.deal], s.contacts[f.row.contact];
    var e := PhaseEffect(s, WorkStep.ComputeRisk(w), wk, f, d, k);
    assert e == Effect(f, wk.(phase := e.worker.phase), d, k, multiset{});
    WriteComputes(s, w, e, s');
  }

  lemma WriteComputes(s: Sys, w: WorkerId, e: Effect, s': Sys)
    requires w in s.workers && Present(s, s.workers[w].call) && s' == Write(s, w, s.workers[w].call, e)
    requires var wk := s.workers[w];
             var f := s.calls[wk.call];
             var prev := Latest(s.deals[f.row.deal].risks);
             && f.extractions != [] && RiskReadable(LastOf(f.extractions).json)
             && e.file == f && e.deal == s.deals[f.row.deal] && e.contact == s.contacts[f.row.contact]
             && e.worker.call == wk.call
             && e.worker.phase == Computed(RiskOf(s.contacts, wk.call, f.row, LastOf(f.extractions), prev))
    ensures Computes(s, w, s')
  {}

  lemma CommitStep(s: Sys, w: WorkerId, stamp: Time, s': Sys)
    requires WorkTo(s, CommitRisk(w, stamp), s')
    ensures Writes(s, w, stamp, s')
  {}

  lemma Compose(s: Sys, w: WorkerId, stamp: Time, s1: Sys, s2: Sys, s3: Sys)
    requires Locks(s, w, s1) && Computes(s1, w, s2) && Writes(s2, w, stamp, s3)
    requires Tables(s.calls, s.deals, s.contacts).Has(s.workers[w].call)
    ensures Tables(s3.calls, s3.deals, s3.contacts)
            == RiskTransaction(Tables(s.calls, s.deals, s.contacts), s.workers[w].call, stamp, false)
  {}

  /** The protocol's three steps of a risk run, taken one after the other, leave
      the tables of the single transaction. */
  lemma StepsAreTheTransaction(s: Sys, w: WorkerId, stamp: Time, s1: Sys, s2: Sys, s3: Sys)
    requires StepTo(s, Work(LockDeal(w)), s1) && StepTo(s1, Work(WorkStep.ComputeRisk(w)), s2)
    requires StepTo(s2, Work(CommitRisk(w, stamp)), s3)
    requires Tables(s.calls, s.deals, s.contacts).Has(s.workers[w].call)
    ensures Tables(s3.calls, s3.deals, s3.contacts)
            == RiskTransaction(Tables(s.calls, s.deals, s.contacts), s.workers[w].call, stamp, false)
  {
    LockStep(s, w, s1);
    ComputeStep(s1, w, s2);
    CommitStep(s2, w, stamp, s3);
    Compose(s, w, stamp, s1, s2, s3);
  }
}
