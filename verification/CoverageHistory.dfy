/** A deal's stakeholder coverage: once computed it is never `none`, and `full`
    stays `full` at every later risk commit that reads no new stakeholder. */
module CoverageHistory {
  import opened Sets
  import opened Model
  import opened Stages
  import opened Protocol
  import opened Frames
  import opened DealHistory

  predicate Reached(contacts: map<ContactId, Contact>, k: ContactId, target: Option<ContactId>) {
    Contacted(contacts, k) || target == Some(k)
  }

  /** The counted comparison decides whether everybody, or nobody, was reached. */
  lemma CoverageMeaning(contacts: map<ContactId, Contact>, team: set<ContactId>, target: Option<ContactId>)
    ensures CoverageOf(contacts, team, target) == Full
            <==> team != {} && forall k :: k in team ==> Reached(contacts, k, target)
    ensures CoverageOf(contacts, team, target) == NoCoverage
            <==> forall k :: k in team ==> !Reached(contacts, k, target)
  {
    var reached := set k | k in team && (Contacted(contacts, k) || target == Some(k));
    SubsetSize(reached, team);
    assert forall k :: k in reached <==> k in team && Reached(contacts, k, target);
    assert reached == {} <==> forall k :: k in team ==> !Reached(contacts, k, target);
    assert reached == team <==> forall k :: k in team ==> Reached(contacts, k, target);
  }

  /** What a committed snapshot says about the stakeholders it was computed from. */
  ghost predicate SnapshotHolds(contacts: map<ContactId, Contact>, d: DealId, snap: DealSnapshot) {
    && snap.team <= Team(contacts, d) && snap.coverage != NoCoverage
    && (snap.coverage == Full ==> forall k :: k in snap.team ==> Contacted(contacts, k))
  }

  /** No stakeholder disappears, and full coverage lasts while none is added. */
  predicate StaysFull(a: DealSnapshot, b: DealSnapshot) {
    a.team <= b.team && (a.coverage == Full && b.team == a.team ==> b.coverage == Full)
  }

  ghost predicate SnapshotsHold(contacts: map<ContactId, Contact>, d: DealId, snapshots: seq<DealSnapshot>) {
    && (forall i :: 0 <= i < |snapshots| ==> SnapshotHolds(contacts, d, snapshots[i]))
    && (forall i, j :: 0 <= i < j < |snapshots| ==> StaysFull(snapshots[i], snapshots[j]))
  }

  /** A pending result names the call's stakeholder as reached, and its coverage
      is exact for the stakeholders it read. */
  ghost predicate ResultHolds(contacts: map<ContactId, Contact>, row: Call, snapshots: seq<DealSnapshot>,
                              r: RiskResult) {
    && r.target == Some(row.contact) && row.contact in r.snapshot.team
    && r.snapshot.team <= Team(contacts, row.deal) && r.snapshot.coverage != NoCoverage
    && (r.snapshot.coverage == Full <==> forall k :: k in r.snapshot.team ==> Reached(contacts, k, r.target))
    && (forall i :: 0 <= i < |snapshots| ==> StaysFull(snapshots[i], r.snapshot))
  }

  ghost predicate PendingHolds(s: Sys, w: WorkerId)
    requires Rooted(s) && w in s.workers
  {
    var row := s.calls[s.workers[w].call].row;
    s.workers[w].phase.Computed? ==>
      ResultHolds(s.contacts, row, s.deals[row.deal].snapshots, s.workers[w].phase.result)
  }

  ghost predicate CoverageInv(s: Sys)
    requires Rooted(s)
  {
    && (forall d :: d in s.deals ==> SnapshotsHold(s.contacts, d, s.deals[d].snapshots))
    && (forall w :: w in s.workers ==> PendingHolds(s, w))
  }

  /** Contacts are never removed or moved, and a contact date never disappears. */
  ghost predicate ContactsGrow(contacts: map<ContactId, Contact>, contacts': map<ContactId, Contact>) {
    forall k :: k in contacts ==>
      && k in contacts' && contacts'[k].deal == contacts[k].deal
      && (contacts[k].lastContacted.Some? ==> contacts'[k].lastContacted.Some?)
  }

  lemma SnapshotsStillHold(contacts: map<ContactId, Contact>, contacts': map<ContactId, Contact>, d: DealId,
        snaps: seq<DealSnapshot>)
    requires SnapshotsHold(contacts, d, snaps) && ContactsGrow(contacts, contacts')
    ensures SnapshotsHold(contacts', d, snaps)
  {
    forall i | 0 <= i < |snaps| ensures SnapshotHolds(contacts', d, snaps[i]) {
      assert SnapshotHolds(contacts, d, snaps[i]);
    }
  }

  // ----- stage steps -----

  lemma ResultFresh(contacts: map<ContactId, Contact>, c: CallId, row: Call, ext: Extraction,
        prev: Option<RiskSnapshot>, snaps: seq<DealSnapshot>)
    requires row.contact in contacts && contacts[row.contact].deal == row.deal
    requires SnapshotsHold(contacts, row.deal, snaps)
    ensures ResultHolds(contacts, row, snaps, RiskOf(contacts, c, row, ext, prev))
  {
    var r := RiskOf(contacts, c, row, ext, prev);
    var team := Team(contacts, row.deal);
    assert row.contact in team;
    CoverageMeaning(contacts, team, r.target);
    assert Reached(contacts, row.contact, r.target);
    forall i | 0 <= i < |snaps| ensures StaysFull(snaps[i], r.snapshot) {
      assert SnapshotHolds(contacts, row.deal, snaps[i]);
    }
  }

  lemma CommitHolds(contacts: map<ContactId, Contact>, contacts': map<ContactId, Contact>, row: Call,
        snaps: seq<DealSnapshot>, r: RiskResult)
    requires SnapshotsHold(contacts, row.deal, snaps) && ResultHolds(contacts, row, snaps, r)
    requires ContactsGrow(contacts, contacts') && Contacted(contacts', row.contact)
    ensures SnapshotsHold(contacts', row.deal, snaps + [r.snapshot])
  {
    SnapshotsStillHold(contacts, contacts', row.deal, snaps);
    forall k | r.snapshot.coverage == Full && k in r.snapshot.team ensures Contacted(contacts', k) {
      assert Reached(contacts, k, r.target);
    }
    assert SnapshotHolds(contacts', row.deal, r.snapshot);
  }

  /** A stage step touches a stakeholder only when it commits a result. */
  ghost predicate ContactStep(s: Sys, x: WorkStep, row: Call, k: Contact, e: Effect) {
    if x.CommitRisk? then
      x.w in s.workers && s.workers[x.w].phase.Computed?
      && e.contact == Touched(k, row.contact, s.workers[x.w].phase.result, x.stamp)
    else e.contact == k
  }

  lemma WorkHasContactStep(s: Sys, x: WorkStep, c: CallId, e: Effect)
    requires Effects(s, x, c, e)
    ensures ContactStep(s, x, s.calls[c].row, s.contacts[s.calls[c].row.contact], e)
  {}

  lemma WorkGrowsContacts(s: Sys, x: WorkStep, s': Sys, c: CallId, e: Effect)
    requires WorkFrame(s, s', x.w, c, e)
    requires ContactStep(s, x, s.calls[c].row, s.contacts[s.calls[c].row.contact], e)
    ensures ContactsGrow(s.contacts, s'.contacts)
    ensures forall k :: k in s.contacts && s'.contacts[k] != s.contacts[k] ==>
              x.CommitRisk? && k == s.calls[c].row.contact
  {}

  lemma WorkKeepsSnapshots(s: Sys, x: WorkStep, s': Sys, c: CallId, e: Effect, d: DealId)
    requires Rooted(s) && CoverageInv(s) && WorkFrame(s, s', x.w, c, e) && d in s.deals
    requires DealStep(s, x, s.calls[c], s.deals[s.calls[c].row.deal], e)
    requires ContactStep(s, x, s.calls[c].row, s.contacts[s.calls[c].row.contact], e)
    ensures d in s'.deals && SnapshotsHold(s'.contacts, d, s'.deals[d].snapshots)
  {
    WorkGrowsContacts(s, x, s', c, e);
    var row := s.calls[c].row;
    if x.CommitRisk? && d == row.deal {
      assert PendingHolds(s, x.w);
      CommitHolds(s.contacts, s'.contacts, row, s.deals[d].snapshots, s.workers[x.w].phase.result);
    } else {
      SnapshotsStillHold(s.contacts, s'.contacts, d, s.deals[d].snapshots);
    }
  }

  /** A pending result survives a step that leaves its deal's snapshots and the
      stakeholders it read alone. */
  lemma ResultStillHolds(contacts: map<ContactId, Contact>, contacts': map<ContactId, Contact>, row: Call,
        row': Call, snaps: seq<DealSnapshot>, r: RiskResult)
    requires ResultHolds(contacts, row, snaps, r) && row'.deal == row.deal && row'.contact == row.contact
    requires ContactsGrow(contacts, contacts')
    requires forall k :: k in r.snapshot.team ==> Contacted(contacts', k) == Contacted(contacts, k)
    ensures ResultHolds(contacts', row', snaps, r)
  {
    assert forall k :: k in r.snapshot.team ==> Reached(contacts', k, r.target) == Reached(contacts, k, r.target);
  }

  /** A step that does not commit a result of deal `d` leaves its snapshots and
      its stakeholders alone. */
  lemma OtherDealUntouched(s: Sys, x: WorkStep, s': Sys, c: CallId, e: Effect, d: DealId)
    requires Rooted(s) && WorkFrame(s, s', x.w, c, e) && d in s.deals
    requires DealStep(s, x, s.calls[c], s.deals[s.calls[c].row.deal], e)
    requires ContactStep(s, x, s.calls[c].row, s.contacts[s.calls[c].row.contact], e)
    requires !(x.CommitRisk? && d == s.calls[c].row.deal)
    ensures d in s'.deals && s'.deals[d].snapshots == s.deals[d].snapshots
    ensures forall k :: k in Team(s.contacts, d) ==> Contacted(s'.contacts, k) == Contacted(s.contacts, k)
  {}

  lemma WorkKeepsOtherPending(s: Sys, x: WorkStep, s': Sys, c: CallId, e: Effect, v: WorkerId)
    requires Rooted(s) && WorkFrame(s, s', x.w, c, e) && Rooted(s')
    requires v in s.workers && v != x.w && s.workers[v].phase.Computed? && PendingHolds(s, v)
    requires ContactsGrow(s.contacts, s'.contacts)
    requires var d := s.calls[s.workers[v].call].row.deal;
             && s'.deals[d].snapshots == s.deals[d].snapshots
             && forall k :: k in Team(s.contacts, d) ==> Contacted(s'.contacts, k) == Contacted(s.contacts, k)
    ensures PendingHolds(s', v)
  {
    var b := s.workers[v].call;
    var row := s.calls[b].row;
    var snaps := s.deals[row.deal].snapshots;
    ResultStillHolds(s.contacts, s'.contacts, row, s'.calls[b].row, snaps, s.workers[v].phase.result);
  }

  lemma WorkKeepsOwnPending(s: Sys, x: WorkStep, s': Sys, c: CallId, e: Effect)
    requires Rooted(s) && CoverageInv(s) && WorkFrame(s, s', x.w, c, e) && Rooted(s')
    requires DealStep(s, x, s.calls[c], s.deals[s.calls[c].row.deal], e)
    requires ContactStep(s, x, s.calls[c].row, s.contacts[s.calls[c].row.contact], e)
    ensures PendingHolds(s', x.w)
  {
    if e.worker.phase.Computed? {
      var f := s.calls[c];
      var d := s.deals[f.row.deal];
      ResultFresh(s.contacts, c, f.row, LastOf(f.extractions), Latest(d.risks), d.snapshots);
      OtherDealUntouched(s, x, s', c, e, f.row.deal);
      WorkGrowsContacts(s, x, s', c, e);
      ResultStillHolds(s.contacts, s'.contacts, f.row, s'.calls[c].row, d.snapshots, e.worker.phase.result);
    }
  }

  /** While a result is pending no other run commits one on its deal. */
  lemma OtherPendingApart(s: Sys, x: WorkStep, c: CallId, e: Effect, v: WorkerId)
    requires WellFormed(s) && Effects(s, x, c, e)
    requires v in s.workers && v != x.w && s.workers[v].phase.Computed?
    ensures !(x.CommitRisk? && s.calls[s.workers[v].call].row.deal == s.calls[c].row.deal)
  {
    if x.CommitRisk? && s.calls[s.workers[v].call].row.deal == s.calls[c].row.deal { OnePending(s, v, x.w); }
  }

  lemma WorkKeepsCoverage(s: Sys, x: WorkStep, s': Sys)
    requires WellFormed(s) && CoverageInv(s) && WorkTo(s, x, s') && Rooted(s')
    ensures CoverageInv(s')
  {
    var c, e := WorkKeepsFrame(s, x, s');
    WorkHasDealStep(s, x, c, e);
    WorkHasContactStep(s, x, c, e);
    WorkGrowsContacts(s, x, s', c, e);
    forall d | d in s'.deals ensures SnapshotsHold(s'.contacts, d, s'.deals[d].snapshots) {
      WorkKeepsSnapshots(s, x, s', c, e, d);
    }
    WorkKeepsOwnPending(s, x, s', c, e);
    forall v | v in s'.workers ensures PendingHolds(s', v) {
      if v != x.w && s.workers[v].phase.Computed? {
        OtherPendingApart(s, x, c, e, v);
        OtherPendingKept(s, x, s', c, e, v);
      }
    }
  }

  lemma OtherPendingKept(s: Sys, x: WorkStep, s': Sys, c: CallId, e: Effect, v: WorkerId)
    requires Rooted(s) && CoverageInv(s) && WorkFrame(s, s', x.w, c, e) && Rooted(s')
    requires DealStep(s, x, s.calls[c], s.deals[s.calls[c].row.deal], e)
    requires ContactStep(s, x, s.calls[c].row, s.contacts[s.calls[c].row.contact], e)
    requires v in s.workers && v != x.w && s.workers[v].phase.Computed?
    requires !(x.CommitRisk? && s.calls[s.workers[v].call].row.deal == s.calls[c].row.deal)
    ensures PendingHolds(s', v)
  {
    WorkGrowsContacts(s, x, s', c, e);
    OtherDealUntouched(s, x, s', c, e, s.calls[s.workers[v].call].row.deal);
    assert PendingHolds(s, v);
    WorkKeepsOtherPending(s, x, s', c, e, v);
  }

  // ----- all steps -----

  lemma OtherKeepsPending(s: Sys, s': Sys, w: WorkerId)
    requires Rooted(s) && Rooted(s') && w in s.workers && w in s'.workers
    requires s'.workers[w] == s.workers[w] && PendingHolds(s, w)
    requires forall k :: k in s.contacts ==> k in s'.contacts && s'.contacts[k] == s.contacts[k]
    requires forall d :: d in s.deals ==> d in s'.deals && s'.deals[d] == s.deals[d]
    requires var b := s.workers[w].call;
             s'.calls[b].row.deal == s.calls[b].row.deal && s'.calls[b].row.contact == s.calls[b].row.contact
    ensures PendingHolds(s', w)
  {
    if s.workers[w].phase.Computed? {
      var b := s.workers[w].call;
      var row := s.calls[b].row;
      var snaps := s.deals[row.deal].snapshots;
      ResultStillHolds(s.contacts, s'.contacts, row, s'.calls[b].row, snaps, s.workers[w].phase.result);
    }
  }

  lemma ApiKeepsSnapshots(s: Sys, a: ApiStep, s': Sys, d: DealId)
    requires Rooted(s) && CoverageInv(s) && ApiFrame(s, a, s') && d in s'.deals
    ensures SnapshotsHold(s'.contacts, d, s'.deals[d].snapshots)
  {
    if d in s.deals {
      SnapshotsStillHold(s.contacts, s'.contacts, d, s.deals[d].snapshots);
    } else { assert s'.deals[d] == NEW_DEAL; }
  }

  lemma ApiKeepsPending(s: Sys, a: ApiStep, s': Sys, w: WorkerId)
    requires Rooted(s) && CoverageInv(s) && ApiFrame(s, a, s') && Rooted(s') && w in s'.workers
    ensures PendingHolds(s', w)
  {
    assert ServedFile(s.calls[s.workers[w].call], s'.calls[s.workers[w].call], StampOf(a));
    OtherKeepsPending(s, s', w);
  }

  lemma ApiKeepsCoverage(s: Sys, a: ApiStep, s': Sys)
    requires Rooted(s) && CoverageInv(s) && ApiFrame(s, a, s') && Rooted(s')
    ensures CoverageInv(s')
  {
    forall d | d in s'.deals ensures SnapshotsHold(s'.contacts, d, s'.deals[d].snapshots) {
      ApiKeepsSnapshots(s, a, s', d);
    }
    forall w | w in s'.workers ensures PendingHolds(s', w) { ApiKeepsPending(s, a, s', w); }
  }

  lemma IngestKeepsCoverage(s: Sys, s': Sys)
    requires Rooted(s) && CoverageInv(s) && IngestFrame(s, s') && Rooted(s')
    ensures CoverageInv(s')
  {
    forall w | w in s'.workers ensures PendingHolds(s', w) {
      assert IngestedFile(s.calls[s.workers[w].call], s'.calls[s.workers[w].call]);
      OtherKeepsPending(s, s', w);
    }
  }

  lemma StepKeepsCoverage(s: Sys, step: Step, s': Sys)
    requires WellFormed(s) && CoverageInv(s) && StepTo(s, step, s') && WellFormed(s')
    ensures CoverageInv(s')
  {
    match step
    case Api(a) => ApiKeepsFrame(s, a, s'); ApiKeepsCoverage(s, a, s');
    case Ingest(i) => IngestKeepsFrame(s, i, s'); IngestKeepsCoverage(s, s');
    case Work(x) => WorkKeepsCoverage(s, x, s');
  }

  lemma {:induction false} RunCoverage(tr: seq<Sys>, steps: seq<Step>, i: nat)
    requires Run(tr, steps) && i < |tr|
    ensures WellFormed(tr[i]) && CoverageInv(tr[i])
  {
    if i == 0 {
      RunWellFormed(tr, steps, 0);
    } else {
      RunCoverage(tr, steps, i - 1);
      NextCoverage(tr, steps, i);
    }
  }

  lemma NextCoverage(tr: seq<Sys>, steps: seq<Step>, i: nat)
    requires Run(tr, steps) && 0 < i < |tr| && WellFormed(tr[i - 1]) && CoverageInv(tr[i - 1])
    ensures WellFormed(tr[i]) && CoverageInv(tr[i])
  {
    RunWellFormed(tr, steps, i);
    var s, step, s' := RunStep(tr, steps, i);
    StepKeepsCoverage(s, step, s');
  }

  // ----- what it means for deals -----

  /** In every reachable state: a deal with a snapshot has coverage other than
      `none`; its snapshots never lose a stakeholder; and full coverage holds at
      every later snapshot that read the same stakeholders. */
  lemma CoverageLasts(tr: seq<Sys>, steps: seq<Step>, i: nat, d: DealId, m: nat, n: nat)
    requires Run(tr, steps) && i < |tr| && d in tr[i].deals && m <= n < |tr[i].deals[d].snapshots|
    ensures tr[i].deals[d].row.coverage in {Some(Partial), Some(Full)}
    ensures StaysFull(tr[i].deals[d].snapshots[m], tr[i].deals[d].snapshots[n])
  {
    RunCoverage(tr, steps, i);
    RunHistory(tr, steps, i);
    FileLasts(tr[i].contacts, d, tr[i].deals[d], m, n);
  }

  lemma FileLasts(contacts: map<ContactId, Contact>, d: DealId, f: DealFile, m: nat, n: nat)
    requires SnapshotsHold(contacts, d, f.snapshots) && DealAgrees(f) && m <= n < |f.snapshots|
    ensures f.row.coverage in {Some(Partial), Some(Full)} && StaysFull(f.snapshots[m], f.snapshots[n])
  {
    assert SnapshotHolds(contacts, d, LastOf(f.snapshots));
  }

  /** A stakeholder once contacted is contacted in every later state. */
  lemma {:induction false} ContactedStays(tr: seq<Sys>, steps: seq<Step>, i: nat, j: nat, k: ContactId)
    requires Run(tr, steps) && i <= j < |tr| && Contacted(tr[i].contacts, k)
    ensures Contacted(tr[j].contacts, k)
    decreases j - i
  {
    if i < j {
      ContactedStays(tr, steps, i, j - 1, k);
      StepGrowsContacts(tr, steps, j - 1);
    }
  }

  lemma StepGrowsContacts(tr: seq<Sys>, steps: seq<Step>, i: nat)
    requires Run(tr, steps) && i < |steps|
    ensures ContactsGrow(tr[i].contacts, tr[i + 1].contacts)
  {
    var s, s' := tr[i], tr[i + 1];
    RunWellFormed(tr, steps, i);
    assert Happens(tr, steps, i);
    match steps[i]
    case Api(a) => ApiKeepsFrame(s, a, s');
    case Ingest(g) => IngestKeepsFrame(s, g, s');
    case Work(x) => AnyWorkGrowsContacts(s, x, s');
  }

  lemma AnyWorkGrowsContacts(s: Sys, x: WorkStep, s': Sys)
    requires WellFormed(s) && WorkTo(s, x, s')
    ensures ContactsGrow(s.contacts, s'.contacts)
  {
    var c, e := WorkKeepsFrame(s, x, s');
    WorkHasContactStep(s, x, c, e);
    WorkGrowsContacts(s, x, s', c, e);
  }

  lemma CommitExact(s: Sys, x: WorkStep, s': Sys, c: CallId, e: Effect, r: RiskResult)
    requires Rooted(s) && WorkFrame(s, s', x.w, c, e) && x.CommitRisk?
    requires ResultHolds(s.contacts, s.calls[c].row, s.deals[s.calls[c].row.deal].snapshots, r)
    requires e.contact == Touched(s.contacts[s.calls[c].row.contact], s.calls[c].row.contact, r, x.stamp)
    ensures r.snapshot.coverage == Full <==> forall k :: k in r.snapshot.team ==> Contacted(s'.contacts, k)
  {
    forall k | k in r.snapshot.team ensures Contacted(s'.contacts, k) <==> Reached(s.contacts, k, r.target) {
      assert k in Team(s.contacts, s.calls[c].row.deal);
    }
  }

  /** At a risk commit the coverage shown is exact: full if and only if every
      stakeholder the run read is contacted in the state it leaves. */
  lemma CoverageExactAtCommit(tr: seq<Sys>, steps: seq<Step>, i: nat, d: DealId)
    requires Run(tr, steps) && i < |steps| && Commits(tr, steps, i, d)
    ensures d in tr[i + 1].deals && tr[i + 1].deals[d].snapshots != []
    ensures var snap := LastOf(tr[i + 1].deals[d].snapshots);
            && tr[i + 1].deals[d].row.coverage == Some(snap.coverage)
            && (snap.coverage == Full <==> forall k :: k in snap.team ==> Contacted(tr[i + 1].contacts, k))
  {
    RunCoverage(tr, steps, i);
    assert Happens(tr, steps, i);
    CommitShows(tr[i], steps[i].x, tr[i + 1], d);
  }

  lemma CommitShows(s: Sys, x: WorkStep, s': Sys, d: DealId)
    requires WellFormed(s) && CoverageInv(s) && WorkTo(s, x, s') && x.CommitRisk?
    requires s.calls[CallOf(s, x)].row.deal == d
    ensures d in s'.deals && s'.deals[d].snapshots != []
    ensures var snap := LastOf(s'.deals[d].snapshots);
            && s'.deals[d].row.coverage == Some(snap.coverage)
            && (snap.coverage == Full <==> forall k :: k in snap.team ==> Contacted(s'.contacts, k))
  {
    var c, e := WorkKeepsFrame(s, x, s');
    WorkHasDealStep(s, x, c, e);
    WorkHasContactStep(s, x, c, e);
    assert PendingHolds(s, x.w);
    CommitExact(s, x, s', c, e, s.workers[x.w].phase.result);
  }
}
