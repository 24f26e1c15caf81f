/** What each group of steps leaves alone, and the well-formedness that every
    reachable state has. */
module Frames {
  import opened Model
  import opened Ingestion
  import opened Stages
  import opened Protocol

  // ----- what steps leave alone -----

  /** Stage workers write a call's processing status and artifacts only, and
      never set the status back to pending. */
  ghost predicate WorkedFile(f: CallFile, g: CallFile) {
    && g.events == f.events && g.transcript == f.transcript
    && g.row == f.row.(processing := g.row.processing, updatedAt := g.row.updatedAt)
    && (g.row.processing == f.row.processing || g.row.processing != Pending)
  }

  ghost predicate WorkFrame(s: Sys, s': Sys, w: WorkerId, c: CallId, e: Effect) {
    && Present(s, c) && s' == Write(s, w, c, e)
    && e.worker.call == c && WorkedFile(s.calls[c], e.file)
    && e.contact.deal == s.contacts[s.calls[c].row.contact].deal
    && PhaseFits(e.worker)
    && LockStep(s.deals[s.calls[c].row.deal].lock, e.deal.lock, w, e.worker.phase)
    && (if w in s.workers then s.workers[w].call == c && s.workers[w].stage == e.worker.stage
                               && s.workers[w].claimedAt == e.worker.claimedAt
        else e.worker.phase == Claimed && e.worker.claimedAt == s.now)
  }

  predicate UnderLock(p: Phase) {
    p.Locked? || p.Computed?
  }

  /** The message a finished run may send: the next stage's, for the same call. */
  predicate NextFits(wk: Worker, m: Message) {
    match wk.stage
    case Extracting => m == Risk(wk.call)
    case RiskScoring => m == Recommend(wk.call)
    case Advising => m == Memorize(wk.call)
    case Memorizing => false
  }

  predicate PhaseFits(wk: Worker) {
    var p := wk.phase;
    && (p.Loaded? ==> wk.stage == Extracting)
    && (UnderLock(p) ==> wk.stage == RiskScoring)
    && (p.Ready? ==> wk.stage == Advising)
    && (p.Built? || p.Stored? ==> wk.stage == Memorizing)
    && (p.Finished? && p.next.Some? ==> NextFits(wk, p.next.value))
    && (p.Computed? ==> p.result.risk.call == wk.call)
  }

  /** A step takes a free lock, keeps the lock as it was, or ends its own hold. */
  predicate LockStep(was: Option<WorkerId>, now: Option<WorkerId>, w: WorkerId, p: Phase) {
    || (UnderLock(p) && now == Some(w) && (was.None? || was == Some(w)))
    || (!UnderLock(p) && now == (if was == Some(w) then None else was))
  }

  lemma PhaseFrame(s: Sys, x: WorkStep, wk: Worker, f: CallFile, d: DealFile, k: Contact, e: Effect)
    requires PhaseTo(s, x, wk, f, d, k, e)
    requires PhaseFits(wk) && (d.lock == Some(x.w) <==> UnderLock(wk.phase))
    ensures WorkedFile(f, e.file) && e.contact.deal == k.deal
    ensures e.worker == wk.(phase := e.worker.phase) && PhaseFits(e.worker)
    ensures LockStep(d.lock, e.deal.lock, x.w, e.worker.phase)
  {
    PhaseLock(s, x, wk, f, d, k, e);
  }

  lemma PhaseLock(s: Sys, x: WorkStep, wk: Worker, f: CallFile, d: DealFile, k: Contact, e: Effect)
    requires PhaseTo(s, x, wk, f, d, k, e) && (d.lock == Some(x.w) <==> UnderLock(wk.phase))
    ensures LockStep(d.lock, e.deal.lock, x.w, e.worker.phase)
  {}

  lemma WorkKeepsFrame(s: Sys, x: WorkStep, s': Sys) returns (c: CallId, e: Effect)
    requires WellFormed(s) && WorkTo(s, x, s')
    ensures WorkFrame(s, s', x.w, c, e) && Effects(s, x, c, e)
  {
    c, e := CallOf(s, x), EffectOf(s, x);
    assert LockAgrees(s, x.w, s.calls[c].row.deal);
    EffectFrame(s, x, s', c, e);
  }

  lemma EffectFrame(s: Sys, x: WorkStep, s': Sys, c: CallId, e: Effect)
    requires WorkTo(s, x, s') && Effects(s, x, c, e)
    requires x.w in s.workers ==> s.workers[x.w].call in s.calls && PhaseFits(s.workers[x.w])
    requires LockAgrees(s, x.w, s.calls[c].row.deal)
    ensures WorkFrame(s, s', x.w, c, e)
  {
    if x.Claim? || x.StartMemory? {
      ClaimFrame(s, x, c, e);
    } else {
      var wk, f := s.workers[x.w], s.calls[c];
      PhaseFrame(s, x, wk, f, s.deals[f.row.deal], s.contacts[f.row.contact], e);
    }
  }

  lemma ClaimFrame(s: Sys, x: WorkStep, c: CallId, e: Effect)
    requires Effects(s, x, c, e) && (x.Claim? || x.StartMemory?)
    ensures e.worker.call == c && e.worker.phase == Claimed && e.worker.claimedAt == s.now && PhaseFits(e.worker)
    ensures WorkedFile(s.calls[c], e.file) && e.deal == s.deals[s.calls[c].row.deal]
    ensures e.contact == s.contacts[s.calls[c].row.contact]
  {}

  /** A delivery writes the columns and the transcript of one call only. */
  ghost predicate IngestedFile(f: CallFile, g: CallFile) {
    && g.extractions == f.extractions && g.anchors == f.anchors
    && g.recommendations == f.recommendations && g.drafts == f.drafts && g.docs == f.docs
    && g.row.deal == f.row.deal && g.row.contact == f.row.contact
    && g.row.providerId == f.row.providerId && g.row.redacted == f.row.redacted
  }

  ghost predicate IngestFrame(s: Sys, s': Sys) {
    && s'.now == s.now && s'.ttl == s.ttl && s'.workers == s.workers && s'.deals == s.deals && s'.contacts == s.contacts
    && s'.calls.Keys == s.calls.Keys
    && (forall c :: c in s.calls ==> IngestedFile(s.calls[c], s'.calls[c]))
    && (forall m: Message :: !m.Extract? ==> s'.sent[m] == s.sent[m])
  }

  /** The effect of a committed event on its call `c` and its delivery. */
  ghost predicate CommitFrame(s: Sys, s': Sys, id: DeliveryId, c: CallId, p: Payload, stamp: Time, conflict: bool) {
    && c in s.calls && Projectable(p) && ConflictPossible(s.calls[c], conflict) && stamp <= s.now
    && id in s.deliveries && s.deliveries[id].phase == Resolved(c) && s.deliveries[id].payload == p
    && s' == s.(calls := s.calls[c := Logged(s.calls[c], p, id, stamp, conflict)],
                deliveries := s.deliveries[id := s.deliveries[id].(
                  phase := if Stores(s.calls[c], p, conflict) then Enqueueing(c) else Committed, logged := true)])
  }

  lemma CommitHasFrame(s: Sys, id: DeliveryId, stamp: Time, conflict: bool, s': Sys) returns (c: CallId, p: Payload)
    requires IngestTo(s, CommitEvent(id, stamp, conflict), s')
    ensures CommitFrame(s, s', id, c, p, stamp, conflict)
  {
    c, p := s.deliveries[id].phase.call, s.deliveries[id].payload;
  }

  lemma LoggedIngests(f: CallFile, p: Payload, id: DeliveryId, stamp: Time, conflict: bool)
    requires Projectable(p)
    ensures IngestedFile(f, Logged(f, p, id, stamp, conflict))
  {}

  lemma IngestKeepsFrame(s: Sys, i: IngestStep, s': Sys)
    requires IngestTo(s, i, s')
    ensures IngestFrame(s, s')
    ensures !i.CommitEvent? ==> s'.calls == s.calls
  {
    if i.CommitEvent? {
      var c, p := CommitHasFrame(s, i.id, i.stamp, i.conflict, s');
      LoggedIngests(s.calls[c], p, i.id, i.stamp, i.conflict);
    }
  }

  /** The API leaves artifacts alone except by redaction, and changes columns
      only while the provider id is missing. */
  ghost predicate ServedFile(f: CallFile, g: CallFile, stamp: Time) {
    || g == f
    || g == Redacted(f, stamp)
    || (f.row.providerId.None? && g == f.(row := f.row.(status := g.row.status, providerId := g.row.providerId))
        && (g.row.providerId.Some? ==> g.row.status == Queued))
  }

  function StampOf(a: ApiStep): Time {
    match a case Redact(c, stamp) => stamp case Sweep(cutoff, stamp) => stamp case _ => 0
  }

  ghost predicate ApiFrame(s: Sys, a: ApiStep, s': Sys) {
    && s.now <= s'.now && s'.ttl == s.ttl && s'.keys == s.keys && s'.deliveries == s.deliveries
    && s'.workers == s.workers && s'.sent == s.sent
    && s.calls.Keys <= s'.calls.Keys && s.deals.Keys <= s'.deals.Keys && s.contacts.Keys <= s'.contacts.Keys
    && (forall k :: k in s.contacts ==> s'.contacts[k] == s.contacts[k])
    && (forall d :: d in s.deals ==> s'.deals[d] == s.deals[d])
    && (forall d :: d in s'.deals && d !in s.deals ==> s'.deals[d] == NEW_DEAL)
    && (forall c :: c in s.calls ==> ServedFile(s.calls[c], s'.calls[c], StampOf(a)))
    && (forall c :: c in s'.calls && c !in s.calls ==>
          a.CreateCall? && a.c == c && s'.calls[c] == NewCall(a.d, a.k, s.now))
  }

  lemma ApiKeepsFrame(s: Sys, a: ApiStep, s': Sys)
    requires ApiTo(s, a, s')
    ensures ApiFrame(s, a, s')
  {
    assert s' == ApplyApi(s, a);
  }

  // ----- well-formedness -----

  ghost predicate Rooted(s: Sys) {
    && (forall k :: k in s.contacts ==> s.contacts[k].deal in s.deals)
    && (forall c :: c in s.calls ==>
          && s.calls[c].row.deal in s.deals && s.calls[c].row.contact in s.contacts
          && s.contacts[s.calls[c].row.contact].deal == s.calls[c].row.deal)
    && (forall w :: w in s.workers ==> s.workers[w].call in s.calls)
  }

  predicate LockAgrees(s: Sys, w: WorkerId, d: DealId)
    requires d in s.deals && (w in s.workers ==> s.workers[w].call in s.calls)
  {
    s.deals[d].lock == Some(w) <==>
      w in s.workers && UnderLock(s.workers[w].phase) && s.calls[s.workers[w].call].row.deal == d
  }

  /** A deal's row lock is held by `w` exactly while `w` is a risk worker of one
      of its calls between locking and the end of its transaction. */
  ghost predicate LocksExact(s: Sys)
    requires Rooted(s)
  {
    forall w, d :: d in s.deals ==> LockAgrees(s, w, d)
  }

  ghost predicate WellFormed(s: Sys) {
    Rooted(s) && LocksExact(s) && forall w :: w in s.workers ==> PhaseFits(s.workers[w])
  }

  lemma WorkKeepsRooted(s: Sys, s': Sys, w: WorkerId, c: CallId, e: Effect)
    requires Rooted(s) && WorkFrame(s, s', w, c, e)
    ensures Rooted(s') && s'.deals.Keys == s.deals.Keys
    ensures forall b :: b in s.calls ==> b in s'.calls && s'.calls[b].row.deal == s.calls[b].row.deal
  {}

  lemma WorkKeepsLocks(s: Sys, s': Sys, w: WorkerId, c: CallId, e: Effect)
    requires Rooted(s) && LocksExact(s) && WorkFrame(s, s', w, c, e) && Rooted(s')
    ensures LocksExact(s')
  {
    WorkKeepsRooted(s, s', w, c, e);
    var dc := s.calls[c].row.deal;
    forall v, d | d in s'.deals ensures LockAgrees(s', v, d) {
      assert LockAgrees(s, v, d) && LockAgrees(s, w, d) && LockAgrees(s, w, dc);
      if v in s.workers { assert s'.calls[s.workers[v].call].row.deal == s.calls[s.workers[v].call].row.deal; }
    }
  }

  lemma ApiKeepsRooted(s: Sys, a: ApiStep, s': Sys)
    requires Rooted(s) && ApiTo(s, a, s') && ApiFrame(s, a, s')
    ensures Rooted(s')
  {
    forall c | c in s'.calls
      ensures s'.calls[c].row.deal in s'.deals && s'.calls[c].row.contact in s'.contacts
      ensures s'.contacts[s'.calls[c].row.contact].deal == s'.calls[c].row.deal
    {
      ApiKeepsRoot(s, a, s', c);
    }
  }

  lemma ApiKeepsRoot(s: Sys, a: ApiStep, s': Sys, c: CallId)
    requires Rooted(s) && ApiTo(s, a, s') && ApiFrame(s, a, s') && c in s'.calls
    ensures s'.calls[c].row.deal in s'.deals && s'.calls[c].row.contact in s'.contacts
    ensures s'.contacts[s'.calls[c].row.contact].deal == s'.calls[c].row.deal
  {
    if c in s.calls {
      assert ServedFile(s.calls[c], s'.calls[c], StampOf(a));
    } else {
      assert s'.calls[c] == NewCall(a.d, a.k, s.now) && ApiEnabled(s, a);
    }
  }

  lemma ApiKeepsLocks(s: Sys, a: ApiStep, s': Sys)
    requires Rooted(s) && LocksExact(s) && ApiFrame(s, a, s') && Rooted(s')
    ensures LocksExact(s')
  {
    forall w, d | d in s'.deals ensures LockAgrees(s', w, d) { ApiKeepsLock(s, a, s', w, d); }
  }

  lemma ApiKeepsLock(s: Sys, a: ApiStep, s': Sys, w: WorkerId, d: DealId)
    requires Rooted(s) && LocksExact(s) && ApiFrame(s, a, s') && Rooted(s') && d in s'.deals
    ensures LockAgrees(s', w, d)
  {
    if w in s.workers { assert ServedFile(s.calls[s.workers[w].call], s'.calls[s.workers[w].call], StampOf(a)); }
    if d in s.deals { assert LockAgrees(s, w, d); } else { assert s'.deals[d] == NEW_DEAL; }
  }

  lemma IngestKeepsWellFormed(s: Sys, i: IngestStep, s': Sys)
    requires WellFormed(s) && IngestTo(s, i, s')
    ensures WellFormed(s')
  {
    IngestKeepsFrame(s, i, s');
    assert Rooted(s');
    forall w, d | d in s'.deals ensures LockAgrees(s', w, d) { assert LockAgrees(s, w, d); }
  }

  lemma StepKeepsWellFormed(s: Sys, step: Step, s': Sys)
    requires WellFormed(s) && StepTo(s, step, s')
    ensures WellFormed(s')
  {
    match step
    case Api(a) =>
      ApiKeepsFrame(s, a, s');
      ApiKeepsRooted(s, a, s');
      ApiKeepsLocks(s, a, s');
    case Ingest(i) => IngestKeepsWellFormed(s, i, s');
    case Work(x) =>
      var c, e := WorkKeepsFrame(s, x, s');
      WorkKeepsRooted(s, s', x.w, c, e);
      WorkKeepsLocks(s, s', x.w, c, e);
  }

  lemma {:induction false} RunWellFormed(tr: seq<Sys>, steps: seq<Step>, i: nat)
    requires Run(tr, steps) && i < |tr|
    ensures WellFormed(tr[i])
  {
    if i > 0 {
      RunWellFormed(tr, steps, i - 1);
      assert Happens(tr, steps, i - 1);
      StepKeepsWellFormed(tr[i - 1], steps[i - 1], tr[i]);
    }
  }

  lemma WellFormedAt(tr: seq<Sys>, steps: seq<Step>, k: nat, s: Sys)
    requires Run(tr, steps) && k < |tr| && s == tr[k]
    ensures WellFormed(s)
  {
    RunWellFormed(tr, steps, k);
  }
}
