/** The life of an idempotency key. While processing takes less than the time to
    live, each lifetime of a key commits at most one event, and a key that is set
    always has a delivery behind it that committed, is in flight, or stopped
    without releasing it. */
module Idempotency {
  import opened Model
  import opened Ingestion
  import opened Protocol
  import opened Frames

  /** The delivery may still log an event or delete its key. */
  predicate InFlight(p: DeliveryPhase) {
    p.Acquired? || p.Resolved? || p.Releasing?
  }

  /** Deliveries in flight are younger than the key's time to live. */
  predicate Prompt(s: Sys) {
    forall id :: id in s.deliveries && InFlight(s.deliveries[id].phase) ==> s.now < s.deliveries[id].acquiredAt + s.ttl
  }

  ghost predicate PromptRun(tr: seq<Sys>, steps: seq<Step>) {
    Run(tr, steps) && forall i :: 0 <= i < |tr| ==> Prompt(tr[i])
  }

  predicate Owns(s: Sys, id: DeliveryId)
    requires id in s.deliveries
  {
    var d := s.deliveries[id];
    d.key in s.keys && s.keys[d.key] == KeyEntry(d.acquiredAt + s.ttl, id)
  }

  /** A delivery that did not release its key owns it until the lifetime is over. */
  ghost predicate DeliveryKeyed(s: Sys, id: DeliveryId)
    requires id in s.deliveries
  {
    var d := s.deliveries[id];
    && d.key == KeyOf(d.payload) && d.acquiredAt <= s.now
    && (!d.phase.Released? ==> Owns(s, id) || d.acquiredAt + s.ttl <= s.now)
    && (d.logged <==> d.phase.Enqueueing? || d.phase.Committed?)
  }

  ghost predicate EntryOwned(s: Sys, k: string)
    requires k in s.keys
  {
    var o := s.keys[k].owner;
    o in s.deliveries && s.deliveries[o].key == k && !s.deliveries[o].phase.Released? && Owns(s, o)
  }

  /** Two lifetimes of one key that were not ended by a release do not overlap. */
  predicate Apart(s: Sys, a: DeliveryId, b: DeliveryId)
    requires a in s.deliveries && b in s.deliveries
  {
    var d, e := s.deliveries[a], s.deliveries[b];
    a != b && d.key == e.key && !d.phase.Released? && !e.phase.Released? ==>
      d.acquiredAt + s.ttl <= e.acquiredAt || e.acquiredAt + s.ttl <= d.acquiredAt
  }

  ghost predicate KeyInv(s: Sys) {
    && (forall id :: id in s.deliveries ==> DeliveryKeyed(s, id))
    && (forall k :: k in s.keys ==> EntryOwned(s, k))
    && (forall a, b :: a in s.deliveries && b in s.deliveries ==> Apart(s, a, b))
  }

  // ----- steps -----

  lemma DeliverKeepsKeys(s: Sys, id: DeliveryId, p: Payload, s': Sys)
    requires KeyInv(s) && id !in s.deliveries && !KeyLive(s, KeyOf(p))
    requires s' == s.(keys := s.keys[KeyOf(p) := KeyEntry(s.now + s.ttl, id)],
                      deliveries := s.deliveries[id := Delivery(p, KeyOf(p), s.now, Acquired, false)])
    ensures KeyInv(s')
  {
    forall b | b in s.deliveries && s.deliveries[b].key == KeyOf(p) && !s.deliveries[b].phase.Released?
      ensures s.deliveries[b].acquiredAt + s.ttl <= s.now
    {
      assert DeliveryKeyed(s, b);
    }
    forall b | b in s'.deliveries ensures DeliveryKeyed(s', b) { if b != id { assert DeliveryKeyed(s, b); } }
    forall k | k in s'.keys ensures EntryOwned(s', k) { if k != KeyOf(p) { assert EntryOwned(s, k); } }
    forall a, b | a in s'.deliveries && b in s'.deliveries ensures Apart(s', a, b) {
      if a in s.deliveries && b in s.deliveries { assert Apart(s, a, b); }
    }
  }

  lemma ReleasingOwnsKey(s: Sys, id: DeliveryId)
    requires KeyInv(s) && Prompt(s) && At(s, id, Releasing)
    ensures Owns(s, id)
  {
    assert DeliveryKeyed(s, id);
  }

  lemma ReleaseKeepsKeys(s: Sys, id: DeliveryId, s': Sys)
    requires KeyInv(s) && At(s, id, Releasing) && Owns(s, id)
    requires s' == SetPhase(s, id, Released).(keys := s.keys - {s.deliveries[id].key})
    ensures KeyInv(s')
  {
    forall b | b in s'.deliveries ensures DeliveryKeyed(s', b) { assert DeliveryKeyed(s, b); }
    forall k | k in s'.keys ensures EntryOwned(s', k) { assert EntryOwned(s, k); }
    forall a, b | a in s'.deliveries && b in s'.deliveries ensures Apart(s', a, b) { assert Apart(s, a, b); }
  }

  /** A step that only moves the phase of a delivery that keeps its key. */
  lemma PhaseKeepsKeys(s: Sys, id: DeliveryId, d: Delivery, s': Sys)
    requires KeyInv(s) && id in s.deliveries && !s.deliveries[id].phase.Released? && !d.phase.Released?
    requires d == s.deliveries[id].(phase := d.phase, logged := d.logged)
    requires d.logged <==> d.phase.Enqueueing? || d.phase.Committed?
    requires s'.now == s.now && s'.ttl == s.ttl && s'.keys == s.keys && s'.deliveries == s.deliveries[id := d]
    ensures KeyInv(s')
  {
    assert DeliveryKeyed(s, id);
    forall b | b in s'.deliveries ensures DeliveryKeyed(s', b) { assert DeliveryKeyed(s, b); }
    forall k | k in s'.keys ensures EntryOwned(s', k) { assert EntryOwned(s, k); }
    forall a, b | a in s'.deliveries && b in s'.deliveries ensures Apart(s', a, b) { assert Apart(s, a, b); }
  }

  /** Steps other than the key's arrival and release only move a phase. */
  lemma IngestMovesPhase(s: Sys, i: IngestStep, s': Sys)
    requires IngestTo(s, i, s') && !i.Deliver? && !i.ReleaseKey?
    ensures i.id in s.deliveries && i.id in s'.deliveries
    ensures s'.now == s.now && s'.ttl == s.ttl && s'.keys == s.keys
    ensures s'.deliveries == s.deliveries[i.id := s'.deliveries[i.id]]
    ensures var d, g := s.deliveries[i.id], s'.deliveries[i.id];
            && g == d.(phase := g.phase, logged := g.logged) && !d.phase.Released? && !g.phase.Released?
            && (g.logged == d.logged || i.CommitEvent?)
            && (i.CommitEvent? ==> g.logged && (g.phase.Enqueueing? || g.phase.Committed?))
            && (!i.CommitEvent? ==>
                  ((d.phase.Enqueueing? || d.phase.Committed?) <==> (g.phase.Enqueueing? || g.phase.Committed?)))
  {}

  lemma IngestKeepsKeys(s: Sys, i: IngestStep, s': Sys)
    requires KeyInv(s) && Prompt(s) && IngestTo(s, i, s')
    ensures KeyInv(s')
  {
    match i
    case Deliver(id, p) => if !KeyLive(s, KeyOf(p)) { DeliverKeepsKeys(s, id, p, s'); }
    case ReleaseKey(id) =>
      ReleasingOwnsKey(s, id);
      ReleaseKeepsKeys(s, id, s');
    case _ =>
      var id := i.id;
      IngestMovesPhase(s, i, s');
      assert DeliveryKeyed(s, id);
      PhaseKeepsKeys(s, id, s'.deliveries[id], s');
  }

  /** Everything else leaves keys and deliveries alone; time only passes. */
  lemma OtherKeepsKeys(s: Sys, s': Sys)
    requires KeyInv(s) && s.now <= s'.now && s'.ttl == s.ttl && s'.keys == s.keys && s'.deliveries == s.deliveries
    ensures KeyInv(s')
  {
    forall b | b in s'.deliveries ensures DeliveryKeyed(s', b) { assert DeliveryKeyed(s, b); }
    forall k | k in s'.keys ensures EntryOwned(s', k) { assert EntryOwned(s, k); }
    forall a, b | a in s'.deliveries && b in s'.deliveries ensures Apart(s', a, b) { assert Apart(s, a, b); }
  }

  lemma StepKeepsKeys(s: Sys, step: Step, s': Sys)
    requires WellFormed(s) && KeyInv(s) && Prompt(s) && StepTo(s, step, s')
    ensures KeyInv(s')
  {
    match step
    case Api(a) => ApiKeepsFrame(s, a, s'); OtherKeepsKeys(s, s');
    case Ingest(i) => IngestKeepsKeys(s, i, s');
    case Work(x) =>
      var c, e := WorkKeepsFrame(s, x, s');
      OtherKeepsKeys(s, s');
  }

  lemma {:induction false} RunKeys(tr: seq<Sys>, steps: seq<Step>, i: nat)
    requires PromptRun(tr, steps) && i < |tr|
    ensures KeyInv(tr[i])
  {
    if i > 0 {
      RunKeys(tr, steps, i - 1);
      NextKeys(tr, steps, i);
    }
  }

  lemma NextKeys(tr: seq<Sys>, steps: seq<Step>, i: nat)
    requires PromptRun(tr, steps) && 0 < i < |tr| && KeyInv(tr[i - 1])
    ensures KeyInv(tr[i])
  {
    var s, step, s' := RunStep(tr, steps, i);
    WellFormedAt(tr, steps, i - 1, s);
    StepKeepsKeys(s, step, s');
  }

  // ----- who logged what -----

  /** The n-th event of call `c` was logged by delivery `id`. */
  predicate LoggedAt(s: Sys, c: CallId, n: nat, id: DeliveryId) {
    c in s.calls && n < |s.calls[c].events| && s.calls[c].events[n].delivery == id
  }

  predicate SameEvent(s: Sys, id: DeliveryId, c: CallId, n: nat, b: CallId, m: nat) {
    LoggedAt(s, c, n, id) && LoggedAt(s, b, m, id) ==> c == b && n == m
  }

  ghost predicate HasLogged(s: Sys, id: DeliveryId) {
    exists c: CallId, n: nat :: LoggedAt(s, c, n, id)
  }

  /** Each delivery logs at most one event, and is marked exactly when it did. */
  ghost predicate LogInv(s: Sys) {
    && (forall id: DeliveryId, c: CallId, n: nat, b: CallId, m: nat :: SameEvent(s, id, c, n, b, m))
    && (forall id: DeliveryId, c: CallId, n: nat :: LoggedAt(s, c, n, id) ==>
          id in s.deliveries && s.deliveries[id].logged && s.deliveries[id].payload == s.calls[c].events[n].payload)
    && (forall id :: id in s.deliveries && s.deliveries[id].logged ==> HasLogged(s, id))
    && (forall id :: id in s.deliveries && s.deliveries[id].phase.Resolved? ==> !s.deliveries[id].logged)
    && (forall id :: id in s.deliveries && InFlight(s.deliveries[id].phase) ==> !s.deliveries[id].logged)
  }

  predicate SameMark(d: Delivery, e: Delivery) {
    e.logged == d.logged && e.payload == d.payload && (InFlight(e.phase) ==> InFlight(d.phase))
  }

  lemma SameLogKeeps(s: Sys, s': Sys)
    requires LogInv(s)
    requires forall id: DeliveryId, c: CallId, n: nat :: LoggedAt(s', c, n, id) <==> LoggedAt(s, c, n, id)
    requires forall c :: c in s.calls && c in s'.calls ==> s'.calls[c].events == s.calls[c].events
    requires forall id :: id in s.deliveries ==> id in s'.deliveries && SameMark(s.deliveries[id], s'.deliveries[id])
    requires forall id :: id in s'.deliveries && id !in s.deliveries ==> !s'.deliveries[id].logged
    ensures LogInv(s')
  {
    forall id: DeliveryId, c: CallId, n: nat, b: CallId, m: nat ensures SameEvent(s', id, c, n, b, m) {
      assert SameEvent(s, id, c, n, b, m);
    }
    forall id | id in s'.deliveries && s'.deliveries[id].logged ensures HasLogged(s', id) {
      assert HasLogged(s, id);
      var c: CallId, n: nat :| LoggedAt(s, c, n, id);
      assert LoggedAt(s', c, n, id);
    }
  }

  lemma CommitLogsOne(s: Sys, i: IngestStep, s': Sys) returns (c: CallId, n: nat)
    requires IngestTo(s, i, s') && i.CommitEvent?
    ensures forall id: DeliveryId, b: CallId, m: nat ::
              LoggedAt(s', b, m, id) <==> LoggedAt(s, b, m, id) || (b == c && m == n && id == i.id)
    ensures forall b: CallId, m: nat, id: DeliveryId :: LoggedAt(s, b, m, id) && LoggedAt(s', b, m, id) ==>
              s'.calls[b].events[m] == s.calls[b].events[m]
    ensures c in s'.calls && n < |s'.calls[c].events| && s'.calls[c].events[n].payload == s.deliveries[i.id].payload
  {
    var p;
    c, p := CommitHasFrame(s, i.id, i.stamp, i.conflict, s');
    n := |s.calls[c].events|;
    assert s'.calls[c].events[..n] == s.calls[c].events;
  }

  lemma PushKeepsLog(s: Sys, s': Sys, i: DeliveryId, c: CallId, n: nat)
    requires LogInv(s) && i in s.deliveries && !s.deliveries[i].logged
    requires forall id: DeliveryId, b: CallId, m: nat ::
               LoggedAt(s', b, m, id) <==> LoggedAt(s, b, m, id) || (b == c && m == n && id == i)
    requires forall id :: id in s.deliveries && id != i ==> id in s'.deliveries && s'.deliveries[id] == s.deliveries[id]
    requires forall id :: id in s'.deliveries ==> id in s.deliveries
    requires i in s'.deliveries && s'.deliveries[i].logged && !InFlight(s'.deliveries[i].phase)
    requires forall b: CallId, m: nat, id: DeliveryId :: LoggedAt(s, b, m, id) && LoggedAt(s', b, m, id) ==>
               s'.calls[b].events[m] == s.calls[b].events[m]
    requires c in s'.calls && n < |s'.calls[c].events| && s'.calls[c].events[n].payload == s'.deliveries[i].payload
    ensures LogInv(s')
  {
    forall id: DeliveryId, a: CallId, k: nat, b: CallId, m: nat ensures SameEvent(s', id, a, k, b, m) {
      assert SameEvent(s, id, a, k, b, m);
    }
    forall id | id in s'.deliveries && s'.deliveries[id].logged ensures HasLogged(s', id) {
      if id == i {
        assert LoggedAt(s', c, n, id);
      } else {
        assert HasLogged(s, id);
        var b: CallId, m: nat :| LoggedAt(s, b, m, id);
        assert LoggedAt(s', b, m, id);
      }
    }
  }

  lemma CommitKeepsLog(s: Sys, i: IngestStep, s': Sys)
    requires LogInv(s) && IngestTo(s, i, s') && i.CommitEvent?
    ensures LogInv(s')
  {
    var c, n := CommitLogsOne(s, i, s');
    PushKeepsLog(s, s', i.id, c, n);
  }

  lemma StepKeepsLog(s: Sys, step: Step, s': Sys)
    requires WellFormed(s) && LogInv(s) && StepTo(s, step, s')
    ensures LogInv(s')
  {
    match step
    case Api(a) =>
      ApiKeepsFrame(s, a, s');
      ApiKeepsEvents(s, a, s');
      SameLogKeeps(s, s');
    case Ingest(i) => IngestKeepsLog(s, i, s');
    case Work(x) =>
      var c, e := WorkKeepsFrame(s, x, s');
      WorkKeepsLog(s, s', x.w, c, e);
  }

  lemma IngestKeepsLog(s: Sys, i: IngestStep, s': Sys)
    requires LogInv(s) && IngestTo(s, i, s')
    ensures LogInv(s')
  {
    if i.CommitEvent? {
      CommitKeepsLog(s, i, s');
    } else {
      IngestKeepsFrame(s, i, s');
      OtherIngestLogs(s, i, s');
      SameLogKeeps(s, s');
    }
  }

  lemma WorkKeepsLog(s: Sys, s': Sys, w: WorkerId, c: CallId, e: Effect)
    requires LogInv(s) && WorkFrame(s, s', w, c, e)
    ensures LogInv(s')
  {
    SameLogKeeps(s, s');
  }

  lemma ApiKeepsEvents(s: Sys, a: ApiStep, s': Sys)
    requires ApiFrame(s, a, s')
    ensures forall c :: c in s.calls ==> s'.calls[c].events == s.calls[c].events
    ensures forall id: DeliveryId, c: CallId, n: nat :: LoggedAt(s', c, n, id) <==> LoggedAt(s, c, n, id)
  {
    forall c | c in s.calls ensures s'.calls[c].events == s.calls[c].events {
      assert ServedFile(s.calls[c], s'.calls[c], StampOf(a));
    }
  }

  lemma OtherIngestLogs(s: Sys, i: IngestStep, s': Sys)
    requires IngestTo(s, i, s') && !i.CommitEvent?
    ensures forall id :: id in s.deliveries ==> id in s'.deliveries && SameMark(s.deliveries[id], s'.deliveries[id])
    ensures forall id :: id in s'.deliveries && id !in s.deliveries ==> !s'.deliveries[id].logged
  {}

  lemma {:induction false} RunLog(tr: seq<Sys>, steps: seq<Step>, i: nat)
    requires Run(tr, steps) && i < |tr|
    ensures LogInv(tr[i])
  {
    if i > 0 {
      RunLog(tr, steps, i - 1);
      NextLog(tr, steps, i);
    }
  }

  lemma NextLog(tr: seq<Sys>, steps: seq<Step>, i: nat)
    requires Run(tr, steps) && 0 < i < |tr| && LogInv(tr[i - 1])
    ensures LogInv(tr[i])
  {
    var s, step, s' := RunStep(tr, steps, i);
    WellFormedAt(tr, steps, i - 1, s);
    StepKeepsLog(s, step, s');
  }

  // ----- what it means for keys -----

  /** Two different events whose payloads have the same key were logged by
      deliveries that set the key at least a whole lifetime apart: one lifetime
      of a key commits at most one event. */
  lemma OneEventPerLifetime(tr: seq<Sys>, steps: seq<Step>, i: nat, c: CallId, n: nat, b: CallId, m: nat)
    requires PromptRun(tr, steps) && i < |tr|
    requires c in tr[i].calls && n < |tr[i].calls[c].events| && b in tr[i].calls && m < |tr[i].calls[b].events|
    requires (c, n) != (b, m)
    requires KeyOf(tr[i].calls[c].events[n].payload) == KeyOf(tr[i].calls[b].events[m].payload)
    ensures var s := tr[i];
            var v, w := s.calls[c].events[n].delivery, s.calls[b].events[m].delivery;
            && v in s.deliveries && w in s.deliveries
            && (s.deliveries[v].acquiredAt + s.ttl <= s.deliveries[w].acquiredAt
                || s.deliveries[w].acquiredAt + s.ttl <= s.deliveries[v].acquiredAt)
  {
    var s := tr[i];
    RunKeys(tr, steps, i);
    RunLog(tr, steps, i);
    var v, w := s.calls[c].events[n].delivery, s.calls[b].events[m].delivery;
    assert LoggedAt(s, c, n, v) && LoggedAt(s, b, m, w);
    assert SameEvent(s, v, c, n, b, m);
    assert DeliveryKeyed(s, v) && DeliveryKeyed(s, w) && Apart(s, v, w);
  }

  /** A key that is set has a delivery of that key behind it: it committed its
      event, is still in flight, or stopped early. A delivery that released its
      key has none. */
  lemma SetKeyHasHolder(tr: seq<Sys>, steps: seq<Step>, i: nat, k: string)
    requires PromptRun(tr, steps) && i < |tr| && k in tr[i].keys
    ensures var s := tr[i];
            var o := s.keys[k].owner;
            && o in s.deliveries && KeyOf(s.deliveries[o].payload) == k
            && s.keys[k].expires == s.deliveries[o].acquiredAt + s.ttl
            && (HasLogged(s, o) || InFlight(s.deliveries[o].phase) || s.deliveries[o].phase.Dropped?)
  {
    var s := tr[i];
    RunKeys(tr, steps, i);
    RunLog(tr, steps, i);
    assert EntryOwned(s, k) && DeliveryKeyed(s, s.keys[k].owner);
  }

  /** A deletion only ever removes the lifetime that its own delivery began. */
  lemma ReleaseHitsOwnKey(tr: seq<Sys>, steps: seq<Step>, i: nat, id: DeliveryId)
    requires PromptRun(tr, steps) && i < |tr| && At(tr[i], id, Releasing)
    ensures Owns(tr[i], id)
  {
    RunKeys(tr, steps, i);
    ReleasingOwnsKey(tr[i], id);
  }

  /** While a delivery is in flight any other delivery of its key changes nothing. */
  lemma DuplicateIgnored(tr: seq<Sys>, steps: seq<Step>, i: nat, id: DeliveryId, p: Payload)
    requires PromptRun(tr, steps) && i < |steps| && steps[i] == Ingest(Deliver(id, p))
    requires exists o ::
               o in tr[i].deliveries && InFlight(tr[i].deliveries[o].phase) && tr[i].deliveries[o].key == KeyOf(p)
    ensures tr[i + 1] == tr[i]
  {
    var s := tr[i];
    RunKeys(tr, steps, i);
    assert Happens(tr, steps, i);
    var o :| o in s.deliveries && InFlight(s.deliveries[o].phase) && s.deliveries[o].key == KeyOf(p);
    assert DeliveryKeyed(s, o);
  }

  // ----- which failures free the key -----

  /** The step at which the delivery stopped without releasing its key: an
      exception outside the guarded transaction, or a crash. */
  predicate Stops(step: Step, id: DeliveryId) {
    step == Ingest(Raise(id)) || step == Ingest(Drop(id))
  }

  /** The delivery found no call, or its transaction failed. */
  predicate Fails(step: Step, id: DeliveryId) {
    step == Ingest(Unresolved(id)) || step == Ingest(AbortEvent(id))
  }

  predicate Settled(p: DeliveryPhase) {
    p.Releasing? || p.Released?
  }

  ghost predicate PhaseMoves(p: DeliveryPhase, q: DeliveryPhase, step: Step, id: DeliveryId) {
    && (Settled(p) && !Stops(step, id) ==> Settled(q))
    && (p.Dropped? ==> q.Dropped?) && (p.Committed? ==> q.Committed?)
    && (q.Dropped? && !p.Dropped? ==> Stops(step, id))
    && (Stops(step, id) && InFlight(p) ==> q.Dropped?)
    && (Stops(step, id) ==> q.Dropped? || q.Committed?)
    && (Fails(step, id) ==> q.Releasing?)
  }

  lemma IngestPhases(s: Sys, i: IngestStep, s': Sys, id: DeliveryId)
    requires IngestTo(s, i, s')
    ensures id in s.deliveries ==>
              id in s'.deliveries && PhaseMoves(s.deliveries[id].phase, s'.deliveries[id].phase, Ingest(i), id)
    ensures id !in s.deliveries && id in s'.deliveries ==> s'.deliveries[id].phase == Acquired
  {}

  lemma OthersKeepDeliveries(s: Sys, step: Step, s': Sys)
    requires WellFormed(s) && StepTo(s, step, s') && !step.Ingest?
    ensures s'.deliveries == s.deliveries
  {
    match step
    case Api(a) => ApiKeepsFrame(s, a, s');
    case Work(x) => var c, e := WorkKeepsFrame(s, x, s');
  }

  lemma NextPhases(tr: seq<Sys>, steps: seq<Step>, i: nat, id: DeliveryId)
    requires Run(tr, steps) && i < |steps|
    ensures StepTo(tr[i], steps[i], tr[i + 1])
    ensures id in tr[i].deliveries ==>
              && id in tr[i + 1].deliveries
              && PhaseMoves(tr[i].deliveries[id].phase, tr[i + 1].deliveries[id].phase, steps[i], id)
    ensures id !in tr[i].deliveries && id in tr[i + 1].deliveries ==> tr[i + 1].deliveries[id].phase == Acquired
  {
    RunWellFormed(tr, steps, i);
    assert Happens(tr, steps, i);
    StepPhases(tr[i], steps[i], tr[i + 1], id);
  }

  lemma StepPhases(s: Sys, step: Step, s': Sys, id: DeliveryId)
    requires WellFormed(s) && StepTo(s, step, s')
    ensures id in s.deliveries ==>
              id in s'.deliveries && PhaseMoves(s.deliveries[id].phase, s'.deliveries[id].phase, step, id)
    ensures id !in s.deliveries && id in s'.deliveries ==> s'.deliveries[id].phase == Acquired
  {
    if step.Ingest? { IngestPhases(s, step.i, s', id); } else { OthersKeepDeliveries(s, step, s'); }
  }

  lemma {:induction false} SettledStays(tr: seq<Sys>, steps: seq<Step>, k: nat, i: nat, id: DeliveryId)
    requires Run(tr, steps) && k <= i < |tr| && id in tr[k].deliveries && Settled(tr[k].deliveries[id].phase)
    requires forall m :: k <= m < i ==> !Stops(steps[m], id)
    ensures id in tr[i].deliveries && Settled(tr[i].deliveries[id].phase)
    decreases i - k
  {
    if k < i {
      SettledStays(tr, steps, k, i - 1, id);
      NextPhases(tr, steps, i - 1, id);
    }
  }

  /** A delivery that found no call, or whose transaction failed, and that has
      ended without being stopped, owns no key entry: the key is free or belongs
      to another delivery. */
  lemma FailedDeliveryFreesKey(tr: seq<Sys>, steps: seq<Step>, k: nat, i: nat, id: DeliveryId)
    requires PromptRun(tr, steps) && k < i < |tr| && Fails(steps[k], id)
    requires forall m :: k < m < i ==> !Stops(steps[m], id)
    requires id in tr[i].deliveries && !InFlight(tr[i].deliveries[id].phase)
    ensures tr[i].deliveries[id].phase == Released
    ensures forall key :: key in tr[i].keys ==> tr[i].keys[key].owner != id
  {
    NextPhases(tr, steps, k, id);
    SettledStays(tr, steps, k + 1, i, id);
    RunKeys(tr, steps, i);
    forall key | key in tr[i].keys ensures tr[i].keys[key].owner != id { assert EntryOwned(tr[i], key); }
  }

  lemma {:induction false} DroppedWasStopped(tr: seq<Sys>, steps: seq<Step>, i: nat, id: DeliveryId)
    requires Run(tr, steps) && i < |tr| && id in tr[i].deliveries && tr[i].deliveries[id].phase.Dropped?
    ensures exists k :: 0 <= k < i && Stops(steps[k], id)
  {
    if i > 0 {
      NewlyDropped(tr, steps, i - 1, id);
      if !Stops(steps[i - 1], id) { DroppedWasStopped(tr, steps, i - 1, id); }
    }
  }

  lemma NewlyDropped(tr: seq<Sys>, steps: seq<Step>, i: nat, id: DeliveryId)
    requires Run(tr, steps) && i < |steps| && id in tr[i + 1].deliveries && tr[i + 1].deliveries[id].phase.Dropped?
    ensures Stops(steps[i], id) || (id in tr[i].deliveries && tr[i].deliveries[id].phase.Dropped?)
  {
    NextPhases(tr, steps, i, id);
  }

  /** The delivery is over: stopped, or committed before it could be stopped. */
  predicate Done(s: Sys, id: DeliveryId) {
    id in s.deliveries && (s.deliveries[id].phase.Dropped? || s.deliveries[id].phase.Committed?)
  }

  lemma {:induction false} StoppedIsDone(tr: seq<Sys>, steps: seq<Step>, k: nat, i: nat, id: DeliveryId)
    requires Run(tr, steps) && k < i < |tr| && Stops(steps[k], id)
    ensures Done(tr[i], id)
    decreases i - k
  {
    if k + 1 == i {
      StopEnds(tr, steps, k, id);
    } else {
      StoppedIsDone(tr, steps, k, i - 1, id);
      DoneStays(tr, steps, i - 1, id);
    }
  }

  lemma StopEnds(tr: seq<Sys>, steps: seq<Step>, k: nat, id: DeliveryId)
    requires Run(tr, steps) && k < |steps| && Stops(steps[k], id)
    ensures Done(tr[k + 1], id)
  {
    NextPhases(tr, steps, k, id);
  }

  lemma DoneStays(tr: seq<Sys>, steps: seq<Step>, k: nat, id: DeliveryId)
    requires Run(tr, steps) && k < |steps| && Done(tr[k], id)
    ensures Done(tr[k + 1], id)
  {
    NextPhases(tr, steps, k, id);
  }

  /** Within its lifetime, the key of a delivery that ended without logging an
      event is still set by it if and only if the delivery was stopped: by an
      exception of the lookup or of the status word, or by a crash. */
  lemma KeyStuckIffStopped(tr: seq<Sys>, steps: seq<Step>, i: nat, id: DeliveryId)
    requires PromptRun(tr, steps) && i < |tr| && id in tr[i].deliveries
    requires var d := tr[i].deliveries[id];
             !InFlight(d.phase) && !HasLogged(tr[i], id) && tr[i].now < d.acquiredAt + tr[i].ttl
    ensures Owns(tr[i], id) <==> exists k :: 0 <= k < i && Stops(steps[k], id)
  {
    RunKeys(tr, steps, i);
    RunLog(tr, steps, i);
    assert DeliveryKeyed(tr[i], id);
    if tr[i].deliveries[id].phase.Dropped? { DroppedWasStopped(tr, steps, i, id); }
    if k :| 0 <= k < i && Stops(steps[k], id) { StoppedIsDone(tr, steps, k, i, id); }
    if Owns(tr[i], id) { assert EntryOwned(tr[i], tr[i].deliveries[id].key); }
  }
}
