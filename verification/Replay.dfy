/** The call's columns are a replay of its committed event log: each column holds
    what the last event that speaks about it said, from the queued row on, and
    no event is logged before the provider's call id is stored. */
module Replay {
  import opened Model
  import opened Ingestion
  import opened Protocol
  import opened Frames

  /** What the latest event with something to say says. */
  function LastSaid<T>(events: seq<Event>, says: Event -> Option<T>): Option<T> {
    if events == [] then None
    else
      var last := says(events[|events| - 1]);
      if last.Some? then last else LastSaid(events[..|events| - 1], says)
  }

  function Or<T>(o: Option<T>, base: T): T {
    if o.Some? then o.value else base
  }

  /** The index of the deciding event, if there is one. */
  lemma {:induction false} LastSaidIsLast<T>(events: seq<Event>, says: Event -> Option<T>)
    ensures LastSaid(events, says).None? <==> forall i :: 0 <= i < |events| ==> says(events[i]).None?
    ensures LastSaid(events, says).Some? ==>
              exists i :: 0 <= i < |events| && says(events[i]) == LastSaid(events, says)
                          && forall j :: i < j < |events| ==> says(events[j]).None?
  {
    if events != [] {
      var n := |events| - 1;
      var front := events[..n];
      LastSaidIsLast(front, says);
      assert forall i :: 0 <= i < n ==> events[i] == front[i];
      if says(events[n]).Some? {
        assert says(events[n]) == LastSaid(events, says);
      } else if LastSaid(front, says).Some? {
        var i :| 0 <= i < |front| && says(front[i]) == LastSaid(front, says)
                 && forall j :: i < j < |front| ==> says(front[j]).None?;
        assert says(events[i]) == LastSaid(events, says);
        assert forall j :: i < j < |events| ==> says(events[j]).None?;
      }
    }
  }

  function StatusSaid(e: Event): Option<Status> {
    if e.kind.Some? then Some(SessionStatus(e.kind.value)) else None
  }

  function StartSaid(e: Event): Option<Time> {
    if e.kind == Some(CallStarted) then Some(e.createdAt) else None
  }

  function EndSaid(e: Event): Option<Time> {
    if IsTerminal(e.kind) then Some(e.createdAt) else None
  }

  function DurationSaid(e: Event): Option<int> {
    if IsTerminal(e.kind) && e.payload.duration.Seconds? then Some(e.payload.duration.n) else None
  }

  function RecordingSaid(e: Event): Option<string> {
    if IsTerminal(e.kind) && e.payload.recording != "" then Some(e.payload.recording) else None
  }

  /** The columns tell the log, starting from a queued call with nothing set. */
  ghost predicate Tells(f: CallFile) {
    && f.row.status == Or(LastSaid(f.events, StatusSaid), Queued)
    && f.row.startedAt == LastSaid(f.events, StartSaid)
    && f.row.endedAt == LastSaid(f.events, EndSaid)
    && f.row.duration == LastSaid(f.events, DurationSaid)
    && (!f.row.redacted ==> f.row.recording == LastSaid(f.events, RecordingSaid))
  }

  /** Before the provider's id is stored: no event, and nothing but the
      initiating or refused row. Afterwards every event carries that id. */
  ghost predicate Replayed(f: CallFile) {
    && (f.row.providerId.None? ==>
          f.events == [] && f.row.startedAt.None? && f.row.endedAt.None? && f.row.duration.None?
          && (!f.row.redacted ==> f.row.recording.None?) && f.row.status in {Initiating, Failed})
    && (f.row.providerId.Some? ==> Tells(f))
    && (forall i :: 0 <= i < |f.events| ==> Some(ExecutionId(f.events[i].payload)) == f.row.providerId)
  }

  ghost predicate ReplayInv(s: Sys) {
    && (forall c :: c in s.calls ==> Replayed(s.calls[c]))
    && (forall id :: id in s.deliveries ==> ResolvedFits(s, s.deliveries[id]))
  }

  predicate ResolvedFits(s: Sys, d: Delivery) {
    d.phase.Resolved? ==>
      d.phase.call in s.calls && s.calls[d.phase.call].row.providerId == Some(ExecutionId(d.payload))
  }

  lemma LastSaidPush<T>(events: seq<Event>, e: Event, says: Event -> Option<T>)
    ensures LastSaid(events + [e], says) == if says(e).Some? then says(e) else LastSaid(events, says)
  {
    assert (events + [e])[..|events|] == events;
  }

  lemma LoggedReplayed(f: CallFile, p: Payload, id: DeliveryId, stamp: Time, conflict: bool, g: CallFile)
    requires Projectable(p) && g == Logged(f, p, id, stamp, conflict)
    requires Replayed(f) && f.row.providerId == Some(ExecutionId(p))
    ensures Replayed(g)
  {
    var e := Event(EventTypeOf(p), p, stamp, id, Stores(f, p, conflict));
    assert g.events == f.events + [e];
    LastSaidPush(f.events, e, StatusSaid);
    LastSaidPush(f.events, e, StartSaid);
    LastSaidPush(f.events, e, EndSaid);
    LastSaidPush(f.events, e, DurationSaid);
    LastSaidPush(f.events, e, RecordingSaid);
  }

  // ----- all steps -----

  lemma CommitKeepsReplay(s: Sys, i: IngestStep, s': Sys)
    requires ReplayInv(s) && IngestTo(s, i, s') && i.CommitEvent?
    ensures ReplayInv(s')
  {
    var c, p := CommitHasFrame(s, i.id, i.stamp, i.conflict, s');
    assert ResolvedFits(s, s.deliveries[i.id]);
    LoggedReplayed(s.calls[c], p, i.id, i.stamp, i.conflict, s'.calls[c]);
    LoggedIngests(s.calls[c], p, i.id, i.stamp, i.conflict);
    forall id | id in s'.deliveries ensures ResolvedFits(s', s'.deliveries[id]) {
      assert ResolvedFits(s, s.deliveries[id]);
    }
  }

  lemma OtherIngestKeepsReplay(s: Sys, i: IngestStep, s': Sys)
    requires ReplayInv(s) && IngestTo(s, i, s') && !i.CommitEvent?
    ensures ReplayInv(s')
  {
    IngestKeepsFrame(s, i, s');
    forall id | id in s'.deliveries ensures ResolvedFits(s', s'.deliveries[id]) {
      if id in s.deliveries { assert ResolvedFits(s, s.deliveries[id]); }
    }
  }

  lemma ServedReplayed(f: CallFile, g: CallFile, stamp: Time)
    requires Replayed(f) && ServedFile(f, g, stamp)
    requires g.row.providerId.Some? || g.row.status in {Initiating, Failed}
    ensures Replayed(g)
    ensures f.row.providerId.Some? ==> g.row.providerId == f.row.providerId
  {
    if f.row.providerId.None? && g.row.providerId.Some? { assert LastSaid(g.events, StatusSaid).None?; }
  }

  /** The only status writes before the provider's id are the refusal's. */
  lemma ApiStatus(s: Sys, a: ApiStep, s': Sys, c: CallId)
    requires ReplayInv(s) && ApiTo(s, a, s') && c in s.calls
    ensures c in s'.calls && (s'.calls[c].row.providerId.Some? || s'.calls[c].row.status in {Initiating, Failed})
  {
    assert Replayed(s.calls[c]);
  }

  lemma ApiKeepsReplay(s: Sys, a: ApiStep, s': Sys)
    requires ReplayInv(s) && ApiTo(s, a, s')
    ensures ReplayInv(s')
  {
    ApiKeepsFrame(s, a, s');
    forall c | c in s'.calls ensures Replayed(s'.calls[c]) {
      if c in s.calls {
        ApiStatus(s, a, s', c);
        ServedReplayed(s.calls[c], s'.calls[c], StampOf(a));
      }
    }
    forall id | id in s'.deliveries ensures ResolvedFits(s', s'.deliveries[id]) {
      assert ResolvedFits(s, s.deliveries[id]);
      var d := s.deliveries[id];
      if d.phase.Resolved? {
        var c := d.phase.call;
        ApiStatus(s, a, s', c);
        ServedReplayed(s.calls[c], s'.calls[c], StampOf(a));
      }
    }
  }

  lemma WorkedReplayed(f: CallFile, g: CallFile)
    requires Replayed(f) && WorkedFile(f, g)
    ensures Replayed(g) && g.row.providerId == f.row.providerId
  {}

  lemma WorkKeepsReplay(s: Sys, s': Sys, w: WorkerId, c: CallId, e: Effect)
    requires ReplayInv(s) && WorkFrame(s, s', w, c, e)
    ensures ReplayInv(s')
  {
    WorkedReplayed(s.calls[c], e.file);
    forall id | id in s'.deliveries ensures ResolvedFits(s', s'.deliveries[id]) {
      assert ResolvedFits(s, s.deliveries[id]);
    }
  }

  lemma StepKeepsReplay(s: Sys, step: Step, s': Sys)
    requires WellFormed(s) && ReplayInv(s) && StepTo(s, step, s')
    ensures ReplayInv(s')
  {
    match step
    case Api(a) => ApiKeepsReplay(s, a, s');
    case Ingest(i) => if i.CommitEvent? { CommitKeepsReplay(s, i, s'); } else { OtherIngestKeepsReplay(s, i, s'); }
    case Work(x) =>
      var c, e := WorkKeepsFrame(s, x, s');
      WorkKeepsReplay(s, s', x.w, c, e);
  }

  lemma {:induction false} RunReplay(tr: seq<Sys>, steps: seq<Step>, i: nat)
    requires Run(tr, steps) && i < |tr|
    ensures ReplayInv(tr[i])
  {
    if i > 0 {
      RunReplay(tr, steps, i - 1);
      NextReplay(tr, steps, i);
    }
  }

  lemma NextReplay(tr: seq<Sys>, steps: seq<Step>, i: nat)
    requires Run(tr, steps) && 0 < i < |tr| && ReplayInv(tr[i - 1])
    ensures ReplayInv(tr[i])
  {
    var s, step, s' := RunStep(tr, steps, i);
    WellFormedAt(tr, steps, i - 1, s);
    StepKeepsReplay(s, step, s');
  }

  // ----- what it means -----

  /** In every reachable state a placed call's status, start, end, duration and
      (unless redacted) recording are those of the last event that said so. */
  lemma ProjectionIsReplay(tr: seq<Sys>, steps: seq<Step>, i: nat, c: CallId)
    requires Run(tr, steps) && i < |tr| && c in tr[i].calls && tr[i].calls[c].row.providerId.Some?
    ensures Tells(tr[i].calls[c])
  {
    RunReplay(tr, steps, i);
    assert Replayed(tr[i].calls[c]);
  }

  /** No event is logged for a call before its provider id is stored, and every
      logged event carries that id, as its execution id or without one as its id. */
  lemma EventsFollowPlacement(tr: seq<Sys>, steps: seq<Step>, i: nat, c: CallId, n: nat)
    requires Run(tr, steps) && i < |tr| && c in tr[i].calls && n < |tr[i].calls[c].events|
    ensures var id, p := tr[i].calls[c].row.providerId, tr[i].calls[c].events[n].payload;
            id == if p.executionId != "" then Some(p.executionId) else Some(p.id)
  {
    RunReplay(tr, steps, i);
    assert Replayed(tr[i].calls[c]);
  }

  /** The end is recorded exactly when some terminal event is logged, and the
      start exactly when some started event is. */
  lemma EndedIffTerminalLogged(tr: seq<Sys>, steps: seq<Step>, i: nat, c: CallId)
    requires Run(tr, steps) && i < |tr| && c in tr[i].calls
    ensures var f := tr[i].calls[c];
            && (f.row.endedAt.Some? <==> exists n :: 0 <= n < |f.events| && IsTerminal(f.events[n].kind))
            && (f.row.startedAt.Some? <==> exists n :: 0 <= n < |f.events| && f.events[n].kind == Some(CallStarted))
  {
    RunReplay(tr, steps, i);
    var f := tr[i].calls[c];
    assert Replayed(f);
    LastSaidIsLast(f.events, EndSaid);
    LastSaidIsLast(f.events, StartSaid);
    assert forall n :: 0 <= n < |f.events| ==> (EndSaid(f.events[n]).Some? <==> IsTerminal(f.events[n].kind));
    assert forall n :: 0 <= n < |f.events| ==>
                         (StartSaid(f.events[n]).Some? <==> f.events[n].kind == Some(CallStarted));
  }

  // ----- before the provider's id is stored -----

  predicate RefusedBefore(steps: seq<Step>, i: nat, c: CallId)
    requires i <= |steps|
  {
    exists k :: 0 <= k < i && steps[k] == Api(RefuseCall(c))
  }

  /** What a step does to the status of a call without a provider id. */
  lemma UnplacedStep(s: Sys, step: Step, s': Sys, c: CallId)
    requires WellFormed(s) && ReplayInv(s) && StepTo(s, step, s') && c in s'.calls && s'.calls[c].row.providerId.None?
    ensures step == Api(RefuseCall(c)) ==> c in s.calls && s'.calls[c].row.status == Failed
    ensures c !in s.calls ==> s'.calls[c].row.status == Initiating
    ensures c in s.calls ==>
              && s.calls[c].row.providerId.None?
              && (step != Api(RefuseCall(c)) ==> s'.calls[c].row.status == s.calls[c].row.status)
  {
    match step
    case Api(a) => UnplacedApi(s, a, s', c);
    case Ingest(i) => UnplacedIngest(s, i, s', c);
    case Work(x) => var b, e := WorkKeepsFrame(s, x, s');
  }

  /** Events are committed only for calls with a provider id. */
  lemma UnplacedIngest(s: Sys, i: IngestStep, s': Sys, c: CallId)
    requires ReplayInv(s) && IngestTo(s, i, s') && c in s'.calls && s'.calls[c].row.providerId.None?
    ensures c in s.calls && s'.calls[c] == s.calls[c]
  {
    IngestKeepsFrame(s, i, s');
    if i.CommitEvent? {
      var b, p := CommitHasFrame(s, i.id, i.stamp, i.conflict, s');
      assert ResolvedFits(s, s.deliveries[i.id]);
    }
  }

  lemma UnplacedApi(s: Sys, a: ApiStep, s': Sys, c: CallId)
    requires ApiTo(s, a, s') && c in s'.calls && s'.calls[c].row.providerId.None?
    ensures a == RefuseCall(c) ==> c in s.calls && s'.calls[c].row.status == Failed
    ensures c !in s.calls ==> s'.calls[c].row.status == Initiating
    ensures c in s.calls ==>
              && s.calls[c].row.providerId.None?
              && (a != RefuseCall(c) ==> s'.calls[c].row.status == s.calls[c].row.status)
  {
    ApiKeepsFrame(s, a, s');
    assert s' == ApplyApi(s, a);
  }

  lemma StepKeepsCalls(s: Sys, step: Step, s': Sys)
    requires WellFormed(s) && StepTo(s, step, s')
    ensures s.calls.Keys <= s'.calls.Keys
  {
    match step
    case Api(a) => ApiKeepsFrame(s, a, s');
    case Ingest(i) => IngestKeepsFrame(s, i, s');
    case Work(x) => var b, e := WorkKeepsFrame(s, x, s');
  }

  lemma {:induction false} CallsStay(tr: seq<Sys>, steps: seq<Step>, k: nat, i: nat, c: CallId)
    requires Run(tr, steps) && k <= i < |tr| && c in tr[k].calls
    ensures c in tr[i].calls
    decreases i - k
  {
    if k < i {
      CallsStay(tr, steps, k, i - 1, c);
      var s, step, s' := RunStep(tr, steps, i);
      WellFormedAt(tr, steps, i - 1, s);
      StepKeepsCalls(s, step, s');
    }
  }

  lemma RefusedExists(tr: seq<Sys>, steps: seq<Step>, i: nat, c: CallId)
    requires Run(tr, steps) && i < |tr| && RefusedBefore(steps, i, c)
    ensures c in tr[i].calls
  {
    var k :| 0 <= k < i && steps[k] == Api(RefuseCall(c));
    assert Happens(tr, steps, k);
    CallsStay(tr, steps, k, i, c);
  }

  /** A call without a provider id is failed if the provider refused it, and
      initiating otherwise. */
  lemma {:induction false} UnplacedStatus(tr: seq<Sys>, steps: seq<Step>, i: nat, c: CallId)
    requires Run(tr, steps) && i < |tr| && c in tr[i].calls && tr[i].calls[c].row.providerId.None?
    ensures tr[i].calls[c].row.status == if RefusedBefore(steps, i, c) then Failed else Initiating
  {
    if i > 0 {
      var s, step, s' := RunStep(tr, steps, i);
      WellFormedAt(tr, steps, i - 1, s);
      RunReplay(tr, steps, i - 1);
      UnplacedStep(s, step, s', c);
      if c in s.calls {
        UnplacedStatus(tr, steps, i - 1, c);
      } else if RefusedBefore(steps, i - 1, c) {
        RefusedExists(tr, steps, i - 1, c);
      }
      RefusedNext(steps, i - 1, c);
    }
  }

  lemma RefusedNext(steps: seq<Step>, i: nat, c: CallId)
    requires i < |steps|
    ensures RefusedBefore(steps, i + 1, c) <==> RefusedBefore(steps, i, c) || steps[i] == Api(RefuseCall(c))
  {}
}
