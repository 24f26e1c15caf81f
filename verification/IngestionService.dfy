/** The shared entry point for webhooks and polling in the source's own form:
    key check, lookup, one transaction, and the follow-up message. */
module IngestionService {
  import opened Model
  import opened Transcripts
  import opened Ingestion
  import opened Protocol

  /** `Raised` stands for an exception that leaves the entry point. */
  datatype Outcome = Processed(call: CallId) | Duplicate | NoSession | Raised

  ghost predicate ProviderIdsUnique(calls: map<CallId, CallFile>) {
    forall b, c :: b in calls && c in calls && SameProviderId(calls[b].row, calls[c].row) ==> b == c
  }

  predicate SameProviderId(a: Call, b: Call) {
    a.providerId.Some? && a.providerId == b.providerId
  }

  class Intake {
    const ttl: nat
    const utterances: Utterances
    var keys: map<string, Time>
    var calls: map<CallId, CallFile>
    var sent: multiset<Message>

    /** The utterance table holds exactly the calls' transcripts. */
    ghost predicate Valid()
      reads this, utterances
    {
      utterances.Valid() && ProviderIdsUnique(calls) && AllStored(calls, utterances.stored)
    }

    constructor (ttl: nat)
      ensures Valid() && fresh(utterances) && this.ttl == ttl && keys == map[] && calls == map[] && sent == multiset{}
    {
      this.ttl := ttl;
      utterances := new Utterances();
      keys, calls, sent := map[], map[], multiset{};
    }

    predicate KeySet(key: string, now: Time)
      reads this
    {
      key in keys && now < keys[key]
    }

    method CheckKey(key: string, now: Time) returns (duplicate: bool)
      modifies this`keys
      ensures duplicate <==> key in old(keys) && now < old(keys)[key]
      ensures duplicate == old(KeySet(key, now))
      ensures keys == if duplicate then old(keys) else old(keys)[key := now + ttl]
    {
      duplicate := KeySet(key, now);
      if !duplicate { keys := keys[key := now + ttl]; }
    }

    method ResolveSession(execution: string) returns (found: Option<CallId>)
      ensures found.Some? ==> Belongs(calls, found.value, execution)
      ensures found.None? ==> forall c :: c in calls ==> !Belongs(calls, c, execution)
    {
      if execution == "" { return None; }
      var rest := calls.Keys;
      while rest != {}
        invariant rest <= calls.Keys
        invariant forall c :: c in calls && c !in rest ==> !Belongs(calls, c, execution)
        decreases |rest|
      {
        var c :| c in rest;
        if calls[c].row.providerId == Some(execution) { return Some(c); }
        rest := rest - {c};
      }
      found := None;
    }

    /** Logs the event and updates the projection of one call. */
    method WriteEvent(c: CallId, p: Payload, id: DeliveryId, stamp: Time) returns (enqueue: bool)
      requires Valid() && c in calls && Projectable(p)
      modifies this`calls, utterances
      ensures Valid()
      ensures calls.Keys == old(calls).Keys
      ensures calls[c].events == old(calls)[c].events + [Event(EventTypeOf(p), p, stamp, id, enqueue)]
      ensures EventTypeOf(p).None? ==>
                !enqueue && calls[c].row == old(calls)[c].row && calls[c].transcript == old(calls)[c].transcript
      ensures EventTypeOf(p).Some? ==>
                Projects(old(calls)[c].row, EventTypeOf(p).value, p, stamp, enqueue, calls[c].row)
      ensures enqueue == Stores(old(calls)[c], p, Clash(old(calls)[c]))
      ensures calls == old(calls)[c := Logged(old(calls)[c], p, id, stamp, Clash(old(calls)[c]))]
    {
      var f := calls[c];
      var kind := EventTypeOf(p);
      enqueue := false;
      assert TranscriptStored(f, c, utterances.stored);
      WriteKeepsStored(calls, utterances.stored, c, p, id, stamp);
      if kind.Some? {
        var session := new SessionRow(f.row);
        enqueue := session.UpdateProjection(kind.value, p, stamp, c, utterances);
        if enqueue { f := f.(transcript := Some(Transcript(|f.events|, Offered(kind, p)))); }
        f := f.(row := session.row);
      }
      f := f.(events := f.events + [Event(kind, p, stamp, id, enqueue)]);
      calls := calls[c := f];
    }

    /** The guarded block: the transaction and the message after it, or on an
        exception the deletion of the key. */
    method LogGuarded(c: CallId, p: Payload, id: DeliveryId, key: string, stamp: Time, fails: bool)
      returns (ok: bool)
      requires Valid() && c in calls
      modifies this, utterances
      ensures Valid()
      ensures ok <==> !fails && !(IsTerminal(EventTypeOf(p)) && p.duration.Malformed?)
      ensures !ok ==> keys == old(keys) - {key}
      ensures !ok ==> calls == old(calls) && sent == old(sent) && utterances.stored == old(utterances.stored)
      ensures ok ==>
                && keys == old(keys)
                && calls == old(calls)[c := Logged(old(calls)[c], p, id, stamp, Clash(old(calls)[c]))]
                && sent == old(sent) + if Stores(old(calls)[c], p, Clash(old(calls)[c]))
                                       then multiset{Extract(c)} else multiset{}
    {
      if fails || (IsTerminal(EventTypeOf(p)) && p.duration.Malformed?) {
        keys := keys - {key};
        return false;
      }
      var enqueue := WriteEvent(c, p, id, stamp);
      if enqueue { sent := sent + multiset{Extract(c)}; }
      ok := true;
    }

    /** The whole delivery. `lookupFails` stands for a database error of the lookup
        and `fails` for one in the guarded transaction. An exception deletes the
        key, except when the lookup or the status word caused it: then the key
        stays set for its lifetime although nothing was logged. */
    method ProcessEvent(p: Payload, id: DeliveryId, now: Time, stamp: Time, lookupFails: bool, fails: bool)
      returns (r: Outcome)
      requires Valid()
      modifies this, utterances
      ensures Valid()
      ensures forall c :: c in old(calls) && NamedBy(old(calls)[c].row.providerId, p) ==>
                (r == Processed(c) <==>
                   !old(KeySet(KeyOf(p), now)) && !lookupFails && !p.status.Unhashable? && !fails
                   && !(IsTerminal(EventTypeOf(p)) && p.duration.Malformed?))
      ensures r.NoSession? ==> forall c :: c in old(calls) ==> !NamedBy(old(calls)[c].row.providerId, p)
      ensures r.Duplicate? <==> old(KeySet(KeyOf(p), now))
      ensures r.Duplicate? ==> keys == old(keys)
      ensures r.NoSession? <==> !r.Duplicate? && !LookupRaises(p, lookupFails) && Unknown(old(calls), ExecutionId(p))
      ensures r.NoSession? ==> keys == old(keys) - {KeyOf(p)}
      ensures r.Raised? <==>
                !r.Duplicate? && !r.NoSession? && (lookupFails || p.status.Unhashable? || fails || !Projectable(p))
      ensures r.Raised? ==>
                && (KeyOf(p) in keys <==> lookupFails || p.status.Unhashable?)
                && (KeyOf(p) in keys ==> keys[KeyOf(p)] == now + ttl)
                && keys - {KeyOf(p)} == old(keys) - {KeyOf(p)}
      ensures !r.Processed? ==> calls == old(calls) && sent == old(sent) && utterances.stored == old(utterances.stored)
      ensures r.Processed? ==>
                && keys == old(keys)[KeyOf(p) := now + ttl] && Belongs(old(calls), r.call, ExecutionId(p))
                && calls == old(calls)[r.call := Logged(old(calls)[r.call], p, id, stamp, Clash(old(calls)[r.call]))]
                && sent == old(sent) + if Stores(old(calls)[r.call], p, Clash(old(calls)[r.call]))
                                       then multiset{Extract(r.call)} else multiset{}
    {
      var key := KeyOf(p);
      forall c | c in calls ensures NamedBy(calls[c].row.providerId, p) <==> Belongs(calls, c, ExecutionId(p)) {
        NamedBelongs(calls, c, p);
      }
      var duplicate := CheckKey(key, now);
      if duplicate { return Duplicate; }
      if lookupFails && ExecutionId(p) != "" { return Raised; }
      var found := ResolveSession(ExecutionId(p));
      if found.None? {
        keys := keys - {key};
        return NoSession;
      }
      if p.status.Unhashable? { return Raised; }
      var ok := LogGuarded(found.value, p, id, key, stamp, fails);
      r := if ok then Processed(found.value) else Raised;
    }
  }

  /** The payload's execution id, or without one its id, is the call's provider id. */
  predicate NamedBy(providerId: Option<string>, p: Payload) {
    || (p.executionId != "" && providerId == Some(p.executionId))
    || (p.executionId == "" && p.id != "" && providerId == Some(p.id))
  }

  lemma NamedBelongs(calls: map<CallId, CallFile>, c: CallId, p: Payload)
    requires c in calls
    ensures NamedBy(calls[c].row.providerId, p) <==> Belongs(calls, c, ExecutionId(p))
  {}

  /** The lookup queries only for a non-empty execution id. */
  predicate LookupRaises(p: Payload, lookupFails: bool) {
    lookupFails && ExecutionId(p) != ""
  }

  /** No call has the execution id. */
  predicate Unknown(calls: map<CallId, CallFile>, execution: string) {
    forall c :: c in calls ==> !Belongs(calls, c, execution)
  }

  /** Rows are already stored. */
  predicate Clash(f: CallFile) {
    f.transcript.Some?
  }

  /** A payload whose status is a JSON object or list. */
  const ODD_STATUS := Payload("", "x", "", Unhashable, "", NoDuration, "", "")

  /** The second delivery of such a payload is taken for a duplicate although the
      first logged nothing. */
  method DeliverOddStatusTwice(ttl: nat, now: Time) returns (first: Outcome, second: Outcome)
    requires ttl > 0
    ensures first == Raised && second == Duplicate
  {
    var intake := new Intake(ttl);
    var f := NewCall(0, 0, now);
    intake.calls := map[0 := f.(row := f.row.(providerId := Some("x"), status := Queued))];
    assert Belongs(intake.calls, 0, ExecutionId(ODD_STATUS));
    first := intake.ProcessEvent(ODD_STATUS, 0, now, now, false, false);
    second := intake.ProcessEvent(ODD_STATUS, 1, now, now, false, false);
  }

  ghost predicate AllStored(calls: map<CallId, CallFile>, stored: map<CallId, seq<Turn>>) {
    && (forall c :: c in stored ==> c in calls)
    && (forall c :: c in calls ==> TranscriptStored(calls[c], c, stored))
  }

  /** Logging an event together with the turns it stores keeps tables and calls in step. */
  lemma WriteKeepsStored(calls: map<CallId, CallFile>, stored: map<CallId, seq<Turn>>, c: CallId, p: Payload,
        id: DeliveryId, stamp: Time)
    requires AllStored(calls, stored) && ProviderIdsUnique(calls) && c in calls && Projectable(p)
    ensures var conflict := calls[c].transcript.Some?;
            var calls' := calls[c := Logged(calls[c], p, id, stamp, conflict)];
            && ProviderIdsUnique(calls')
            && var turns := Offered(EventTypeOf(p), p);
            && AllStored(calls', if Stores(calls[c], p, conflict) then stored[c := turns] else stored)
  {
    var g := Logged(calls[c], p, id, stamp, calls[c].transcript.Some?);
    assert g.row.providerId == calls[c].row.providerId;
    assert TranscriptStored(calls[c], c, stored);
  }

  predicate TranscriptStored(f: CallFile, c: CallId, stored: map<CallId, seq<Turn>>) {
    && (c in stored <==> f.transcript.Some?)
    && (f.transcript.Some? ==> stored[c] == f.transcript.value.turns)
  }

  // ----- the protocol's steps are these deliveries -----

  /** Calls and messages are as before. */
  predicate NothingWritten(s: Sys, t: Sys) {
    t.calls == s.calls && t.sent == s.sent
  }

  /** The first step of a delivery: a duplicate changes nothing, any other
      delivery sets its key. */
  lemma FirstStep(s: Sys, id: DeliveryId, p: Payload, s1: Sys)
    requires IngestTo(s, Deliver(id, p), s1)
    ensures KeyOf(p) in s.keys && s.now < s.keys[KeyOf(p)].expires ==> s1 == s
    ensures KeyOf(p) !in s.keys || s.keys[KeyOf(p)].expires <= s.now ==>
              && NothingWritten(s, s1) && s1.keys == s.keys[KeyOf(p) := KeyEntry(s.now + s.ttl, id)]
              && s1.deliveries == s.deliveries[id := Delivery(p, KeyOf(p), s.now, Acquired, false)]
              && (NextIngest(s1, Unresolved(id)).Some? <==> Unknown(s.calls, ExecutionId(p)))
              && (NextIngest(s1, Raise(id)).Some? <==> LookupRaises(p, true))
  {}

  /** No session: the key is deleted again. */
  lemma StepsWithoutSession(s: Sys, id: DeliveryId, p: Payload, s1: Sys, s2: Sys, s3: Sys)
    requires IngestTo(s, Deliver(id, p), s1) && !KeyLive(s, KeyOf(p))
    requires IngestTo(s1, Unresolved(id), s2)
    requires IngestTo(s2, ReleaseKey(id), s3)
    ensures NothingWritten(s, s3) && s3.keys == s.keys - {KeyOf(p)}
  {
    FirstStep(s, id, p, s1);
  }

  /** A failed transaction: the key is deleted again. */
  lemma StepsOfFailure(s: Sys, id: DeliveryId, p: Payload, c: CallId, s1: Sys, s2: Sys, s3: Sys, s4: Sys)
    requires IngestTo(s, Deliver(id, p), s1) && !KeyLive(s, KeyOf(p))
    requires IngestTo(s1, Resolve(id, c), s2)
    requires IngestTo(s2, AbortEvent(id), s3)
    requires IngestTo(s3, ReleaseKey(id), s4)
    ensures NothingWritten(s, s4) && s4.keys == s.keys - {KeyOf(p)} && !p.status.Unhashable?
  {
    FirstStep(s, id, p, s1);
  }

  /** An exception of the lookup, or of the status word once the call is found:
      the key stays, and a found call with an odd status has no other way on. */
  lemma StepsOfRaise(s: Sys, id: DeliveryId, p: Payload, c: CallId, s1: Sys, s2: Sys)
    requires IngestTo(s, Deliver(id, p), s1) && !KeyLive(s, KeyOf(p))
    requires IngestTo(s1, Resolve(id, c), s2)
    ensures LookupRaises(p, true) ==>
              && NextIngest(s1, Raise(id)).Some?
              && var t := NextIngest(s1, Raise(id)).value;
              NothingWritten(s, t) && t.keys == s1.keys && Protocol.At(t, id, Dropped)
    ensures NextIngest(s2, Raise(id)).Some? <==> p.status.Unhashable?
    ensures p.status.Unhashable? ==>
              && NextIngest(s2, Raise(id)).Some?
              && var t := NextIngest(s2, Raise(id)).value;
              NothingWritten(s, t) && t.keys == s1.keys && Protocol.At(t, id, Dropped)
    ensures p.status.Unhashable? ==> forall i :: NextIngest(s2, i).Some? && i.id == id ==> i.Raise? || i.Drop?
  {
    FirstStep(s, id, p, s1);
    ResolveStep(s1, id, c, s2);
  }

  lemma ResolveStep(s: Sys, id: DeliveryId, c: CallId, s1: Sys)
    requires IngestTo(s, Resolve(id, c), s1)
    ensures NothingWritten(s, s1) && s1.keys == s.keys && id in s.deliveries
    ensures s1.deliveries == s.deliveries[id := s.deliveries[id].(phase := Resolved(c))]
  {}

  /** A committed event and the message sent after it. */
  lemma CommitStep(s: Sys, id: DeliveryId, c: CallId, p: Payload, stamp: Time, conflict: bool, s1: Sys)
    requires IngestTo(s, CommitEvent(id, stamp, conflict), s1)
    requires id in s.deliveries && s.deliveries[id].phase == Resolved(c) && s.deliveries[id].payload == p
    ensures c in s.calls && Projectable(p) && s1.keys == s.keys && s1.sent == s.sent && id in s1.deliveries
    ensures s1.calls == s.calls[c := Logged(s.calls[c], p, id, stamp, conflict)]
    ensures s1.deliveries[id].phase == if Stores(s.calls[c], p, conflict) then Enqueueing(c) else Committed
  {}

  lemma SendStep(s: Sys, id: DeliveryId)
    requires id in s.deliveries
    ensures NextIngest(s, EnqueueExtraction(id)).Some? <==> s.deliveries[id].phase.Enqueueing?
    ensures forall t :: IngestTo(s, EnqueueExtraction(id), t) ==>
              t.sent == s.sent + multiset{Extract(s.deliveries[id].phase.call)} && t.calls == s.calls
  {}

  /** The protocol's steps of a delivery that finds its call, taken one after the
      other, leave what `ProcessEvent` leaves. */
  lemma StepsAreTheDelivery(s: Sys, id: DeliveryId, p: Payload, c: CallId, stamp: Time, s1: Sys, s2: Sys, s3: Sys)
    requires IngestTo(s, Deliver(id, p), s1) && !KeyLive(s, KeyOf(p))
    requires IngestTo(s1, Resolve(id, c), s2)
    requires Belongs(s.calls, c, ExecutionId(p))
    requires IngestTo(s2, CommitEvent(id, stamp, s.calls[c].transcript.Some?), s3)
    ensures s3.keys == s.keys[KeyOf(p) := KeyEntry(s.now + s.ttl, id)]
    ensures s3.calls == s.calls[c := Logged(s.calls[c], p, id, stamp, s.calls[c].transcript.Some?)]
    ensures NextIngest(s3, EnqueueExtraction(id)).Some? <==> Stores(s.calls[c], p, s.calls[c].transcript.Some?)
    ensures forall t :: IngestTo(s3, EnqueueExtraction(id), t) ==>
              t.sent == s.sent + multiset{Extract(c)} && t.calls == s3.calls
  {
    FirstStep(s, id, p, s1);
    ResolveStep(s1, id, c, s2);
    CommitStep(s2, id, c, p, stamp, s.calls[c].transcript.Some?, s3);
    SendStep(s3, id);
  }
}
