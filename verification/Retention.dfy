/** The retention sweep: it reaches every stored transcript old enough, it is the
    same as redacting its calls one at a time in any order, and it touches no
    other call. */
module Retention {
  import opened Model
  import opened Stages
  import opened Protocol
  import opened Finalisation

  function Swept(calls: map<CallId, CallFile>, cutoff: Time, stamp: Time): map<CallId, CallFile> {
    RedactAll(calls, ExpiredCalls(calls, cutoff), stamp)
  }

  /** After a sweep no unredacted call that ended before the cutoff keeps a
      transcript: a stored transcript always has an end time the sweep can see. */
  lemma SweepReaches(tr: seq<Sys>, steps: seq<Step>, i: nat, cutoff: Time, stamp: Time, c: CallId)
    requires Run(tr, steps) && i < |steps| && steps[i] == Api(ApiStep.Sweep(cutoff, stamp))
    requires c in tr[i + 1].calls && tr[i + 1].calls[c].transcript.Some?
    ensures c in tr[i].calls && tr[i + 1].calls[c] == tr[i].calls[c]
    ensures var row := tr[i].calls[c].row;
            row.redacted || (row.endedAt.Some? && row.endedAt.value >= cutoff)
  {
    RunFinal(tr, steps, i);
    assert Happens(tr, steps, i);
    assert CallFinal(tr[i], c);
  }

  lemma RedactedTwice(f: CallFile, stamp: Time, later: Time)
    ensures Redacted(Redacted(f, stamp), later) == Redacted(f, later)
  {
    var g := Redacted(f, stamp);
    assert Redacted(g, later).anchors == Redacted(f, later).anchors;
    assert Redacted(g, later).extractions == Redacted(f, later).extractions;
    assert Redacted(g, later).docs == Redacted(f, later).docs;
    assert Redacted(g, later).recommendations == Redacted(f, later).recommendations;
    assert Redacted(g, later).drafts == Redacted(f, later).drafts;
  }

  /** Redacting one set after another is redacting their union. */
  lemma RedactUnion(calls: map<CallId, CallFile>, a: set<CallId>, b: set<CallId>, stamp: Time)
    ensures RedactAll(RedactAll(calls, a, stamp), b, stamp) == RedactAll(calls, a + b, stamp)
  {
    var twice := RedactAll(RedactAll(calls, a, stamp), b, stamp);
    forall c | c in calls ensures twice[c] == RedactAll(calls, a + b, stamp)[c] {
      RedactedTwice(calls[c], stamp, stamp);
    }
  }

  /** Redacting calls one by one in the given order. */
  function RedactEach(calls: map<CallId, CallFile>, order: seq<CallId>, stamp: Time): map<CallId, CallFile> {
    if order == [] then calls
    else RedactAll(RedactEach(calls, order[..|order| - 1], stamp), {order[|order| - 1]}, stamp)
  }

  lemma {:induction false} OneByOne(calls: map<CallId, CallFile>, order: seq<CallId>, stamp: Time)
    ensures RedactEach(calls, order, stamp) == RedactAll(calls, ToSet(order), stamp)
  {
    if order != [] {
      var n := |order| - 1;
      OneByOne(calls, order[..n], stamp);
      RedactUnion(calls, ToSet(order[..n]), {order[n]}, stamp);
      assert order == order[..n] + [order[n]];
      assert ToSet(order) == ToSet(order[..n]) + {order[n]};
    }
  }

  /** A sweep is its expired calls redacted one by one, in whatever order and
      however often each is listed. */
  lemma SweepInAnyOrder(calls: map<CallId, CallFile>, cutoff: Time, stamp: Time, order: seq<CallId>)
    requires ToSet(order) == ExpiredCalls(calls, cutoff)
    ensures RedactEach(calls, order, stamp) == Swept(calls, cutoff, stamp)
  {
    OneByOne(calls, order, stamp);
  }

  /** A second sweep, at any later time, with the same or an earlier cutoff finds nothing. */
  lemma SweepTwice(calls: map<CallId, CallFile>, cutoff: Time, stamp: Time, cutoff': Time, stamp': Time)
    requires cutoff' <= cutoff
    ensures Swept(Swept(calls, cutoff, stamp), cutoff', stamp') == Swept(calls, cutoff, stamp)
  {
    var swept := Swept(calls, cutoff, stamp);
    forall c | c in swept ensures !Expired(swept[c].row, cutoff') {
      assert c in ExpiredCalls(calls, cutoff) <==> Expired(calls[c].row, cutoff);
    }
    assert ExpiredCalls(swept, cutoff') == {};
  }

  /** What a sweep does to one call, over the call's own columns: a call that has
      not ended, that ended at the cutoff or later, or that is already redacted
      keeps its whole file; any other ends scrubbed. */
  ghost predicate SweptFile(f: CallFile, g: CallFile, cutoff: Time, stamp: Time) {
    && (f.row.endedAt.None? || f.row.endedAt.value >= cutoff || f.row.redacted ==> g == f)
    && (f.row.endedAt.Some? && f.row.endedAt.value < cutoff && !f.row.redacted ==>
          Scrubbed(g) && ScrubKeeps(f, g) && g.row.updatedAt == stamp)
  }

  /** What scrubbing leaves: the event log, the other columns, and the number and
      kind of all derived rows. */
  ghost predicate ScrubKeeps(f: CallFile, g: CallFile) {
    && g.events == f.events
    && g.row == f.row.(redacted := true, recording := None, updatedAt := g.row.updatedAt)
    && |g.extractions| == |f.extractions| && g.docs.Keys == f.docs.Keys
    && (forall t :: t in f.docs ==> g.docs[t].run == f.docs[t].run)
    && |g.anchors| == |f.anchors| && (forall i :: 0 <= i < |f.anchors| ==> AnchorKept(f.anchors[i], g.anchors[i]))
    && |g.recommendations| == |f.recommendations|
    && (forall i :: 0 <= i < |f.recommendations| ==> g.recommendations[i].action == f.recommendations[i].action)
    && |g.drafts| == |f.drafts| && (forall i :: 0 <= i < |f.drafts| ==> g.drafts[i].kind == f.drafts[i].kind)
  }

  predicate AnchorKept(a: Anchor, b: Anchor) {
    && b.artifact == a.artifact && b.evidence.field == a.evidence.field
    && b.evidence.speaker == a.evidence.speaker && b.evidence.number == a.evidence.number
  }

  lemma RedactedKeeps(f: CallFile, stamp: Time)
    ensures Scrubbed(Redacted(f, stamp)) && ScrubKeeps(f, Redacted(f, stamp))
  {}

  /** Exactly the calls that ended before the cutoff and were not redacted change. */
  lemma SweepTouchesExpiredOnly(calls: map<CallId, CallFile>, cutoff: Time, stamp: Time, c: CallId)
    requires c in calls
    ensures c in Swept(calls, cutoff, stamp) && SweptFile(calls[c], Swept(calls, cutoff, stamp)[c], cutoff, stamp)
  {
    var row := calls[c].row;
    if row.endedAt.Some? && row.endedAt.value < cutoff && !row.redacted {
      assert c in ExpiredCalls(calls, cutoff);
      RedactedKeeps(calls[c], stamp);
    }
  }

  /** The same for a sweep in a run. */
  lemma SweepStepExact(tr: seq<Sys>, steps: seq<Step>, i: nat, cutoff: Time, stamp: Time, c: CallId)
    requires Run(tr, steps) && i < |steps| && steps[i] == Api(ApiStep.Sweep(cutoff, stamp)) && c in tr[i].calls
    ensures c in tr[i + 1].calls && SweptFile(tr[i].calls[c], tr[i + 1].calls[c], cutoff, stamp)
    ensures tr[i + 1].calls.Keys == tr[i].calls.Keys && cutoff <= stamp <= tr[i].now
  {
    assert Happens(tr, steps, i);
    SweepStep(tr[i], cutoff, stamp, tr[i + 1]);
    SweepTouchesExpiredOnly(tr[i].calls, cutoff, stamp, c);
  }

  lemma SweepStep(s: Sys, cutoff: Time, stamp: Time, s': Sys)
    requires ApiTo(s, ApiStep.Sweep(cutoff, stamp), s')
    ensures s'.calls == Swept(s.calls, cutoff, stamp) && cutoff <= stamp <= s.now
  {}

  /** Nothing derived from the transcript is left in the redacted tables. */
  ghost predicate Scrubbed(f: CallFile) {
    && f.transcript.None? && f.row.redacted && f.row.recording.None?
    && (forall i :: 0 <= i < |f.anchors| ==> f.anchors[i].utterance.None? && f.anchors[i].evidence.quote == REDACTED)
    && (forall i :: 0 <= i < |f.extractions| ==> f.extractions[i] == Extraction(REDACTED_JSON, REDACTED, []))
    && (forall t :: t in f.docs ==> f.docs[t].redacted)
    && (forall i :: 0 <= i < |f.recommendations| ==>
          f.recommendations[i].reason == REDACTED && f.recommendations[i].payload == REDACTED_JSON)
    && (forall i :: 0 <= i < |f.drafts| ==> f.drafts[i].subject == Some(REDACTED) && f.drafts[i].body == REDACTED)
  }
}
