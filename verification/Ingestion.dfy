/** Provider events: idempotency key, normalisation, and the transaction that
    logs an event and updates the call's columns. */
module Ingestion {
  import opened Model
  import opened Transcripts

  const KEY_BASE := "signal_layer:webhook:bolna"

  function ExecutionId(p: Payload): string {
    if p.executionId != "" then p.executionId else p.id
  }

  /** The call the provider's execution id belongs to. */
  predicate Belongs(calls: map<CallId, CallFile>, c: CallId, execution: string) {
    c in calls && execution != "" && calls[c].row.providerId == Some(execution)
  }

  function StatusWord(p: Payload): string {
    match p.status case Word(w) => w case _ => "unknown"
  }

  /** The explicit event id when there is one, else execution, status and digest. */
  function KeyOf(p: Payload): string {
    if p.eventId != "" then KEY_BASE + ":" + p.eventId
    else if p.id != "" then KEY_BASE + ":" + p.id
    else
      KEY_BASE + ":" + (if p.executionId != "" then p.executionId else "unknown") + ":" + StatusWord(p) + ":" + p.digest
  }

  /** The provider's status words; anything else is unknown. */
  function EventOfWord(w: string): Option<EventType> {
    if w == "queued" then Some(CallQueued)
    else if w == "ringing" then Some(CallRinging)
    else if w == "in-progress" || w == "in_progress" then Some(CallStarted)
    else if w == "completed" then Some(CallCompleted)
    else if w == "busy" then Some(CallBusy)
    else if w == "no-answer" || w == "no_answer" then Some(CallNoAnswer)
    else if w == "canceled" then Some(CallCanceled)
    else if w == "failed" || w == "stopped" || w == "error" then Some(CallFailed)
    else None
  }

  function EventTypeOf(p: Payload): Option<EventType> {
    match p.status case Word(w) => EventOfWord(w) case _ => None
  }

  function SessionStatus(e: EventType): Status {
    match e
    case CallQueued => Queued case CallRinging => Ringing case CallStarted => InProgress
    case CallCompleted => Completed case CallBusy => Busy case CallNoAnswer => NoAnswer
    case CallCanceled => Canceled case CallFailed => Failed
  }

  predicate Terminal(s: Status) {
    s in {Completed, NoAnswer, Busy, Failed, Canceled}
  }

  predicate IsTerminal(kind: Option<EventType>) {
    kind.Some? && Terminal(SessionStatus(kind.value))
  }

  /** The turns an event offers for storage: those of a terminal event's transcript. */
  function Offered(kind: Option<EventType>, p: Payload): seq<Turn> {
    if IsTerminal(kind) && p.transcript != "" then SPEAKERS.Parse(p.transcript) else []
  }

  /** The projection of a terminal event with a malformed duration raises. */
  predicate Projectable(p: Payload) {
    IsTerminal(EventTypeOf(p)) ==> !p.duration.Malformed?
  }

  /** The columns one event sets; `None` leaves a column alone. */
  datatype Changes = Changes(
    status: Status, startedAt: Option<Time>, endedAt: Option<Time>,
    duration: Option<int>, recording: Option<string>, processing: Option<Processing>)

  function ChangesOf(e: EventType, p: Payload, stamp: Time, stores: bool): Changes
    requires Terminal(SessionStatus(e)) ==> !p.duration.Malformed?
  {
    var terminal := Terminal(SessionStatus(e));
    Changes(SessionStatus(e),
            if e == CallStarted then Some(stamp) else None,
            if terminal then Some(stamp) else None,
            if terminal && p.duration.Seconds? then Some(p.duration.n) else None,
            if terminal && p.recording != "" then Some(p.recording) else None,
            if stores then Some(TranscriptFinalized) else None)
  }

  function Keep<T>(change: Option<T>, was: Option<T>): Option<T> {
    if change.Some? then change else was
  }

  function Updated(row: Call, ch: Changes, stamp: Time): Call {
    row.(status := ch.status, updatedAt := stamp,
         startedAt := Keep(ch.startedAt, row.startedAt), endedAt := Keep(ch.endedAt, row.endedAt),
         duration := Keep(ch.duration, row.duration), recording := Keep(ch.recording, row.recording),
         processing := if ch.processing.Some? then ch.processing.value else row.processing)
  }

  /** The row after an event of a known status, column by column. */
  predicate Projects(was: Call, e: EventType, p: Payload, stamp: Time, stored: bool, row: Call) {
    var ends := e in {CallCompleted, CallBusy, CallNoAnswer, CallCanceled, CallFailed};
    && row.deal == was.deal && row.contact == was.contact && row.providerId == was.providerId
    && row.redacted == was.redacted && row.updatedAt == stamp
    && row.startedAt == (if e == CallStarted then Some(stamp) else was.startedAt)
    && row.endedAt == (if ends then Some(stamp) else was.endedAt)
    && row.duration == (if ends && p.duration.Seconds? then Some(p.duration.n) else was.duration)
    && row.recording == (if ends && p.recording != "" then Some(p.recording) else was.recording)
    && row.processing == (if stored then TranscriptFinalized else was.processing)
    && row.status == match e
                     case CallQueued => Queued case CallRinging => Ringing case CallStarted => InProgress
                     case CallCompleted => Completed case CallBusy => Busy case CallNoAnswer => NoAnswer
                     case CallCanceled => Canceled case CallFailed => Failed
  }

  /** Whether the transaction stores the offered turns: the unique index lets
      them in only when the call has none. */
  predicate Stores(f: CallFile, p: Payload, conflict: bool) {
    Offered(EventTypeOf(p), p) != [] && !conflict
  }

  /** The committed transaction: one event, and for a known status the new
      columns and possibly the transcript. */
  function Logged(f: CallFile, p: Payload, delivery: DeliveryId, stamp: Time, conflict: bool): CallFile
    requires Projectable(p)
  {
    var kind := EventTypeOf(p);
    var stores := Stores(f, p, conflict);
    var g := f.(events := f.events + [Event(kind, p, stamp, delivery, stores)]);
    if kind.None? then g
    else
      g.(row := Updated(f.row, ChangesOf(kind.value, p, stamp, stores), stamp),
         transcript := if stores then Some(Transcript(|f.events|, Offered(kind, p))) else f.transcript)
  }

  /** Utterance rows under the unique index on (call, sequence number). */
  class Utterances {
    var rows: map<(CallId, nat), Turn>
    ghost var stored: map<CallId, seq<Turn>>

    /** The rows of a call are numbered 0 .. n-1 and read back its stored turns. */
    ghost predicate Valid()
      reads this
    {
      && (forall c, n: nat :: (c, n) in rows <==> c in stored && n < |stored[c]|)
      && (forall c, n: nat :: (c, n) in rows ==> rows[(c, n)] == stored[c][n])
      && (forall c :: c in stored ==> stored[c] != [])
    }

    constructor ()
      ensures Valid() && stored == map[]
    {
      rows, stored := map[], map[];
    }

    /** Inserts the parsed turns inside a savepoint: a clash on any row undoes the
        whole batch. Returns the inserted turns, none for a blank transcript or
        an already stored one. */
    method Persist(c: CallId, transcript: string) returns (created: seq<Turn>)
      requires Valid()
      modifies this
      ensures Valid()
      ensures created == if c in old(stored) then [] else SPEAKERS.Parse(transcript)
      ensures stored == if created == [] then old(stored) else old(stored)[c := created]
    {
      var turns := SPEAKERS.ParseTurns(transcript);
      if turns == [] { return []; }
      var savepoint := rows;
      assert c in stored <==> (c, 0) in rows;
      var clash := InsertAll(c, turns);
      if clash {
        assert c in stored;
        rows := savepoint;
        return [];
      }
      created := turns;
      stored := stored[c := turns];
    }

    /** Inserts rows numbered from 0 until one of them exists already. */
    method InsertAll(c: CallId, turns: seq<Turn>) returns (clash: bool)
      modifies this`rows
      ensures clash <==> exists n: nat :: n < |turns| && (c, n) in old(rows)
      ensures !clash ==> forall d, n: nat :: (d, n) in rows <==> (d, n) in old(rows) || (d == c && n < |turns|)
      ensures !clash ==> forall k :: k in old(rows) ==> k in rows && rows[k] == old(rows)[k]
      ensures !clash ==> forall n: nat :: n < |turns| ==> rows[(c, n)] == turns[n]
    {
      for i := 0 to |turns|
        invariant forall d, n: nat :: (d, n) in rows <==> (d, n) in old(rows) || (d == c && n < i)
        invariant forall k :: k in old(rows) ==> k in rows && rows[k] == old(rows)[k]
        invariant forall n: nat :: n < i ==> (c, n) !in old(rows) && rows[(c, n)] == turns[n]
      {
        if (c, i) in rows { return true; }
        rows := rows[(c, i) := turns[i]];
      }
      clash := false;
    }

    /** Reads a call's turns by sequence number. */
    method Read(c: CallId) returns (turns: seq<Turn>)
      requires Valid()
      ensures turns == if c in stored then stored[c] else []
    {
      turns := [];
      while (c, |turns|) in rows
        invariant c in stored ==> turns <= stored[c]
        invariant c !in stored ==> turns == []
        decreases if c in stored then |stored[c]| - |turns| else 0
      {
        turns := turns + [rows[(c, |turns|)]];
      }
    }
  }

  /** The call row being updated by an event's transaction. */
  class SessionRow {
    var row: Call

    constructor (row: Call)
      ensures this.row == row
    {
      this.row := row;
    }

    /** Fills the change record step by step, stores the transcript of a terminal
        event, then writes the columns. Returns whether extraction is due. */
    method UpdateProjection(e: EventType, p: Payload, stamp: Time, c: CallId, utterances: Utterances)
      returns (enqueue: bool)
      requires utterances.Valid() && (Terminal(SessionStatus(e)) ==> !p.duration.Malformed?)
      modifies this, utterances
      ensures utterances.Valid()
      ensures enqueue <==>
                && e in {CallCompleted, CallBusy, CallNoAnswer, CallCanceled, CallFailed}
                && p.transcript != "" && SPEAKERS.Parse(p.transcript) != [] && c !in old(utterances.stored)
      ensures enqueue ==> c in utterances.stored && utterances.stored[c] == SPEAKERS.Parse(p.transcript)
      ensures enqueue == (Offered(Some(e), p) != [] && c !in old(utterances.stored))
      ensures utterances.stored ==
              if enqueue then old(utterances.stored)[c := Offered(Some(e), p)] else old(utterances.stored)
      ensures Projects(old(row), e, p, stamp, enqueue, row)
      ensures row == Updated(old(row), ChangesOf(e, p, stamp, enqueue), stamp)
    {
      var status := SessionStatus(e);
      var changes := Changes(status, None, None, None, None, None);
      enqueue := false;
      if e == CallStarted { changes := changes.(startedAt := Some(stamp)); }
      if Terminal(status) {
        changes := changes.(endedAt := Some(stamp));
        if p.duration.Seconds? { changes := changes.(duration := Some(p.duration.n)); }
        if p.recording != "" { changes := changes.(recording := Some(p.recording)); }
      }
      if p.transcript != "" && Terminal(status) {
        var created := utterances.Persist(c, p.transcript);
        if created != [] {
          changes := changes.(processing := Some(TranscriptFinalized));
          enqueue := true;
        }
      }
      row := Updated(row, changes, stamp);
    }
  }
}
