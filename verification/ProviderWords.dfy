/** The provider's status words against the call's own status names, and the
    idempotency keys of payloads with an explicit id. */
module ProviderWords {
  import opened Model
  import opened Ingestion

  /** The status column's text. */
  function Name(s: Status): string {
    match s
    case Initiating => "initiating" case Queued => "queued" case Ringing => "ringing"
    case InProgress => "in_progress" case Completed => "completed" case NoAnswer => "no_answer"
    case Busy => "busy" case Failed => "failed" case Canceled => "canceled"
  }

  /** The word with every hyphen written as an underscore. */
  function Underscored(w: string): (u: string)
    ensures |u| == |w|
    ensures forall i :: 0 <= i < |w| ==> u[i] == if w[i] == '-' then '_' else w[i]
  {
    seq(|w|, i requires 0 <= i < |w| => if w[i] == '-' then '_' else w[i])
  }

  predicate Synonym(w: string) {
    w == "stopped" || w == "error"
  }

  /** A known word leads to the status of the same name, hyphens aside; the two
      synonyms lead to a failed call. */
  lemma KnownWordNamesStatus(w: string)
    requires EventOfWord(w).Some?
    ensures Name(SessionStatus(EventOfWord(w).value)) == if Synonym(w) then "failed" else Underscored(w)
  {
    assert Synonym(w) || Underscored(w) == Name(SessionStatus(EventOfWord(w).value));
  }

  /** Reading the underscores back: a word without hyphens is itself. */
  lemma UnderscoredIs(w: string, n: string)
    requires Underscored(w) == n && forall i :: 0 <= i < |n| ==> n[i] != '_'
    ensures w == n
  {
    forall i | 0 <= i < |w| ensures w[i] == n[i] {}
  }

  lemma UnderscoredIsEither(w: string, n: string, k: nat)
    requires Underscored(w) == n && k < |n| && n[k] == '_' && forall i :: 0 <= i < |n| && i != k ==> n[i] != '_'
    ensures w == n || w == n[k := '-']
  {
    forall i | 0 <= i < |w| && i != k ensures w[i] == n[i] {}
  }

  lemma NamedWordIsKnown(w: string, s: Status)
    requires s != Initiating && Underscored(w) == Name(s)
    ensures EventOfWord(w).Some?
  {
    if s == InProgress {
      UnderscoredIsEither(w, Name(s), 2);
      assert "in_progress"[2 := '-'] == "in-progress";
    } else if s == NoAnswer {
      UnderscoredIsEither(w, Name(s), 2);
      assert "no_answer"[2 := '-'] == "no-answer";
    } else {
      UnderscoredIs(w, Name(s));
    }
  }

  /** A word is known if and only if it names a status other than the initial one
      or is one of the two synonyms; every other word is logged as unknown. */
  lemma WordKnownIff(w: string)
    ensures EventOfWord(w).Some? <==> Synonym(w) || exists s :: s != Initiating && Underscored(w) == Name(s)
  {
    if EventOfWord(w).Some? {
      KnownWordNamesStatus(w);
    } else if s :| s != Initiating && Underscored(w) == Name(s) {
      NamedWordIsKnown(w, s);
    }
  }

  function ExplicitId(p: Payload): string {
    if p.eventId != "" then p.eventId else p.id
  }

  /** Payloads with an explicit id share a key exactly when they share that id,
      whatever their status: an id that names the execution gives one key to all
      of its events. */
  lemma ExplicitIdDecides(p: Payload, q: Payload)
    requires ExplicitId(p) != "" && ExplicitId(q) != ""
    ensures KeyOf(p) == KeyOf(q) <==> ExplicitId(p) == ExplicitId(q)
  {
    var prefix := KEY_BASE + ":";
    assert KeyOf(p) == prefix + ExplicitId(p) && KeyOf(q) == prefix + ExplicitId(q);
    assert KeyOf(p)[|prefix|..] == ExplicitId(p) && KeyOf(q)[|prefix|..] == ExplicitId(q);
  }

  /** The key text, over the payload's own entries. */
  lemma KeyText(p: Payload)
    ensures p.eventId != "" ==> KeyOf(p) == "signal_layer:webhook:bolna:" + p.eventId
    ensures p.eventId == "" && p.id != "" ==> KeyOf(p) == "signal_layer:webhook:bolna:" + p.id
    ensures p.eventId == "" && p.id == "" ==>
              KeyOf(p) == "signal_layer:webhook:bolna:" + (if p.executionId != "" then p.executionId else "unknown")
                          + ":" + (if p.status.Word? then p.status.word else "unknown") + ":" + p.digest
  {
    assert KEY_BASE + ":" == "signal_layer:webhook:bolna:";
    if p.eventId == "" && p.id == "" {
      var execution := if p.executionId != "" then p.executionId else "unknown";
      assert (KEY_BASE + ":") + execution == KEY_BASE + ":" + execution;
    }
  }

  /** Without an explicit id, payloads with digests of one length share a key only
      if they share the digest; sharing execution id, status and digest they do. */
  lemma DigestDecides(p: Payload, q: Payload)
    requires ExplicitId(p) == "" && ExplicitId(q) == "" && |p.digest| == |q.digest|
    ensures KeyOf(p) == KeyOf(q) ==> p.digest == q.digest
    ensures p.executionId == q.executionId && p.status == q.status ==> (KeyOf(p) == KeyOf(q) <==> p.digest == q.digest)
  {
    KeyText(p);
    KeyText(q);
    var n := |p.digest|;
    assert KeyOf(p)[|KeyOf(p)| - n..] == p.digest && KeyOf(q)[|KeyOf(q)| - n..] == q.digest;
  }
}
