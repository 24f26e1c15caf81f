/** The polling worker: it fetches the execution a bounded number of times and
    feeds each payload to the ingestion entry point. */
module Polling {
  import opened Model
  import opened Ingestion

  /** The worker compares the provider's word with the call's own status names. */
  predicate StopWord(w: string) {
    w == "completed" || w == "no_answer" || w == "busy" || w == "failed" || w == "canceled"
  }

  /** A stop word ends the worker; so does a status that cannot be looked up
      among the stop words, by an exception. */
  predicate Stops(p: Payload) {
    p.status.Unhashable? || (p.status.Word? && StopWord(p.status.word))
  }

  /** Nothing is polled for a call that does not exist or has no provider id yet.
      `fetched(k)` is the payload of attempt `k`, or `None` if fetching it or
      reading the call raised; `ended(k)` is whether the call's status was
      terminal just before processing it, and `raises(k)` whether processing it
      raised. The processed payloads are those of the first attempts, up to a
      status that stops the worker, a call that has ended, an exception or the
      limit, whichever comes first. */
  method PollExecution(providerId: Option<string>, fetched: nat -> Option<Payload>, ended: nat -> bool,
                       raises: nat -> bool, maxAttempts: int)
    returns (processed: seq<Payload>)
    ensures providerId.None? || providerId == Some("") || maxAttempts <= 0 ==> processed == []
    ensures maxAttempts > 0 ==> |processed| <= maxAttempts
    ensures forall k :: 0 <= k < |processed| ==> fetched(k) == Some(processed[k]) && !ended(k)
    ensures forall k :: 0 <= k < |processed| - 1 ==> !Stops(processed[k]) && !raises(k)
    ensures providerId.Some? && providerId != Some("") && |processed| < maxAttempts ==>
              || fetched(|processed|).None? || ended(|processed|)
              || (processed != [] && (Stops(processed[|processed| - 1]) || raises(|processed| - 1)))
  {
    processed := [];
    if providerId.None? || providerId.value == "" { return; }
    for attempt := 0 to if maxAttempts < 0 then 0 else maxAttempts
      invariant |processed| == attempt
      invariant forall k :: 0 <= k < attempt ==> fetched(k) == Some(processed[k]) && !ended(k)
      invariant forall k :: 0 <= k < attempt ==> !Stops(processed[k]) && !raises(k)
    {
      var payload := fetched(attempt);
      if payload.None? || ended(attempt) { return; }
      processed := processed + [payload.value];
      if raises(attempt) || Stops(payload.value) { return; }
    }
  }

  /** Every stop word ends the call. The converse holds except for exactly three
      provider words: after these the worker polls on and stops only because the
      call's status has become terminal. */
  lemma StopWordsEndTheCall(w: string)
    ensures StopWord(w) ==> IsTerminal(EventOfWord(w))
    ensures IsTerminal(EventOfWord(w)) && !StopWord(w) <==> w in {"no-answer", "stopped", "error"}
  {
    assert "no-answer"[2] == '-' && "no_answer"[2] == '_';
    assert |"stopped"| == 7 && |"error"| == 5 && |"completed"| == 9 && |"canceled"| == 8 && |"failed"| == 6;
  }
}
