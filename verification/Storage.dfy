/** The tables as mutable state, and lists of rows as a query returns them. */
module Storage {
  import opened Model
  import opened Stages

  /** The tables the post-call stages read and write. */
  datatype Tables = Tables(
    calls: map<CallId, CallFile>, deals: map<DealId, DealFile>, contacts: map<ContactId, Contact>) {
    /** Foreign keys: the call's deal and stakeholder exist and belong together. */
    predicate Has(c: CallId) {
      && c in calls && calls[c].row.deal in deals && calls[c].row.contact in contacts
      && contacts[calls[c].row.contact].deal == calls[c].row.deal
    }
  }

  /** The calls once `c` is claimed by a stage. */
  function AfterClaim(calls: map<CallId, CallFile>, c: CallId, stage: Stage, stamp: Time): map<CallId, CallFile>
    requires c in calls
  {
    calls[c := calls[c].(row := ClaimedRow(stage, calls[c].row, stamp))]
  }

  class Store {
    var calls: map<CallId, CallFile>
    var deals: map<DealId, DealFile>
    var contacts: map<ContactId, Contact>

    constructor (calls: map<CallId, CallFile>, deals: map<DealId, DealFile>, contacts: map<ContactId, Contact>)
      ensures View() == Tables(calls, deals, contacts)
    {
      this.calls, this.deals, this.contacts := calls, deals, contacts;
    }

    function View(): Tables
      reads this
    {
      Tables(calls, deals, contacts)
    }

    method WriteRow(c: CallId, row: Call)
      requires c in calls
      modifies this`calls
      ensures calls == old(calls)[c := old(calls)[c].(row := row)]
    {
      calls := calls[c := calls[c].(row := row)];
    }
  }

  predicate Distinct<T(==)>(s: seq<T>) {
    forall i, j :: 0 <= i < j < |s| ==> s[i] != s[j]
  }

  lemma {:induction false} DistinctSize<T>(s: seq<T>)
    requires Distinct(s)
    ensures |ToSet(s)| == |s|
  {
    if s != [] {
      var n := |s| - 1;
      DistinctSize(s[..n]);
      assert s == s[..n] + [s[n]] && ToSet(s) == ToSet(s[..n]) + {s[n]};
    }
  }
}
