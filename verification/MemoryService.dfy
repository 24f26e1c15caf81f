/** Memory documents in the source's own form: the list of document definitions
    built piece by piece, and the rows inserted under the unique index. */
module MemoryService {
  import opened Scoring
  import opened Scorer
  import opened Model
  import opened Stages
  import opened Storage

  /** A definition before its common fields are filled in. */
  datatype Definition = Definition(
    kind: DocType, contact: Option<ContactId>, deal: Option<DealId>, call: Option<CallId>)

  function Kinds(docs: seq<Definition>): (kinds: seq<DocType>)
    ensures |kinds| == |docs|
  {
    seq(|docs|, i requires 0 <= i < |docs| => docs[i].kind)
  }

  /** The fixed order in which definitions are appended. */
  function Position(t: DocType): nat {
    match t
    case CallSummary => 0 case ObjectionSummary => 1 case ProfileSummary => 2
    case DealStateSummary => 3 case RationaleSummary => 4
  }

  predicate Ordered(docs: seq<Definition>) {
    forall i, j :: 0 <= i < j < |docs| ==> Position(docs[i].kind) < Position(docs[j].kind)
  }

  /** Built so far: in order, before position `p`, and linked to the stakeholder
      exactly where the source links it. */
  predicate Built(docs: seq<Definition>, p: nat, stakeholder: Option<ContactId>) {
    && Ordered(docs) && forall i :: 0 <= i < |docs| ==>
         && Position(docs[i].kind) < p
         && docs[i].contact == if docs[i].kind in {CallSummary, ProfileSummary} then stakeholder else None
  }

  /** Appends a definition when it is due. */
  method AppendIf(due: bool, docs: seq<Definition>, kind: DocType, contact: Option<ContactId>,
        ghost stakeholder: Option<ContactId>)
    returns (more: seq<Definition>)
    requires Built(docs, Position(kind), stakeholder)
    requires contact == if kind in {CallSummary, ProfileSummary} then stakeholder else None
    ensures Built(more, Position(kind) + 1, stakeholder)
    ensures ToSet(Kinds(more)) == ToSet(Kinds(docs)) + When(due, kind)
  {
    more := docs;
    if due {
      more := docs + [Definition(kind, contact, None, None)];
      assert Kinds(more) == Kinds(docs) + [kind];
    }
  }

  function When(due: bool, kind: DocType): set<DocType> {
    if due then {kind} else {}
  }

  lemma Regroup(a: set<DocType>, b: set<DocType>, c: set<DocType>, d: set<DocType>, e: set<DocType>)
    ensures {} + a + b + c + d + e == d + a + b + c + e
  {}

  /** The definitions due, each at most once and in the fixed order. */
  method AppendAll(ext: Extraction, risk: Option<RiskSnapshot>, stakeholder: Option<ContactId>)
    returns (docs: seq<Definition>)
    ensures Built(docs, 5, stakeholder) && ToSet(Kinds(docs)) == DocsFor(ext, risk, stakeholder.Some?)
  {
    var objections := Truthy(Field(Field(ext.json, "deal_signals"), "objections"));
    var profile := stakeholder.Some? && Truthy(Field(ext.json, "stakeholder"));
    var rationale := risk.Some? && risk.value.factors != [];
    docs := AppendIf(ext.summary != "", [], CallSummary, stakeholder, stakeholder);
    docs := AppendIf(objections, docs, ObjectionSummary, None, stakeholder);
    docs := AppendIf(profile, docs, ProfileSummary, stakeholder, stakeholder);
    docs := AppendIf(true, docs, DealStateSummary, None, stakeholder);
    docs := AppendIf(rationale, docs, RationaleSummary, None, stakeholder);
    assert ToSet(Kinds([])) == {};
    Regroup(When(ext.summary != "", CallSummary), When(objections, ObjectionSummary), When(profile, ProfileSummary),
            When(true, DealStateSummary), When(rationale, RationaleSummary));
  }

  /** The order in which the definitions are appended. */
  const ORDER := [CallSummary, ObjectionSummary, ProfileSummary, DealStateSummary, RationaleSummary]

  ghost predicate Earlier(s: DocType, t: DocType) {
    exists a, b :: 0 <= a < b < |ORDER| && ORDER[a] == s && ORDER[b] == t
  }

  ghost predicate InOrder(kinds: seq<DocType>) {
    forall i, j :: 0 <= i < j < |kinds| ==> Earlier(kinds[i], kinds[j])
  }

  lemma PositionsEarlier(s: DocType, t: DocType)
    requires Position(s) < Position(t)
    ensures Earlier(s, t)
  {
    assert ORDER[Position(s)] == s && ORDER[Position(t)] == t;
  }

  lemma OrderedInOrder(docs: seq<Definition>)
    requires Ordered(docs)
    ensures InOrder(Kinds(docs))
  {
    var kinds := Kinds(docs);
    forall i, j | 0 <= i < j < |kinds| ensures Earlier(kinds[i], kinds[j]) {
      PositionsEarlier(docs[i].kind, docs[j].kind);
    }
  }

  /** Which documents are due, over the extraction's own entries. */
  predicate DueKinds(ext: Extraction, risk: Option<RiskSnapshot>, stakeholder: bool, kinds: seq<DocType>) {
    var e := ext.json;
    && DealStateSummary in kinds
    && (CallSummary in kinds <==> ext.summary != "")
    && (ObjectionSummary in kinds <==>
          Has(e, "deal_signals", "objections") && Filled(Entry(e, "deal_signals", "objections")))
    && (ProfileSummary in kinds <==>
          stakeholder && e.Obj? && "stakeholder" in e.fields && Filled(e.fields["stakeholder"]))
    && (RationaleSummary in kinds <==> risk.Some? && risk.value.factors != [])
  }

  lemma DueAre(ext: Extraction, risk: Option<RiskSnapshot>, stakeholder: bool, kinds: seq<DocType>)
    requires ToSet(kinds) == DocsFor(ext, risk, stakeholder)
    ensures DueKinds(ext, risk, stakeholder, kinds)
  {
    TruthyIff(Field(Field(ext.json, "deal_signals"), "objections"));
    TruthyIff(Field(ext.json, "stakeholder"));
    assert forall t :: t in kinds <==> t in ToSet(kinds);
  }

  /** Builds the list, then sets the common fields on every definition. */
  method BuildDocuments(ext: Extraction, risk: Option<RiskSnapshot>, stakeholder: Option<ContactId>, d: DealId,
        c: CallId)
    returns (docs: seq<Definition>)
    ensures InOrder(Kinds(docs)) && Ordered(docs) && DueKinds(ext, risk, stakeholder.Some?, Kinds(docs))
    ensures ToSet(Kinds(docs)) == DocsFor(ext, risk, stakeholder.Some?)
    ensures forall i :: 0 <= i < |docs| ==> docs[i].deal == Some(d) && docs[i].call == Some(c)
    ensures forall i :: 0 <= i < |docs| ==>
              docs[i].contact == if docs[i].kind in {CallSummary, ProfileSummary} then stakeholder else None
  {
    var list := AppendAll(ext, risk, stakeholder);
    docs := FillCommon(list, d, c);
    DueAre(ext, risk, stakeholder.Some?, Kinds(docs));
    OrderedInOrder(list);
    assert forall i :: 0 <= i < |docs| ==> docs[i] == list[i].(deal := Some(d), call := Some(c));
  }

  lemma OrderedDistinct(docs: seq<Definition>)
    requires Ordered(docs)
    ensures Distinct(Kinds(docs))
  {
    forall i, j | 0 <= i < j < |docs| ensures Kinds(docs)[i] != Kinds(docs)[j] {
      assert Position(docs[i].kind) < Position(docs[j].kind);
    }
  }

  method FillCommon(docs: seq<Definition>, d: DealId, c: CallId) returns (filled: seq<Definition>)
    ensures |filled| == |docs| && Kinds(filled) == Kinds(docs)
    ensures forall i :: 0 <= i < |docs| ==> filled[i] == docs[i].(deal := Some(d), call := Some(c))
  {
    filled := docs;
    for i := 0 to |docs|
      invariant |filled| == |docs|
      invariant forall j :: 0 <= j < |docs| ==>
                  filled[j] == if j < i then docs[j].(deal := Some(d), call := Some(c)) else docs[j]
    {
      filled := filled[i := filled[i].(deal := Some(d), call := Some(c))];
    }
  }

  lemma NextKind(kinds: seq<DocType>, i: nat)
    requires Distinct(kinds) && i < |kinds|
    ensures ToSet(kinds[..i + 1]) == ToSet(kinds[..i]) + {kinds[i]}
    ensures kinds[i] !in ToSet(kinds[..i]) && kinds[i] in ToSet(kinds) && kinds[..i + 1] == kinds[..i] + [kinds[i]]
  {
    assert kinds[..i + 1] == kinds[..i] + [kinds[i]];
    forall j | 0 <= j < i ensures kinds[..i][j] != kinds[i] {}
  }

  lemma WithDocsNone(f: CallFile, run: WorkerId)
    ensures WithDocs(f, run, {}) == f
  {
    assert WithDocs(f, run, {}).docs == f.docs;
  }

  lemma WithDocsMore(f: CallFile, run: WorkerId, kinds: set<DocType>, kind: DocType)
    requires kind !in kinds
    ensures var g := WithDocs(f, run, kinds);
            g.(docs := g.docs[kind := Doc(run, false)]) == WithDocs(f, run, kinds + {kind})
  {
    assert WithDocs(f, run, kinds).docs[kind := Doc(run, false)] == WithDocs(f, run, kinds + {kind}).docs;
  }

  /** Inserts the whole batch; a clash on (call, document type) drops all pending rows. */
  method CommitBatch(db: Store, c: CallId, run: WorkerId, docs: seq<Definition>) returns (persisted: seq<DocType>)
    requires c in db.calls && Distinct(Kinds(docs))
    modifies db`calls
    ensures var f := old(db.calls)[c];
            var kinds := ToSet(Kinds(docs));
            if BatchFits(f, kinds) then
              persisted == Kinds(docs) && db.calls == old(db.calls)[c := WithDocs(f, run, kinds)]
            else persisted == [] && db.calls == old(db.calls)
  {
    var f := db.calls[c];
    var pending := f;
    ghost var kinds := Kinds(docs);
    persisted := [];
    WithDocsNone(f, run);
    assert ToSet(kinds[..0]) == {};
    for i := 0 to |docs|
      invariant db.calls == old(db.calls) && persisted == kinds[..i]
      invariant BatchFits(f, ToSet(kinds[..i]))
      invariant pending == WithDocs(f, run, ToSet(kinds[..i]))
    {
      var kind := docs[i].kind;
      NextKind(kinds, i);
      if kind in pending.docs {
        assert kind in f.docs && kind in ToSet(kinds);
        return [];
      }
      WithDocsMore(f, run, ToSet(kinds[..i]), kind);
      pending := pending.(docs := pending.docs[kind := Doc(run, false)]);
      persisted := persisted + [kind];
    }
    assert kinds[..|docs|] == kinds;
    assert BatchFits(f, ToSet(kinds));
    db.calls := db.calls[c := pending];
  }

  /** A whole run alone: nothing when documents exist or there is no extraction,
      otherwise exactly the documents for the latest extraction and risk. */
  method GenerateDocuments(db: Store, c: CallId, run: WorkerId) returns (persisted: seq<DocType>)
    requires c in db.calls ==> db.View().Has(c)
    modifies db`calls
    ensures c !in old(db.calls) || old(db.calls)[c].docs != map[] || old(db.calls)[c].extractions == [] ==>
              persisted == [] && db.calls == old(db.calls)
    ensures c in old(db.calls) && old(db.calls)[c].docs == map[] && old(db.calls)[c].extractions != [] ==>
              var f := old(db.calls)[c];
              var docs := DocsFor(f.extractions[|f.extractions| - 1], Latest(db.deals[f.row.deal].risks), true);
              && DueKinds(f.extractions[|f.extractions| - 1], Latest(db.deals[f.row.deal].risks), true, persisted)
              && ToSet(persisted) == docs && db.calls == old(db.calls)[c := WithDocs(f, run, docs)]
  {
    if c !in db.calls || db.calls[c].docs != map[] || db.calls[c].extractions == [] { return []; }
    var f := db.calls[c];
    var risk := Latest(db.deals[f.row.deal].risks);
    var docs := BuildDocuments(f.extractions[|f.extractions| - 1], risk, Some(f.row.contact), f.row.deal, c);
    OrderedDistinct(docs);
    persisted := CommitBatch(db, c, run, docs);
  }
}
