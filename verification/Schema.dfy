/** The extraction schema: what a model answer must look like to be accepted. */
module Schema {
  import opened Scoring
  import opened Stages

  predicate TextAt(j: Json, key: string) {
    j.Obj? && key in j.fields && j.fields[key].Str?
  }

  predicate NumberAt(j: Json, key: string) {
    j.Obj? && key in j.fields && j.fields[key].Num?
  }

  predicate Texts(j: Json) {
    j.Arr? && forall i :: 0 <= i < |j.items| ==> j.items[i].Str?
  }

  predicate TextsAt(j: Json, key: string) {
    j.Obj? && key in j.fields && Texts(j.fields[key])
  }

  predicate StakeholderOk(j: Json) {
    TextAt(j, "name") && TextAt(j, "title") && TextAt(j, "role_label") && NumberAt(j, "role_confidence")
  }

  predicate QualificationOk(j: Json) {
    && TextAt(j, "budget_signal") && TextAt(j, "authority_signal")
    && TextAt(j, "need_signal") && TextAt(j, "timeline_signal")
  }

  /** Absent entries have been filled with their defaults. */
  predicate SignalsOk(j: Json) {
    && TextsAt(j, "pain_points") && TextsAt(j, "objections") && TextsAt(j, "competitors")
    && TextsAt(j, "security_mentions") && TextsAt(j, "procurement_mentions")
    && TextAt(j, "next_step") && TextAt(j, "timeline_detail") && TextAt(j, "budget_detail")
  }

  predicate InteractionOk(j: Json) {
    && TextAt(j, "sentiment") && TextAt(j, "engagement_level")
    && j.Obj? && "followup_requested" in j.fields && j.fields["followup_requested"].Bool?
  }

  /** The dumped object of a validated extraction, its evidence list aside. */
  predicate Conforms(j: Json) {
    && j.Obj? && {"stakeholder", "qualification", "deal_signals", "interaction"} <= j.fields.Keys
    && StakeholderOk(j.fields["stakeholder"]) && QualificationOk(j.fields["qualification"])
    && SignalsOk(j.fields["deal_signals"]) && InteractionOk(j.fields["interaction"])
    && TextAt(j, "summary") && NumberAt(j, "confidence")
  }

  /** The risk run can read every accepted extraction. */
  lemma ConformingIsReadable(j: Json)
    requires Conforms(j)
    ensures RiskReadable(j)
  {
    assert j.fields["stakeholder"].Obj? && j.fields["interaction"].Obj?;
  }

  const SAMPLE_STAKEHOLDER := Obj(map[
    "name" := Str("Ann"), "title" := Str("CTO"), "role_label" := Str("champion"), "role_confidence" := Num(0.5)])
  const SAMPLE_QUALIFICATION := Obj(map[
    "budget_signal" := Str("unknown"), "authority_signal" := Str("positive"),
    "need_signal" := Str("positive"), "timeline_signal" := Str("unknown")])
  const SAMPLE_SIGNALS := Obj(map[
    "pain_points" := Arr([]), "objections" := Arr([Str("price")]), "competitors" := Arr([]),
    "security_mentions" := Arr([]), "procurement_mentions" := Arr([]),
    "next_step" := Str("demo"), "timeline_detail" := Str(""), "budget_detail" := Str("")])
  const SAMPLE_INTERACTION := Obj(map[
    "sentiment" := Str("neutral"), "engagement_level" := Str("high"), "followup_requested" := Bool(true)])
  const SAMPLE := Obj(map[
    "stakeholder" := SAMPLE_STAKEHOLDER, "qualification" := SAMPLE_QUALIFICATION,
    "deal_signals" := SAMPLE_SIGNALS, "interaction" := SAMPLE_INTERACTION,
    "summary" := Str("summary"), "confidence" := Num(0.9)])

  lemma SampleStakeholder()
    ensures StakeholderOk(SAMPLE_STAKEHOLDER)
  {}

  lemma SampleQualification()
    ensures QualificationOk(SAMPLE_QUALIFICATION)
  {}

  lemma SampleSignals()
    ensures SignalsOk(SAMPLE_SIGNALS)
  {}

  lemma SampleInteraction()
    ensures InteractionOk(SAMPLE_INTERACTION)
  {}

  lemma SampleConforms()
    ensures Conforms(SAMPLE)
  {
    SampleStakeholder();
    SampleQualification();
    SampleSignals();
    SampleInteraction();
    assert SAMPLE.fields["stakeholder"] == SAMPLE_STAKEHOLDER;
    assert SAMPLE.fields["qualification"] == SAMPLE_QUALIFICATION;
    assert SAMPLE.fields["deal_signals"] == SAMPLE_SIGNALS;
    assert SAMPLE.fields["interaction"] == SAMPLE_INTERACTION;
  }
}
