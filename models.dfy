/** The three Pydantic records of the co-scientist pipeline and the field checks that build them.
    Validation looks at field presence and type only: no field has a length constraint and
    unknown fields are ignored. */
module Models {
  import opened Wrappers
  import opened JsonValues

  /** The initial user request. */
  datatype ResearchQuery = ResearchQuery(topic: string, targetOutput: string, keywords: seq<string>)

  /** One sub-call of a multi-execute batch; `arguments` is a `Dict[str, Any]`. */
  datatype ToolExecutionRequest = ToolExecutionRequest(toolSlug: string, arguments: seq<(string, Json)>)

  /** The published deliverable. */
  datatype FinalSynthesis = FinalSynthesis(
    hypothesis: string,
    protocolSummary: string,
    analysisFindings: string,
    priorArtReferenceLinks: seq<string>,
    nextSteps: string)

  /** The annotations the schemas use: `str`, `List[str]` and `Dict[str, Any]`. */
  datatype FieldType = Text | TextList | TextMap

  datatype FieldError = Missing(field: string) | WrongType(field: string, expected: FieldType)

  /** Why building a record failed: the decoded payload is not a mapping (the `**` unpacking raises
      a TypeError), or Pydantic reported these field errors, in declaration order. */
  datatype SchemaError = NotAMapping | Invalid(errors: seq<FieldError>)

  predicate HasType(v: Json, t: FieldType) {
    match t
    case Text => v.JStr?
    case TextList => v.JArr? && forall i :: 0 <= i < |v.items| ==> v.items[i].JStr?
    case TextMap => v.JObj?
  }

  predicate FieldValid(j: Json, name: string, t: FieldType) {
    Field(j, name).Some? && HasType(Field(j, name).value, t)
  }

  /** The error Pydantic reports for one declared field, if any. */
  function Check(j: Json, name: string, t: FieldType): (errs: seq<FieldError>)
    ensures errs == [] <==> FieldValid(j, name, t)
    ensures Field(j, name).None? <==> errs == [Missing(name)]
  {
    match Field(j, name)
    case None => [Missing(name)]
    case Some(v) => if HasType(v, t) then [] else [WrongType(name, t)]
  }

  /** The field errors Pydantic reports for each record, in declaration order. */
  function ResearchQueryErrors(j: Json): seq<FieldError> {
    Check(j, "topic", Text) + Check(j, "target_output", Text) + Check(j, "keywords", TextList)
  }

  function ToolExecutionRequestErrors(j: Json): seq<FieldError> {
    Check(j, "tool_slug", Text) + Check(j, "arguments", TextMap)
  }

  function FinalSynthesisErrors(j: Json): seq<FieldError> {
    Check(j, "hypothesis", Text) + Check(j, "protocol_summary", Text) +
    Check(j, "analysis_findings", Text) + Check(j, "prior_art_reference_links", TextList) +
    Check(j, "next_steps", Text)
  }

  /** The strings of a JSON list already known to hold only strings. */
  function TextsOf(items: seq<Json>): (r: seq<string>)
    requires forall i :: 0 <= i < |items| ==> items[i].JStr?
    ensures |r| == |items| && forall i :: 0 <= i < |r| ==> items[i] == JStr(r[i])
  {
    seq(|items|, i requires 0 <= i < |items| => items[i].s)
  }

  /** `v` is the JSON list of exactly the strings `xs`. */
  predicate ListOf(v: Json, xs: seq<string>) {
    v.JArr? && |v.items| == |xs| && forall i :: 0 <= i < |xs| ==> v.items[i] == JStr(xs[i])
  }

  function ValidateResearchQuery(j: Json): (r: Result<ResearchQuery, SchemaError>)
    ensures r.Success? <==>
      j.JObj? && FieldValid(j, "topic", Text) && FieldValid(j, "target_output", Text) &&
      FieldValid(j, "keywords", TextList)
    ensures r.Success? ==>
      Field(j, "topic") == Some(JStr(r.value.topic)) &&
      Field(j, "target_output") == Some(JStr(r.value.targetOutput)) &&
      ListOf(Field(j, "keywords").value, r.value.keywords)
    ensures r.Failure? ==>
      r.error == if j.JObj? then Invalid(ResearchQueryErrors(j)) else NotAMapping
  {
    if !j.JObj? then Failure(NotAMapping)
    else
      var errors := ResearchQueryErrors(j);
      if errors != [] then Failure(Invalid(errors))
      else
        Success(ResearchQuery(
          Field(j, "topic").value.s,
          Field(j, "target_output").value.s,
          TextsOf(Field(j, "keywords").value.items)))
  }

  function ValidateToolExecutionRequest(j: Json): (r: Result<ToolExecutionRequest, SchemaError>)
    ensures r.Success? <==> j.JObj? && FieldValid(j, "tool_slug", Text) && FieldValid(j, "arguments", TextMap)
    ensures r.Success? ==>
      Field(j, "tool_slug") == Some(JStr(r.value.toolSlug)) &&
      Field(j, "arguments") == Some(JObj(r.value.arguments))
    ensures r.Failure? ==>
      r.error == if j.JObj? then Invalid(ToolExecutionRequestErrors(j)) else NotAMapping
  {
    if !j.JObj? then Failure(NotAMapping)
    else
      var errors := ToolExecutionRequestErrors(j);
      if errors != [] then Failure(Invalid(errors))
      else
        Success(ToolExecutionRequest(Field(j, "tool_slug").value.s, Field(j, "arguments").value.members))
  }

  function ValidateFinalSynthesis(j: Json): (r: Result<FinalSynthesis, SchemaError>)
    ensures r.Success? <==>
      j.JObj? && FieldValid(j, "hypothesis", Text) && FieldValid(j, "protocol_summary", Text) &&
      FieldValid(j, "analysis_findings", Text) && FieldValid(j, "prior_art_reference_links", TextList) &&
      FieldValid(j, "next_steps", Text)
    ensures r.Success? ==>
      Field(j, "hypothesis") == Some(JStr(r.value.hypothesis)) &&
      Field(j, "protocol_summary") == Some(JStr(r.value.protocolSummary)) &&
      Field(j, "analysis_findings") == Some(JStr(r.value.analysisFindings)) &&
      ListOf(Field(j, "prior_art_reference_links").value, r.value.priorArtReferenceLinks) &&
      Field(j, "next_steps") == Some(JStr(r.value.nextSteps))
    ensures r.Failure? ==>
      r.error == if j.JObj? then Invalid(FinalSynthesisErrors(j)) else NotAMapping
  {
    if !j.JObj? then Failure(NotAMapping)
    else
      var errors := FinalSynthesisErrors(j);
      if errors != [] then Failure(Invalid(errors))
      else
        Success(FinalSynthesis(
          Field(j, "hypothesis").value.s,
          Field(j, "protocol_summary").value.s,
          Field(j, "analysis_findings").value.s,
          TextsOf(Field(j, "prior_art_reference_links").value.items),
          Field(j, "next_steps").value.s))
  }

  /** No field of ResearchQuery has a length constraint: an empty topic and an empty keyword list pass. */
  lemma ResearchQueryAcceptsEmptyValues(topic: string, targetOutput: string)
    ensures ValidateResearchQuery(JObj([("topic", JStr(topic)), ("target_output", JStr(targetOutput)),
                                        ("keywords", JArr([]))]))
            == Success(ResearchQuery(topic, targetOutput, []))
  {
    var ms := [("topic", JStr(topic)), ("target_output", JStr(targetOutput)), ("keywords", JArr([]))];
    LookupDistinct(ms, 0);
    LookupDistinct(ms, 1);
    LookupDistinct(ms, 2);
  }

  /** Unknown fields are ignored (Pydantic's default): adding one changes neither outcome nor record. */
  lemma ResearchQueryIgnoresUnknownFields(members: seq<(string, Json)>, name: string, v: Json)
    requires name != "topic" && name != "target_output" && name != "keywords"
    ensures ValidateResearchQuery(JObj(members + [(name, v)])) == ValidateResearchQuery(JObj(members))
  {
    LookupAppendOther(members, name, v, "topic");
    LookupAppendOther(members, name, v, "target_output");
    LookupAppendOther(members, name, v, "keywords");
  }

  /** Neither field of ToolExecutionRequest has a default: leaving one out is reported as missing. */
  lemma ToolExecutionRequestNeedsBothFields(j: Json, name: string)
    requires j.JObj? && (name == "tool_slug" || name == "arguments") && Field(j, name).None?
    ensures ValidateToolExecutionRequest(j) == Failure(Invalid(ToolExecutionRequestErrors(j)))
    ensures Missing(name) in ToolExecutionRequestErrors(j)
  {
  }

  /** A FinalSynthesis payload missing any one of its five fields is rejected, naming that field. */
  lemma FinalSynthesisNeedsEveryField(j: Json, name: string)
    requires j.JObj? && Field(j, name).None?
    requires name in ["hypothesis", "protocol_summary", "analysis_findings", "prior_art_reference_links", "next_steps"]
    ensures ValidateFinalSynthesis(j) == Failure(Invalid(FinalSynthesisErrors(j)))
    ensures Missing(name) in FinalSynthesisErrors(j)
  {
  }

  /** The object a FinalSynthesis is decoded from: its five fields, in declaration order. */
  function SynthesisObject(
    hypothesis: string, protocolSummary: string, analysisFindings: string, links: seq<Json>, nextSteps: string): (j: Json)
    ensures Field(j, "hypothesis") == Some(JStr(hypothesis))
    ensures Field(j, "protocol_summary") == Some(JStr(protocolSummary))
    ensures Field(j, "analysis_findings") == Some(JStr(analysisFindings))
    ensures Field(j, "prior_art_reference_links") == Some(JArr(links))
    ensures Field(j, "next_steps") == Some(JStr(nextSteps))
  {
    var ms := [
      ("hypothesis", JStr(hypothesis)), ("protocol_summary", JStr(protocolSummary)),
      ("analysis_findings", JStr(analysisFindings)), ("prior_art_reference_links", JArr(links)),
      ("next_steps", JStr(nextSteps))];
    LookupDistinct(ms, 0);
    LookupDistinct(ms, 1);
    LookupDistinct(ms, 2);
    LookupDistinct(ms, 3);
    LookupDistinct(ms, 4);
    JObj(ms)
  }

  /** An empty reference-link list is a valid FinalSynthesis field. */
  lemma FinalSynthesisAcceptsNoLinks(
    hypothesis: string, protocolSummary: string, analysisFindings: string, nextSteps: string)
    ensures ValidateFinalSynthesis(SynthesisObject(hypothesis, protocolSummary, analysisFindings, [], nextSteps))
            == Success(FinalSynthesis(hypothesis, protocolSummary, analysisFindings, [], nextSteps))
  {
    var j := SynthesisObject(hypothesis, protocolSummary, analysisFindings, [], nextSteps);
    assert FinalSynthesisErrors(j) == [];
    assert TextsOf([]) == [];
  }
}
