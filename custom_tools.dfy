/** The four tool wrappers the agents call: text in, text out. Each runs a try block that decodes its
    input, checks it, calls the tool router and renders the reply; its `except` clauses turn a
    JSONDecodeError into a fixed message and any other exception into a fixed prefix followed by
    `str(e)`. No wrapper raises: every path ends in a string. */
module CustomTools {
  import opened Wrappers
  import opened JsonValues
  import opened Models
  import opened Py
  import opened Text
  import opened ComposioClient

  // ---------------------------------------------------------------------------------------------
  // The shared try/except shape

  /** The wrapper's answer for the outcome of its try block. */
  function Report(rt: Runtime, outcome: Result<string, Exc>, jsonMessage: string, criticalPrefix: string): (r: string)
    ensures outcome.Success? ==> r == outcome.value
    ensures outcome.Failure? && outcome.error == DecodeError ==> r == jsonMessage
    ensures outcome.Failure? && outcome.error != DecodeError ==>
      r == criticalPrefix + rt.explain(outcome.error) && StartsWith(r, criticalPrefix)
  {
    match outcome
    case Success(text) => text
    case Failure(DecodeError) => jsonMessage
    case Failure(e) =>
      StartsWithConcat(criticalPrefix, rt.explain(e));
      criticalPrefix + rt.explain(e)
  }

  /** Building a Pydantic record: its failure is an exception of the try block. */
  function AsRecord<T>(model: string, validated: Result<T, SchemaError>): (r: Result<T, Exc>)
    ensures r.Success? <==> validated.Success?
    ensures r.Success? ==> r.value == validated.value
    ensures r.Failure? ==> r.error == Validation(model, validated.error)
  {
    match validated
    case Success(record) => Success(record)
    case Failure(e) => Failure(Validation(model, e))
  }

  // ---------------------------------------------------------------------------------------------
  // create_workflow_plan

  const PlanJsonError: string :=
    "CRITICAL TOOL ERROR: Input was not valid JSON. You must pass a JSON string conforming to ResearchQuery."
  const PlanCriticalPrefix: string := "CRITICAL TOOL ERROR: Failed to call Composio CREATE_PLAN. Error: "
  const PlanSuccessPrefix: string := "Plan successful. Session ID: "
  const PlanErrorPrefix: string := "Error generating plan: "

  /** The primary tools every plan is asked for: the arXiv search and the PubChem query. */
  const PrimaryTools: seq<string> := [ToolSlugs["ARXIV_SEARCH"], ToolSlugs["PUBCHEM_QUERY"]]

  /** The use case put to the planner; it contains the query topic. */
  function UseCase(topic: string): (useCase: string)
    ensures Mentions(useCase, topic)
  {
    MentionsMiddle("Generate a novel hypothesis and experimental protocol for the topic: ", topic, "");
    assert "Generate a novel hypothesis and experimental protocol for the topic: " + topic + "" ==
           "Generate a novel hypothesis and experimental protocol for the topic: " + topic;
    "Generate a novel hypothesis and experimental protocol for the topic: " + topic
  }

  /** The text for the planner's reply. */
  function PlanText(rt: Runtime, reply: Json): (r: Result<string, Exc>)
    ensures r.Success? ==> StartsWith(r.value, PlanSuccessPrefix) || StartsWith(r.value, PlanErrorPrefix)
  {
    var successful :- Get(reply, "successful");
    if Truthy(successful) then
      var sessionId :- Index(reply, "session_id");
      var steps :- Index(reply, "workflow_steps");
      var rest := Str(rt, sessionId) + ". Workflow steps: " + Str(rt, steps) + ".";
      StartsWithConcat(PlanSuccessPrefix, rest);
      assert PlanSuccessPrefix + rest == PlanSuccessPrefix + Str(rt, sessionId) + ". Workflow steps: " + Str(rt, steps) + ".";
      Success(PlanSuccessPrefix + Str(rt, sessionId) + ". Workflow steps: " + Str(rt, steps) + ".")
    else
      var reasoning := GetOr(reply, "reasoning", JStr("Unknown Error")).value;
      StartsWithConcat(PlanErrorPrefix, Str(rt, reasoning));
      Success(PlanErrorPrefix + Str(rt, reasoning))
  }

  /** The try block of create_workflow_plan. */
  function PlanAttempt(rt: Runtime, router: Router, queryJson: string): Result<string, Exc> {
    var decoded :- Loads(rt, queryJson);
    var query :- AsRecord("ResearchQuery", ValidateResearchQuery(decoded));
    var reply :- router.createPlan(UseCase(query.topic), PrimaryTools);
    PlanText(rt, reply)
  }

  /** create_workflow_plan: every path answers the JSON message, the critical prefix, a plan or a
      planner error. */
  function CreateWorkflowPlan(rt: Runtime, router: Router, queryJson: string): (r: string)
    ensures
      || r == PlanJsonError
      || StartsWith(r, PlanCriticalPrefix)
      || StartsWith(r, PlanSuccessPrefix)
      || StartsWith(r, PlanErrorPrefix)
  {
    Report(rt, PlanAttempt(rt, router, queryJson), PlanJsonError, PlanCriticalPrefix)
  }

  lemma PlanRejectsMalformedJson(rt: Runtime, router: Router, queryJson: string)
    requires rt.loads(queryJson).None?
    ensures CreateWorkflowPlan(rt, router, queryJson) == PlanJsonError
  {
  }

  lemma PlanRejectsInvalidQuery(rt: Runtime, router: Router, queryJson: string, decoded: Json)
    requires rt.loads(queryJson) == Some(decoded) && ValidateResearchQuery(decoded).Failure?
    ensures CreateWorkflowPlan(rt, router, queryJson)
         == PlanCriticalPrefix + rt.explain(Validation("ResearchQuery", ValidateResearchQuery(decoded).error))
    ensures StartsWith(CreateWorkflowPlan(rt, router, queryJson), PlanCriticalPrefix)
  {
  }

  /** The planner is asked one question only, about the primary tools and a use case built from the
      topic: two routers that answer it alike give the same text. */
  lemma PlanAsksAboutTopic(rt: Runtime, router1: Router, router2: Router, queryJson: string, decoded: Json)
    requires rt.loads(queryJson) == Some(decoded) && ValidateResearchQuery(decoded).Success?
    requires var useCase := UseCase(ValidateResearchQuery(decoded).value.topic);
      router1.createPlan(useCase, PrimaryTools) == router2.createPlan(useCase, PrimaryTools)
    ensures CreateWorkflowPlan(rt, router1, queryJson) == CreateWorkflowPlan(rt, router2, queryJson)
    ensures PrimaryTools == ["arxiv_search_tool_slug", "pubchem_query_tool_slug"]
    ensures Mentions(UseCase(ValidateResearchQuery(decoded).value.topic), ValidateResearchQuery(decoded).value.topic)
  {
  }

  /** A successful plan reply is reported with its session id and its steps. */
  lemma PlanReportsSession(rt: Runtime, router: Router, queryJson: string, decoded: Json, reply: Json)
    requires rt.loads(queryJson) == Some(decoded) && ValidateResearchQuery(decoded).Success?
    requires router.createPlan(UseCase(ValidateResearchQuery(decoded).value.topic), PrimaryTools) == Success(reply)
    requires reply.JObj? && Field(reply, "successful").Some? && Truthy(Field(reply, "successful").value)
    requires Field(reply, "session_id").Some? && Field(reply, "workflow_steps").Some?
    ensures CreateWorkflowPlan(rt, router, queryJson)
         == PlanSuccessPrefix + Str(rt, Field(reply, "session_id").value) + ". Workflow steps: "
            + Str(rt, Field(reply, "workflow_steps").value) + "."
  {
  }

  /** An unsuccessful plan reply is reported with its reasoning, or "Unknown Error" without one. */
  lemma PlanReportsPlannerError(rt: Runtime, router: Router, queryJson: string, decoded: Json, reply: Json)
    requires rt.loads(queryJson) == Some(decoded) && ValidateResearchQuery(decoded).Success?
    requires router.createPlan(UseCase(ValidateResearchQuery(decoded).value.topic), PrimaryTools) == Success(reply)
    requires reply.JObj? && !(Field(reply, "successful").Some? && Truthy(Field(reply, "successful").value))
    ensures CreateWorkflowPlan(rt, router, queryJson)
         == PlanErrorPrefix + (if Field(reply, "reasoning").Some? then Str(rt, Field(reply, "reasoning").value)
                               else "Unknown Error")
  {
  }

  /** A reply that is successful and carries a session id is reported starting with that id. */
  lemma PlanStartsWithSession(rt: Runtime, router: Router, queryJson: string, decoded: Json, reply: Json,
                              sessionId: string)
    requires rt.loads(queryJson) == Some(decoded) && ValidateResearchQuery(decoded).Success?
    requires router.createPlan(UseCase(ValidateResearchQuery(decoded).value.topic), PrimaryTools) == Success(reply)
    requires Field(reply, "successful") == Some(JBool(true)) && Field(reply, "session_id") == Some(JStr(sessionId))
    requires Field(reply, "workflow_steps").Some?
    ensures StartsWith(CreateWorkflowPlan(rt, router, queryJson), PlanSuccessPrefix + sessionId + ". Workflow steps: ")
  {
    PlanReportsSession(rt, router, queryJson, decoded, reply);
    var head := PlanSuccessPrefix + sessionId + ". Workflow steps: ";
    var tail := Str(rt, Field(reply, "workflow_steps").value) + ".";
    assert CreateWorkflowPlan(rt, router, queryJson) == head + tail;
    StartsWithConcat(head, tail);
  }

  /** The simulated planner answers the primary tools with a plan. */
  lemma SimulatedPlanSucceeds(rt: Runtime, useCase: string)
    ensures Simulated(rt).createPlan(useCase, PrimaryTools) == CreatePlan(rt, useCase, PrimaryTools)
    ensures CreatePlan(rt, useCase, PrimaryTools).Success?
  {
    assert |PrimaryTools| == 2;
  }

  /** With the simulated client a valid query always yields a plan whose session id is "sess-"
      followed by the hash of the use case. */
  lemma PlanWithSimulatedClient(rt: Runtime, queryJson: string, decoded: Json)
    requires rt.loads(queryJson) == Some(decoded) && ValidateResearchQuery(decoded).Success?
    ensures StartsWith(CreateWorkflowPlan(rt, Simulated(rt), queryJson),
                       PlanSuccessPrefix + ("sess-" + rt.hash(UseCase(ValidateResearchQuery(decoded).value.topic)))
                       + ". Workflow steps: ")
  {
    var useCase := UseCase(ValidateResearchQuery(decoded).value.topic);
    SimulatedPlanSucceeds(rt, useCase);
    var reply := CreatePlan(rt, useCase, PrimaryTools).value;
    PlanStartsWithSession(rt, Simulated(rt), queryJson, decoded, reply, "sess-" + rt.hash(useCase));
  }

  // ---------------------------------------------------------------------------------------------
  // execute_parallel_research

  const ResearchJsonError: string := "JSON Error: The 'requests_json' input was not valid JSON."
  const ResearchCriticalPrefix: string := "CRITICAL TOOL ERROR: Failed to call Composio MULTI_EXECUTE. Error: "
  const ResearchSuccessPrefix: string :=
    "Parallel execution successful. Raw data saved to Workbench. Workbench Keys (JSON list): "
  const ResearchErrorPrefix: string := "Error during multi-execution: "

  /** `TOOL_SLUGS.get(slug)`: the mapped slug for a known name, None otherwise; a list or a dict is
      not hashable. */
  function SlugLookup(slug: Json): (r: Result<Json, Exc>)
    ensures r.Failure? <==> slug.JArr? || slug.JObj?
    ensures r.Success? ==> r.value == if slug.JStr? && slug.s in ToolSlugs then JStr(ToolSlugs[slug.s]) else JNull
  {
    if slug.JArr? || slug.JObj? then Failure(Unhashable)
    else if slug.JStr? && slug.s in ToolSlugs then Success(JStr(ToolSlugs[slug.s]))
    else Success(JNull)
  }

  /** The slug a request is sent with: a known tool name is replaced by its mapped slug, anything
      else passes through verbatim. */
  function Resolved(slug: Json): Json {
    if slug.JStr? && slug.s in ToolSlugs then JStr(ToolSlugs[slug.s]) else slug
  }

  /** `item.get('tool_slug')`, for an item that is a dict. */
  function RequestedSlug(item: Json): Json {
    if Field(item, "tool_slug").Some? then Field(item, "tool_slug").value else JNull
  }

  /** One request of the batch, built from one input item. */
  function ResolveRequest(item: Json): (r: Result<Json, Exc>)
    ensures r.Failure? <==> !item.JObj? || (Field(item, "tool_slug").Some? &&
                                           (Field(item, "tool_slug").value.JArr? || Field(item, "tool_slug").value.JObj?))
    ensures r.Success? ==>
      && Field(r.value, "tool_slug") == Some(Resolved(RequestedSlug(item)))
      && Field(r.value, "arguments") ==
           Some(if Field(item, "arguments").Some? then Field(item, "arguments").value else JObj([]))
  {
    var slug :- Get(item, "tool_slug");
    var mapped :- SlugLookup(slug);
    ToolSlugsShape();
    var toolSlug := if Truthy(mapped) then mapped else slug;
    var arguments := GetOr(item, "arguments", JObj([])).value;
    var members := [("tool_slug", toolSlug), ("arguments", arguments)];
    LookupDistinct(members, 0);
    LookupDistinct(members, 1);
    Success(JObj(members))
  }

  /** The loop that builds the batch, one request per item, in input order; an item that raises
      ends it. */
  method BuildRequests(items: seq<Json>) returns (r: Result<seq<Json>, Exc>)
    ensures r == ForEach(ResolveRequest, items)
  {
    var requests: seq<Json> := [];
    var i := 0;
    while i < |items|
      invariant 0 <= i <= |items|
      invariant |requests| == i
      invariant forall k :: 0 <= k < i ==> ResolveRequest(items[k]) == Success(requests[k])
    {
      var built := ResolveRequest(items[i]);
      if built.Failure? {
        ForEachFirstFailure(ResolveRequest, items, i);
        return Failure(built.error);
      }
      requests := requests + [built.value];
      i := i + 1;
    }
    assert ForEach(ResolveRequest, items).value == requests;
    return Success(requests);
  }

  /** The keys of the comprehension over the results: each truthy `workbench_key`, in result order. */
  function WorkbenchKeys(results: seq<Json>): (r: Result<seq<Json>, Exc>)
    ensures r.Success? <==> forall i :: 0 <= i < |results| ==> results[i].JObj?
    ensures r.Success? ==> forall k :: 0 <= k < |r.value| ==> Truthy(r.value[k])
    decreases |results|
  {
    if results == [] then Success([])
    else
      var init :- WorkbenchKeys(results[..|results| - 1]);
      var key :- Get(results[|results| - 1], "workbench_key");
      Success(if Truthy(key) then init + [key] else init)
  }

  /** The key list holds exactly the truthy `workbench_key` values of the results. */
  lemma {:induction false} WorkbenchKeysMembers(results: seq<Json>, x: Json)
    requires WorkbenchKeys(results).Success?
    ensures x in WorkbenchKeys(results).value <==>
      exists i :: 0 <= i < |results| && Field(results[i], "workbench_key") == Some(x) && Truthy(x)
    decreases |results|
  {
    if results != [] {
      var init := results[..|results| - 1];
      WorkbenchKeysMembers(init, x);
      assert forall i :: 0 <= i < |init| ==> init[i] == results[i];
    }
  }

  /** A single dict contributes its `workbench_key` when that key is truthy, and nothing otherwise. */
  lemma WorkbenchKeysSingle(result: Json)
    requires result.JObj?
    ensures var key := Get(result, "workbench_key").value;
      WorkbenchKeys([result]) == Success(if Truthy(key) then [key] else [])
  {
    var key := Get(result, "workbench_key").value;
    assert [result][..0] == [];
    assert WorkbenchKeys([]) == Success([]);
    assert [] + [key] == [key];
  }

  /** Each result contributes at most one key. */
  lemma {:induction false} WorkbenchKeysAtMostOnePerResult(results: seq<Json>)
    requires WorkbenchKeys(results).Success?
    ensures |WorkbenchKeys(results).value| <= |results|
    decreases |results|
  {
    if results != [] {
      WorkbenchKeysAtMostOnePerResult(results[..|results| - 1]);
    }
  }

  /** The key list keeps the order of the results: it distributes over concatenation. */
  lemma {:induction false} WorkbenchKeysConcat(front: seq<Json>, back: seq<Json>)
    requires forall i :: 0 <= i < |front| ==> front[i].JObj?
    requires forall i :: 0 <= i < |back| ==> back[i].JObj?
    ensures WorkbenchKeys(front + back).Success?
    ensures WorkbenchKeys(front + back).value == WorkbenchKeys(front).value + WorkbenchKeys(back).value
    decreases |back|
  {
    var all := front + back;
    assert forall i :: 0 <= i < |all| ==> all[i].JObj?;
    if back == [] {
      assert all == front;
    } else {
      var init := back[..|back| - 1];
      assert all[..|all| - 1] == front + init;
      assert all[|all| - 1] == back[|back| - 1];
      WorkbenchKeysConcat(front, init);
    }
  }

  /** The text for the multi-execution reply. */
  function ResearchText(rt: Runtime, reply: Json): (r: Result<string, Exc>)
    ensures r.Success? ==> StartsWith(r.value, ResearchSuccessPrefix) || StartsWith(r.value, ResearchErrorPrefix)
  {
    var successful :- Get(reply, "successful");
    if Truthy(successful) then
      var results :- Index(reply, "results");
      var items :- Iterate(results);
      var keys :- WorkbenchKeys(items);
      var rest := rt.dumps(JArr(keys)) + ". Summary: " + Str(rt, results);
      StartsWithConcat(ResearchSuccessPrefix, rest);
      assert ResearchSuccessPrefix + rest == ResearchSuccessPrefix + rt.dumps(JArr(keys)) + ". Summary: " + Str(rt, results);
      Success(ResearchSuccessPrefix + rt.dumps(JArr(keys)) + ". Summary: " + Str(rt, results))
    else
      var error := GetOr(reply, "error", JStr("Unknown Error")).value;
      StartsWithConcat(ResearchErrorPrefix, Str(rt, error));
      Success(ResearchErrorPrefix + Str(rt, error))
  }

  /** The try block of execute_parallel_research. */
  function ResearchAttempt(rt: Runtime, router: Router, sessionId: string, requestsJson: string): Result<string, Exc> {
    var decoded :- Loads(rt, requestsJson);
    var items :- Iterate(decoded);
    var requests :- ForEach(ResolveRequest, items);
    var reply :- router.multiExecute(requests, sessionId);
    ResearchText(rt, reply)
  }

  /** execute_parallel_research, as a value. */
  function ParallelResearch(rt: Runtime, router: Router, sessionId: string, requestsJson: string): (r: string)
    ensures
      || r == ResearchJsonError
      || StartsWith(r, ResearchCriticalPrefix)
      || StartsWith(r, ResearchSuccessPrefix)
      || StartsWith(r, ResearchErrorPrefix)
  {
    Report(rt, ResearchAttempt(rt, router, sessionId, requestsJson), ResearchJsonError, ResearchCriticalPrefix)
  }

  /** execute_parallel_research: decode, build the batch in a loop, call the router, render. */
  method ExecuteParallelResearch(rt: Runtime, router: Router, sessionId: string, requestsJson: string)
    returns (r: string)
    ensures r == ParallelResearch(rt, router, sessionId, requestsJson)
  {
    var decoded := Loads(rt, requestsJson);
    if decoded.Failure? {
      return Report(rt, Failure(decoded.error), ResearchJsonError, ResearchCriticalPrefix);
    }
    var items := Iterate(decoded.value);
    if items.Failure? {
      return Report(rt, Failure(items.error), ResearchJsonError, ResearchCriticalPrefix);
    }
    var requests := BuildRequests(items.value);
    if requests.Failure? {
      return Report(rt, Failure(requests.error), ResearchJsonError, ResearchCriticalPrefix);
    }
    var reply := router.multiExecute(requests.value, sessionId);
    if reply.Failure? {
      return Report(rt, Failure(reply.error), ResearchJsonError, ResearchCriticalPrefix);
    }
    r := Report(rt, ResearchText(rt, reply.value), ResearchJsonError, ResearchCriticalPrefix);
  }

  lemma ResearchRejectsMalformedJson(rt: Runtime, router: Router, sessionId: string, requestsJson: string)
    requires rt.loads(requestsJson).None?
    ensures ParallelResearch(rt, router, sessionId, requestsJson) == ResearchJsonError
  {
  }

  /** The router receives one request per item, in input order, with the session id it was given. */
  lemma ResearchSendsOneRequestPerItem(
    rt: Runtime, router: Router, sessionId: string, requestsJson: string, items: seq<Json>, reply: Json)
    requires rt.loads(requestsJson) == Some(JArr(items)) && ForEach(ResolveRequest, items).Success?
    requires router.multiExecute(ForEach(ResolveRequest, items).value, sessionId) == Success(reply)
    ensures ParallelResearch(rt, router, sessionId, requestsJson) == Report(rt, ResearchText(rt, reply), ResearchJsonError, ResearchCriticalPrefix)
    ensures |ForEach(ResolveRequest, items).value| == |items|
    ensures forall i :: 0 <= i < |items| ==>
      Field(ForEach(ResolveRequest, items).value[i], "tool_slug") == Some(Resolved(RequestedSlug(items[i])))
  {
  }

  /** On batch success the key list is embedded, as JSON, right after its label. */
  lemma ResearchReportsKeys(
    rt: Runtime, router: Router, sessionId: string, requestsJson: string, requests: seq<Json>, reply: Json, results: seq<Json>)
    requires rt.loads(requestsJson) == Some(JArr(requests)) && ForEach(ResolveRequest, requests).Success?
    requires router.multiExecute(ForEach(ResolveRequest, requests).value, sessionId) == Success(reply)
    requires Field(reply, "successful").Some? && Truthy(Field(reply, "successful").value)
    requires Field(reply, "results") == Some(JArr(results))
    requires forall i :: 0 <= i < |results| ==> results[i].JObj?
    ensures ParallelResearch(rt, router, sessionId, requestsJson)
         == ResearchSuccessPrefix + rt.dumps(JArr(WorkbenchKeys(results).value)) + ". Summary: " + rt.repr(JArr(results))
  {
  }

  /** On batch failure the router's error is reported, or "Unknown Error" without one. */
  lemma ResearchReportsBatchFailure(
    rt: Runtime, router: Router, sessionId: string, requestsJson: string, requests: seq<Json>, reply: Json)
    requires rt.loads(requestsJson) == Some(JArr(requests)) && ForEach(ResolveRequest, requests).Success?
    requires router.multiExecute(ForEach(ResolveRequest, requests).value, sessionId) == Success(reply)
    requires reply.JObj? && !(Field(reply, "successful").Some? && Truthy(Field(reply, "successful").value))
    ensures ParallelResearch(rt, router, sessionId, requestsJson)
         == ResearchErrorPrefix + (if Field(reply, "error").Some? then Str(rt, Field(reply, "error").value)
                                   else "Unknown Error")
  {
  }

  /** Two results whose keys are truthy contribute those keys, in order. */
  lemma WorkbenchKeysPair(first: Json, second: Json, firstKey: Json, secondKey: Json)
    requires first.JObj? && Field(first, "workbench_key") == Some(firstKey) && Truthy(firstKey)
    requires second.JObj? && Field(second, "workbench_key") == Some(secondKey) && Truthy(secondKey)
    ensures WorkbenchKeys([first, second]) == Success([firstKey, secondKey])
  {
    assert [first, second][..1] == [first];
    assert [first][..0] == [];
    assert WorkbenchKeys([]) == Success([]);
    assert [] + [firstKey] == [firstKey];
    assert [firstKey] + [secondKey] == [firstKey, secondKey];
    assert Get(first, "workbench_key") == Success(firstKey);
    assert Get(second, "workbench_key") == Success(secondKey);
    assert WorkbenchKeys([first]) == Success([firstKey]);
  }

  /** The simulated results name the arXiv key, then the PubChem key. */
  lemma SimulatedWorkbenchKeys()
    ensures forall i :: 0 <= i < |SimulatedResults| ==> SimulatedResults[i].JObj?
    ensures WorkbenchKeys(SimulatedResults) == Success([JStr(ArxivDataKey), JStr(PubchemDataKey)])
  {
    SimulatedResultsKeys();
    assert SimulatedResults == [SimulatedResults[0], SimulatedResults[1]];
    WorkbenchKeysPair(SimulatedResults[0], SimulatedResults[1], JStr(ArxivDataKey), JStr(PubchemDataKey));
  }

  /** With the simulated client the key list is always the arXiv key then the PubChem key, whatever
      the requests were. */
  lemma ResearchWithSimulatedClient(rt: Runtime, sessionId: string, requestsJson: string, items: seq<Json>)
    requires rt.loads(requestsJson) == Some(JArr(items)) && ForEach(ResolveRequest, items).Success?
    ensures ParallelResearch(rt, Simulated(rt), sessionId, requestsJson)
         == ResearchSuccessPrefix + rt.dumps(JArr([JStr(ArxivDataKey), JStr(PubchemDataKey)])) + ". Summary: "
            + rt.repr(JArr(SimulatedResults))
  {
    var requests := ForEach(ResolveRequest, items).value;
    var reply := MultiExecuteTool(requests, sessionId);
    assert Simulated(rt).multiExecute(requests, sessionId) == Success(reply);
    SimulatedWorkbenchKeys();
    ResearchReportsKeys(rt, Simulated(rt), sessionId, requestsJson, items, reply, SimulatedResults);
  }

  // ---------------------------------------------------------------------------------------------
  // run_data_analysis

  const AnalysisJsonError: string := "JSON Error: The 'workbench_keys_json' input was not valid JSON."
  const AnalysisCriticalPrefix: string := "CRITICAL TOOL ERROR: Failed to run data analysis. Error: "
  const AnalysisSuccessPrefix: string := "Analysis complete. Raw analysis output (stdout JSON): "
  const AnalysisErrorPrefix: string := "Error during Remote Bash execution: "

  /** One retrieve call of the analysis loop. Its reply is dropped, successful or not; only an
      exception raised by the call ends the loop. */
  function Retrieve(router: Router): Json -> Result<Json, Exc> {
    key => router.workbench("retrieve", key, JNull)
  }

  /** The script handed to remote bash names the decoded keys. */
  function AnalysisScript(rt: Runtime, keys: Json): string {
    "analyze_data_from_workbench(keys=" + Str(rt, keys) + ")"
  }

  /** The text for the remote bash reply: stdout unchanged on success, stderr otherwise. */
  function AnalysisText(rt: Runtime, reply: Json): (r: Result<string, Exc>)
    ensures r.Success? ==> StartsWith(r.value, AnalysisSuccessPrefix) || StartsWith(r.value, AnalysisErrorPrefix)
  {
    var successful :- Get(reply, "successful");
    if Truthy(successful) then
      var stdout :- Index(reply, "stdout");
      StartsWithConcat(AnalysisSuccessPrefix, Str(rt, stdout));
      Success(AnalysisSuccessPrefix + Str(rt, stdout))
    else
      var stderr := GetOr(reply, "stderr", JStr("Unknown Error")).value;
      StartsWithConcat(AnalysisErrorPrefix, Str(rt, stderr));
      Success(AnalysisErrorPrefix + Str(rt, stderr))
  }

  /** The try block of run_data_analysis. */
  function AnalysisAttempt(rt: Runtime, router: Router, keysJson: string): Result<string, Exc> {
    var decoded :- Loads(rt, keysJson);
    var keys :- Iterate(decoded);
    var replies :- ForEach(Retrieve(router), keys);
    var reply :- router.remoteBash(AnalysisScript(rt, decoded));
    AnalysisText(rt, reply)
  }

  /** run_data_analysis, as a value. */
  function DataAnalysis(rt: Runtime, router: Router, keysJson: string): (r: string)
    ensures
      || r == AnalysisJsonError
      || StartsWith(r, AnalysisCriticalPrefix)
      || StartsWith(r, AnalysisSuccessPrefix)
      || StartsWith(r, AnalysisErrorPrefix)
  {
    Report(rt, AnalysisAttempt(rt, router, keysJson), AnalysisJsonError, AnalysisCriticalPrefix)
  }

  /** The keys a loop over the decoded input visits, when the input decodes to something iterable. */
  predicate IterableInput(rt: Runtime, keysJson: string) {
    rt.loads(keysJson).Some? && Iterate(rt.loads(keysJson).value).Success?
  }

  /** run_data_analysis. `retrieved` lists the keys handed to the workbench's retrieve, in call order:
      every key of the input, once each and in order, unless a retrieve raised, which ends the loop
      right after that key. */
  method RunDataAnalysis(rt: Runtime, router: Router, keysJson: string) returns (r: string, retrieved: seq<Json>)
    ensures r == DataAnalysis(rt, router, keysJson)
    ensures !IterableInput(rt, keysJson) ==> retrieved == []
    ensures IterableInput(rt, keysJson) ==>
      var keys := Iterate(rt.loads(keysJson).value).value;
      && retrieved <= keys
      && (forall i :: 0 <= i < |retrieved| - 1 ==> router.workbench("retrieve", retrieved[i], JNull).Success?)
      && (|retrieved| == |keys| ||
          (retrieved != [] && router.workbench("retrieve", retrieved[|retrieved| - 1], JNull).Failure?))
  {
    retrieved := [];
    var decoded := Loads(rt, keysJson);
    if decoded.Failure? {
      return Report(rt, Failure(decoded.error), AnalysisJsonError, AnalysisCriticalPrefix), retrieved;
    }
    var iterated := Iterate(decoded.value);
    if iterated.Failure? {
      return Report(rt, Failure(iterated.error), AnalysisJsonError, AnalysisCriticalPrefix), retrieved;
    }
    var keys := iterated.value;
    var i := 0;
    while i < |keys|
      invariant 0 <= i <= |keys|
      invariant retrieved == keys[..i]
      invariant forall k :: 0 <= k < i ==> Retrieve(router)(keys[k]).Success?
    {
      retrieved := retrieved + [keys[i]];
      var reply := router.workbench("retrieve", keys[i], JNull);
      if reply.Failure? {
        ForEachFirstFailure(Retrieve(router), keys, i);
        return Report(rt, Failure(reply.error), AnalysisJsonError, AnalysisCriticalPrefix), retrieved;
      }
      i := i + 1;
    }
    assert keys[..i] == keys;
    var reply := router.remoteBash(AnalysisScript(rt, decoded.value));
    if reply.Failure? {
      return Report(rt, Failure(reply.error), AnalysisJsonError, AnalysisCriticalPrefix), retrieved;
    }
    r := Report(rt, AnalysisText(rt, reply.value), AnalysisJsonError, AnalysisCriticalPrefix);
  }

  /** A retrieve that raises ends the wrapper: a JSONDecodeError is answered with the JSON message,
      like malformed input, and any other exception with the critical message. */
  lemma AnalysisRetrieveRaises(rt: Runtime, router: Router, keysJson: string, k: nat)
    requires IterableInput(rt, keysJson)
    requires var keys := Iterate(rt.loads(keysJson).value).value;
      k < |keys| && Retrieve(router)(keys[k]).Failure? &&
      forall m :: 0 <= m < k ==> Retrieve(router)(keys[m]).Success?
    ensures var e := Retrieve(router)(Iterate(rt.loads(keysJson).value).value[k]).error;
      DataAnalysis(rt, router, keysJson) == if e == DecodeError then AnalysisJsonError else AnalysisCriticalPrefix + rt.explain(e)
  {
    ForEachFirstFailure(Retrieve(router), Iterate(rt.loads(keysJson).value).value, k);
  }

  lemma AnalysisRejectsMalformedJson(rt: Runtime, router: Router, keysJson: string)
    requires rt.loads(keysJson).None?
    ensures DataAnalysis(rt, router, keysJson) == AnalysisJsonError
  {
  }

  /** What the retrievals answer does not matter, only whether one of them raises: two workbenches
      that both answer every retrieve give the same text. */
  lemma AnalysisIgnoresRetrievalReplies(
    rt: Runtime, router: Router, workbench: (string, Json, Json) -> Result<Json, Exc>, keysJson: string)
    requires forall key :: router.workbench("retrieve", key, JNull).Success?
    requires forall key :: workbench("retrieve", key, JNull).Success?
    ensures DataAnalysis(rt, router, keysJson) == DataAnalysis(rt, router.(workbench := workbench), keysJson)
  {
  }

  /** A successful run reports stdout unchanged; a failed one reports stderr. */
  lemma AnalysisReportsOutput(rt: Runtime, router: Router, keysJson: string, reply: Json)
    requires IterableInput(rt, keysJson)
    requires ForEach(Retrieve(router), Iterate(rt.loads(keysJson).value).value).Success?
    requires router.remoteBash(AnalysisScript(rt, rt.loads(keysJson).value)) == Success(reply)
    requires reply.JObj?
    ensures Field(reply, "successful").Some? && Truthy(Field(reply, "successful").value) && Field(reply, "stdout").Some? ==>
      DataAnalysis(rt, router, keysJson) == AnalysisSuccessPrefix + Str(rt, Field(reply, "stdout").value)
    ensures !(Field(reply, "successful").Some? && Truthy(Field(reply, "successful").value)) ==>
      DataAnalysis(rt, router, keysJson)
      == AnalysisErrorPrefix + (if Field(reply, "stderr").Some? then Str(rt, Field(reply, "stderr").value) else "Unknown Error")
  {
  }

  /** With the simulated client any iterable input yields the analysis output encoded as JSON. */
  lemma AnalysisWithSimulatedClient(rt: Runtime, keysJson: string)
    requires IterableInput(rt, keysJson)
    ensures DataAnalysis(rt, Simulated(rt), keysJson) == AnalysisSuccessPrefix + rt.dumps(AnalysisOutput)
  {
  }

  // ---------------------------------------------------------------------------------------------
  // publish_final_report

  const PublishJsonError: string :=
    "JSON Error: The 'final_synthesis_json' input was not valid JSON. Ensure all fields in FinalSynthesis are present."
  const PublishCriticalPrefix: string := "CRITICAL TOOL ERROR: Failed to publish report. Error: "
  const PublishSuccessPrefix: string := "Final Synthesis published successfully. Report URL: "
  const ReportUrlBase: string := "https://notion.com/reports/"

  /** The try block of publish_final_report. */
  function PublishAttempt(rt: Runtime, synthesisJson: string): (r: Result<string, Exc>)
    ensures r.Success? ==> StartsWith(r.value, PublishSuccessPrefix + ReportUrlBase)
  {
    var decoded :- Loads(rt, synthesisJson);
    var synthesis :- AsRecord("FinalSynthesis", ValidateFinalSynthesis(decoded));
    var rest := rt.hash(synthesis.hypothesis) + ".";
    StartsWithConcat(PublishSuccessPrefix + ReportUrlBase, rest);
    assert PublishSuccessPrefix + ReportUrlBase + rest == PublishSuccessPrefix + ReportUrlBase + rt.hash(synthesis.hypothesis) + ".";
    Success(PublishSuccessPrefix + ReportUrlBase + rt.hash(synthesis.hypothesis) + ".")
  }

  /** publish_final_report: every path answers the JSON message, the critical prefix or a report URL. */
  function PublishFinalReport(rt: Runtime, synthesisJson: string): (r: string)
    ensures r == PublishJsonError || StartsWith(r, PublishCriticalPrefix) || StartsWith(r, PublishSuccessPrefix + ReportUrlBase)
  {
    Report(rt, PublishAttempt(rt, synthesisJson), PublishJsonError, PublishCriticalPrefix)
  }

  /** A valid synthesis is published under a URL derived from the hash of its hypothesis. */
  lemma PublishReportsUrl(rt: Runtime, synthesisJson: string, decoded: Json)
    requires rt.loads(synthesisJson) == Some(decoded) && ValidateFinalSynthesis(decoded).Success?
    ensures PublishFinalReport(rt, synthesisJson)
         == PublishSuccessPrefix + ReportUrlBase + rt.hash(Field(decoded, "hypothesis").value.s) + "."
  {
  }

  lemma PublishRejectsMalformedJson(rt: Runtime, synthesisJson: string)
    requires rt.loads(synthesisJson).None?
    ensures PublishFinalReport(rt, synthesisJson) == PublishJsonError
  {
  }

  /** A decoded payload that FinalSynthesis rejects (a missing or mistyped field, a link that is not
      a string, or a value that is not an object at all) is not published: the answer is the
      critical message with the validation error. */
  lemma PublishRejectsInvalidSynthesis(rt: Runtime, synthesisJson: string, decoded: Json)
    requires rt.loads(synthesisJson) == Some(decoded) && ValidateFinalSynthesis(decoded).Failure?
    ensures PublishFinalReport(rt, synthesisJson)
         == PublishCriticalPrefix + rt.explain(Validation("FinalSynthesis", ValidateFinalSynthesis(decoded).error))
    ensures StartsWith(PublishFinalReport(rt, synthesisJson), "CRITICAL TOOL ERROR: Failed to publish report.")
  {
    var r := PublishFinalReport(rt, synthesisJson);
    assert StartsWith(r, PublishCriticalPrefix);
    assert r[..|"CRITICAL TOOL ERROR: Failed to publish report."|] == PublishCriticalPrefix[..|"CRITICAL TOOL ERROR: Failed to publish report."|];
  }

  /** A payload missing one of the five fields is not published. */
  lemma PublishRejectsMissingField(rt: Runtime, synthesisJson: string, decoded: Json, name: string)
    requires rt.loads(synthesisJson) == Some(decoded) && decoded.JObj? && Field(decoded, name).None?
    requires name in ["hypothesis", "protocol_summary", "analysis_findings", "prior_art_reference_links", "next_steps"]
    ensures PublishFinalReport(rt, synthesisJson)
         == PublishCriticalPrefix + rt.explain(Validation("FinalSynthesis", Invalid(FinalSynthesisErrors(decoded))))
    ensures StartsWith(PublishFinalReport(rt, synthesisJson), "CRITICAL TOOL ERROR: Failed to publish report.")
  {
    FinalSynthesisNeedsEveryField(decoded, name);
    PublishRejectsInvalidSynthesis(rt, synthesisJson, decoded);
  }

  // ---------------------------------------------------------------------------------------------
  // The hand-off between stages

  /** The key list the simulated multi-execution reports, read back by the analysis stage, names
      only keys the simulated workbench serves: every retrieve of the analysis loop succeeds. */
  lemma KeysHandOff(rt: Runtime, keys: Json)
    requires keys == JArr([JStr(ArxivDataKey), JStr(PubchemDataKey)])
    requires rt.loads(rt.dumps(keys)) == Some(keys)
    ensures keys == JArr(WorkbenchKeys(SimulatedResults).value)
    ensures IterableInput(rt, rt.dumps(keys))
    ensures forall i :: 0 <= i < |keys.items| ==>
      Field(RemoteWorkbench(rt, "retrieve", Iterate(keys).value[i], JNull), "successful") == Some(JBool(true))
    ensures DataAnalysis(rt, Simulated(rt), rt.dumps(keys)) == AnalysisSuccessPrefix + rt.dumps(AnalysisOutput)
  {
    SimulatedWorkbenchKeys();
  }
}
