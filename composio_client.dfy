/** The simulated Composio Tool Router client: the placeholder slug table and the four meta-tools
    (plan creation, multi-execution, the remote workbench and remote bash). Every operation returns
    a reply dict built from its arguments; none of them keeps state, so each is a function. The
    `Router` datatype is the interface the tool wrappers call, which lets a reply or a raised
    exception be anything, not only what the simulation answers. */
module ComposioClient {
  import opened Wrappers
  import opened JsonValues
  import opened Py
  import opened Text

  /** The placeholder tool slugs, by logical tool name. */
  const ToolSlugs: map<string, string> := map[
    "ARXIV_SEARCH" := "arxiv_search_tool_slug",
    "PUBCHEM_QUERY" := "pubchem_query_tool_slug",
    "NOTION_DRAFT" := "notion_create_page_slug",
    "REMOTE_BASH" := "COMPOSIO_REMOTE_BASH_TOOL",
    "MULTI_EXECUTE" := "COMPOSIO_MULTI_EXECUTE_TOOL",
    "CREATE_PLAN" := "COMPOSIO_CREATE_PLAN",
    "REMOTE_WORKBENCH" := "COMPOSIO_REMOTE_WORKBENCH"]

  /** The two workbench keys the simulated multi-execution hands out and the workbench serves. */
  const ArxivDataKey: string := "ARXIV-RAW-DATA-KEY-123"
  const PubchemDataKey: string := "PUBCHEM-RAW-DATA-KEY-456"

  predicate IsServedKey(key: Json) {
    key == JStr(ArxivDataKey) || key == JStr(PubchemDataKey)
  }

  /** The remote tool router as the wrappers see it: each call answers a reply dict or raises. */
  datatype Router = Router(
    createPlan: (string, seq<string>) -> Result<Json, Exc>,
    multiExecute: (seq<Json>, string) -> Result<Json, Exc>,
    workbench: (string, Json, Json) -> Result<Json, Exc>,
    remoteBash: string -> Result<Json, Exc>)

  /** The simulated client. */
  function Simulated(rt: Runtime): Router {
    Router(
      (useCase, slugs) => CreatePlan(rt, useCase, slugs),
      (requests, sessionId) => Success(MultiExecuteTool(requests, sessionId)),
      (action, key, data) => Success(RemoteWorkbench(rt, action, key, data)),
      script => Success(RemoteBashTool(rt, script)))
  }

  lemma ToolSlugsShape()
    ensures |ToolSlugs| == 7
    ensures forall name <- ToolSlugs :: ToolSlugs[name] != ""
  {
    assert ToolSlugs.Keys == {"ARXIV_SEARCH", "PUBCHEM_QUERY", "NOTION_DRAFT", "REMOTE_BASH",
                              "MULTI_EXECUTE", "CREATE_PLAN", "REMOTE_WORKBENCH"};
  }

  /** The first workflow step names the first two primary tools. */
  function LiteratureStep(first: string, second: string): (step: string)
    ensures Mentions(step, first) && Mentions(step, second)
  {
    var head := "1. Literature Review (Parallel search using ";
    var step := head + first + " and " + second + ")";
    assert step == head + first + (" and " + second + ")");
    MentionsMiddle(head, first, " and " + second + ")");
    MentionsMiddle(head + first + " and ", second, ")");
    step
  }

  /** COMPOSIO_CREATE_PLAN: always successful, five steps, and a session id derived from the use case. */
  function CreatePlan(rt: Runtime, useCase: string, primaryToolSlugs: seq<string>): (r: Result<Json, Exc>)
    ensures r.Failure? <==> |primaryToolSlugs| < 2
    ensures r.Failure? ==> r.error == IndexError
    ensures r.Success? ==>
      && Field(r.value, "successful") == Some(JBool(true))
      && Field(r.value, "session_id") == Some(JStr("sess-" + rt.hash(useCase)))
      && Field(r.value, "workflow_steps").Some?
      && var steps := Field(r.value, "workflow_steps").value;
         steps.JArr? && |steps.items| == 5 && steps.items[0].JStr? &&
         Mentions(steps.items[0].s, primaryToolSlugs[0]) && Mentions(steps.items[0].s, primaryToolSlugs[1])
  {
    if |primaryToolSlugs| < 2 then Failure(IndexError)
    else
      var members := [
        ("successful", JBool(true)),
        ("complexity_assessment",
         JStr("Hard (requires multi-agent collaboration and large file processing).")),
        ("workflow_steps", JArr([
          JStr(LiteratureStep(primaryToolSlugs[0], primaryToolSlugs[1])),
          JStr("2. Store raw results in Remote Workbench."),
          JStr("3. Execute Python Code (Remote Bash) for data cleaning and initial analysis."),
          JStr("4. Draft Final Hypothesis and Protocol."),
          JStr("5. Publish report to Notion/Docs.")])),
        ("session_id", JStr("sess-" + rt.hash(useCase))),
        ("reasoning",
         JStr("The complexity requires orchestration across research tools and a custom execution environment."))];
      LookupDistinct(members, 0);
      LookupDistinct(members, 2);
      LookupDistinct(members, 3);
      Success(JObj(members))
  }

  /** The two per-tool results the simulated multi-execution reports, whatever was asked. */
  const SimulatedResults: seq<Json> := [
    JObj([
      ("tool_slug", JStr("arxiv_search_tool_slug")),
      ("output_summary", JStr("Found 5 highly relevant papers. Raw text stored in workbench.")),
      ("workbench_key", JStr(ArxivDataKey)),
      ("status", JStr("completed"))]),
    JObj([
      ("tool_slug", JStr("pubchem_query_tool_slug")),
      ("output_summary", JStr("Retrieved 2 candidate chemical structures. Raw data stored in workbench.")),
      ("workbench_key", JStr(PubchemDataKey)),
      ("status", JStr("completed"))])]

  lemma SimulatedResultsKeys()
    ensures |SimulatedResults| == 2
    ensures Field(SimulatedResults[0], "workbench_key") == Some(JStr(ArxivDataKey))
    ensures Field(SimulatedResults[1], "workbench_key") == Some(JStr(PubchemDataKey))
    ensures Field(SimulatedResults[0], "tool_slug") == Some(JStr(ToolSlugs["ARXIV_SEARCH"]))
    ensures Field(SimulatedResults[1], "tool_slug") == Some(JStr(ToolSlugs["PUBCHEM_QUERY"]))
  {
    LookupDistinct(SimulatedResults[0].members, 0);
    LookupDistinct(SimulatedResults[0].members, 2);
    LookupDistinct(SimulatedResults[1].members, 0);
    LookupDistinct(SimulatedResults[1].members, 2);
  }

  /** COMPOSIO_MULTI_EXECUTE_TOOL: successful, echoes the session, and reports the two fixed results. */
  function MultiExecuteTool(executionRequests: seq<Json>, sessionId: string): (r: Json)
    ensures Field(r, "successful") == Some(JBool(true))
    ensures Field(r, "results") == Some(JArr(SimulatedResults))
    ensures Field(r, "session_id") == Some(JStr(sessionId))
  {
    var members := [("successful", JBool(true)), ("results", JArr(SimulatedResults)), ("session_id", JStr(sessionId))];
    LookupDistinct(members, 0);
    LookupDistinct(members, 1);
    LookupDistinct(members, 2);
    JObj(members)
  }

  /** What a successful retrieve answers for a served key. */
  function RetrievedData(key: string): (data: string)
    ensures Mentions(data, key)
  {
    MentionsMiddle("{... large, structured scientific data for ", key, " ...}");
    "{... large, structured scientific data for " + key + " ...}"
  }

  /** COMPOSIO_REMOTE_WORKBENCH: `store` echoes the key it is given (or one derived from the data) and
      records nothing; `retrieve` serves exactly the two fixed keys; anything else fails. */
  function RemoteWorkbench(rt: Runtime, action: string, key: Json, data: Json): (r: Json)
    ensures action == "store" ==>
      && Field(r, "successful") == Some(JBool(true))
      && Field(r, "workbench_key") ==
           Some(if Truthy(key) then key else JStr("workbench-data-" + rt.hash(Str(rt, data))))
    ensures action != "store" ==>
      Field(r, "successful") == Some(JBool(action == "retrieve" && IsServedKey(key)))
    ensures action == "retrieve" && IsServedKey(key) ==>
      Field(r, "data").Some? && Field(r, "data").value.JStr? && Mentions(Field(r, "data").value.s, key.s)
    ensures action != "store" && !(action == "retrieve" && IsServedKey(key)) ==>
      Field(r, "error") == Some(JStr("Invalid action or key."))
  {
    if action == "store" then
      var storedKey := if Truthy(key) then key else JStr("workbench-data-" + rt.hash(Str(rt, data)));
      var members := [("successful", JBool(true)), ("workbench_key", storedKey)];
      LookupDistinct(members, 0);
      LookupDistinct(members, 1);
      JObj(members)
    else if action == "retrieve" && IsServedKey(key) then
      var members := [("successful", JBool(true)), ("data", JStr(RetrievedData(key.s)))];
      LookupDistinct(members, 0);
      LookupDistinct(members, 1);
      JObj(members)
    else
      var members := [("successful", JBool(false)), ("error", JStr("Invalid action or key."))];
      LookupDistinct(members, 0);
      LookupDistinct(members, 1);
      JObj(members)
  }

  /** The analysis result the simulated remote bash prints as JSON. */
  const AnalysisOutput: Json := JObj([
    ("final_clean_compounds", JNum(3)),
    ("critical_risk_flag", JBool(false)),
    ("summary", JStr("Data cleaning complete. Identified 3 high-potential compounds that passed initial risk filtering."))])

  lemma AnalysisOutputFields()
    ensures Field(AnalysisOutput, "final_clean_compounds") == Some(JNum(3))
    ensures Field(AnalysisOutput, "critical_risk_flag") == Some(JBool(false))
  {
    LookupDistinct(AnalysisOutput.members, 0);
    LookupDistinct(AnalysisOutput.members, 1);
  }

  /** COMPOSIO_REMOTE_BASH_TOOL: ignores the script; successful, nothing on stderr, and the analysis
      output encoded as JSON on stdout. */
  function RemoteBashTool(rt: Runtime, script: string): (r: Json)
    ensures Field(r, "successful") == Some(JBool(true))
    ensures Field(r, "stdout") == Some(JStr(rt.dumps(AnalysisOutput)))
    ensures Field(r, "stderr") == Some(JStr(""))
  {
    var members := [
      ("successful", JBool(true)),
      ("stdout", JStr(rt.dumps(AnalysisOutput))),
      ("stderr", JStr("")),
      ("execution_time_ms", JNum(450))];
    LookupDistinct(members, 0);
    LookupDistinct(members, 1);
    LookupDistinct(members, 2);
    JObj(members)
  }

  /** The reply of the multi-execution does not depend on the requests: neither their number nor
      their content. */
  lemma MultiExecuteIgnoresRequests(requests1: seq<Json>, requests2: seq<Json>, sessionId: string)
    ensures MultiExecuteTool(requests1, sessionId) == MultiExecuteTool(requests2, sessionId)
  {
  }

  /** Nothing is recorded by `store`: retrieving the key it answers succeeds exactly when that key is
      one of the two served keys. */
  lemma StoreThenRetrieve(rt: Runtime, key: Json, data: Json)
    ensures
      var storedKey := Field(RemoteWorkbench(rt, "store", key, data), "workbench_key").value;
      Field(RemoteWorkbench(rt, "retrieve", storedKey, JNull), "successful") == Some(JBool(IsServedKey(storedKey)))
  {
  }
}
