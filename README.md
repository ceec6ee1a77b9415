# AI co-scientist orchestrator: tool wrappers and simulated tool router

This project models the tool layer of the AI co-scientist orchestrator, together with the simulated
Composio tool router behind it and proofs about both. The model is written in Dafny.

The agents call four text-in, text-out wrappers:

- `create_workflow_plan`
- `execute_parallel_research`
- `run_data_analysis`
- `publish_final_report`

Each wrapper decodes its JSON input and, where the source does, checks it against a Pydantic record.
The first three wrappers then call the router and render its reply as one string.
`publish_final_report` calls no router: it builds a report URL from the hash of the hypothesis.
In every wrapper, two `except` clauses turn failures into messages:

- a JSONDecodeError gives a fixed message;
- any other exception gives a fixed "CRITICAL TOOL ERROR" prefix followed by `str(e)`.

The simulated router has four calls: plan creation, multi-execution, the remote workbench and remote
bash. Each one answers a reply dict built from its arguments and keeps no state.

Files:

- `wrappers.dfy`: `Option` and a failure-compatible `Result`.
- `json_values.dfy`: decoded JSON values and the Python-dict reading of objects. The last binding of
  a name wins, and iteration visits each key once, at its first position.
- `text.dfy`: prefix and substring tests on the returned texts.
- `models.dfy`: the three Pydantic records (`ResearchQuery`, `ToolExecutionRequest`,
  `FinalSynthesis`) and their validators. Validation checks field presence and type only.
- `py_runtime.dfy`: the Python operations the wrappers apply to values, with their exceptions:
  - `json.loads`;
  - `str()`;
  - `d.get`;
  - `d[k]`;
  - iteration;
  - a `for` loop whose body may raise.

  The library internals are a `Runtime` parameter: decoding, encoding, `repr`, `hash` and `str(e)`.
- `composio_client.dfy`: `TOOL_SLUGS` and the four simulated router calls. `Router` is the interface
  the wrappers call, so a reply or a raised exception can be anything, not only what the simulation
  answers. `Simulated(rt)` is the demo client.
- `custom_tools.dfy`: the four wrappers.
  - Each has a try-block function (`…Attempt`) and the shared `except` handling (`Report`).
  - Each has a public function whose contract classifies every answer as one of the wrapper's
    conventional messages. This is how the model states that no wrapper raises.
  - The two wrappers that loop are also methods with `while` loops, each proved equal to its
    function:
    - `ExecuteParallelResearch` builds the request batch;
    - `RunDataAnalysis` issues one retrieve per key.

Three behaviours of the simulated router and the analysis loop shape what the later stages can see:

- **Store and retrieve.** The workbench records nothing. `store` echoes a key, and `retrieve`
  succeeds for exactly the two fixed keys (`ComposioClient.StoreThenRetrieve`).
- **Fixed results.** Multi-execution answers the same two results whatever the requests
  (`ComposioClient.MultiExecuteIgnoresRequests`).
- **Retrieve failures.** An unknown key is not an error: the reply says `successful = False` and the
  analysis loop ignores it (`CustomTools.AnalysisIgnoresRetrievalReplies`). A retrieve that raises is
  not caught inside the loop. It ends the wrapper with the critical message, or with the JSON
  message when it is a JSONDecodeError (`CustomTools.RunDataAnalysis`,
  `CustomTools.AnalysisRetrieveRaises`). The same holds for every router call: the `except` clauses
  cover the whole try block, so a JSONDecodeError raised by the router is answered as if the input
  were malformed (`CustomTools.Report`).

## Model

| member | source | states |
|---|---|---|
| Models.ValidateResearchQuery | src/models.py:5-9 | accepts exactly the objects whose `topic` and `target_output` are strings and whose `keywords` is a list of strings; the record holds those values; a rejection reports every field error in declaration order, or that the payload is not a mapping |
| Models.ValidateToolExecutionRequest | src/models.py:12-15 | accepts exactly objects with a string `tool_slug` and an object `arguments`; the record holds them; rejections as above |
| Models.ValidateFinalSynthesis | src/models.py:18-24 | accepts exactly objects with the five fields at their types; the record holds their values; rejections as above |
| Models.ResearchQueryAcceptsEmptyValues | src/models.py:7-9 | no length constraint: empty topic and empty keyword list validate to the record with those values |
| Models.ResearchQueryIgnoresUnknownFields | src/models.py:5-9 | adding a field that is not one of the three changes neither the verdict nor the record |
| Models.ToolExecutionRequestNeedsBothFields | src/models.py:14-15 | neither field has a default: leaving either out is a rejection that reports it missing |
| Models.FinalSynthesisNeedsEveryField | src/models.py:20-24 | leaving out any one of the five fields is a rejection that reports that field missing |
| Models.FinalSynthesisAcceptsNoLinks | src/models.py:23 | an empty `prior_art_reference_links` list is accepted |
| Py.ForEachFirstFailure | src/tools/custom_tools.py:84-85 | a loop whose body may raise ends with the exception of the first item whose body raises |
| ComposioClient.ToolSlugsShape | src/tools/composio_client.py:10-18 | the slug table has seven entries and every mapped slug is non-empty |
| ComposioClient.LiteratureStep | src/tools/composio_client.py:48 | the first workflow step names both primary tool slugs |
| ComposioClient.CreatePlan | src/tools/composio_client.py:37-56 | fails (IndexError) exactly when fewer than two slugs are given; otherwise successful, session id "sess-" + hash of the use case, five steps of which the first names the first two slugs |
| ComposioClient.MultiExecuteTool | src/tools/composio_client.py:58-83 | successful, echoes the session id, and reports the two fixed results |
| ComposioClient.SimulatedResultsKeys | src/tools/composio_client.py:66-83 | exactly two results: arXiv key and slug first, PubChem key and slug second |
| ComposioClient.MultiExecuteIgnoresRequests | src/tools/composio_client.py:58-83 | the reply is the same whatever the number and content of the requests |
| ComposioClient.RetrievedData | src/tools/composio_client.py:101 | the retrieved data mentions the key |
| ComposioClient.RemoteWorkbench | src/tools/composio_client.py:85-104 | `store` succeeds with the truthy key given or "workbench-data-" + hash of `str(data)`; `retrieve` succeeds exactly for the two fixed keys, with data mentioning the key; everything else fails with "Invalid action or key." |
| ComposioClient.StoreThenRetrieve | src/tools/composio_client.py:85-104 | retrieving the key a store answered succeeds only when that key is one of the two fixed keys |
| ComposioClient.AnalysisOutputFields | src/tools/composio_client.py:114-118 | the analysis output has `final_clean_compounds = 3` and `critical_risk_flag = false` |
| ComposioClient.RemoteBashTool | src/tools/composio_client.py:106-125 | whatever the script: successful, empty stderr, stdout the JSON encoding of the analysis output |
| CustomTools.Report | src/tools/custom_tools.py:29-33 | a completed try block answers its text; a JSON decode error the fixed message; any other exception the critical prefix followed by `str(e)` |
| CustomTools.AsRecord | src/tools/custom_tools.py:15 | building the record raises exactly when validation fails, with that validation error |
| CustomTools.UseCase | src/tools/custom_tools.py:17 | the use case put to the planner contains the query topic |
| CustomTools.PlanText | src/tools/custom_tools.py:23-28 | a rendered plan reply starts with the success prefix or the plan-error prefix |
| CustomTools.CreateWorkflowPlan | src/tools/custom_tools.py:8-33 | every path answers the JSON message, or a text starting with the critical, success or plan-error prefix |
| CustomTools.PlanRejectsMalformedJson | src/tools/custom_tools.py:29-30 | undecodable input answers exactly the JSON message |
| CustomTools.PlanRejectsInvalidQuery | src/tools/custom_tools.py:31-33 | a decoded query that fails ResearchQuery answers the critical prefix followed by the validation error |
| CustomTools.PlanAsksAboutTopic | src/tools/custom_tools.py:16-22 | the planner is asked only with the slugs [arxiv, pubchem] and a use case containing the topic: routers that agree on that call give the same text |
| CustomTools.PlanReportsSession | src/tools/custom_tools.py:23-26 | a successful plan reply is rendered as the success prefix, its session id, ". Workflow steps: ", its steps and "." |
| CustomTools.PlanReportsPlannerError | src/tools/custom_tools.py:27-28 | an unsuccessful plan reply is rendered as the plan-error prefix and its reasoning, or "Unknown Error" |
| CustomTools.PlanStartsWithSession | src/tools/custom_tools.py:25-26 | a successful reply's text starts with the success prefix, its session id and ". Workflow steps: " |
| CustomTools.SimulatedPlanSucceeds | src/tools/composio_client.py:44-56 | the simulated planner answers the two primary tools with a plan |
| CustomTools.PlanWithSimulatedClient | src/tools/custom_tools.py:19-26 | with the simulated client a valid query yields a plan text naming session "sess-" + hash of the use case |
| CustomTools.SlugLookup | src/tools/custom_tools.py:48 | `TOOL_SLUGS.get`: the mapped slug for a known name, None otherwise, and raises for a list or dict |
| CustomTools.ResolveRequest | src/tools/custom_tools.py:48-52 | a request raises exactly when the item is not a dict or its slug is unhashable; otherwise a known slug is replaced by its mapped value, any other passes through, and missing arguments become `{}` |
| CustomTools.BuildRequests | src/tools/custom_tools.py:46-52 | the loop's batch is one request per item, in input order, or the exception of the first item that raises |
| CustomTools.WorkbenchKeys | src/tools/custom_tools.py:61 | the comprehension raises exactly when some result is not a dict; every key it keeps is truthy |
| CustomTools.WorkbenchKeysMembers | src/tools/custom_tools.py:61 | a value is in the key list exactly when it is the truthy `workbench_key` of some result |
| CustomTools.WorkbenchKeysSingle | src/tools/custom_tools.py:61 | one dict contributes its `workbench_key` once when it is truthy, and nothing otherwise |
| CustomTools.WorkbenchKeysAtMostOnePerResult | src/tools/custom_tools.py:61 | the key list is no longer than the result list |
| CustomTools.WorkbenchKeysConcat | src/tools/custom_tools.py:61 | the key list keeps result order: it distributes over concatenation of the results |
| CustomTools.WorkbenchKeysPair | src/tools/custom_tools.py:61 | two results with truthy keys give those two keys in order |
| CustomTools.ResearchText | src/tools/custom_tools.py:59-67 | a rendered batch reply starts with the success prefix or the batch-error prefix |
| CustomTools.ParallelResearch | src/tools/custom_tools.py:41-71 | every path answers the JSON message, or a text starting with the critical, success or batch-error prefix |
| CustomTools.ExecuteParallelResearch | src/tools/custom_tools.py:36-71 | the looping wrapper answers what `ParallelResearch` states |
| CustomTools.ResearchRejectsMalformedJson | src/tools/custom_tools.py:68-69 | undecodable input answers exactly the JSON message |
| CustomTools.ResearchSendsOneRequestPerItem | src/tools/custom_tools.py:46-57 | the router's reply to the batch, sent with the given session id, decides the text; the batch has one request per item, and request i carries item i's slug resolved through the slug table |
| CustomTools.ResearchReportsKeys | src/tools/custom_tools.py:59-64 | on batch success the text is the success prefix, the JSON encoding of the key list, ". Summary: " and the results |
| CustomTools.ResearchReportsBatchFailure | src/tools/custom_tools.py:65-67 | on batch failure the text is the batch-error prefix and the error, or "Unknown Error" |
| CustomTools.SimulatedWorkbenchKeys | src/tools/composio_client.py:66-83 | the simulated results yield the key list [arXiv key, PubChem key] |
| CustomTools.ResearchWithSimulatedClient | src/tools/custom_tools.py:54-64 | with the simulated client any well-formed batch reports the key list [arXiv key, PubChem key] |
| CustomTools.AnalysisText | src/tools/custom_tools.py:91-94 | a rendered bash reply starts with the analysis prefix or the bash-error prefix |
| CustomTools.DataAnalysis | src/tools/custom_tools.py:79-98 | every path answers the JSON message, or a text starting with the critical, analysis or bash-error prefix |
| CustomTools.RunDataAnalysis | src/tools/custom_tools.py:74-98 | answers what `DataAnalysis` states; retrieves the input's keys once each, in order, stopping only right after a retrieve that raised |
| CustomTools.AnalysisRetrieveRaises | src/tools/custom_tools.py:79-98 | the first retrieve that raises ends the wrapper: a JSONDecodeError answers the JSON message, any other exception the critical prefix followed by `str(e)` |
| CustomTools.AnalysisRejectsMalformedJson | src/tools/custom_tools.py:95-96 | undecodable input answers exactly the JSON message |
| CustomTools.AnalysisIgnoresRetrievalReplies | src/tools/custom_tools.py:84-85 | the retrieve replies, successful or not, do not change the text |
| CustomTools.AnalysisReportsOutput | src/tools/custom_tools.py:88-94 | success answers the analysis prefix and stdout unchanged; failure the bash-error prefix and stderr, or "Unknown Error" |
| CustomTools.AnalysisWithSimulatedClient | src/tools/custom_tools.py:84-94 | with the simulated client any iterable input answers the analysis prefix and the encoded analysis output |
| CustomTools.PublishAttempt | src/tools/custom_tools.py:106-115 | a completed try block answers a text starting with the success prefix and the report URL base |
| CustomTools.PublishFinalReport | src/tools/custom_tools.py:101-119 | every path answers the JSON message, a text starting with the critical prefix, or one starting with the success prefix and the report URL base |
| CustomTools.PublishReportsUrl | src/tools/custom_tools.py:108-115 | a valid synthesis answers the success prefix, "https://notion.com/reports/", the hash of its hypothesis and "." |
| CustomTools.PublishRejectsMalformedJson | src/tools/custom_tools.py:116-117 | undecodable input answers exactly the JSON message |
| CustomTools.PublishRejectsInvalidSynthesis | src/tools/custom_tools.py:118-119 | any decoded payload that FinalSynthesis rejects (missing or mistyped field, non-string link, not an object) answers exactly the critical prefix followed by the validation error; the answer starts "CRITICAL TOOL ERROR: Failed to publish report." |
| CustomTools.PublishRejectsMissingField | src/tools/custom_tools.py:118-119 | a payload missing one of the five fields answers "CRITICAL TOOL ERROR: Failed to publish report." followed by the validation error |
| CustomTools.KeysHandOff | src/tools/custom_tools.py:61-85 | the fixed key list is the one the research stage extracts from the simulated results; assuming the runtime's JSON decoding reads back what it encoded, the analysis stage given that list decodes it, every retrieve succeeds and the analysis output is reported |

## Left out

- Python's `hash` is a parameter of the model (`Runtime.hash`). It is randomised per process, and no
  value, uniqueness or collision-freedom is assumed.
- The internals of `json.loads` and `json.dumps` are parameters. Decoding answers a value or a
  JSONDecodeError. `str()` of a non-string value (`repr`) and `str(e)` of an exception are parameters
  too.
- JSON numbers are integers: fractions and exponents are not modelled. No wrapper looks inside a
  number.
- Pydantic's coercion rules and the exact text of its validation errors are not modelled. A
  validation error is the list of missing or mistyped fields, in declaration order; its rendering is
  part of `str(e)`.
- All `print` side effects: the console lines of the router calls and the Notion call of
  `publish_final_report`, which is only a print.
- `ComposioClient.__init__` and `load_dotenv`: environment-variable reads and console warnings.
- The `SCIENTIST_TOOLS` registration with CrewAI, and the agents, tasks and crew that call the
  wrappers: this is LLM orchestration with no stateable logic.
- Concurrency: the multi-execution is a constant reply, and nothing runs in parallel.
- The argument values of a request (`arguments`) are passed on untouched. Their content is not
  checked, because the wrapper does not check it either.
