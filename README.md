# A verified model of the Kubernetes-Airflow RAG pipeline

The repository runs a retrieval-augmented question answering pipeline on
Airflow. A DAG picks a user question and may check it against an "expert"
knowledge base first. It then retrieves context by similarity and/or
keyword search, reranks the merged results, asks an LLM for an answer, and
may score the answer with RAGAS. Two DAG variants exist. One runs each
stage as a Kubernetes pod whose command-line program writes its result to
`/airflow/xcom/return.json`. The other calls one long-running HTTP worker
per stage (retrieval, rerank, LLM, RAGAS). Around the pipeline sit a
data-processing stage that turns uploaded SQuAD and PDF files into a data
context, a SQuAD question/answer extractor, a file sensor, and a script
that runs a list of questions through the API DAG and saves the results.

The Dafny project has one module per source file, plus `Values` (the
decoded Python/JSON values that cross stage boundaries, with Python's
truthiness, `dict.get`, `str.lower` on ASCII and `list(set(...))`),
`WorkerHarness` (what the four HTTP workers share) and `Pipeline`
(properties that span the API DAG and the generation worker).

- `Topology`: the configuration both DAG files load; the flags derived
  from it; the task graph both files wire, as a method checked against a
  declarative edge list. Also: which stage feeds the LLM, and the
  paths from the question task to every stage.
- `PodDag`, `StatefulDag`: the arguments each variant hands each stage.
- `ExpertBranch`: the branch decision after the expert validation.
- `ApiCalling`: the request each API stage sends and how a reply is read.
- `Llm`, `Rerank`, `RagasEvaluator`: the three stages' logic.
  - The LLM picks its context by a fallback chain.
  - The reranker (a class with the retrieval results and a model cache)
    sorts stably by score, descending, and keeps the top k.
  - The evaluator visits rerank, similarity and keyword in that order and
    stops at the first mode it evaluates.
- `LlmApi`, `RerankApi`, `RagasApi`, `RetrievalApi`: the four HTTP
  workers. Each has its stand-in task instance, its request validation
  and its reply. The retrieval worker's instance cache is a class.
- `Cli`, `LlmRun`, `RerankRun`, `RagasRun`, `RetrievalRun`: the four
  pod programs, with their options and their stand-in task instances.
  A lemma says the LLM program and its HTTP worker compute the same
  thing; the evaluation program agrees with its worker only once its
  stand-in serves the question under `generate_query_task` (the
  corrected stand-in); the retrieval program's stand-in differs from its
  worker's on the question key; the rerank program has no such lemma.
- `DataProcessing`: the `Data_Processing` class, with its loops as
  methods checked against recursive specifications.
- `QaProcessing`: `find_target_sublist` and the triple loop of
  `extract_qa_pairs`.
- `JsonUpdateSensor`: the sensor's `poke`.
- `QuestionTests`: the `RAGTester` class, its polling loop, its result
  file names and the question selection of `main`.

Every external effect is a parameter of the model, never implemented:
- parsing and rendering (`ast.literal_eval`, `json.loads`, `str`);
- the LLM, the embedding and reranking models, and RAGAS scoring;
- file contents, the Airflow REST API, and the clock.

One might expect the generation stage to still run when the expert
validation reports COMPLETE. The code raises `AirflowSkipException` in
the branch task, and with no `trigger_rule` set anywhere, the skip
reaches every task downstream, the LLM task included.
The model follows the code (`ExpertBranch.SkipReachesGeneration`,
`Topology.PathToLlm`).

## Model

| member | source | states |
|---|---|---|
| Values.FirstOccurrencesMembers | docker/data_processing/data_processing.py:56 | de-duplicating keeps exactly the list's elements, each once |
| Values.Distinct | docker/data_processing/data_processing.py:56 | a list becomes a set exactly when all its elements are hashable, and otherwise raises TypeError; the result holds each element once |
| Values.PyPrefix | scripts/run_question_tests.py:178 | a prefix of a text is at most as long as asked for, and shorter only when the text is |
| Values.QuestionOrDefault | docker/llm-api/llm_api.py:37 | a missing or empty question falls back to the fixed default question, and any other question is kept |
| Topology.Derive | dags/k8s_query_dag.py:39-44 | rerank is forced on with both retrievals, is the configured value with exactly one, is off with none; every other flag is passed through |
| Topology.DeriveIsDerived | dags/k8s_query_dag.py:39-44 | deriving twice changes nothing, and a derived rerank flag implies some retrieval is on |
| Topology.LoadFlags | dags/k8s_query_dag.py:20-38 | a missing or undecodable file gives the derived all-false defaults; a document that is an object with an object `rag_pipeline_config` gives the derivation of that section's flags; any other document (not an object, or the section absent or not an object) fails on `.get`; every loaded result satisfies the derivation invariant |
| Topology.LoadFlagsDefaults | dags/k8s_query_dag.py:26-34 | a missing or undecodable configuration file gives all five flags false |
| Topology.LoadSettings | dags/k8s_query_dag.py:20-92 | as written: settings are produced only from a parsed file, whose flags are the loaded ones; the fallback path fails with a NameError at the model lookup |
| Topology.LoadSettingsFixed | dags/k8s_query_dag.py:26-92 | corrected: a missing or undecodable file yields all-false flags with the default model names; a parsed file gives the same result as the loader as written |
| Topology.MissingConfigFailsToLoad | dags/k8s_query_dag.py:91 | with no configuration file the flags fall back to all-false, yet the loader as written fails, while the corrected one builds the default DAG with model `gemma2:9b` |
| Topology.Nodes | dags/k8s_query_dag.py:94-324 | the question and generation tasks always exist; each other task exists exactly when its flag is set (the three expert tasks together, both keyword tasks together) |
| Topology.Leaves | dags/k8s_query_dag.py:327-340 | the list of retrieval tasks has at most two entries, and is empty exactly when neither similarity nor keyword retrieval is on |
| Topology.IntoRerankLeaves | dags/k8s_query_dag.py:342-344 | the loop over the retrieval list adds exactly one edge into rerank from each enabled retrieval task |
| Topology.ExpertEdgesMembership | dags/k8s_query_dag.py:330-332 | the expert phase adds exactly the three chain edges, and only with expert retrieval |
| Topology.BranchEdgesMembership | dags/k8s_query_dag.py:334-340 | the retrieval phase hangs similarity and keyword extraction off the cursor and keyword extraction before keyword retrieval, and adds nothing else |
| Topology.GenerateEdgesMembership | dags/k8s_query_dag.py:342-349 | with rerank and a retrieval, edges go from the retrievals into rerank and from rerank into generation; otherwise a single edge into generation from the one retrieval task, or else from the cursor |
| Topology.EdgesMembership | dags/k8s_query_dag.py:327-352 | an edge is wired if and only if the per-target reference wiring wants it |
| Topology.WireExpert | dags/k8s_query_dag.py:327-332 | the expert phase yields the expert chain and leaves the cursor at the branching task, or at the question task without expert retrieval |
| Topology.WireRetrieval | dags/k8s_query_dag.py:334-340 | the retrieval phase adds the branch edges off the cursor and builds the retrieval list in wiring order |
| Topology.WireGeneration | dags/k8s_query_dag.py:342-349 | the convergence phase adds exactly the generation edges of the reference wiring |
| Topology.Wire | dags/k8s_query_dag.py:327-352 | the wiring code builds exactly the reference edge set, evaluation edge included |
| Topology.EdgesGoForward | dags/k8s_query_dag.py:327-352 | every wired edge goes forward in the fixed stage order |
| Topology.EdgesWithinNodes | dags/k8s_query_dag.py:327-352 | both ends of every wired edge are tasks the flags create |
| Topology.PathsAscend | dags/k8s_query_dag.py:327-352 | along any path the stage rank strictly increases, so the graph has no cycle |
| Topology.SearchSource | dags/k8s_query_dag.py:265-273 | the generation stage reads rerank results first, then similarity, then keyword results; it reads none exactly when all three are off, and the source is always a created task |
| Topology.LlmMode | dags/k8s_query_dag.py:262 | the generation mode is "rag" exactly when a retrieval task exists, else "general" |
| Topology.LlmUpstreamIsSearchSource | dags/k8s_query_dag.py:265-273 | under the derivation, the generation stage's upstream task is exactly its search source, or the cursor when there is none |
| Topology.FallbackOnlyWithoutRetrieval | dags/k8s_query_dag.py:348-349 | under the derivation, the cursor-to-generation edge exists exactly when no retrieval task exists |
| Topology.AmbiguousCaseNeedsDerivation | dags/k8s_query_dag.py:39-44 | underived flags with both retrievals and rerank off take the fallback edge, while generation reads the similarity result, which is then not upstream of it |
| Topology.RagasWiring | dags/k8s_query_dag.py:351-352 | the evaluation task exists whenever use_ragas is set, but it has an upstream edge (from generation) only when a retrieval task exists |
| Topology.ExpertChain | dags/k8s_query_dag.py:330-336 | with expert retrieval, the question task's only child is expert retrieval, the chain is complete, and the branching task's children are exactly the enabled retrievals, or generation without any |
| Topology.PathToLlm | dags/k8s_query_dag.py:327-349 | for derived flags, a path of wired edges leads from the cursor to the generation stage |
| Topology.EveryStageHasUpstream | dags/k8s_query_dag.py:327-352 | every created task other than the question task and the evaluation task has an upstream task |
| PodDag.RetrievalArgs | dags/k8s_query_dag.py:107-113 | a retrieval pod gets exactly the document type, type, topk, embedding model and question pull; for the keyword type it also gets the keyword-extraction pull |
| PodDag.PlainLlmArgs | dags/k8s_query_dag.py:129-133 | the validation and keyword-extraction pods get exactly the type, the model and the question pull |
| PodDag.RerankArgs | dags/k8s_query_dag.py:246-251 | the rerank pod gets the question pull, both retrieval pulls and topk "5", and nothing else |
| PodDag.RagasArgs | dags/k8s_query_dag.py:302-311 | the evaluation pod gets exactly the question pull, the answer pull, the similarity, keyword and rerank result pulls and the three flags |
| PodDag.PodArgs | dags/k8s_query_dag.py:99-324 | only created tasks get pod arguments; the question and branching tasks are not pods |
| PodDag.LlmArgsSelection | dags/k8s_query_dag.py:262-273 | the generation pod's mode is the generation mode; it gets search-result arguments exactly when there is a search source, and they name that source and pull its result |
| PodDag.EveryPodGetsQuestion | dags/k8s_query_dag.py:107-311 | every created pod is handed the question task's pull |
| PodDag.PodTopk | dags/k8s_query_dag.py:107-251 | topk is "5" for expert retrieval, "10" for similarity and keyword retrieval, and "5" for rerank |
| PodDag.RagasFlagArgs | dags/k8s_query_dag.py:308-310 | the evaluation pod receives the derived flags as Python's `str` of a bool |
| PodDag.ValidationPodHasNoContext | dags/k8s_query_dag.py:129-133 | the validation pod is given neither a search-result source nor search results |
| StatefulDag.GetUserQuestion | dags/k8s_query_stateful_dag.py:64-88 | as written: a falsy configured question gives the hard-coded question, and a truthy one makes the task return None |
| StatefulDag.GetUserQuestionFixed | dags/k8s_query_stateful_dag.py:64-88 | corrected: the result is always a truthy question: the configured one when it is truthy, else the hard-coded one |
| StatefulDag.ConfiguredQuestionIsDropped | dags/k8s_query_stateful_dag.py:114-121 | a non-empty configured question becomes None in the question task as written, and is passed through by the corrected task |
| StatefulDag.SearchResultsTypes | dags/k8s_query_stateful_dag.py:211-218 | the source id is absent exactly when there is no search source, and otherwise is that source's task id |
| StatefulDag.StageOf | dags/k8s_query_stateful_dag.py:114-246 | a task has a stage exactly when the flags create it |
| StatefulDag.StageTopk | dags/k8s_query_stateful_dag.py:127-206 | topk is 5 for expert retrieval, 10 for similarity and keyword retrieval, and 5 for rerank |
| StatefulDag.GenerationAndEvaluationStages | dags/k8s_query_stateful_dag.py:220-243 | the generation stage is in "rag" mode exactly when a retrieval task exists; the source it names is a task wired directly above it; the evaluation stage receives the derived flags |
| StatefulDag.EndpointOf | dags/k8s_query_stateful_dag.py:95-102 | a stage's host comes from its environment variable when set, and its port likewise, falling back to the stage's default port |
| StatefulDag.StageRequest | dags/k8s_query_stateful_dag.py:123-243 | the question and branching tasks call no service; a retrieval stage posts a retrieval body to `/retrieve` on the retrieval endpoint (default port 8000) with 300 s, its type, topk, embedding model and document types; a rerank stage posts a rerank body to `/rerank` (8001) with 30 s and its topk; a generation stage posts a generation body to `/llm` (8002) with 300 s, its type, source id and the configured model; an evaluation stage posts an evaluation body to `/ragas` (8003) with 300 s and its three flags; every request carries the question task's stored result |
| StatefulDag.GenerationRequest | dags/k8s_query_stateful_dag.py:220-228 | the generation request carries the configured model, and carries search results exactly when there is a search source: that source's stringified result |
| StatefulDag.ValidationRequestHasNoContext | dags/k8s_query_stateful_dag.py:134-141 | as written: the validation request is a "validation" llm call with neither a source id nor search results |
| StatefulDag.ValidationFixedCarriesContext | dags/k8s_query_stateful_dag.py:134-141 | corrected: the validation request names the expert retrieval task and carries its stringified result |
| ExpertBranch.Decoded | dags/utils/expert_branch.py:28-29 | a string validation result is JSON-decoded; any other value is inspected as it is |
| ExpertBranch.Targets | dags/utils/expert_branch.py:37-46 | the selection is non-empty and has no duplicates; it holds similarity retrieval exactly when that flag is set, and keyword extraction exactly when its flag is set; it falls back to the generation task exactly when neither is set; with both flags set it lists similarity first |
| ExpertBranch.BranchLogic | dags/utils/expert_branch.py:20-54 | a result with no status (undecodable, not an object, no `status` key) is an error, a non-object one with the "not a valid JSON object" text; INCOMPLETE selects exactly the flag targets; COMPLETE skips exactly when `useful_information` is present and fails otherwise; any other status fails with "Unknown expert validation status: " followed by the status |
| ExpertBranch.BranchOutcomes | dags/utils/expert_branch.py:20-54 | INCOMPLETE (and only INCOMPLETE) selects the targets; COMPLETE with its useful information (and only that) re-raises the skip; every other input (undecodable, not an object, no status, COMPLETE without useful information, unknown status) is an error, and an unknown status gives the ValueError text that names it |
| ExpertBranch.NonObjectIsError | dags/utils/expert_branch.py:30-32 | a validation result that is neither a string nor an object raises the "not a valid JSON object" error |
| ExpertBranch.SelectionMatchesWiring | dags/utils/expert_branch.py:37-46 | under the derivation, a task is selected exactly when it is wired directly below the branching task |
| ExpertBranch.SkipReachesGeneration | dags/utils/expert_branch.py:34-36 | when validation reports COMPLETE, a wired path leads from the branching task to the generation stage, so the skip reaches it |
| ApiCalling.Execute | dags/utils/api_calling.py:33-42 | a closure returns a value exactly when the host resolved, the status is outside 400-599 and the body is a JSON object with a `result` field; that field is then the value, and every other reply is re-raised |
| ApiCalling.RetrievalRequest | dags/utils/api_calling.py:19-36 | the retrieval request goes to `/retrieve` with a 300 s timeout and carries the configured document types and embedding model, the question pulled from the question task and the given type and topk; the keyword list is the stringified extraction result for keyword retrieval and "[]" otherwise |
| ApiCalling.RerankRequest | dags/utils/api_calling.py:52-68 | the rerank request goes to `/rerank` with a 30 s timeout and carries the question and each retrieval result stringified, or "[]" when that result is falsy |
| ApiCalling.LlmRequest | dags/utils/api_calling.py:88-107 | the llm request goes to `/llm` with a 300 s timeout, temperature 0.0, keep-alive "0s" and a context of 8192; it carries the source's stringified result exactly when a non-empty source id is configured |
| ApiCalling.RagasRequest | dags/utils/api_calling.py:125-147 | the evaluation request goes to `/ragas` with a 300 s timeout and carries the question, the generated answer, each retrieval result only when its flag is set, and the three flags |
| ApiCalling.Url | dags/utils/api_calling.py:23 | every stage URL starts with `http://` and ends with `/` followed by the stage path |
| ApiCalling.StageUrlsDistinct | dags/utils/api_calling.py:23 | on one endpoint the four stage URLs are pairwise different |
| WorkerHarness.IdleTimer.constructor | docker/llm-api/llm_api.py:16-17 | the last-used time starts at the load time |
| WorkerHarness.IdleTimer.Touch | docker/llm-api/llm_api.py:49-52 | `update_last_used_time` sets the last-used time to now |
| WorkerHarness.IdleTimer.Monitor | docker/llm-api/llm_api.py:54-61 | a quiet service exits at the first check, each of them one 60 s interval after the last, that finds more than 300 s elapsed; that is at most 360 s after the last request, or at the first check when it had already expired |
| WorkerHarness.Respond | docker/llm-api/llm_api.py:94-97 | a success answers 200 with `{"status": "success", "result": r}`; a failure answers 500 whose detail is the error text |
| WorkerHarness.Rejected | docker/llm-api/llm_api.py:19-27 | a body that fails field validation is answered with 422 |
| WorkerHarness.RespondExecuteRoundTrip | dags/utils/api_calling.py:107-110 | the DAG's client undoes the service's response shape: a success comes back as the handler's result, and a failure as an error |
| WorkerHarness.RejectedIsError | dags/utils/api_calling.py:107-113 | a 422 from a service fails the calling task |
| WorkerHarness.LiteralOrRaw | docker/llm-api/llm_api.py:38-46 | `ast.literal_eval` of the carried text, or the raw text when parsing raises; None when nothing is carried |
| WorkerHarness.ParsedOrEmpty | docker/rerank-api/rerank_api.py:34-46 | a missing or empty text and a parse failure give []; otherwise the parsed value, whatever its type |
| WorkerHarness.ListOrEmptyParsed | docker/ragas-api/ragas_api.py:43-51 | the result is always a list: [] unless the text parses to a list, which is then returned |
| WorkerHarness.DecodersInvertRender | docker/llm-api/llm_api.py:38-46 | when the literal parser reads back what `str()` wrote, each decoder gives back the original value (the evaluation decoder only lists) |
| Llm.ContextIsFallbackChain | docker/llm/llm.py:81-110 | validation takes the expert retrieval's result; every other type takes the first truthy one of rerank, similarity and keyword results, or else the keyword result; a non-list gives [] |
| Llm.ContextSources | docker/llm/llm.py:91-105 | the context depends only on the expert result in validation mode, and only on the three retrieval results otherwise |
| Llm.Join | docker/llm/llm.py:196 | `"".join` succeeds exactly when every context element is a string, and an empty context joins to "" |
| Llm.JoinAppend | docker/llm/llm.py:196 | joining with one more string appends that string to the joined text |
| Llm.FromQuestion | docker/llm/llm.py:112-151 | keyword extraction succeeds exactly when the model's text parses as the list literal `[<text>]`, and returns the parsed value; general returns the model's text; any other type returns "" |
| Llm.ContextPrompt | docker/llm/llm.py:166-178 | only rag, validation and summary have a context prompt |
| Llm.WithContext | docker/llm/llm.py:153-200 | a type with no context prompt returns ""; otherwise the call succeeds exactly when the context joins, and returns the model's text for that prompt, the question and the joined context |
| Llm.Run | docker/llm/llm.py:202-225 | keyword and general requests answer from the question through the question-only dispatch; every other type answers through the context dispatch on the fallback-chain context (partners: `Llm.QuestionOnlyIgnoresContext`, `Llm.RunWithContext`) |
| Llm.QuestionOnlyIgnoresContext | docker/llm/llm.py:202-225 | keyword and general results depend on the question alone |
| Llm.RunWithContext | docker/llm/llm.py:202-225 | every other type answers with the model's text on the fallback-chain context, "" for an unknown type, and an empty prompt context when no result is found |
| LlmApi.XcomPull | docker/llm-api/llm_api.py:35-47 | the stand-in answers the question task with the request's question, or the default question when it is empty; it answers the named source with the literal-decoded search results, or the raw text when they do not parse; it answers every other id with None |
| LlmApi.MockContext | docker/llm-api/llm_api.py:35-47 | outside validation mode, the generation stage reads the carried result exactly when the request names a task on its fallback chain, and [] otherwise |
| LlmApi.MockValidationContext | docker/llm-api/llm_api.py:35-47 | in validation mode the stage reads the carried result only when the request names the expert retrieval task |
| LlmApi.LlmEndpoint | docker/llm-api/llm_api.py:19-27 | a body whose question or model is not a string is rejected with 422, and only such a body; otherwise the caller gets back exactly the generation stage's result, or a 500 carrying its error text |
| LlmApi.HandleLlm | docker/llm-api/llm_api.py:69-97 | the handler answers as the route does; an accepted request sets the last-used time to now, and a rejected one leaves it unchanged |
| LlmApi.HandleRoot | docker/llm-api/llm_api.py:63-67 | the health route answers `{"status": "healthy", "service": "llm-api"}` and sets the last-used time to now |
| Rerank.Zip | docker/rerank-api/rerank.py:98 | `zip` pairs each passage with its score, position by position, up to the shorter length |
| Rerank.Points | docker/rerank-api/rerank.py:98 | the projection keeps the passages of the sorted pairs, in order |
| Rerank.Insert | docker/rerank-api/rerank.py:98 | inserting into the sorted rest adds exactly one entry |
| Rerank.SortDesc | docker/rerank-api/rerank.py:98 | the sort keeps the number of entries |
| Rerank.InsertDescending | docker/rerank-api/rerank.py:98 | inserting into a descending list keeps it descending and adds only the inserted entry |
| Rerank.InsertPermutes | docker/rerank-api/rerank.py:98 | inserting adds exactly the one entry to the multiset |
| Rerank.InsertWithScore | docker/rerank-api/rerank.py:98 | inserting puts the new entry ahead of the entries with its own score |
| Rerank.SortDescDescending | docker/rerank-api/rerank.py:98 | `sorted(..., key=score, reverse=True)` is in non-increasing score order |
| Rerank.SortDescPermutes | docker/rerank-api/rerank.py:98 | the sort is a permutation of its input |
| Rerank.SortDescStable | docker/rerank-api/rerank.py:98 | the sort is stable: entries with equal scores keep their input order |
| Rerank.Top | docker/rerank-api/rerank.py:98 | the kept entries are a prefix of the sorted pairs |
| Rerank.TopProperties | docker/rerank-api/rerank.py:96-99 | `[:topk]` keeps at most topk entries (exactly min(topk, n) for a non-negative topk), all from the zipped input, in descending order, and no dropped entry scores higher than a kept one |
| Rerank.RankedOrContext | docker/rerank-api/rerank.py:93-102 | with scores, the result is the passages of the best topk entries and has at most topk of them; when scoring raises, the context comes back unchanged |
| Rerank.Merged | docker/rerank-api/rerank.py:34-40 | the merged context holds exactly the elements of whichever of the two results are lists |
| Rerank.Reranker.constructor | docker/rerank-api/rerank.py:5-6 | the class-level model cache starts empty |
| Rerank.Reranker.GetContext | docker/rerank-api/rerank.py:23-45 | with hashable elements, the context holds exactly the merged elements, each once; an unhashable element makes `set` raise, and the context is then [] |
| Rerank.Reranker.GetReranker | docker/rerank-api/rerank.py:62-79 | a cached model is returned and kept; otherwise the load outcome is returned, and the cache holds the model exactly when the load succeeded |
| Rerank.Reranker.Cleanup | docker/rerank-api/rerank.py:48-60 | the cache is cleared exactly when a model is cached, offers `stop_self_pool`, and stopping succeeds; otherwise it is unchanged |
| Rerank.Reranker.RerankContext | docker/rerank-api/rerank.py:81-102 | a failed load answers the context unchanged; otherwise the model's scores rank it; the result holds only context elements, and is longer than topk only when it is the unranked context |
| Rerank.Reranker.Rerank | docker/rerank-api/rerank.py:104-135 | an empty merged context, or one with an unhashable element (`get_context` then answers []), gives [] and leaves the cache alone; otherwise the cache holds the cached or newly loaded model, and the result is a duplicate-free arrangement of the merged passages ranked by that model's scores in non-increasing order and cut to topk (`RankedOrContext`), or that arrangement unranked when the load or the scoring fails; the result holds only merged elements, and one longer than topk is the whole deduplicated context |
| Rerank.TopElements | docker/rerank-api/rerank.py:96-98 | every passage the ranking keeps comes from the context |
| RerankApi.XcomPull | docker/rerank-api/rerank_api.py:31-60 | the stand-in answers the question (or the default question for an empty one); it answers each retrieval result decoded, with [] for a missing, empty or unparseable text; it answers None for any other id |
| RerankApi.MockMerged | docker/rerank-api/rerank_api.py:31-60 | through the stand-in, the reranker merges exactly the decoded lists of the two carried results |
| RerankApi.HandleRerank | docker/rerank-api/rerank_api.py:82-105 | a body whose question is not a string gets 422 and leaves the timer and the cache alone; an accepted one sets the last-used time and always succeeds: with [] for an empty or unhashable merged context, otherwise with the top-k ranking of the deduplicated decoded passages by the cached or newly loaded model, which the cache then holds |
| RerankApi.HandleRoot | docker/rerank-api/rerank_api.py:76-80 | the health route answers `{"status": "healthy", "service": "rerank-api"}` and sets the last-used time to now |
| RagasEvaluator.GetLlmAnswer | docker/ragas/ragas_evaluator.py:61-81 | only the "rag" type is known, and it reads the generation task's result; any other type raises ValueError |
| RagasEvaluator.GetStandardAnswer | docker/ragas/ragas_evaluator.py:41-59 | the lookup succeeds exactly when the QA file loads as an object and the question is hashable; it gives the stored answer for the question, or "No matching question found." when there is none or it is null |
| RagasEvaluator.ReferenceTask | docker/ragas/ragas_evaluator.py:96-103 | only the similarity, keyword and rerank modes have a result task |
| RagasEvaluator.GetReferenceAnswer | docker/ragas/ragas_evaluator.py:83-109 | a known mode's result comes wrapped in a one-element list; an unknown mode raises ValueError |
| RagasEvaluator.GetRagResults | docker/ragas/ragas_evaluator.py:111-137 | the dataset is built exactly when all three getters succeed; it then holds the question, the answer and the standard answer each as one-element lists, and the wrapped mode result as contexts |
| RagasEvaluator.Normalise | docker/ragas/ragas_evaluator.py:223-234 | an evaluation result gives its score dict, a plain dict is kept, any other value becomes the "Unexpected evaluation result type" error dict, and only an exception fails |
| RagasEvaluator.Step | docker/ragas/ragas_evaluator.py:214-236 | the rerank mode is never recorded as lacking information: when it succeeds it is evaluated |
| RagasEvaluator.Ragas | docker/ragas/ragas_evaluator.py:196-239 | the loop computes the mode-by-mode reference result, and no enabled mode gives {} |
| RagasEvaluator.VisitKeys | docker/ragas/ragas_evaluator.py:209-212 | the loop adds only keys of enabled modes it visits |
| RagasEvaluator.VisitAtMostOne | docker/ragas/ragas_evaluator.py:236-237 | starting from records without scores, the loop evaluates at most one mode |
| RagasEvaluator.VisitPreserves | docker/ragas/ragas_evaluator.py:209-237 | a record of a mode the loop no longer visits keeps its value |
| RagasEvaluator.VisitStopsAtEvaluated | docker/ragas/ragas_evaluator.py:236-237 | no mode listed after the evaluated one is recorded: the loop breaks |
| RagasEvaluator.VisitEarlierNoRelevant | docker/ragas/ragas_evaluator.py:217-221 | every enabled mode before a recorded one was recorded as lacking relevant information |
| RagasEvaluator.VisitReachesEveryEnabled | docker/ragas/ragas_evaluator.py:209-237 | an enabled mode is missing from the result only when an earlier mode was evaluated |
| RagasEvaluator.ScoresValue | docker/ragas/ragas_evaluator.py:220-236 | the returned dict has exactly the recorded modes as keys, each with its score dict or the "No relevant information found" status |
| RagasEvaluator.RagasKeys | docker/ragas/ragas_evaluator.py:197-212 | only enabled modes appear in the result |
| RagasEvaluator.RagasAtMostOneEvaluated | docker/ragas/ragas_evaluator.py:236-237 | at most one mode of the result is evaluated |
| RagasEvaluator.RagasOrder | docker/ragas/ragas_evaluator.py:209-237 | in the order rerank, similarity, keyword: nothing after the evaluated mode is recorded; every enabled mode before a recorded one lacked relevant information; an enabled mode is missing only when an earlier one was evaluated |
| RagasEvaluator.RerankDecides | docker/ragas/ragas_evaluator.py:197-237 | with rerank enabled, the result of a successful run is exactly the evaluated rerank mode |
| RagasEvaluator.SimilarityWithoutInformation | docker/ragas/ragas_evaluator.py:217 | a similarity answer that mentions "no relevant information", in any letter case, is recorded as such without evaluation |
| RagasEvaluator.KeywordWithoutContext | docker/ragas/ragas_evaluator.py:218 | a falsy keyword result is recorded as lacking relevant information |
| RagasApi.TextOrNone | docker/ragas-api/ragas_api.py:39-42 | a missing string reads as None, and a carried one as itself |
| RagasApi.XcomPull | docker/ragas-api/ragas_api.py:38-70 | the stand-in answers the question and the answer as given; it answers each retrieval result decoded to a list, [] for a missing, empty, unparseable or non-list text; it answers None for any other id |
| RagasApi.MockReadsRequest | docker/ragas-api/ragas_api.py:103-109 | the evaluation reads the request's question and answer unchanged, and a rendered result list that the literal parser reads back comes back whole |
| RagasApi.Outcome | docker/ragas-api/ragas_api.py:115-122 | the handler succeeds exactly when the evaluation does, with a dict keyed by the same modes |
| RagasApi.RagasEndpoint | docker/ragas-api/ragas_api.py:19-27 | a body whose question or answer is not a string is rejected with 422, and only such a body; otherwise the caller gets back the evaluation's scores, keyed only by enabled modes, or its error |
| RagasApi.HandleRagas | docker/ragas-api/ragas_api.py:92-125 | the handler answers as the route does; an accepted request sets the last-used time to now, and a rejected one leaves it unchanged |
| RagasApi.HandleRoot | docker/ragas-api/ragas_api.py:86-90 | the health route answers `{"status": "healthy", "service": "ragas-api"}` and sets the last-used time to now |
| RagasRun.ParseArgs | docker/ragas/ragas_run.py:11-29 | the five texts are optional and absent by default; the three flags default to the string "False" |
| RagasRun.FlagRoundTrip | docker/ragas/ragas_run.py:86-88 | a flag rendered as Python renders a bool reads back as that bool, and the default "False" is off |
| RagasRun.XcomPullAsWritten | docker/ragas/ragas_run.py:44-76 | the question is served under random_question_task, generate_query_task gets None, and every other id is served as the service's stand-in serves it |
| RagasRun.AsWrittenLosesQuestion | docker/ragas/ragas_run.py:44-46 | through the program's stand-in the evaluator reads the question as None, so every dataset it builds has the question None and the ground truth "No matching question found." |
| RagasRun.CorrectedFindsQuestion | docker/ragas/ragas_run.py:44-46 | a stand-in serving the question under generate_query_task gives a question the QA file knows its stored answer as the ground truth |
| RagasRun.RunProgram | docker/ragas/ragas_run.py:10-109 | with the corrected stand-in, the program's result is the evaluation loop run on the options' texts and flags, or the failure that ends it |
| RagasRun.ProgramMatchesService | docker/ragas/ragas_run.py:78-95 | with the corrected stand-in (question served under `generate_query_task`), options carrying an accepted request body's texts and flags give the same result as the evaluation service, and one fails exactly when the other does |
| RetrievalApi.XcomPull | docker/retrieval-api/retrieval_api.py:32-46 | the stand-in answers the question (or the default question for an empty one); it answers the keyword list literal-decoded, or its raw text when it does not parse; it answers None for any other id |
| RetrievalApi.InstanceCache.constructor | docker/retrieval-api/retrieval_api.py:49 | the per-model instance cache starts empty |
| RetrievalApi.InstanceCache.GetInstance | docker/retrieval-api/retrieval_api.py:51-57 | a cached model's instance is returned and the cache kept; otherwise the new instance is stored under the model, and a failed creation stores nothing; no stored entry is ever replaced or removed |
| RetrievalApi.HandleRetrieve | docker/retrieval-api/retrieval_api.py:79-105 | a body whose question, document type or embedding model is not a string gets 422 and changes nothing; an accepted one sets the last-used time and answers exactly the search result of the model's cached instance; a cached model leaves the cache as it was, an uncached one is stored as `create`'s instance and nothing else changes, and a failed creation leaves the cache as it was and answers an error |
| RetrievalApi.HandleRoot | docker/retrieval-api/retrieval_api.py:73-77 | the health route answers `{"status": "healthy", "service": "retrieval-api"}` and sets the last-used time to now |
| Cli.IntOr | docker/llm/llm_run.py:34-35 | an absent `int` option takes its default; a given one is accepted exactly when its text converts, and then is the converted value |
| LlmRun.ParseType | docker/llm/llm_run.py:25-27 | `--types` accepts exactly the five choices keyword, general, rag, validation and summary |
| LlmRun.TypeNameRoundTrip | docker/llm/llm_run.py:25-27 | every choice parses back to itself |
| LlmRun.ParseArgs | docker/llm/llm_run.py:24-43 | parsing succeeds exactly when `--types` is given with a valid choice and `--num-ctx`, when given, is an integer; model, keep-alive and context size then take their defaults when absent, and the question and search results are the given ones or None |
| LlmRun.MockPull | docker/llm/llm_run.py:54-72 | the program's stand-in answers the question (or the default question), the named search result literal-decoded (or raw), and None for any other id |
| LlmRun.RunProgram | docker/llm/llm_run.py:45-95 | a usage error ends the program with an error; otherwise the result is the generation stage's result on the stand-in built from the options |
| LlmRun.ProgramMatchesService | docker/llm/llm_run.py:74-83 | for the same type, question and search results, the program's result is what the service's caller reads back, and a failing program is a failed call |
| RerankRun.ParseArgs | docker/rerank/rerank_run.py:19-29 | parsing succeeds exactly when `--topk`, when given, is an integer; topk defaults to 5 and the three texts are the given ones or None |
| RerankRun.MockPull | docker/rerank/rerank_run.py:35-70 | the program's stand-in answers the given question or the default question, and [] for a retrieval result that is not given |
| RerankRun.RunProgram | docker/rerank/rerank_run.py:31-90 | a usage error ends the program with an error; otherwise the result is a list holding only merged passages: [] when nothing was merged or an element is unhashable, and else the top-k ranking of the deduplicated passages by the freshly loaded model (unranked when loading or scoring fails) |
| RetrievalRun.ParseType | docker/retrieval/retrieval_run.py:23-24 | `--types` accepts exactly the three choices expert, similarity and keyword |
| RetrievalRun.TypeNameRoundTrip | docker/retrieval/retrieval_run.py:23-24 | every choice parses back to itself |
| RetrievalRun.ParseArgs | docker/retrieval/retrieval_run.py:22-36 | parsing succeeds exactly when `--types` is given with a valid choice and `--topk`, when given, is an integer; document type, topk and embedding model then default to "squad", 10 and the service's model, and the question and keyword list are the given ones or None |
| RetrievalRun.Defaults | docker/retrieval/retrieval_run.py:25-28 | with only `--types`, the document type is "squad" and topk is 10 |
| RetrievalRun.XcomPull | docker/retrieval/retrieval_run.py:49-63 | the program's stand-in answers the question under `random_question_task`, the keyword list literal-decoded (or raw), and None for any other id |
| RetrievalRun.QuestionKeyDiffers | docker/retrieval/retrieval_run.py:50-51 | the program's stand-in answers None for `generate_query_task`, which the service's stand-in answers with the question; on every other id except `random_question_task` the two agree |
| RetrievalRun.RunProgram | docker/retrieval/retrieval_run.py:38-86 | a usage error or a failing instance creation ends the program with an error; otherwise the result is the search on the instance for the given embedding model, against the program's stand-in |
| JsonUpdateSensor.Poke | plugins/json_update_sensor.py:12-27 | a missing or unreadable file keeps the sensor waiting; a document that is not an object raises; otherwise the poke succeeds exactly when the key's value, None when absent, differs from the expected value |
| JsonUpdateSensor.MissingKeyCountsAsChanged | plugins/json_update_sensor.py:25-27 | a key the file does not hold counts as changed unless None is the expected value |
| JsonUpdateSensor.WaitsExactlyWhileUnchanged | plugins/json_update_sensor.py:25-27 | the sensor keeps waiting exactly while the key holds the expected value |
| DataProcessing.Paragraphs | docker/data_processing/data_processing.py:50 | an item's paragraphs are read exactly when the item is an object whose "paragraphs" is a list; any other shape raises |
| DataProcessing.ParagraphContextsMembers | docker/data_processing/data_processing.py:50-54 | when collecting raises nothing, every paragraph is an object, and a value is collected exactly when some paragraph has it as its "context"; a paragraph without one is skipped |
| DataProcessing.ItemContextsMembers | docker/data_processing/data_processing.py:49-54 | a value is collected exactly when it is the context of a paragraph of some item |
| DataProcessing.SquadDocumentContexts | docker/data_processing/data_processing.py:37-56 | the extracted document holds no value twice, and holds exactly the contexts of the file's paragraphs |
| DataProcessing.CollectContexts | docker/data_processing/data_processing.py:50-54 | the inner loop computes the paragraphs' contexts, or raises for a paragraph that is not an object |
| DataProcessing.ExtractSquadDocument | docker/data_processing/data_processing.py:37-56 | the nested loops compute the de-duplicated document |
| DataProcessing.RemoveFirst | docker/data_processing/data_processing.py:202 | removing a listed file takes out one occurrence, and removing an unlisted one changes nothing |
| DataProcessing.Pending | docker/data_processing/data_processing.py:166 | a file is pending exactly when it is uploaded and not yet processed; no file is pending more often than it is uploaded |
| DataProcessing.Moved | docker/data_processing/data_processing.py:198-202 | the moved files are among the loop's files, each at most as often as it occurs there |
| DataProcessing.MissingPdfIsSkipped | docker/data_processing/data_processing.py:183-188 | a PDF that does not exist is skipped and changes nothing |
| DataProcessing.OtherFilesAreNeverProcessed | docker/data_processing/data_processing.py:173-198 | a file that is neither squad.json nor a PDF changes nothing |
| DataProcessing.ProcessedFileMoves | docker/data_processing/data_processing.py:179-202 | a file with a document is recorded under its name, appended to file_list and removed once from uploaded_files |
| DataProcessing.StepFilesMoves | docker/data_processing/data_processing.py:166-202 | with both lists present and no read failing, the loop runs to the end; the moved files are appended to file_list in order and removed from uploaded_files one occurrence each |
| DataProcessing.StepFilesKeepsOtherContexts | docker/data_processing/data_processing.py:144-148 | a data-context key naming no file of the run keeps its value |
| DataProcessing.RaisedStays | docker/data_processing/data_processing.py:165-208 | after an exception the remaining files are not looked at |
| DataProcessing.DataProcessor.constructor | docker/data_processing/data_processing.py:11-35 | the loaded config and data context are kept; when either fails to load, both start empty and so do both lists |
| DataProcessing.DataProcessor.SaveFile | docker/data_processing/data_processing.py:132-156 | a SQuAD or PDF document is recorded under the file's name, every other key and the config are kept |
| DataProcessing.DataProcessor.ProcessFile | docker/data_processing/data_processing.py:169-202 | one turn of the loop changes the store as the loop's specification says, and reports whether it raised |
| DataProcessing.DataProcessor.Process | docker/data_processing/data_processing.py:158-211 | the run walks the pending files in upload order and stops at the first exception; because of the finally clause the answer is always "Data processing completed." |
| DataProcessing.ProcessMovesPending | docker/data_processing/data_processing.py:166-202 | a run over loaded lists in which every document reads without an exception moves exactly the pending files that yield a document |
| QaProcessing.Slice | dags/data/qa_processing.py:9 | a slice whose end is past the list stops at the list's end |
| QaProcessing.SliceMatches | dags/data/qa_processing.py:9 | the slice at i equals the target exactly when the target occurs at i |
| QaProcessing.FindTargetSublist | dags/data/qa_processing.py:6-10 | a result is the first position where the target occurs, paired with that position plus the target's length; None exactly when the target occurs at no position of the list |
| QaProcessing.EmptyTargetAtStart | dags/data/qa_processing.py:6-10 | an empty target matches at position 0 of a non-empty list |
| QaProcessing.LongTargetNeverMatches | dags/data/qa_processing.py:6-10 | a target longer than the list matches nowhere |
| QaProcessing.FirstAnswerText | dags/data/qa_processing.py:34 | the answer is read exactly when the first element of "answers" is an object with a "text" |
| QaProcessing.QaStep | dags/data/qa_processing.py:28-35 | an impossible or unanswered entry leaves the dict as it was; an answerable one stores its first answer's text under its question |
| QaProcessing.AddQas | dags/data/qa_processing.py:27-35 | the innermost loop computes the fold of its entries over the dict, stopping at the first exception |
| QaProcessing.ExtractQaPairs | dags/data/qa_processing.py:12-37 | the three nested loops compute the extraction's specification |
| QaProcessing.QasFoldKeys | dags/data/qa_processing.py:27-35 | a question is a key after the fold exactly when it was one before or some answerable entry has it |
| QaProcessing.QasFoldLastWins | dags/data/qa_processing.py:35 | a question holds the first answer's text of the last answerable entry that has it |
| QaProcessing.QasFoldKeeps | dags/data/qa_processing.py:27-35 | a key no entry writes keeps its value |
| QaProcessing.QasFoldAppend | dags/data/qa_processing.py:25-35 | folding two runs of entries equals folding the second over the first's result, an exception in the first ending both |
| QaProcessing.ParagraphsFoldFlat | dags/data/qa_processing.py:26-35 | the loop over paragraphs is the fold over all their entries in order |
| QaProcessing.ArticlesFoldFlat | dags/data/qa_processing.py:25-35 | the loop over articles is the fold over all their entries in order |
| QaProcessing.ExtractKeepsAnswerable | dags/data/qa_processing.py:12-37 | a question is in the result exactly when some answerable entry of the file has it |
| QaProcessing.ExtractLastAnswerWins | dags/data/qa_processing.py:12-37 | a question repeated across the file keeps the answer of its last answerable entry |
| QuestionTests.Digits | scripts/run_question_tests.py:179 | a number's decimal form is non-empty and all digits, with at least two digits from 10 on |
| QuestionTests.DigitsLeadNonZero | scripts/run_question_tests.py:179 | a positive number's decimal form does not start with 0 |
| QuestionTests.DigitsInjective | scripts/run_question_tests.py:179 | different numbers have different decimal forms |
| QuestionTests.Pad2 | scripts/run_question_tests.py:179 | the padded result numbers a file with at least two digits |
| QuestionTests.Pad2Injective | scripts/run_question_tests.py:179 | different result numbers give different padded prefixes |
| QuestionTests.SpacesToUnderscores | scripts/run_question_tests.py:178 | every space becomes an underscore and nothing else changes |
| QuestionTests.DropQuestionMarks | scripts/run_question_tests.py:178 | every question mark goes and every other character stays |
| QuestionTests.Sanitize | scripts/run_question_tests.py:178 | the file name part has at most 30 characters, no space and no question mark, and only underscores and the question's own characters |
| QuestionTests.SanitizeIdempotent | scripts/run_question_tests.py:178 | a short question without spaces or question marks is kept as is, and sanitising twice is sanitising once |
| QuestionTests.FileName | scripts/run_question_tests.py:179 | a result's file name ends in .json |
| QuestionTests.FileNamesDiffer | scripts/run_question_tests.py:176-185 | results with different numbers go to different files, whatever their questions |
| QuestionTests.RStripSlash | scripts/run_question_tests.py:65 | the stripped URL is a prefix of the URL that does not end in a slash, and only slashes were cut |
| QuestionTests.TrailingSlashesIgnored | scripts/run_question_tests.py:65 | trailing slashes on the URL make no difference, and stripping twice is stripping once |
| QuestionTests.EndpointsIgnoreTrailingSlashes | scripts/run_question_tests.py:65-135 | the trigger, status and XCom endpoints are the same whatever trailing slashes the URL has, and the status endpoint extends the trigger endpoint |
| QuestionTests.UpdatedConfig | scripts/run_question_tests.py:56-61 | the written config sets user_question to the question and keeps every other key of the original config |
| QuestionTests.StateOf | scripts/run_question_tests.py:111-115 | a state is read exactly when the status request gets an object back |
| QuestionTests.PollOutcomeMeans | scripts/run_question_tests.py:105-131 | the wait succeeds exactly when the first terminal state seen within the timeout is success |
| QuestionTests.TimeoutFails | scripts/run_question_tests.py:130-131 | a run whose checks never see a terminal state within the timeout counts as failed |
| QuestionTests.WaitForDagCompletion | scripts/run_question_tests.py:105-131 | the polling loop returns the poll's outcome |
| QuestionTests.SucceededIndicesSpec | scripts/run_question_tests.py:229-249 | the questions whose run is triggered and succeeds are exactly those listed, in increasing order |
| QuestionTests.RunResultsPerSuccess | scripts/run_question_tests.py:225-263 | the results come one per succeeding question, in question order, each with its question, run id and collected task values |
| QuestionTests.SavedNamesPerSuccess | scripts/run_question_tests.py:248-252 | one result file is saved per succeeding question, numbered by the question's position from 1 |
| QuestionTests.SavedNamesDistinct | scripts/run_question_tests.py:229-252 | no two results of a test run go to the same file |
| QuestionTests.NumberedNamesDistinct | scripts/run_question_tests.py:176-185 | files numbered by increasing positions are all different |
| QuestionTests.RagTester.constructor | scripts/run_question_tests.py:35-49 | the tester starts from the loaded config, which is also what the config file holds, with no results saved |
| QuestionTests.RagTester.UpdateQuestion | scripts/run_question_tests.py:56-61 | the config file is rewritten from the original config with the new question; the original config is kept |
| QuestionTests.RagTester.SaveResult | scripts/run_question_tests.py:176-185 | one result file is added under the result's numbered name |
| QuestionTests.RagTester.RunOne | scripts/run_question_tests.py:229-258 | one question always rewrites the config; a triggered and succeeding run gives its collected results and saves one file, any other gives nothing |
| QuestionTests.RagTester.RunTest | scripts/run_question_tests.py:225-263 | the test run returns the results of the succeeding questions and saves their files in order; the config file ends up holding the last question |
| QuestionTests.Split | scripts/run_question_tests.py:296 | splitting gives at least one part, and no part holds the separator |
| QuestionTests.JoinSplit | scripts/run_question_tests.py:296 | joining the parts with the separator gives the text back |
| QuestionTests.ParseIndices | scripts/run_question_tests.py:296 | the list converts exactly when every part converts, and then holds each part's value in order |
| QuestionTests.InRange | scripts/run_question_tests.py:297 | every kept index is within the question list |
| QuestionTests.FilterQuestions | scripts/run_question_tests.py:297 | the filter picks at most one question per index |
| QuestionTests.FilterPicksInRange | scripts/run_question_tests.py:297 | the filter picks the questions at the in-range indices, in the order given and with repeats kept; negative indices are dropped, not counted from the end |
| QuestionTests.SelectQuestions | scripts/run_question_tests.py:284-299 | the loaded questions, or the defaults when none are loaded, are filtered by the indices when the option is given and converts; otherwise all of them run |
| Pipeline.GenerationRequestFor | dags/k8s_query_stateful_dag.py:220-228 | the generation stage sends an LLM body carrying the question task's stored result and the configured model |
| Pipeline.ConfiguredQuestionFailsGeneration | dags/k8s_query_stateful_dag.py:64-88 | with a question set in the configuration, the generation service answers the generation request with 422, and the caller reports an error |
| Pipeline.FixedQuestionReachesGeneration | dags/k8s_query_stateful_dag.py:64-88 | with the corrected question task the generation request is accepted, and the service reads the configured question |
| Pipeline.ValidationLosesExpertContext | dags/k8s_query_stateful_dag.py:134-141 | whatever the expert retrieval found, an accepted validation request gets an empty context; the corrected request gets the expert results back whole |

## Left out

- Kubernetes, pods, images, environment variables and kube config loading. Only the task graph and each stage's arguments and request are modelled.
- Airflow's scheduling, retries, run limits and trigger rules. The skip signal is modelled as reaching every task downstream of the branch.
- HTTP and DNS. A host that does not resolve is an `Unresolved` outcome, and the transport's answer is an input. Run ids, timestamps and run-id formats are not modelled.
- The FastAPI servers and request validation internals. Pydantic's check of a body is the `Accepted` predicate. The idle monitor's thread and `os._exit` are a `Monitor` result over an explicit integer clock.
- The LLM (Ollama), the embedding model, FlagReranker, Qdrant and RAGAS metrics with their OpenAI models. Each is a function parameter. The reranker's float scores are abstracted to integers, or none when scoring fails.
- `ast.literal_eval`, `json.loads`, `json.dumps` and `str()` of Python values. They are function parameters, not implementations of Python's grammar.
- The retrieval search itself. `retrieval.py` is not part of this model, and neither is the `random_question_task` key its stand-in answers.
- PDF conversion (marker) and Markdown splitting. Together they are one input giving a file's chunks.
- The `Document` wrapper of a chunk is not modelled; a chunk is a value.
- Every file write is left out:
  - `save_file`'s JSON dump and the config save;
  - the result files, `summary.json` and `report.md` of the test runner;
  - `/airflow/xcom/return.json` of the pod programs.
- Logging, `time.sleep`, `sys.exit` codes and the `--temperature` option of the LLM program (a float).
- The pod DAG's random question drawn from `qa_pairs.json` is an input.
- The module-level I/O of `qa_processing.py` and its tokenizer are not modelled.
- Argparse's prefix matching is not modelled, so `--document-type` is not read as `--document-types`. Nor is its rejection of unknown options.
- A configuration that is not a JSON object is a load failure. So is a `data`, `paragraphs` or `qas` field that is not a list: the model raises an error where Python might iterate a string or a dict's keys.
- Python merges `1` and `True` in a set. This is not modelled: values are compared structurally.
- Values.Distinct: fixes first-occurrence order for `list(set(...))`, whose order Python leaves unspecified. So `SquadDocumentContexts` and `Rerank.Merged` are stated through membership and the absence of duplicates, and only the chosen order is a model decision.
- QuestionTests.WaitForDagCompletion: requires the clock, a finite list of probes, to pass the timeout by the last probe, since a real clock always does.
- QuestionTests.RagTester.RunTest: the Airflow API is an observation fixed in advance. It gives, per question, the trigger's run id or None, the status probes and the collected task values. `trigger_dag`, `get_xcom_value` and `collect_results` are read off it rather than modelled as requests.
- QuestionTests.SelectQuestions: `int(i.strip())` is the `toInt` parameter. The questions file is a list of strings or absent.
- QuestionTests.RagTester.constructor: the results directory and authentication are not modelled.
- ExpertBranch.BranchLogic: `branch_logic` returns a single selected id as the string itself (not a one-element list) when only one branch or neither is enabled. `Select([t])` stands for that string; Airflow's branch operator accepts both forms alike.
- Topology.FlagsOf: each configured flag is taken for its truthiness. Where a DAG passes a flag on (the evaluation stage), the source passes the raw configured value, so a non-bool value such as `1` or `"abc"` behaves differently there than the bool the model passes.
- PodDag.RagasArgs: passes `str()` of the derived bool for each flag. The source passes `str()` of the raw configured value, so `1` reaches the evaluation program as `"1"` and is read as off, where the model gives `"True"`. Likewise the API variant hands the raw value to the service's bool field, where a value like `"abc"` is rejected with 422; the model never produces that rejection.

## Findings

| source | as written | input that shows it | evidently intended | confidence | as-written member | corrected member |
|---|---|---|---|---|---|---|
| dags/k8s_query_dag.py:26-92 | when `config.json` is missing or malformed, the DAG file falls back to default flags but later reads `config_data.get("llm_model", ...)`, and on that path `config_data` was never bound, so the DAG file raises NameError | no `config.json` next to the DAG file | the fallback path loads the DAG with the default flags and the default models | not executed | Topology.MissingConfigFailsToLoad | Topology.LoadSettingsFixed |
| dags/k8s_query_stateful_dag.py:64-88 | `get_user_question` returns the fixed question only when none is configured; for a configured question the rest of the body is commented out, so it returns None and the generation request carries None | `user_question` set to a non-empty string in `config.json` | return the configured question | not executed | Pipeline.ConfiguredQuestionFailsGeneration | Pipeline.FixedQuestionReachesGeneration |
| dags/k8s_query_stateful_dag.py:134-141 | the expert validation stage calls the LLM service without `search_results_types`, so the service's stand-in serves nothing under `expert_retrieval_task` and the validation prompt gets an empty context | `use_expert_retrieval` on, with any expert retrieval result | pass `expert_retrieval_task` as the validation stage's source so that the expert results reach the prompt | not executed | Pipeline.ValidationLosesExpertContext | StatefulDag.ValidationFixedCarriesContext |
| docker/ragas/ragas_run.py:44-46 | the program's stand-in serves the question under `random_question_task`, but the evaluator reads `generate_query_task`, so the question is None and the ground truth is always "No matching question found." | `--user-question` set to a question the QA file holds | serve the question under `generate_query_task` | not executed | RagasRun.AsWrittenLosesQuestion | RagasRun.CorrectedFindsQuestion |
