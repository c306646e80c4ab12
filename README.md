# AI App Builder backend: generation jobs and record rules, in Dafny

This project models the core of the backend of an app-builder service and proves
properties of that model.

Generation jobs are handled by the orchestrator:
- A start request moves a project record into `generating`.
- A background worker then runs a fixed six-stage pipeline: requirements analyst,
  system architect, UI/UX designer, frontend developer, backend developer and DevOps
  engineer. Their nominal durations are 30, 45, 40, 60, 55 and 35 seconds.
- While it runs, the worker writes integer progress.
- It checks for cancellation at every stage boundary and on every poll.
- It stores each stage's artifact.
- It finishes `completed` with its metadata, or `failed` with the exception text.
- A cancel request moves a running record to `cancelled`.

Each stage's artifact comes from the content provider:
- The provider has a fixed fallback chain: Cerebras, then OpenAI, then a mock text.
- A defensive resolver parses the text between the first `{` and the last `}`.
- When parsing gives nothing usable, the stage falls back to a constant default.

Around the orchestrator sit the record rules:
- the `Project` record with its validation, nullable JSON setters and `to_dict`
  projection;
- the project routes: create, get, the whitelisted field merge of update with
  once-only timestamps, delete and the dashboard statistics;
- the API-key routes: validation, one key per service, and key tests that record
  their outcome;
- the chat routes: keyword-routed session titles and quick help, a prompt built from
  the last messages, and the message exchange.

Modules follow the source files:
- `Generation` (`generation.dfy`)
- `AiService` (`ai_service.dfy`)
- `ProjectModel` (`project.dfy`)
- `Projects` (`projects.dfy`)
- `ApiKeys` (`api_keys.dfy`)
- `Chat` (`chat.dfy`)

Three helper modules support them:
- `Wrappers`: `Option`, `Result`, and `Field` for a JSON key that is absent or present.
- `Json`: JSON values, Python truthiness, and an abstract `json.dumps`/`json.loads`
  pair.
- `Text`: `lower`, substring, `find`/`rfind`, `split`/`join`, `title`, and decimal
  rendering. Case mapping and whitespace are ASCII only (see "## Left out").

How the model represents things:
- A `Project` is a class, because the routes and the worker update its fields in
  place.
- The tables are classes that hold maps from id to record.
- API keys, chat sessions and chat messages are values held in those maps.
- The worker is sequential. Clock advances, cancel requests arriving from other
  requests, provider answers, the random score and an injected exception all come
  from an explicit environment `Env`.
- Time is integer milliseconds.

Three behaviours of the code that a reader might expect to be otherwise; the model
follows the code as written:
- The start handler sets `estimated_completion` to five minutes after the start
  (`backend/routes/generation.py:38`), not to the start plus the total stage duration.
- A non-200 status or an exception from OpenAI returns the `openai_error` mock text
  (`backend/services/ai_service.py:283-289`). The chain does not fall through to the
  final mock.
- `extract_features` does not deduplicate. Its labels are pairwise different, so its
  result has no duplicates anyway (`Generation.FeaturesBoundedDistinct`).

## Model

| member | source | states |
|---|---|---|
| Generation.ElapsedValues | backend/routes/generation.py:113-123 | the stages begin at 0, 30, 75, 115, 175 and 230 s, and the durations total 265 s |
| Generation.BoundaryProgress | backend/routes/generation.py:140 | the boundary write lies in 0..100, and the end of the last stage corresponds to 100 |
| Generation.BoundaryValues | backend/routes/generation.py:140 | the boundary writes of a run are 0, 11, 28, 43, 66 and 86 |
| Generation.ProgressCanDecrease | backend/routes/generation.py:164-173 | as written, stage 5 can write 87 in its poll loop, and the next boundary then writes 86 |
| Generation.InStageProgress | backend/routes/generation.py:169-173 | with the stage clock capped, an in-stage write lies between the stage's own boundary write and the next one, hence within 100 |
| Generation.InStageMonotone | backend/routes/generation.py:169-173 | a later clock reading never gives a smaller in-stage write |
| Generation.BuildTimeOfPipeline | backend/routes/generation.py:192 | the build time of the 265 s pipeline renders as `4m 25s` |
| Generation.StageDefaults | backend/routes/generation.py:207-225 | without a provider answer every stage yields its default; the deployment stage always yields the fixed configuration |
| Generation.StageDefaultTruthy | backend/routes/generation.py:147-155 | no stage default is falsy, so the column setter of each of the first three stages always stores a value |
| Generation.ResultsAfter | backend/routes/generation.py:125-132 | `generation_results` always has the six stage slots |
| Generation.ResultsObject | backend/routes/generation.py:125-132 | the results dict holds each stage's artifact under that stage's key |
| Generation.StoreResult | backend/routes/generation.py:146-161 | storing stage n's artifact turns the results of n stages into the results of n+1 |
| Generation.AnyKeyword | backend/routes/generation.py:233 | true exactly when some keyword of the list is a substring of the text |
| Generation.DetermineComplexity | backend/routes/generation.py:227-238 | `complex` iff a complex keyword occurs; `medium` iff none does and a medium keyword occurs; `simple` iff neither occurs |
| Generation.EmailIsComplex | backend/routes/generation.py:230-234 | the test matches inside words, so "Email app" is classed complex (through "ai") |
| Generation.ExtractFeatures | backend/routes/generation.py:240-268 | the loop collects each matching label in table order, falls back to the generic three, and keeps the first six (`FeaturesFor`) |
| Generation.MatchedFromTable | backend/routes/generation.py:261-263 | every collected label belongs to a table entry whose keyword occurs |
| Generation.FeatureLabelsDistinct | backend/routes/generation.py:244-259 | the table's labels are pairwise different, and none is a generic label |
| Generation.MatchedDistinct | backend/routes/generation.py:261-263 | labels collected from a table of distinct labels are pairwise different |
| Generation.MatchedIncludes | backend/routes/generation.py:261-263 | the label of a matching entry k is collected, at a position no greater than k |
| Generation.MatchedLength | backend/routes/generation.py:261-263 | no more labels are collected than the table has entries |
| Generation.FeaturesBoundedDistinct | backend/routes/generation.py:240-268 | the result has one to six labels, with no duplicates |
| Generation.FallbackIffNoKeyword | backend/routes/generation.py:265-266 | the generic three come back iff no keyword of the table occurs (both directions) |
| Generation.FeaturesFromKeywords | backend/routes/generation.py:261-268 | outside the fallback, every label comes from a keyword found in the description |
| Generation.EarlyKeywordIncluded | backend/routes/generation.py:268 | a matching keyword among the first six entries is never cut by the limit |
| Generation.StartOn | backend/routes/generation.py:33-39 | the record enters `generating` with progress 0, the first agent, no error, and an estimate five minutes ahead; no other column changes |
| Generation.StartGeneration | backend/routes/generation.py:14-56 | 400 iff id or description is missing, 404 iff the project is unknown, 409 iff it is already generating (all leave the record unchanged); else 202 after the start commit, with every other column and the id unchanged |
| Generation.Cancel | backend/routes/generation.py:92-97 | 400 and no change unless generating; otherwise `cancelled`, finished now, with no current agent, and no other column changes |
| Generation.CancelGeneration | backend/routes/generation.py:84-106 | 404 iff unknown, 400 iff not generating (nothing changed); else cancelled, finished now, with no agent, and every other column and the id unchanged |
| Generation.Fail | backend/routes/generation.py:199-205 | the worker's handler: `failed`, finished now, the exception text as `error_message`, no current agent |
| Generation.Step | backend/routes/generation.py:199-205 | around each worker action: the clock advances, a pending cancel is applied, and a raised exception ends in the failed state |
| Generation.PollStage | backend/routes/generation.py:163-176 | the poll loop stops on an observed cancel or an exception, or runs for at least the stage's duration; its writes stay nondecreasing, within 0..100, and below the next boundary write |
| Generation.EnterStage | backend/routes/generation.py:134-141 | at a boundary the worker stops if it reads `cancelled`; otherwise it records the stage's agent and the boundary progress, which does not go back |
| Generation.StageWork | backend/routes/generation.py:143-161 | the stage's artifact is computed and stored in its own column (specifications, architecture or design), and no other column changes |
| Generation.CommitCompletion | backend/routes/generation.py:180-197 | the final commit leaves the completed record: progress 100, no agent, the results dict as generated code, and the metadata |
| Generation.CommitStatus | backend/routes/generation.py:183-187 | status `completed`, finished now, progress 100, no agent, and the results dict stored |
| Generation.CommitMetadata | backend/routes/generation.py:189-195 | framework React, the complexity class, `4m 25s`, the drawn score, the fixed tech stack and the extracted features |
| Generation.Finalise | backend/routes/generation.py:180-197 | finalises only if the record was not cancelled; a run that finishes is a completed record |
| Generation.RunStages | backend/routes/generation.py:134-178 | the six stages in order: either a stop state, or all six results in their columns after at least 265 s, with every progress write within 0..100 and nondecreasing |
| Generation.RunGenerationProcess | backend/routes/generation.py:111-205 | the worker ends as a completed record with all artifacts and a score in 85..98, as cancelled, or as failed with the exception text; progress never goes back; with no cancel and no fault it always completes |
| Generation.Generate | backend/routes/generation.py:43-49 | an accepted start launches the worker on the started record; a run that finishes leaves the completed record with all six stage artifacts, progress 100, the metadata and a score in 85..98; with no cancel and no fault it always finishes |
| AiService.MockResponse | backend/services/ai_service.py:305-306 | the mock text begins `Mock ` and has no brace when the task type has none |
| AiService.CallCerebras | backend/services/ai_service.py:258-260 | the Cerebras placeholder always answers brace-free mock text |
| AiService.CallOpenAi | backend/services/ai_service.py:262-289 | the message content on HTTP 200 with content; the `openai_error` mock on any other status, a missing content or an exception |
| AiService.CallAiService | backend/services/ai_service.py:243-256 | Cerebras if its key is set; else OpenAI if its key is set, with the `openai_error` mock when its request does not succeed; else the task's mock text; it never raises, and only OpenAI alone can return non-mock text |
| AiService.BracedSlice | backend/services/ai_service.py:294-297 | a non-empty slice opens with `{` and closes with `}` |
| AiService.ParseJsonResponse | backend/services/ai_service.py:291-303 | a dict is returned unchanged; a non-string or a string lacking either brace gives the default; otherwise the parsed slice, or the default when it does not parse |
| AiService.ParseEnclosed | backend/services/ai_service.py:293-298 | text around a braced body with no brace outside it parses exactly the body |
| AiService.ParseReversed | backend/services/ai_service.py:293-303 | when every `}` precedes the first `{`, the slice is empty and the default is returned |
| AiService.TaskType | backend/services/ai_service.py:13-223 | the task types the stage methods pass are brace-free |
| AiService.DefaultRequirementsKeys | backend/services/ai_service.py:308-342 | the requirements default has exactly its six keys, and `error` is None or the exception text |
| AiService.DefaultArchitectureKeys | backend/services/ai_service.py:343-368 | the architecture default has exactly its four keys, with its `error` |
| AiService.DefaultDesignKeys | backend/services/ai_service.py:369-388 | the design default has exactly `design_system` and `error` |
| AiService.DefaultFrontendCodeKeys | backend/services/ai_service.py:389-398 | the frontend default has exactly its three keys, with its `error` |
| AiService.DefaultBackendCodeKeys | backend/services/ai_service.py:399-407 | the backend default has exactly its three keys, with its `error` |
| AiService.DefaultForShape | backend/services/ai_service.py:308-407 | every stage default is a non-empty (truthy) object carrying its `error` value |
| AiService.RunTask | backend/services/ai_service.py:13-223 | a stage method gives its default with `error` None unless OpenAI alone answers, and then the resolved answer |
| AiService.CerebrasConfiguredGivesDefaults | backend/services/ai_service.py:243-260 | with a Cerebras key every stage yields exactly its default |
| AiService.NoKeysGivesDefaults | backend/services/ai_service.py:291-306 | with no provider key every stage yields exactly its default, because the mock text has no brace |
| AiService.DeploymentConfigShape | backend/services/ai_service.py:225-241 | the deployment configuration has exactly its eight keys and targets Vercel with SSL |
| Json.Stored | backend/models/project.py:63-70 | a setter stores nothing exactly for a falsy value |
| Json.StoredRoundTrip | backend/models/project.py:56-70 | reading back a stored column gives the value, or null for a falsy one |
| ProjectModel.Project.constructor | backend/models/project.py:39-44 | a new row holds the given columns, progress 0 and null for everything unset |
| ProjectModel.Project.Create | backend/models/project.py:39-44 | the constructor fails iff the name or the description is empty; otherwise a fresh row holds the given columns, progress 0, both timestamps at `now` and every other column null |
| ProjectModel.Project.SetGeneratedCode | backend/models/project.py:63-64 | the column becomes null for a falsy value and the dump otherwise |
| ProjectModel.Project.SetSpecifications | backend/models/project.py:66-67 | the same rule for `specifications` |
| ProjectModel.Project.SetArchitecture | backend/models/project.py:69-70 | the same rule for `architecture` |
| ProjectModel.Project.SetDesign | backend/routes/generation.py:155 | the same rule, for the setter the worker calls |
| ProjectModel.Project.SetTechStack | backend/routes/projects.py:53 | the same rule, for the setter create and finalisation call |
| ProjectModel.Project.SetFeatures | backend/routes/projects.py:56 | the same rule, for the setter create and finalisation call |
| ProjectModel.Project.ToDict | backend/models/project.py:46-61 | the projection exists iff its three JSON columns parse; it shows the name, description, status and progress, and null exactly for unset timestamps and agent |
| ProjectModel.Timestamp | backend/models/project.py:52-53 | null exactly for an unset timestamp |
| ProjectModel.ToDictAfterSetters | backend/models/project.py:56-70 | after the setters, `to_dict` gives each stored value back, or null for a falsy one |
| Projects.GetOr | backend/routes/projects.py:48-49 | an absent key gives the default, and a present one (null included) gives its value |
| Projects.NewRow | backend/routes/projects.py:43-56 | fails iff the name or the description is falsy; otherwise a fresh `draft` row whose whole set of columns is the constructor's, with React and medium unless sent, `tech_stack` and `features` stored only when sent, every other column null, and a `to_dict` that succeeds |
| Projects.CreateProject | backend/routes/projects.py:29-69 | 400 iff name or description is missing; 500 iff one of them is falsy; otherwise a new `draft` row under the next id whose whole set of columns is the one `NewRow` states, and no other row changes |
| Projects.GetProject | backend/routes/projects.py:71-82 | 404 iff the id is unknown, 500 iff a JSON column does not parse, else 200 with the record's `to_dict` |
| Projects.Stamps | backend/routes/projects.py:118-122 | `started_at` is set only by a `generating` status when unset, `completed_at` only by a terminal status when unset; neither is ever overwritten |
| Projects.Updated | backend/routes/projects.py:94-124 | each of the seventeen whitelisted keys sent overwrites its column (status included, the JSON columns through their setters), every key left out keeps its column, the stamps follow `Stamps`, and `updated_at` becomes now |
| Projects.EmptyUpdateTouchesOnlyUpdatedAt | backend/routes/projects.py:94-124 | a body without whitelisted keys changes only `updated_at` |
| Projects.UpdateIdempotent | backend/routes/projects.py:94-124 | sending the same body twice gives the same row as once, but for `updated_at` |
| Projects.UpdateProject | backend/routes/projects.py:84-135 | 404 iff the id is unknown, with no change; else the row becomes `Updated` of its old columns and keeps its id |
| Projects.DeleteProject | backend/routes/projects.py:137-152 | 404 iff unknown, with no change; else exactly that row is removed |
| Projects.WithStatus | backend/routes/projects.py:164-167 | exactly the ids whose project has the given status |
| Projects.Stats | backend/routes/projects.py:154-177 | all zero without a user; else the total, the completed count as deployed, the generating count as building, and views of 150 per project plus 500 per deployed one |
| Projects.SubsetCard | backend/routes/projects.py:164-167 | a subset of the projects has no more elements than the table |
| Projects.StatsBounds | backend/routes/projects.py:164-167 | deployed plus building never exceed the total, and views lie between 150 and 650 per project |
| ApiKeys.Upsert | backend/routes/api_keys.py:51-68 | an existing key of the service is overwritten in place, with status `disconnected` and its test results cleared; otherwise a new disconnected key takes the next id; other keys are unchanged |
| ApiKeys.UpsertOnePerService | backend/routes/api_keys.py:51-68 | saving keeps at most one key per service |
| ApiKeys.SaveTwiceOverwrites | backend/routes/api_keys.py:51-60 | a second save of a service overwrites the key the first save made, under the same id |
| ApiKeys.SaveApiKey | backend/routes/api_keys.py:30-76 | 400 iff a field is missing or the service is not one of the seven, with no change; otherwise the demo user exists and the table is upserted, with 201 |
| ApiKeys.DeleteApiKey | backend/routes/api_keys.py:82-97 | 404 iff the id is unknown, with no change; else exactly that key is removed |
| ApiKeys.TestCerebras | backend/routes/api_keys.py:157-165 | succeeds iff the key starts with `csk-`; otherwise reports the format error |
| ApiKeys.TestHttpService | backend/routes/api_keys.py:167-264 | succeeds iff the service answers 200; otherwise reports the status or the exception text |
| ApiKeys.TestServiceConnection | backend/routes/api_keys.py:139-155 | cerebras gets the format check and openai, anthropic, vercel and netlify are probed under their display names; any other service fails with `Unknown service: …`; a success always has no error |
| ApiKeys.SavedButUntestable | backend/routes/api_keys.py:139-152 | supabase and stripe are accepted by save but always fail the test |
| ApiKeys.Tested | backend/routes/api_keys.py:118-126 | the tested service's key becomes connected or error, with the test's error, time and response time; every other key is unchanged |
| ApiKeys.TestedOnePerService | backend/routes/api_keys.py:118-126 | recording a test keeps one key per service |
| ApiKeys.UnknownServiceMarksError | backend/routes/api_keys.py:119-126 | a stored key of an untestable service is marked `error` with the unknown-service message |
| ApiKeys.TestApiKey | backend/routes/api_keys.py:103-134 | 400 iff a field is missing, with no change; otherwise 200 with the test result, recorded on the stored key of that service |
| Chat.SessionTitle | backend/routes/chat.py:259-274 | the first keyword group found (help/how, build/create, deploy, error/problem, api) names the session; with none, its opening words do |
| Chat.OpeningWordsShape | backend/routes/chat.py:273-274 | the opening-words title splits back into the first four words (at most), and ends in `...` iff the message has more |
| Chat.QuickHelpTopic | backend/routes/chat.py:276-295 | each canned answer is chosen iff its phrase occurs and no earlier phrase does |
| Chat.GeneralIffNoPhrase | backend/routes/chat.py:294-295 | the general answer is given iff no topic phrase occurs |
| Chat.Recent | backend/routes/chat.py:186-199 | the window is the suffix of length min(n, count) |
| Chat.RecentIgnoresOlder | backend/routes/chat.py:240 | messages before a full window do not reach it |
| Chat.LinesAppend | backend/routes/chat.py:240-241 | the history lines of two parts are those of the first followed by those of the second |
| Chat.LinesFront | backend/routes/chat.py:240-241 | the history lines read front to back, one line per message |
| Chat.BuildAiChatPrompt | backend/routes/chat.py:224-245 | the loop builds the prompt: the system text, the lines of the last five messages (when there is history), then the user's turn |
| Chat.PromptFrame | backend/routes/chat.py:243 | every prompt opens with the system text and ends with `User: <msg>` and `Assistant:` |
| Chat.PromptWithoutHistory | backend/routes/chat.py:237-243 | with no history there is no history section |
| Chat.PromptIgnoresOlder | backend/routes/chat.py:240 | messages older than the last five do not change the prompt |
| Chat.AiChatResponse | backend/routes/chat.py:247-257 | the provider's text when it is a string, the fixed reply otherwise |
| Chat.ChatReplySources | backend/routes/chat.py:249-254 | without keys the reply is the chat mock, with Cerebras it is the Cerebras mock, and only an OpenAI answer gives anything else |
| Chat.GenerateAiResponse | backend/routes/chat.py:184-213 | the context is the ten newest messages in order, `context_used` is their count (at most 10), and the reply is the provider's |
| Chat.PromptSeesLastFive | backend/routes/chat.py:186-241 | the prompt built from the ten-message context equals the one built from the last five messages |
| Chat.LinesEndWithLast | backend/routes/chat.py:240-241 | the history lines end with the line of their last message |
| Chat.CurrentMessageEndsHistory | backend/routes/chat.py:95-107 | the user message is committed before the history is read, so the history section ends with that message, which the prompt then repeats as the user's turn |
| Chat.Exchanged | backend/routes/chat.py:95-124 | the user message and the reply are appended; the title changes only for a session called `New Chat` with no earlier messages, and it then becomes the session title of the user message |
| Chat.SendChatMessage | backend/routes/chat.py:80-131 | 400 iff the content is missing, 404 iff the session is unknown, both with no change; otherwise the exchange is stored and the reply comes from the history that already holds the user message |
| Text.Find | backend/services/ai_service.py:294 | the first index of the character, or -1 exactly when it is absent |
| Text.RFind | backend/services/ai_service.py:295 | the last index of the character, or -1 exactly when it is absent |
| Text.Contains | backend/routes/generation.py:233 | true iff the substring occurs at some position |
| Text.WordsOfJoin | backend/routes/chat.py:273-274 | splitting single-spaced words gives the words back |

## Left out

- Threads, the daemon flag and all concurrency. The worker is one sequential procedure. A PUT or DELETE arriving during a run, and two workers on one record, are outside the model; only a cancel request between two worker actions is modelled.
- `time.time`, `time.sleep` and `datetime.utcnow`. They become the clock advances of `Env.delay`. Timestamps are integer milliseconds, and `isoformat` renders a number.
- `random.randint(85, 98)`. It becomes `Env.score`, which is required to lie in 85..98.
- HTTP calls to OpenAI, Anthropic, Vercel and Netlify. The answer each would give is the `HttpOutcome` parameter.
- The JSON grammar. `json.dumps`/`json.loads` are an abstract codec. Non-JSON values (floats, datetimes) are not modelled.
- The prompt texts of the stage methods and the chat system text. The stage prompts carry no behaviour, and the chat system text is a parameter.
- The quick-help answers. They are named by topic, and their texts, like the routes' response messages and `print` logging, are not modelled.
- The database session, commits and rollbacks. The tables are maps written through at once.
- The `except` branches that answer 500 on a database error, and the 500 on a PUT with a null body. Neither is modelled.
- The ORM's `onupdate` refresh of `updated_at` on every commit (`backend/models/project.py:37`). The model writes `updated_at` only where a route assigns it.
- The listing routes, the generation status reader, and chat session creation, listing and deletion. These are not part of this model.
- The user behind every record. It is the single demo row the routes create on demand (`hasUser`). Per-user filtering is not modelled.
- `User`, `ApiKey`, `ChatSession` and `ChatMessage` are not part of this model's sources. They are minimal records holding the columns the routes touch.
- Text.Lower, Text.Title, Text.Words: case mapping is ASCII only, and `split()` splits only on ASCII whitespace (0x09 to 0x0D, 0x1C to 0x1F and space). Python maps non-ASCII letters as well (`"İ".lower()` is `"i̇"`, so `determine_complexity("DETAİL")` finds "ai") and splits on non-ASCII spaces such as U+00A0 and U+3000; for text with such characters `DetermineComplexity`, `FeaturesFor`, `SessionTitle`, `QuickHelpTopic` and the prompt lines may differ from the source. The model has no Unicode tables.
- Generation.StartRequest, Projects.CreateRequest, Projects.UpdateRequest, ApiKeys.SaveRequest and the `content` of Chat.SendChatMessage: each key has one type, so a JSON `null` or a value of another type is not modelled where the source only tests that the key is present. For example, `{"project_id": 1, "description": null}` is accepted with 202 (`backend/routes/generation.py:19`); the worker runs all stages and, at finalisation, `determine_complexity(None)` raises, so the record ends `failed` after progress 100, `generated_code` and the framework were already assigned. A non-string chat `content` sent to a new `New Chat` session likewise makes `generate_session_title` raise, and the route answers 500 through its AI-error branch (`backend/routes/chat.py:133-140`). Neither path is in the model. (`CreateRequest` and `UpdateRequest` do carry `null` for the string-or-null keys.)
- The chat message metadata. Only `context_used` is kept.
- Messages with equal `created_at`. They are taken in creation order.
- The constructor signature in `backend/models/project.py:39`. It takes only name, description and status, while the routes also pass framework, complexity and a user, and the class shown (`backend/models/project.py:5-37`) has no `user_id` column. As written, `create_project` therefore raises `TypeError` at `backend/routes/projects.py:43-50` and answers 500 for every request that has both keys, and once a user exists `get_project_stats` answers 500 at its first `filter_by(user_id=…)` (`backend/routes/projects.py:163`). The model follows the schema the routes use: `Project.Create` takes framework and complexity, and `Projects.CreateProject` and `Projects.Stats` assume every row belongs to the one user.
- The three setters the class does not define (`set_design`, `set_tech_stack`, `set_features`). They follow the rule of the other three. The `AttributeError` path that calling them would take is not modelled.
- Projects.Updated: a JSON null sent for `status` keeps the old status. The column is nullable, and the backend would store the null.
- Generation.RunGenerationProcess: it does not restate which stage columns are set; `Generation.RunStages` states that.
- The unreachable `except` branches. `simulate_agent_work` has a fallback for an unknown agent and an `except` branch, and each stage method has an `except` branch that returns its default with `error` set to the exception text. The stage table holds only the six known agents and no callee raises, so none of these branches can run, and the model leaves them out.

## Findings

| source | as written | input that shows it | evidently intended | confidence | as-written member | corrected member |
|---|---|---|---|---|---|---|
| backend/routes/generation.py:164-173 | `agent_elapsed` is read from the clock again after the loop test, so it can exceed the stage's duration, and the in-stage progress can pass the next boundary's value | stage 5 (55 s): the loop test reads 54.9 s, the status query takes 0.7 s, and the body writes 87 %; the next boundary then writes 86 % | cap `agent_elapsed` at the stage's duration, so progress never goes back | not executed | Generation.ProgressCanDecrease | Generation.InStageProgress |

`Generation.ProgressCanDecrease` evaluates the as-written formula `Generation.InStageProgressAsWritten`. The worker uses the corrected `Generation.InStageProgress`. `Generation.InStageMonotone` and `Generation.RunGenerationProcess` prove that its progress writes never decrease.
