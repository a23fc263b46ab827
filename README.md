# Agent collaboration gatekeeper, modelled in Dafny

The system routes feature requests between two code-generating agents:
`ui-implementer` builds a feature's UI foundation (`types.ts`, `api.ts` with an
integration-point marker, and `components/`), and `feature-logic-implementer`
then fills in the backend. This model covers four pieces of it:

- **`AgentRouter`** (`router.dfy`, `feature_path.dfy`) decides who handles a request:
  - it classifies the request by keyword;
  - it locates the feature directory, from an explicit path or from four regular
    expressions (`re.search` semantics);
  - it inspects that directory.
  It also does the following:
  - refuses backend work while the foundation is missing;
  - checks an agent's prerequisites and its deliverables;
  - guards file creation and modification;
  - checks that the exported function signatures of `api.ts` survive an edit.
- **`RoutingMetrics`** (`router_metrics.dfy`) holds seven named counters and a
  success rate derived from them.
- **`AgentOrchestrator`** (`orchestrator.dfy`) runs a request through the router.
  It turns the outcome into an `ExecutionResult` and keeps the counters up to date.
- **`MetricsCollector`** (`monitoring.dfy`) holds several things:
  - counters keyed per event kind, agent, request type and error type;
  - routing-decision timings;
  - errors grouped by type;
  - a bounded event history.
  Every store is tied to the full sequence of recorded events, which the class
  keeps as a ghost log. The class invariant states that the stores equal a
  replay of that log. `ReplayAgrees` proves what each store then means. The
  history is the tail of the log.

Supporting modules:

- `text.dfy`: Python's `in`, `startswith`, `endswith` and single-character `replace`.
- `workspace.dfy`: the filesystem as a map from feature directory to snapshot.
- `sequences.dfy`: `xs[-n:]`, which is also the contents of a `deque(maxlen=n)`.
- `wrappers.dfy`: `Option`.

`scenarios.dfy` states the repository's own test examples over the model:
classification, routing, guards, signature checks, the 0.8 success rate, and the
full UI-then-backend workflow.

The filesystem is an input. `process_request` reads it twice: once inside
`route_request` and once inside `verify_prerequisites`. The model therefore
takes two snapshots, `fsAtRoute` and `fsAtVerify`. `ProcessRequest` proves
that the second check never refuses what routing accepted when the two agree.

Where the code and the documented design differ, the model follows the code:

- A UI-only request must also contain `만` ("only"). Without it, a UI request
  falls through to the modify or full-feature rule.
- There is no separate "ambiguous" class. Whatever matches nothing special is a
  full feature.
- A modify request that implies no UI change, on an incomplete foundation, is
  refused with `error:missing_ui_foundation`. It is not sent to the UI agent.
- Routing to the logic agent does not consult the integration-point marker.
  Only `ui-implementer`'s completion check does.
- The signature check only looks at the original functions. Adding a function
  passes (`AddedFunctionsAllowed`).
- No guard exists for deletion. Operations other than `create` and `modify` are
  always permitted (`OtherOperationsPermitted`).
- Counters move only on the paths that call `record_*`. The orchestrator never
  appends to its history and never sets `current_agent`.
- The create guard tests `endswith("api.ts")`. It therefore also refuses, for
  example, `myapi.ts`.

## Model

| member | source | states |
|---|---|---|
| Router.Classify | agent_router.py:108-137 | A request is UI-only exactly when it has a UI word, no backend word, and `만`. It is backend-only exactly when it has a backend word and no UI word. Otherwise it is a modification exactly when it has a modify word, and a full feature in every remaining case. |
| Router.NeedsUiChanges | agent_router.py:203-218 | True exactly when some UI-change keyword occurs in the message. |
| Router.CheckExistingFiles | agent_router.py:182-201 | Each existence flag is the one read from the directory. `ui_complete` is the conjunction of the three. |
| Router.RouteRequest | agent_router.py:55-106 | The result is one of the two agents or the missing-foundation error. The logic agent is chosen only on a found foundation, and the error only on a missing one. UI-only requests always go to the UI agent. A full feature goes to the UI agent exactly when the foundation is missing. Backend-only never goes to the UI agent. A modification goes to the UI agent exactly when it implies UI changes. |
| Router.RouteIgnoresMarker | agent_router.py:71-102 | Changing whether `api.ts` carries the marker never changes the routing decision. |
| Router.VerifyPrerequisites | agent_router.py:220-256 | The agent may run exactly when checks are off, it is not the logic agent, or the foundation is complete. A refusal lists exactly the missing prerequisites, in check order. |
| Router.VerifyUiCompletion | agent_router.py:289-315 | The foundation is complete exactly when types, api, marker and components are all present, which is exactly when the missing list is empty. The list names exactly the lacking deliverables in check order. A missing marker is reported only for an existing `api.ts`. |
| Router.VerifyCompletion | agent_router.py:258-287 | Delivery is accepted exactly when checks are off, the agent is not `ui-implementer`, or the foundation is delivered. A refusal lists exactly what is missing. |
| Router.SameMembersSameList | agent_router.py:237-243 | Two lists in check order with the same members are equal. |
| Router.ListsExactlyIsUnique | agent_router.py:299-315 | The missing lists of the prerequisite and completion checks are determined uniquely by the directory. |
| Router.DeliveredFoundationAdmitsLogic | agent_router.py:220-315 | A foundation that passes `ui-implementer`'s completion check always satisfies the logic agent's prerequisites. |
| Router.BeforeCreateFile | agent_router.py:317-343 | Creation is forbidden exactly when checks are on, the agent is the logic agent, the file exists and its path ends with `api.ts`. The same situation for `types.ts` only warns. A refusal message starts with `FORBIDDEN`. |
| Router.BeforeModifyFile | agent_router.py:345-367 | Modification is forbidden exactly when checks are on, the agent is the logic agent and the separator-normalised path contains a UI directory. The guard never warns. |
| Router.UiAgentNeverForbidden | agent_router.py:317-367 | Neither guard ever stops `ui-implementer`. |
| Router.VerifyApiSignatureUnchanged | agent_router.py:369-402 | Unchanged exactly when checks are off or every original function survives with identical signature text. A reported removal names an original function that is gone. A reported change names one whose text differs. The reported function is the first failing one in `api.ts` order: every original function before it is kept. |
| Router.AddedFunctionsAllowed | agent_router.py:390-402 | Adding a new function to `api.ts` keeps the signatures intact. |
| Router.Assign | agent_router.py:419-422 | `signatures[name] = signature`: the text is updated. A new name goes last in iteration order, and an existing one keeps its place. |
| Router.LabelInjective | agent_router.py:299-315 | The four `missing` entries are distinct strings, so reporting items says what reporting the strings says. |
| Router.SignaturesKeptTransitive | agent_router.py:390-402 | Signatures kept across two successive edits are kept across both together. |
| FeaturePath.RunLength | agent_router.py:157-158 | The greedy run of `[a-z-]` or `\s` from an index: all of it satisfies the class, and the next character does not. |
| FeaturePath.MatchesAt | agent_router.py:156-164 | An alternation matches at an index exactly when one of its words occurs there. `app/([a-z-]+)` matches exactly when `app/` occurs there followed by at least one slug character. `(시간\s*거래)` matches exactly when 시간 occurs there followed by some whitespace and then 거래, so the greedy `\s*` never needs to backtrack. |
| FeaturePath.Group | agent_router.py:165 | `match.group(1)`. For `app/` it is a non-empty run of `[a-z-]` right after the anchor that cannot be extended. For 시간 거래 it is the matched text from 시간 to 거래, with only whitespace in between. For an alternation it is the first word, in pattern order, that occurs at the match. |
| FeaturePath.FeatureName | agent_router.py:168-177 | A name in the map yields its mapped value. Any other name keeps its length, with each space replaced by `-` and every other character kept. A feature name never contains a space. |
| FeaturePath.NoBacktrack | agent_router.py:158 | `\s*` followed by a word that does not start with whitespace matches exactly when the word follows the whole greedy whitespace run. |
| FeaturePath.NoWordNoMatch | agent_router.py:159-164 | An alternation none of whose words occurs in the message matches nowhere in it. |
| FeaturePath.FirstWordAt | agent_router.py:159-160 | The first alternative of `(a\|b\|c)`, in pattern order, that occurs at an index: no earlier alternative occurs there. None when no alternative occurs there. |
| FeaturePath.Search | agent_router.py:163-164 | `re.search`: the leftmost index where the pattern matches, or no index matches. |
| FeaturePath.FirstFeature | agent_router.py:156-166 | If no pattern matches anywhere, no feature is found. A found feature comes from some match. |
| FeaturePath.ExtractFeaturePath | agent_router.py:139-180 | An explicit `current_path` wins. Without it, a message that no pattern matches addresses `<base>/app`. |
| FeaturePath.NoPatternMeansAppRoot | agent_router.py:150-180 | Without `app/`, `시간` or any feature word, the path is `<base>/app`. |
| FeaturePath.AuthWordsSelectAuth | agent_router.py:156-177 | When neither `app/<slug>` nor 시간-거래 matches, any of 로그인, 회원가입, 인증 selects `<base>/app/auth`. |
| FeaturePath.SkipsFirstTwo | agent_router.py:156-166 | When neither of the first two patterns matches, the search goes on with the third. |
| FeaturePath.AuthWordFound | agent_router.py:159-166 | The third pattern finds one of the authentication words. |
| FeaturePath.SkipsUnanchored | agent_router.py:156-163 | The first two patterns find nothing without their anchors. |
| FeaturePath.TimeTradeSelected | agent_router.py:156-177 | Without an `app/<slug>` match, a 시간-거래 match decides the path. Exactly "시간 거래" with one space gives `<base>/app/time-slots`. Any other spacing is kept, with spaces turned into dashes. |
| FeaturePath.ProfileWordsSelected | agent_router.py:156-177 | When none of the first three patterns matches, the leftmost 프로필 or 설정 decides. 프로필 selects `<base>/app/profile` and 설정 selects `<base>/app/settings`. |
| FeaturePath.ProfileWordName | agent_router.py:168-177 | The profile word found at a position is named `profile` if it is 프로필 and `settings` if it is 설정. |
| FeaturePath.ProfileWordFound | agent_router.py:161-166 | The fourth pattern finds 프로필 or 설정. |
| FeaturePath.AppSlugSelectsSlug | agent_router.py:156-177 | An `app/<slug>` mention wins over everything else. It yields a non-empty `[a-z-]` slug, and the directory is `<base>/app/<slug>`. |
| RouterMetrics.BlockCounter | agent_router.py:451-458 | `missing_prerequisites`, `incomplete_ui` and `file_conflicts` select their own blocked counter, and only that one. `total_requests` is never selected. An unknown reason selects none. |
| RouterMetrics.RouteCounters | agent_router.py:443-449 | `total_requests` is always counted. `routed_to_ui` is counted exactly for `ui-implementer`, and `routed_to_backend` exactly for the logic agent. |
| RouterMetrics.Rate | agent_router.py:468-480 | 1.0 with no requests. Never above 1.0. Equal to 1.0 exactly when nothing was blocked. Non-negative exactly when blocks do not outnumber requests. |
| RouterMetrics.RoutingMetrics.constructor | agent_router.py:432-441 | Exactly the seven counters exist, all zero. |
| RouterMetrics.RoutingMetrics.RecordRoute | agent_router.py:443-449 | Raises the agent's route counters by one and leaves the rest unchanged. Keeps routed requests at most total requests. |
| RouterMetrics.RoutingMetrics.RecordBlock | agent_router.py:451-458 | Raises the reason's counter by one. An unknown reason changes nothing. |
| RouterMetrics.RoutingMetrics.RecordSuccess | agent_router.py:460-462 | Raises `successful_collaborations` by one and leaves the rest unchanged. |
| RouterMetrics.RoutingMetrics.GetMetrics | agent_router.py:464-466 | A copy holding exactly the seven counters. |
| RouterMetrics.RoutingMetrics.Blocked | agent_router.py:470-474 | The blocked total, at least the file-conflict count. |
| RouterMetrics.RoutingMetrics.SuccessRate | agent_router.py:468-480 | Never above 1.0. 1.0 with no requests or no blocks. Negative exactly when blocks outnumber a non-zero number of requests. |
| RouterMetrics.BumpedNeverDecreases | agent_router.py:443-462 | Recording never lowers a counter. A counter rises exactly when it was bumped. |
| Orchestrator.RouteOutcomesMarked | main.py:149-154 | Of the routing outcomes, exactly the refusal carries the `error:` prefix. |
| Orchestrator.CreateExecutionPlan | main.py:238-306 | Either agent starts running with no error. Any other name fails with `UnknownAgent`. |
| Orchestrator.AgentOrchestrator.constructor | main.py:85-102 | Fresh zeroed counters, default router configuration, empty history, no current agent or feature path. |
| Orchestrator.AgentOrchestrator.HandleRoutingError | main.py:189-236 | A missing foundation blocks the logic agent and counts a missing-prerequisite block. Any other code fails and changes no counter. |
| Orchestrator.AgentOrchestrator.ProcessRequest | main.py:130-187 | A refused route blocks the logic agent and counts a block, without recording the feature path. An accepted route records the feature path. It is then blocked and counted, or started and counted as routed, exactly as the prerequisites decide. The logic agent only runs on a foundation seen at both reads. With one filesystem, prerequisites never refuse. |
| Orchestrator.AgentOrchestrator.VerifyAgentCompletion | main.py:308-366 | An accepted delivery completes and counts a success. A refused one is blocked and counts an incomplete-UI block. |
| Orchestrator.AgentOrchestrator.CheckFileOperation | main.py:368-396 | An error is returned exactly when the guard forbids, with the guard's message, and exactly then a file-conflict block is counted. |
| Orchestrator.AgentOrchestrator.GetMetrics | main.py:398-412 | The counters, the success rate, and an execution history that is always empty. |
| Orchestrator.FileGuard | main.py:385-390 | A `create` is forbidden exactly when checks are on, the agent is the logic agent, the file exists and its path ends with `api.ts`. A `modify` is forbidden exactly when checks are on, the agent is the logic agent and the normalised path contains a UI directory. Any other operation is never forbidden. A warning is given exactly for a `create` by the logic agent, with checks on, of an existing `types.ts`. A refusal message starts with `FORBIDDEN`. |
| Orchestrator.OtherOperationsPermitted | main.py:385-391 | Operations other than create and modify are never refused. |
| Monitoring.ParseKeyName | monitoring.py:67-193 | Every counter's string name reads back as that counter. |
| Monitoring.KeyNameInjective | monitoring.py:67-193 | Distinct counters are filed under distinct names, so counting per `CounterKey` is counting per string key. |
| Monitoring.Bump | monitoring.py:67-69 | Incrementing a `defaultdict(int)` entry adds the key and raises its count by one. |
| Monitoring.TallyAppend | monitoring.py:96-101 | The totals of a log extended by one event are the totals of the log plus that event's step. |
| Monitoring.RecordCountersCounts | monitoring.py:67-193 | Recording an event raises each counter by the number of times its `record_*` method increments it, and leaves the others unchanged. |
| Monitoring.RecordTimingsAppends | monitoring.py:71-72 | Only a routing decision with a duration appends to `timings`, and only under `routing_decision`. |
| Monitoring.RecordErrorsAppends | monitoring.py:195-202 | Only an error event appends to `errors`, one entry to its own type's list. |
| Monitoring.ErrorTotalIsSumOfTypes | monitoring.py:192-193 | For every log, the number of errors equals the sum of the per-type error lists over any distinct list of types that covers the log's error types. |
| Monitoring.ErrorsOfAppend | monitoring.py:202 | An error event appends exactly one entry to its own type's list and nothing elsewhere. |
| Monitoring.DurationsAppend | monitoring.py:71-72 | Only a routing decision with a duration appends to the timings. |
| Monitoring.TotalsOfAgreeing | monitoring.py:242-250 | Counters that agree with the log's totals spell out exactly those totals. |
| Monitoring.BumpAllCounts | monitoring.py:67-69 | Incrementing a list of keys raises each counter by the number of times it is listed. |
| Monitoring.CountersStep | monitoring.py:53-209 | Each `record_*` moves the fixed counters by exactly the step its event adds to the totals. |
| Monitoring.ErrorCountOfRecord | monitoring.py:192-193 | `error_<type>` rises by one exactly for an error event of that type. |
| Monitoring.ErrorListsStep | monitoring.py:195-202 | Recording keeps the error lists equal to the log's error events grouped by type, with no empty group. |
| Monitoring.TimingsStep | monitoring.py:71-72 | Recording keeps `routing_decision` timings equal to the durations in the log. |
| Monitoring.RecordAgrees | monitoring.py:53-209 | Recording any event keeps every store in agreement with the extended log. |
| Monitoring.ReplayAppend | monitoring.py:53-209 | Replaying a log extended by one event is recording that event after replaying the log. |
| Monitoring.ReplayAgrees | monitoring.py:37-209 | Whatever was recorded, the stores agree with the log. Each fixed counter equals its tally, each `error_<type>` counts its events, each error list holds them in order, and the timings hold the given durations. |
| Monitoring.RateAsWritten | monitoring.py:235-252 | `get_success_rate` as written: 1.0 with no routing decisions, never above 1.0. |
| Monitoring.RateAsWrittenGoesNegative | monitoring.py:235-252 | One routing decision followed by two failed prerequisite checks gives -1.0. |
| Monitoring.ClampedRate | monitoring.py:235-252 | Always within 0.0 to 1.0. It equals the written rate whenever that is non-negative, and 0.0 otherwise. |
| Monitoring.Min | monitoring.py:227 | The smallest duration, which occurs in the list. |
| Monitoring.Max | monitoring.py:228 | The largest duration, which occurs in the list. |
| Monitoring.SumBounds | monitoring.py:226 | The sum lies between count times any lower bound and count times any upper bound. |
| Monitoring.MeanBetween | monitoring.py:226 | The mean lies between any lower and upper bound of the values. |
| Monitoring.Stats | monitoring.py:224-229 | Count is the length. An empty list gives zeros. Min and max occur in the list and bound every duration. The mean is `Mean` of the durations, and it lies between min and max. |
| Monitoring.Mean | monitoring.py:226 | `sum(values) / len(values)`: the mean times the count is the sum of the durations. |
| Monitoring.SumConcat | monitoring.py:226 | The sum of two runs of durations one after the other is the sum of their sums. |
| Monitoring.MetricsCollector.constructor | monitoring.py:30-51 | Empty counters, timings, errors, history and log, with the requested history size. |
| Monitoring.MetricsCollector.Remember | monitoring.py:43-45 | The history stays the last `history_size` recorded events. It never exceeds that size, and the oldest event is dropped first. |
| Monitoring.MetricsCollector.RecordRoutingDecision | monitoring.py:53-80 | Logs the event. The stores become what recording it prescribes, and the invariant is kept. |
| Monitoring.MetricsCollector.RecordPrerequisiteCheck | monitoring.py:82-110 | Logs the event. The stores become what recording it prescribes (failures are also charged to `blocked_<agent>`), and the invariant is kept. |
| Monitoring.MetricsCollector.RecordCompletionVerification | monitoring.py:112-140 | Logs the event. The stores become what recording it prescribes (passes are credited to `successful_<agent>`), and the invariant is kept. |
| Monitoring.MetricsCollector.RecordFileOperation | monitoring.py:142-176 | Logs the event. The stores become what recording it prescribes (refusals count as blocked and as a prevented conflict), and the invariant is kept. |
| Monitoring.MetricsCollector.RecordError | monitoring.py:178-209 | Logs the event. The stores become what recording it prescribes (total, per-type count and per-type list), and the invariant is kept. |
| Monitoring.MetricsCollector.GetSummary | monitoring.py:211-233 | The counters, statistics for every timing key, and the last ten retained events, which are the last `min(10, history_size)` recorded. |
| Monitoring.MetricsCollector.SuccessRate | monitoring.py:235-252 | The corrected rate: within 0.0 to 1.0, and 1.0 with no routing decisions or no blocked outcomes. |
| Monitoring.MetricsCollector.TotalErrorsIsSumOfErrorCounts | monitoring.py:192-193 | `total_errors` equals the sum of the `error_<type>` counters over any distinct list of types that covers every counted type. |
| Monitoring.MetricsCollector.SuccessRateOfLog | monitoring.py:235-252 | The rate the counters give is the rate determined by the recorded events. |
| Monitoring.LastOfLast | monitoring.py:232 | The last ten of the last `n` events are the last `min(n, 10)`. |
| Sequences.Last | monitoring.py:45 | The last `n` elements, or all when there are fewer. |
| Sequences.LastAppend | monitoring.py:74 | Appending to a bounded deque is appending to the whole sequence and keeping its tail. |
| Text.ReplaceChar | agent_router.py:363 | Same length. Every `from` becomes `to`, and everything else is kept. |
| Text.AbsentChar | agent_router.py:125-127 | A keyword with a character absent from the message does not occur in it. |
| Workspace.Inspect | agent_router.py:192-194 | An unrecorded directory has nothing in it. |
| Scenarios.FullFeatureRequest | test_agent_system.py:51-54 | "시간 거래 기능 만들어줘" is a full feature. |
| Scenarios.UiOnlyRequest | test_agent_system.py:56-59 | "로그인 폼 UI만 만들어줘" is UI-only. |
| Scenarios.BackendOnlyRequest | test_agent_system.py:61-64 | "Supabase 쿼리 구현해줘" is backend-only. |
| Scenarios.ModifyExistingRequest | test_agent_system.py:66-69 | "시간 거래 수정 기능 추가해줘" modifies an existing feature. |
| Scenarios.TimeTradeUiRequest | test_agent_system.py:341-346 | "시간 거래 UI 만들어줘" is UI-only. |
| Scenarios.MakeItWorkRequest | test_agent_system.py:428-433 | "이제 실제로 작동하게 해줘" is backend-only. |
| Scenarios.TimeWithoutTradeIsAuth | agent_router.py:156-177 | "시간 로그인" addresses `<base>/app/auth`. 시간 without 거래 is no time-trade match, so the authentication pattern decides. |
| Scenarios.NoTimeTrade | agent_router.py:158 | Without 거래 there is no time-trade match anywhere. |
| Scenarios.SettingsWordSelectsSettings | agent_router.py:156-177 | "설정 바꿔줘" addresses `<base>/app/settings`. |
| Scenarios.FirstRequestRoutesToUi | test_agent_system.py:75-81 | A first sign-up request on an empty workspace goes to `ui-implementer`. |
| Scenarios.BackendWithoutUiBlocked | test_agent_system.py:83-89 | "Supabase 인증 로직 구현해줘" is backend-only, and before any UI exists it is refused. |
| Scenarios.BackendWithUiRoutesToLogic | test_agent_system.py:91-104 | "Supabase 연결해줘" is backend-only. With types, api and components present it goes to the logic agent, even without the marker. |
| Scenarios.PrerequisitesOnEmptyFeature | test_agent_system.py:110-125 | `ui-implementer` may run. The logic agent may not, and is told types, api and components are missing. |
| Scenarios.PrerequisitesOnFoundation | test_agent_system.py:127-139 | The logic agent may run on a complete foundation. |
| Scenarios.CompletionOfFoundations | test_agent_system.py:145-191 | The exact missing lists for the four completion examples, the last one empty. |
| Scenarios.LogicCannotCreateApi | test_agent_system.py:197-205 | The logic agent may not re-create an existing `api.ts`. |
| Scenarios.LogicMayCreateService | test_agent_system.py:207-212 | The logic agent may create a service file. |
| Scenarios.LogicCannotModifyComponent | test_agent_system.py:214-219 | The logic agent may not modify a component. |
| Scenarios.LogicCannotModifyPage | test_agent_system.py:221-226 | The logic agent may not modify `page.tsx`. |
| Scenarios.UiMayModifyComponent | test_agent_system.py:228-233 | `ui-implementer` may modify a component. |
| Scenarios.ImplementedBodyPasses | test_agent_system.py:239-253 | An unchanged signature passes. |
| Scenarios.RewrittenParametersDetected | test_agent_system.py:255-268 | A rewritten parameter list is reported as a changed `createData`. |
| Scenarios.DroppedFunctionDetected | test_agent_system.py:270-286 | A dropped function is reported as the removal of `updateData`. |
| Scenarios.FirstFailureReported | agent_router.py:390-402 | With `createData` rewritten and the later `updateData` dropped, the rewrite of `createData` is reported. |
| Scenarios.EightOfTenSucceed | test_agent_system.py:322-335 | Ten routes, two of them blocked, give a success rate of 0.8. |
| Scenarios.UiRequestRuns | test_agent_system.py:341-346 | The orchestrator starts `ui-implementer` for a UI request. |
| Scenarios.BackendFirstBlocked | test_agent_system.py:435-442 | The orchestrator blocks a backend-first request for want of a UI foundation. |
| Scenarios.IncompleteFoundationBlocked | test_agent_system.py:368-377 | A foundation holding only `types.ts` is blocked as an incomplete delivery. |
| Scenarios.FileOperations | test_agent_system.py:379-404 | Creating a service file is allowed. Modifying a component is refused with a `FORBIDDEN` message. |
| Scenarios.FullFeatureWorkflow | test_agent_system.py:408-433 | A full feature runs the UI agent, its delivery is accepted, and the follow-up backend request runs the logic agent. |

## Left out

- Filesystem reads: a feature directory is reduced to four booleans. The content of `api.ts` matters only through whether it contains the integration-point marker.
- Path handling: paths are strings joined with `/`. `pathlib`'s normalisation and `str(Path)` conversions are not modelled.
- `_extract_function_signatures`: the regular expression that pulls exported signatures out of `api.ts` is not modelled. The signature check takes the resulting dicts as input: names in the order they first appear in `api.ts`, each with its signature text.
- `record_error`'s `context` dict: `ErrorEntry` keeps the type and message only.
- Human-readable text: messages, the `print`ed types.ts warning (modelled as `PermitWithWarning`), logging and timestamps. `ExecutionResult` keeps only agent, status and error code.
- Catch-all `except Exception` branches in `process_request` and `verify_agent_completion`: the modelled operations raise nothing.
- Out of scope: `export_history`, `export_metrics`, `_setup_logging`, `main`, the CLI and HTTP interfaces, `config.py`, `Dashboard` and `AlertSystem`.
- The configuration keys `enforce_ui_first` and `allow_manual_override` are set but never read, so they are not modelled.
- Floating point: rates and durations are exact reals.
- `defaultdict` reads: reading an absent counter in `get_success_rate` inserts it with value 0. The model reads without inserting, so `get_summary` may list fewer zero-valued counters.
- `uptime_seconds` of `get_summary`, because it depends on the clock.
- `MetricsCollector` history size: a natural number that the constructor always takes. The default of 1000 and a negative size, which `deque` rejects, are not modelled.
- FeaturePath.FirstFeature: its contract states only that a found feature comes from a match. Which match wins is stated by `AppSlugSelectsSlug`, `TimeTradeSelected`, `AuthWordsSelectAuth` and `ProfileWordsSelected`, one lemma per pattern.
- FeaturePath.ExtractFeaturePath: its contract covers the explicit-path and no-match cases. The mapped-feature cases are stated by the lemmas above.
- Monitoring.Bump: its contract states only the incremented key. That other keys are unchanged is used through `BumpTwo`/`BumpThree` and the per-kind step lemmas.
- RouterMetrics.RoutingMetrics.Blocked: its contract states only that the total covers the file-conflict count. The rate lemmas use it through `SuccessRate`.
- Monitoring.MetricsCollector.SuccessRate: its contract is the corrected rate (see Findings), not the one the code computes. `RateAsWritten` keeps the code's formula.

## Findings

| source | as written | input that shows it | evidently intended | confidence | as-written member | corrected member |
|---|---|---|---|---|---|---|
| monitoring.py:235-252 | `1.0 - blocked / total`, with `total` counting routing decisions only and `blocked` counting failures of three other kinds of check | one `record_routing_decision`, then two failed `record_prerequisite_check` calls: the rate is -1.0 | a success rate between 0.0 and 1.0, as the method documents | medium; not executed | Monitoring.RateAsWrittenGoesNegative | Monitoring.ClampedRate |
