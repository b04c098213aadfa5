# RAiDesk session engine in Dafny

RAiDesk is a chat assistant that walks a user from a medical-device concept to a
regulatory plan. The user gives a concept. The assistant classifies it as a device,
confirms a product category, and derives the intended purpose and the mechanism of action.
It then proposes four plans (fastest, normal, conservative, innovative), which the user can
refine and finally confirm. Along the way every milestone is recorded as a node of a
flowchart, and the session is persisted in the browser's storage.

This project models the engine behind that conversation and proves what it promises:

- `AppStore` (store/useAppStore.ts): the session store as a class whose actions replace
  the session. Each action is proved equal to a pure function on the session, and the
  persisted copy is kept equal to the current session. The flowchart is always a chain.
- `Chat` (components/chat/ChatInterface.tsx): the keyword tests, the step machine of
  `handleSend` as a method on the store, the same handler as a pure function `Respond`,
  an independent table of steps it is proved against, and the greeting effect.
- `PlanLayout` (components/plans/PlanLayout.tsx): the selected-plan lookup, confirmation
  and refinement with replacement by id.
- `Types` (types/index.ts): the data model.
- `Errors` (lib/api/errors.ts): the error classes and the ordered normalisation of
  transport errors.
- `ApiClient` and `Endpoints` (lib/api/client.ts, lib/api/endpoints.ts): mock-mode
  selection, the fixture answers, the mock refinement, URL building.
- `LocalStorage`, `SqlAdapter`, `StorageFactory` (lib/storage/*): the browser adapter over
  a string map with a record per session and an index of ids, the stub SQL adapter, the
  factory.
- `FlowchartPanel` (components/panels/FlowchartPanel.tsx): the Mermaid text built from
  nodes and edges.
- `ProgressBar` (components/panels/ProgressBar.tsx): what each step entry shows.
- `DummyData` (lib/mock/dummyData.ts): the fixtures, with the per-tier timelines.
- `Strings` and `Wrappers`: the JavaScript string operations the source relies on
  (`includes`, `toLowerCase`, `trim`, number printing) and Option/Result types.

Environment inputs are parameters:

- The clock is a `now: nat` argument. All `Date.now()` and `new Date()` calls within one
  synchronous action read the same value.
- `uuidv4()` is a counter in the store: the k-th id is `Uuid(k)`, and distinct k give
  distinct ids.
- `process.env` values are `Option<string>` arguments.
- The backend behind axios is a `Backend` value: for each request it holds the response
  body, or nothing when the call fails.
- JSON is a `Codec` (encode and decode) that is required to read back what it writes.
- The fixtures lib/api/client.ts imports are a `Fixtures` value held by the client object
  (`MockModeSwitch.mocks`), which its constructor sets to the fixtures of
  lib/mock/dummyData.ts. Each call reads them from the `Api` value it is given, together
  with the mock switch and the backend.

Where the written design and the code differ, the model follows the code:

- CONCEPT_INPUT always classifies and moves on; there is no re-prompt for an unclear
  concept.
- `selectPlan` does not change the step; the plan screen's confirmation does.
- A change request at PLAN_GENERATION gets an informational reply only.
- There is no separate "unknown error" class: the fallback is the generic `ApiError`.
- The client has no retry, back-off, cancellation, request ids or health operations.
  lib/api/index.ts re-exports a `getBaseUrl` that lib/api/endpoints.ts does not define.

## Model

| member | source | states |
|---|---|---|
| Types.StepValue | types/index.ts:2-11 | every step has an enum value below 8 |
| Types.StepOfValue | types/index.ts:2-11 | exactly the values 0 to 7 name a step, and the step named has that value |
| Types.StepValueRoundTrip | types/index.ts:2-11 | reading a step's value back gives the step, so the numbering is one-to-one |
| Types.TierValuesDistinct | types/index.ts:49-54 | the four plan tiers have four different string values |
| Strings.NatToString | store/useAppStore.ts:92 | a printed number is a non-empty string of digits, one digit exactly below 10 |
| Strings.ParseNatToString | store/useAppStore.ts:92 | reading back a printed number gives the number |
| Strings.NatToStringInjective | store/useAppStore.ts:92 | distinct numbers print differently |
| Strings.ContainsIff | components/chat/ChatInterface.tsx:46-57 | `includes` holds exactly when the keyword occurs at some index of the text |
| Strings.ToLower | components/chat/ChatInterface.tsx:47 | lower-casing keeps the length and maps each upper-case ASCII letter to its lower-case letter, leaving other characters alone |
| Strings.Trim | components/chat/ChatInterface.tsx:47 | the trimmed text is the text without its leading and trailing whitespace, and starts and ends with a non-whitespace character |
| Strings.ContainsTrim | components/chat/ChatInterface.tsx:46-57 | trimming never changes whether a keyword without whitespace occurs |
| Errors.ConnectionError | lib/api/errors.ts:17-23 | connection errors carry status 0 and the default message when none is given |
| Errors.ValidationError | lib/api/errors.ts:25-31 | validation errors carry status 400, the message and the response details |
| Errors.ServerError | lib/api/errors.ts:33-39 | server errors carry status 500 unless another is given, and a default message |
| Errors.TimeoutError | lib/api/errors.ts:41-47 | timeout errors carry status 408 and a default message |
| Errors.NotFoundError | lib/api/errors.ts:49-55 | not-found errors carry status 404 and a default message |
| Errors.ResponseMessage | lib/api/errors.ts:71 | the message is the response's `detail` when non-empty, else its `error` when non-empty, else the transport message |
| Errors.ParseApiError | lib/api/errors.ts:60-91 | connection codes win, then timeout codes, then the response status, then a generic error without status |
| Errors.ParseApiErrorKind | lib/api/errors.ts:60-91 | the kind is decided by the code when it is a connection or timeout code, otherwise by the status (400, 404, 408, 500/502/503, anything else generic), otherwise generic |
| Errors.ParseApiErrorStatus | lib/api/errors.ts:60-91 | a connection error has status 0 exactly when a connection code decided it; validation errors carry 400 and the response details, not-found 404, timeout 408, server errors one of 500, 502 and 503; only a generic error may lack a status, and only validation and generic errors carry details |
| Endpoints.ApiEndpoints | lib/api/endpoints.ts:1-6 | four distinct endpoint paths, each under `/api/` |
| Endpoints.BaseUrl | lib/api/endpoints.ts:9 | the configured base URL, or the default when it is unset or empty |
| Endpoints.GetApiUrl | lib/api/endpoints.ts:8-11 | the URL is the base immediately followed by the endpoint |
| Endpoints.GetApiUrlInjective | lib/api/endpoints.ts:10 | for one base, distinct endpoints give distinct URLs |
| ApiClient.MockModeSwitch.constructor | lib/api/client.ts:12-31 | no getter is registered, the environment flag is read, and the fixtures answered in mock mode are the imported ones |
| ApiClient.MockModeSwitch.SetMockModeGetter | lib/api/client.ts:22-24 | the registered getter is replaced |
| ApiClient.MockModeSwitch.ShouldUseMock | lib/api/client.ts:26-31 | a registered getter decides, otherwise the environment flag |
| ApiClient.RegisteredGetterDecides | lib/api/client.ts:26-31 | once a getter is registered the environment no longer matters |
| ApiClient.OperationUrlsDistinct | lib/api/endpoints.ts:1-11 | the four operations post to four different URLs |
| ApiClient.ClassifyDevice | lib/api/client.ts:51-72 | mock mode returns the fixtures whatever the input; otherwise the backend's answer, or one fixed error when the call fails |
| ApiClient.GeneratePurposeMechanism | lib/api/client.ts:77-96 | mock mode returns the fixture; otherwise the backend's answer, or one fixed error |
| ApiClient.GeneratePlans | lib/api/client.ts:101-121 | mock mode returns the four fixture plans; otherwise the backend's answer, or one fixed error |
| ApiClient.MockIgnoresRequestAndBackend | lib/api/client.ts:51-141 | in mock mode neither the request nor the backend affects an answer, except that a refinement depends on the plan id and the modifications, and only a refinement can fail |
| ApiClient.FindPlan | lib/api/client.ts:130 | a plan is found exactly when some plan has the id, and the plan found is one of them with that id |
| ApiClient.MockRefine | lib/api/client.ts:127-141 | the mock refinement fails with 'Plan not found' exactly when no fixture has the id; otherwise it is the first fixture with that id, with only the description changed |
| ApiClient.RefinePlan | lib/api/client.ts:126-153 | mock mode refines the fixture; otherwise the backend's answer, or one fixed error |
| ApiClient.MockFixturesPlanIds | lib/api/client.ts:12-17 | the imported fixture plans carry the four fixture ids in order |
| ApiClient.MockRefineFound | lib/api/client.ts:130-139 | a fixture id finds its fixture and refines it |
| ApiClient.MockRefineMissing | lib/api/client.ts:130-133 | any other id fails with 'Plan not found' |
| ApiClient.MockRefineMeaning | lib/api/client.ts:127-141 | in mock mode refinement succeeds exactly for the four fixture ids whatever the backend, appends the note to the fixture's description and starts from the fixture each time |
| DummyData.BaseCommonStandardsTimeline | lib/mock/dummyData.ts:40-62 | three common-standards phases for every tier |
| DummyData.CommonStandardsTimeline | lib/mock/dummyData.ts:40-74 | three phases plus the innovative-designation phase exactly for the innovative tier, every dependency naming an earlier phase |
| DummyData.CreateCommonStandardsTimeline | lib/mock/dummyData.ts:40-74 | the method that pushes the fourth phase builds exactly that timeline |
| DummyData.PerformanceTimeline | lib/mock/dummyData.ts:76-100 | three phases whatever the tier, dependencies earlier |
| DummyData.WeeksOfWeeks | lib/mock/dummyData.ts:45 | a duration written as a number of weeks reads back as that number |
| DummyData.CommonStandardsDurations | lib/mock/dummyData.ts:45-58 | each common-standards phase is written as the tier table's number of weeks |
| DummyData.PerformanceDurations | lib/mock/dummyData.ts:76-100 | each performance phase is written as the tier table's number of weeks |
| DummyData.CommonStandardsWeeks | lib/mock/dummyData.ts:45-58 | the durations read back as 2/8/4, 4/12/6, 6/16/8 and 3/10/5 weeks by tier, and the extra innovative phase takes 4 weeks |
| DummyData.PerformanceWeeks | lib/mock/dummyData.ts:76-100 | the performance durations read back as the tier table gives them |
| DummyData.TierWeeksOrdered | lib/mock/dummyData.ts:40-100 | observed of the fixture tables, not promised by the source: ranking innovative between fastest and normal, a faster tier never takes longer than a slower one in any shared phase |
| DummyData.MockPlanIdsDistinct | lib/mock/dummyData.ts:104-218 | the four fixture ids are distinct |
| DummyData.MockPlans | lib/mock/dummyData.ts:102-263 | four plans carrying the fixture ids, one per tier in tier order |
| DummyData.MockPlansTimelines | lib/mock/dummyData.ts:102-263 | each plan carries the timelines built for its own tier |
| LocalStorage.SessionKeyNotListKey | lib/storage/localStorage.ts:3-4 | no record key is the index key |
| LocalStorage.SessionKeyInjective | lib/storage/localStorage.ts:9 | distinct ids have distinct record keys |
| LocalStorage.Without | lib/storage/localStorage.ts:65-67 | filtering removes exactly the id, keeps the others, and keeps a list free of duplicates |
| LocalStorage.ReadFallbacks | lib/storage/localStorage.ts:34-57 | a missing or unparsable index lists nothing, and a missing or unparsable record loads nothing |
| LocalStorage.SaveThenLoad | lib/storage/localStorage.ts:7-52 | after a save the session loads back with `updatedAt` set to the time of saving, every other session loads as before, and the id is appended to the index only when it was not listed |
| LocalStorage.DeleteThenLoad | lib/storage/localStorage.ts:59-67 | after a delete the session no longer loads and only its id leaves the index, the others keeping their order |
| LocalStorage.SaveKeepsConsistent | lib/storage/localStorage.ts:22-27 | a save keeps the index free of duplicates and in agreement with the records |
| LocalStorage.DeleteKeepsConsistent | lib/storage/localStorage.ts:59-67 | a delete keeps the index free of duplicates and in agreement with the records |
| LocalStorage.LocalStorageAdapter.constructor | lib/storage/localStorage.ts:6 | the adapter starts on the given storage contents |
| LocalStorage.LocalStorageAdapter.BeginSave | lib/storage/localStorage.ts:7-25 | the record is written and the pending index write computed from the index read |
| LocalStorage.LocalStorageAdapter.WriteIndex | lib/storage/localStorage.ts:26 | the pending index write is performed |
| LocalStorage.LocalStorageAdapter.SaveSession | lib/storage/localStorage.ts:7-32 | a refused write fails with the one generic error and changes nothing; otherwise the storage is the stamped record plus the index with the id added once |
| LocalStorage.LocalStorageAdapter.BeginDelete | lib/storage/localStorage.ts:59-66 | the record is removed and the pending filtered index computed |
| LocalStorage.LocalStorageAdapter.DeleteSession | lib/storage/localStorage.ts:59-72 | the record and exactly that id are removed, or the one generic error when the index write is refused |
| SqlAdapter.SQLAdapter.constructor | lib/storage/sqlAdapter.ts:11-13 | the connection string is the argument, else the environment value, else empty |
| SqlAdapter.SQLAdapter.SaveSession | lib/storage/sqlAdapter.ts:15-26 | saving always fails |
| SqlAdapter.SQLAdapter.LoadSession | lib/storage/sqlAdapter.ts:28-38 | loading finds nothing |
| SqlAdapter.SQLAdapter.DeleteSession | lib/storage/sqlAdapter.ts:40-48 | deleting succeeds and does nothing |
| SqlAdapter.SQLAdapter.ListSessions | lib/storage/sqlAdapter.ts:50-60 | listing gives no ids |
| StorageFactory.StorageTypeChoice | lib/storage/index.ts:10 | an explicit type wins over the environment, which wins over 'localStorage' |
| StorageFactory.CreateStorageAdapter | lib/storage/index.ts:9-19 | exactly the name 'sql' gives the SQL adapter; every other name gives the browser adapter on the current storage |
| AppStore.UuidInjective | store/useAppStore.ts:72 | distinct counter values give distinct message and session ids |
| AppStore.InitialSession | store/useAppStore.ts:20-31 | a new session is at GREETING with no messages, nodes, edges or results, the three flags off and both timestamps now |
| AppStore.ApplyPatch | store/useAppStore.ts:52-64 | an update stamps `updatedAt`, and an empty update changes nothing else |
| AppStore.PatchesCompose | store/useAppStore.ts:52-64 | two updates in a row are one update with the merged fields, the later winning |
| AppStore.PatchIdempotent | store/useAppStore.ts:52-64 | repeating an update at the same time changes nothing more |
| AppStore.NodeIdInjective | store/useAppStore.ts:92-156 | two milestone nodes share an id exactly when they are the same milestone at the same clock reading |
| AppStore.WithNode | store/useAppStore.ts:190-206 | the node is appended, an edge from the previous last node is added exactly when there was one, and nothing else changes |
| AppStore.WithNodeKeepsChain | store/useAppStore.ts:190-206 | adding a node keeps one unlabelled edge from each node to the next and no other edge |
| AppStore.WithClassification | store/useAppStore.ts:84-98 | the classification is recorded and one node appended: a decision at DEVICE_CLASSIFICATION labelled yes or no for a medical device, carrying the classification; only the nodes, edges and `updatedAt` change besides |
| AppStore.WithCategory | store/useAppStore.ts:100-114 | the category is recorded and one node appended: a process at PRODUCT_CATEGORY labelled with the category name, carrying the category; only the nodes, edges and `updatedAt` change besides |
| AppStore.WithPurposeMechanism | store/useAppStore.ts:116-130 | the purpose and mechanism are recorded and one node appended: a process at PURPOSE_MECHANISM with the fixed label, carrying them; only the nodes, edges and `updatedAt` change besides |
| AppStore.WithPlans | store/useAppStore.ts:132-146 | the plans are recorded and one node appended: a process at PLAN_GENERATION whose label and data carry the number of plans; only the nodes, edges and `updatedAt` change besides |
| AppStore.WithSelectedPlan | store/useAppStore.ts:148-162 | the plan is selected and one node appended: a decision at PLAN_REVIEW labelled with the plan title, carrying the plan; the step and everything but the nodes, edges and `updatedAt` are left alone |
| AppStore.MilestonesKeepChain | store/useAppStore.ts:84-162 | each of the five milestone setters adds exactly one node (decision, process, process, process, decision, at DEVICE_CLASSIFICATION, PRODUCT_CATEGORY, PURPOSE_MECHANISM, PLAN_GENERATION, PLAN_REVIEW), keeps the chain, and leaves the step, the messages, the session id, `createdAt` and the flags alone |
| AppStore.ToggleTwiceRestores | store/useAppStore.ts:164-176 | toggling a panel twice restores it |
| AppStore.ResetAsWrittenKeepsDeletedId | store/useAppStore.ts:182-188 | as written, a reset leaves the deleted id in the index although its record is gone |
| AppStore.ResetKeepsConsistent | store/useAppStore.ts:182-188 | with each storage call finishing before the next, a reset drops the old id, lists and stores the new session, and keeps the index in agreement |
| LocalStorage.SaveOverSave | lib/storage/localStorage.ts:7-32 | saving a session over an earlier save of the same id leaves what the later save alone would leave |
| AppStore.Store.constructor | store/useAppStore.ts:33-36 | no session, and mock mode exactly when the environment flag is 'true' |
| AppStore.Store.Save | store/useAppStore.ts:63 | an accepted save stores the stamped session; a refused one changes nothing |
| AppStore.Store.SaveCurrent | store/useAppStore.ts:49 | saving the current session makes it the persisted one; storage ends as the old contents with it saved over them, or unchanged when writes are refused |
| AppStore.Store.UpdateSession | store/useAppStore.ts:52-64 | nothing without a session; otherwise the session is the patched one; browser storage ends as the old contents with the new session saved over them, or unchanged without a session or when writes are refused |
| AppStore.Store.AddMessage | store/useAppStore.ts:66-78 | one message is appended under the next id and at the current time, earlier messages unchanged; browser storage ends as the old contents with the new session saved over them, or unchanged without a session or when writes are refused |
| AppStore.Store.SetStep | store/useAppStore.ts:80-82 | only the step and `updatedAt` change; browser storage ends as the old contents with the new session saved over them, or unchanged without a session or when writes are refused |
| AppStore.Store.SetLoading | store/useAppStore.ts:178-180 | only the loading flag and `updatedAt` change; browser storage ends as the old contents with the new session saved over them, or unchanged without a session or when writes are refused |
| AppStore.Store.AddFlowchartEdge | store/useAppStore.ts:208-214 | the edge is appended; browser storage ends as the old contents with the new session saved over them, or unchanged without a session or when writes are refused |
| AppStore.Store.AddFlowchartNode | store/useAppStore.ts:190-206 | the node is appended and linked to the previous last node; its two saves leave storage as one save of the final session would, or unchanged without a session or when writes are refused |
| AppStore.Store.SetClassification | store/useAppStore.ts:84-98 | the classification and its decision node are recorded; its successive saves leave storage as one save of the final session would, or unchanged without a session or when writes are refused |
| AppStore.Store.SetCategory | store/useAppStore.ts:100-114 | the category and its process node are recorded; its successive saves leave storage as one save of the final session would, or unchanged without a session or when writes are refused |
| AppStore.Store.SetPurposeMechanism | store/useAppStore.ts:116-130 | the purpose and mechanism and their process node are recorded; its successive saves leave storage as one save of the final session would, or unchanged without a session or when writes are refused |
| AppStore.Store.SetPlans | store/useAppStore.ts:132-146 | the plans and their process node are recorded; its successive saves leave storage as one save of the final session would, or unchanged without a session or when writes are refused |
| AppStore.Store.SelectPlan | store/useAppStore.ts:148-162 | the selection and its decision node are recorded, the step unchanged; its successive saves leave storage as one save of the final session would, or unchanged without a session or when writes are refused |
| AppStore.Store.ToggleSummary | store/useAppStore.ts:164-169 | only the summary flag flips; browser storage ends as the old contents with the new session saved over them, or unchanged without a session or when writes are refused |
| AppStore.Store.ToggleFlowchart | store/useAppStore.ts:171-176 | only the flowchart flag flips; browser storage ends as the old contents with the new session saved over them, or unchanged without a session or when writes are refused |
| AppStore.Store.InitSession | store/useAppStore.ts:46-50 | a new initial session under the next id replaces the current one; storage ends with it saved over the old contents, or unchanged when writes are refused |
| AppStore.Store.Delete | store/useAppStore.ts:185 | the session's record and id leave the storage |
| AppStore.Store.ResetSession | store/useAppStore.ts:182-188 | the old session is deleted from storage and a new initial session is installed and saved; when writes are refused only the old record is removed |
| AppStore.Store.ToggleMockMode | store/useAppStore.ts:38-44 | the mock flag flips and a new initial session is installed; in the browser adapter the old record and id leave the storage and the new session is saved, as a reset does, and when writes are refused only the old record is removed |
| Chat.SomeKeyword | components/chat/ChatInterface.tsx:46-57 | the test holds exactly when some keyword occurs in the text |
| Chat.KeywordsAreWords | components/chat/ChatInterface.tsx:47-56 | no keyword is empty or holds whitespace |
| Chat.KeywordTestsIgnoreTrim | components/chat/ChatInterface.tsx:46-57 | each test holds exactly when the lower-cased message contains one of its keywords, trimmed or not |
| Chat.Perform | lib/api/client.ts:51-153 | the client's reply is a refusal or a response of the kind the request asks for |
| Chat.Started | components/chat/ChatInterface.tsx:63-68 | the user's message is appended under the next id and loading is on |
| Chat.ConceptFollowsTable | components/chat/ChatInterface.tsx:75-93 | at CONCEPT_INPUT a classification adds one reply and one milestone and moves to DEVICE_CLASSIFICATION whatever the words |
| Chat.ClassificationFollowsTable | components/chat/ChatInterface.tsx:95-117 | at DEVICE_CLASSIFICATION confirmation moves on, a change request goes back to the concept, anything else stays; one reply and no request in each case |
| Chat.CategoryFollowsTable | components/chat/ChatInterface.tsx:119-158 | at PRODUCT_CATEGORY confirmation with a classification requests the purpose, records one or two milestones and moves on; otherwise back or stay with one reply |
| Chat.PurposeFollowsTable | components/chat/ChatInterface.tsx:160-198 | at PURPOSE_MECHANISM confirmation with all results gives two replies, the plans and PLAN_GENERATION; confirmation with a result missing does nothing |
| Chat.PlansFollowTable | components/chat/ChatInterface.tsx:200-245 | at the plan steps confirmation and change requests get guidance, regeneration (with all results) re-requests the plans, a restart goes back to the concept |
| Chat.BranchFollowsTable | components/chat/ChatInterface.tsx:74-252 | a branch whose request succeeds ends as the step table says |
| Chat.BranchRaises | components/chat/ChatInterface.tsx:74-252 | a branch whose request is refused ends where it started, after its notice if it sent one |
| Chat.BranchWithoutCall | components/chat/ChatInterface.tsx:74-252 | a branch that sends no request ends the same whatever reply it is handed |
| Chat.RespondByBranch | components/chat/ChatInterface.tsx:59-262 | the handler is the step's branch taken from the started turn with the client's reply, followed by the catch and finally |
| Chat.ReplyToSucceedsOrFails | components/chat/ChatInterface.tsx:70-252 | the reply a message gets is either a refusal or the response its request asks for |
| Chat.ResumeFollowsTable | components/chat/ChatInterface.tsx:59-262 | given a successful reply the message moves the conversation as the table says |
| Chat.ResumeRaises | components/chat/ChatInterface.tsx:253-261 | given a refusal the results stay, one apology follows, loading is off |
| Chat.RaisesAfterNotice | components/chat/ChatInterface.tsx:166-184 | a refused plans request leaves the user's message, the notice and one apology |
| Chat.RaisesAtOnce | components/chat/ChatInterface.tsx:253-261 | any other refused request leaves the user's message and one apology |
| Chat.FinishRaised | components/chat/ChatInterface.tsx:253-261 | on a rejection the catch adds one apology at the time of the rejection and the finally turns loading off |
| Chat.RespondFollowsTable | components/chat/ChatInterface.tsx:59-262 | when no request fails the step, the number of replies and of milestones are the table's, and a request is sent exactly when the table says |
| Chat.CallsAsTable | components/chat/ChatInterface.tsx:74-252 | the table calls for a request exactly when the handler sends one |
| Chat.ApologyOnFailure | components/chat/ChatInterface.tsx:253-261 | when the request fails, step, results and flowchart are unchanged and only the user's message, the notice if any and one apology are added |
| Chat.NoCallNoBackend | components/chat/ChatInterface.tsx:59-262 | a message that sends no request does not depend on the client or the reply time |
| Chat.MessageGrows | store/useAppStore.ts:66-78 | a message extends the conversation under the next id |
| Chat.MilestoneGrows | store/useAppStore.ts:84-162 | recording a result with its milestone leaves the messages alone and keeps the chain |
| Chat.ConceptGrows | components/chat/ChatInterface.tsx:75-93 | the concept branch only grows the conversation |
| Chat.SayGoGrows | components/chat/ChatInterface.tsx:97-116 | a reply and a step change only grow the conversation |
| Chat.ClassificationGrows | components/chat/ChatInterface.tsx:95-117 | the classification branch only grows the conversation |
| Chat.CategoryGrows | components/chat/ChatInterface.tsx:119-158 | the category branch only grows the conversation |
| Chat.PlansArriveGrows | components/chat/ChatInterface.tsx:170-183 | arriving plans, their milestone and one reply only grow the conversation |
| Chat.PurposeGrows | components/chat/ChatInterface.tsx:160-198 | the purpose branch only grows the conversation |
| Chat.PlansGrow | components/chat/ChatInterface.tsx:200-245 | the plan-step branch only grows the conversation |
| Chat.BranchGrows | components/chat/ChatInterface.tsx:74-252 | every branch only grows the conversation |
| Chat.FinishGrows | components/chat/ChatInterface.tsx:253-261 | the catch and finally only grow the conversation |
| Chat.StartedGrows | components/chat/ChatInterface.tsx:63-68 | recording the user's message and switching loading on only grow the conversation |
| Chat.MessageGoGrows | components/chat/ChatInterface.tsx:138-144 | a reply followed by a step change only grows the conversation |
| Chat.RecordsGrow | components/chat/ChatInterface.tsx:127-136 | recording the purpose and mechanism, then the category when named, only grows the conversation |
| Chat.DescribedGrows | components/chat/ChatInterface.tsx:121-144 | the described case of the category branch only grows the conversation |
| Chat.ResumeGrows | components/chat/ChatInterface.tsx:59-262 | whatever the reply, the conversation only grows with fresh ids, the chain is kept, the user's message comes first and loading ends off |
| Chat.RespondGrows | components/chat/ChatInterface.tsx:59-262 | the same for the handler with its client |
| Chat.ProceedWinsTie | components/chat/ChatInterface.tsx:97-104 | a message that both confirms and asks for changes is taken as a confirmation, except at PRODUCT_CATEGORY without a classification |
| Chat.UnclassifiedTieRevises | components/chat/ChatInterface.tsx:119-151 | at PRODUCT_CATEGORY without a classification such a message goes back to the concept |
| Chat.AsWrittenStrandsNewSession | components/chat/ChatInterface.tsx:25-39 | as written, after the first greeting a new session with no messages is never greeted and cannot take input |
| Chat.GreetsOnce | components/chat/ChatInterface.tsx:27-39 | a new session gets exactly the greeting and CONCEPT_INPUT, becomes able to take input, and is not greeted twice |
| Chat.GreetsAfterReset | components/chat/ChatInterface.tsx:27-39 | the session-keyed guard agrees with the written one on the first session and also greets a session installed by a reset |
| Chat.ChatInterface.constructor | components/chat/ChatInterface.tsx:12-25 | the component holds the store and the client and has greeted no session |
| Chat.ChatInterface.GreetNewSession | components/chat/ChatInterface.tsx:27-39 | the store and the guard end as the session-keyed greeting says |
| Chat.ChatInterface.Reply | components/chat/ChatInterface.tsx:82-89 | one assistant reply is appended |
| Chat.ChatInterface.ReplyAndGo | components/chat/ChatInterface.tsx:97-104 | one assistant reply then a step change |
| Chat.ChatInterface.Classify | components/chat/ChatInterface.tsx:75-93 | a refused classification changes nothing and is reported; otherwise the classification, one reply and DEVICE_CLASSIFICATION are recorded |
| Chat.ChatInterface.ConceptStep | components/chat/ChatInterface.tsx:75-93 | the store ends as the concept branch says, and the method reports whether it was rejected |
| Chat.ChatInterface.ClassificationStep | components/chat/ChatInterface.tsx:95-117 | the store ends as the classification branch says |
| Chat.ChatInterface.CategoryStep | components/chat/ChatInterface.tsx:119-158 | the store ends as the category branch says |
| Chat.ChatInterface.Describe | components/chat/ChatInterface.tsx:121-144 | a refused request changes nothing and is reported; otherwise the purpose and mechanism, the category when named, one reply and PURPOSE_MECHANISM are recorded |
| Chat.ChatInterface.PlansArrive | components/chat/ChatInterface.tsx:170-183 | the plans requested from the session's results are recorded and the reply said, or the request is reported rejected |
| Chat.ChatInterface.PurposeStep | components/chat/ChatInterface.tsx:160-198 | the store ends as the purpose branch says |
| Chat.ChatInterface.PlansStep | components/chat/ChatInterface.tsx:200-245 | the store ends as the plan-step branch says |
| Chat.ChatInterface.Dispatch | components/chat/ChatInterface.tsx:74-252 | the store ends as the branch of the snapshot's step says |
| Chat.ChatInterface.Begin | components/chat/ChatInterface.tsx:63-68 | the user's message is recorded and loading switched on |
| Chat.ChatInterface.Conclude | components/chat/ChatInterface.tsx:253-261 | the catch and the finally |
| Chat.ChatInterface.Send | components/chat/ChatInterface.tsx:60-262 | on a session, the store ends as `Respond` says of the turn it started from |
| Chat.ChatInterface.HandleSend | components/chat/ChatInterface.tsx:59-262 | nothing without a session; otherwise the store ends as `Respond` says |
| PlanLayout.SelectedPlan | components/plans/PlanLayout.tsx:23 | a plan is selected exactly when an id is held and some plan has it, and the plan is one of the list with that id |
| PlanLayout.ReplacePlanAt | components/plans/PlanLayout.tsx:63-65 | replacement keeps the length and order, puts the refined plan where the id matches and keeps every other plan |
| PlanLayout.ReplaceAbsent | components/plans/PlanLayout.tsx:63-65 | replacing an id no plan has changes nothing |
| PlanLayout.ReplacedIsSelected | components/plans/PlanLayout.tsx:23-65 | after a refinement the selected plan is the refined one |
| PlanLayout.ReplaceTwice | components/plans/PlanLayout.tsx:63-65 | a second refinement of the same plan overrides the first |
| PlanLayout.ConfirmedEffect | components/plans/PlanLayout.tsx:29-40 | confirmation selects the plan, adds one message naming its title, moves to FINAL_CONFIRMATION, adds one milestone and keeps the chain and the plans |
| PlanLayout.ModifiedOnSuccess | components/plans/PlanLayout.tsx:45-69 | a successful refinement adds the notice and replaces the plan by id, with a plans milestone, and ends with loading off |
| PlanLayout.ModifiedOnFailure | components/plans/PlanLayout.tsx:70-78 | a failed refinement adds one error message, leaves the plans alone and ends with loading off |
| PlanLayout.MockModification | components/plans/PlanLayout.tsx:47-69 | in mock mode a fixture id is replaced by the fixture with the note, and any other id gets the error message only |
| PlanLayout.PlanLayout.constructor | components/plans/PlanLayout.tsx:13 | no plan is selected |
| PlanLayout.PlanLayout.HandleSelectPlan | components/plans/PlanLayout.tsx:25-27 | the plan's id is held |
| PlanLayout.PlanLayout.Back | components/plans/PlanLayout.tsx:142 | the selection is cleared and the list shows again |
| PlanLayout.PlanLayout.HandleConfirmPlan | components/plans/PlanLayout.tsx:29-40 | nothing without a selected plan; otherwise the store ends as confirmation says |
| PlanLayout.PlanLayout.Modify | components/plans/PlanLayout.tsx:45-78 | loading on, the answer taken in, loading off, as the refinement says |
| PlanLayout.PlanLayout.Answer | components/plans/PlanLayout.tsx:58-74 | a refined plan adds the notice and replaces the plan by id; a failure adds the error message |
| PlanLayout.PlanLayout.HandleModifyPlan | components/plans/PlanLayout.tsx:42-79 | nothing without a selected plan; otherwise the store ends as the refinement with the client's answer says |
| FlowchartPanel.SanitizeId | components/panels/FlowchartPanel.tsx:43 | sanitising keeps the length and letters and digits and turns every other character into '_' |
| FlowchartPanel.SanitizeIdAt | components/panels/FlowchartPanel.tsx:43 | each character of a sanitised id is a letter, a digit or '_' |
| FlowchartPanel.SanitizeIdIdempotent | components/panels/FlowchartPanel.tsx:43 | sanitising twice is sanitising once |
| FlowchartPanel.SanitizeIdConcat | components/panels/FlowchartPanel.tsx:43 | sanitising works character by character across a concatenation |
| FlowchartPanel.SanitizedNodeId | components/panels/FlowchartPanel.tsx:43 | a milestone node id sanitises to the same text with its dashes as '_' |
| FlowchartPanel.SanitizedNodeIdsDistinct | components/panels/FlowchartPanel.tsx:65-66 | distinct milestone node ids stay distinct after sanitising, so edges keep their endpoints |
| FlowchartPanel.EscapedStart | components/panels/FlowchartPanel.tsx:44 | an escaped label never starts with a quote |
| FlowchartPanel.UnescapeEscape | components/panels/FlowchartPanel.tsx:44 | unescaping an escaped label gives the label back |
| FlowchartPanel.EscapeWithoutQuotes | components/panels/FlowchartPanel.tsx:44 | a label without quotes is left as it is |
| FlowchartPanel.EscapedQuotes | components/panels/FlowchartPanel.tsx:44 | every quote of an escaped label is preceded by a backslash |
| FlowchartPanel.NodeLineReadsBack | components/panels/FlowchartPanel.tsx:42-61 | a node line is the sanitised id and the shape of its type, and the label reads back from between the brackets |
| FlowchartPanel.NodeLinesCons | components/panels/FlowchartPanel.tsx:42-61 | the node lines go in node order |
| FlowchartPanel.EdgeLinesCons | components/panels/FlowchartPanel.tsx:64-69 | the edge lines go in edge order |
| FlowchartPanel.UnlabelledEdgeLine | components/panels/FlowchartPanel.tsx:67-68 | an edge without a label or with an empty one is a plain arrow |
| FlowchartPanel.LabelledEdgeLine | components/panels/FlowchartPanel.tsx:67-68 | a labelled edge writes its label between bars after the arrow, then the target |
| FlowchartPanel.ChainIsDrawnAsPath | components/panels/FlowchartPanel.tsx:39-73 | the store's chain is drawn as one path of plain arrows from each node to the next |
| FlowchartPanel.ChainEdgeLines | components/panels/FlowchartPanel.tsx:64-69 | the edge lines of a chain are the arrows between consecutive nodes |
| FlowchartPanel.AddNodeLines | components/panels/FlowchartPanel.tsx:42-61 | the loop appends the node lines in order |
| FlowchartPanel.AddEdgeLines | components/panels/FlowchartPanel.tsx:64-69 | the loop appends the edge lines in order |
| FlowchartPanel.GenerateMermaidSyntax | components/panels/FlowchartPanel.tsx:36-73 | no text without nodes; otherwise the header, the node lines, the edge lines and the style classes |
| FlowchartPanel.MermaidFrame | components/panels/FlowchartPanel.tsx:39-73 | the text starts with the header and the node lines and ends with the two style classes |
| ProgressBar.Views | components/panels/ProgressBar.tsx:27 | one entry per step |
| ProgressBar.StepsInEnumOrder | components/panels/ProgressBar.tsx:6-15 | the table lists the eight steps once each, entry i being the step with value i |
| ProgressBar.ViewsFollowStep | components/panels/ProgressBar.tsx:27-45 | an entry is active exactly at the current step, completed exactly before it, never both, highlighted up to it, with a check mark when completed and its position otherwise |
| ProgressBar.ExactlyOneActive | components/panels/ProgressBar.tsx:28 | exactly one entry is active |
| ProgressBar.Connectors | components/panels/ProgressBar.tsx:54-59 | seven connectors, after every entry but the last, filled exactly after a completed entry |

## Left out

- Real-mode HTTP (axios, lib/api/client.ts:41-46 and the `try` blocks) is the `Backend`
  parameter. Request bodies, headers, the 30-second timeout and the response types are not
  modelled.
- Timers and artificial delays (`setTimeout` in the greeting, `delay` in mock mode) are
  not modelled. The greeting arrives at the time the effect runs.
- React hooks and async interleaving are modelled only where they decide behaviour.
  `handleSend` reads a snapshot of the session it was rendered with, and each await is a
  point where the reply's time `later` applies. Other interleavings of user actions with
  pending requests are not modelled.
- The two storage calls of `resetSession` are not awaited. The finding below models the
  interleaving they allow; the store's own methods assume each storage call finishes
  before the next.
- Mermaid initialisation and rendering (components/panels/FlowchartPanel.tsx:15-33,76-90)
  belong to a foreign library and are not modelled.
- Floating-point values are not modelled: the classification's `confidence` and the
  progress percentage.
- `console` logging is not modelled.
- The store's `useMockMode` flag and the client's mock switch are independent here. The page that
  registers `() => useMockMode` as the client's getter is not part of this model, so toggling
  mock mode in the store does not by itself change which source answers the client's calls.
- Presentational components are not part of this model: PlanDetail, MessageList,
  InputArea, the summary panel, the layout and page rendering.
- JSON: `JSON.stringify` and `JSON.parse` are an abstract `Codec` that must read back what
  it writes. Date revival is part of that round trip.
- `uuidv4()` is a counter and `Date.now()` a parameter. Node ids are unique only for
  distinct clock readings (`AppStore.NodeIdInjective`).
- Strings.ToLower: only ASCII letters are lower-cased. JavaScript's `toLowerCase` also
  maps other letters, e.g. the Kelvin sign to 'k'. The keywords are Korean and ASCII, so
  the tests agree on every message whose only upper-case letters are ASCII.
- FlowchartPanel.SanitizeId: works on whole characters. The JavaScript replacement works
  on UTF-16 code units, so a character outside the Basic Multilingual Plane becomes two
  underscores there and one here.
- LocalStorage.LocalStorageAdapter.ListSessions and LoadSession are functions without a
  contract of their own. `LocalStorage.ReadFallbacks`, `SaveThenLoad` and
  `DeleteThenLoad` state what they return.
- A browser that refuses writes is one `quotaExceeded` flag: every `setItem` fails, and
  `removeItem` never does.

## Findings

| source | as written | input that shows it | evidently intended | confidence | as-written member | corrected member |
|---|---|---|---|---|---|---|
| store/useAppStore.ts:182-188 | `resetSession` starts `deleteSession` of the old session and `saveSession` of the new one without awaiting either, and both read the index before either writes it (lib/storage/localStorage.ts:23-27,59-67) | a stored session `a` listed in the index, then a reset to a new session `b`: the delete writes the index without `a`, then the save writes the index it read (`a` still in it) plus `b` | the old id leaves the index and only the new one is added | not executed | AppStore.ResetAsWrittenKeepsDeletedId | AppStore.ResetKeepsConsistent |
| components/chat/ChatInterface.tsx:25-39 | the greeting guard `hasGreeted` belongs to the component and is never cleared, and the component is not remounted when the session changes (app/page.tsx:89) | greet the first session, then reset or toggle mock mode (store/useAppStore.ts:38-44,182-188): the new session has no messages, is never greeted, and the welcome screen without an input box (components/chat/ChatInterface.tsx:264-304) stays | every new session is greeted once and moves to CONCEPT_INPUT; the component method Chat.ChatInterface.GreetNewSession runs this session-keyed guard | not executed | Chat.AsWrittenStrandsNewSession | Chat.GreetsAfterReset |
