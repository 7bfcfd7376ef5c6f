# CRM chat assistant: command pipeline, conversation store, templates and credentials

This project models the core of a browser-extension popup. The popup sends a
user's text to a language model, which turns it into an action descriptor. The
popup runs that action against a CRM's REST API and answers in words. Four
parts are modelled:

- **Conversation store** (`ChatStore`, file `chat_store.dfy`). The class
  `ChatState` has three fields: an append-only message list, a favourites list,
  and a context map that is shallow-merged on update. Each action is a method
  that replaces one field and states that the other two are unchanged. Ids and
  timestamps are parameters.
- **Command pipeline** (`ChatProcessor`, file `chat_processor.dfy`).
  `Processor.ProcessUserInput` first creates the model client once from a
  stored key. It then classifies the input and dispatches on one of seven
  action kinds. On success it appends one assistant message. The language model
  and the CRM are oracles gathered in a `Network` value. The method returns the
  list of requests it sent (`calls`). It is proved equal to the pure
  specification `Turn`/`Dispatch`, and the dispatch rules are lemmas about that
  specification. `executeSOQL` (credential guard and error mapping),
  `listSObjects` (the queryable filter) and `generateResponse` (the fallback
  text) are modelled as well.
- **Template descriptions** (`CommandTemplates`, file `command_templates.dfy`).
  This is the two-level description table with its fallback text, plus the key
  set of the query templates.
- **Credential storage** (`Auth`, file `auth.dfy`). Storage is a class
  `LocalStorage` holding a `map<string, Value>`, with `GetItem`/`SetItem`
  primitives. `GetFromStorage` and `SetInStorage` are the source's per-key
  loops. The setup and check functions are built on top of them.

`Json.Value` stands for any JSON value. Only its JavaScript truthiness matters
to the code, so that is all `Json.Truthy` describes. `Errors.Message` gives the
exact message text of each thrown error.

In three places the model follows the code where a reader might expect otherwise:

- Only `executeSOQL` checks the CRM credentials. `updateRecord` and
  `createRecord` send their request without that check, so a missing token
  surfaces as whatever the CRM call returns.
- `processUserInput` does not store the user's message. Only the assistant
  message goes into the store; the chat view keeps the user's message in its
  own component state.
- A classifier reply that is not JSON makes `JSON.parse` throw, and that error
  propagates. It is not turned into "Unknown command type". A reply without
  content is read as `{}`, and its missing action does give "Unknown command
  type".

## Model

| member | source | states |
|---|---|---|
| ChatStore.ChatState.constructor | src/store/chatStore.ts:33-35 | the store starts with no messages, no favourites and an empty context |
| ChatStore.ChatState.AddMessage | src/store/chatStore.ts:36-46 | exactly one message with the given role and content is appended at the end; favourites and context are unchanged |
| ChatStore.ChatState.AddFavorite | src/store/chatStore.ts:47-58 | exactly one favourite with query `q` and description `d` is appended; messages and context are unchanged |
| ChatStore.ChatState.RemoveFavorite | src/store/chatStore.ts:59-62 | favourites become the old list without that id; with an absent id they are unchanged; messages and context are unchanged |
| ChatStore.WithoutId | src/store/chatStore.ts:61 | a favourite is kept iff it was present and has a different id; the list never grows |
| ChatStore.WithoutIdAppend | src/store/chatStore.ts:61 | the filter distributes over concatenation, so kept favourites stay in their original order |
| ChatStore.WithoutAbsentId | src/store/chatStore.ts:59-62 | removing an id no favourite carries returns the list unchanged |
| ChatStore.WithoutIdIdempotent | src/store/chatStore.ts:59-62 | removing the same id twice equals removing it once |
| ChatStore.ChatState.ClearMessages | src/store/chatStore.ts:63 | messages become empty; favourites and context are unchanged |
| ChatStore.Merged | src/store/chatStore.ts:66 | the merged keys are the union; keys of the update take its values; all other keys keep their old values |
| ChatStore.LaterUpdateWins | src/store/chatStore.ts:64-67 | of two successive updates to one key, the later value wins |
| ChatStore.MergeSequential | src/store/chatStore.ts:64-67 | two updates in turn equal one update with their merge |
| ChatStore.ChatState.UpdateContext | src/store/chatStore.ts:64-67 | the context becomes the shallow merge of the old context with the update; messages and favourites are unchanged |
| ChatStore.ChatState.ClearContext | src/store/chatStore.ts:68 | the context becomes empty; messages and favourites are unchanged |
| CommandTemplates.GetTemplateDescription | src/utils/commandTemplates.ts:67-93 | the result is never empty; a known pair gives its description; an unknown category, or an unknown template of a known category, gives "No description available" |
| CommandTemplates.KnownDescriptions | src/utils/commandTemplates.ts:68-90 | each of the eleven (category, template) pairs gives its fixed description |
| CommandTemplates.NoDescriptionIsFallback | src/utils/commandTemplates.ts:68-90 | no description in the table is empty or equal to the fallback text |
| CommandTemplates.TemplatesAreDescribed | src/utils/commandTemplates.ts:3-90 | a pair is a template iff its description is not the fallback, so the two key sets coincide |
| CommandTemplates.DescriptionAsWritten | src/utils/commandTemplates.ts:92 | the lookup as written agrees with the corrected one on known pairs; for an unknown template of a known category it gives the fallback iff the name is not an inherited `Object.prototype` member; an unknown category gives the fallback unless it names an inherited member and the template names a property a built-in can carry |
| CommandTemplates.AsWrittenReturnsInheritedMethod | src/utils/commandTemplates.ts:92 | ("opportunities", "toString") yields the inherited method as written, and the fallback in the corrected lookup |
| CommandTemplates.AsWrittenUnknownMemberFallsBack | src/utils/commandTemplates.ts:92 | a category named after an inherited member, asked for a template no built-in carries, gives the fallback text |
| Auth.GetFromStorage | src/utils/auth.ts:17-24 | a key is in the result iff it was requested and is stored, and then it has the stored value; absent keys are omitted |
| Auth.SetInStorage | src/utils/auth.ts:37-39 | every entry of the data is written, overriding old values; other keys keep their values |
| Auth.SetThenGet | src/utils/auth.ts:18-22 | reading back keys just written returns exactly the written values |
| Auth.LookupTruthyAt | src/utils/auth.ts:17-24 | a requested key is truthy in the result iff it is stored and truthy |
| Auth.CheckAuthentication | src/utils/auth.ts:128-131 | true iff both `salesforceToken` and `openAIKey` are stored and truthy |
| Auth.GetClientId | src/utils/auth.ts:101-107 | succeeds iff `clientId` is stored and truthy, with the stored value; otherwise fails with the "Client ID not found" error |
| Auth.SetupOpenAIAPI | src/utils/auth.ts:109-126 | with a stored key it returns and writes nothing; otherwise the extension stores the prompted key or fails with "OpenAI API key is required", and elsewhere the mock key is stored |
| Auth.CallbackCredentials | src/utils/auth.ts:60-89 | the callback stores credentials iff the redirect has both a non-empty access token and a non-empty instance URL, and it stores exactly those two; a redirect lacking either is rejected with "Failed to obtain Salesforce credentials"; a browser error rejects with "Failed to authenticate with Salesforce", a missing redirect with "No redirect URL received", and a malformed URL with the parser's own error |
| Auth.SetupSalesforceOAuth | src/utils/auth.ts:43-99 | outside an extension the mock pair is stored; in an extension a missing client id fails with nothing written; otherwise the callback's decision is stored or rejected |
| ChatProcessor.KindOf | src/utils/chatProcessor.ts:215-266 | each of the seven names selects its own branch and no other does; any other or missing action is unknown |
| ChatProcessor.ParseCommand | src/utils/chatProcessor.ts:199 | a parsed reply is the command; a reply without content reads as a command without an action; a reply that is not JSON fails with the parser's error; a failed request passes its error on unchanged |
| ChatProcessor.QueryOutcome | src/utils/chatProcessor.ts:62-87 | without a truthy token and instance URL the result is the credentials error; a non-empty error list gives "Salesforce query error: " plus its first message; any other failure is passed on unchanged |
| ChatProcessor.ExecuteSOQL | src/utils/chatProcessor.ts:62-87 | the result is the specified query outcome, and the CRM is called iff the credentials are present |
| ChatProcessor.QueryableNames | src/utils/chatProcessor.ts:53-55 | a name is in the result iff some queryable catalogue entry has it; the result is no longer than the catalogue |
| ChatProcessor.QueryableNamesAppend | src/utils/chatProcessor.ts:53-55 | the filter distributes over concatenation, so the names keep catalogue order |
| ChatProcessor.ListSObjects | src/utils/chatProcessor.ts:40-60 | a failed catalogue request passes its error on; otherwise the result is the list of the queryable entries' names in catalogue order |
| ChatProcessor.GenerateResponse | src/utils/chatProcessor.ts:130-162 | the model's non-empty text is returned verbatim, otherwise "No response generated"; a success is never empty; it fails iff the request fails, and then with the request's own error |
| ChatProcessor.Dispatch | src/utils/chatProcessor.ts:215-266 | one dispatched action sends at most two requests, only appends to the favourites (at most one) and never removes a context key |
| ChatProcessor.Turn | src/utils/chatProcessor.ts:211-266 | a turn sends at most three requests, the first always the classification of the input; favourites are only appended to and context keys never removed |
| ChatProcessor.OfflineActions | src/utils/chatProcessor.ts:249-262 | `help` and `favorite` send no request and return their fixed texts; `favorite` appends exactly one favourite built from the input and `parameters.description` |
| ChatProcessor.UnknownActionFails | src/utils/chatProcessor.ts:264-265 | an action outside the seven kinds fails with "Unknown command type" after the classification request only, with the store unchanged |
| ChatProcessor.EmptyReplyIsUnknown | src/utils/chatProcessor.ts:199 | an empty classifier reply, read as `{}`, fails with "Unknown command type" |
| ChatProcessor.ClassifierFailurePropagates | src/utils/chatProcessor.ts:199-212 | a failed classification request ends the turn with its own error, and a reply that is not JSON with the parser's error; neither becomes "Unknown command type", and nothing else is sent or changed |
| ChatProcessor.CreateEmbedsRecordId | src/utils/chatProcessor.ts:230-247 | `create` answers with exactly the id the CRM returned; `task` always creates a "Task" from `parameters.taskFields` and embeds its id |
| ChatProcessor.QueryActionsAnswerWithGeneration | src/utils/chatProcessor.ts:216-242 | for `query` and `analyze`, a successful query is answered with the generated text for its result, after the query and generation requests; a failed query is the answer and no generation request is sent |
| ChatProcessor.CrmActionsAnswer | src/utils/chatProcessor.ts:221-247 | `update` sends exactly its one update request and answers "Updated <object> record successfully."; a failed update, create or task request answers with that request's own error |
| ChatProcessor.FailureChangesNothing | src/utils/chatProcessor.ts:211-274 | a failed input leaves the context and the favourites unchanged |
| ChatProcessor.OnlyAnalyzeChangesContext | src/utils/chatProcessor.ts:216-242 | only a successful `analyze` changes the context, by merging `{lastAnalysis: result}`; a failed generation and every `query` leave it unchanged |
| ChatProcessor.OnlyFavoriteChangesFavorites | src/utils/chatProcessor.ts:249-252 | the favourites change iff the action is `favorite` |
| ChatProcessor.NetworkBranches | src/utils/chatProcessor.ts:215-266 | dispatch sends no request iff the action is `help`, `favorite` or unknown, or is a query or analysis stopped by the credential guard |
| ChatProcessor.GenerationFollowsQuery | src/utils/chatProcessor.ts:216-242 | a response is generated iff the action is `query` or `analyze` and its query succeeded |
| ChatProcessor.ResponseNonEmpty | src/utils/chatProcessor.ts:213-268 | every successful response, and so every assistant message added, is non-empty |
| ChatProcessor.OpportunitiesByStageScenario | src/utils/chatProcessor.ts:216-219 | a query for open opportunities by stage returns the generated text after one classification, one query and one generation request |
| ChatProcessor.InitializedClient | src/utils/chatProcessor.ts:12-17 | an existing client is kept; without one, a client is created iff a truthy key is stored, and it holds that key |
| ChatProcessor.ClientCreatedOnce | src/utils/chatProcessor.ts:9-18 | once a client exists, a later initialisation keeps it whatever storage then holds |
| ChatProcessor.Processor.constructor | src/utils/chatProcessor.ts:7 | no model client exists at start |
| ChatProcessor.Processor.InitializeAPIs | src/utils/chatProcessor.ts:9-18 | the client is created from the stored key only when none exists and the key is truthy |
| ChatProcessor.Processor.ProcessUserInput | src/utils/chatProcessor.ts:202-275 | without a client it fails with "OpenAI API not initialized", sends nothing and changes no store field; otherwise its result, requests, context and favourites are those of `Turn`; on success exactly one assistant message with the response is appended, and on failure none |

## Left out

- The extension storage area (`chrome.storage.local`) is modelled by the same map as browser local storage. Both return exactly the requested keys that are stored. A raw stored text that is empty or not JSON, written by some other party, is not representable.
- JSON serialisation is abstracted: a stored value is assumed to read back as the value written. Numbers are integers, so fractional numbers, `NaN` and `-0` are not modelled.
- The persistence middleware of the store is left out. After a reload it restores the saved state rather than the empty one.
- Ids and timestamps (`crypto.randomUUID`, `Date.now`) are parameters. Their uniqueness is not claimed, because the code never checks it.
- The HTTP client and the model SDK are oracles in `ChatProcessor.Network`. URLs, `encodeURIComponent`, headers, prompt texts, model names and sampling settings are not modelled.
- The storage reads inside `updateRecord`, `createRecord`, `listSObjects` and `describeSObject` only build the URL and the header, so they are not modelled. `describeSObject` returns the CRM's reply unchanged and is not called by the pipeline, so it has no member.
- ChatProcessor.QueryOutcome: the error body is either absent or a list of messages. A string body (whose `length` is also positive) and list entries without a `message` are not modelled.
- ChatProcessor.Parameters: a recognised action's parameters are taken as the classifier supplied them, as strings and values. A missing `parameters` object or field, which the code dereferences without a check, is not modelled.
- Auth.SetupSalesforceOAuth: building the authorisation URL and the interactive flow are not modelled. The flow's outcome for the stored client id is the parameter `flow`.
- Auth.SetupOpenAIAPI: the key typed into `prompt()` is the parameter `promptAnswer`.
- CommandTemplates.DescriptionAsWritten: when the category names an inherited member and the template names a property some built-in carries (such as "constructor", "name", which gives the text "Object"), the property's value and the fallback decision on it are not modelled (`BuiltinProperty`).
- The query texts of `templates` are not modelled, since several embed dates taken from the wall clock. Only their key set is.
- Overlapping submissions are not modelled. Each `processUserInput` call is one sequential step.
- The React components, the setup wizard and the clipboard content script are user interface and browser I/O.

## Findings

| source | as written | input that shows it | evidently intended | confidence | as-written member | corrected member |
|---|---|---|---|---|---|---|
| src/utils/commandTemplates.ts:92 | `descriptions[category]?.[template]` is a plain property access. It also finds members each object inherits from `Object.prototype`. Such a member is truthy, so the fallback does not replace it. | `getTemplateDescription("opportunities", "toString")` returns the inherited `toString` function, not a string | an unknown template returns "No description available" | medium; not executed | CommandTemplates.DescriptionAsWritten, CommandTemplates.AsWrittenReturnsInheritedMethod | CommandTemplates.GetTemplateDescription |

Nothing in the modelled source calls `getTemplateDescription`, so the finding has no visible effect in the popup today.
