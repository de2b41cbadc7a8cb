# AI conversation system: verified model of its deterministic core

The system lets a user pick a topic and a set of AI roles ("Business
Analyst", "Technical Architect", ...) and watch the roles discuss the topic.
The backend's Gemini service builds the transcript. It calls the model once
per role and turn, retries rate-limited calls, and tags every reply with the
speaker. The frontend has three parts:

- a control panel that collects the settings;
- a session screen that holds the transcript and a loading flag;
- a role editor that adds, updates and deletes roles on the server.

The cloud frontend has a configuration screen that edits role settings by
id.

This project models those parts in Dafny and proves what they promise:

| file | module | models |
|---|---|---|
| `wrappers.dfy` | `Wrappers` | `Option` and `Result` |
| `text.dfy` | `Text` | JavaScript `trim()`, ASCII `upper()`/`lower()`, substring search, decimal rendering of an `int` |
| `base_service.dfy` | `BaseService` | the message record and the constructor's `getattr` defaults |
| `gemini_service.dfy` | `GeminiService` | `generate_response`, `generate_conversation`, `get_role_response` |
| `http.dfy` | `Http` | what a frontend sees of a `fetch` |
| `control_panel.dfy` | `ControlPanel` | the role toggle, the start/test guards, button enablement, initial state |
| `app.dfy` | `SessionApp` | the session screen's two handlers over `messages` and `isLoading` |
| `role_debug_panel.dfy` | `RoleEditor` | the role editor's state machine |
| `debug_view.dfy` | `DebugView` | update-by-id of the configuration list |

## How the model is built

The model is an oracle. `Model(n, request)` is what the n-th model call of a
run does: it returns text or raises an error whose text is given. Every
execution of the real service is reproduced by some such function, so the
proofs assume nothing about the model's answers.

`generate_response` and `generate_conversation` are methods with the
source's loops:

- the retry loop over attempts;
- the history loop;
- `while current_turn < max_turns` around `for role in roles`.

Each method is proved equal to a specification function: `Respond` for
`generate_response` and `Conversation` for `generate_conversation`. The
properties are lemmas about those functions.

On the frontends, every component whose state React updates step by step
is a class:

- its fields are the `useState` variables;
- a `fetch` outcome is a method parameter, of type `Reply`;
- what the component sends and the alerts it raises are appended to an
  `effects` field.

This makes the order of events observable; for example, a request is sent
while the loading flag is on.

The role editor keeps an invariant, `Valid`. Editing holds exactly when a
role is selected, and the delete confirmation is open exactly when a name
waits for deletion. Every handler preserves it, so the save endpoint
(update or add) always matches the button label.

The role editor's mount effect (`useEffect` calling `fetchRoles`) is the
`FetchRoles` method. The host calls it once after construction.

The behaviours below are easy to get wrong. The model follows the code on
each of them:

- `generate_response` does retry: up to 3 attempts, on errors that mention
  both "429" and "quota".
- `fetchRoles` writes the component's `roles` state.
- The session screen reads the transcript from the `messages` field of the
  start reply.
- The start handler of the control panel does not check that any role is
  active. Only the disabled button does.

In `generate_response`, when `max_tokens` is `None` or `0`, the fallback
reads `self.config`. The base constructor never sets that attribute. The
resulting `AttributeError` is caught as an ordinary error and reported as
`"Error generating response: ..."` without any model call. The model does
exactly this; see `MissingMaxTokensNeverCallsModel`. `generate_conversation`
always supplies a token budget, so it never takes this path.

## Model

| member | source | states |
|---|---|---|
| `BaseService.FormatMessage` | cloud-backend/app/ai_services/base.py:21-23 | the message carries exactly the given role and content |
| `BaseService.FormatMessageFieldsOnly` | cloud-backend/app/ai_services/base.py:23 | a message has no field besides role and content: rebuilding it from them gives it back |
| `BaseService.InitSettings` | cloud-backend/app/ai_services/base.py:5-9 | each setting is the config's attribute when present and otherwise its default: model "", temperature 0.7, max_tokens 500, system_prompt "" |
| `BaseService.DictConfigIgnoresKeys` | cloud-backend/app/ai_services/base.py:6-9 | a dict config, whatever its keys, yields the same settings as an object with no attributes: all defaults |
| `GeminiService.OrDefault` | cloud-backend/app/ai_services/gemini_service.py:101-102 | `x or default`: the value when it is neither None nor 0, the default (3 turns, 300 tokens) otherwise |
| `GeminiService.InitialPromptContainsTopic` | cloud-backend/app/ai_services/gemini_service.py:107-111 | the opening prompt contains the topic |
| `GeminiService.RoleMessageShape` | cloud-backend/app/ai_services/gemini_service.py:130 | a role's message has role "model" and content `"[" + upper(role) + "] "` followed by the response unchanged |
| `GeminiService.WindowIsShortSuffix` | cloud-backend/app/ai_services/gemini_service.py:122 | the context is the suffix of the transcript of length min(2, length) |
| `GeminiService.GeminiRole` | cloud-backend/app/ai_services/gemini_service.py:53-54 | a history role is "user" exactly when the message role is "user", and "model" otherwise |
| `GeminiService.HistoryFollowsContext` | cloud-backend/app/ai_services/gemini_service.py:50-58 | the history has the context's length and order; each entry maps the role and keeps the content |
| `GeminiService.RequestShape` | cloud-backend/app/ai_services/gemini_service.py:64-81 | the contents sent are the history followed by exactly one user entry with the enhanced prompt; the temperature and token budget are the service's and the caller's |
| `GeminiService.IsRateLimited` | cloud-backend/app/ai_services/gemini_service.py:86 | the retry condition: "429" occurs in the error text as written and "quota" occurs in its lower-cased text |
| `GeminiService.RateLimitIgnoresCase` | cloud-backend/app/ai_services/gemini_service.py:86 | the retry condition gives the same answer for the error text upper-cased or lower-cased: "429" has no letters, and "quota" is matched case-insensitively |
| `GeminiService.BuildHistory` | cloud-backend/app/ai_services/gemini_service.py:49-58 | the history loop produces the mapped context |
| `GeminiService.Attempt` | cloud-backend/app/ai_services/gemini_service.py:46-81 | one try block: the model is called with the request for this prompt, context and budget, or the attempt fails before the call when the budget is falsy |
| `GeminiService.RetryPolicy` | cloud-backend/app/ai_services/gemini_service.py:45-91 | at most 3 attempts; every attempt before the last raised an error containing "429" and "quota"; the last returned the text that is the result, or raised an error that is reported with the "Error generating response: " prefix, either because it is not a rate limit or because no attempt was left |
| `GeminiService.MissingMaxTokensNeverCallsModel` | cloud-backend/app/ai_services/gemini_service.py:61 | with a falsy `max_tokens` the call fails without reaching the model |
| `GeminiService.RespondReplied` | cloud-backend/app/ai_services/gemini_service.py:75-82 | a successful response is the text the model returned, on its last call, for the request built from the prompt and context |
| `GeminiService.RespondErrorPrefix` | cloud-backend/app/ai_services/gemini_service.py:83-91 | every failure carries the "Error generating response: " prefix |
| `GeminiService.GenerateResponse` | cloud-backend/app/ai_services/gemini_service.py:40-91 | the retry loop returns exactly the outcome, attempt count and call count of the retry policy `Respond` |
| `GeminiService.ScheduleAt` | cloud-backend/app/ai_services/gemini_service.py:119-121 | the speakers of `turns` passes are `turns * len(roles)` in number, the j-th being `roles[j mod len(roles)]` |
| `GeminiService.ConverseAppends` | cloud-backend/app/ai_services/gemini_service.py:119-135 | the loop only appends: the messages present before are kept, and one message is added per speaker, answering the at most two messages before it |
| `GeminiService.ConversationReplies` | cloud-backend/app/ai_services/gemini_service.py:104-137 | a successful conversation is the opening followed by `turns * len(roles)` replies in turn-major, round-robin order; each is the tagged text the model returned for its role's prompt and the last two messages before it |
| `GeminiService.ConversationShape` | cloud-backend/app/ai_services/gemini_service.py:101-117 | the length is 1, plus 1 with user input, plus `turns * len(roles)`; the first message is the user's opening prompt, which contains the topic; a second user message is present exactly when `user_input` is truthy, and is that input; with no roles only the user messages are returned |
| `GeminiService.ConversationErrorPrefix` | cloud-backend/app/ai_services/gemini_service.py:119-135 | a failed conversation fails with exactly the error of a failed `generate_response` for one of its roles, passed on unchanged by the call at line 129, so the error carries the "Error generating response: " prefix |
| `GeminiService.ConverseFailsWithResponseError` | cloud-backend/app/ai_services/gemini_service.py:120-130 | a failed pass over the speakers fails with the very error that one speaker's response failed with |
| `GeminiService.ScheduleFromRoles` | cloud-backend/app/ai_services/gemini_service.py:119-120 | every speaker the loops schedule is one of the given roles |
| `GeminiService.Round` | cloud-backend/app/ai_services/gemini_service.py:120-133 | one pass over the roles equals the specification loop over those speakers: each role answers the window, and the first failure ends the pass |
| `GeminiService.StartConversation` | cloud-backend/app/ai_services/gemini_service.py:104-117 | the opening is the initial prompt, then the user input when it is truthy |
| `GeminiService.Passes` | cloud-backend/app/ai_services/gemini_service.py:119-135 | the turn loop makes `max(turns, 0)` passes over the roles and stops at the first failure |
| `GeminiService.GenerateConversation` | cloud-backend/app/ai_services/gemini_service.py:93-137 | the method's result and model calls are those of the specification `Conversation`, so every lemma above holds of it |
| `GeminiService.GetRoleResponse` | cloud-backend/app/ai_services/gemini_service.py:139-147 | the result is a "model" message tagged with the upper-cased role and carrying the response, or the response's error |
| `Text.TrimEmptyIff` | frontend/src/components/ConversationControlPanel.tsx:37 | `s.trim()` is empty exactly when every character of `s` is whitespace |
| `Text.UpperShape` | cloud-backend/app/ai_services/gemini_service.py:130 | upper-casing keeps the length and leaves no lower-case ASCII letter |
| `ControlPanel.Remove` | frontend/src/components/ConversationControlPanel.tsx:62 | `prev.filter(r => r !== roleName)`: no occurrence of the name is left and the list does not grow |
| `ControlPanel.Toggle` | frontend/src/components/ConversationControlPanel.tsx:60-64 | the `setActiveRoles` updater: the name's membership flips |
| `ControlPanel.RemoveCounts` | frontend/src/components/ConversationControlPanel.tsx:62 | the filter drops every occurrence of the name and keeps every other name as often as it occurred |
| `ControlPanel.RemoveKeepsDistinct` | frontend/src/components/ConversationControlPanel.tsx:62 | filtering a list without repeats gives a list without repeats |
| `ControlPanel.ToggleEffect` | frontend/src/components/ConversationControlPanel.tsx:59-65 | a present name is removed everywhere and the other names are kept; an absent name is appended at the end; the name's membership flips |
| `ControlPanel.RemoveSingle` | frontend/src/components/ConversationControlPanel.tsx:62 | filtering a name that occurs exactly once removes that occurrence and keeps everything before and after it in order |
| `ControlPanel.ToggleRemovesInPlace` | frontend/src/components/ConversationControlPanel.tsx:60-64 | on a list without repeats, toggling the name at position i gives the list with position i deleted, the others in order |
| `ControlPanel.ToggleTwiceRestores` | frontend/src/components/ConversationControlPanel.tsx:59-65 | toggling an absent name twice restores the original list |
| `ControlPanel.ToggleKeepsDistinct` | frontend/src/components/ConversationControlPanel.tsx:59-65 | toggling keeps the active list free of repeats |
| `ControlPanel.ConversationControlPanel.constructor` | frontend/src/components/ConversationControlPanel.tsx:29-34 | every roster name is active, in roster order; the test role is the first name, or "" with an empty roster; turns 2, tokens 300; empty topic and question |
| `ControlPanel.ConversationControlPanel.StartEnabled` | frontend/src/components/ConversationControlPanel.tsx:152 | the start button is enabled exactly when the topic is not all whitespace and some role is active |
| `ControlPanel.ConversationControlPanel.TestEnabled` | frontend/src/components/ConversationControlPanel.tsx:208 | the test button is enabled exactly when the question is not all whitespace |
| `ControlPanel.ConversationControlPanel.HandleStartConversation` | frontend/src/components/ConversationControlPanel.tsx:36-48 | a whitespace-only topic raises one alert and invokes no callback; otherwise the callback gets the untrimmed topic, limits and active roles, whether or not any role is active |
| `ControlPanel.ConversationControlPanel.HandleTestRole` | frontend/src/components/ConversationControlPanel.tsx:50-57 | a whitespace-only question raises one alert and invokes no callback; otherwise the callback gets the test role and question |
| `ControlPanel.ConversationControlPanel.HandleRoleToggle` | frontend/src/components/ConversationControlPanel.tsx:59-65 | the active list becomes its toggle; the name's membership flips; a list without repeats keeps none, and unticking one of its names removes it from its position and keeps the others in order, which is the order they speak in |
| `SessionApp.RosterNamesDistinct` | frontend/src/App.tsx:18-40 | the static roster's names are distinct |
| `SessionApp.OpenControlPanel` | frontend/src/App.tsx:135-140 | the panel rendered with the roster starts with the three roster names active, in roster order and without repeats, and "Business Analyst" as the test role |
| `SessionApp.App.constructor` | frontend/src/App.tsx:43-44 | the session starts with no messages and not loading |
| `SessionApp.App.HandleStartConversation` | frontend/src/App.tsx:46-79 | the request carries topic, max_turns, max_tokens and roles from the settings and is sent while loading; an ok, readable reply replaces the transcript wholesale with its messages; any failure keeps the transcript and raises exactly one alert; loading ends false on every path |
| `SessionApp.App.HandleTestRole` | frontend/src/App.tsx:81-111 | the request always asks for 500 tokens; a reply with a message sets the transcript to exactly the user's question and the model's answer; any failure keeps the transcript and raises one alert; loading ends false on every path |
| `RoleEditor.SaveBody` | frontend/src/components/RoleDebugPanel.tsx:59-71 | the body copies the form's fields, always has a system prompt ("" when the form has none), and has `original_name` = the selected role's name exactly when a role is selected |
| `RoleEditor.SaveAlert` | frontend/src/components/RoleDebugPanel.tsx:85-112 | a refused save alerts the reply's non-empty `detail` or "Failed to save role"; an unreadable body or a network failure alerts its own error message |
| `RoleEditor.RoleDebugPanel.constructor` | frontend/src/components/RoleDebugPanel.tsx:18-30 | no roles, nothing selected, not editing, the "gemini-pro" blank form, no pending delete; the invariant holds |
| `RoleEditor.RoleDebugPanel.FetchRoles` | frontend/src/components/RoleDebugPanel.tsx:37-50 | the list becomes the returned array, or empty when the body has none; a refused, unreadable or failed request also empties it and alerts "Failed to fetch roles" |
| `RoleEditor.RoleDebugPanel.HandleSaveRole` | frontend/src/components/RoleDebugPanel.tsx:52-113 | posts to /api/roles/update exactly when a role is selected (which is exactly when editing), otherwise to /api/roles/add; on success refetches, stops editing, clears the selection and resets the form with model "models/gemini-2.0-flash-lite" and 500 tokens; on failure alerts and changes nothing else |
| `RoleEditor.RoleDebugPanel.HandleDeleteRole` | frontend/src/components/RoleDebugPanel.tsx:115-118 | remembers the name and opens the confirmation |
| `RoleEditor.RoleDebugPanel.ConfirmDelete` | frontend/src/components/RoleDebugPanel.tsx:120-146 | with no name or an empty one nothing changes; otherwise posts the name, and on every path closes the confirmation and clears the name; refetches on success; clears the selection and editing only after a successful delete of the selected name; alerts on failure |
| `RoleEditor.RoleDebugPanel.HandleEditRole` | frontend/src/components/RoleDebugPanel.tsx:148-152 | selects the role, copies it into the form and starts editing |
| `RoleEditor.RoleDebugPanel.CancelEdit` | frontend/src/components/RoleDebugPanel.tsx:340-350 | stops editing, clears the selection and resets the form with model "gemini-pro", which differs from the form after a save |
| `RoleEditor.RoleDebugPanel.CancelDelete` | frontend/src/components/RoleDebugPanel.tsx:397-400 | closes the confirmation and forgets the name |
| `DebugView.InitialConfigsShape` | cloud-frontend/src/views/DebugView.tsx:24-39 | two initial configurations with the distinct ids "1" and "2" |
| `DebugView.HandleConfigChange` | cloud-frontend/src/views/DebugView.tsx:44-48 | `configs.map(c => c.id === id ? { ...c, [field]: value } : c)`: the list keeps its length, an entry with another id is untouched, an entry with the id holds the new value |
| `DebugView.ConfigChangeEffect` | cloud-frontend/src/views/DebugView.tsx:44-48 | the list keeps its length and order; entries with another id are unchanged; entries with the id get the field set to the value and keep every other property |
| `DebugView.ConfigChangeNoMatch` | cloud-frontend/src/views/DebugView.tsx:44-48 | when no entry has the id, the list is unchanged |
| `DebugView.ConfigChangeIdempotent` | cloud-frontend/src/views/DebugView.tsx:44-48 | applying the same change twice is applying it once |
| `DebugView.ConfigChangeUnique` | cloud-frontend/src/views/DebugView.tsx:45-46 | with unique ids, a change addressed to an entry's id changes that entry alone |

## Left out

- Network I/O is not modelled: `fetch`, `genai.configure`, `list_models`, `generate_content_async`. The model call is the `Model` oracle; each frontend request is a `Reply` parameter.
- The service constructor's API-key check and model availability check (`gemini_service.py:9-24`) are not modelled, because they happen at start-up over the network. Only `max_retries` is kept.
- Time is not modelled: `_wait_for_rate_limit`, `last_request_time`, the 60-second retry delay and the one-second pause between turns. Only the attempt count and the retry condition are kept.
- The wording of the prompts is not modelled. Each fixed sentence is a constant with unspecified text, so every property holds whatever the wording. What is modelled is what each prompt interpolates, and in which order.
- Temperatures and other JavaScript numbers are opaque values. `parseFloat`, `parseInt` and `NaN` are not modelled.
- `Text.UpperShape`: `str.upper()` and `str.lower()` are modelled for ASCII letters only. Other characters are kept unchanged.
- Logging is not modelled: `print`, `console.log` and `console.error`.
- Overlapping handler invocations (async interleaving) are not modelled. Each handler runs to completion before the next, and the source has no guard that would change this.
- `SessionApp.App.HandleStartConversation`: a readable reply whose body has no `messages` field would set the transcript to `undefined`. The model assumes the field is a list of messages.
- `RoleEditor.RoleDebugPanel.FetchRoles`: a body that parses to `null` makes reading `data.roles` throw, which the source handles like a failure. The model treats every parsed body as an object.
- The form inputs' `onChange` handlers, which assign one field each, are not modelled. This covers topic, limits, test role and question, and the role form fields.
- `handleSave` in the configuration screen only writes to the console. It changes no state, so it has no counterpart in the model.
- `onRolesUpdated`, a prop of the role editor, is never called, so it is not modelled.
- Rendering is not modelled: the transcript view, the customer view and the cloud frontend's shell.
- Plumbing is not modelled: the FastAPI routes (`main.py`), the tests and the repository bootstrap script. `config.py` contributes only its default turn and token constants.
