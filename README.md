# Voice Navigator, modelled in Dafny

A model of the decision logic of a browser extension that lets a user drive a web page by voice.
The content script turns speech into a transcript. The background coordinator sends the transcript,
with a bounded snapshot of the page, to a chat-completions model. It then turns the model's JSON reply
into one DOM action (click, scroll, fill, navigate) and a spoken answer.

The browser, the network, the speech engine and `JSON.parse` are replaced by plain inputs. What they are
sent, and what happens to the page, is recorded as outputs. Each event handler is modelled as one
atomic step on a class's fields.

| file | models |
|---|---|
| `text.dfy` | the JavaScript string operations used: `trim`, `slice(0, n)`, `toLowerCase`, `includes`, `replace(/[{}"]/g, '')` |
| `actions.dfy` | the action record (`action`, `selector`, `index`, `value`, `direction`, `response`) and JavaScript truthiness |
| `snapshot.dfy` | `getPageStructure`: the page snapshot with its caps (src/background.js) |
| `dispatcher.dfy` | `executeAction`: the effects an action has on the page (src/background.js) |
| `interpreter.dfy` | `callOpenAI` without its I/O: the result record, the request, the fallback cleaner and the history buffer (src/background.js) |
| `background.dfy` | class `Coordinator`: `conversationHistory`, `listeningState`, `callOpenAI` and the runtime message handler (src/background.js) |
| `recognition.dfy` | class `Controller`: the first recognition controller of src/content.js |
| `panel.dfy` | class `PanelController`: the panel's recognition controller of src/content.js, its toggle and keyboard rules and its error texts |
| `wrappers.dfy` | `Option` |

## Behaviour as coded

These points follow the code even where a reader might expect otherwise.

- A click whose selector matches nothing, or has no element at `index`, falls back to the text search. It is not a no-op. Only a selector that throws (an invalid selector) skips the fallback.
- A parsed reply is returned as it is, even without an `action` field. The dispatcher then does nothing, because an absent action is passive. Only text that does not parse is degraded to `none`.
- `scroll` ignores `selector`. It only moves the viewport up or down.
- Headings are taken from `h1`–`h4` only.
- The panel controller's `startListening` does not set `isListening`; only the engine's `onstart` does. The first controller sets it before starting the engine.
- `getPageStructure` returns the empty object `{}` (modelled as `None`) when the script's first frame has no result. It returns the all-empty snapshot only when something throws.

## Model

| member | source | states |
|---|---|---|
| `Text.Trim` | src/background.js:226 | the result is a contiguous piece of the input with no white space at either end, and only white space was cut |
| `Text.TrimEmptyIffAllSpace` | src/background.js:229 | a text is dropped by the link filter (trims to nothing) exactly when it is all white space |
| `Text.Contains` | src/background.js:164 | `includes` holds exactly when the needle occurs at some offset of the text |
| `Text.Take` | src/background.js:226 | `slice(0, n)` keeps a prefix of the text of length n, or the whole text when it is shorter |
| `Text.ToLower` | src/background.js:164 | `toLowerCase` keeps the length, leaves no capital ASCII letter, and changes a character only by moving a capital to its small form |
| `Text.StripJsonPunctuation` | src/background.js:116 | the result has no `{`, `}` or `"`, and every other character is kept as often as it occurs |
| `Text.StripDistributes` | src/background.js:116 | the cleaner works piece by piece, so the characters it keeps stay in their order |
| `Snapshot.Capture` | src/background.js:218-241 | for any page, the snapshot has at most 20 headings of at most 100 characters, 30 links of at most 60, 15 buttons of at most 50, and exactly the first 4000 characters of body text (all of it when shorter), with title and URL unchanged and the three lists those of `Headings`, `Links` and `Buttons` |
| `Snapshot.GetPageStructure` | src/background.js:214-248 | every snapshot returned is within the caps; a returned frame gives the page's `Capture`; a failure gives the all-empty snapshot; a missing frame result, and only that, gives the empty object |
| `Snapshot.ButtonLabel` | src/background.js:237 | a button's label is its trimmed text when that is non-empty, else its value when that is non-empty, else its aria-label; it is empty only when all three are |
| `Snapshot.Headings` | src/background.js:223-227 | at most 20 headings, numbered from 0 in order, each text at most 100 characters |
| `Snapshot.Links` | src/background.js:229-233 | at most 30 links, numbered from 0 in order, each text at most 60 characters |
| `Snapshot.Buttons` | src/background.js:235-238 | at most 15 buttons, numbered from 0 in order, each label at most 50 characters |
| `Snapshot.HeadingsFollowDocumentOrder` | src/background.js:223-227 | heading i is the i-th `h1`–`h4` in document order, with its level (1–4) and the first 100 characters of its trimmed text (all of it when shorter); as many as the page has, up to 20 |
| `Snapshot.LinksFollowDocumentOrder` | src/background.js:229-233 | link i is the i-th `a[href]` with non-blank text, keeping its `href`; its text is the first 60 characters of the trimmed text (all of it when shorter), non-empty and not starting with white space; as many as the page has, up to 30 |
| `Snapshot.ButtonsFollowDocumentOrder` | src/background.js:235-238 | button i is the i-th `button`, `[role=button]` or submit input, labelled by the first 50 characters of its trimmed text, else its value, else its aria-label (all of it when shorter); as many as the page has, up to 15 |
| `Snapshot.SelectNone` | src/background.js:223-238 | a page without matching elements yields an empty list |
| `Dispatcher.FirstTextMatch` | src/background.js:161-169 | the result is a link or button whose lower-cased text contains the needle, and no earlier link or button does; no result means none does |
| `Dispatcher.FindByText` | src/background.js:161-169 | the scan with early return finds exactly the first matching link or button |
| `Dispatcher.Effects` | src/background.js:139-211 | an action has at most three effects on the page, and each acts only on an element of the page when the selector's matches are on the page |
| `Dispatcher.Execute` | src/background.js:139-211 | the dispatcher, with the click fallback as an early-return scan, produces exactly the effects of the specification `Effects` |
| `Dispatcher.PassiveDoesNothing` | src/background.js:140-142 | an absent or empty action, `none`, `read` and `list` have no effect |
| `Dispatcher.ClickChoosesOne` | src/background.js:150-170 | a click activates at most one element, which is on the page: the match at `index` (0 when absent or 0) if it exists; else, unless the selector threw, exactly the first link or button whose lower-cased text contains the lower-cased value; else nothing |
| `Dispatcher.FillSetsThenNotifies` | src/background.js:181-192 | a fill acts exactly when selector and value are present and the selector matches; it then sets the first match's value and fires `input` and then `change` |
| `Dispatcher.NavigateRule` | src/background.js:194-203 | `back` and `forward` use the history, any other non-empty value becomes the location, and an empty or absent value does nothing |
| `Dispatcher.ScrollRule` | src/background.js:172-179 | `down` scrolls down, `up` scrolls up, anything else does nothing |
| `Dispatcher.RefusedInjectionDoesNothing` | src/background.js:145-210 | when the script cannot be injected the error is caught and the page is untouched |
| `Interpreter.Remember` | src/background.js:100-107 | the new history ends with the command and the reply, is a suffix of the old history plus that pair, has 6 entries when the pair took it past 10 and otherwise the old length plus 2, and stays even and alternating user/assistant |
| `Interpreter.Request` | src/background.js:77-81 | a request has between 2 and 6 messages, the system prompt first and the user prompt last |
| `Interpreter.HistoryStaysBounded` | src/background.js:100-107 | whatever the outcome, a well-formed history stays well formed and is a suffix of the old history, with or without the pushed pair |
| `Interpreter.ReplyIsRemembered` | src/background.js:101-102 | an OK reply is remembered, parseable or not |
| `Interpreter.RequestShape` | src/background.js:77-81 | a request is the system message, then at most the last 4 history entries in their original order, then the user message |
| `Interpreter.RequestAlternates` | src/background.js:77-81 | with a well-formed history, the messages after the system message alternate user/assistant, starting and ending with the user |
| `Interpreter.CleanReply` | src/background.js:110-117 | the fallback text is non-empty and has no `{`, `}` or `"`; it is the stripped and trimmed reply whenever that is non-empty, and the fixed apology otherwise |
| `Interpreter.Interpret` | src/background.js:57-126 | `callOpenAI` resolves to the model's parsed record on an OK reply that parses, to `none` with the cleaned text (or the apology) on one that does not, and otherwise to `none` with a non-empty response |
| `Interpreter.FailureLeavesHistory` | src/background.js:57-126 | a missing key, a bad status and anything thrown answer `none` with a fixed text and leave the history unchanged |
| `Interpreter.OwnAnswersAreSpeakable` | src/background.js:57-126 | every result that is not the model's parsed record is `none` with a non-empty response |
| `Interpreter.ParsedReplyPassesThrough` | src/background.js:110-111 | a reply that parses is returned unchanged |
| `Background.Coordinator.constructor` | src/background.js:3-7 | the history starts empty and the state `stopped` |
| `Background.Coordinator.CallOpenAI` | src/background.js:14-127 | the request sent (none without a key), the record returned and the new history, which stays well formed |
| `Background.Coordinator.HandleMessage` | src/background.js:252-362 | the whole output of every message type and the new listening state: `VOICE_STATUS` and `VOICE_ERROR` are relayed to the popup and set the state; `START_LISTENING` reports `no-tab` or `page-not-supported` and sets `listening` only once the tab was messaged; `STOP_LISTENING` sets `stopped`; `GET_LISTENING_STATUS` reports without change; `SPEAK` speaks a non-empty text; a voice command sends the request built from the page snapshot, then dispatches and speaks the result and remembers the exchange; no tab or a failed query speaks an apology |
| `Recognition.Transcript` | src/content.js:28-37 | with one alternative per result (`maxAlternatives = 1`), the transcript is the last result's sole alternative |
| `Recognition.ErrorPolicy` | src/content.js:43-47 | `aborted` is always swallowed, `no-speech` exactly in continuous mode, every other code is forwarded |
| `Recognition.PermissionReports` | src/content.js:67-83 | asking for the microphone reports at most one error, and none exactly when permission was already granted or is granted now |
| `Recognition.Controller.constructor` | src/content.js:12-23 | all flags start false; a browser without speech recognition is reported as `speech-not-supported` |
| `Recognition.Controller.InitRecognition` | src/content.js:17-64 | the engine exists afterwards exactly when the browser supports it, else the error is reported |
| `Recognition.Controller.OnStart` | src/content.js:30-33 | listening, reported as `listening` |
| `Recognition.Controller.OnResult` | src/content.js:36-40 | the transcript goes out as a `processing` status and then a `VOICE_COMMAND` |
| `Recognition.Controller.OnError` | src/content.js:43-47 | the code is forwarded unless swallowed |
| `Recognition.Controller.OnEnd` | src/content.js:50-61 | continuous and listening: stay listening and schedule a restart; otherwise stop listening and report `stopped` |
| `Recognition.Controller.RestartFires` | src/content.js:52-56 | the restart starts the engine only if both flags still hold |
| `Recognition.Controller.RetryFires` | src/content.js:101-103 | the retry after a failed start starts the engine without a guard |
| `Recognition.Controller.RequestMicPermission` | src/content.js:67-83 | a cached grant succeeds without asking; no `mediaDevices` reports `audio-capture`; a refusal reports `not-allowed` and is not cached |
| `Recognition.Controller.StartListening` | src/content.js:86-105 | the whole new state: without support only `speech-not-supported` is reported; while listening nothing changes; otherwise the mode is the argument's boolean, the permission outcome is reported and cached, and only when allowed is the controller listening and the engine started, with a stop and one retry when the start throws |
| `Recognition.Controller.StopListening` | src/content.js:108-115 | both flags cleared, the engine stopped if it exists, `stopped` reported, nothing else changed |
| `Recognition.Controller.OnMessage` | src/content.js:118-127 | a start request has exactly the effect of `startListening` with the request's mode, a stop request that of `stopListening`; both are answered with success |
| `Recognition.StopCancelsPendingRestart` | src/content.js:108-115 | after a stop, a pending restart issues no start |
| `Recognition.ContinuousEndRestarts` | src/content.js:50-56 | in continuous mode an end of recognition followed by its timer starts the engine again |
| `Panel.ErrorTextTable` | src/content.js:228-236 | the four known codes get their fixed texts; any other code reads `Voice error: ` followed by the code, so different unknown codes read differently |
| `Panel.ErrorText` | src/content.js:228-236 | a known code reads as one of the table's texts; any other code is the prefix `Voice error: ` followed by the code |
| `Panel.ToggleShortcutKeys` | src/content.js:427 | the toggle shortcut is Alt with `v` or `V` |
| `Panel.PanelController.constructor` | src/content.js:139-141 | flags start false and the engine exists when supported |
| `Panel.PanelController.OnStart` | src/content.js:199-202 | listening, shown as listening |
| `Panel.PanelController.OnResult` | src/content.js:205-214 | the transcript is shown and sent as a command |
| `Panel.PanelController.OnError` | src/content.js:217-237 | unless swallowed, the error text for the code is shown |
| `Panel.PanelController.OnEnd` | src/content.js:239-257 | continuous and listening: schedule a restart; otherwise stop listening and show ready |
| `Panel.PanelController.RestartFires` | src/content.js:243-251 | the restart starts the engine only if both flags still hold |
| `Panel.PanelController.RetryFires` | src/content.js:284-291 | the retry starts the engine and reports when it fails again |
| `Panel.PanelController.StartListening` | src/content.js:263-293 | the whole new state: unsupported shows the error; listening is a no-op; otherwise the mode is the checkbox's state and the engine is started (a stop and one retry when the start throws), without setting `isListening` |
| `Panel.PanelController.StopListening` | src/content.js:296-308 | both flags cleared, the engine stopped if it exists, ready shown, nothing else changed |
| `Panel.PanelController.ToggleListening` | src/content.js:310-316 | exactly the effect of `stopListening` when listening and of `startListening` otherwise |
| `Panel.PanelController.HandleKeyboard` | src/content.js:425-437 | Alt+V has exactly the toggle's effect, Escape while listening exactly the stop's effect, any other key changes nothing; the default is prevented exactly in the first two cases |
| `Panel.PanelController.OnCheckboxChange` | src/content.js:415-420 | unchecking while listening leaves continuous mode |
| `Panel.PanelController.OnMessage` | src/content.js:442-458 | a response shows ready unless continuous and changes nothing else; start and stop have exactly the effects of `startListening` and `stopListening`; ping and other messages change nothing; ping, start and stop are answered with success |

## Left out

- The language-model HTTP call, `response.json()` and `JSON.parse` are inputs (`ApiOutcome`). A reply that parses to something other than an object of string fields (a number, `null`, a field of the wrong type) is not modelled.
- The prompt texts (src/background.js:16-55) are parameters. The user prompt is a function of the page snapshot and the command supplied with the environment; its templating and its slice caps of 10, 15, 10 and 2000 are not modelled.
- `chrome.tts`, `chrome.runtime` and `chrome.tabs` messaging and `chrome.scripting.executeScript` are foreign I/O. Their results are inputs; what is sent or spoken is returned as output.
- The scroll distance, `innerHeight * 0.75`, is floating point. Only its sign is modelled.
- Text.ToLower: lower-cases ASCII letters only, not the full Unicode case mapping of `toLowerCase`. This affects the click text search and the Alt+V test.
- Strings are sequences of Unicode scalar values, not UTF-16 code units, so `slice` caps count characters rather than code units.
- An `index` that is not an integer (a string or a fraction) is not modelled.
- `listeningState` takes any string a `VOICE_STATUS` message carries. The model allows only `stopped`, `listening` and `processing`, the values the content scripts send.
- Each handler is modelled as atomic. The suspension points inside them (`await` on tab queries, permission and the API call) are not modelled. Neither are two voice commands whose calls overlap.
- Timer delays (100, 200, 300 and 500 ms) are not modelled. A timer is an explicit event that fires after being scheduled.
- The `recognition.continuous` engine setting is not modelled, only the `continuousMode` flag.
- Tones (`playTone` and its callers), `updateUI`'s DOM changes, `setResponse`, `createPanel`, `loadTemplate` and `loadStyles` are presentation. `updateUI` calls are recorded as a log.
- Panel.ErrorText: the lookup `errorMessages[code]` also finds keys inherited by every JavaScript object (`constructor`, `toString`, `__proto__`); the model's table holds only the four own keys.
- Both content-script listeners receive the same `START_LISTENING` and `STOP_LISTENING` tab message. The model treats the two controllers as independent classes and does not model their shared engine or microphone.
- The once-per-page guards (`window.__voiceNavigatorContent`, `window.__voiceNavigatorInitialized`) are not modelled.
- The `onresult` handlers require a non-empty result list whose last entry has exactly one alternative. The engine is configured with `maxAlternatives = 1` and always delivers that.
- src/popup/popup.js, src/App.jsx, src/main.jsx and vite.config.js are not part of this model. They hold UI glue, an unrelated template and build configuration.
