# ChatGPT bulk deleter — a verified model

The extension deletes ChatGPT conversations and memories in bulk. It has four
parts, and each one is a module here:

- **Popup** (`popup.dfy`, from `src/popup/popup.ts`). It holds the lists, the
  selection (a JavaScript `Set` that keeps insertion order) and the progress
  counter. `handleDelete` caps a run at 50 ids, asks the token cache to clear,
  and deletes the selection in consecutive groups of five. For each id it
  settles the list, the selection, the counter and the error list.
- **Relay** (`relay.dfy`, from `src/popup/api-client.ts`). It picks the site's
  tab, makes sure the content script is loaded, forwards a request and maps
  the reply envelope to a settled result. It retries the conversation list
  with exponential back-off.
- **PageApi** (`page_api.dfy`, from `src/content-api.ts`). This is the content
  script. It dispatches the popup's actions, gets a credential from the page
  and caches it, and calls the site's HTTP API. That includes the POST-then-
  DELETE fallback for memories, the status and `success` checks, and the
  error messages.
- **TokenBridge** (`token_bridge.dfy`, from
  `public/assets/fetch-interceptor.js`). It wraps the page's `fetch`, keeps
  the last `authorization` value it saw, and answers `GET_AUTH_TOKEN`.

`messages.dfy` holds the values the parts exchange. `text.dfy` holds
decimal rendering and `substring(0, n)`. `end_to_end.dfy` states how the
parts fit together.

The browser and the network are inputs:
- the tab list, the outcome of the ping race, whether injection succeeds, and
  what the message channel delivers (`Relay.RelayWorld`);
- the window events and the outcome of each `fetch` (`PageApi.PageEnv`);
- the outcome of each id's delete call (`outcome`, a function of the id);
- the user's answer to `confirm` (`confirmed`).

Timers appear only as the waits they would schedule.

State that the source mutates in place is modelled by classes:
- `Popup.PopupState` holds the popup's `state`, `selectedIds` and the delete
  button;
- `PageApi.PageClient` holds the module-level token cache;
- `TokenBridge.Bridge` holds the closure's `authToken`.

Their methods are proved against specification functions: `Errors`,
`Succeeded`, `Retain`, `Chunks`, `Dedup`, `Acquire`, `Perform` and
`Observe`. The lemmas beside those functions state what the source
promises. `StoredAfter` folds `Observe` over a run of calls, and the lemmas
about the stored token are stated over it.

### Where the code and its stated intent differ

The model follows the code in both cases.

- **`clearTokenCache` clears nothing.** The popup sends it before every run,
  but the content script's `switch` has no case for it. It is answered
  `'Unknown action'`, and the popup ignores the failure. No code path ever
  resets the cached token. See `PageApi.ClearTokenCacheIsUnknown` and
  `EndToEnd.ClearTokenCacheIsRejected`.
- **The retry wrapper waits twice, not three times.** A comment next to the
  back-off mentions waits of 1, 2 and 4 seconds. There is no wait after the
  last attempt, so the default of three attempts waits 1000 ms and 2000 ms
  (`Relay.SendMessageWithRetry`).

## Model

| member | source | states |
|---|---|---|
| `TokenBridge.CarriedToken` | public/assets/fetch-interceptor.js:12-15 | a call carries a credential iff it has headers and `authorization` or `Authorization` is truthy; the lowercase one wins when both are; a carried credential is never empty |
| `TokenBridge.LastWriteWins` | public/assets/fetch-interceptor.js:8-17 | after any run of calls, the stored token is the credential of the last carrying call, and is unchanged when no call carried one |
| `TokenBridge.StoredIsTruthy` | public/assets/fetch-interceptor.js:14-15 | starting from `null`, the stored token is always `null` or a non-empty string |
| `TokenBridge.Bridge.constructor` | public/assets/fetch-interceptor.js:5 | no token is stored before the first call |
| `TokenBridge.Bridge.Fetch` | public/assets/fetch-interceptor.js:8-21 | the stored token is updated exactly as `Observe` says, and the original `fetch` gets the same call and its result is returned unchanged |
| `TokenBridge.Bridge.OnMessage` | public/assets/fetch-interceptor.js:24-33 | a reply is posted iff the event comes from the same window and asks for `GET_AUTH_TOKEN`; it is an `AUTH_TOKEN` answer carrying the stored token, or `null` |
| `Text.NatToString` | src/content-api.ts:144 | the status in an error message prints as a non-empty run of decimal digits with no leading zero |
| `Text.NatToStringRoundTrip` | src/content-api.ts:144 | reading the printed digits back gives the status |
| `Text.NatToStringInjective` | src/content-api.ts:144 | two different statuses never print alike |
| `Text.Prefix` | src/content-api.ts:144 | `substring(0, n)` has length `min(len, max(n, 0))` and is a prefix of the text |
| `PageApi.FetchWithTimeout` | src/content-api.ts:36-57 | an answer passes through; an abort becomes `Request timeout after 30000ms`-style text; any other rejection passes through unchanged |
| `PageApi.HttpError` | src/content-api.ts:141-145 | the message is `Failed to <what>: ` followed by the status digits, which parse back to the status, then ` - `, then exactly the first `min(len, 100)` characters of the body |
| `PageApi.FirstTokenAnswer` | src/content-api.ts:335-337 | it finds the first same-window `AUTH_TOKEN` event, when there is one, and no earlier event is one |
| `PageApi.Acquire` | src/content-api.ts:328-371 | a cached token is returned without posting; otherwise the first same-window answer decides: a truthy token is returned and cached, and a null one rejects with `No auth token found`; no answer rejects with `Failed to get auth token`; a failure leaves the cache as it was; the account id follows the token's claim when it can be read; the cache only ever holds a non-empty token |
| `PageApi.AuthHeaders` | src/content-api.ts:122-131 | `Content-Type` and `Authorization` are always present; `chatgpt-account-id` is present iff the cached id is truthy, and it holds that id |
| `PageApi.ListOutcome` | src/content-api.ts:133-151 | a 2xx response with parsable JSON is the only success, and yields the document; non-2xx gives the `HttpError` text; a parse error, an abort or a thrown error gives their message |
| `PageApi.ConversationDeletion` | src/content-api.ts:226-246 | it succeeds iff the response is 2xx and the body's `success` is truthy; a 2xx with a falsy `success` gives `Delete operation returned success: false`; a 2xx body that does not parse gives the parse error; non-2xx, abort and thrown errors give their messages |
| `PageApi.DeleteMemoryOutcome` | src/content-api.ts:274-306 | a 2xx primary POST succeeds with no fallback; otherwise exactly one fallback DELETE is made, and its own status decides success or the error |
| `PageApi.ListExchange` | src/content-api.ts:112-156 | a list operation sends exactly its one GET; its data is the document `ListOutcome` accepted, and a failed list rejects with exactly `ListOutcome`'s message |
| `PageApi.MemoryExchange` | src/content-api.ts:256-313 | the POST is always sent, and the DELETE follows it exactly when the POST did not get a 2xx answer; the deletion succeeds iff the POST or the DELETE got a 2xx answer, yields no data, and otherwise rejects with the fallback's error |
| `PageApi.Issue` | src/content-api.ts:112-313 | every request of an operation carries the same headers; a delete of a memory sends one or two requests and every other operation sends one; only list operations yield data |
| `PageApi.Perform` | src/content-api.ts:117-131 | the credential comes first; when it fails the operation rejects with its message and sends nothing; otherwise every request carries the headers built from that token and the account id then cached |
| `PageApi.RouteOf` | src/content-api.ts:60-101 | `ping` is answered directly; `getConversations` reaches the conversation list, with offset 0 and limit 28 for absent fields; `getMemories` reaches the memory list; `deleteConversation` and `deleteMemory` reach their deletes with the message's id (`undefined` when absent); every other action is unknown |
| `PageApi.Reply` | src/content-api.ts:77-104 | success is `{success: true, data}` and failure is `{success: false, error: message}`, with nothing else set |
| `PageApi.ClearTokenCacheIsUnknown` | src/content-api.ts:98-100 | `clearTokenCache` takes the unknown-action branch |
| `PageApi.PageClient.constructor` | src/content-api.ts:316-317 | both caches start out `null` |
| `PageApi.PageClient.GetAuthToken` | src/content-api.ts:328-371 | the loop over delivered events returns and caches what `Acquire` specifies |
| `PageApi.PageClient.Run` | src/content-api.ts:112-313 | each operation's result, requests and new cache are those of `Perform` |
| `PageApi.PageClient.HandleMessage` | src/content-api.ts:60-109 | `ping` gives `{success:true, data:'pong'}` and an unknown action gives `{success:false, error:'Unknown action'}`, both sending nothing and leaving the cache alone; an operation replies with the envelope of its `Perform` result |
| `Relay.Query` | src/popup/api-client.ts:73-85 | a tab query answers exactly the site's tabs that meet the query's `active`/`currentWindow` conditions |
| `Relay.FirstPassing` | src/popup/api-client.ts:81 | the position of the first tab, in the browser's order, that passes a query, and none earlier passes; none when no tab passes |
| `Relay.QueryFirst` | src/popup/api-client.ts:73-85 | `tabs[0]` of a query's answer is the first tab in the browser's order that passes the query, or `null` when none does |
| `Relay.FindTab` | src/popup/api-client.ts:35-63 | it takes the first active tab of the current window, else the first tab of the current window, else the first tab of the site, each first in the browser's order |
| `Relay.FindTabSiteTab` | src/popup/api-client.ts:35-63 | the chosen tab is an open tab of the site; there is none iff no tab is on the site; an active tab of the current window wins whenever one exists, and otherwise a tab of the current window does |
| `Relay.EnsureContentScriptLoaded` | src/popup/api-client.ts:90-140 | an answered probe is the only step; a failed or late probe is followed by exactly one injection, and then by one 500 ms settle wait iff the injection worked; any answer counts as loaded |
| `Relay.MapResponse` | src/popup/api-client.ts:175-201 | a channel error and a missing response reject; `success` resolves with `data`; anything else rejects with `error`, or `Unknown error` when that is falsy; a rejection is never empty |
| `Relay.SendToTab` | src/popup/api-client.ts:145-202 | a tab without a usable id is refused before anything happens; one 1000 ms wait happens iff the tab is loading; the message is sent, as the last step, iff it is `ping` or the script is or becomes loaded, and is otherwise refused with the remediation text; a sent message settles by `MapResponse` |
| `Relay.SendToTabSteps` | src/popup/api-client.ts:145-175 | for a usable tab the steps are, in this order: one 1000 ms wait iff the tab is loading, then the loading check's exact steps for every action but `ping`, then the message unless the check failed |
| `Relay.SendMessage` | src/popup/api-client.ts:35-68 | when `FindTab` finds no tab it rejects with the no-tab text and takes no step; otherwise it sends to the tab `FindTab` chose |
| `Relay.SendMessageNeedsSiteTab` | src/popup/api-client.ts:35-68 | when no open tab is on the site, the message rejects with the no-tab text before any step; when one is, the tab `FindTab` chose gets the message |
| `Relay.SendMessageWithRetry` | src/popup/api-client.ts:7-30 | at most `maxRetries` attempts, stopping at the first success and returning its value; when all fail, the last error, or `All retry attempts failed` when there was no attempt; after failed attempt k a wait of 2^(k-1)·1000 ms, except after the last; for 3 attempts that is [1000, 2000] |
| `Relay.MessageOf` | src/popup/api-client.ts:207-262 | each public method sends its own action: the list of conversations with its offset and limit, the list of memories, each delete with its id, and `clearTokenCache`; only the fields a method sets are present; none sends `ping` |
| `Relay.Call` | src/popup/api-client.ts:207-262 | only `getConversations` with `useRetry` goes through the retry wrapper, with three attempts; every other call makes exactly one attempt |
| `Popup.AddMembers` | src/popup/popup.ts:213 | adding to the selection keeps it repeat-free and adds exactly the new id |
| `Popup.WithoutMembers` | src/popup/popup.ts:215 | deleting from the selection removes exactly that id and keeps it repeat-free |
| `Popup.DedupMembers` | src/popup/popup.ts:272-280 | the Set built from a list of ids holds each of them once, and is the list itself when the list has no repeats |
| `Popup.WithoutHead` | src/popup/popup.ts:385 | removing the id at the head of the still-selected part leaves the rest of it |
| `Popup.WithoutAbsent` | src/popup/popup.ts:401 | deleting an id the selection lacks changes nothing |
| `Popup.Retain` | src/popup/popup.ts:380-382 | filtering never lengthens a list |
| `Popup.RetainMembers` | src/popup/popup.ts:380-382 | an item stays iff its id was not removed |
| `Popup.RetainConcat` | src/popup/popup.ts:380-382 | filtering works piecewise on a concatenation, so the remaining items keep their relative order |
| `Popup.RetainNothing` | src/popup/popup.ts:380-382 | filtering out no id leaves the list as it is |
| `Popup.RetainStep` | src/popup/popup.ts:380-382 | filtering out one id after a set of ids is the same as filtering out their union |
| `Popup.ChunksRebuild` | src/popup/popup.ts:344-345 | the groups of five, put back together, are the selection in its order |
| `Popup.ChunksShape` | src/popup/popup.ts:344-345 | there are ⌈n/5⌉ groups; each holds one to five ids; every group but the last holds five |
| `Popup.ChunksUnfold` | src/popup/popup.ts:344-345 | the slice starting at i is the first of the groups still to come |
| `Popup.NextGroup` | src/popup/popup.ts:344-345 | the groups taken so far, plus the next slice, plus the groups still to come are all the groups |
| `Popup.ErrorText` | src/popup/popup.ts:398 | an error entry's message is the call's message, or `Unknown error` when that is empty; it is never empty |
| `Popup.Errors` | src/popup/popup.ts:393-398 | there are never more error entries than processed ids |
| `Popup.SucceededMembers` | src/popup/popup.ts:377 | the successes are exactly the processed ids whose call was fulfilled |
| `Popup.ErrorsAreFailures` | src/popup/popup.ts:393-398 | every error entry names a processed id whose call failed, with that call's message |
| `Popup.FailuresAreListed` | src/popup/popup.ts:393-398 | every failed id has its entry, with its message |
| `Popup.ErrorsCount` | src/popup/popup.ts:424-426 | over a repeat-free selection, errors plus successes are the number of ids, so `total - errors.length` is the number of successes |
| `Popup.ProcessedStep` | src/popup/popup.ts:373-413 | processing the next id adds it to the successes or appends its error, never both |
| `Popup.SettledStart` | src/popup/popup.ts:337-342 | before the loop nothing is settled: the lists are intact, the errors empty, and the whole run still selected |
| `Popup.SettleNext` | src/popup/popup.ts:373-413 | settling one more id keeps the run's invariant: the active list loses exactly the succeeded ids, the errors list the failures in order, and the rest stays selected |
| `Popup.SettledEnd` | src/popup/popup.ts:416-418 | once every id is settled, the selection is empty and the errors and lists are those of the whole run |
| `Popup.PopupState.constructor` | src/popup/popup.ts:5-18 | the chat tab is active, the lists and selection are empty, and nothing is loading or deleting |
| `Popup.PopupState.UpdateUI` | src/popup/popup.ts:443-446 | the delete button is disabled iff nothing is selected or a run is in progress |
| `Popup.PopupState.Select` | src/popup/popup.ts:210-217 | ticking a box adds the id as `Set.add` does, keeps the selection repeat-free, keeps it inside the active list when the id is from that list, and reapplies the button rule |
| `Popup.PopupState.Deselect` | src/popup/popup.ts:210-217 | clearing a box removes the id, keeps the selection repeat-free and inside the active list, and reapplies the button rule |
| `Popup.PopupState.SwitchTab` | src/popup/popup.ts:64-93 | the new tab is active, the selection is empty, and the button rule holds |
| `Popup.PopupState.SelectAll` | src/popup/popup.ts:271-287 | the selection holds exactly the ids of the active list, in list order, once each |
| `Popup.PopupState.DeselectAll` | src/popup/popup.ts:290-298 | the selection is empty and the button rule holds |
| `Popup.PopupState.RecordResult` | src/popup/popup.ts:373-413 | the settled id leaves the selection whatever its outcome; on success its items leave the active list only; on failure an entry is appended; the counter becomes the number processed |
| `Popup.PopupState.SettleOne` | src/popup/popup.ts:373-413 | settling one id keeps the run's invariant and advances the counter by one |
| `Popup.PopupState.SettleBatch` | src/popup/popup.ts:373-413 | settling a group in index order keeps the run's invariant and leaves the counter at the group's end |
| `Popup.PopupState.DeleteInGroups` | src/popup/popup.ts:337-416 | the loop issues one delete call per id, in order and in groups of five; afterwards the selection is empty, the active list has lost exactly the succeeded ids, the other list is untouched, the errors list each failure once, and the counter equals the total |
| `Popup.PopupState.Run` | src/popup/popup.ts:323-439 | a confirmed run first asks the cache to clear and then deletes; it ends not deleting, with progress total of total, an empty selection, a disabled button, and a report of `total - errors` successes |
| `Popup.PopupState.HandleDelete` | src/popup/popup.ts:301-440 | an empty selection, more than 50 ids, or a declined confirmation return at once, with no call and no change; otherwise the run is as `Ran` describes |
| `Popup.Truncate` | src/popup/popup.ts:468-471 | text that fits is returned unchanged; longer text becomes its first `max` characters (none for a negative bound) followed by `...` |
| `EndToEnd.CallsReachTheirBranch` | src/popup/api-client.ts:207-262 | each of the client's public calls reaches the content script's branch for its own operation with the arguments it was given, and `clearTokenCache` reaches none |
| `EndToEnd.DeleteCallsReachTheirBranch` | src/popup/popup.ts:360-364 | every delete the popup issues reaches the content script's branch for its tab's kind with the same id, and makes a single attempt |
| `EndToEnd.ClearTokenCacheIsRejected` | src/popup/popup.ts:330-335 | the popup's cache-clearing request takes the unknown-action branch and comes back as a rejection with `Unknown action` |
| `EndToEnd.EnvelopeRoundTrip` | src/popup/api-client.ts:196-200 | the content script's envelope unwraps in the relay to the same result; an empty error message comes back as `Unknown error` |
| `EndToEnd.CapturedTokenReachesCache` | src/content-api.ts:335-357 | with an empty cache, when the bridge's answer is the first to arrive, the content script obtains and caches exactly the credential the page's own requests carried last, and rejects with `No auth token found` when none was carried |

## Left out

- DOM rendering, event wiring, checkbox states, progress and count text, the `deleting` style, and `escapeHtml`. The model keeps only the state these read.
- `alert` texts. `confirm` is the boolean `confirmed`.
- The reload after a run (`loadConversations`/`loadMemories` at popup.ts:433-437). `Popup.PopupState.HandleDelete` states the lists as the run left them, before the server's fresh lists replace them.
- `Popup.PopupState.SwitchTab`: the memory load is not modelled; it is I/O. The source reloads memories on every switch to the memory tab while the memory list is empty.
- `Popup.PopupState.constructor`: the button's initial `disabled` value comes from the popup's markup, which is not part of this model. The constructor assumes it starts disabled, and that is what makes the button rule hold before the first `updateUI`.
- Concurrency. The five calls of a group run in parallel, and the user can act while the popup awaits. Results are consumed in group order, so the model settles them one after the other. In the content script, parallel `getAuthToken` calls with an empty cache each post their own query; the model runs operations one at a time.
- `Popup.PopupState.HandleDelete`: the active tab is read once. The source reads `state.activeTab` again for every call and every result, which only matters if the tab is switched mid-run.
- The browser APIs are inputs: `chrome.tabs.query` order, the 100 ms ping race, script injection and `chrome.runtime.lastError`. So are `fetch`, `AbortController` and the 5 s and 30 s timers. Response bodies are opaque texts whose JSON is "parsed, with a truthy `success`, or not" (`PageApi.JsonBody`).
- Account-id extraction from the token (`atob` and `JSON.parse` on the JWT payload). It becomes `PageApi.ClaimOutcome`: unreadable, or a claim that may be absent.
- `PageApi.Url` and `PageApi.PayloadText` state no property. Requests carry their endpoint and body as values, and these two functions only spell them out as the source's strings.
- `PageApi.PayloadText` does not escape the id as `JSON.stringify` would.
- `Relay.ClientCall`: `getConversations` takes every argument explicitly; its defaults of offset 0, limit 28 and no retry are not modelled on the relay's side, because the popup passes all three. The content script's own defaults for absent fields are modelled by `PageApi.RouteOf`.
- `PageApi.RouteOf`: an absent `id` becomes the text `undefined`, as in the URL of a delete. In the memory POST body, `JSON.stringify({ id, action })` would instead drop the `id` key. The model's payload carries `undefined` as the id.
- `PageApi.JsonBody`: a 2xx body that parses to `null` makes the source throw a `TypeError` when it reads `success` or logs the item count. The model sees that only when the `fetch` outcome gives the body as `Unparsable` with that error's message. Read as `Parsed`, it would yield `Ok` or `Delete operation returned success: false`.
- `credentials: 'include'` and the abort `signal` of every request are not modelled. Nor is the `this` binding of `originalFetch.apply`.
- JavaScript strings are UTF-16. `length` and `substring` count code units, while the model counts characters.
- `offset`, `limit` and `maxRetries` are integers. Non-integer numbers and `null` fields are not modelled.
- `randomDelay` (unused, floating point), all `console` logging, and the `interceptFetch` script injection.
- `Popup.Retain` states only the length bound in its own contract. Membership, order and composition are stated by the lemmas `RetainMembers`, `RetainConcat`, `RetainNothing` and `RetainStep`.
