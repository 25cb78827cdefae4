# OpenAI ODI plugin core, modelled in Dafny

The plugin (`js/index.js`) gives an e-learning course chat sessions with a
language-model backend. It has two classes:

- **`Conversation`** holds one chat: its ordered messages, an optional
  server-assigned id and the learner's current block. It builds the
  completion request and, when an auth server is configured, registers
  itself there.
- **`OpenAIODI`** is the single manager. It keeps the registry of live
  conversations and the `ready` flag. It runs `checkAIReady`, which probes
  the backend and handles the learner's access key: it uses a key already in
  the configuration, or an unexpired key cached in localStorage, or it
  issues a new GUID token and shows the auth server's page for it.

The model keeps the source's form:

- **Classes where the source updates objects in place.**
  - `Conversations.Conversation` and `Plugin.OpenAIODI` are classes whose
    methods change their fields.
  - The configuration object is the class `Conversations.Config`. Every
    conversation holds the manager's object, so a key the manager writes
    into it is the key the probe conversation sends.
- **Pure functions for the expression-only parts.** These are request
  construction, `_generateGUID` and the decision made by one
  `checkAIReady` call (`Readiness.ReadyStep`).
- **`CheckAIReady` proved against `ReadyStep`.** The imperative
  `Plugin.OpenAIODI.CheckAIReady` runs the code's statements in order,
  with the proxy branch's three `if`s as the equivalent three-way choice. It
  is proved to leave exactly the flag, configuration, store, effects and
  result that `ReadyStep` gives. It also leaves the registry as it was,
  except on the one path where the code forgets the probe conversation.

The environment is passed in:

- the clock as an integer `now`;
- the probe's reply (a status, or a failed `fetch`);
- the replies of the other requests;
- the eight floored random draws of a token.

What the code does outside its own state is returned as effects, in order:

- `Probe(request)`: the probe is sent;
- `NotifyReady`: `Adapt.trigger('openai:ready')`;
- `CloseOverlay` and `DisplayOverlay(url)`: the overlay is closed or shown;
- `ScheduleRetry`: `setTimeout(checkAIReady, 10000)`.

A call resolves to `Ready` (true), `Failed(message)` (the returned error
message) or `Pending` (undefined).

The model follows the code, including where it does something a reader
might not expect:

- In proxy mode a failed probe `fetch` is caught and returned as an error
  message. It is not turned into another polling round.
- With a configured key and a non-200 probe, a retry is scheduled but the
  probe conversation is never destroyed. Each such call leaves one more
  conversation in the registry. `Readiness.Run` counts them in `leaked`;
  `Readiness.RunLeaksEachRefusal` shows that n such calls leak n probes,
  and `Readiness.RunKeepsMode` that there is at most one per call, and only
  in proxy mode.
- The proxy branch is three `if`s in a row, each testing what the previous
  one left. `Readiness.InOrderProxyCheck` renders them in that order, and
  `Readiness.InOrderProxyCheckIsProxyCheck` proves this equal to the
  three-way choice `Readiness.ProxyCheck`, which the imperative methods
  follow.

## Model

| member | source | states |
|---|---|---|
| `Radix.ToString` | js/index.js:258-261 | `Number.toString(radix)` of a non-negative integer is at least one digit, all below the radix, with no leading zero |
| `Radix.ValueOfToString` | js/index.js:258-261 | reading the digits back in the same radix gives the number, so `toString` loses nothing |
| `Guid.HexOfDraw` | js/index.js:258-261 | a draw in [0x10000, 0x20000) is written as exactly five hex digits, the first being `1` |
| `Guid.S4` | js/index.js:258-262 | `s4()` yields four lower-case hex digits that denote the draw minus 0x10000, so `substring(1)` zero-pads |
| `Guid.GenerateGuid` | js/index.js:256-266 | the token is 36 characters, with dashes at 8, 13, 18 and 23 and lower-case hex elsewhere |
| `Guid.DrawsOfGenerateGuid` | js/index.js:256-266 | the eight groups of the token give back the eight draws, so different draws give different tokens |
| `Registry.RemoveFirst` | js/index.js:249-254 | an absent entry leaves the list unchanged; otherwise it is one shorter and exactly one occurrence of the entry is gone |
| `Registry.RemoveFirstAt` | js/index.js:250-253 | removal cuts out the entry at the first index holding it and keeps the others in order, as `splice(index, 1)` does |
| `Registry.RemoveFirstOfAppended` | js/index.js:240-254 | destroying a conversation just created gives back the registry as it was |
| `Registry.RemoveFirstDistinct` | js/index.js:249-254 | removal keeps the registry free of duplicates and removes the entry entirely, so a second destroy changes nothing |
| `Registry.IndexOf` | js/index.js:250 | `indexOf` returns the first index holding the entry, or -1 exactly when it is absent |
| `Conversations.Config.constructor` | js/index.js:159-160 | the configuration object holds the settings it is given |
| `Conversations.BuildRequest` | js/index.js:75-90 | the body asks for one choice and carries the messages and model parameters; with an id the URL is `apiUrl/id` and the body has `currentBlock`, without one the URL is `apiUrl` and there is no `currentBlock`; the id can be read back from the URL |
| `Conversations.ProbeRequest` | js/index.js:114-131 | the probe goes to `apiUrl` itself with the bearer key, asks for one choice, carries the messages and model parameters, and has no `currentBlock` |
| `Conversations.ProbeRequestIsUnaddressed` | js/index.js:114-131 | the probe is the completion request of a conversation without an id, whatever its block |
| `Conversations.ProbeResult` | js/index.js:120-140 | every HTTP status is returned, 200 or not; only a failed `fetch` is an error, with the prefix "Error fetching response code: " |
| `Conversations.ReplyResult` | js/index.js:92-111 | a 2xx reply gives its value; a rejection gives "Error: status text - code - message", and every error gets the prefix "Error fetching response: " |
| `Conversations.SkillsOf` | js/index.js:19-25 | the skills object holds the first item's uri and title when there is a first item, and is empty otherwise |
| `Conversations.CreationRequest` | js/index.js:18-50 | a registration is sent exactly when an auth server is configured, to `clientAuthServer/createConversation`, with the bearer key, the ids and the skills object |
| `Conversations.Conversation.constructor` | js/index.js:4-8 | a new conversation has no messages, an empty block and no id |
| `Conversations.Conversation.AddMessage` | js/index.js:10-12 | the message is appended at the end, and only `messages` changes |
| `Conversations.Conversation.SetCurrentBlock` | js/index.js:14-16 | the block is replaced, and only `currentBlock` changes |
| `Conversations.Conversation.ClearMessages` | js/index.js:143-145 | the history becomes empty, and the id and block are left alone |
| `Conversations.Conversation.SetConversationID` | js/index.js:18-61 | without an auth server nothing is sent and nothing changes; otherwise an accepted id is adopted, and a failure leaves the id alone and reports the prefixed error |
| `Conversations.Conversation.GetResponse` | js/index.js:64-112 | test mode returns the canned response and sends nothing; otherwise the completion request for the current state is sent and the reply's value or error returned |
| `Conversations.Conversation.GetResponseCode` | js/index.js:114-141 | the probe for the current messages is sent and its status returned, whatever it is |
| `Readiness.DirectCheck` | js/index.js:171-182 | direct mode becomes ready exactly on 200; any other status fails with "Error: status text", a failed fetch with "Error fetching response code: " and its message; the call never stays pending and changes neither configuration nor store |
| `Readiness.DirectCheckEffects` | js/index.js:171-182 | direct mode sends exactly one probe, with the configured settings; readiness is announced exactly once on success and never otherwise; nothing else is done |
| `Readiness.IssueKey` | js/index.js:221-228 | a fresh GUID-shaped token becomes the configured key, the overlay is shown for it and a retry scheduled; the store is untouched |
| `Readiness.KeyedCheck` | js/index.js:184-202 | with a configured key, 200 makes the plugin ready and caches the key for one day; any other status keeps the probe registered and leaves the call pending |
| `Readiness.KeyedCheckEffects` | js/index.js:184-202 | exactly one probe is sent, with the configured key; readiness is announced and the overlay closed exactly on success; exactly one retry is scheduled when pending and none otherwise; the overlay is never shown |
| `Readiness.CachedCheck` | js/index.js:204-228 | a cached key is adopted and probed; on 200 the plugin is ready; on any other status both store entries and the configured key are removed and a new token is issued |
| `Readiness.CachedCheckEffects` | js/index.js:204-220 | exactly one probe is sent, with the cached key; readiness is announced exactly once on success; exactly one retry is scheduled on a refusal and none otherwise; the overlay is never closed |
| `Readiness.CachedCheckOverlay` | js/index.js:204-228 | a refused cached key, and nothing else, shows the overlay, at the auth server with the new token |
| `Readiness.ProxyCheck` | js/index.js:183-228 | ready exactly when a key, configured or cached, is probed and answered with 200; the probe is kept exactly on a refused configured key; pending exactly on a refusal or when there was no key to probe; a failed fetch returns its prefixed message; only the key changes |
| `Readiness.InOrderProxyCheckIsProxyCheck` | js/index.js:184-228 | the code's three consecutive `if`s, each reading the state the previous left, give the same step as the three-way choice |
| `Readiness.ReadyStep` | js/index.js:164-238 | a ready plugin changes and does nothing; readiness needs a 200; only the key may change in the configuration; the probe stays registered exactly on a refused configured key; the fixed 500 error when neither mode is configured; a failed probe fetch returns "Error fetching response code: " and its message; the store changes only by caching on success or eviction |
| `Readiness.ReadyStepEffects` | js/index.js:164-238 | "openai:ready" fires exactly once on the transition to ready and never otherwise; exactly one retry is scheduled when the call is pending and none otherwise |
| `Readiness.ReadyStepProbeKey` | js/index.js:164-207 | a call sends exactly one probe when it is not yet ready and a key is probed (direct mode, or proxy mode with a configured or usable cached key), and none otherwise; every probe carries the configured key, or the cached one exactly when proxy mode adopts it |
| `Readiness.ReadyStepClosesOverlay` | js/index.js:183-213 | the overlay is closed exactly when proxy mode's configured key is accepted; an accepted cached key does not close it |
| `Readiness.ReadyStepOverlay` | js/index.js:183-228 | the overlay is shown exactly when proxy mode is left without a working key, at `clientAuthServer?accessToken=<new token>` |
| `Readiness.Run` | js/index.js:199-201 | consecutive calls, each retry being the next call: once ready the plugin stays ready, and each call leaves at most one probe behind |
| `Readiness.RunNotifiesOnce` | js/index.js:164-238 | over any sequence of calls "openai:ready" fires once if the plugin became ready and never otherwise; a run that starts ready changes nothing |
| `Readiness.RunReadyNeedsOk` | js/index.js:164-238 | a run becomes ready only if some probe in it was answered with 200 |
| `Readiness.RunKeepsMode` | js/index.js:164-238 | a run changes only the configured key; it leaves at most one probe per call registered, and only in proxy mode |
| `Readiness.RunLeaksEachRefusal` | js/index.js:184-202 | n refused calls with a configured key in proxy mode leave exactly n probes registered, and the plugin unready with its key and store unchanged |
| `Plugin.OpenAIODI.constructor` | js/index.js:149-154 | the manager starts with an empty registry and is not ready |
| `Plugin.OpenAIODI.CreateConversation` | js/index.js:240-247 | one fresh, empty conversation on the shared configuration is appended; registration starts exactly when ready |
| `Plugin.OpenAIODI.DestroyConversation` | js/index.js:249-254 | the registry loses the first occurrence of the conversation and stays free of duplicates |
| `Plugin.OpenAIODI.CheckAIReady` | js/index.js:164-238 | the new flag, configuration, store, effects and result are those of `ReadyStep`; the registry is unchanged, except that one fresh probe is left at its end exactly when `ReadyStep` keeps it |
| `Plugin.OpenAIODI.CheckMisconfigured` | js/index.js:229-237 | with neither mode configured the probe is destroyed twice, harmlessly, and the 500 error returned with no effects |
| `Plugin.OpenAIODI.CheckDirect` | js/index.js:171-182 | the direct-mode statements give `DirectCheck`'s flag, effects and result and remove the probe |
| `Plugin.OpenAIODI.CheckProxy` | js/index.js:183-228 | the proxy-mode statements give `ProxyCheck`'s state, effects and result, and the registry keeps the probe exactly when the step does |
| `Plugin.OpenAIODI.ProbeConfiguredKey` | js/index.js:184-202 | the configured-key statements give `KeyedCheck`'s flag, store, effects and result |
| `Plugin.OpenAIODI.ProbeCachedKey` | js/index.js:204-228 | the cached-key statements give `CachedCheck`'s flag, configuration, store, effects and result and remove the probe |
| `Plugin.OpenAIODI.IssueNewKey` | js/index.js:221-228 | the new-key statements give `IssueKey`'s configuration, effects and result and remove the probe |

## Left out

- `fetch`, JSON parsing and response shapes are not modelled. Each request
  is returned as a value, and its reply is an input.
  - A reply that is not the expected JSON is outside the model. A 2xx
    completion reply is its message content.
  - `setConversationID`'s `courseId` and the course's skills items are
    parameters. The code would throw when `_skillsFramework` exists without
    `_items`; the model does not cover that.
- Adapt and Backbone are not modelled: `extends Backbone.Controller`,
  `listenTo`, `onPostReady`, `Adapt.config.get` and `Adapt.trigger`.
  - The manager's constructor takes the configuration object that
    `onPostReady` reads. It does not model reading it again on a later page.
  - The notification is the effect `NotifyReady`.
- The DOM overlay is not built. Only the `DisplayOverlay(url)` and
  `CloseOverlay` effects are kept. The close button is not modelled.
- Timers are effects, not time:
  - the 3-second test-mode delay is not modelled;
  - the 10-second retry is `ScheduleRetry`;
  - the retry itself is the next call in `Readiness.Run`.
- `Math.random` and floating-point arithmetic are not modelled. Each `s4()`
  takes its floored value in [0x10000, 0x20000) as an input.
- The cached key's expiry is `now + 86400000`. `Date.setDate(+1)` also
  follows calendar days and daylight-saving changes; that is not modelled.
- localStorage holds strings, which the code compares with numbers. The
  store is modelled with typed optional values, and a missing expiration
  compares as 0, as `null > now` does.
- Console logging is not modelled.
- Token-budget trimming is only a comment in the code, so there is nothing
  to model.
- Concurrency is not modelled. Overlapping `checkAIReady` calls and the
  fire-and-forget `setConversationID` started by `createConversation` are
  event-loop concerns. Each call is one sequential step, with its `await`s
  run in order.
- `Conversations.Conversation.GetResponse`: the test-mode result is
  returned at once rather than after the 3-second delay.
