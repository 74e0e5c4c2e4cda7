# Realtime status tracker of a video-sync job, and the route guard

The front end of the video-sync app watches a processing job over a
WebSocket. Each text frame the server sends is appended to a message queue.
A 500 ms interval drains the queue one message per firing, and for each
message it:

- shows the message;
- classifies it as a failure, a success or neither, which sets the
  indicator (`null`, `syncing`, `error` or `success`);
- matches it against a catalog of nine milestones (`IMPORTANT_STEPS`),
  whose reached labels form an ordered, duplicate-free list;
- derives a completion percentage from the number of milestones reached.

The socket connects after 1000 ms and reconnects 5000 ms after every close.

The tracker exists twice:

- the context provider `WebSocketProvider` in
  `components/WebSocketContext.tsx`;
- the standalone component `ProcessVideoWebSocket` in
  `components/WebSockets.tsx`.

The two drain intervals differ in four ways:

- **Stickiness.** In the standalone component, `error` and `success` are
  final.
- **Milestone on a failing tick.** The standalone component returns before
  milestone matching on a failure; the provider records the milestone anyway.
- **Success phrase.** "get your file" for the provider, "download your file"
  for the standalone component.
- **Ninth catalog text.** "orange" for the provider, "download your file" for
  the standalone component.

The route guard in `middleware.ts` runs only on the paths `config.matcher`
covers: "/", "/upload" and every path below "/upload/". On those paths a
request without a session token is redirected to "/login", with the rest of
its URL kept. Its `isProtectedRoute` test is wider: it accepts every path
that starts with "/upload", so "/uploadx", "/uploads" and "/upload-x" count
as protected, yet the guard never runs on them and they are served without
a token (`Middleware.UploadxUnguarded`).

The model is one immutable `State` record with pure transitions. The
socket callbacks, the connection timers and the drain interval each become
one `Event`. `Run` applies a sequence of events in order.

Modules:

| Module | File | What it holds |
|---|---|---|
| `Text` | text.dfy | ASCII lower-casing, `includes` and the JavaScript `\s` set |
| `Patterns` | pattern.dfy | A small matcher for literal words and `\s+` runs, with a language semantics it is proved equal to |
| `Classifier` | classifier.dfy | The failure and success alternations |
| `Catalog` | catalog.dfy | The two milestone catalogs, `find`, and the percentage |
| `Tracker` | tracker.dfy | The state, events and both drain intervals |
| `Progress` | progress.dfy | Connection handlers, the state invariant and monotonicity |
| `ContextProvider` | provider.dfy | The provider variant |
| `StandaloneComponent` | standalone.dfy | The standalone variant |
| `Variants` | variants.dfy | Where the two variants differ and where they agree |
| `Phrases` | phrases.dfy | Facts about concrete log messages |
| `Walk` | walk.dfy | Sessions of messages, FIFO draining, and a full walk through the catalog |
| `Middleware` | middleware.dfy | The route guard |

## Model

| member | source | states |
|---|---|---|
| Text.Lower | components/WebSocketContext.tsx:122 | Lower-casing keeps the length, maps each character to its ASCII lower case and leaves no capital letter |
| Text.LowerOfLowerCase | components/WebSocketContext.tsx:122 | Lower-casing a string with no capitals returns it unchanged |
| Text.Includes | components/WebSocketContext.tsx:122 | A left-to-right `includes` scan answers true exactly when the needle occurs at some index of the haystack |
| Patterns.MatchAtIff | components/WebSocketContext.tsx:116 | The backtracking matcher succeeds at index i exactly when some word of the pattern's language starts at i; `\s+` means one or more JavaScript whitespace characters |
| Patterns.SpaceRunIff | components/WebSocketContext.tsx:116 | Trying every `\s+` run length succeeds exactly when some non-empty all-whitespace run is followed by a match of the rest |
| Patterns.MatchesFromIff | components/WebSocketContext.tsx:116 | The unanchored search from i succeeds exactly when the anchored matcher succeeds at some index at or after i |
| Patterns.MatchesIff | components/WebSocketContext.tsx:116 | A regular-expression `test` succeeds exactly when some substring of the input is a word of the pattern's language |
| Patterns.MatchesLiteralIff | components/WebSocketContext.tsx:113 | A one-literal alternative is plain substring search |
| Patterns.MatchesLeadingLiteral | components/WebSocketContext.tsx:116 | A pattern that starts with a literal matches only strings that contain that literal |
| Classifier.IsFailure | components/WebSocketContext.tsx:113 | The failure alternation, tested on the lower-cased message; it has no contract of its own, and Classifier.FailureIff states what it accepts |
| Classifier.IsProviderSuccess | components/WebSocketContext.tsx:116 | The provider's success alternation, tested on the lower-cased message; it has no contract of its own, and Classifier.ProviderSuccessIff states what it accepts |
| Classifier.IsStandaloneSuccess | components/WebSockets.tsx:149 | The standalone success alternation, tested on the lower-cased message; it has no contract of its own, and Classifier.StandaloneSuccessIff states what it accepts |
| Classifier.FailureIff | components/WebSocketContext.tsx:113 | The failure test holds exactly when the lower-cased message contains "no video", "couldn't find any video stream" (apostrophe optional), "no audio", "error" or "aborting process" |
| Classifier.SpacedInSyncSucceeds | components/WebSocketContext.tsx:116 | A message holding "already", any non-empty `\s` run, "in", another run and "sync", with anything around it, is a success in both variants: tabs, line breaks, no-break spaces and several spaces count as well as one space |
| Classifier.TabbedInSyncSucceeds | components/WebSockets.tsx:149 | "Clip already\tin  sync." is a success in both variants |
| Classifier.OurClipIsRedundant | components/WebSocketContext.tsx:116 | Every message containing "our clip is already in sync" is already matched by `already\s+in\s+sync` |
| Classifier.ProviderSuccessIff | components/WebSocketContext.tsx:116 | The provider's success test holds exactly when the message matches `already\s+in\s+sync` or `already\s+synchronized`, or contains "get your file" |
| Classifier.StandaloneSuccessIff | components/WebSockets.tsx:149 | The standalone success test holds exactly when the message matches `already\s+in\s+sync` or `already\s+synchronized`, or contains "download your file" |
| Classifier.ProviderSuccessNeedsPhrase | components/WebSocketContext.tsx:116 | A provider success message contains "already" or "get your file" |
| Classifier.StandaloneSuccessNeedsPhrase | components/WebSockets.tsx:149 | A standalone success message contains "already" or "download your file" |
| Catalog.StepMatches | components/WebSocketContext.tsx:121-123 | A step matches when its lower-cased text occurs in the lower-cased message, so a match needs a message at least as long as the text; Catalog.Find and Phrases state which step each message reveals |
| Catalog.FindFrom | components/WebSocketContext.tsx:121-123 | The search from an index returns the first step at or after it whose text occurs in the message, or None when no such step exists |
| Catalog.Find | components/WebSocketContext.tsx:121-123 | Find returns the first step whose text occurs in the message (case-insensitive), and None exactly when no step's text occurs |
| Catalog.FindIs | components/WebSocketContext.tsx:121-123 | Find answers i whenever step i matches and no earlier step does |
| Catalog.FindAgreeOnPrefix | components/WebSockets.tsx:156-158 | Two catalogs that share their first n steps give the same answer for a message whose first match lies among them |
| Catalog.StepMatchesOwnText | components/WebSockets.tsx:156-158 | Every step is revealed by a message made of its own text |
| Catalog.Percent | components/WebSocketContext.tsx:139-140 | The percentage is round-half-up of 100·count/9, capped at 100 |
| Catalog.PercentMonotone | components/WebSockets.tsx:172-173 | The percentage never decreases as the count grows |
| Catalog.PercentFullIff | components/WebSocketContext.tsx:139-140 | For counts up to nine, the percentage is 100 exactly at nine |
| Catalog.CatalogsAgreeExceptNinth | components/WebSockets.tsx:17-27 | Both catalogs have nine steps with the same labels, and the same steps apart from the ninth, whose text is "orange" in one and "download your file" in the other |
| Catalog.SharedSteps | components/WebSocketContext.tsx:44-54 | The first eight steps of the two catalogs are identical |
| Catalog.SameLabels | components/WebSocketContext.tsx:44-54 | The two catalogs label every step alike |
| Catalog.LabelsDistinct | components/WebSocketContext.tsx:44-54 | No label appears twice in either catalog |
| Tracker.Reached | components/WebSocketContext.tsx:124-131 | Recording keeps the old list as a prefix and adds at most one label, which is the label of the first matching step; its elements are the old ones plus that label; a duplicate-free list stays duplicate-free |
| Tracker.Init | components/WebSocketContext.tsx:70-97 | The mounted tracker is valid, has an empty queue, an unset indicator and 0 percent, is disconnected, and has its first attempt scheduled in 1000 ms |
| Tracker.ProviderTick | components/WebSocketContext.tsx:109-133 | A provider tick keeps the connection, changes nothing on an empty queue, otherwise shows the head and shortens the queue, and adds at most one label at the end of the list; ContextProvider.TickDequeuesHead, TickIndicatorIff and MilestoneAlwaysRecorded state the rest |
| Tracker.StandaloneTick | components/WebSockets.tsx:135-165 | A standalone tick keeps the connection, changes nothing on an empty queue, otherwise shows the head and shortens the queue, keeps a terminal indicator, and adds at most one label at the end of the list; StandaloneComponent.UnsettledTickClassifies, FailureStopsTick and MilestoneUnlessFailed state the rest |
| Tracker.OnFrame | components/WebSocketContext.tsx:84-86 | A frame is appended after the queued messages, and nothing else changes |
| Tracker.OnOpen | components/WebSocketContext.tsx:83 | After an open event the tracker is connected exactly when it was already connected or a socket was being set up; only the connection changes |
| Tracker.OnClose | components/WebSocketContext.tsx:87-90 | A close of an existing socket clears connected and schedules a new attempt in 5000 ms; only the connection changes |
| Tracker.OnTimer | components/WebSocketContext.tsx:81-96 | When the pending timer fires, `connectWS` creates a socket whose handshake is in progress; only the link changes |
| Tracker.Apply | components/WebSocketContext.tsx:83-105 | A tick while disconnected changes nothing; only an open event connects a disconnected tracker; connection events change only the connection |
| Tracker.ProgressPercent | components/WebSocketContext.tsx:139-140 | The displayed percentage is at most 100, and is 100 once nine milestones are reached; Progress.PercentBounds gives the exact condition |
| Progress.FrameAppends | components/WebSocketContext.tsx:84-86 | A frame is appended at the tail of the queue, and nothing else changes |
| Progress.OpenConnects | components/WebSocketContext.tsx:83 | The open event of the pending socket sets connected |
| Progress.OnlyOpenConnects | components/WebSocketContext.tsx:83-94 | Only the open event of a socket being set up sets connected; no frame, close, error, timer or tick does |
| Progress.CloseSchedulesReconnect | components/WebSocketContext.tsx:87-90 | Every close clears connected and schedules a new attempt in 5000 ms |
| Progress.ErrorForcesClose | components/WebSocketContext.tsx:91-94 | An error has exactly the effect of a close |
| Progress.InitialConnect | components/WebSockets.tsx:107 | The first attempt waits 1000 ms; the timer firing creates a socket without connecting, and its open event then connects (Progress.OnlyOpenConnects shows no other event connects) |
| Progress.TickNeedsConnection | components/WebSocketContext.tsx:105 | The drain interval does nothing while disconnected |
| Progress.ConnectionEventsKeepProgress | components/WebSockets.tsx:76-102 | Open, close, error and timer events leave the queue, message, indicator and milestones unchanged |
| Progress.RunAppend | components/WebSocketContext.tsx:109-133 | Running two event sequences one after the other is running their concatenation |
| Progress.ReconnectsForever | components/WebSockets.tsx:89-92 | Nothing limits retries: after any number of drops the tracker is connected again, and its progress is unchanged |
| Progress.InitValid | components/WebSocketContext.tsx:70-75 | The initial state satisfies the invariant and shows 0 percent |
| Progress.ReachedWithin | components/WebSocketContext.tsx:124-131 | Recording a milestone only adds labels of the catalog |
| Progress.ReachedLabels | components/WebSockets.tsx:156-163 | Milestones from either catalog stay within the shared label list |
| Progress.ProviderTickShape | components/WebSocketContext.tsx:109-133 | A provider tick leaves the connection alone and always records the dequeued message's milestone |
| Progress.StandaloneTickShape | components/WebSockets.tsx:135-165 | A standalone tick leaves the connection alone and either keeps the milestones or records the dequeued message's milestone |
| Progress.TickValid | components/WebSockets.tsx:135-165 | A firing of the drain interval, in either variant, keeps the milestones distinct catalog labels and only extends the list, by at most one label |
| Progress.StepValid | components/WebSocketContext.tsx:124-131 | Every event keeps milestones distinct catalog labels and keeps connected in step with an open socket; the list only grows, by at most one label |
| Progress.RunValid | components/WebSockets.tsx:159-162 | Over any sequence of events the invariant holds, and the old milestone list is a prefix of the new one |
| Progress.PercentBounds | components/WebSocketContext.tsx:139-140 | In a valid state the percentage lies in [0, 100], at most nine milestones are reached, and the percentage is 100 exactly when every label is reached |
| Progress.PercentNeverFalls | components/WebSockets.tsx:172-173 | Over any sequence of events the percentage never falls and stays at most 100 |
| ContextProvider.EmptyTickKeepsState | components/WebSocketContext.tsx:110 | A tick on an empty queue changes nothing |
| ContextProvider.TickDequeuesHead | components/WebSocketContext.tsx:110-115 | A tick shows the head verbatim and keeps the rest of the queue in order, unless the head is a failure, which empties the queue |
| ContextProvider.TickIndicatorIff | components/WebSocketContext.tsx:113-120 | After a tick the indicator is error exactly for a failure, success exactly for a non-failing success phrase, and syncing otherwise |
| ContextProvider.IndicatorForgetsPast | components/WebSocketContext.tsx:113-120 | The indicator before a tick has no influence on the state after it |
| ContextProvider.TerminalNotSticky | components/WebSocketContext.tsx:118-120 | An unclassified message after error or success sets syncing |
| ContextProvider.MilestoneAlwaysRecorded | components/WebSocketContext.tsx:121-131 | The first step the message reveals is recorded on every tick, the failing one included, and nothing else changes in the list |
| ContextProvider.FailureClearsQueue | components/WebSocketContext.tsx:113-115 | After a failure the queue is empty and the next tick changes nothing |
| ContextProvider.FailureBeforeSuccess | components/WebSocketContext.tsx:113-117 | A message that is both a failure and a success reports error |
| ContextProvider.OneMessageSession | components/WebSocketContext.tsx:97-133 | Connecting and receiving one message is one provider tick on the connected state |
| ContextProvider.TwoMessageSession | components/WebSocketContext.tsx:97-133 | Two messages, each drained before the next arrives, are two provider ticks |
| ContextProvider.GreetingScenario | components/WebSocketContext.tsx:45 | "Here we go" shows the message, sets syncing, reaches "Initiate" and shows 11 percent |
| ContextProvider.GreetingTick | components/WebSocketContext.tsx:113-131 | The tick on "Here we go" with nothing reached sets syncing and records "Initiate" |
| ContextProvider.NoVideoScenario | components/WebSocketContext.tsx:113-115 | "no video" sets error, empties the queue and reaches nothing |
| ContextProvider.NoVideoTick | components/WebSocketContext.tsx:113-115 | The tick on "no video" sets error, empties the queue and leaves the milestones alone |
| ContextProvider.GetYourFileScenario | components/WebSocketContext.tsx:116-117 | "get your file" sets success and reaches nothing |
| ContextProvider.GetYourFileTick | components/WebSocketContext.tsx:116-117 | The tick on "get your file" sets success and leaves the milestones alone |
| ContextProvider.RecoveryScenario | components/WebSocketContext.tsx:113-120 | After "no video", the greeting sets syncing again and reaches "Initiate" |
| StandaloneComponent.EmptyTickKeepsState | components/WebSockets.tsx:136 | A tick on an empty queue changes nothing |
| StandaloneComponent.UnsettledTickClassifies | components/WebSockets.tsx:144-153 | Before the job has ended, the indicator is error exactly for a failure, success exactly for a non-failing success phrase, and syncing otherwise |
| StandaloneComponent.FirstMessageClassified | components/WebSockets.tsx:140-153 | The first message leaves the indicator at syncing, error or success, never unset |
| StandaloneComponent.TerminalSticks | components/WebSockets.tsx:144 | Once the indicator is error or success, a tick keeps it |
| StandaloneComponent.TerminalSticksEvent | components/WebSockets.tsx:144 | Once terminal, the indicator survives any single event |
| StandaloneComponent.StickyOverRun | components/WebSockets.tsx:144 | Once terminal, the indicator survives any sequence of events |
| StandaloneComponent.FailureStopsTick | components/WebSockets.tsx:145-148 | A failure before the job has ended sets error, empties the queue, shows the message and records nothing |
| StandaloneComponent.RecordsAfterTerminal | components/WebSockets.tsx:156-163 | After the job has ended every message is still dequeued in order and its milestone recorded, failures included |
| StandaloneComponent.MilestoneUnlessFailed | components/WebSockets.tsx:156-163 | A message that does not fail the job records the first milestone it reveals |
| StandaloneComponent.OneMessageSession | components/WebSockets.tsx:107-165 | Connecting and receiving one message is one standalone tick on the connected state |
| StandaloneComponent.TwoMessageSession | components/WebSockets.tsx:107-165 | Two messages, each drained before the next arrives, are two standalone ticks |
| StandaloneComponent.DownloadScenario | components/WebSockets.tsx:149-150 | "download your file" sets success and, as the ninth catalog text, reaches "Complete", for 11 percent |
| StandaloneComponent.DownloadTick | components/WebSockets.tsx:149-163 | The tick on "download your file" with nothing reached sets success and records "Complete" |
| StandaloneComponent.SuccessIgnoresFailure | components/WebSockets.tsx:144-148 | After success, "no video" is shown but the indicator stays at success |
| Variants.AgreeBeforeTerminal | components/WebSockets.tsx:135-165 | Before the job has ended, a non-failing message that both variants classify alike and that reveals the same step in both catalogs leads to identical states |
| Variants.FailureAgreesExceptSteps | components/WebSockets.tsx:145-148 | Before the job has ended, a failure leads to identical states except for the milestones, which only the provider records |
| Variants.StickinessContrast | components/WebSockets.tsx:144 | After success, "Pass number" sets the provider back to syncing but leaves the standalone component at success; both record "Sync Passses" |
| Variants.FailingTickContrast | components/WebSockets.tsx:145-148 | On "Here we go error" both variants report error, but only the provider adds "Initiate" |
| Variants.GetYourFileContrast | components/WebSocketContext.tsx:116-117 | "get your file" is a success only for the provider |
| Variants.DownloadContrast | components/WebSockets.tsx:149-150 | "download your file" is a success and a milestone only for the standalone component |
| Variants.OrangeContrast | components/WebSocketContext.tsx:53 | "orange" completes the provider catalog and reveals nothing to the standalone component |
| Phrases.HereWeGoClass | components/WebSocketContext.tsx:113-120 | "Here we go" is neither a failure nor a success in either variant |
| Phrases.PassNumberClass | components/WebSocketContext.tsx:113-120 | "Pass number" is neither a failure nor a success in either variant |
| Phrases.DownloadClass | components/WebSockets.tsx:145-150 | "download your file" is a success only for the standalone component |
| Phrases.GetYourFileClass | components/WebSocketContext.tsx:113-117 | "get your file" is a success only for the provider |
| Phrases.NoVideoClass | components/WebSocketContext.tsx:113 | "no video" is a failure |
| Phrases.HereWeGoErrorClass | components/WebSocketContext.tsx:113 | "Here we go error" is a failure |
| Phrases.FindHereWeGoInProviderSteps | components/WebSocketContext.tsx:121-123 | "Here we go" reveals step 1 |
| Phrases.FindOrangeInProviderSteps | components/WebSocketContext.tsx:121-123 | "orange" reveals the provider's ninth step and no earlier one |
| Phrases.FindDownloadInStandaloneSteps | components/WebSockets.tsx:156-158 | "download your file" reveals the standalone ninth step and no earlier one |
| Phrases.FindDownloadInProviderSteps | components/WebSocketContext.tsx:121-123 | "download your file" reveals no provider step |
| Phrases.FindOrangeInStandaloneSteps | components/WebSockets.tsx:156-158 | "orange" reveals no standalone step |
| Walk.FeedOne | components/WebSocketContext.tsx:109-133 | While connected with an empty queue, a non-failing message is shown, leaves the queue empty and records its milestone |
| Walk.TextRevealsItself | components/WebSockets.tsx:17-27 | Every catalog text is not a failure and reveals its own step first, in either catalog |
| Walk.ReachedNext | components/WebSockets.tsx:159-162 | Matching the n-th text after the first n labels appends exactly the n-th label |
| Walk.WalkPrefix | components/WebSockets.tsx:156-163 | After the first n catalog texts, the milestone list is the first n labels and the queue is empty |
| Walk.OneMessage | components/WebSockets.tsx:135-165 | In either variant, a one-message session is one drain on the connected state |
| Walk.TwoMessages | components/WebSockets.tsx:135-165 | In either variant, a two-message session is two drains |
| Walk.DrainInOrder | components/WebSocketContext.tsx:110-112 | The queue is first in, first out: k ticks over non-failing messages show the k-th message and leave the rest in order |
| Walk.WalkReachesFull | components/WebSockets.tsx:172-173 | Feeding the nine catalog texts in order lists every label in catalog order and shows 100 percent, in either variant |
| Middleware.IsProtectedRoute | middleware.ts:10 | A protected path starts with "/", and "/" itself is protected; Middleware.UploadPrefixProtected, ProtectedShape and LoginNotProtected state the rest |
| Middleware.MatcherApplies | middleware.ts:27-29 | Matched paths start with "/", and "/" and "/upload" are matched; Middleware.MatchedPathsProtected and UploadxUnguarded relate it to the guard |
| Middleware.Guard | middleware.ts:12-23 | The guard redirects exactly a protected path without a token; the redirect targets "/login" and keeps origin and query |
| Middleware.Serve | middleware.ts:27-29 | A path the matcher does not cover always passes through |
| Middleware.RootProtected | middleware.ts:10 | "/" is protected and covered by the matcher |
| Middleware.UploadPrefixProtected | middleware.ts:10 | Every path that starts with "/upload" is protected |
| Middleware.UploadxProtected | middleware.ts:10 | "/uploadx" is protected, because `isProtectedRoute` is a plain prefix test |
| Middleware.ProtectedShape | middleware.ts:10 | A protected path is "/" or "/upload" followed by something |
| Middleware.LoginNotProtected | middleware.ts:10 | "/login" is not protected |
| Middleware.MissingTokenRedirects | middleware.ts:17-21 | Without a token, a protected path redirects to the same URL with pathname "/login" |
| Middleware.PassThrough | middleware.ts:12-23 | With a token, or on an unprotected path, the request passes through |
| Middleware.NoRedirectLoop | middleware.ts:17-23 | Following a redirect never redirects again |
| Middleware.MatchedPathsProtected | middleware.ts:27-29 | Every path the matcher covers is protected |
| Middleware.ServeRedirectIff | middleware.ts:10-29 | A request is redirected exactly when the matcher covers its path and it has no token |
| Middleware.UploadxUnguarded | middleware.ts:27-29 | "/uploadx" is protected but not covered by the matcher, so it passes through without a token |

## Left out

- **Transport and rendering.** The `WebSocket` transport, `console.error`, React effects and rendering are not modelled. Each socket callback, each timer firing and each interval firing is one event on a sequential state.
- **Real time.** Delays are recorded as constants on the scheduled link (1000 ms, 5000 ms), and the 500 ms interval is the `Tick` event. Time does not pass between events.
- **Effect cleanup.** Unmount clears the initial timeout and closes the socket, but the still-attached `onclose` schedules another reconnect. Cleanup is not modelled, and nothing claims it stops the tracker.
- **Unicode lower-casing.** `toLowerCase` in milestone matching is modelled as ASCII lower-casing. Non-ASCII capitals in a message are left as they are. The regular expressions use `/i` without the `u` flag, and there ASCII folding is exact for their all-ASCII phrases.
- **Floating point.** `Math.round` over a floating-point quotient is modelled as the integer round-half-up `(200n + 9) / 18`. No tie occurs for nine steps.
- **`shift() || ""`.** The fallback to "" is not modelled. The queue is known to be non-empty there, and an empty-string message shifts as "" either way.
- **Standalone stale closure.** The standalone interval reads `indicatorState` and `progressSteps` from its closure. The effect lists both as dependencies and is re-created after each change, so the model reads the current state. The `setIndicatorState("syncing")` for a `null` indicator is overwritten in the same tick by the classification, so it has no separate effect.
- **Session token.** `getToken` and its secret are reduced to a boolean `hasToken`.
- **Redirect details.** The redirect's status code and the URL's hash and base path are not modelled. `Url` keeps origin, pathname and query.
- **Route matcher.** `config.matcher` is modelled as its two patterns, read literally: "/" and "/upload" with any sub-path.
- **Other components.** `UploadForm.tsx` and `UploadFileContext.tsx` are fetch and context plumbing, and are not part of this model.
- **Context hooks.** The `useWebSocket` hook, which throws outside its provider, is React context plumbing.
- **Rendering components.** `ProgressBar.tsx`, `SyncIcon.tsx`, `WebSocket.tsx` (including its `length === 9` percent override), the other pages, the configuration, type declarations and tests are display or setup code.
