# Flow video queue: a Dafny model

The extension queues up to ten text prompts and submits them one at a time
to the Google Flow video generator, about two minutes apart. When the
queue has run out, the generated videos are downloaded in "Original size
(720p)". Three parts of the extension talk to each other by runtime
messages, and each part is modelled with its own state:

- **Popup queue** (`useVideoQueue`, module `Queue`). Runs the ten prompt
  slots in order, skips blank ones, and waits after each submission or
  failure. At the end it asks for the video links to be collected, then
  counts the videos that come back.
- **Service worker** (module `Worker`). Relays messages between the popup
  and the Flow tab. It forwards each prompt to the tab and retries once
  after re-injecting the content script. During a collection pass it
  records every download the page starts, under consecutive indices.
- **Content script** (modules `ContentScript`, `Locator`, `VideoUrl`,
  `JsonSearch`, `Completion`). Inside the Flow page it:
  - fills the prompt box and clicks a submit control;
  - in a collection pass, clicks each video's download button and then
    its "Original size (720p)" option;
  - holds the (currently uncalled) completion watcher and the page scan
    for a video URL.
- **Saved URLs** (`downloadManager.js`, module `Downloads`). The array
  kept in extension storage, and the batch download built from it.

Values that the page, the browser or the clock supply become parameters:

- the element records that the locators read;
- the outcome of a tab lookup or of a message delivery;
- `Date.now()`;
- whether a pending timer fires.

Wherever the source updates state in place, that state is a class. Its
methods are proved equal to pure transition functions, and the
properties are proved about those functions.

## Model

| member | source | states |
|---|---|---|
| Text.Lower | src/content/flowContentScript.js:306-311 | lower-casing keeps the length and maps each character on its own |
| Text.TrimIsCore | src/hooks/useVideoQueue.js:76 | `trim()` yields a contiguous run of the string that is empty or starts and ends with a non-space character, and everything cut off on either side is white space |
| Text.TrimEmptyIffBlank | src/hooks/useVideoQueue.js:55 | `p.trim() === ''` holds exactly when every character of `p` is white space |
| Text.Prefix | src/content/flowContentScript.js:229 | `substring(0, n)` is a prefix of the string, of length `min(n, length)` |
| Text.Decimal | src/utils/downloadManager.js:54 | a number prints as a non-empty run of decimal digits with no leading zero, and at least two digits from 10 up |
| Text.DecimalDenotes | src/utils/downloadManager.js:54 | the digits a number prints as denote that number |
| Locator.FirstMatchIsFirst | src/content/flowContentScript.js:1693-1706 | a "first element in document order that passes the test" loop returns an element that passes, none before it passes, and it returns nothing only when no element passes |
| Locator.OriginalSizeOptionIsBest | src/content/flowContentScript.js:1673-1733 | no container gives null; otherwise the option found is rendered, belongs to the best of the three priority tiers present and is the first of that tier in document order; null only when no rendered element matches any tier |
| Locator.Tier1BeatsTier2 | src/content/flowContentScript.js:1693-1720 | one rendered "original size" + "720" element anywhere in the menu is enough for the result to be such an element, whatever tier-2 elements stand before it |
| Locator.Nearest | src/content/flowContentScript.js:1506-1545 | the page-wide fallback returns a laid-out element within 1000px that says "download" and is at least as near to the video as every other such element, and strictly nearer than the earlier ones; null exactly when there is none |
| Locator.DownloadButtonStrategies | src/content/flowContentScript.js:1401-1549 | a generated-id download control of the container wins however far it is; otherwise the first container control within 500px; otherwise the nearest page element within 1000px; null exactly when no strategy applies |
| Locator.FillAcceptsFaithfulReadBack | src/content/flowContentScript.js:228-229 | a laid-out element whose value reads back as the prompt, or as its first ten characters followed by anything, makes the fill succeed at that element or an earlier one |
| Locator.FillSucceedsIff | src/content/flowContentScript.js:149-241 | the fill succeeds exactly when some laid-out element reads back a value containing the prompt's first ten characters |
| Locator.SubmitButtonChoice | src/content/flowContentScript.js:243-435 | the main pass clicks the first laid-out, enabled button that has a submit keyword or is within 500px of the filled input. Only when there is no such button does the fallback click the first button strictly below the input and within 300px. No button is clicked exactly when both passes find nothing |
| Locator.FallbackClicksOnlySoftDisabled | src/content/flowContentScript.js:407-417 | any button the fallback clicks is one the main pass turned down as disabled. Its `disabled` property is false, so it carries one of the other disabled signals |
| VideoUrl.VideoPass | src/content/flowContentScript.js:525-536 | the `<video>` pass returns a usable `src` or `currentSrc`: set, not `about:blank`, not `blob:`. It returns nothing exactly when no video has one |
| VideoUrl.StringPass | src/content/flowContentScript.js:539-608 | the `<source>`, link and data-attribute passes return the first string in document order that passes their test, and nothing exactly when none does |
| VideoUrl.IframePass | src/content/flowContentScript.js:570-585 | the iframe pass returns the first iframe video `src` that is set and not `blob:`, and nothing exactly when there is none |
| VideoUrl.ScriptPass | src/content/flowContentScript.js:624-637 | the JSON pass returns the search result of the first script that parses and holds a media URL, and nothing exactly when none does |
| VideoUrl.FindVideoUrl | src/content/flowContentScript.js:523-640 | the result is never empty, and a `blob:` result always looks like media. Null exactly when none of the six passes finds anything. Otherwise the result is the hit of the first pass, in the order video, source, link, iframe, data attribute, JSON, that finds something |
| JsonSearch.IndexKeyNeverNamesMedia | src/content/flowContentScript.js:645-646 | an array index used as a property name never mentions "video", "url" or "src", so inside arrays only nested objects are searched |
| JsonSearch.FindVideoUrlInObject | src/content/flowContentScript.js:642-658 | a non-object gives null. Any string found looks like media and sits in the tree under a media-named key. Null exactly when the tree holds no such string |
| JsonSearch.FindInMembers | src/content/flowContentScript.js:645-656 | the loop over an object's members finds a media string under a media-named key, and finds nothing exactly when no remaining member holds one |
| JsonSearch.FindInItems | src/content/flowContentScript.js:645-656 | the loop over an array's elements finds a media string inside a nested element, and finds nothing exactly when no remaining element holds one |
| Completion.RunInvariant | src/content/flowContentScript.js:437-521 | after any sequence of callbacks, a URL is held exactly when its time is, and it is non-empty. While pending, the observer is connected and `attempts` equals the number of interval ticks and stays below 180. An observer still connected after settlement means a null result. A URL result is the held URL, with the observer disconnected |
| Completion.TimesOut | src/content/flowContentScript.js:489-495 | after 180 interval ticks the promise is settled |
| Completion.SettledIsFinal | src/content/flowContentScript.js:446-499 | once settled, the outcome never changes and the interval counts no more ticks |
| Completion.DisconnectedIsFinal | src/content/flowContentScript.js:470-495 | once settled with the observer disconnected, later callbacks change nothing |
| Completion.StopLeavesObserverConnected | src/content/flowContentScript.js:447-512 | settling by a stable URL, error indicators or the timeout disconnects the observer; settling by a stop does not, so a new URL seen afterwards still replaces the held one and restarts its clock |
| Completion.NullResolution | src/content/flowContentScript.js:447-487 | a tick settles with null only on a stop, on error indicators after more than 30 ticks, or on a timeout with no URL held. Error indicators during the first 30 ticks change nothing |
| Completion.Stabilizes | src/content/flowContentScript.js:458-475 | once a URL is held, callbacks that see nothing or the same URL never restart its clock. The first tick 10 s after it was found settles on it; earlier ticks never settle before the 180-tick limit |
| Completion.NewUrlRestartsClock | src/content/flowContentScript.js:502-510 | a different URL seen by the observer replaces the held one and restarts the 10 s clock from the time it was seen |
| Completion.Watcher.constructor | src/content/flowContentScript.js:439-444 | the watcher starts with no attempts, no URL and the promise pending |
| Completion.Watcher.OnMutation | src/content/flowContentScript.js:502-513 | the observer callback is the mutation step of the watcher's transition: while the observer is connected, a new URL replaces the held one, whether or not the promise is settled |
| Completion.Watcher.OnTick | src/content/flowContentScript.js:446-499 | the interval callback is the tick step of the watcher's transition |
| ContentScript.FillAndSubmitReport | src/content/flowContentScript.js:89-125 | one prompt produces exactly one report: `PROMPT_SUBMITTED` when both the fill and the submit succeed, otherwise `VIDEO_ERROR`, always with the prompt's own index |
| ContentScript.FailureReportsOneError | src/content/flowContentScript.js:94-106 | a failed fill or a failed submit reports `VIDEO_ERROR` for that prompt and never `PROMPT_SUBMITTED` |
| ContentScript.ProcessableIndices | src/content/flowContentScript.js:758-772 | the positions of the laid-out videos larger than 50x50: all of them, each once, in increasing order |
| ContentScript.Processed | src/content/flowContentScript.js:758-772 | the k-th video the pass processes is the video at the k-th qualifying position, so every laid-out video larger than 50x50 is kept, once, in document order, and no other. The list is empty exactly when no video qualifies |
| ContentScript.StopFrom | src/content/flowContentScript.js:787-791 | a stop found from a given iteration on is found at an iteration whose check sees the flag |
| ContentScript.Reached | src/content/flowContentScript.js:787-791 | the number of iterations that run is at most the number of videos |
| ContentScript.StopAtFirst | src/content/flowContentScript.js:787-791 | the pass stops at the first iteration whose check sees the stop flag |
| ContentScript.NeverStopped | src/content/flowContentScript.js:787-791 | a pass whose checks never see the flag runs through every video |
| ContentScript.ClickedAfterEnabledButton | src/content/flowContentScript.js:836-1207 | an option is clicked only after a download button was found that is not disabled and its menu appeared; the option is the best "Original size (720p)" option of that menu. An iteration that ends with "no option" had a menu with no such option |
| ContentScript.Script.constructor | src/content/flowContentScript.js:6-8 | the script starts not processing, not stopped, with prompt index -1 and nothing sent |
| ContentScript.Script.HandleStop | src/content/flowContentScript.js:76-79 | a stop sets the flag, clears `isProcessing` and sends nothing |
| ContentScript.Script.FillAndSubmit | src/content/flowContentScript.js:81-129 | once stopped it does nothing. Otherwise it records the prompt index, appends exactly that prompt's report and ends with `isProcessing` false |
| ContentScript.Script.ProcessVideo | src/content/flowContentScript.js:836-1367 | one video's iteration ends as its reference outcome. The keep-menu interval is set once the menu has appeared, and it is cleared on every path out |
| ContentScript.Script.Iteration | src/content/flowContentScript.js:787-1367 | an iteration breaks the loop exactly when its stop check sees the flag; otherwise it yields that video's outcome |
| ContentScript.Script.ProcessVideos | src/content/flowContentScript.js:787-1368 | the loop produces the outcomes of the iterations before the first stop, in order. It reports whether a stop ended it, and leaves no keep-menu interval running |
| ContentScript.Script.CollectAllVideoLinks | src/content/flowContentScript.js:660-1398 | on a failure before the loop it sends `VIDEO_ERROR` -1 and then `COLLECTION_COMPLETED` 0. With no processable video it sends `VIDEO_ERROR` -1 alone. A full pass sends `COLLECTION_COMPLETED` with the number of processable videos; a stopped pass sends nothing |
| ContentScript.Script.OnMessage | src/content/flowContentScript.js:11-73 | `PING` is answered "ready" and changes nothing; `STOP` sets the flag and leaves the prompt index and the menu keepers as they were. The two work requests are answered with success and do what their handlers do: `FILL_AND_SUBMIT` sends its one report unless stopped, and `COLLECT_ALL_VIDEO_LINKS` sends the setup error, the no-video error or the pass's completion report. Any other type is refused with "Unknown message type" and changes nothing |
| Downloads.Put | src/utils/downloadManager.js:16-20 | storing at an index puts the entry there and grows the array with holes if needed; every other position keeps what it held |
| Downloads.PutOverwrites | src/utils/downloadManager.js:15-20 | saving twice at one index keeps only the second entry, and the array does not grow |
| Downloads.UrlIndices | src/utils/downloadManager.js:52 | the positions holding an entry with a non-empty URL: all of them, each once, in increasing order |
| Downloads.WithUrl | src/utils/downloadManager.js:52 | the k-th entry kept is the entry at the k-th position holding a URL, so every such entry is kept, once, in array order, and nothing else |
| Downloads.WithUrlComplete | src/utils/downloadManager.js:52 | every entry with a URL appears in the filtered list, at the place its position has among the URL positions |
| Downloads.VideoCountIsUrlPositions | src/utils/downloadManager.js:64-67 | the video count is the number of positions holding an entry with a URL; holes and empty URLs never count |
| Downloads.VideoCountAfterPut | src/utils/downloadManager.js:11-24 | a save changes the count by what it replaces and what it stores: minus one if the old entry at that index had a URL, plus one if the new URL is non-empty |
| Downloads.WithUrlIncreasing | src/utils/downloadManager.js:51-53 | when every entry sits at its own prompt index, the entries with a URL come in strictly increasing prompt order |
| Downloads.Filename | src/utils/downloadManager.js:54 | every download file name starts with `flow-video-` |
| Downloads.FilenameShowsNumbers | src/utils/downloadManager.js:54 | the name is `flow-video-`, digits denoting the prompt index plus one, `-`, digits denoting the time, then `.mp4` |
| Downloads.FilenameInjective | src/utils/downloadManager.js:54 | a file name determines the prompt index and the time it was built from |
| Downloads.DownloadPlan | src/utils/downloadManager.js:44-59 | an error, "No videos to download", exactly when the stored array is empty. Otherwise the k-th download is that of the entry at the k-th position holding a URL: one per such position, in array order, under that entry's file name |
| Downloads.DownloadFilenamesDistinct | src/utils/downloadManager.js:51-56 | when every entry sits at its own prompt index, no two downloads of a batch share a file name |
| Downloads.VideoUrlStore.constructor | src/utils/downloadManager.js:6 | the storage key starts absent, which the other operations read as an empty array |
| Downloads.VideoUrlStore.SaveVideoUrl | src/utils/downloadManager.js:11-24 | the entry lands at its prompt index and nothing else changes. The array is returned, and every entry still sits at its own index |
| Downloads.VideoUrlStore.GetAllVideoUrls | src/utils/downloadManager.js:29-32 | returns the stored array, or an empty one when the key is absent |
| Downloads.VideoUrlStore.ClearVideoUrls | src/utils/downloadManager.js:37-39 | removes the key, so a later read gives an empty array |
| Downloads.VideoUrlStore.ResetVideoUrls | src/background/serviceWorker.js:249 | a new collection pass stores an empty array under the key |
| Downloads.VideoUrlStore.GetVideoCount | src/utils/downloadManager.js:64-67 | the count is the number of positions holding an entry with a URL |
| Downloads.VideoUrlStore.DownloadAllVideos | src/utils/downloadManager.js:44-59 | the batch is the download plan of the stored array. When every entry sits at its own index, no two file names coincide |
| Queue.NonBlankCountZeroIff | src/hooks/useVideoQueue.js:205-206 | no valid prompt exactly when every slot is blank; the count never exceeds the number of slots |
| Queue.SetSlot | src/hooks/useVideoQueue.js:252-258 | editing slot `k` puts the new text there, grows the list with empty slots if needed, and leaves every other slot as it was |
| Queue.ProcessNextKeepsValid | src/hooks/useVideoQueue.js:44-93 | processing a slot keeps the current index either -1 or a real slot |
| Queue.FireKeepsValid | src/hooks/useVideoQueue.js:58-60 | a scheduled callback that fires keeps the current index -1 or a real slot |
| Queue.ApplyKeepsValid | src/hooks/useVideoQueue.js:178-258 | any single input (start, message, stop, clear, edit, timer) keeps the current index -1 or a real slot |
| Queue.RunKeepsValid | src/hooks/useVideoQueue.js:10 | whatever sequence of inputs arrives, the current index stays -1 or a real slot |
| Queue.StartQueueNeedsAPrompt | src/hooks/useVideoQueue.js:204-231 | with every slot blank only the status changes. Otherwise the run restarts: not stopped, no current slot, count 0. `OPEN_FLOW_PAGE` is sent; once it is answered the run is on and slot 0 is scheduled 2 s later |
| Queue.ProcessNextPromptSends | src/hooks/useVideoQueue.js:44-78 | a non-blank slot sends its trimmed text with its index and becomes current; a blank or missing slot sends nothing. An index past the last slot ends the run and starts collecting: not running, no current slot, nothing sent, and the collection request scheduled after 5 s |
| Queue.SkipIsDeferral | src/hooks/useVideoQueue.js:55-60 | skipping a blank slot before the last only schedules the next slot; when that fires, the state is the same as processing the next slot directly |
| Queue.SkipsToNextPrompt | src/hooks/useVideoQueue.js:55-61 | from a slot followed by blank slots, firing the skip callbacks one by one ends in the state of processing the next non-blank slot directly |
| Queue.SkipsSendOnlyNextPrompt | src/hooks/useVideoQueue.js:55-78 | on the way past blank slots to the next non-blank one, the only message sent is that slot's trimmed prompt with its index |
| Queue.TrailingBlanksReachEnd | src/hooks/useVideoQueue.js:55-66 | blank slots up to the end lead, one skip at a time, to the same state as ending the run and starting link collection |
| Queue.TrailingBlanksFinish | src/hooks/useVideoQueue.js:61-66 | after trailing blank slots the run is over, with no current slot and link collection on. Nothing has been sent, and the collection request is scheduled 5 s later |
| Queue.PromptSubmittedAdvances | src/hooks/useVideoQueue.js:95-123 | not stopped and before the last slot: the next slot follows after exactly 2 minutes, and only if the queue is still not stopped then. At the last slot the run ends and collection starts. Stopped before the last slot, nothing happens |
| Queue.VideoErrorAdvances | src/hooks/useVideoQueue.js:164-175 | not stopped and before the last slot: the next slot is scheduled 2 minutes later. Otherwise the run ends, and collection is not started. Nothing is sent |
| Queue.VideoCompletedCounts | src/hooks/useVideoQueue.js:145-162 | each completed video adds exactly one to the count, and collecting stops once the count reaches the number of non-blank prompts |
| Queue.CompletedCountMayExceedPrompts | src/hooks/useVideoQueue.js:148-155 | the count is not bounded by the number of prompts: one non-blank prompt followed by two completions gives a count of 2 |
| Queue.ClearQueueResets | src/hooks/useVideoQueue.js:243-250 | clearing leaves ten empty slots, no current slot, not running, not stopped and a count of 0. It keeps the collecting flag and the scheduled callbacks |
| Queue.VideoQueue.constructor | src/hooks/useVideoQueue.js:9-15 | the queue starts with ten empty slots, index -1, not running, count 0, and nothing sent or scheduled |
| Queue.VideoQueue.StartQueue | src/hooks/useVideoQueue.js:204-231 | the new state is the start transition that `StartQueueNeedsAPrompt` characterises |
| Queue.VideoQueue.StartCollectingLinks | src/hooks/useVideoQueue.js:125-143 | collection is flagged on and the request is scheduled 5 s later |
| Queue.VideoQueue.EndRunAndCollect | src/hooks/useVideoQueue.js:62-65 | the run stops, nothing is current, and collection starts |
| Queue.VideoQueue.ProcessNextPrompt | src/hooks/useVideoQueue.js:44-93 | the new state is the slot-processing transition that `ProcessNextPromptSends` and the skip lemmas characterise; a failed send retries the next slot 2 minutes later unless stopped or at the last slot |
| Queue.VideoQueue.HandlePromptSubmitted | src/hooks/useVideoQueue.js:95-123 | the new state is the submission transition of `PromptSubmittedAdvances` |
| Queue.VideoQueue.HandleVideoError | src/hooks/useVideoQueue.js:164-175 | the new state is the error transition of `VideoErrorAdvances` |
| Queue.VideoQueue.HandleVideoCompleted | src/hooks/useVideoQueue.js:145-162 | the URL is saved at its prompt index, then counted as `VideoCompletedCounts` says |
| Queue.VideoQueue.CountCompleted | src/hooks/useVideoQueue.js:148-158 | the counting half of a completion, as `VideoCompletedCounts` says |
| Queue.VideoQueue.StopQueue | src/hooks/useVideoQueue.js:233-241 | the queue is stopped, no longer running, and `STOP_QUEUE` is sent |
| Queue.VideoQueue.ClearQueue | src/hooks/useVideoQueue.js:243-250 | the new state is the reset of `ClearQueueResets` |
| Queue.VideoQueue.UpdatePrompt | src/hooks/useVideoQueue.js:252-258 | only the prompt list changes, as `SetSlot` says |
| Queue.VideoQueue.Fire | src/hooks/useVideoQueue.js:109-115 | the callback fires and leaves the pending list. A delayed resume re-checks the stop flag. The collection request, when not answered, turns collecting off |
| Queue.VideoQueue.OnMessage | src/hooks/useVideoQueue.js:178-202 | the four handled types are answered and update the state; a completion with a non-negative index also saves the URL at that index. Other types are unanswered and change nothing |
| Worker.OpenedTab | src/background/serviceWorker.js:128-141 | the tab id is recorded as soon as a tab is found or created, even if activating it then fails; a failed lookup keeps the old id |
| Worker.OpenReport | src/background/serviceWorker.js:128-159 | opening the page reports exactly one message: a status on success, otherwise `VIDEO_ERROR` for index -1 |
| Worker.AttemptError | src/background/serviceWorker.js:180-188 | the first attempt fails exactly when the answer is not a success. A missing answer, or a failed one with no error text, fails with "Content script failed" |
| Worker.TryError | src/background/serviceWorker.js:173-188 | the try block fails exactly when the activation rejects or the answer is not a success; a rejected activation's error is the one caught |
| Worker.TabSends | src/background/serviceWorker.js:173-206 | every message sent to the tab is the prompt's `FILL_AND_SUBMIT`: one unless the activation rejects, plus one resend after a connection error unless the injection rejects |
| Worker.PromptReport | src/background/serviceWorker.js:186-220 | at most one `VIDEO_ERROR`, for the prompt's own index. None exactly when the try block succeeds, or after a connection error whose injection and resend both go through |
| Worker.PromptSentOrReported | src/background/serviceWorker.js:161-224 | when the popup hears no error, the prompt was sent to the tab at least once; a second send only follows a connection error; a rejected activation without the connection text sends nothing and reports the error |
| Worker.FailedAnswerReported | src/background/serviceWorker.js:186-193 | after a successful activation, a missing or unsuccessful answer is never retried and is reported at once |
| Worker.CollectReport | src/background/serviceWorker.js:252-270 | a collection request with a tab reports an error alone when the tab cannot be activated; otherwise a status, then an error if the request rejects |
| Worker.ConsecutiveAllCounted | src/background/serviceWorker.js:29-36 | every download captured in one pass counts: the video count equals the number captured |
| Worker.CaptureExtends | src/background/serviceWorker.js:26-38 | capturing a download at the next index keeps the pass's array gap-free and self-indexed, and adds exactly one video |
| Worker.ResaveKeepsConsecutive | src/hooks/useVideoQueue.js:147 | the popup saving a forwarded completion again at its index keeps the pass's array gap-free with the same length |
| Worker.ServiceWorker.constructor | src/background/serviceWorker.js:7-11 | no tab, not processing, not stopped, not collecting, next index 0 |
| Worker.ServiceWorker.OnDownloadCreated | src/background/serviceWorker.js:21-48 | outside a pass, or for a download without a URL, nothing changes. Otherwise the download is stored at the next index, the index goes up by one and `VIDEO_COMPLETED` reaches the popup. While a pass is on, the count always equals the index |
| Worker.ServiceWorker.OpenFlowPage | src/background/serviceWorker.js:128-159 | the recorded tab and the report are those of `OpenedTab` and `OpenReport`; nothing else changes |
| Worker.ServiceWorker.ProcessPrompt | src/background/serviceWorker.js:161-224 | while stopped it does nothing. Otherwise it opens the tab if none is recorded, and the tab receives exactly the sends of `TabSends`. The popup hears only the open report and the prompt report. `isProcessing` is false at the end |
| Worker.ServiceWorker.StopQueue | src/background/serviceWorker.js:226-238 | stop is set, processing cleared, and `STOP` is sent to the tab only if one is recorded |
| Worker.ServiceWorker.CollectAllVideoLinks | src/background/serviceWorker.js:240-272 | without a tab, only `VIDEO_ERROR` -1. Otherwise a pass starts from index 0 over an empty stored array; the tab is asked to collect unless it cannot be activated, and the popup hears `CollectReport` |
| Worker.ServiceWorker.HandleMessage | src/background/serviceWorker.js:50-126 | the eight known types are answered with success and any other is refused and changes nothing. Each request does what its handler does: the tab, the reports and the sends of `OpenFlowPage`, `ProcessPrompt`, `StopQueue` and `CollectAllVideoLinks`. `OPEN_FLOW_PAGE` also clears the stop flag (the listener at lines 294-298), and no other message does. The four progress messages reach the popup unchanged and leave the processing, stop and collection state as it was. Only a collection request touches storage, and a collection request with no tab changes nothing but its report. The pass invariant is kept |

## Left out

- Keyboard submission: `submitForm` first presses Enter and Ctrl+Enter in the filled box (lines 247-280). The model has no page to react to key presses, so only the button choice is modelled.
- A click that throws during `submitForm`: the model treats the first main-pass candidate as clicked. In the source, an exception in that `try` moves on to the next button.
- Mouse, pointer and focus events; scrolling; and every fixed `setTimeout` wait inside the content script. These have no observable effect on the model's state.
- The lazy-loading scroll loops and the repeated video listing before the collection loop (lines 668-754). The model starts from the final list of `<video>` elements.
- Polling waits, modelled only by their outcome:
  - `waitForPageReady`, which never fails and ignores a stop;
  - `waitForMenuContainer`, modelled as the menu found or null;
  - the service worker's `waitForTabReady`.
- The keep-menu-visible interval's event dispatching. Only whether the interval is set is tracked.
- `findOriginalSizeOption` (line 1736) is not called by the collection pass and is not part of this model.
- The canvas probe in `findVideoUrl` (lines 611-622). It only logs and never affects the result.
- Text.Lower folds ASCII letters only, while `toLowerCase` folds all of Unicode.
- Text.Prefix counts Unicode scalar values, while `substring` counts UTF-16 code units. For a prompt with characters outside the Basic Multilingual Plane (emoji, say), the ten-character prefix that the fill check compares against (flowContentScript.js line 229) differs from the source's. The `text.length < 20` test in the short "720p" option check (`Locator.Short720p`, line 1725) also counts scalar values.
- Distances are compared squared over whole-pixel coordinates. The source takes square roots of fractional coordinates.
- `Completion.Stable` uses the callback's own clock reading. The source reads `Date.now()` a second time for the comparison, and tests `videoFoundTime` by truthiness rather than presence.
- `Downloads.DownloadPlan` reads `Date.now()` once for the batch. The source reads it once per file, so file names in one batch may carry different times.
- Downloads.VideoUrlStore.SaveVideoUrl takes a non-negative index. The popup never saves a completion with a negative index (`Queue.VideoQueue.OnMessage` only counts it). The JavaScript array would store it as a named property.
- Storage failures, and races between the awaits of concurrent handlers:
  - the service worker's read-modify-write in `downloads.onCreated`;
  - React's stale closures over `isStopped` and `completedCount`.

  Every handler reads the current state when it runs.
- Human-readable texts:
  - status texts and error messages;
  - the popup's countdown interval;
  - the content script's `STATUS_UPDATE` messages, which are not recorded in `ContentScript.Script.sent`.
- Prompt persistence in storage (`useVideoQueue.js` lines 18-42), and the rest of the popup UI (`App.jsx`).
- Delivery of the prompt to the tab: the resend's answer is not inspected, as in the source. Every send the source attempts is recorded in `toTab` whether or not it was delivered; a rejected activation or injection skips the sends after it, as in the source.
- The check `newCount >= validPromptsCount` reads as if `completedCount` stayed within the number of non-blank prompts. The code counts every captured download, however many videos the page holds, and the model follows the code (`Queue.CompletedCountMayExceedPrompts`).
- `waitForVideoCompletion` is modelled (module `Completion`) although no handler in the current content script calls it.
