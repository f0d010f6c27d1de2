/**
 * The background service worker (`serviceWorker.js`): it relays messages
 * between the popup and the Flow tab, forwards prompts to the tab with one
 * re-injection retry, and, during a collection pass, records every
 * download the page starts under consecutive indices.
 *
 * Tab lookup, activation, script injection and message delivery are
 * replaced by their outcomes, passed in as parameters. Messages sent to
 * the popup and to the tab are appended to `toPopup` and `toTab`.
 */
module Worker {
  import opened Wrappers
  import opened Text
  import opened Messages
  import Downloads

  /** The error text that makes `handleProcessPrompt` inject the content script and resend. */
  const ConnectionError: string := "Could not establish connection"
  /** The error raised for an answer that is missing or not successful and carries no error text. */
  const DefaultFailure: string := "Content script failed"

  /** How `handleOpenFlowPage`'s tab work ended. */
  datatype OpenResult =
    | Opened(tab: int)        // found or created, activated and loaded
    | FailedAfter(tab: int)   // the id was recorded, then activating the tab failed
    | FailedBefore            // the lookup or the creation failed

  /** How one `FILL_AND_SUBMIT` round trip to the tab ended. */
  datatype Outcome =
    | Answered(success: bool, error: string)
    | NoAnswer
    | Threw(message: string)

  /** How the retry after a connection error ends: injection, then the resend. */
  datatype Retry =
    | Resent          // the script was injected and the resend did not throw (its answer is not inspected)
    | InjectFails     // `executeScript` rejected, so nothing was resent
    | ResendThrows    // the script was injected, and the resend rejected

  /**
   * What the environment does during one message: every outcome the
   * handlers depend on. `activateError` is the rejection of
   * `handleProcessPrompt`'s `chrome.tabs.update`, if any;
   * `collectActivateFails` and `collectThrows` are the rejections of
   * `handleCollectAllVideoLinks`' `chrome.tabs.update` and `sendMessage`.
   */
  datatype Env = Env(tabLookup: OpenResult, activateError: Option<string>, first: Outcome, retry: Retry,
                     collectActivateFails: bool, collectThrows: bool)

  /** `if (flowTabId)`: a recorded, non-zero tab id. */
  predicate HasTab(t: Option<int>) {
    t.Some? && t.value != 0
  }

  /** The tab id after `handleOpenFlowPage`. */
  function OpenedTab(recorded: Option<int>, o: OpenResult): (r: Option<int>)
    ensures o.FailedBefore? ==> r == recorded
    ensures !o.FailedBefore? ==> r == Some(o.tab)
  {
    match o
    case Opened(t) => Some(t)
    case FailedAfter(t) => Some(t)
    case FailedBefore => recorded
  }

  /** What `handleOpenFlowPage` tells the popup: a status on success, an error for index -1 otherwise. */
  function OpenReport(o: OpenResult): (r: seq<Message>)
    ensures |r| == 1
    ensures r[0].VideoError? <==> !o.Opened?
    ensures r[0].VideoError? ==> r[0].promptIndex == -1
  {
    if o.Opened? then [StatusUpdate] else [VideoError(-1)]
  }

  /** The error `handleProcessPrompt`'s first attempt ends with, if any. */
  function AttemptError(o: Outcome): (r: Option<string>)
    ensures r.None? <==> o.Answered? && o.success
    ensures (o.NoAnswer? || (o.Answered? && !o.success && o.error == "")) ==> r == Some(DefaultFailure)
  {
    match o
    case Answered(ok, e) => if ok then None else Some(if e != "" then e else DefaultFailure)
    case NoAnswer => Some(DefaultFailure)
    case Threw(m) => Some(m)
  }

  /**
   * The error `handleProcessPrompt`'s try block ends with: a rejected
   * activation skips the send, so its error is the one caught; otherwise
   * the first attempt's.
   */
  function TryError(env: Env): (r: Option<string>)
    ensures r.None? <==> env.activateError.None? && env.first.Answered? && env.first.success
    ensures env.activateError.Some? ==> r == env.activateError
  {
    if env.activateError.Some? then env.activateError else AttemptError(env.first)
  }

  /** The try block failed with the connection error, so the script is injected and the prompt resent. */
  predicate Reinjects(env: Env) {
    TryError(env).Some? && Includes(TryError(env).value, ConnectionError)
  }

  /**
   * The `FILL_AND_SUBMIT` messages one `handleProcessPrompt` sends to the
   * tab: the first unless the activation was rejected, then the resend
   * after a connection error unless the injection was rejected.
   */
  function TabSends(env: Env, prompt: string, i: int): (r: seq<Message>)
    ensures forall k :: 0 <= k < |r| ==> r[k] == FillAndSubmit(prompt, i)
    ensures |r| == (if env.activateError.None? then 1 else 0) + (if Reinjects(env) && !env.retry.InjectFails? then 1 else 0)
  {
    (if env.activateError.None? then [FillAndSubmit(prompt, i)] else [])
    + (if Reinjects(env) && !env.retry.InjectFails? then [FillAndSubmit(prompt, i)] else [])
  }

  /**
   * What `handleProcessPrompt` tells the popup once the tab has been
   * tried: nothing on success; after a connection error, an error only if
   * the injection or the resend rejects (the resend's answer is not
   * inspected); after any other error, an error at once.
   */
  function PromptReport(env: Env, i: int): (r: seq<Message>)
    ensures r == [] || r == [VideoError(i)]
    ensures r == [] <==> TryError(env).None? || (Reinjects(env) && env.retry.Resent?)
  {
    if TryError(env).None? then []
    else if Reinjects(env) then (if env.retry.Resent? then [] else [VideoError(i)])
    else [VideoError(i)]
  }

  /**
   * Every prompt reaches the tab or is reported: when the popup hears no
   * error, at least one `FILL_AND_SUBMIT` was sent, and a resend happens
   * only after a connection error.
   */
  lemma PromptSentOrReported(env: Env, prompt: string, i: int)
    ensures PromptReport(env, i) == [] ==> |TabSends(env, prompt, i)| >= 1
    ensures |TabSends(env, prompt, i)| == 2 ==> Reinjects(env) && env.activateError.None?
    ensures env.activateError.Some? && !Reinjects(env) ==> TabSends(env, prompt, i) == [] && PromptReport(env, i) == [VideoError(i)]
  {
  }

  /** A string shorter than `t` cannot include it. */
  lemma {:induction false} ShorterNotIncluded(s: string, t: string)
    requires |s| < |t|
    ensures !Includes(s, t)
    decreases |s|
  {
    if |s| > 0 {
      ShorterNotIncluded(s[1..], t);
    }
  }

  /**
   * After a successful activation, an unsuccessful or missing answer is
   * never retried: its error is the default text or the answer's own, and
   * the default text does not name the connection error. So it is
   * reported to the popup at once.
   */
  lemma FailedAnswerReported(env: Env, i: int)
    requires env.activateError.None? && (env.first.NoAnswer? || env.first == Answered(false, ""))
    ensures !Reinjects(env)
    ensures PromptReport(env, i) == [VideoError(i)]
  {
    ShorterNotIncluded(DefaultFailure, ConnectionError);
  }

  /** The array a collection pass builds: every position filled, each entry at its own index with a URL. */
  ghost predicate Consecutive(a: Downloads.Slots) {
    forall k :: 0 <= k < |a| ==> a[k].Some? && a[k].value.promptIndex == k && a[k].value.url != ""
  }

  /** Every entry of a pass counts: `getVideoCount` on it is its length. */
  lemma {:induction false} ConsecutiveAllCounted(a: Downloads.Slots)
    requires Consecutive(a)
    ensures Downloads.VideoCount(a) == |a|
    decreases |a|
  {
    if a != [] {
      var prefix := a[..|a| - 1];
      assert Consecutive(prefix);
      ConsecutiveAllCounted(prefix);
    }
  }

  /** Capturing a download at the next index keeps a pass consecutive and adds one video. */
  lemma CaptureExtends(a: Downloads.Slots, url: string, now: int)
    requires Consecutive(a) && url != ""
    ensures var r := Downloads.Put(a, |a|, Downloads.Entry(url, now, |a|));
      Consecutive(r) && |r| == |a| + 1 && Downloads.VideoCount(r) == |r|
  {
    var r := Downloads.Put(a, |a|, Downloads.Entry(url, now, |a|));
    assert Consecutive(r) by {
      forall k | 0 <= k < |r|
        ensures r[k].Some? && r[k].value.promptIndex == k && r[k].value.url != ""
      {
        if k < |a| {
          assert r[k] == a[k];
        }
      }
    }
    ConsecutiveAllCounted(a);
    ConsecutiveAllCounted(r);
  }

  /**
   * The popup saves each forwarded `VIDEO_COMPLETED` again at its index
   * (`handleVideoCompleted`); with a later timestamp that keeps the pass
   * consecutive and its length unchanged.
   */
  lemma ResaveKeepsConsecutive(a: Downloads.Slots, k: nat, url: string, now: int)
    requires Consecutive(a) && k < |a| && url != ""
    ensures var r := Downloads.Put(a, k, Downloads.Entry(url, now, k));
      Consecutive(r) && |r| == |a|
  {
    var r := Downloads.Put(a, k, Downloads.Entry(url, now, k));
    forall j | 0 <= j < |r|
      ensures r[j].Some? && r[j].value.promptIndex == j && r[j].value.url != ""
    {
      if j != k {
        assert r[j] == a[j];
      }
    }
  }

  /**
   * What a collection request with a recorded tab tells the popup: an
   * error alone when the tab cannot be activated; otherwise a status,
   * then an error if the request to the tab rejects.
   */
  function CollectReport(activateFails: bool, collectThrows: bool): (r: seq<Message>)
    ensures activateFails ==> r == [VideoError(-1)]
    ensures !activateFails ==> |r| == (if collectThrows then 2 else 1) && r[0] == StatusUpdate
    ensures forall k :: 0 <= k < |r| ==> r[k] == StatusUpdate || r[k] == VideoError(-1)
  {
    if activateFails then [VideoError(-1)]
    else [StatusUpdate] + (if collectThrows then [VideoError(-1)] else [])
  }

  /** The service worker's module-level state. */
  class ServiceWorker {
    var flowTabId: Option<int>
    var isProcessing: bool
    var shouldStop: bool
    var isCollectingDownloads: bool
    var nextDownloadIndex: nat
    /** The `videoUrls` storage key, shared with the popup. */
    const store: Downloads.VideoUrlStore
    /** Messages sent to the popup, oldest first. */
    var toPopup: seq<Message>
    /** Messages sent (or attempted) to the Flow tab, oldest first. */
    var toTab: seq<Message>

    /** While a pass is on, the stored array is exactly the downloads captured so far, at indices 0, 1, 2, ... */
    ghost predicate Valid()
      reads this, store
    {
      isCollectingDownloads ==> Consecutive(store.Contents()) && |store.Contents()| == nextDownloadIndex
    }

    constructor (store: Downloads.VideoUrlStore)
      ensures this.store == store
      ensures flowTabId.None? && !isProcessing && !shouldStop && !isCollectingDownloads && nextDownloadIndex == 0
      ensures toPopup == [] && toTab == []
      ensures Valid()
    {
      this.store := store;
      flowTabId := None;
      isProcessing := false;
      shouldStop := false;
      isCollectingDownloads := false;
      nextDownloadIndex := 0;
      toPopup := [];
      toTab := [];
    }

    /**
     * `downloads.onCreated`: outside a pass, or for an item without a URL,
     * nothing happens; otherwise the download is stored at the next index,
     * the counter goes up by one and the popup is told.
     */
    method OnDownloadCreated(url: string, now: int)
      modifies this, store
      ensures !old(isCollectingDownloads) || url == "" ==> unchanged(this) && unchanged(store)
      ensures old(isCollectingDownloads) && url != "" ==>
        && nextDownloadIndex == old(nextDownloadIndex) + 1
        && store.stored == Some(Downloads.Put(old(store.Contents()), old(nextDownloadIndex),
                                              Downloads.Entry(url, now, old(nextDownloadIndex))))
        && toPopup == old(toPopup) + [VideoCompleted(old(nextDownloadIndex), url)]
        && flowTabId == old(flowTabId) && isProcessing == old(isProcessing) && shouldStop == old(shouldStop)
        && isCollectingDownloads && toTab == old(toTab)
      ensures old(Valid()) ==> Valid()
      ensures old(Valid()) && old(isCollectingDownloads) && url != "" ==>
        Downloads.VideoCount(store.Contents()) == nextDownloadIndex
    {
      if !isCollectingDownloads || url == "" {
        return;
      }
      ghost var before := store.Contents();
      var idx := nextDownloadIndex;
      nextDownloadIndex := nextDownloadIndex + 1;
      var _ := store.SaveVideoUrl(idx, url, now);
      toPopup := toPopup + [VideoCompleted(idx, url)];
      if old(Valid()) {
        assert |before| == idx;
        CaptureExtends(before, url, now);
        assert store.Contents() == Downloads.Put(before, |before|, Downloads.Entry(url, now, |before|));
      }
    }

    /** `handleOpenFlowPage()`. */
    method OpenFlowPage(lookup: OpenResult)
      modifies this
      ensures flowTabId == OpenedTab(old(flowTabId), lookup)
      ensures toPopup == old(toPopup) + OpenReport(lookup)
      ensures isProcessing == old(isProcessing) && shouldStop == old(shouldStop)
      ensures isCollectingDownloads == old(isCollectingDownloads) && nextDownloadIndex == old(nextDownloadIndex)
      ensures toTab == old(toTab)
    {
      match lookup {
        case Opened(t) =>
          flowTabId := Some(t);
          toPopup := toPopup + [StatusUpdate];
        case FailedAfter(t) =>
          flowTabId := Some(t);
          toPopup := toPopup + [VideoError(-1)];
        case FailedBefore =>
          toPopup := toPopup + [VideoError(-1)];
      }
    }

    /**
     * `handleProcessPrompt(prompt, promptIndex)`: a no-op while stopped.
     * Otherwise the tab is opened if none is recorded, activated, and the
     * prompt is sent; a connection error leads to one injection and at
     * most one resend, and `isProcessing` is false at the end.
     */
    method ProcessPrompt(prompt: string, promptIndex: int, env: Env)
      modifies this
      ensures old(shouldStop) ==> unchanged(this)
      ensures !old(shouldStop) ==>
        && !isProcessing && !shouldStop
        && flowTabId == (if HasTab(old(flowTabId)) then old(flowTabId) else OpenedTab(old(flowTabId), env.tabLookup))
        && toTab == old(toTab) + TabSends(env, prompt, promptIndex)
        && toPopup == old(toPopup) + (if HasTab(old(flowTabId)) then [] else OpenReport(env.tabLookup))
                      + PromptReport(env, promptIndex)
      ensures isCollectingDownloads == old(isCollectingDownloads) && nextDownloadIndex == old(nextDownloadIndex)
    {
      if shouldStop {
        return;
      }
      isProcessing := true;
      if !HasTab(flowTabId) {
        OpenFlowPage(env.tabLookup);
      }
      var error := env.activateError;
      if error.None? {
        toTab := toTab + [FillAndSubmit(prompt, promptIndex)];
        error := AttemptError(env.first);
      }
      if error.Some? {
        if Includes(error.value, ConnectionError) {
          if env.retry.InjectFails? {
            toPopup := toPopup + [VideoError(promptIndex)];
          } else {
            toTab := toTab + [FillAndSubmit(prompt, promptIndex)];
            if env.retry.ResendThrows? {
              toPopup := toPopup + [VideoError(promptIndex)];
            }
          }
        } else {
          toPopup := toPopup + [VideoError(promptIndex)];
        }
      }
      isProcessing := false;
    }

    /** `handleStopQueue()`: stop, and tell the tab if one is recorded. */
    method StopQueue()
      modifies this
      ensures shouldStop && !isProcessing
      ensures toTab == old(toTab) + (if HasTab(flowTabId) then [Stop] else [])
      ensures flowTabId == old(flowTabId) && toPopup == old(toPopup)
      ensures isCollectingDownloads == old(isCollectingDownloads) && nextDownloadIndex == old(nextDownloadIndex)
    {
      shouldStop := true;
      isProcessing := false;
      if HasTab(flowTabId) {
        toTab := toTab + [Stop];
      }
    }

    /**
     * `handleCollectAllVideoLinks()`: without a tab, only an error for
     * index -1. Otherwise a new pass starts from index 0 over an empty
     * stored array; if the tab can be activated, the popup gets a status
     * and the tab is asked to click through its videos. A rejected
     * activation or request is reported as an error for index -1, and the
     * pass stays on.
     */
    method CollectAllVideoLinks(activateFails: bool, collectThrows: bool)
      modifies this, store
      ensures !HasTab(old(flowTabId)) ==>
        && unchanged(store) && toPopup == old(toPopup) + [VideoError(-1)] && toTab == old(toTab)
        && isCollectingDownloads == old(isCollectingDownloads) && nextDownloadIndex == old(nextDownloadIndex)
      ensures HasTab(old(flowTabId)) ==>
        && isCollectingDownloads && nextDownloadIndex == 0 && store.stored == Some([])
        && toTab == old(toTab) + (if activateFails then [] else [Messages.CollectAllVideoLinks])
        && toPopup == old(toPopup) + CollectReport(activateFails, collectThrows)
      ensures flowTabId == old(flowTabId) && isProcessing == old(isProcessing) && shouldStop == old(shouldStop)
      ensures old(Valid()) ==> Valid()
      ensures HasTab(old(flowTabId)) ==> Valid()
    {
      if !HasTab(flowTabId) {
        toPopup := toPopup + [VideoError(-1)];
        return;
      }
      isCollectingDownloads := true;
      nextDownloadIndex := 0;
      store.ResetVideoUrls();
      if activateFails {
        toPopup := toPopup + [VideoError(-1)];
        return;
      }
      toPopup := toPopup + [StatusUpdate];
      toTab := toTab + [Messages.CollectAllVideoLinks];
      if collectThrows {
        toPopup := toPopup + [VideoError(-1)];
      }
    }

    /**
     * `handleMessage` together with the second listener that clears the
     * stop flag on `OPEN_FLOW_PAGE`. Each request type does what its
     * handler does; status updates and the three progress messages are
     * forwarded to the popup unchanged; an unknown type is refused. Only
     * `OPEN_FLOW_PAGE` ever clears the stop flag.
     */
    method HandleMessage(m: Message, env: Env) returns (reply: Reply)
      modifies this, store
      ensures reply == (match m
        case OpenFlowPage | ProcessPrompt(_, _) | StopQueue | CollectAllVideoLinks
           | PromptSubmitted(_) | VideoCompleted(_, _) | VideoError(_) | StatusUpdate => Ok
        case _ => Refused(UnknownMessageType))
      ensures !m.OpenFlowPage? && old(shouldStop) ==> shouldStop
      ensures m.OpenFlowPage? ==>
        && !shouldStop && flowTabId == OpenedTab(old(flowTabId), env.tabLookup)
        && toPopup == old(toPopup) + OpenReport(env.tabLookup) && toTab == old(toTab)
        && isProcessing == old(isProcessing) && isCollectingDownloads == old(isCollectingDownloads)
        && nextDownloadIndex == old(nextDownloadIndex)
      ensures m.ProcessPrompt? && old(shouldStop) ==> unchanged(this)
      ensures m.ProcessPrompt? && !old(shouldStop) ==>
        && !isProcessing && !shouldStop
        && flowTabId == (if HasTab(old(flowTabId)) then old(flowTabId) else OpenedTab(old(flowTabId), env.tabLookup))
        && toTab == old(toTab) + TabSends(env, m.prompt, m.promptIndex)
        && toPopup == old(toPopup) + (if HasTab(old(flowTabId)) then [] else OpenReport(env.tabLookup))
                      + PromptReport(env, m.promptIndex)
        && isCollectingDownloads == old(isCollectingDownloads) && nextDownloadIndex == old(nextDownloadIndex)
      ensures m.StopQueue? ==>
        && shouldStop && !isProcessing && flowTabId == old(flowTabId)
        && toTab == old(toTab) + (if HasTab(flowTabId) then [Stop] else []) && toPopup == old(toPopup)
        && isCollectingDownloads == old(isCollectingDownloads) && nextDownloadIndex == old(nextDownloadIndex)
      ensures m.CollectAllVideoLinks? && !HasTab(old(flowTabId)) ==>
        && toPopup == old(toPopup) + [VideoError(-1)] && toTab == old(toTab) && flowTabId == old(flowTabId)
        && isProcessing == old(isProcessing) && shouldStop == old(shouldStop)
        && isCollectingDownloads == old(isCollectingDownloads) && nextDownloadIndex == old(nextDownloadIndex)
        && unchanged(store)
      ensures m.CollectAllVideoLinks? && HasTab(old(flowTabId)) ==>
        && isCollectingDownloads && nextDownloadIndex == 0 && store.stored == Some([])
        && toTab == old(toTab) + (if env.collectActivateFails then [] else [Messages.CollectAllVideoLinks])
        && toPopup == old(toPopup) + CollectReport(env.collectActivateFails, env.collectThrows)
        && flowTabId == old(flowTabId) && isProcessing == old(isProcessing) && shouldStop == old(shouldStop)
      ensures (m.PromptSubmitted? || m.VideoCompleted? || m.VideoError? || m.StatusUpdate?) ==>
        && toPopup == old(toPopup) + [m] && toTab == old(toTab) && flowTabId == old(flowTabId)
        && isProcessing == old(isProcessing) && shouldStop == old(shouldStop)
        && isCollectingDownloads == old(isCollectingDownloads) && nextDownloadIndex == old(nextDownloadIndex)
      ensures reply.Refused? ==> unchanged(this)
      ensures !m.CollectAllVideoLinks? ==> unchanged(store)
      ensures old(Valid()) ==> Valid()
    {
      reply := Ok;
      match m {
        case OpenFlowPage =>
          shouldStop := false;
          OpenFlowPage(env.tabLookup);
        case ProcessPrompt(prompt, i) =>
          ProcessPrompt(prompt, i, env);
        case StopQueue =>
          StopQueue();
        case CollectAllVideoLinks =>
          CollectAllVideoLinks(env.collectActivateFails, env.collectThrows);
        case PromptSubmitted(_) =>
          toPopup := toPopup + [m];
        case VideoCompleted(_, _) =>
          toPopup := toPopup + [m];
        case VideoError(_) =>
          toPopup := toPopup + [m];
        case StatusUpdate =>
          toPopup := toPopup + [m];
        case _ =>
          reply := Refused(UnknownMessageType);
      }
    }
  }
}
