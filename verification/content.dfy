/**
 * The content script's own state and its two long-running handlers:
 * filling and submitting one prompt, and the pass that clicks every
 * video's download button and its "Original size (720p)" option.
 * What the page shows is passed in as the locators' inputs; the
 * messages the script sends are appended to `sent`.
 */
module ContentScript {
  import opened Wrappers
  import opened Messages
  import opened Locator

  /** The page as `handleFillAndSubmit` meets it. */
  datatype PromptPage = PromptPage(
    attempts: seq<FillAttempt>,    // what each element `fillPrompt` tries reads back afterwards
    controls: seq<TextControl>,    // the text controls `submitForm` inspects
    buttons: seq<Element>          // the buttons `submitForm` inspects
  )

  /** The outcome of one prompt: what `handleFillAndSubmit` reports. */
  function FillAndSubmitReport(page: PromptPage, prompt: string, promptIndex: int): (r: seq<Message>)
    ensures |r| == 1
    ensures r[0].PromptSubmitted? <==>
      FillPrompt(page.attempts, prompt).Some? && !ChooseSubmitButton(page.controls, page.buttons, prompt).NoButton?
    ensures r[0] == PromptSubmitted(promptIndex) || r[0] == VideoError(promptIndex)
  {
    if FillPrompt(page.attempts, prompt).None? then [VideoError(promptIndex)]
    else if ChooseSubmitButton(page.controls, page.buttons, prompt).NoButton? then [VideoError(promptIndex)]
    else [PromptSubmitted(promptIndex)]
  }

  /** A `<video>` element of the page together with what its iteration of the collection pass meets. */
  datatype Video = Video(
    box: Element,                  // the video element itself (laid out? its box)
    stopArrives: bool,             // a STOP is handled before this iteration checks the flag
    container: seq<Element>,       // candidates in the video's container, for the download button
    page: seq<Element>,            // candidates in the whole document, for the download button
    menu: Option<seq<Element>>,    // what `waitForMenuContainer` finds: the menu's candidates, or null
    clickThrows: bool              // the clicks on the option throw
  )

  /** The collection pass only processes laid-out videos larger than 50x50. */
  predicate Processable(v: Video) {
    v.box.laidOut && v.box.rect.width > 50 && v.box.rect.height > 50
  }

  /** The positions of the processable videos: all of them, each once, in document order. */
  function ProcessableIndices(vs: seq<Video>): (r: seq<nat>)
    ensures forall k :: 0 <= k < |r| ==> r[k] < |vs| && Processable(vs[r[k]])
    ensures forall k, l :: 0 <= k < l < |r| ==> r[k] < r[l]
    ensures forall p :: 0 <= p < |vs| && Processable(vs[p]) ==> p in r
    decreases |vs|
  {
    if vs == [] then []
    else
      var prefix := vs[..|vs| - 1];
      assert forall p :: 0 <= p < |prefix| ==> prefix[p] == vs[p];
      ProcessableIndices(prefix) + (if Processable(vs[|vs| - 1]) then [|vs| - 1] else [])
  }

  /**
   * The videos the collection pass goes through: the k-th one is the video
   * at the k-th processable position, so every processable video is taken,
   * once, in document order, and no other.
   */
  function Processed(vs: seq<Video>): (r: seq<Video>)
    ensures |r| <= |vs|
    ensures |r| == |ProcessableIndices(vs)|
    ensures forall k :: 0 <= k < |r| ==> r[k] == vs[ProcessableIndices(vs)[k]] && Processable(r[k])
    ensures (forall k :: 0 <= k < |vs| ==> !Processable(vs[k])) <==> r == []
    decreases |vs|
  {
    if vs == [] then []
    else
      var n := |vs| - 1;
      var kept := Processed(vs[..n]);
      var r := kept + (if Processable(vs[n]) then [vs[n]] else []);
      var idx := ProcessableIndices(vs);
      ProcessableIndicesStep(vs);
      assert forall k :: 0 <= k < |r| ==> r[k] == vs[idx[k]] by {
        forall k | 0 <= k < |r|
          ensures r[k] == vs[idx[k]]
        {
          if k < |kept| {
            assert r[k] == kept[k] == vs[..n][idx[k]];
          }
        }
      }
      NoneProcessable(vs);
      r
  }

  /** No position is listed exactly when no video is processable. */
  lemma NoneProcessable(vs: seq<Video>)
    ensures ProcessableIndices(vs) == [] <==> forall k :: 0 <= k < |vs| ==> !Processable(vs[k])
  {
    var r := ProcessableIndices(vs);
    if r != [] {
      assert Processable(vs[r[0]]);
    }
  }

  /** The processable positions of `vs` are those of all but its last video, plus the last if it qualifies. */
  lemma ProcessableIndicesStep(vs: seq<Video>)
    requires vs != []
    ensures var n := |vs| - 1;
      ProcessableIndices(vs) == ProcessableIndices(vs[..n]) + (if Processable(vs[n]) then [n] else [])
  {
  }

  /** Disabled, as the collection pass checks it: four signals, `pointer-events` not among them. */
  predicate CollectDisabled(e: Element) {
    e.disabledProp || e.ariaDisabled == "true" || e.hasDisabledClass || e.hasDisabledAttr
  }

  /** How one iteration of the collection pass ends. */
  datatype ItemOutcome =
    | NoDownloadButton
    | ButtonDisabled
    | NoMenu
    | NoOption
    | ClickFailed
    | OptionClicked(option: nat)

  /** The element `findDownloadButtonNearVideo` returned. */
  function ButtonOf(v: Video, at: Located): Option<Element> {
    match at
    case InContainer(k) => if k < |v.container| then Some(v.container[k]) else None
    case OnPage(k) => if k < |v.page| then Some(v.page[k]) else None
  }

  /** The iteration for video `v`, up to its `continue` or its end. */
  function ItemResult(v: Video): ItemOutcome {
    var at := DownloadButtonNearVideo(v.box.rect, v.container, v.page);
    if at.None? then NoDownloadButton
    else
      var button := ButtonOf(v, at.value);
      if button.None? then NoDownloadButton
      else if CollectDisabled(button.value) then ButtonDisabled
      else if v.menu.None? then NoMenu
      else
        var option := OriginalSizeOption(v.menu);
        if option.None? then NoOption
        else if v.clickThrows then ClickFailed
        else OptionClicked(option.value)
  }

  /** Whether the iteration set the keep-menu interval (it got as far as a menu). */
  predicate OpenedMenu(o: ItemOutcome) {
    o.NoOption? || o.ClickFailed? || o.OptionClicked?
  }

  function MenusOpened(os: seq<ItemOutcome>): nat
    decreases |os|
  {
    if os == [] then 0 else MenusOpened(os[..|os| - 1]) + (if OpenedMenu(os[|os| - 1]) then 1 else 0)
  }

  /** `f` applied to the first `n` elements of `xs`, in order. */
  function MapPrefix<A, B>(f: A -> B, xs: seq<A>, n: nat): seq<B>
    requires n <= |xs|
  {
    if n == 0 then [] else MapPrefix(f, xs, n - 1) + [f(xs[n - 1])]
  }

  lemma {:induction false} MapPrefixPointwise<A, B>(f: A -> B, xs: seq<A>, n: nat)
    requires n <= |xs|
    ensures |MapPrefix(f, xs, n)| == n
    ensures forall k :: 0 <= k < n ==> MapPrefix(f, xs, n)[k] == f(xs[k])
  {
    if n > 0 {
      MapPrefixPointwise(f, xs, n - 1);
    }
  }

  /** The outcomes of the first `n` iterations. */
  function Outcomes(vs: seq<Video>, n: nat): seq<ItemOutcome>
    requires n <= |vs|
  {
    MapPrefix(ItemResult, vs, n)
  }

  /** Appending iteration `i`'s outcome extends the run by one and the menu count by that iteration's. */
  lemma NextOutcome(vs: seq<Video>, i: nat, os: seq<ItemOutcome>, o: ItemOutcome)
    requires i < |vs| && os == Outcomes(vs, i) && o == ItemResult(vs[i])
    ensures os + [o] == Outcomes(vs, i + 1)
    ensures MenusOpened(os + [o]) == MenusOpened(os) + (if OpenedMenu(o) then 1 else 0)
  {
    assert (os + [o])[..|os|] == os;
  }

  /** One outcome per iteration run, each that iteration's own. */
  lemma OutcomesPointwise(vs: seq<Video>, n: nat)
    requires n <= |vs|
    ensures |Outcomes(vs, n)| == n
    ensures forall k :: 0 <= k < n ==> Outcomes(vs, n)[k] == ItemResult(vs[k])
  {
    MapPrefixPointwise(ItemResult, vs, n);
  }

  /** The stop check of a video's iteration finds the flag set: it was set before the pass, or a STOP arrives just before. */
  predicate SeesStop(stoppedBefore: bool, v: Video) {
    stoppedBefore || v.stopArrives
  }

  /** The iteration whose check finds the stop flag set, if any. */
  function StopAt(vs: seq<Video>, stoppedBefore: bool): Option<nat> {
    StopFrom(vs, stoppedBefore, 0)
  }

  function StopFrom(vs: seq<Video>, stoppedBefore: bool, from: nat): (r: Option<nat>)
    requires from <= |vs|
    ensures r.Some? ==> from <= r.value < |vs| && SeesStop(stoppedBefore, vs[r.value])
    decreases |vs| - from
  {
    if from == |vs| then None
    else if SeesStop(stoppedBefore, vs[from]) then Some(from)
    else StopFrom(vs, stoppedBefore, from + 1)
  }

  /** How many iterations run to completion: all of them, or those before the stop. */
  function Reached(vs: seq<Video>, stoppedBefore: bool): (n: nat)
    ensures n <= |vs|
  {
    var st := StopAt(vs, stoppedBefore);
    if st.Some? then st.value else |vs|
  }

  /** `COLLECTION_COMPLETED` with the number of processable videos, unless the pass was stopped. */
  function CompletionReport(vs: seq<Video>, stoppedBefore: bool): seq<Message> {
    if StopAt(vs, stoppedBefore).None? then [CollectionCompleted(|vs|)] else []
  }

  /** None of the first `n` iterations' checks finds the stop flag set. */
  predicate Unstopped(vs: seq<Video>, stoppedBefore: bool, n: nat)
    requires n <= |vs|
  {
    n == 0 || (Unstopped(vs, stoppedBefore, n - 1) && !SeesStop(stoppedBefore, vs[n - 1]))
  }

  /** Past `from`, the first video whose check sees the flag is `i`, given none from `from` to `i - 1` does. */
  lemma {:induction false} StopFromFirst(vs: seq<Video>, stoppedBefore: bool, from: nat, i: nat)
    requires from <= i < |vs| && SeesStop(stoppedBefore, vs[i])
    requires forall k :: from <= k < i ==> !SeesStop(stoppedBefore, vs[k])
    ensures StopFrom(vs, stoppedBefore, from) == Some(i)
    decreases i - from
  {
    if from < i {
      StopFromFirst(vs, stoppedBefore, from + 1, i);
    }
  }

  /** Past `from`, no stop is found when no check from `from` on sees the flag. */
  lemma {:induction false} StopFromNone(vs: seq<Video>, stoppedBefore: bool, from: nat)
    requires from <= |vs|
    requires forall k :: from <= k < |vs| ==> !SeesStop(stoppedBefore, vs[k])
    ensures StopFrom(vs, stoppedBefore, from).None?
    decreases |vs| - from
  {
    if from < |vs| {
      StopFromNone(vs, stoppedBefore, from + 1);
    }
  }

  lemma {:induction false} UnstoppedPointwise(vs: seq<Video>, stoppedBefore: bool, n: nat)
    requires n <= |vs|
    ensures Unstopped(vs, stoppedBefore, n) <==> forall k :: 0 <= k < n ==> !SeesStop(stoppedBefore, vs[k])
  {
    if n > 0 {
      UnstoppedPointwise(vs, stoppedBefore, n - 1);
    }
  }

  /** The first iteration whose check sees the flag is where the pass stops. */
  lemma StopAtFirst(vs: seq<Video>, stoppedBefore: bool, i: nat)
    requires i < |vs| && SeesStop(stoppedBefore, vs[i])
    requires Unstopped(vs, stoppedBefore, i)
    ensures StopAt(vs, stoppedBefore) == Some(i)
  {
    UnstoppedPointwise(vs, stoppedBefore, i);
    StopFromFirst(vs, stoppedBefore, 0, i);
  }

  /** A pass whose checks never see the flag runs to the end. */
  lemma NeverStopped(vs: seq<Video>, stoppedBefore: bool)
    requires Unstopped(vs, stoppedBefore, |vs|)
    ensures StopAt(vs, stoppedBefore).None?
  {
    UnstoppedPointwise(vs, stoppedBefore, |vs|);
    StopFromNone(vs, stoppedBefore, 0);
  }

  /** The module-level state of the content script. */
  class Script {
    var isProcessing: bool
    var shouldStop: bool
    var currentPromptIndex: int
    /** Every runtime message sent, oldest first (status updates omitted). */
    var sent: seq<Message>
    /** Whether a keep-menu interval is currently set. */
    var menuKeeperRunning: bool
    /** How many keep-menu intervals have been set so far. */
    var menuKeepersStarted: nat

    constructor ()
      ensures !isProcessing && !shouldStop && currentPromptIndex == -1 && sent == []
      ensures !menuKeeperRunning && menuKeepersStarted == 0
    {
      isProcessing := false;
      shouldStop := false;
      currentPromptIndex := -1;
      sent := [];
      menuKeeperRunning := false;
      menuKeepersStarted := 0;
    }

    /** `handleStop()`: nothing in this script ever clears the flag again. */
    method HandleStop()
      modifies this
      ensures shouldStop && !isProcessing
      ensures currentPromptIndex == old(currentPromptIndex) && sent == old(sent)
      ensures menuKeeperRunning == old(menuKeeperRunning) && menuKeepersStarted == old(menuKeepersStarted)
    {
      shouldStop := true;
      isProcessing := false;
    }

    /**
     * `handleFillAndSubmit(prompt, promptIndex)`: nothing at all once
     * stopped; otherwise exactly one report, `PROMPT_SUBMITTED` when both
     * the fill and the submit succeed and `VIDEO_ERROR` with the same index
     * otherwise, and `isProcessing` is false on exit.
     */
    method FillAndSubmit(prompt: string, promptIndex: int, page: PromptPage)
      modifies this
      ensures old(shouldStop) ==> unchanged(this)
      ensures !old(shouldStop) ==>
        && sent == old(sent) + FillAndSubmitReport(page, prompt, promptIndex)
        && currentPromptIndex == promptIndex && !isProcessing
      ensures shouldStop == old(shouldStop)
      ensures menuKeeperRunning == old(menuKeeperRunning) && menuKeepersStarted == old(menuKeepersStarted)
    {
      if shouldStop {
        return;
      }
      isProcessing := true;
      currentPromptIndex := promptIndex;
      var filled := FillPrompt(page.attempts, prompt);
      if filled.None? {
        sent := sent + [VideoError(promptIndex)];
      } else {
        var submitted := ChooseSubmitButton(page.controls, page.buttons, prompt);
        if submitted.NoButton? {
          sent := sent + [VideoError(promptIndex)];
        } else {
          sent := sent + [PromptSubmitted(promptIndex)];
        }
      }
      isProcessing := false;
    }

    /**
     * One iteration of the collection pass, from the download button to
     * its `continue` or its end. Once the menu has appeared the keep-menu
     * interval is set, and it is cleared again on the no-option path, the
     * exception path and the success path alike.
     */
    method ProcessVideo(v: Video) returns (outcome: ItemOutcome)
      modifies this
      requires !menuKeeperRunning
      ensures outcome == ItemResult(v)
      ensures !menuKeeperRunning
      ensures menuKeepersStarted == old(menuKeepersStarted) + (if OpenedMenu(outcome) then 1 else 0)
      ensures shouldStop == old(shouldStop) && isProcessing == old(isProcessing)
      ensures sent == old(sent) && currentPromptIndex == old(currentPromptIndex)
    {
      var at := DownloadButtonNearVideo(v.box.rect, v.container, v.page);
      if at.None? {
        return NoDownloadButton;
      }
      var button := ButtonOf(v, at.value);
      if button.None? {
        return NoDownloadButton;
      }
      if CollectDisabled(button.value) {
        return ButtonDisabled;
      }
      if v.menu.None? {
        return NoMenu;
      }
      menuKeeperRunning := true;
      menuKeepersStarted := menuKeepersStarted + 1;
      var option := OriginalSizeOption(v.menu);
      if option.None? {
        menuKeeperRunning := false;
        return NoOption;
      }
      if v.clickThrows {
        menuKeeperRunning := false;
        return ClickFailed;
      }
      menuKeeperRunning := false;
      return OptionClicked(option.value);
    }

    /**
     * Iteration `i` of the per-video loop: its stop check (a STOP handled
     * just before sets the flag), then, unless that breaks the loop
     * (`None`), the video's processing.
     */
    method Iteration(vs: seq<Video>, i: nat, ghost stoppedBefore: bool) returns (outcome: Option<ItemOutcome>)
      modifies this
      requires i < |vs| && !menuKeeperRunning && shouldStop == stoppedBefore && Unstopped(vs, stoppedBefore, i)
      ensures outcome.None? <==> SeesStop(stoppedBefore, vs[i])
      ensures outcome.None? ==>
        shouldStop && isProcessing == (old(isProcessing) && !vs[i].stopArrives)
        && menuKeepersStarted == old(menuKeepersStarted)
      ensures outcome.Some? ==>
        && outcome.value == ItemResult(vs[i]) && Unstopped(vs, stoppedBefore, i + 1)
        && shouldStop == stoppedBefore && isProcessing == old(isProcessing)
        && menuKeepersStarted == old(menuKeepersStarted) + (if OpenedMenu(outcome.value) then 1 else 0)
      ensures !menuKeeperRunning && sent == old(sent) && currentPromptIndex == old(currentPromptIndex)
    {
      var v := vs[i];
      if v.stopArrives {
        shouldStop := true;
        isProcessing := false;
      }
      if shouldStop {
        return None;
      }
      var o := ProcessVideo(v);
      return Some(o);
    }

    /**
     * The per-video loop of the collection pass over the processable
     * videos `vs`: each iteration first checks the stop flag (a STOP handled
     * meanwhile sets it), and ends, on every path, with no keep-menu
     * interval set.
     */
    method ProcessVideos(vs: seq<Video>) returns (outcomes: seq<ItemOutcome>, stopped: bool)
      modifies this
      requires !menuKeeperRunning
      ensures stopped == StopAt(vs, old(shouldStop)).Some?
      ensures outcomes == Outcomes(vs, Reached(vs, old(shouldStop)))
      ensures stopped ==> shouldStop && isProcessing == (old(isProcessing) && !vs[StopAt(vs, old(shouldStop)).value].stopArrives)
      ensures !stopped ==> shouldStop == old(shouldStop) && isProcessing == old(isProcessing)
      ensures !menuKeeperRunning && menuKeepersStarted == old(menuKeepersStarted) + MenusOpened(outcomes)
      ensures sent == old(sent) && currentPromptIndex == old(currentPromptIndex)
    {
      ghost var stoppedBefore := shouldStop;
      outcomes := [];
      var i := 0;
      while i < |vs|
        invariant 0 <= i <= |vs|
        invariant Unstopped(vs, stoppedBefore, i)
        invariant outcomes == Outcomes(vs, i)
        invariant !menuKeeperRunning
        invariant menuKeepersStarted == old(menuKeepersStarted) + MenusOpened(outcomes)
        invariant shouldStop == stoppedBefore && isProcessing == old(isProcessing)
        invariant sent == old(sent) && currentPromptIndex == old(currentPromptIndex)
      {
        var outcome := Iteration(vs, i, stoppedBefore);
        if outcome.None? {
          StopAtFirst(vs, stoppedBefore, i);
          return outcomes, true;
        }
        NextOutcome(vs, i, outcomes, outcome.value);
        outcomes := outcomes + [outcome.value];
        i := i + 1;
      }
      NeverStopped(vs, stoppedBefore);
      stopped := false;
    }

    /**
     * `handleCollectAllVideoLinks()` over the page's videos; `setupFails`
     * is an exception before the loop (while scrolling or listing videos).
     * With no processable video: one `VIDEO_ERROR` (-1) and no
     * completion. Otherwise the loop; a stop ends the pass silently, and a
     * full pass reports `COLLECTION_COMPLETED` with the number of
     * processable videos. No keep-menu interval is left running.
     */
    method CollectAllVideoLinks(videos: seq<Video>, setupFails: bool) returns (outcomes: seq<ItemOutcome>)
      modifies this
      requires !menuKeeperRunning
      ensures setupFails ==> outcomes == [] && sent == old(sent) + [VideoError(-1), CollectionCompleted(0)]
      ensures !setupFails && Processed(videos) == [] ==> outcomes == [] && sent == old(sent) + [VideoError(-1)]
      ensures !setupFails && Processed(videos) != [] ==>
        && outcomes == Outcomes(Processed(videos), Reached(Processed(videos), old(shouldStop)))
        && sent == old(sent) + CompletionReport(Processed(videos), old(shouldStop))
      ensures setupFails || StopAt(Processed(videos), old(shouldStop)).None? ==>
        shouldStop == old(shouldStop) && isProcessing == old(isProcessing)
      ensures !setupFails && StopAt(Processed(videos), old(shouldStop)).Some? ==>
        shouldStop && isProcessing == (old(isProcessing) && !Processed(videos)[StopAt(Processed(videos), old(shouldStop)).value].stopArrives)
      ensures !menuKeeperRunning && menuKeepersStarted == old(menuKeepersStarted) + MenusOpened(outcomes)
      ensures currentPromptIndex == old(currentPromptIndex)
    {
      outcomes := [];
      if setupFails {
        sent := sent + [VideoError(-1), CollectionCompleted(0)];
        return;
      }
      var vs := Processed(videos);
      if |vs| == 0 {
        sent := sent + [VideoError(-1)];
        return;
      }
      var stopped;
      outcomes, stopped := ProcessVideos(vs);
      if !stopped {
        sent := sent + [CollectionCompleted(|vs|)];
      }
    }

    /**
     * The message listener; `promptPage`, `videos` and `setupFails` are the
     * page the script would meet for each kind of request. Each request
     * type does what its handler does, and the reply does not wait for it.
     */
    method OnMessage(m: Message, promptPage: PromptPage, videos: seq<Video>, setupFails: bool) returns (reply: Reply)
      modifies this
      requires !menuKeeperRunning
      ensures m.Ping? ==> reply == Ready && unchanged(this)
      ensures m.Stop? ==>
        && reply == Ok && shouldStop && !isProcessing && sent == old(sent)
        && currentPromptIndex == old(currentPromptIndex) && menuKeepersStarted == old(menuKeepersStarted)
      ensures m.FillAndSubmit? ==> reply == Ok && shouldStop == old(shouldStop)
      ensures m.FillAndSubmit? && old(shouldStop) ==> unchanged(this)
      ensures m.FillAndSubmit? && !old(shouldStop) ==>
        && sent == old(sent) + FillAndSubmitReport(promptPage, m.prompt, m.promptIndex)
        && currentPromptIndex == m.promptIndex && !isProcessing
        && menuKeepersStarted == old(menuKeepersStarted)
      ensures m.CollectAllVideoLinks? ==> reply == Ok && currentPromptIndex == old(currentPromptIndex)
      ensures m.CollectAllVideoLinks? && setupFails ==>
        sent == old(sent) + [VideoError(-1), CollectionCompleted(0)] && shouldStop == old(shouldStop)
      ensures m.CollectAllVideoLinks? && !setupFails && Processed(videos) == [] ==>
        sent == old(sent) + [VideoError(-1)] && shouldStop == old(shouldStop)
      ensures m.CollectAllVideoLinks? && !setupFails && Processed(videos) != [] ==>
        && sent == old(sent) + CompletionReport(Processed(videos), old(shouldStop))
        && menuKeepersStarted == old(menuKeepersStarted)
                                 + MenusOpened(Outcomes(Processed(videos), Reached(Processed(videos), old(shouldStop))))
      ensures m.CollectAllVideoLinks? && (setupFails || Processed(videos) == []) ==>
        isProcessing == old(isProcessing) && menuKeepersStarted == old(menuKeepersStarted)
      ensures m.CollectAllVideoLinks? && !setupFails && StopAt(Processed(videos), old(shouldStop)).None? ==>
        shouldStop == old(shouldStop) && isProcessing == old(isProcessing)
      ensures m.CollectAllVideoLinks? && !setupFails && StopAt(Processed(videos), old(shouldStop)).Some? ==>
        shouldStop && isProcessing == (old(isProcessing) && !Processed(videos)[StopAt(Processed(videos), old(shouldStop)).value].stopArrives)
      ensures !(m.Ping? || m.Stop? || m.FillAndSubmit? || m.CollectAllVideoLinks?) ==>
        reply == Refused(UnknownMessageType) && unchanged(this)
      ensures !menuKeeperRunning
    {
      match m {
        case Ping =>
          reply := Ready;
        case Stop =>
          HandleStop();
          reply := Ok;
        case FillAndSubmit(prompt, promptIndex) =>
          FillAndSubmit(prompt, promptIndex, promptPage);
          reply := Ok;
        case CollectAllVideoLinks =>
          reply := Ok;
          var _ := CollectAllVideoLinks(videos, setupFails);
        case _ =>
          reply := Refused(UnknownMessageType);
      }
    }
  }

  /** A failed fill or submit reports one `VIDEO_ERROR` for that prompt and never `PROMPT_SUBMITTED`. */
  lemma FailureReportsOneError(page: PromptPage, prompt: string, promptIndex: int)
    requires FillPrompt(page.attempts, prompt).None? || ChooseSubmitButton(page.controls, page.buttons, prompt).NoButton?
    ensures FillAndSubmitReport(page, prompt, promptIndex) == [VideoError(promptIndex)]
  {
  }

  /**
   * An option is clicked only after an enabled download button was found
   * and a menu appeared, and it is the best "Original size (720p)" option
   * of that menu; with a menu but no such option the iteration moves on.
   */
  lemma ClickedAfterEnabledButton(v: Video)
    ensures ItemResult(v).OptionClicked? ==>
      var at := DownloadButtonNearVideo(v.box.rect, v.container, v.page);
      && at.Some? && ButtonOf(v, at.value).Some? && !CollectDisabled(ButtonOf(v, at.value).value)
      && v.menu.Some? && BestOption(v.menu.value, ItemResult(v).option) && !v.clickThrows
    ensures OpenedMenu(ItemResult(v)) ==> v.menu.Some?
    ensures ItemResult(v).NoOption? ==> v.menu.Some? && forall k :: 0 <= k < |v.menu.value| ==> !IsOption(v.menu.value[k])
  {
    OriginalSizeOptionIsBest(v.menu);
  }
}
