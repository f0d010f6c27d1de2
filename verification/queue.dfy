/**
 * The popup's prompt queue (`useVideoQueue`): ten prompt slots run one
 * after another, each submission followed by a two-minute wait, and at the
 * end a request to collect the generated videos' links.
 *
 * The state is a `QueueState` value; each handler is a function from the
 * old state to the new one, and the `VideoQueue` class holds the state in
 * fields and updates it with methods proved against those functions.
 * Timers are kept as a list of pending callbacks with their delays; the
 * environment decides which one fires next. A handler reads the current
 * state when it runs.
 */
module Queue {
  import opened Text
  import opened Messages
  import opened Wrappers
  import Downloads

  const SlotCount: nat := 10
  /** The wait after a submission or a failure before the next slot. */
  const DelayBetweenPrompts: nat := 120000
  /** The wait before moving past an empty slot. */
  const SkipDelay: nat := 1000
  /** The wait between opening the Flow page and the first slot. */
  const StartDelay: nat := 2000
  /** The wait before asking for the links to be collected. */
  const CollectDelay: nat := 5000

  /** What a scheduled callback does when it fires. */
  datatype Action =
    | ProcessNext(index: int)          // processNextPrompt(index)
    | ResumeAfterDelay(index: int)     // after a submission: if not stopped, processNextPrompt(index + 1)
    | BeginCollection                  // send COLLECT_ALL_VIDEO_LINKS

  datatype Timer = Timer(delay: nat, action: Action)

  /** The kind of status line shown; the texts themselves are not modelled. */
  datatype Status =
    | Idle | NeedPrompt | Starting | StartFailed | Submitting(index: int) | Failed(index: int)
    | WaitingAfter(index: int) | CollectingLinks | CollectFailed | LinkProgress(count: nat, total: nat)
    | AllLinks | Stopped | Relayed

  datatype QueueState = QueueState(
    prompts: seq<string>,
    currentIndex: int,
    isRunning: bool,
    isStopped: bool,
    status: Status,
    completedCount: nat,
    isCollectingLinks: bool,
    sent: seq<Message>,     // messages sent to the service worker, oldest first
    pending: seq<Timer>     // callbacks scheduled and not yet fired
  )

  /** `!p || p.trim() === ''`. */
  predicate Blank(p: string) {
    Trim(p) == ""
  }

  /** `prompts[index]`, with a missing slot read as empty. */
  function Slot(ps: seq<string>, index: int): string {
    if 0 <= index < |ps| then ps[index] else ""
  }

  function Blanks(n: nat): (r: seq<string>)
    ensures |r| == n && forall k :: 0 <= k < n ==> r[k] == ""
  {
    if n == 0 then [] else Blanks(n - 1) + [""]
  }

  /** `prompts.filter(p => p && p.trim() !== '').length`. */
  function NonBlankCount(ps: seq<string>): nat
    decreases |ps|
  {
    if ps == [] then 0 else NonBlankCount(ps[..|ps| - 1]) + (if Blank(ps[|ps| - 1]) then 0 else 1)
  }

  /** No prompt to run exactly when every slot is blank. */
  lemma {:induction false} NonBlankCountZeroIff(ps: seq<string>)
    ensures NonBlankCount(ps) == 0 <==> forall k :: 0 <= k < |ps| ==> Blank(ps[k])
    ensures NonBlankCount(ps) <= |ps|
    decreases |ps|
  {
    if ps != [] {
      var prefix := ps[..|ps| - 1];
      NonBlankCountZeroIff(prefix);
      assert forall k :: 0 <= k < |prefix| ==> prefix[k] == ps[k];
    }
  }

  function Initial(): QueueState {
    QueueState(Blanks(SlotCount), -1, false, false, Idle, 0, false, [], [])
  }

  /** The index shown as current is either none (-1) or a slot. */
  ghost predicate Valid(q: QueueState) {
    q.currentIndex == -1 || 0 <= q.currentIndex < |q.prompts|
  }

  /** `startCollectingLinks()`: flag on, and the request is sent after a delay. */
  function StartCollecting(q: QueueState): QueueState {
    q.(isCollectingLinks := true, status := CollectingLinks, pending := q.pending + [Timer(CollectDelay, BeginCollection)])
  }

  /** The run is over: nothing current, not running. */
  function Halt(q: QueueState): QueueState {
    q.(isRunning := false, currentIndex := -1)
  }

  /** The last slot is done: end the run and start collecting links. */
  function FinishRun(q: QueueState): QueueState {
    StartCollecting(Halt(q))
  }

  /** `startQueue()`, `delivered` being whether `OPEN_FLOW_PAGE` was answered. */
  function AfterStart(q: QueueState, delivered: bool): QueueState {
    if NonBlankCount(q.prompts) == 0 then q.(status := NeedPrompt)
    else
      var r := q.(isRunning := true, isStopped := false, currentIndex := -1, completedCount := 0,
                  isCollectingLinks := false, status := Starting, sent := q.sent + [OpenFlowPage]);
      if delivered then r.(pending := r.pending + [Timer(StartDelay, ProcessNext(0))])
      else r.(status := StartFailed, isRunning := false)
  }

  /** `processNextPrompt(index)`, `delivered` being whether `PROCESS_PROMPT` was answered. */
  function AfterProcessNext(q: QueueState, index: int, delivered: bool): QueueState {
    if index >= |q.prompts| then FinishRun(q)
    else if Blank(Slot(q.prompts, index)) then
      if index < |q.prompts| - 1 then q.(pending := q.pending + [Timer(SkipDelay, ProcessNext(index + 1))])
      else FinishRun(q)
    else
      var r := q.(currentIndex := index, status := Submitting(index),
                  sent := q.sent + [ProcessPrompt(Trim(Slot(q.prompts, index)), index)]);
      if delivered then r
      else if !r.isStopped && index < |q.prompts| - 1 then
        r.(status := Failed(index), pending := r.pending + [Timer(DelayBetweenPrompts, ProcessNext(index + 1))])
      else Halt(r.(status := Failed(index)))
  }

  /** `handlePromptSubmitted(i)`. */
  function AfterSubmitted(q: QueueState, i: int): QueueState {
    if !q.isStopped && i < |q.prompts| - 1 then
      q.(status := WaitingAfter(i), pending := q.pending + [Timer(DelayBetweenPrompts, ResumeAfterDelay(i))])
    else if i >= |q.prompts| - 1 then FinishRun(q)
    else q
  }

  /** `handleVideoError(i)`. */
  function AfterVideoError(q: QueueState, i: int): QueueState {
    var r := q.(status := Failed(i));
    if !q.isStopped && i < |q.prompts| - 1 then r.(pending := r.pending + [Timer(DelayBetweenPrompts, ProcessNext(i + 1))])
    else Halt(r)
  }

  /** `handleVideoCompleted`, after the URL is saved: count it, and stop collecting once every prompt has one. */
  function AfterVideoCompleted(q: QueueState): QueueState {
    var n := q.completedCount + 1;
    var total := NonBlankCount(q.prompts);
    var r := q.(completedCount := n, status := LinkProgress(n, total));
    if n >= total then r.(isCollectingLinks := false, status := AllLinks) else r
  }

  /** `stopQueue()`. */
  function AfterStop(q: QueueState): QueueState {
    q.(isStopped := true, isRunning := false, status := Stopped, sent := q.sent + [Messages.StopQueue])
  }

  /** `clearQueue()`: it does not touch `isCollectingLinks` or the scheduled callbacks. */
  function AfterClear(q: QueueState): QueueState {
    q.(prompts := Blanks(SlotCount), currentIndex := -1, isRunning := false, isStopped := false,
       status := Idle, completedCount := 0)
  }

  /** `newPrompts[k] = v` on a copy: slot `k` holds `v`, the list grows with empty slots if needed, and nothing else changes. */
  function SetSlot(ps: seq<string>, k: nat, v: string): (r: seq<string>)
    ensures |r| == if k < |ps| then |ps| else k + 1
    ensures r[k] == v
    ensures forall j :: 0 <= j < |r| && j != k ==> r[j] == Slot(ps, j)
  {
    if k < |ps| then ps[k := v] else ps + Blanks(k - |ps|) + [v]
  }

  function AfterEdit(q: QueueState, k: nat, v: string): QueueState {
    q.(prompts := SetSlot(q.prompts, k, v))
  }

  /** The pending callback at position `k` fires; `delivered` is whether the message it sends (if any) is answered. */
  function AfterFire(q: QueueState, k: nat, delivered: bool): QueueState
    requires k < |q.pending|
  {
    var r := q.(pending := q.pending[..k] + q.pending[k + 1..]);
    match q.pending[k].action
    case ProcessNext(i) => AfterProcessNext(r, i, delivered)
    case ResumeAfterDelay(i) => if !r.isStopped then AfterProcessNext(r, i + 1, delivered) else r
    case BeginCollection =>
      var s := r.(sent := r.sent + [CollectAllVideoLinks]);
      if delivered then s else s.(isCollectingLinks := false, status := CollectFailed)
  }

  /** The popup's message listener: four message types are handled, the rest ignored. */
  function AfterMessage(q: QueueState, m: Message): QueueState {
    match m
    case PromptSubmitted(i) => AfterSubmitted(q, i)
    case VideoCompleted(_, _) => AfterVideoCompleted(q)
    case VideoError(i) => AfterVideoError(q, i)
    case StatusUpdate => q.(status := Relayed)
    case _ => q
  }

  /** Anything that can happen to the queue. */
  datatype Input =
    | Start(delivered: bool)
    | Receive(m: Message)
    | PressStop
    | PressClear
    | Edit(slot: nat, text: string)
    | TimerFires(k: nat, delivered: bool)

  function Apply(q: QueueState, e: Input): QueueState {
    match e
    case Start(d) => AfterStart(q, d)
    case Receive(m) => AfterMessage(q, m)
    case PressStop => AfterStop(q)
    case PressClear => AfterClear(q)
    case Edit(k, v) => AfterEdit(q, k, v)
    case TimerFires(k, d) => if k < |q.pending| then AfterFire(q, k, d) else q
  }

  function Run(q: QueueState, es: seq<Input>): QueueState
    decreases |es|
  {
    if es == [] then q else Run(Apply(q, es[0]), es[1..])
  }

  /** `processNextPrompt` only ever makes a slot current. */
  lemma ProcessNextKeepsValid(q: QueueState, index: int, delivered: bool)
    requires Valid(q)
    ensures Valid(AfterProcessNext(q, index, delivered))
  {
    if index < 0 {
      assert Trim("") == "";
    }
  }

  /** Running a scheduled callback keeps the current index -1 or a slot. */
  lemma FireKeepsValid(q: QueueState, k: nat, delivered: bool)
    requires Valid(q) && k < |q.pending|
    ensures Valid(AfterFire(q, k, delivered))
  {
    var r := q.(pending := q.pending[..k] + q.pending[k + 1..]);
    match q.pending[k].action
    case ProcessNext(i) => ProcessNextKeepsValid(r, i, delivered);
    case ResumeAfterDelay(i) => ProcessNextKeepsValid(r, i + 1, delivered);
    case BeginCollection =>
  }

  /** One input keeps the current index -1 or a slot. */
  lemma ApplyKeepsValid(q: QueueState, e: Input)
    requires Valid(q)
    ensures Valid(Apply(q, e))
  {
    match e
    case Edit(k, v) =>
      assert |SetSlot(q.prompts, k, v)| >= |q.prompts|;
    case TimerFires(k, d) =>
      if k < |q.pending| {
        FireKeepsValid(q, k, d);
      }
    case _ =>
  }

  /** Whatever happens, the current index is -1 or a slot. */
  lemma {:induction false} RunKeepsValid(q: QueueState, es: seq<Input>)
    requires Valid(q)
    ensures Valid(Run(q, es))
    decreases |es|
  {
    if es != [] {
      ApplyKeepsValid(q, es[0]);
      RunKeepsValid(Apply(q, es[0]), es[1..]);
    }
  }

  /**
   * Starting needs a non-blank prompt: with every slot blank only the
   * status changes. Otherwise the run restarts from scratch, `OPEN_FLOW_PAGE`
   * is sent, and slot 0 is scheduled two seconds later.
   */
  lemma StartQueueNeedsAPrompt(q: QueueState, delivered: bool)
    ensures (forall k :: 0 <= k < |q.prompts| ==> Blank(q.prompts[k])) ==>
      AfterStart(q, delivered) == q.(status := NeedPrompt)
    ensures (exists k :: 0 <= k < |q.prompts| && !Blank(q.prompts[k])) ==>
      var r := AfterStart(q, delivered);
      && r.isRunning == delivered && !r.isStopped && r.currentIndex == -1 && r.completedCount == 0
      && r.sent == q.sent + [OpenFlowPage]
      && r.pending == q.pending + (if delivered then [Timer(StartDelay, ProcessNext(0))] else [])
  {
    NonBlankCountZeroIff(q.prompts);
  }

  /**
   * `processNextPrompt` on a non-blank slot makes it current and sends
   * its trimmed text with its index; on a blank slot it sends nothing. An
   * index past the last slot ends the run and starts collecting links:
   * the run is over, nothing is sent, and the collection request follows
   * after five seconds.
   */
  lemma ProcessNextPromptSends(q: QueueState, index: int, delivered: bool)
    ensures var r := AfterProcessNext(q, index, delivered);
      0 <= index < |q.prompts| && !Blank(q.prompts[index]) ==>
        r.sent == q.sent + [ProcessPrompt(Trim(q.prompts[index]), index)]
        && (delivered ==> r.currentIndex == index)
    ensures (index >= |q.prompts| || Blank(Slot(q.prompts, index))) ==>
      AfterProcessNext(q, index, delivered).sent == q.sent
    ensures index >= |q.prompts| ==>
      var r := AfterProcessNext(q, index, delivered);
      && r == FinishRun(q)
      && !r.isRunning && r.currentIndex == -1 && r.isCollectingLinks
      && r.pending == q.pending + [Timer(CollectDelay, BeginCollection)]
  {
  }

  /** Fires the most recently scheduled callback, `n` times over. */
  function FireLast(q: QueueState, n: nat, delivered: bool): QueueState
    decreases n
  {
    if n == 0 || q.pending == [] then q
    else FireLast(AfterFire(q, |q.pending| - 1, delivered), n - 1, delivered)
  }

  /** Skipping a blank slot schedules the next one, which is as good as processing the next one at once. */
  lemma SkipIsDeferral(q: QueueState, i: int, delivered: bool)
    requires i < |q.prompts| - 1 && Blank(Slot(q.prompts, i))
    ensures var r := AfterProcessNext(q, i, delivered);
      |r.pending| > 0 && AfterFire(r, |r.pending| - 1, delivered) == AfterProcessNext(q, i + 1, delivered)
  {
    var r := AfterProcessNext(q, i, delivered);
    assert r == q.(pending := q.pending + [Timer(SkipDelay, ProcessNext(i + 1))]);
    var k := |r.pending| - 1;
    assert r.pending[..k] + r.pending[k + 1..] == q.pending;
    assert r.(pending := q.pending) == q;
  }

  /** Firing `n > 0` times is firing the last callback, then `n - 1` more times. */
  lemma FireLastStep(q: QueueState, n: nat, delivered: bool)
    requires n > 0 && q.pending != []
    ensures FireLast(q, n, delivered) == FireLast(AfterFire(q, |q.pending| - 1, delivered), n - 1, delivered)
  {
  }

  /** From a blank slot before the last, `n` firings are `n - 1` firings from the next slot. */
  lemma SkipStep(q: QueueState, i: int, n: nat, delivered: bool)
    requires i < |q.prompts| - 1 && Blank(Slot(q.prompts, i)) && n > 0
    ensures FireLast(AfterProcessNext(q, i, delivered), n, delivered) == FireLast(AfterProcessNext(q, i + 1, delivered), n - 1, delivered)
  {
    SkipIsDeferral(q, i, delivered);
    FireLastStep(AfterProcessNext(q, i, delivered), n, delivered);
  }

  /**
   * Blank slots are passed over: starting at slot `i`, with slots `i`
   * to `j - 1` blank, firing the skip callbacks as they come ends in the
   * state of processing slot `j` directly.
   */
  lemma {:induction false} SkipsToNextPrompt(q: QueueState, i: int, j: int, delivered: bool)
    requires 0 <= i <= j < |q.prompts|
    requires forall k :: i <= k < j ==> Blank(q.prompts[k])
    ensures FireLast(AfterProcessNext(q, i, delivered), j - i, delivered) == AfterProcessNext(q, j, delivered)
    decreases j - i
  {
    var here := AfterProcessNext(q, i, delivered);
    if i < j {
      var next := AfterProcessNext(q, i + 1, delivered);
      SkipStep(q, i, j - i, delivered);
      SkipsToNextPrompt(q, i + 1, j, delivered);
      assert FireLast(here, j - i, delivered) == FireLast(next, j - (i + 1), delivered);
    }
  }

  /** On the way from slot `i` to the next non-blank slot `j`, the only message sent is slot `j`'s prompt. */
  lemma SkipsSendOnlyNextPrompt(q: QueueState, i: int, j: int, delivered: bool)
    requires 0 <= i <= j < |q.prompts|
    requires forall k :: i <= k < j ==> Blank(q.prompts[k])
    requires !Blank(q.prompts[j])
    ensures FireLast(AfterProcessNext(q, i, delivered), j - i, delivered).sent == q.sent + [ProcessPrompt(Trim(q.prompts[j]), j)]
  {
    SkipsToNextPrompt(q, i, j, delivered);
    ProcessNextPromptSends(q, j, delivered);
  }

  /** Blank slots up to the end lead, one skip callback at a time, to the end of the run. */
  lemma TrailingBlanksReachEnd(q: QueueState, i: int, delivered: bool)
    requires 0 <= i < |q.prompts|
    requires forall k :: i <= k < |q.prompts| ==> Blank(q.prompts[k])
    ensures FireLast(AfterProcessNext(q, i, delivered), |q.prompts| - 1 - i, delivered) == FinishRun(q)
  {
    var last := |q.prompts| - 1;
    SkipsToNextPrompt(q, i, last, delivered);
    assert Blank(Slot(q.prompts, last));
  }

  /**
   * Blank slots up to the end finish the run: starting at slot `i` with
   * every later slot blank, the skip callbacks lead to the end of the run
   * and to the collection request being scheduled, sending nothing.
   */
  lemma TrailingBlanksFinish(q: QueueState, i: int, delivered: bool)
    requires 0 <= i < |q.prompts|
    requires forall k :: i <= k < |q.prompts| ==> Blank(q.prompts[k])
    ensures var r := FireLast(AfterProcessNext(q, i, delivered), |q.prompts| - 1 - i, delivered);
      !r.isRunning && r.currentIndex == -1 && r.isCollectingLinks
      && r.sent == q.sent && r.pending == q.pending + [Timer(CollectDelay, BeginCollection)]
  {
    TrailingBlanksReachEnd(q, i, delivered);
  }

  /**
   * After a submission: if not stopped and not at the last slot, the next
   * slot follows after exactly two minutes (and only if still not stopped
   * then); at the last slot the run ends and collection starts; stopped
   * short of the last slot, nothing happens.
   */
  lemma PromptSubmittedAdvances(q: QueueState, i: int, delivered: bool)
    ensures !q.isStopped && i < |q.prompts| - 1 ==>
      var r := AfterSubmitted(q, i);
      && r.pending == q.pending + [Timer(DelayBetweenPrompts, ResumeAfterDelay(i))]
      && AfterFire(r, |q.pending|, delivered) == AfterProcessNext(r.(pending := q.pending), i + 1, delivered)
      && AfterFire(r.(isStopped := true), |q.pending|, delivered) == r.(isStopped := true, pending := q.pending)
    ensures i >= |q.prompts| - 1 ==> AfterSubmitted(q, i) == FinishRun(q)
    ensures q.isStopped && i < |q.prompts| - 1 ==> AfterSubmitted(q, i) == q
  {
    if !q.isStopped && i < |q.prompts| - 1 {
      var r := AfterSubmitted(q, i);
      assert r.pending[..|q.pending|] + r.pending[|q.pending| + 1..] == q.pending;
    }
  }

  /**
   * After an error: if not stopped and not at the last slot, the next
   * slot (slot 0 for a failure before any slot, index -1) is scheduled two
   * minutes later; otherwise the run ends, without collecting links.
   */
  lemma VideoErrorAdvances(q: QueueState, i: int)
    ensures var r := AfterVideoError(q, i);
      && (!q.isStopped && i < |q.prompts| - 1 ==>
            r.pending == q.pending + [Timer(DelayBetweenPrompts, ProcessNext(i + 1))] && r.isRunning == q.isRunning)
      && (q.isStopped || i >= |q.prompts| - 1 ==>
            !r.isRunning && r.currentIndex == -1 && r.pending == q.pending
            && r.isCollectingLinks == q.isCollectingLinks)
      && r.sent == q.sent
  {
  }

  /**
   * Each completed video adds exactly one to the count, and collecting
   * stops once the count reaches the number of non-blank prompts.
   */
  lemma VideoCompletedCounts(q: QueueState)
    ensures var r := AfterVideoCompleted(q);
      && r.completedCount == q.completedCount + 1
      && r.isCollectingLinks == (q.isCollectingLinks && q.completedCount + 1 < NonBlankCount(q.prompts))
      && r.prompts == q.prompts && r.sent == q.sent && r.pending == q.pending
  {
  }

  /**
   * The count is not bounded by the number of prompts: every captured
   * download counts, so one non-blank prompt can be followed by two
   * completions.
   */
  lemma CompletedCountMayExceedPrompts()
    ensures var q := Initial().(prompts := ["a"] + Blanks(SlotCount - 1));
      var r := AfterVideoCompleted(AfterVideoCompleted(q));
      r.completedCount == 2 && NonBlankCount(r.prompts) == 1
  {
    var ps := ["a"] + Blanks(SlotCount - 1);
    assert !Blank("a") by {
      assert TrimStart("a") == "a";
      assert TrimEnd("a") == "a";
    }
    assert forall k :: 1 <= k < |ps| ==> Blank(ps[k]);
    var n := 1;
    while n < |ps|
      invariant 1 <= n <= |ps|
      invariant NonBlankCount(ps[..n]) == 1
    {
      assert ps[..n + 1][..n] == ps[..n];
      n := n + 1;
    }
    assert ps[..|ps|] == ps;
  }

  /** `clearQueue()` empties the ten slots and resets the run, but leaves `isCollectingLinks` and the scheduled callbacks. */
  lemma ClearQueueResets(q: QueueState)
    ensures var r := AfterClear(q);
      && |r.prompts| == SlotCount && NonBlankCount(r.prompts) == 0
      && r.currentIndex == -1 && !r.isRunning && !r.isStopped && r.completedCount == 0
      && r.isCollectingLinks == q.isCollectingLinks && r.pending == q.pending
  {
    NonBlankCountZeroIff(Blanks(SlotCount));
  }

  /** The popup's queue, its React state as fields. */
  class VideoQueue {
    var prompts: seq<string>
    var currentIndex: int
    var isRunning: bool
    var isStopped: bool
    var status: Status
    var completedCount: nat
    var isCollectingLinks: bool
    var sent: seq<Message>
    var pending: seq<Timer>

    function State(): QueueState
      reads this
    {
      QueueState(prompts, currentIndex, isRunning, isStopped, status, completedCount, isCollectingLinks, sent, pending)
    }

    constructor ()
      ensures State() == Initial()
    {
      prompts := Blanks(SlotCount);
      currentIndex := -1;
      isRunning := false;
      isStopped := false;
      status := Idle;
      completedCount := 0;
      isCollectingLinks := false;
      sent := [];
      pending := [];
    }

    method StartQueue(delivered: bool)
      modifies this
      ensures State() == AfterStart(old(State()), delivered)
    {
      if NonBlankCount(prompts) == 0 {
        status := NeedPrompt;
        return;
      }
      isRunning := true;
      isStopped := false;
      currentIndex := -1;
      completedCount := 0;
      isCollectingLinks := false;
      status := Starting;
      sent := sent + [OpenFlowPage];
      if delivered {
        pending := pending + [Timer(StartDelay, ProcessNext(0))];
      } else {
        status := StartFailed;
        isRunning := false;
      }
    }

    method StartCollectingLinks()
      modifies this
      ensures State() == StartCollecting(old(State()))
    {
      isCollectingLinks := true;
      status := CollectingLinks;
      pending := pending + [Timer(CollectDelay, BeginCollection)];
    }

    method EndRunAndCollect()
      modifies this
      ensures State() == FinishRun(old(State()))
    {
      isRunning := false;
      currentIndex := -1;
      StartCollectingLinks();
    }

    method ProcessNextPrompt(index: int, delivered: bool)
      modifies this
      ensures State() == AfterProcessNext(old(State()), index, delivered)
    {
      if index >= |prompts| {
        EndRunAndCollect();
        return;
      }
      var prompt := Slot(prompts, index);
      if Trim(prompt) == "" {
        if index < |prompts| - 1 {
          pending := pending + [Timer(SkipDelay, ProcessNext(index + 1))];
        } else {
          EndRunAndCollect();
        }
        return;
      }
      currentIndex := index;
      status := Submitting(index);
      sent := sent + [ProcessPrompt(Trim(prompt), index)];
      if !delivered {
        status := Failed(index);
        if !isStopped && index < |prompts| - 1 {
          pending := pending + [Timer(DelayBetweenPrompts, ProcessNext(index + 1))];
        } else {
          isRunning := false;
          currentIndex := -1;
        }
      }
    }

    method HandlePromptSubmitted(promptIndex: int)
      modifies this
      ensures State() == AfterSubmitted(old(State()), promptIndex)
    {
      if !isStopped && promptIndex < |prompts| - 1 {
        status := WaitingAfter(promptIndex);
        pending := pending + [Timer(DelayBetweenPrompts, ResumeAfterDelay(promptIndex))];
      } else if promptIndex >= |prompts| - 1 {
        EndRunAndCollect();
      }
    }

    method HandleVideoError(promptIndex: int)
      modifies this
      ensures State() == AfterVideoError(old(State()), promptIndex)
    {
      status := Failed(promptIndex);
      if !isStopped && promptIndex < |prompts| - 1 {
        pending := pending + [Timer(DelayBetweenPrompts, ProcessNext(promptIndex + 1))];
      } else {
        isRunning := false;
        currentIndex := -1;
      }
    }

    /** `handleVideoCompleted(promptIndex, videoUrl)`: save the URL at its index, then count it. */
    method HandleVideoCompleted(store: Downloads.VideoUrlStore, promptIndex: nat, videoUrl: string, now: int)
      modifies this, store
      ensures store.stored == Some(Downloads.Put(old(store.Contents()), promptIndex, Downloads.Entry(videoUrl, now, promptIndex)))
      ensures State() == AfterVideoCompleted(old(State()))
    {
      var _ := store.SaveVideoUrl(promptIndex, videoUrl, now);
      CountCompleted();
    }

    /** The counting half of `handleVideoCompleted`. */
    method CountCompleted()
      modifies this
      ensures State() == AfterVideoCompleted(old(State()))
    {
      var newCount := completedCount + 1;
      completedCount := newCount;
      var validPromptsCount := NonBlankCount(prompts);
      status := LinkProgress(newCount, validPromptsCount);
      if newCount >= validPromptsCount {
        isCollectingLinks := false;
        status := AllLinks;
      }
    }

    method StopQueue()
      modifies this
      ensures State() == AfterStop(old(State()))
    {
      isStopped := true;
      isRunning := false;
      status := Stopped;
      sent := sent + [Messages.StopQueue];
    }

    method ClearQueue()
      modifies this
      ensures State() == AfterClear(old(State()))
    {
      prompts := Blanks(SlotCount);
      currentIndex := -1;
      isRunning := false;
      isStopped := false;
      status := Idle;
      completedCount := 0;
    }

    method UpdatePrompt(index: nat, value: string)
      modifies this
      ensures State() == AfterEdit(old(State()), index, value)
    {
      prompts := SetSlot(prompts, index, value);
    }

    /** The pending callback at position `k` fires. */
    method Fire(k: nat, delivered: bool)
      modifies this
      requires k < |pending|
      ensures State() == AfterFire(old(State()), k, delivered)
    {
      var timer := pending[k];
      pending := pending[..k] + pending[k + 1..];
      match timer.action {
        case ProcessNext(i) =>
          ProcessNextPrompt(i, delivered);
        case ResumeAfterDelay(i) =>
          if !isStopped {
            ProcessNextPrompt(i + 1, delivered);
          }
        case BeginCollection =>
          sent := sent + [CollectAllVideoLinks];
          if !delivered {
            isCollectingLinks := false;
            status := CollectFailed;
          }
      }
    }

    /**
     * The popup's message listener: the four handled types are answered
     * with success; any other message is left unanswered (`answered` false).
     */
    method OnMessage(m: Message, store: Downloads.VideoUrlStore, now: int) returns (answered: bool)
      modifies this, store
      ensures State() == AfterMessage(old(State()), m)
      ensures answered <==> m.PromptSubmitted? || m.VideoCompleted? || m.VideoError? || m.StatusUpdate?
      ensures m.VideoCompleted? && m.promptIndex >= 0 ==>
        store.stored == Some(Downloads.Put(old(store.Contents()), m.promptIndex, Downloads.Entry(m.videoUrl, now, m.promptIndex)))
      ensures !(m.VideoCompleted? && m.promptIndex >= 0) ==> store.stored == old(store.stored)
    {
      answered := true;
      match m {
        case PromptSubmitted(i) => HandlePromptSubmitted(i);
        case VideoCompleted(i, url) =>
          if i >= 0 {
            HandleVideoCompleted(store, i, url, now);
          } else {
            CountCompleted();
          }
        case VideoError(i) => HandleVideoError(i);
        case StatusUpdate => status := Relayed;
        case _ => answered := false;
      }
    }
  }
}
