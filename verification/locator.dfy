/**
 * The element locators of the content script, as pure searches over a
 * snapshot of the page. An element is the record of what the locators read
 * from it; a located element is its position in the candidate list, which
 * is in document order (what `querySelectorAll` returns).
 */
module Locator {
  import opened Wrappers
  import opened Text

  /** `getBoundingClientRect()`, in whole pixels. */
  datatype Rect = Rect(left: int, top: int, width: int, height: int) {
    function Bottom(): int { top + height }
  }

  /** What the locators read from one DOM element. */
  datatype Element = Element(
    laidOut: bool,            // offsetParent !== null
    rect: Rect,
    text: string,             // textContent
    ariaLabel: string,        // aria-label attribute, '' when absent
    title: string,            // title attribute, '' when absent
    testId: string,           // data-testid attribute, '' when absent
    className: string,
    id: string,
    disabledProp: bool,       // the `disabled` property
    ariaDisabled: string,     // aria-disabled attribute, '' when absent
    hasDisabledClass: bool,   // classList.contains('disabled')
    hasDisabledAttr: bool,    // hasAttribute('disabled')
    pointerEventsNone: bool   // style.pointerEvents === 'none'
  )

  /** `(x || '').toLowerCase().trim()`, as the locators normalise text content. */
  function Norm(s: string): string {
    Trim(Lower(s))
  }

  function Abs(x: int): nat {
    if x < 0 then -x else x
  }

  /** The squared distance between the top-left corners of two boxes. */
  function Dist2(a: Rect, b: Rect): nat {
    var dx, dy := a.left - b.left, a.top - b.top;
    dx * dx + dy * dy
  }

  // ---------------------------------------------------------------------
  // First match in document order

  /** The first position at or after `from` whose element satisfies `p`. */
  function FirstMatch<T>(es: seq<T>, p: T -> bool, from: nat): (r: Option<nat>)
    requires from <= |es|
    ensures r.Some? ==> from <= r.value < |es|
    decreases |es| - from
  {
    if from == |es| then None
    else if p(es[from]) then Some(from)
    else FirstMatch(es, p, from + 1)
  }

  /** `FirstMatch` finds the first match: the element it names satisfies `p`, none before it does, and it fails only when none does. */
  lemma {:induction false} FirstMatchIsFirst<T>(es: seq<T>, p: T -> bool, from: nat)
    requires from <= |es|
    ensures var r := FirstMatch(es, p, from);
      && (r.Some? ==> p(es[r.value]) && forall k :: from <= k < r.value ==> !p(es[k]))
      && (r.None? <==> forall k :: from <= k < |es| ==> !p(es[k]))
    decreases |es| - from
  {
    if from < |es| && !p(es[from]) {
      FirstMatchIsFirst(es, p, from + 1);
    }
  }

  // ---------------------------------------------------------------------
  // findOriginalSizeOptionInContainer

  /** Laid out and with a non-empty box: the only elements the option search considers. */
  predicate Rendered(e: Element) {
    e.laidOut && e.rect.width > 0 && e.rect.height > 0
  }

  /** Priority 1: "original size" together with "720p" or "720", in the text or the label. */
  predicate OriginalSize720(e: Element) {
    var text, aria := Norm(e.text), Lower(e.ariaLabel);
    (Includes(text, "original size") && Includes(text, "720p"))
    || (Includes(text, "original size") && Includes(text, "720"))
    || (Includes(aria, "original size") && Includes(aria, "720p"))
    || (Includes(aria, "original size") && Includes(aria, "720"))
  }

  /** Priority 2: "original" together with "720p" or "720". */
  predicate Original720(e: Element) {
    var text, aria := Norm(e.text), Lower(e.ariaLabel);
    (Includes(text, "original") && (Includes(text, "720p") || Includes(text, "720")))
    || (Includes(aria, "original") && (Includes(aria, "720p") || Includes(aria, "720")))
  }

  /** Priority 3: a short text mentioning "720p". */
  predicate Short720p(e: Element) {
    var text := Norm(e.text);
    text == "720p" || (Includes(text, "720p") && |text| < 20)
  }

  /** The best priority an element reaches (1 is best), 0 for none. */
  function OptionTier(e: Element): nat {
    if OriginalSize720(e) then 1
    else if Original720(e) then 2
    else if Short720p(e) then 3
    else 0
  }

  predicate IsOption(e: Element) {
    Rendered(e) && OptionTier(e) > 0
  }

  /**
   * Reference definition of the element the option search must pick: a
   * rendered option of the best tier present, and the first of that tier
   * in document order.
   */
  ghost predicate BestOption(es: seq<Element>, k: nat) {
    k < |es| && IsOption(es[k])
    && forall j :: 0 <= j < |es| && IsOption(es[j]) ==>
         OptionTier(es[k]) < OptionTier(es[j]) || (OptionTier(es[k]) == OptionTier(es[j]) && k <= j)
  }

  /**
   * `findOriginalSizeOptionInContainer(container)`: `null` without a
   * container; otherwise the best option by tier, then document order, and
   * `null` only when no rendered element matches any tier.
   */
  function OriginalSizeOption(container: Option<seq<Element>>): Option<nat> {
    match container
    case None => None
    case Some(es) =>
      var first := FirstMatch(es, e => Rendered(e) && OriginalSize720(e), 0);
      if first.Some? then first
      else
        var second := FirstMatch(es, e => Rendered(e) && Original720(e), 0);
        if second.Some? then second
        else FirstMatch(es, e => Rendered(e) && Short720p(e), 0)
  }

  /**
   * The option search is correct against `BestOption`: `null` without a
   * container; otherwise the best option by tier, then document order, and
   * `null` only when no rendered element matches any tier.
   */
  lemma OriginalSizeOptionIsBest(container: Option<seq<Element>>)
    ensures var r := OriginalSizeOption(container);
      && (container.None? ==> r.None?)
      && (r.Some? ==> container.Some? && BestOption(container.value, r.value))
      && (container.Some? && r.None? ==> forall k :: 0 <= k < |container.value| ==> !IsOption(container.value[k]))
  {
    if container.Some? {
      var es := container.value;
      FirstMatchIsFirst(es, e => Rendered(e) && OriginalSize720(e), 0);
      FirstMatchIsFirst(es, e => Rendered(e) && Original720(e), 0);
      FirstMatchIsFirst(es, e => Rendered(e) && Short720p(e), 0);
    }
  }

  /** A tier-1 match anywhere in the container beats every tier-2 match, wherever it stands. */
  lemma {:induction false} Tier1BeatsTier2(es: seq<Element>, k: nat)
    requires k < |es| && Rendered(es[k]) && OriginalSize720(es[k])
    ensures OriginalSizeOption(Some(es)).Some?
    ensures OriginalSize720(es[OriginalSizeOption(Some(es)).value])
  {
    var r := OriginalSizeOption(Some(es));
    OriginalSizeOptionIsBest(Some(es));
    assert IsOption(es[k]) && OptionTier(es[k]) == 1;
    assert BestOption(es, r.value);
  }

  // ---------------------------------------------------------------------
  // findDownloadButtonNearVideo

  /** Which list a located download control came from. */
  datatype Located = InContainer(index: nat) | OnPage(index: nat)

  /** An id of the generated form the page's component library uses. */
  predicate IsRadixId(id: string) {
    Includes(id, "radix-") || Includes(id, "radix:")
  }

  /** Strategy 1: a laid-out generated-id element whose text, label or title says "download". */
  predicate RadixDownload(e: Element) {
    e.laidOut && IsRadixId(e.id)
    && (Includes(Norm(e.text), "download") || Includes(Lower(e.ariaLabel), "download")
        || Includes(Lower(e.title), "download"))
  }

  /** Strategy 2: a laid-out element saying "download" in any of five places, within 500px of the video. */
  predicate ContainerDownload(e: Element, video: Rect) {
    e.laidOut
    && (Includes(Norm(e.text), "download") || Includes(Lower(e.ariaLabel), "download")
        || Includes(Lower(e.title), "download") || Includes(Lower(e.testId), "download")
        || Includes(Lower(e.id), "download"))
    && Dist2(e.rect, video) < 500 * 500
  }

  /** Strategy 3: a laid-out element within 1000px of the video saying "download" (the test id is not consulted). */
  predicate PageDownload(e: Element, video: Rect) {
    e.laidOut && Dist2(e.rect, video) < 1000 * 1000
    && (Includes(Norm(e.text), "download") || Includes(Lower(e.ariaLabel), "download")
        || Includes(Lower(e.title), "download") || Includes(Lower(e.id), "download"))
  }

  /**
   * Strategy 3's search: the candidates are sorted nearest first (a stable
   * sort) and the first that says "download" is taken. The result is the
   * nearest qualifying element, and among equally near ones the earliest.
   */
  function Nearest(es: seq<Element>, video: Rect, from: nat): (r: Option<nat>)
    requires from <= |es|
    ensures r.Some? ==> from <= r.value < |es| && PageDownload(es[r.value], video)
    ensures r.Some? ==> forall j :: from <= j < |es| && PageDownload(es[j], video) ==>
      Dist2(es[r.value].rect, video) <= Dist2(es[j].rect, video)
      && (j < r.value ==> Dist2(es[r.value].rect, video) < Dist2(es[j].rect, video))
    ensures r.None? <==> forall j :: from <= j < |es| ==> !PageDownload(es[j], video)
    decreases |es| - from
  {
    if from == |es| then None
    else
      var rest := Nearest(es, video, from + 1);
      if PageDownload(es[from], video)
         && (rest.None? || Dist2(es[from].rect, video) <= Dist2(es[rest.value].rect, video))
      then Some(from)
      else rest
  }

  /**
   * `findDownloadButtonNearVideo(video)`. `container` holds the elements of
   * the video's closest enclosing block that match
   * `a, button, [role="button"], [data-testid*="download" i], [id*="radix"]`
   * (every generated-id element among them); `page` holds the document's
   * elements matching `a, button, [role="button"], [id*="radix"]`.
   */
  function DownloadButtonNearVideo(video: Rect, container: seq<Element>, page: seq<Element>): Option<Located>
  {
    var radix := FirstMatch(container, RadixDownload, 0);
    if radix.Some? then Some(InContainer(radix.value))
    else
      var near := FirstMatch(container, e => ContainerDownload(e, video), 0);
      if near.Some? then Some(InContainer(near.value))
      else
        var wide := Nearest(page, video, 0);
        if wide.Some? then Some(OnPage(wide.value)) else None
  }

  /**
   * The three strategies in order: a generated-id download control wins
   * whenever there is one, however far away; otherwise the first download
   * control of the container within 500px; otherwise the nearest one of the
   * page within 1000px; otherwise nothing.
   */
  lemma DownloadButtonStrategies(video: Rect, container: seq<Element>, page: seq<Element>, r: Option<Located>)
    requires r == DownloadButtonNearVideo(video, container, page)
    // strategy 1 wins whenever it applies, however far the element is from the video
    ensures (exists k :: 0 <= k < |container| && RadixDownload(container[k])) ==>
      && r.Some? && r.value.InContainer? && r.value.index < |container|
      && RadixDownload(container[r.value.index])
      && forall k :: 0 <= k < r.value.index ==> !RadixDownload(container[k])
    // strategy 2 only when strategy 1 finds nothing
    ensures r.Some? && r.value.InContainer? ==> r.value.index < |container|
    ensures r.Some? && r.value.InContainer? && !RadixDownload(container[r.value.index]) ==>
      && (forall k :: 0 <= k < |container| ==> !RadixDownload(container[k]))
      && ContainerDownload(container[r.value.index], video)
      && forall k :: 0 <= k < r.value.index ==> !ContainerDownload(container[k], video)
    // strategy 3 only when the container has nothing: the nearest qualifying element of the page
    ensures r.Some? && r.value.OnPage? ==>
      && (forall k :: 0 <= k < |container| ==> !RadixDownload(container[k]) && !ContainerDownload(container[k], video))
      && r.value.index < |page| && PageDownload(page[r.value.index], video)
      && forall j :: 0 <= j < |page| && PageDownload(page[j], video) ==>
           Dist2(page[r.value.index].rect, video) <= Dist2(page[j].rect, video)
    // null exactly when no strategy applies
    ensures r.None? <==>
      && (forall k :: 0 <= k < |container| ==> !RadixDownload(container[k]) && !ContainerDownload(container[k], video))
      && forall j :: 0 <= j < |page| ==> !PageDownload(page[j], video)
  {
    FirstMatchIsFirst(container, RadixDownload, 0);
    FirstMatchIsFirst(container, e => ContainerDownload(e, video), 0);
  }

  // ---------------------------------------------------------------------
  // fillPrompt's success check

  /** One attempt of `fillPrompt` on an element: whether it is laid out and what its value reads back as afterwards. */
  datatype FillAttempt = FillAttempt(laidOut: bool, readBack: string)

  /** The success test: the read-back value contains the first ten characters of the prompt. */
  predicate FillTook(a: FillAttempt, prompt: string) {
    a.laidOut && Includes(a.readBack, Prefix(prompt, 10))
  }

  /** `fillPrompt(prompt)`: the first attempt (in selector order) whose read-back passes the test. */
  function FillPrompt(attempts: seq<FillAttempt>, prompt: string): (r: Option<nat>)
  {
    FirstMatch(attempts, a => FillTook(a, prompt), 0)
  }

  /** An element that reads back the prompt exactly is always accepted; so is one that reformatted it after its tenth character. */
  lemma FillAcceptsFaithfulReadBack(attempts: seq<FillAttempt>, prompt: string, k: nat, tail: string)
    requires k < |attempts| && attempts[k].laidOut
    requires attempts[k].readBack == prompt || attempts[k].readBack == Prefix(prompt, 10) + tail
    ensures FillPrompt(attempts, prompt).Some? && FillPrompt(attempts, prompt).value <= k
  {
    FirstMatchIsFirst(attempts, a => FillTook(a, prompt), 0);
    var p := Prefix(prompt, 10);
    if attempts[k].readBack == prompt {
      assert prompt[0..|p|] == p;
      IncludesAt(prompt, p, 0);
    } else {
      assert attempts[k].readBack[0..|p|] == p;
      IncludesAt(attempts[k].readBack, p, 0);
    }
    assert FillTook(attempts[k], prompt);
  }

  /** Fill success means exactly: some laid-out element read back the prompt's first ten characters. */
  lemma FillSucceedsIff(attempts: seq<FillAttempt>, prompt: string)
    ensures FillPrompt(attempts, prompt).Some? <==>
      exists k :: 0 <= k < |attempts| && attempts[k].laidOut && Includes(attempts[k].readBack, Prefix(prompt, 10))
  {
    FirstMatchIsFirst(attempts, a => FillTook(a, prompt), 0);
    if FillPrompt(attempts, prompt).None? {
      forall k | 0 <= k < |attempts| ensures !FillTook(attempts[k], prompt) { }
    } else {
      assert FillTook(attempts[FillPrompt(attempts, prompt).value], prompt);
    }
  }

  // ---------------------------------------------------------------------
  // submitForm's button selection

  /** A text control as `submitForm` reads it: `value || textContent || innerText`, and its box. */
  datatype TextControl = TextControl(content: string, rect: Rect)

  /** The first text control whose content is non-empty and contains the prompt's first ten characters: the filled one. */
  predicate HoldsPrompt(c: TextControl, prompt: string) {
    c.content != "" && Includes(c.content, Prefix(prompt, 10))
  }

  const SubmitKeywords: seq<string> := ["create", "generate", "submit", "tạo", "go", "run", "start", "make", "video"]

  predicate MentionsKeyword(e: Element, kw: string) {
    Includes(Norm(e.text), kw) || Includes(Lower(e.ariaLabel), kw) || Includes(Lower(e.title), kw)
    || Includes(Lower(e.testId), kw) || Includes(Lower(e.className), kw) || Includes(Lower(e.id), kw)
  }

  predicate HasSubmitKeyword(e: Element) {
    exists k :: 0 <= k < |SubmitKeywords| && MentionsKeyword(e, SubmitKeywords[k])
  }

  /** Any of the five disabled signals the main pass checks. */
  predicate IsDisabled(e: Element) {
    e.disabledProp || e.ariaDisabled == "true" || e.hasDisabledClass || e.hasDisabledAttr || e.pointerEventsNone
  }

  /** Within 500px vertically of the filled control's bottom edge. */
  predicate NearInput(e: Element, input: Option<Rect>) {
    input.Some? && Abs(e.rect.top - input.value.Bottom()) < 500
  }

  /** The main pass: laid out, not disabled, and named like a submit control or near the input. */
  predicate MainCandidate(e: Element, input: Option<Rect>) {
    e.laidOut && (HasSubmitKeyword(e) || NearInput(e, input)) && !IsDisabled(e)
  }

  /** The fallback pass: laid out, no `disabled` property, and strictly below the input by less than 300px. */
  predicate FallbackCandidate(e: Element, input: Rect) {
    e.laidOut && !e.disabledProp && e.rect.top > input.Bottom() && Abs(e.rect.top - input.Bottom()) < 300
  }

  datatype SubmitChoice = MainButton(index: nat) | FallbackButton(index: nat) | NoButton

  /** The rect of the filled control, if any. */
  function InputRect(controls: seq<TextControl>, prompt: string): Option<Rect> {
    var f := FirstMatch(controls, c => HoldsPrompt(c, prompt), 0);
    if f.Some? then Some(controls[f.value].rect) else None
  }

  /**
   * The button `submitForm(prompt)` clicks; `NoButton` is its `false`
   * result. The main pass clicks the first laid-out, enabled button that is
   * named like a submit control or near the input; only when there is none
   * does the fallback take the first button strictly below the input and
   * within 300px.
   */
  function ChooseSubmitButton(controls: seq<TextControl>, buttons: seq<Element>, prompt: string): (r: SubmitChoice)
    ensures !r.NoButton? ==> r.index < |buttons|
  {
    var input := InputRect(controls, prompt);
    var main := FirstMatch(buttons, e => MainCandidate(e, input), 0);
    if main.Some? then MainButton(main.value)
    else if input.None? then NoButton
    else
      var fallback := FirstMatch(buttons, e => FallbackCandidate(e, input.value), 0);
      if fallback.Some? then FallbackButton(fallback.value) else NoButton
  }

  /**
   * The two passes in order: the main pass takes the first laid-out,
   * enabled button named like a submit control or near the input; only
   * when there is none does the fallback take the first button strictly
   * below the input and within 300px; with neither, no button.
   */
  lemma SubmitButtonChoice(controls: seq<TextControl>, buttons: seq<Element>, prompt: string)
    ensures var input := InputRect(controls, prompt);
      var r := ChooseSubmitButton(controls, buttons, prompt);
      && (r.MainButton? ==>
            && r.index < |buttons| && MainCandidate(buttons[r.index], input)
            && forall k :: 0 <= k < r.index ==> !MainCandidate(buttons[k], input))
      && (r.FallbackButton? ==>
            && r.index < |buttons| && input.Some?
            && (forall k :: 0 <= k < |buttons| ==> !MainCandidate(buttons[k], input))
            && FallbackCandidate(buttons[r.index], input.value)
            && buttons[r.index].rect.top > input.value.Bottom()
            && forall k :: 0 <= k < r.index ==> !FallbackCandidate(buttons[k], input.value))
      && (r.NoButton? <==>
            && (forall k :: 0 <= k < |buttons| ==> !MainCandidate(buttons[k], input))
            && (input.None? || forall k :: 0 <= k < |buttons| ==> !FallbackCandidate(buttons[k], input.value)))
  {
    var input := InputRect(controls, prompt);
    FirstMatchIsFirst(buttons, e => MainCandidate(e, input), 0);
    if input.Some? {
      FirstMatchIsFirst(buttons, e => FallbackCandidate(e, input.value), 0);
    }
  }

  /**
   * Every button the fallback can reach is also within 500px of the input,
   * so the main pass turned it down only for a disabled signal other than
   * the `disabled` property: the fallback only ever clicks such a button.
   */
  lemma {:induction false} FallbackClicksOnlySoftDisabled(controls: seq<TextControl>, buttons: seq<Element>, prompt: string)
    requires ChooseSubmitButton(controls, buttons, prompt).FallbackButton?
    ensures var b := buttons[ChooseSubmitButton(controls, buttons, prompt).index];
      IsDisabled(b) && !b.disabledProp
  {
    var input := InputRect(controls, prompt);
    var k := ChooseSubmitButton(controls, buttons, prompt).index;
    SubmitButtonChoice(controls, buttons, prompt);
    assert NearInput(buttons[k], input);
    assert !MainCandidate(buttons[k], input);
  }
}
