/**
 * `findVideoUrl`: the content script's scan of the page for the generated
 * video's URL. The page is replaced by what each pass of the scan reads,
 * in the order the scan reads it.
 */
module VideoUrl {
  import opened Wrappers
  import opened Text
  import opened JsonSearch
  import Locator

  /** A `<video>` element: its `src` and `currentSrc` properties ('' when unset). */
  datatype VideoTag = VideoTag(src: string, currentSrc: string)

  /** What the scan reads from the page. */
  datatype Snapshot = Snapshot(
    videos: seq<VideoTag>,         // `video` elements, in document order
    sources: seq<string>,          // `src` of each `video source` element
    links: seq<string>,            // `href || getAttribute('href')` of each element matching
                                   // the eight download selectors, selector by selector
    iframes: seq<Option<string>>,  // `src` of the first video of each iframe's document;
                                   // None when the document is unreachable or has no video
    dataUrls: seq<string>,         // the first non-empty of data-video-url, data-url, data-src,
                                   // data-video of each element matching the data selectors
    scripts: seq<Option<Json>>     // each JSON script, parsed; None when `JSON.parse` throws
  )

  /** A `<video>` URL worth reporting: set, not `about:blank` and not a `blob:` URL. */
  predicate UsableVideoSrc(u: string) {
    u != "" && u != "about:blank" && !StartsWith(u, "blob:")
  }

  /** A `<source>` or iframe video URL worth reporting: set and not a `blob:` URL. */
  predicate UsableSourceSrc(u: string) {
    u != "" && !StartsWith(u, "blob:")
  }

  predicate UsableIframe(o: Option<string>) {
    o.Some? && UsableSourceSrc(o.value)
  }

  predicate ScriptHasUrl(o: Option<Json>) {
    o.Some? && FindVideoUrlInObject(o.value).Some?
  }

  /** The first pass: each video's `src`, then its `currentSrc`, video by video. */
  function VideoPass(vs: seq<VideoTag>, i: nat): (r: Option<string>)
    requires i <= |vs|
    ensures r.Some? ==> UsableVideoSrc(r.value)
    ensures r.Some? ==> exists k :: i <= k < |vs| && r.value in {vs[k].src, vs[k].currentSrc}
    ensures r.None? <==> forall k :: i <= k < |vs| ==> !UsableVideoSrc(vs[k].src) && !UsableVideoSrc(vs[k].currentSrc)
    decreases |vs| - i
  {
    if i == |vs| then None
    else if UsableVideoSrc(vs[i].src) then Some(vs[i].src)
    else if UsableVideoSrc(vs[i].currentSrc) then Some(vs[i].currentSrc)
    else VideoPass(vs, i + 1)
  }

  /**
   * A later pass over the strings `xs` with the test `keep`: the first
   * string in order that passes, and nothing exactly when none passes.
   */
  function StringPass(xs: seq<string>, keep: string -> bool): (r: Option<string>)
    ensures r.None? <==> forall k :: 0 <= k < |xs| ==> !keep(xs[k])
    ensures r.Some? ==> exists k :: 0 <= k < |xs| && r.value == xs[k] && keep(xs[k])
                                    && forall j :: 0 <= j < k ==> !keep(xs[j])
  {
    Locator.FirstMatchIsFirst(xs, keep, 0);
    var i := Locator.FirstMatch(xs, keep, 0);
    if i.Some? then Some(xs[i.value]) else None
  }

  /** The iframe pass: the video `src` of the first iframe that has a usable one. */
  function IframePass(fs: seq<Option<string>>): (r: Option<string>)
    ensures r.None? <==> forall k :: 0 <= k < |fs| ==> !UsableIframe(fs[k])
    ensures r.Some? ==> exists k :: 0 <= k < |fs| && r == fs[k] && UsableIframe(fs[k])
                                    && forall j :: 0 <= j < k ==> !UsableIframe(fs[j])
  {
    Locator.FirstMatchIsFirst(fs, UsableIframe, 0);
    var i := Locator.FirstMatch(fs, UsableIframe, 0);
    if i.Some? then fs[i.value] else None
  }

  /** The JSON pass: the search result of the first script that parses and holds a media URL. */
  function ScriptPass(ss: seq<Option<Json>>): (r: Option<string>)
    ensures r.None? <==> forall k :: 0 <= k < |ss| ==> !ScriptHasUrl(ss[k])
    ensures r.Some? ==> exists k :: 0 <= k < |ss| && ScriptHasUrl(ss[k]) && r == FindVideoUrlInObject(ss[k].value)
                                    && forall j :: 0 <= j < k ==> !ScriptHasUrl(ss[j])
  {
    Locator.FirstMatchIsFirst(ss, ScriptHasUrl, 0);
    var i := Locator.FirstMatch(ss, ScriptHasUrl, 0);
    if i.Some? then FindVideoUrlInObject(ss[i.value].value) else None
  }

  /** A page on which no pass finds anything. */
  ghost predicate NothingFound(p: Snapshot) {
    && (forall k :: 0 <= k < |p.videos| ==> !UsableVideoSrc(p.videos[k].src) && !UsableVideoSrc(p.videos[k].currentSrc))
    && (forall k :: 0 <= k < |p.sources| ==> !UsableSourceSrc(p.sources[k]))
    && (forall k :: 0 <= k < |p.links| ==> !LooksLikeMedia(p.links[k]))
    && (forall k :: 0 <= k < |p.iframes| ==> !UsableIframe(p.iframes[k]))
    && (forall k :: 0 <= k < |p.dataUrls| ==> !LooksLikeMedia(p.dataUrls[k]))
    && (forall k :: 0 <= k < |p.scripts| ==> !ScriptHasUrl(p.scripts[k]))
  }

  /**
   * `findVideoUrl()`. The passes run in order and the first hit wins. The
   * result is never empty, and a `blob:` URL can only be reported when it
   * looks like media itself (a link, a data attribute or a JSON string);
   * `null` exactly when no pass finds anything; otherwise the result is
   * the hit of the first pass that finds something. The canvas probe
   * between the data-attribute and JSON passes has no effect on the result.
   */
  function FindVideoUrl(p: Snapshot): (r: Option<string>)
    ensures r.Some? ==> r.value != ""
    ensures r.Some? && StartsWith(r.value, "blob:") ==> LooksLikeMedia(r.value)
    ensures r.None? <==> NothingFound(p)
    ensures VideoPass(p.videos, 0).Some? ==> r == VideoPass(p.videos, 0)
    ensures VideoPass(p.videos, 0).None? ==>
      var source, link := StringPass(p.sources, UsableSourceSrc), StringPass(p.links, LooksLikeMedia);
      var frame, data := IframePass(p.iframes), StringPass(p.dataUrls, LooksLikeMedia);
      && (source.Some? ==> r == source)
      && (source.None? && link.Some? ==> r == link)
      && (source.None? && link.None? && frame.Some? ==> r == frame)
      && (source.None? && link.None? && frame.None? && data.Some? ==> r == data)
      && (source.None? && link.None? && frame.None? && data.None? ==> r == ScriptPass(p.scripts))
  {
    var video := VideoPass(p.videos, 0);
    if video.Some? then video
    else
      Locator.FirstMatchIsFirst(p.sources, UsableSourceSrc, 0);
      var source := Locator.FirstMatch(p.sources, UsableSourceSrc, 0);
      if source.Some? then Some(p.sources[source.value])
      else
        Locator.FirstMatchIsFirst(p.links, LooksLikeMedia, 0);
        var link := Locator.FirstMatch(p.links, LooksLikeMedia, 0);
        if link.Some? then
          assert p.links[link.value] != "" by {
            if p.links[link.value] == "" { NothingLooksLikeMedia(); }
          }
          Some(p.links[link.value])
        else
          Locator.FirstMatchIsFirst(p.iframes, UsableIframe, 0);
          var frame := Locator.FirstMatch(p.iframes, UsableIframe, 0);
          if frame.Some? then p.iframes[frame.value]
          else
            Locator.FirstMatchIsFirst(p.dataUrls, LooksLikeMedia, 0);
            var data := Locator.FirstMatch(p.dataUrls, LooksLikeMedia, 0);
            if data.Some? then
              assert p.dataUrls[data.value] != "" by {
                if p.dataUrls[data.value] == "" { NothingLooksLikeMedia(); }
              }
              Some(p.dataUrls[data.value])
            else
              Locator.FirstMatchIsFirst(p.scripts, ScriptHasUrl, 0);
              var script := Locator.FirstMatch(p.scripts, ScriptHasUrl, 0);
              if script.Some? then
                var found := FindVideoUrlInObject(p.scripts[script.value].value);
                assert found.value != "" by {
                  if found.value == "" { NothingLooksLikeMedia(); }
                }
                found
              else None
  }

  /** The empty string looks like nothing. */
  lemma NothingLooksLikeMedia()
    ensures !LooksLikeMedia("")
  {
    assert !StartsWith("", ".mp4") && !StartsWith("", ".webm") && !StartsWith("", "video");
  }
}
