/**
 * The saved video URLs (`downloadManager.js`): an array kept in extension
 * storage under one key, indexed by prompt position and possibly with
 * holes, and the batch download derived from it.
 */
module Downloads {
  import opened Wrappers
  import opened Text

  /** One saved URL: `{url, timestamp, promptIndex}`. */
  datatype Entry = Entry(url: string, timestamp: int, promptIndex: nat)

  /** The stored array; `None` is a hole (a position never assigned). */
  type Slots = seq<Option<Entry>>

  /** `item && item.url`: a non-hole entry with a non-empty URL. */
  predicate HasUrl(o: Option<Entry>) {
    o.Some? && o.value.url != ""
  }

  function Holes(n: nat): (r: Slots)
    ensures |r| == n && forall k :: 0 <= k < n ==> r[k].None?
  {
    if n == 0 then [] else Holes(n - 1) + [None]
  }

  /**
   * `videoUrls[i] = e` on a JavaScript array: position `i` holds `e`, the
   * array grows to `i + 1` with holes when needed, and every other
   * position keeps what it held.
   */
  function Put(a: Slots, i: nat, e: Entry): (r: Slots)
    ensures |r| == if i < |a| then |a| else i + 1
    ensures r[i] == Some(e)
    ensures forall k :: 0 <= k < |r| && k != i ==> r[k] == if k < |a| then a[k] else None
  {
    if i < |a| then a[i := Some(e)] else a + Holes(i - |a|) + [Some(e)]
  }

  /** Saving twice at one index overwrites: the second save wins and the array does not grow. */
  lemma PutOverwrites(a: Slots, i: nat, e1: Entry, e2: Entry)
    ensures Put(Put(a, i, e1), i, e2) == Put(a, i, e2)
    ensures |Put(Put(a, i, e1), i, e2)| == |Put(a, i, e1)|
  {
    var r1, r2 := Put(Put(a, i, e1), i, e2), Put(a, i, e2);
    assert |r1| == |r2|;
    forall k | 0 <= k < |r1|
      ensures r1[k] == r2[k]
    {
    }
  }

  /** The positions of `a` that hold an entry with a URL: all of them, each once, in increasing order. */
  function UrlIndices(a: Slots): (r: seq<nat>)
    ensures forall k :: 0 <= k < |r| ==> r[k] < |a| && HasUrl(a[r[k]])
    ensures forall k, l :: 0 <= k < l < |r| ==> r[k] < r[l]
    ensures forall p :: 0 <= p < |a| && HasUrl(a[p]) ==> p in r
    decreases |a|
  {
    if a == [] then []
    else
      var prefix := a[..|a| - 1];
      assert forall p :: 0 <= p < |prefix| ==> prefix[p] == a[p];
      UrlIndices(prefix) + (if HasUrl(a[|a| - 1]) then [|a| - 1] else [])
  }

  /**
   * `filter(item => item && item.url)`: the k-th entry kept is the entry
   * at the k-th position holding a URL, so every such entry is kept, once,
   * in array order, and nothing else is.
   */
  function WithUrl(a: Slots): (r: seq<Entry>)
    ensures |r| <= |a|
    ensures |r| == |UrlIndices(a)|
    ensures forall k :: 0 <= k < |r| ==> a[UrlIndices(a)[k]] == Some(r[k]) && r[k].url != ""
    decreases |a|
  {
    if a == [] then []
    else
      var prefix := a[..|a| - 1];
      assert forall p :: 0 <= p < |prefix| ==> prefix[p] == a[p];
      WithUrl(prefix) + (if HasUrl(a[|a| - 1]) then [a[|a| - 1].value] else [])
  }

  /** Every entry with a URL is kept by the filter, at the place its position has among the URL positions. */
  lemma WithUrlComplete(a: Slots, p: nat)
    requires p < |a| && HasUrl(a[p])
    ensures exists k :: 0 <= k < |WithUrl(a)| && UrlIndices(a)[k] == p && WithUrl(a)[k] == a[p].value
  {
    var k :| 0 <= k < |UrlIndices(a)| && UrlIndices(a)[k] == p;
    assert WithUrl(a)[k] == a[p].value;
  }

  /** `getVideoCount()` on the array `a`. */
  function VideoCount(a: Slots): nat {
    |WithUrl(a)|
  }

  /** The positions of `a` that hold an entry with a URL. */
  function UrlPositions(a: Slots): set<nat> {
    set k: nat | k < |a| && HasUrl(a[k])
  }

  /** The count is the number of positions holding a URL: holes and empty URLs never count. */
  lemma {:induction false} VideoCountIsUrlPositions(a: Slots)
    ensures VideoCount(a) == |UrlPositions(a)|
    decreases |a|
  {
    if a != [] {
      var n := |a| - 1;
      var prefix := a[..n];
      VideoCountIsUrlPositions(prefix);
      assert VideoCount(a) == VideoCount(prefix) + (if HasUrl(a[n]) then 1 else 0);
      UrlPositionsStep(a);
    }
  }

  /** The URL positions of `a` are those of all but its last element, plus the last one if it holds a URL. */
  lemma UrlPositionsStep(a: Slots)
    requires a != []
    ensures var n := |a| - 1;
      UrlPositions(a) == UrlPositions(a[..n]) + (if HasUrl(a[n]) then {n} else {})
      && n !in UrlPositions(a[..n])
  {
    var n := |a| - 1;
    assert forall k :: 0 <= k < n ==> a[..n][k] == a[k];
  }

  /**
   * A save changes the count by what it replaces and what it stores: it
   * loses the old entry at `i` if that had a URL and gains one if the new
   * URL is non-empty.
   */
  lemma VideoCountAfterPut(a: Slots, i: nat, e: Entry)
    ensures VideoCount(Put(a, i, e)) ==
      VideoCount(a) - (if i < |a| && HasUrl(a[i]) then 1 else 0) + (if e.url != "" then 1 else 0)
  {
    var r := Put(a, i, e);
    VideoCountIsUrlPositions(a);
    VideoCountIsUrlPositions(r);
    PutKeepsOtherPositions(a, i, e);
    assert (i in UrlPositions(r)) == (e.url != "");
    assert (i in UrlPositions(a)) == (i < |a| && HasUrl(a[i]));
    SplitOff(UrlPositions(r), i);
    SplitOff(UrlPositions(a), i);
  }

  /** Away from `i`, a save leaves the positions holding a URL as they were. */
  lemma PutKeepsOtherPositions(a: Slots, i: nat, e: Entry)
    ensures UrlPositions(Put(a, i, e)) - {i} == UrlPositions(a) - {i}
  {
    var r := Put(a, i, e);
    forall k: nat | k < |r| && k != i
      ensures HasUrl(r[k]) <==> k < |a| && HasUrl(a[k])
    {
      assert r[k] == if k < |a| then a[k] else None;
    }
  }

  /** Removing one element from a set lowers its size by one exactly when it was there. */
  lemma SplitOff(s: set<nat>, i: nat)
    ensures |s| == |s - {i}| + (if i in s then 1 else 0)
  {
    if i in s {
      assert s == (s - {i}) + {i};
    } else {
      assert s == s - {i};
    }
  }

  /** Every entry sits at the position its `promptIndex` names. */
  ghost predicate Indexed(a: Slots) {
    forall k :: 0 <= k < |a| && a[k].Some? ==> a[k].value.promptIndex == k
  }

  /** Under `Indexed`, the entries with a URL come in strictly increasing prompt order. */
  lemma {:induction false} WithUrlIncreasing(a: Slots)
    requires Indexed(a)
    ensures forall k :: 0 <= k < |WithUrl(a)| ==> WithUrl(a)[k].promptIndex < |a|
    ensures forall k, l :: 0 <= k < l < |WithUrl(a)| ==> WithUrl(a)[k].promptIndex < WithUrl(a)[l].promptIndex
    decreases |a|
  {
    if a != [] {
      var prefix := a[..|a| - 1];
      assert Indexed(prefix);
      WithUrlIncreasing(prefix);
    }
  }

  /** `flow-video-${promptIndex + 1}-${now}.mp4`. */
  function Filename(promptIndex: nat, now: nat): (r: string)
    ensures StartsWith(r, "flow-video-")
  {
    "flow-video-" + Decimal(promptIndex + 1) + "-" + Decimal(now) + ".mp4"
  }

  /** The name shows the prompt's number counted from 1, then the time, both in decimal. */
  lemma FilenameShowsNumbers(i: nat, now: nat)
    ensures exists d, t :: AllDigits(d) && AllDigits(t) && DigitsValue(d) == i + 1 && DigitsValue(t) == now
                          && Filename(i, now) == "flow-video-" + d + "-" + t + ".mp4"
  {
    DecimalDenotes(i + 1);
    DecimalDenotes(now);
    var d, t := Decimal(i + 1), Decimal(now);
    assert Filename(i, now) == "flow-video-" + d + "-" + t + ".mp4";
  }

  /** A filename determines the prompt index and the time it was made from. */
  lemma FilenameInjective(i: nat, t: nat, j: nat, u: nat)
    requires Filename(i, t) == Filename(j, u)
    ensures i == j && t == u
  {
    var di, dj := Decimal(i + 1), Decimal(j + 1);
    var dt, du := Decimal(t), Decimal(u);
    var head := "flow-video-";
    assert Filename(i, t) == head + (di + "-" + (dt + ".mp4"));
    assert Filename(j, u) == head + (dj + "-" + (du + ".mp4"));
    assert di + "-" + (dt + ".mp4") == Filename(i, t)[|head|..] == dj + "-" + (du + ".mp4");
    DigitsBeforeDash(di, dt + ".mp4", dj, du + ".mp4");
    assert dt == (dt + ".mp4")[..|dt + ".mp4"| - 4] == du;
    DecimalInjective(i + 1, j + 1);
    DecimalInjective(t, u);
  }

  /** A run of digits followed by a dash can be read back: the dash ends it. */
  lemma DigitsBeforeDash(d1: string, r1: string, d2: string, r2: string)
    requires AllDigits(d1) && AllDigits(d2) && d1 + "-" + r1 == d2 + "-" + r2
    ensures d1 == d2 && r1 == r2
  {
    var s := d1 + "-" + r1;
    FirstDash(d1, r1);
    FirstDash(d2, r2);
    assert |d1| == |d2|;
    assert d1 == s[..|d1|] == d2;
    assert r1 == s[|d1| + 1..] == r2;
  }

  /** In digits followed by a dash, the first dash comes right after the digits. */
  lemma FirstDash(d: string, r: string)
    requires AllDigits(d)
    ensures (d + "-" + r)[|d|] == '-'
    ensures forall k :: 0 <= k < |d| ==> (d + "-" + r)[k] != '-'
  {
    forall k | 0 <= k < |d|
      ensures (d + "-" + r)[k] != '-'
    {
      assert (d + "-" + r)[k] == d[k];
    }
  }

  /** One `downloadFile(url, filename)` call. */
  datatype Download = Download(url: string, filename: string)

  /** The download of the entry at position `p`, named after that entry's prompt index. */
  function DownloadOf(a: Slots, p: nat, now: nat): Download
    requires p < |a| && a[p].Some?
  {
    Download(a[p].value.url, Filename(a[p].value.promptIndex, now))
  }

  /**
   * `downloadAllVideos()` on the array `a`, with `Date.now()` read as
   * `now`: an error exactly when the array is empty; otherwise one
   * download per position holding a URL, in array order, each named after
   * its entry's prompt index. An array of holes only yields no downloads.
   */
  function DownloadPlan(a: Slots, now: nat): (r: Result<seq<Download>, string>)
    ensures r.Failure? <==> |a| == 0
    ensures r.Failure? ==> r.error == "No videos to download"
    ensures r.Success? ==> |r.value| == VideoCount(a) == |UrlIndices(a)|
    ensures r.Success? ==> forall k :: 0 <= k < |r.value| ==> r.value[k] == DownloadOf(a, UrlIndices(a)[k], now)
  {
    if |a| == 0 then Failure("No videos to download")
    else
      var w := WithUrl(a);
      var ds := seq(|w|, k requires 0 <= k < |w| => Download(w[k].url, Filename(w[k].promptIndex, now)));
      Success(ds)
  }

  /** With every entry at its own position, the batch never names two files alike. */
  lemma DownloadFilenamesDistinct(a: Slots, now: nat)
    requires Indexed(a) && |a| > 0
    ensures var ds := DownloadPlan(a, now).value;
      forall k, l :: 0 <= k < l < |ds| ==> ds[k].filename != ds[l].filename
  {
    var ds := DownloadPlan(a, now).value;
    var w := WithUrl(a);
    WithUrlIncreasing(a);
    forall k, l | 0 <= k < l < |ds|
      ensures ds[k].filename != ds[l].filename
    {
      if ds[k].filename == ds[l].filename {
        FilenameInjective(w[k].promptIndex, now, w[l].promptIndex, now);
      }
    }
  }

  /** The `videoUrls` key of extension storage. */
  class VideoUrlStore {
    /** The stored array; `None` while the key is absent. */
    var stored: Option<Slots>

    /** `data[STORAGE_KEY] || []`. */
    function Contents(): Slots
      reads this
    {
      if stored.Some? then stored.value else []
    }

    /** Every stored entry sits at its own prompt index; both writers keep this. */
    ghost predicate Valid()
      reads this
    {
      Indexed(Contents())
    }

    constructor ()
      ensures stored.None? && Valid()
    {
      stored := None;
    }

    /**
     * `saveVideoUrl(promptIndex, videoUrl)`, with `Date.now()` read as
     * `now`: the entry lands at `promptIndex` and nothing else changes.
     */
    method SaveVideoUrl(promptIndex: nat, videoUrl: string, now: int) returns (r: Slots)
      modifies this
      ensures stored == Some(Put(old(Contents()), promptIndex, Entry(videoUrl, now, promptIndex)))
      ensures r == Contents()
      ensures old(Valid()) ==> Valid()
    {
      var videoUrls := Contents();
      videoUrls := Put(videoUrls, promptIndex, Entry(videoUrl, now, promptIndex));
      stored := Some(videoUrls);
      r := videoUrls;
    }

    /** `getAllVideoUrls()`: the array, or `[]` when the key is absent. */
    method GetAllVideoUrls() returns (r: Slots)
      ensures stored.None? ==> r == []
      ensures stored.Some? ==> r == stored.value
    {
      r := if stored.Some? then stored.value else [];
    }

    /** `clearVideoUrls()`: removes the key, so a later read gives `[]`. */
    method ClearVideoUrls()
      modifies this
      ensures stored.None? && Contents() == [] && Valid()
    {
      stored := None;
    }

    /** Writing `[]` under the key, as a new collection pass does. */
    method ResetVideoUrls()
      modifies this
      ensures stored == Some([]) && Valid()
    {
      stored := Some([]);
    }

    /** `getVideoCount()`. */
    method GetVideoCount() returns (n: nat)
      ensures n == |UrlPositions(Contents())|
    {
      VideoCountIsUrlPositions(Contents());
      n := VideoCount(Contents());
    }

    /** `downloadAllVideos()`, with `Date.now()` read as `now`. */
    method DownloadAllVideos(now: nat) returns (r: Result<seq<Download>, string>)
      ensures r == DownloadPlan(Contents(), now)
      ensures Valid() && r.Success? ==>
        forall k, l :: 0 <= k < l < |r.value| ==> r.value[k].filename != r.value[l].filename
    {
      var videoUrls := GetAllVideoUrls();
      r := DownloadPlan(videoUrls, now);
      if Valid() && r.Success? {
        DownloadFilenamesDistinct(videoUrls, now);
      }
    }
  }
}
