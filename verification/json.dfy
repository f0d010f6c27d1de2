/**
 * The search of a parsed JSON payload for a media URL
 * (`findVideoUrlInObject` in the content script).
 */
module JsonSearch {
  import opened Wrappers
  import opened Text

  /**
   * A value produced by `JSON.parse`. Numbers are kept abstract (only their
   * kind matters to the search); the members of an object are listed in
   * the order `for...in` visits them.
   */
  datatype Json =
    | JNull
    | JBool(b: bool)
    | JNumber(n: int)
    | JString(s: string)
    | JArray(items: seq<Json>)
    | JObject(members: seq<Member>)

  datatype Member = Member(key: string, value: Json)

  /** `typeof j === 'object' && j !== null`: arrays and objects. */
  predicate IsObject(j: Json) {
    j.JArray? || j.JObject?
  }

  /** A property name that, lower-cased, mentions "video", "url" or "src". */
  predicate KeyNamesMedia(key: string) {
    var k := Lower(key);
    Includes(k, "video") || Includes(k, "url") || Includes(k, "src")
  }

  /** A string value that mentions ".mp4", ".webm" or "video". */
  predicate LooksLikeMedia(v: string) {
    Includes(v, ".mp4") || Includes(v, ".webm") || Includes(v, "video")
  }

  /** The property name `for...in` gives the element at position `i` of an array. */
  function IndexKey(i: nat): string {
    Decimal(i)
  }

  /** An array index, written in digits, never names media. */
  lemma IndexKeyNeverNamesMedia(i: nat)
    ensures !KeyNamesMedia(IndexKey(i))
  {
    var k := Lower(IndexKey(i));
    assert forall n :: 0 <= n < |k| ==> IsDigit(k[n]);
    forall t | t in ["video", "url", "src"] && Includes(k, t)
      ensures false
    {
      IncludesFirstChar(k, t);
    }
  }

  /** `v` is stored, in `j` or anywhere below it, as a media-looking string under a media-named key. */
  ghost predicate Holds(j: Json, v: string)
    decreases j
  {
    match j
    case JObject(ms) => exists k :: 0 <= k < |ms| && MemberHolds(ms[k], v)
    case JArray(items) => exists k :: 0 <= k < |items| && Holds(items[k], v)
    case _ => false
  }

  ghost predicate MemberHolds(m: Member, v: string)
    decreases m
  {
    (KeyNamesMedia(m.key) && m.value == JString(v) && LooksLikeMedia(v)) || Holds(m.value, v)
  }

  /** Some media-looking string is stored under a media-named key somewhere in `j`. */
  ghost predicate HasMedia(j: Json)
    decreases j
  {
    match j
    case JObject(ms) => exists k :: 0 <= k < |ms| && MemberHasMedia(ms[k])
    case JArray(items) => exists k :: 0 <= k < |items| && HasMedia(items[k])
    case _ => false
  }

  ghost predicate MemberHasMedia(m: Member)
    decreases m
  {
    (KeyNamesMedia(m.key) && m.value.JString? && LooksLikeMedia(m.value.s)) || HasMedia(m.value)
  }

  /**
   * `findVideoUrlInObject(j)`: `null` for a non-object; otherwise a string
   * found in the tree under a media-named key, and `null` only when the tree
   * holds no such string at all.
   */
  function FindVideoUrlInObject(j: Json): (r: Option<string>)
    ensures !IsObject(j) ==> r == None
    ensures r.Some? ==> LooksLikeMedia(r.value) && Holds(j, r.value)
    ensures r.None? <==> !HasMedia(j)
    decreases j, 1, 0
  {
    match j
    case JObject(_) => FindInMembers(j, 0)
    case JArray(_) => FindInItems(j, 0)
    case _ => None
  }

  /** The `for...in` loop over the members of an object, from member `i` on. */
  function FindInMembers(j: Json, i: nat): (r: Option<string>)
    requires j.JObject? && i <= |j.members|
    ensures r.Some? ==> LooksLikeMedia(r.value) && Holds(j, r.value)
    ensures r.None? <==> forall k :: i <= k < |j.members| ==> !MemberHasMedia(j.members[k])
    decreases j, 0, |j.members| - i
  {
    if i == |j.members| then None
    else
      var m := j.members[i];
      if KeyNamesMedia(m.key) && m.value.JString? && LooksLikeMedia(m.value.s) then
        assert MemberHolds(m, m.value.s);
        Some(m.value.s)
      else if IsObject(m.value) && FindVideoUrlInObject(m.value).Some? then
        assert MemberHolds(m, FindVideoUrlInObject(m.value).value);
        FindVideoUrlInObject(m.value)
      else
        FindInMembers(j, i + 1)
  }

  /**
   * The `for...in` loop over the elements of an array, from element `i` on.
   * Their property names are `IndexKey(i)`, which never name media.
   */
  function FindInItems(j: Json, i: nat): (r: Option<string>)
    requires j.JArray? && i <= |j.items|
    ensures r.Some? ==> LooksLikeMedia(r.value) && Holds(j, r.value)
    ensures r.None? <==> forall k :: i <= k < |j.items| ==> !HasMedia(j.items[k])
    decreases j, 0, |j.items| - i
  {
    if i == |j.items| then None
    else
      // The loop body's key test never passes here (IndexKeyNeverNamesMedia),
      // so only the descent into nested objects remains.
      var v := j.items[i];
      if IsObject(v) && FindVideoUrlInObject(v).Some? then
        FindVideoUrlInObject(v)
      else
        FindInItems(j, i + 1)
  }
}
