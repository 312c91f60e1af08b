/**
 * Query-parameter parsing shared by the `/api/pois` and `/api/pois/nearby`
 * handlers: the `tags` filter list and the four `bbox` components.
 */
module Params {
  import opened Js
  import opened Http

  datatype Option<T> = None | Some(value: T)

  /**
   * `tags ? String(tags).split(',').filter(Boolean) : null`: no filter when
   * `tags` is absent or empty, else its non-empty comma-separated segments.
   */
  function ParseTags(q: Query): (tags: Option<seq<string>>)
    ensures tags.None? <==> !Present(q, "tags")
  {
    if Present(q, "tags") then Some(FilterNonEmpty(Split(q["tags"]))) else None
  }

  /**
   * A present `tags` gives non-empty, comma-free segments that, laid end to
   * end, are the parameter with its commas deleted.
   */
  lemma TagsSegments(q: Query)
    requires Present(q, "tags")
    ensures ParseTags(q).Some?
    ensures forall i :: 0 <= i < |ParseTags(q).value| ==> ParseTags(q).value[i] != "" && ',' !in ParseTags(q).value[i]
    ensures Concat(ParseTags(q).value) == RemoveCommas(q["tags"])
  {
    ConcatSplit(q["tags"]);
    ConcatFilter(Split(q["tags"]));
  }

  /** Tag order follows the text: the tags of `a,b` are the tags of `a` followed by those of `b`. */
  lemma TagsAppend(q: Query, a: string, b: string)
    requires "tags" in q && q["tags"] == a + "," + b
    ensures ParseTags(q) == Some(FilterNonEmpty(Split(a)) + FilterNonEmpty(Split(b)))
  {
    SplitAppend(a, b);
    FilterAppend(Split(a), Split(b));
  }

  /** A `tags` made only of commas is an empty list, not "no filter". */
  lemma {:induction false} OnlyCommasGiveEmptyList(q: Query)
    requires Present(q, "tags")
    requires forall i :: 0 <= i < |q["tags"]| ==> q["tags"][i] == ','
    ensures ParseTags(q) == Some([])
  {
    TagsSegments(q);
    NoCommasLeft(q["tags"]);
    SegmentsBoundLength(ParseTags(q).value);
  }

  /** Non-empty segments are no more numerous than the characters they hold. */
  lemma {:induction false} SegmentsBoundLength(xs: seq<string>)
    requires forall i :: 0 <= i < |xs| ==> xs[i] != ""
    ensures |xs| <= |Concat(xs)|
  {
    if xs != [] {
      SegmentsBoundLength(xs[1..]);
    }
  }

  /** A string of commas alone has nothing left once its commas are deleted. */
  lemma {:induction false} NoCommasLeft(s: string)
    requires forall i :: 0 <= i < |s| ==> s[i] == ','
    ensures RemoveCommas(s) == ""
  {
    if s != [] {
      NoCommasLeft(s[1..]);
    }
  }

  /** The `p_tags` value sent to the backend: `null`, or the array of tags. */
  function TagsJson(tags: Option<seq<string>>): (v: Json)
    ensures tags.None? <==> v == Null
    ensures tags.Some? ==> v.Arr? && |v.items| == |tags.value|
    ensures tags.Some? ==> forall i :: 0 <= i < |tags.value| ==> v.items[i] == Str(tags.value[i])
  {
    match tags
    case None => Null
    case Some(ts) => Arr(seq(|ts|, i requires 0 <= i < |ts| => Str(ts[i])))
  }

  /** `parts.map(Number)` */
  function ToNumbers(parts: seq<string>, toNumber: string -> JsNumber): (xs: seq<Json>)
    ensures |xs| == |parts|
    ensures forall i :: 0 <= i < |parts| ==> xs[i] == Number(toNumber(parts[i]))
  {
    if parts == [] then [] else [Number(toNumber(parts[0]))] + ToNumbers(parts[1..], toNumber)
  }

  /** Element `i` of an array, `undefined` past its end. */
  function At(xs: seq<Json>, i: nat): Json {
    if i < |xs| then xs[i] else Undefined
  }

  /**
   * `const [minLon, minLat, maxLon, maxLat] = bbox.split(',').map(Number)`:
   * component i is the number of segment i, `undefined` when there are fewer
   * than four segments; segments after the fourth are dropped.
   */
  function BboxComponents(bbox: string, toNumber: string -> JsNumber): (c: seq<Json>)
    ensures |c| == 4
    ensures forall i :: 0 <= i < 4 && i < |Split(bbox)| ==> c[i] == Number(toNumber(Split(bbox)[i]))
    ensures forall i :: |Split(bbox)| <= i < 4 ==> c[i] == Undefined
  {
    var xs := ToNumbers(Split(bbox), toNumber);
    [At(xs, 0), At(xs, 1), At(xs, 2), At(xs, 3)]
  }

  /** `Number.isNaN(v)`: true of the number NaN only, so not of `undefined`. */
  predicate IsNaN(v: Json) {
    v == Number(NaN)
  }

  /** `[...].some(Number.isNaN)` */
  predicate SomeNaN(c: seq<Json>) {
    exists i :: 0 <= i < |c| && IsNaN(c[i])
  }

  /**
   * The bbox is rejected exactly when one of its first four segments is not a
   * number; missing segments and those after the fourth play no part.
   */
  lemma BboxRejectedIff(bbox: string, toNumber: string -> JsNumber)
    ensures SomeNaN(BboxComponents(bbox, toNumber))
        <==> exists i :: 0 <= i < 4 && i < |Split(bbox)| && toNumber(Split(bbox)[i]) == NaN
  {
    var c := BboxComponents(bbox, toNumber);
    if SomeNaN(c) {
      var i :| 0 <= i < |c| && IsNaN(c[i]);
      assert i < |Split(bbox)|;
    }
    if exists i :: 0 <= i < 4 && i < |Split(bbox)| && toNumber(Split(bbox)[i]) == NaN {
      var i :| 0 <= i < 4 && i < |Split(bbox)| && toNumber(Split(bbox)[i]) == NaN;
      assert IsNaN(c[i]);
    }
  }

  /** A bbox with fewer than four segments, all numbers, is accepted; the missing corners are `undefined`. */
  lemma ShortBboxAccepted(bbox: string, toNumber: string -> JsNumber)
    requires |Split(bbox)| < 4
    requires forall i :: 0 <= i < |Split(bbox)| ==> toNumber(Split(bbox)[i]) != NaN
    ensures !SomeNaN(BboxComponents(bbox, toNumber))
    ensures BboxComponents(bbox, toNumber)[3] == Undefined
  {
    BboxRejectedIff(bbox, toNumber);
  }

  /** Only the first four segments matter: two bboxes that agree on them have the same components. */
  lemma ExtraSegmentsIgnored(a: string, b: string, toNumber: string -> JsNumber)
    requires |Split(a)| >= 4 && |Split(b)| >= 4
    requires Split(a)[..4] == Split(b)[..4]
    ensures BboxComponents(a, toNumber) == BboxComponents(b, toNumber)
  {
    var ca, cb := BboxComponents(a, toNumber), BboxComponents(b, toNumber);
    forall i | 0 <= i < 4 ensures ca[i] == cb[i] {
      assert Split(a)[i] == Split(a)[..4][i];
      assert Split(b)[i] == Split(b)[..4][i];
    }
  }
}
