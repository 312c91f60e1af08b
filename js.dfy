/**
 * The slice of JavaScript that the POI proxy relies on: JSON-like values,
 * truthiness and the `||` / `??` operators, property access on plain
 * objects, `String.prototype.split(',')` and `Array.prototype.filter(Boolean)`
 * on arrays of strings.
 */
module Js {

  /** A JavaScript number, abstracted: NaN, or any other value (finite or not). */
  datatype JsNumber = NaN | Real(value: real)

  /** The JavaScript values that flow through the proxy. */
  datatype Json =
    | Undefined
    | Null
    | Bool(b: bool)
    | Number(n: JsNumber)
    | Str(s: string)
    | Arr(items: seq<Json>)
    | Obj(fields: map<string, Json>)

  /** A backend row: a plain object, keyed by column name. */
  type Row = map<string, Json>

  /** JavaScript's ToBoolean: `undefined`, `null`, `false`, `0`, `NaN` and `""` are falsy. */
  predicate Truthy(v: Json) {
    match v
    case Undefined => false
    case Null => false
    case Bool(b) => b
    case Number(n) => n.Real? && n.value != 0.0
    case Str(s) => s != ""
    case Arr(_) => true
    case Obj(_) => true
  }

  /** `null` or `undefined`, the two values `??` falls through on. */
  predicate Nullish(v: Json) {
    v.Undefined? || v.Null?
  }

  /** `a || b` */
  function Or(a: Json, b: Json): Json {
    if Truthy(a) then a else b
  }

  /** `a ?? b` */
  function Coalesce(a: Json, b: Json): Json {
    if Nullish(a) then b else a
  }

  /** `r.k` on a plain object: `undefined` when the property is absent. */
  function Get(r: Row, k: string): Json {
    if k in r then r[k] else Undefined
  }

  /**
   * `s.split(',')`: the comma-separated segments of `s`, in order. There is
   * always at least one segment (`"".split(',')` is `[""]`) and no segment
   * holds a comma.
   */
  function Split(s: string): (parts: seq<string>)
    ensures |parts| >= 1
    ensures forall i :: 0 <= i < |parts| ==> ',' !in parts[i]
    ensures |parts| == CommaCount(s) + 1
  {
    if s == [] then [""]
    else
      var rest := Split(s[1..]);
      if s[0] == ',' then [""] + rest
      else [[s[0]] + rest[0]] + rest[1..]
  }

  /** The number of commas in `s`. */
  function CommaCount(s: string): nat {
    if s == [] then 0 else (if s[0] == ',' then 1 else 0) + CommaCount(s[1..])
  }

  /** `parts.join(',')` */
  function Join(parts: seq<string>): string
    requires |parts| >= 1
  {
    if |parts| == 1 then parts[0] else parts[0] + "," + Join(parts[1..])
  }

  /** Joining the segments with commas gives back the original string. */
  lemma {:induction false} JoinSplit(s: string)
    ensures Join(Split(s)) == s
  {
    if s != [] {
      var rest := Split(s[1..]);
      JoinSplit(s[1..]);
      if s[0] == ',' {
        assert Split(s) == [""] + rest;
        assert Join(Split(s)) == "" + "," + Join(rest);
      } else {
        var parts := Split(s);
        assert parts == [[s[0]] + rest[0]] + rest[1..];
        if |rest| == 1 {
          assert Join(parts) == [s[0]] + rest[0];
        } else {
          assert parts[1..] == rest[1..];
          assert Join(rest) == rest[0] + "," + Join(rest[1..]);
          assert Join(parts) == ([s[0]] + rest[0]) + "," + Join(rest[1..]);
        }
      }
    }
  }

  /** A string without commas splits into itself alone. */
  lemma {:induction false} SplitCommaFree(a: string)
    requires ',' !in a
    ensures Split(a) == [a]
  {
    if a != [] {
      SplitCommaFree(a[1..]);
      assert [a[0]] + a[1..] == a;
    }
  }

  /** A comma splits a string into the segments of each side, in order. */
  lemma {:induction false} SplitAppend(a: string, b: string)
    ensures Split(a + "," + b) == Split(a) + Split(b)
  {
    var s := a + "," + b;
    if a == [] {
      assert s[0] == ',' && s[1..] == b;
    } else {
      assert s[0] == a[0] && s[1..] == a[1..] + "," + b;
      SplitAppend(a[1..], b);
      var rest := Split(s[1..]);
      if a[0] != ',' {
        assert rest[0] == Split(a[1..])[0];
        assert rest[1..] == Split(a[1..])[1..] + Split(b);
      }
    }
  }

  /** Splitting a comma-join of comma-free segments gives back the segments. */
  lemma {:induction false} SplitJoin(parts: seq<string>)
    requires |parts| >= 1
    requires forall i :: 0 <= i < |parts| ==> ',' !in parts[i]
    ensures Split(Join(parts)) == parts
  {
    if |parts| == 1 {
      SplitCommaFree(parts[0]);
    } else {
      SplitJoin(parts[1..]);
      SplitCommaFree(parts[0]);
      SplitAppend(parts[0], Join(parts[1..]));
      assert [parts[0]] + parts[1..] == parts;
    }
  }

  /** `xs.filter(Boolean)` on strings: keeps the non-empty ones, in order. */
  function FilterNonEmpty(xs: seq<string>): (r: seq<string>)
    ensures |r| <= |xs|
    ensures forall i :: 0 <= i < |r| ==> r[i] != "" && r[i] in xs
    ensures forall x :: x in xs && x != "" ==> x in r
  {
    if xs == [] then []
    else (if xs[0] == "" then [] else [xs[0]]) + FilterNonEmpty(xs[1..])
  }

  /** Filtering distributes over concatenation, so it keeps relative order. */
  lemma {:induction false} FilterAppend(a: seq<string>, b: seq<string>)
    ensures FilterNonEmpty(a + b) == FilterNonEmpty(a) + FilterNonEmpty(b)
  {
    if a != [] {
      assert (a + b)[0] == a[0] && (a + b)[1..] == a[1..] + b;
      FilterAppend(a[1..], b);
      var head := if a[0] == "" then [] else [a[0]];
      assert FilterNonEmpty(a + b) == head + (FilterNonEmpty(a[1..]) + FilterNonEmpty(b));
      assert FilterNonEmpty(a) == head + FilterNonEmpty(a[1..]);
      assert head + (FilterNonEmpty(a[1..]) + FilterNonEmpty(b)) == (head + FilterNonEmpty(a[1..])) + FilterNonEmpty(b);
    } else {
      assert a + b == b;
    }
  }

  /** The concatenation of a list of strings. */
  function Concat(xs: seq<string>): string {
    if xs == [] then "" else xs[0] + Concat(xs[1..])
  }

  /** `s` with every comma deleted. */
  function RemoveCommas(s: string): string {
    if s == [] then "" else (if s[0] == ',' then "" else [s[0]]) + RemoveCommas(s[1..])
  }

  /** The segments of `s`, laid end to end, are `s` without its commas. */
  lemma {:induction false} ConcatSplit(s: string)
    ensures Concat(Split(s)) == RemoveCommas(s)
  {
    if s != [] {
      ConcatSplit(s[1..]);
      var rest := Split(s[1..]);
      if s[0] != ',' {
        var parts := Split(s);
        assert parts[1..] == rest[1..];
        assert Concat(rest) == rest[0] + Concat(rest[1..]);
        assert Concat(parts) == ([s[0]] + rest[0]) + Concat(rest[1..]);
      } else {
        assert Split(s)[1..] == rest;
      }
    }
  }

  /** Dropping empty strings does not change the concatenation. */
  lemma {:induction false} ConcatFilter(xs: seq<string>)
    ensures Concat(FilterNonEmpty(xs)) == Concat(xs)
  {
    if xs != [] {
      ConcatFilter(xs[1..]);
      var head := if xs[0] == "" then [] else [xs[0]];
      assert FilterNonEmpty(xs) == head + FilterNonEmpty(xs[1..]);
      if xs[0] != "" {
        var f := head + FilterNonEmpty(xs[1..]);
        assert f != [] && f[0] == xs[0] && f[1..] == FilterNonEmpty(xs[1..]);
        assert Concat(f) == xs[0] + Concat(FilterNonEmpty(xs[1..]));
      } else {
        assert FilterNonEmpty(xs) == FilterNonEmpty(xs[1..]);
        assert Concat(xs) == Concat(xs[1..]);
      }
    }
  }
}
