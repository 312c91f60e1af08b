/**
 * The plain GeoJSON shaper: backend rows that already carry a GeoJSON
 * geometry become the features of a `FeatureCollection` (RFC 7946,
 * sections 3.2 and 3.3), one feature per row, in row order.
 */
module Geojson {
  import opened Js

  /** The row columns copied unchanged into a feature's `properties`. */
  const CopiedColumns: seq<string> := ["title", "link_url", "source_type", "address", "tags", "category"]

  /** A `FeatureCollection` object holding `features`. */
  function Collection(features: seq<Json>): Json {
    Obj(map["type" := Str("FeatureCollection"), "features" := Arr(features)])
  }

  /** `v` is a `FeatureCollection` object: its type tag and an array of features. */
  predicate IsFeatureCollection(v: Json) {
    && v.Obj?
    && v.fields.Keys == {"type", "features"}
    && v.fields["type"] == Str("FeatureCollection")
    && v.fields["features"].Arr?
  }

  /** The features of a `FeatureCollection`. */
  function FeaturesOf(v: Json): seq<Json>
    requires IsFeatureCollection(v)
  {
    v.fields["features"].items
  }

  /** The keys of a plain feature's `properties`. */
  const PropertyKeys: set<string> := {"title", "link_url", "source_type", "address", "tags", "category", "distance_m"}

  /**
   * A plain feature's `properties`: the copied columns verbatim, and
   * `distance_m` with `null` folded into `undefined`.
   */
  function Properties(r: Row): (p: map<string, Json>)
    ensures p.Keys == PropertyKeys
    ensures forall k :: k in CopiedColumns ==> p[k] == Get(r, k)
    ensures !p["distance_m"].Null?
    ensures Nullish(Get(r, "distance_m")) <==> p["distance_m"] == Undefined
    ensures !Nullish(Get(r, "distance_m")) ==> p["distance_m"] == Get(r, "distance_m")
  {
    map[
      "title" := Get(r, "title"),
      "link_url" := Get(r, "link_url"),
      "source_type" := Get(r, "source_type"),
      "address" := Get(r, "address"),
      "tags" := Get(r, "tags"),
      "category" := Get(r, "category"),
      "distance_m" := Coalesce(Get(r, "distance_m"), Undefined)
    ]
  }

  /** The feature built from one row: its id and geometry come from the row unchanged. */
  function ToFeature(r: Row): (f: Json)
    ensures f.Obj? && f.fields.Keys == {"type", "id", "properties", "geometry"}
    ensures f.fields["type"] == Str("Feature")
    ensures f.fields["id"] == Get(r, "id")
    ensures f.fields["geometry"] == Get(r, "geojson")
    ensures f.fields["properties"] == Obj(Properties(r))
  {
    Obj(map[
      "type" := Str("Feature"),
      "id" := Get(r, "id"),
      "properties" := Obj(Properties(r)),
      "geometry" := Get(r, "geojson")
    ])
  }

  /** `rows.map(ToFeature)` */
  function Features(rows: seq<Row>): (fs: seq<Json>)
    ensures |fs| == |rows|
    ensures forall i :: 0 <= i < |rows| ==> fs[i] == ToFeature(rows[i])
  {
    if rows == [] then [] else [ToFeature(rows[0])] + Features(rows[1..])
  }

  /** The collection of the features of `rows`, one per row and in row order. */
  function RowsToFeatureCollection(rows: seq<Row>): (fc: Json)
    ensures IsFeatureCollection(fc)
    ensures |FeaturesOf(fc)| == |rows|
    ensures forall i :: 0 <= i < |rows| ==> FeaturesOf(fc)[i] == ToFeature(rows[i])
  {
    Collection(Features(rows))
  }

  /** No rows give an empty collection. */
  lemma EmptyRows()
    ensures RowsToFeatureCollection([]) == Obj(map["type" := Str("FeatureCollection"), "features" := Arr([])])
  {
  }

  /** Shaping distributes over concatenation of row lists: each feature depends on its row alone. */
  lemma {:induction false} FeaturesAppend(a: seq<Row>, b: seq<Row>)
    ensures Features(a + b) == Features(a) + Features(b)
  {
    if a == [] {
      assert a + b == b;
    } else {
      assert (a + b)[0] == a[0] && (a + b)[1..] == a[1..] + b;
      FeaturesAppend(a[1..], b);
    }
  }

  /** The feature ids of the collection are the row ids, in row order. */
  lemma FeatureIdsInRowOrder(rows: seq<Row>, i: nat)
    requires i < |rows|
    ensures FeaturesOf(RowsToFeatureCollection(rows))[i].fields["id"] == Get(rows[i], "id")
  {
  }
}
