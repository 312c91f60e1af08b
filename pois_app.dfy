/**
 * The POI proxy with per-map style defaults: the style-aware shaper, the
 * map-defaults lookup, and the `/api/pois`, `/api/pois/nearby`,
 * `/api/maps/:slug` and catch-all handlers, each as a decision over the
 * backend's answers.
 */
module PoisApp {
  import opened Js
  import opened Http
  import opened Params
  import Geojson

  /** Declared by the application as the default pin colour, but never used. */
  const DefaultPoiColor: string := "rgba(90, 90, 90, 1)"
  /** The colour a feature gets when neither its row nor its map sets one. */
  const FallbackColor: string := "rgba(0, 0, 0, 1)"
  /** The icon size a feature gets when neither its row nor its map sets one. */
  const FallbackIconSize: real := 0.9

  const BboxProcedure: string := "pois_in_bbox"
  const NearbyProcedure: string := "pois_nearby"
  /** The radius, in metres, of a nearby query that gives none. */
  const DefaultRadius: string := "2000"

  /** The payload fields that carry the bbox corners, in bbox order. */
  const BboxFields: seq<string> := ["p_min_lon", "p_min_lat", "p_max_lon", "p_max_lat"]

  // ---------------------------------------------------------------------
  // Map style defaults

  /** `value || null` */
  function OrNull(v: Json): Json {
    Or(v, Null)
  }

  /**
   * `fetchMapDefaults(slug)`, given the backend's answer to the `maps` read:
   * `{}` when the read failed or found no map; otherwise the map's
   * `poi_color`, `poi_icon_url` and `poi_icon_size`, each `null` when falsy.
   */
  function FetchMapDefaults(answer: Upstream): (d: Row)
    ensures !answer.Ok() || |answer.rows| == 0 ==> d == map[]
    ensures answer.Ok() && |answer.rows| > 0 ==> d.Keys == {"color", "icon_url", "icon_size"}
    ensures forall k :: k in d ==> Truthy(d[k]) || d[k] == Null
    ensures answer.Ok() && |answer.rows| > 0 ==>
      forall k :: k in d ==> (Truthy(d[k]) <==> Truthy(Get(answer.rows[0], "poi_" + k)))
    ensures answer.Ok() && |answer.rows| > 0 ==>
      forall k :: k in d && Truthy(d[k]) ==> d[k] == Get(answer.rows[0], "poi_" + k)
  {
    if !answer.Ok() then map[]
    else if |answer.rows| == 0 then map[]
    else
      var m := answer.rows[0];
      assert "poi_" + "color" == "poi_color" && "poi_" + "icon_url" == "poi_icon_url";
      assert "poi_" + "icon_size" == "poi_icon_size";
      map[
        "color" := OrNull(Get(m, "poi_color")),
        "icon_url" := OrNull(Get(m, "poi_icon_url")),
        "icon_size" := OrNull(Get(m, "poi_icon_size"))
      ]
  }

  // ---------------------------------------------------------------------
  // Style-aware shaper

  /** The precedence rule: the row's value if truthy, else the map default if truthy, else the fallback. */
  predicate ChosenByPrecedence(rowValue: Json, mapDefault: Json, fallback: Json, chosen: Json) {
    if Truthy(rowValue) then chosen == rowValue
    else if Truthy(mapDefault) then chosen == mapDefault
    else chosen == fallback
  }

  /** `rowValue || mapDefault || fallback` */
  function Pick(rowValue: Json, mapDefault: Json, fallback: Json): (v: Json)
    ensures ChosenByPrecedence(rowValue, mapDefault, fallback, v)
    ensures Truthy(fallback) ==> Truthy(v)
  {
    Or(Or(rowValue, mapDefault), fallback)
  }

  /** A GeoJSON `Point` at the row's `lon`/`lat`. */
  function Point(r: Row): (g: Json)
    ensures g.Obj? && g.fields.Keys == {"type", "coordinates"}
    ensures g.fields["type"] == Str("Point") && g.fields["coordinates"] == Arr([Get(r, "lon"), Get(r, "lat")])
  {
    Obj(map["type" := Str("Point"), "coordinates" := Arr([Get(r, "lon"), Get(r, "lat")])])
  }

  /** The keys of a styled feature's `properties`. */
  const StyledKeys: set<string> := {"id", "title", "color", "icon_url", "icon_size"}

  /**
   * A styled feature's `properties`: id and title copied, and each style
   * field chosen by precedence; colour and icon size are always set, the
   * icon URL is set or `null`.
   */
  function StyledProperties(r: Row, defaults: Row): (p: map<string, Json>)
    ensures p.Keys == StyledKeys
    ensures p["id"] == Get(r, "id") && p["title"] == Get(r, "title")
    ensures ChosenByPrecedence(Get(r, "color"), Get(defaults, "color"), Str(FallbackColor), p["color"])
    ensures ChosenByPrecedence(Get(r, "icon_url"), Get(defaults, "icon_url"), Null, p["icon_url"])
    ensures ChosenByPrecedence(Get(r, "icon_size"), Get(defaults, "icon_size"), Number(Real(FallbackIconSize)), p["icon_size"])
    ensures Truthy(p["color"]) && Truthy(p["icon_size"])
    ensures Truthy(p["icon_url"]) || p["icon_url"] == Null
  {
    map[
      "id" := Get(r, "id"),
      "title" := Get(r, "title"),
      "color" := Pick(Get(r, "color"), Get(defaults, "color"), Str(FallbackColor)),
      "icon_url" := Pick(Get(r, "icon_url"), Get(defaults, "icon_url"), Null),
      "icon_size" := Pick(Get(r, "icon_size"), Get(defaults, "icon_size"), Number(Real(FallbackIconSize)))
    ]
  }

  /** The styled feature of one row: a `Point` geometry and no top-level id. */
  function StyledFeature(r: Row, defaults: Row): (f: Json)
    ensures f.Obj? && f.fields.Keys == {"type", "properties", "geometry"}
    ensures f.fields["type"] == Str("Feature")
    ensures f.fields["properties"] == Obj(StyledProperties(r, defaults))
    ensures f.fields["geometry"] == Point(r)
  {
    Obj(map[
      "type" := Str("Feature"),
      "properties" := Obj(StyledProperties(r, defaults)),
      "geometry" := Point(r)
    ])
  }

  /** `rows.map(r => StyledFeature(r, defaults))` */
  function StyledFeatures(rows: seq<Row>, defaults: Row): (fs: seq<Json>)
    ensures |fs| == |rows|
    ensures forall i :: 0 <= i < |rows| ==> fs[i] == StyledFeature(rows[i], defaults)
  {
    if rows == [] then [] else [StyledFeature(rows[0], defaults)] + StyledFeatures(rows[1..], defaults)
  }

  /** The styled collection: one feature per row, in row order. */
  function RowsToFeatureCollectionWithStyle(rows: seq<Row>, defaults: Row): (fc: Json)
    ensures Geojson.IsFeatureCollection(fc)
    ensures |Geojson.FeaturesOf(fc)| == |rows|
    ensures forall i :: 0 <= i < |rows| ==> Geojson.FeaturesOf(fc)[i] == StyledFeature(rows[i], defaults)
  {
    Geojson.Collection(StyledFeatures(rows, defaults))
  }

  /**
   * The map's own colour reaches every row without one: with a successful
   * lookup the row falls back to the map's truthy `poi_color`, and with a
   * failed lookup straight to the fallback colour.
   */
  lemma MapColorReachesFeature(answer: Upstream, r: Row)
    requires !Truthy(Get(r, "color"))
    ensures var color := StyledProperties(r, FetchMapDefaults(answer))["color"];
      if answer.Ok() && |answer.rows| > 0 && Truthy(Get(answer.rows[0], "poi_color"))
      then color == Get(answer.rows[0], "poi_color")
      else color == Str(FallbackColor)
  {
    var d := FetchMapDefaults(answer);
    if d != map[] {
      assert "color" in d;
      assert "poi_" + "color" == "poi_color";
    }
  }

  // ---------------------------------------------------------------------
  // GET /api/pois?map=...&bbox=...&tags=...

  /** The `pois_in_bbox` payload: the slug, the four bbox components in order, and the tag filter. */
  function BboxPayload(slug: string, c: seq<Json>, tags: Option<seq<string>>): Json
    requires |c| == 4
  {
    Obj(map[
      "p_map_slug" := Str(slug),
      "p_min_lon" := c[0], "p_min_lat" := c[1],
      "p_max_lon" := c[2], "p_max_lat" := c[3],
      "p_tags" := TagsJson(tags)
    ])
  }

  /**
   * The `/api/pois` handler: a 400 before any outbound call when `map` or
   * `bbox` is missing or the bbox has a NaN corner; otherwise the defaults
   * lookup, then the `pois_in_bbox` call, then the styled collection.
   */
  function PoisHandler(q: Query, toNumber: string -> JsNumber, defaultsAnswer: Upstream, rpcAnswer: Upstream): (ex: Exchange)
    ensures ex.calls == [] <==> ex.reply.Respond? && ex.reply.status == 400
    ensures ex.calls != [] ==> |ex.calls| == 2 && ex.calls[0].MapDefaultsLookup? && ex.calls[1].Rpc?
  {
    if !Present(q, "map") || !Present(q, "bbox") then
      Exchange([], Respond(400, ErrorBody("map and bbox are required"), map[]))
    else
      var c := BboxComponents(q["bbox"], toNumber);
      if SomeNaN(c) then
        Exchange([], Respond(400, ErrorBody("invalid bbox"), map[]))
      else
        var tags := ParseTags(q);
        var defaults := FetchMapDefaults(defaultsAnswer);
        var payload := BboxPayload(q["map"], c, tags);
        var calls := [MapDefaultsLookup(q["map"]), Rpc(BboxProcedure, payload)];
        match CallRpc(BboxProcedure, payload, rpcAnswer)
        case Failed(e) => Exchange(calls, Raise(e))
        case Rows(rows) => Exchange(calls, Respond(200, RowsToFeatureCollectionWithStyle(rows, defaults), CacheHeaders))
  }

  /** A missing or empty `map` or `bbox` is a 400 with no outbound call at all. */
  lemma PoisMissingParams(q: Query, toNumber: string -> JsNumber, defaultsAnswer: Upstream, rpcAnswer: Upstream)
    requires !Present(q, "map") || !Present(q, "bbox")
    ensures PoisHandler(q, toNumber, defaultsAnswer, rpcAnswer)
      == Exchange([], Respond(400, ErrorBody("map and bbox are required"), map[]))
  {
  }

  /**
   * With `map` and `bbox` given, the request is a 400 `invalid bbox` with no
   * outbound call exactly when one of the first four bbox segments is NaN.
   */
  lemma PoisInvalidBbox(q: Query, toNumber: string -> JsNumber, defaultsAnswer: Upstream, rpcAnswer: Upstream)
    requires Present(q, "map") && Present(q, "bbox")
    ensures PoisHandler(q, toNumber, defaultsAnswer, rpcAnswer) == Exchange([], Respond(400, ErrorBody("invalid bbox"), map[]))
        <==> exists i :: 0 <= i < 4 && i < |Split(q["bbox"])| && toNumber(Split(q["bbox"])[i]) == NaN
  {
    BboxRejectedIff(q["bbox"], toNumber);
  }

  /**
   * On a valid request the defaults lookup for the slug comes first, then the
   * `pois_in_bbox` call whose payload carries the slug, the bbox segments as
   * numbers in bbox order (`undefined` where a segment is missing) and the
   * tag filter.
   */
  lemma PoisCalls(q: Query, toNumber: string -> JsNumber, defaultsAnswer: Upstream, rpcAnswer: Upstream)
    requires Present(q, "map") && Present(q, "bbox")
    requires forall i :: 0 <= i < 4 && i < |Split(q["bbox"])| ==> toNumber(Split(q["bbox"])[i]) != NaN
    ensures var ex := PoisHandler(q, toNumber, defaultsAnswer, rpcAnswer);
      && |ex.calls| == 2
      && ex.calls[0] == MapDefaultsLookup(q["map"])
      && ex.calls[1].Rpc? && ex.calls[1].fn == "pois_in_bbox"
      && ex.calls[1].payload.Obj?
      && ex.calls[1].payload.fields.Keys == {"p_map_slug", "p_min_lon", "p_min_lat", "p_max_lon", "p_max_lat", "p_tags"}
      && ex.calls[1].payload.fields["p_map_slug"] == Str(q["map"])
      && ex.calls[1].payload.fields["p_tags"] == TagsJson(ParseTags(q))
      && (forall i :: 0 <= i < 4 ==>
            ex.calls[1].payload.fields[BboxFields[i]]
            == if i < |Split(q["bbox"])| then Number(toNumber(Split(q["bbox"])[i])) else Undefined)
  {
    BboxRejectedIff(q["bbox"], toNumber);
    var c := BboxComponents(q["bbox"], toNumber);
    var p := BboxPayload(q["map"], c, ParseTags(q));
    forall i | 0 <= i < 4
      ensures p.fields[BboxFields[i]] == if i < |Split(q["bbox"])| then Number(toNumber(Split(q["bbox"])[i])) else Undefined
    {
      assert p.fields[BboxFields[i]] == c[i];
    }
  }

  /**
   * On a valid request the reply is 200 with the styled collection of the
   * RPC rows, merged with the map defaults, and the cache hint; a failed
   * RPC raises its error instead, so there is no 200.
   */
  lemma PoisReply(q: Query, toNumber: string -> JsNumber, defaultsAnswer: Upstream, rpcAnswer: Upstream)
    requires Present(q, "map") && Present(q, "bbox")
    requires forall i :: 0 <= i < 4 && i < |Split(q["bbox"])| ==> toNumber(Split(q["bbox"])[i]) != NaN
    ensures var reply := PoisHandler(q, toNumber, defaultsAnswer, rpcAnswer).reply;
      if rpcAnswer.Ok()
      then reply == Respond(200, RowsToFeatureCollectionWithStyle(rpcAnswer.rows, FetchMapDefaults(defaultsAnswer)), CacheHeaders)
      else reply == Raise(RpcError("pois_in_bbox", rpcAnswer.status, rpcAnswer.text))
  {
    BboxRejectedIff(q["bbox"], toNumber);
  }

  // ---------------------------------------------------------------------
  // GET /api/pois/nearby?map=...&lon=...&lat=...&radius=...&tags=...

  /** `radius`, with `'2000'` when the parameter is absent. */
  function Radius(q: Query): string {
    if "radius" in q then q["radius"] else DefaultRadius
  }

  /** The `pois_nearby` payload: the slug, the centre and radius as numbers, and the tag filter. */
  function NearbyPayload(q: Query, toNumber: string -> JsNumber): Json
    requires "map" in q && "lon" in q && "lat" in q
  {
    Obj(map[
      "p_map_slug" := Str(q["map"]),
      "p_lon" := Number(toNumber(q["lon"])), "p_lat" := Number(toNumber(q["lat"])),
      "p_radius_m" := Number(toNumber(Radius(q))), "p_tags" := TagsJson(ParseTags(q))
    ])
  }

  /**
   * The `/api/pois/nearby` handler: a 400 with no outbound call when `map`,
   * `lon` or `lat` is missing; otherwise one `pois_nearby` call, whatever the
   * numbers parse to, and the plain collection of its rows.
   */
  function NearbyHandler(q: Query, toNumber: string -> JsNumber, rpcAnswer: Upstream): (ex: Exchange)
    ensures ex.calls == [] <==> !Present(q, "map") || !Present(q, "lon") || !Present(q, "lat")
    ensures ex.calls == [] ==> ex.reply == Respond(400, ErrorBody("map, lon, lat are required"), map[])
    ensures ex.calls != [] ==> |ex.calls| == 1 && ex.calls[0].Rpc? && ex.calls[0].fn == "pois_nearby"
  {
    if !Present(q, "map") || !Present(q, "lon") || !Present(q, "lat") then
      Exchange([], Respond(400, ErrorBody("map, lon, lat are required"), map[]))
    else
      var payload := NearbyPayload(q, toNumber);
      var calls := [Rpc(NearbyProcedure, payload)];
      match CallRpc(NearbyProcedure, payload, rpcAnswer)
      case Failed(e) => Exchange(calls, Raise(e))
      case Rows(rows) => Exchange(calls, Respond(200, Geojson.RowsToFeatureCollection(rows), CacheHeaders))
  }

  /**
   * A nearby request without `radius` asks for 2000 metres; the centre and
   * radius are passed as parsed, NaN included, and a 200 carries the plain
   * collection with the cache hint.
   */
  lemma NearbyRequest(q: Query, toNumber: string -> JsNumber, rpcAnswer: Upstream)
    requires Present(q, "map") && Present(q, "lon") && Present(q, "lat")
    ensures var ex := NearbyHandler(q, toNumber, rpcAnswer);
      && ex.calls == [Rpc("pois_nearby", ex.calls[0].payload)]
      && ex.calls[0].payload.Obj?
      && ex.calls[0].payload.fields.Keys == {"p_map_slug", "p_lon", "p_lat", "p_radius_m", "p_tags"}
      && ex.calls[0].payload.fields["p_map_slug"] == Str(q["map"])
      && ex.calls[0].payload.fields["p_lon"] == Number(toNumber(q["lon"]))
      && ex.calls[0].payload.fields["p_lat"] == Number(toNumber(q["lat"]))
      && ex.calls[0].payload.fields["p_radius_m"] == Number(toNumber(if "radius" in q then q["radius"] else "2000"))
      && ex.calls[0].payload.fields["p_tags"] == TagsJson(ParseTags(q))
      && (rpcAnswer.Ok() ==> ex.reply == Respond(200, Geojson.RowsToFeatureCollection(rpcAnswer.rows), CacheHeaders))
      && (!rpcAnswer.Ok() ==> ex.reply == Raise(RpcError("pois_nearby", rpcAnswer.status, rpcAnswer.text)))
  {
  }

  // ---------------------------------------------------------------------
  // GET /api/maps/:slug

  /**
   * The `/api/maps/:slug` handler: one read of the `maps` table; a failed
   * read passes its status on, no row is a 404, and a row is a 200 carrying it.
   */
  function MapsHandler(slug: string, answer: Upstream): (ex: Exchange)
    ensures ex.calls == [MapLookup(slug)] && ex.reply.Respond?
    ensures ex.reply.body.Obj? && "ok" in ex.reply.body.fields
    ensures ex.reply.body.fields["ok"] == Bool(ex.reply.status == 200)
    ensures ex.reply.status == 200 <==> answer.Ok() && |answer.rows| > 0
    ensures !answer.Ok() ==> ex.reply.status == answer.status
    ensures answer.Ok() && |answer.rows| == 0 ==> ex.reply.status == 404
    ensures !answer.Ok() ==>
      ex.reply.body == Obj(map["ok" := Bool(false), "status" := Number(Real(answer.status as real))])
    ensures answer.Ok() && |answer.rows| == 0 ==>
      ex.reply.body == Obj(map["ok" := Bool(false), "msg" := Str("map not found")])
    ensures ex.reply.headers == map[]
  {
    var calls := [MapLookup(slug)];
    if !answer.Ok() then
      Exchange(calls, Respond(answer.status, Obj(map["ok" := Bool(false), "status" := Number(Real(answer.status as real))]), map[]))
    else if |answer.rows| == 0 then
      Exchange(calls, Respond(404, Obj(map["ok" := Bool(false), "msg" := Str("map not found")]), map[]))
    else
      Exchange(calls, Respond(200, Obj(map["ok" := Bool(true), "map" := Obj(answer.rows[0])]), map[]))
  }

  /** A found map is returned as the first row of the read, unchanged. */
  lemma MapFound(slug: string, answer: Upstream)
    requires answer.Ok() && |answer.rows| > 0
    ensures MapsHandler(slug, answer).reply.body.fields == map["ok" := Bool(true), "map" := Obj(answer.rows[0])]
  {
  }

  // ---------------------------------------------------------------------
  // Any other path under /api/pois/

  /** The catch-all: a 404 that echoes the path. */
  function NoMatch(path: string): (reply: Reply)
    ensures reply.Respond? && reply.status == 404 && reply.headers == map[]
    ensures reply.body.Obj? && reply.body.fields.Keys == {"ok", "msg", "path"}
    ensures reply.body.fields["ok"] == Bool(false) && reply.body.fields["path"] == Str(path)
    ensures reply.body.fields["msg"] == Str("no match")
  {
    Respond(404, Obj(map["ok" := Bool(false), "msg" := Str("no match"), "path" := Str(path)]), map[])
  }

  // ---------------------------------------------------------------------
  // The request the map page makes on every viewport change

  /**
   * A request whose `bbox` is four numeric corners joined with commas, as the
   * map page builds it from the viewport, and no `tags`: the corners reach
   * the payload in order, there is no tag filter, and the reply is a 200
   * collection with one feature per RPC row, in row order, each carrying its
   * row's id, with the cache hint.
   */
  lemma ViewportRequest(slug: string, corners: seq<string>, toNumber: string -> JsNumber,
                        defaultsAnswer: Upstream, rpcAnswer: Upstream)
    requires slug != "" && |corners| == 4
    requires forall i :: 0 <= i < 4 ==> ',' !in corners[i] && toNumber(corners[i]) != NaN
    requires rpcAnswer.Ok()
    ensures var ex := PoisHandler(map["map" := slug, "bbox" := Join(corners)], toNumber, defaultsAnswer, rpcAnswer);
      && |ex.calls| == 2
      && ex.calls[1].Rpc?
      && (forall i :: 0 <= i < 4 ==> ex.calls[1].payload.fields[BboxFields[i]] == Number(toNumber(corners[i])))
      && ex.calls[1].payload.fields["p_tags"] == Null
      && ex.reply.Respond? && ex.reply.status == 200 && ex.reply.headers == map["Cache-Control" := CacheControl]
      && Geojson.IsFeatureCollection(ex.reply.body)
      && |Geojson.FeaturesOf(ex.reply.body)| == |rpcAnswer.rows|
      && (forall i :: 0 <= i < |rpcAnswer.rows| ==>
            Geojson.FeaturesOf(ex.reply.body)[i].fields["properties"].fields["id"] == Get(rpcAnswer.rows[i], "id"))
  {
    var q := map["map" := slug, "bbox" := Join(corners)];
    SplitJoin(corners);
    assert Join(corners) != "" by {
      assert |Split(Join(corners))| == 4;
    }
    PoisCalls(q, toNumber, defaultsAnswer, rpcAnswer);
    PoisReply(q, toNumber, defaultsAnswer, rpcAnswer);
  }
}
