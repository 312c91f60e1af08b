/**
 * The earlier POI proxy: the same validation and `pois_in_bbox` call as
 * `PoisApp`, but no map-defaults lookup and the plain shaper. Its
 * `/api/pois/nearby` handler and its RPC client are the same as those of
 * `PoisApp` and are modelled there once.
 */
module LegacyPoisApp {
  import opened Js
  import opened Http
  import opened Params
  import Geojson
  import PoisApp

  /**
   * The earlier `/api/pois` handler: a 400 before any outbound call when
   * `map` or `bbox` is missing or the bbox has a NaN corner; otherwise the
   * `pois_in_bbox` call and the plain collection of its rows.
   */
  function PoisHandler(q: Query, toNumber: string -> JsNumber, rpcAnswer: Upstream): (ex: Exchange)
    ensures ex.calls == [] <==> ex.reply.Respond? && ex.reply.status == 400
    ensures ex.calls != [] ==> |ex.calls| == 1 && ex.calls[0].Rpc? && ex.calls[0].fn == "pois_in_bbox"
  {
    if !Present(q, "map") || !Present(q, "bbox") then
      Exchange([], Respond(400, ErrorBody("map and bbox are required"), map[]))
    else
      var c := BboxComponents(q["bbox"], toNumber);
      if SomeNaN(c) then
        Exchange([], Respond(400, ErrorBody("invalid bbox"), map[]))
      else
        var payload := PoisApp.BboxPayload(q["map"], c, ParseTags(q));
        var calls := [Rpc(PoisApp.BboxProcedure, payload)];
        match CallRpc(PoisApp.BboxProcedure, payload, rpcAnswer)
        case Failed(e) => Exchange(calls, Raise(e))
        case Rows(rows) => Exchange(calls, Respond(200, Geojson.RowsToFeatureCollection(rows), CacheHeaders))
  }

  /**
   * The earlier handler rejects exactly the requests the later one rejects,
   * with the same reply; otherwise it sends the later one's RPC call alone,
   * raises the same error when that call fails, and on success replies with
   * the plain collection where the later one has the styled collection.
   */
  lemma AgreesWithStyledHandler(q: Query, toNumber: string -> JsNumber, defaultsAnswer: Upstream, rpcAnswer: Upstream)
    ensures var earlier := PoisHandler(q, toNumber, rpcAnswer);
      var later := PoisApp.PoisHandler(q, toNumber, defaultsAnswer, rpcAnswer);
      && (earlier.calls == [] <==> later.calls == [])
      && (earlier.calls == [] ==> earlier.reply == later.reply)
      && (earlier.calls != [] ==> earlier.calls == [later.calls[1]])
      && (earlier.calls != [] && !rpcAnswer.Ok() ==> earlier.reply == later.reply)
      && (earlier.calls != [] && rpcAnswer.Ok() ==>
            earlier.reply == Respond(200, Geojson.RowsToFeatureCollection(rpcAnswer.rows), CacheHeaders))
  {
  }

  /**
   * With `map` and `bbox` given, the earlier handler answers 400 `invalid
   * bbox` without calling out exactly when one of the first four bbox
   * segments is NaN; fewer than four segments are not rejected.
   */
  lemma InvalidBbox(q: Query, toNumber: string -> JsNumber, rpcAnswer: Upstream)
    requires Present(q, "map") && Present(q, "bbox")
    ensures PoisHandler(q, toNumber, rpcAnswer) == Exchange([], Respond(400, ErrorBody("invalid bbox"), map[]))
        <==> exists i :: 0 <= i < 4 && i < |Split(q["bbox"])| && toNumber(Split(q["bbox"])[i]) == NaN
  {
    BboxRejectedIff(q["bbox"], toNumber);
  }
}
