# POI proxy: request shaping and GeoJSON output

This project models the request-shaping layer of a map application's POI proxy in Dafny. A browser map asks the proxy for points of interest. The proxy checks the query parameters and calls a hosted backend's remote procedures (`pois_in_bbox`, `pois_nearby`) or its `maps` table. It then turns the returned rows into a GeoJSON `FeatureCollection` (RFC 7946, sections 3.2 and 3.3).

Everything modelled is pure:

- `js.dfy` (module `Js`) defines the JavaScript semantics the code relies on:
  - JSON-like values and truthiness, with `||` and `??`;
  - property access that yields `undefined` when a key is absent;
  - `split(',')` and `filter(Boolean)`, with their round-trip and order properties.
- `geojson.dfy` (module `Geojson`) is the plain shaper. It copies each row's prebuilt `geojson` geometry and its fields.
- `http.dfy` (module `Http`) holds the request/response vocabulary:
  - a query is a `map<string, string>`;
  - `Upstream` is the backend's answer: its status, its body text and its body parsed as rows;
  - `Call` is an outbound call and `Reply` is a JSON reply or a raised RPC error;
  - `CallRpc` is the RPC client's result shaping.
- `params.dfy` (module `Params`) parses the `tags` filter and the four `bbox` components.
- `pois_app.dfy` (module `PoisApp`) covers the style-aware app:
  - the map-defaults lookup and the style-aware shaper;
  - the `/api/pois`, `/api/pois/nearby`, `/api/maps/:slug` and catch-all handlers.
- `legacy_pois_app.dfy` (module `LegacyPoisApp`) covers the earlier app's `/api/pois` handler. It has no defaults lookup and uses the plain shaper.

The `/api/pois` and `/api/pois/nearby` handlers are functions of three things:

- the query;
- a parameter `toNumber: string -> JsNumber` that stands for JavaScript's `Number(...)`;
- the backend's answer to each outbound call.

They return an `Exchange`: the outbound calls made, in order, and the reply. `MapsHandler` takes the path's slug and the answer to the map read, and also returns an `Exchange`. `NoMatch` takes the unmatched path, makes no call and returns a bare `Reply`. "A 400 happens before any call" then reads as `calls == []`. "The payload carries the bbox in order" becomes a statement about the `Rpc` call's payload.

Numbers are abstract. `JsNumber` is `NaN` or `Real(r)`, and `Real` stands for every non-NaN value, infinities included. `Number(...)` is never interpreted. The only thing the code asks of a number is whether it is NaN, or falsy when it is 0.

## Behaviour kept as the code has it

In these places the code behaves in ways that are easy to misread. The model follows the code.

- **Short bbox.** A `bbox` with fewer than four comma-separated components is accepted. Destructuring fills the missing corners with `undefined`, and `Number.isNaN(undefined)` is false, so `undefined` reaches the payload. Components after the fourth are ignored. See `Params.ShortBboxAccepted` and `Params.ExtraSegmentsIgnored`. Only NaN is rejected, not infinities.
- **Tags of only commas.** A `tags` value that has content but no non-empty segment (`",,"`) is sent as the empty list `[]`, not as `null`. See `Params.OnlyCommasGiveEmptyList`.
- **Nearby shaper.** The nearby route uses the plain shaper, not the styled one.
- **Unused colour constant.** `DEFAULT_POI_COLOR` (`rgba(90, 90, 90, 1)`) is declared and never used. The colour fallback is `rgba(0, 0, 0, 1)`.
- **Truthiness.** An empty string or `0` in a row or in the map defaults falls through to the next source.
- **RPC failure.** A failed RPC raises an error carrying the procedure name, the status and the body text (`Raise`). The error reply itself belongs to the web framework.

## Model

| member | source | states |
|---|---|---|
| `Js.Split` | lib/pois/app.js:107 | `split(',')` always gives at least one segment and exactly one more segment than there are commas; no segment holds a comma |
| `Js.JoinSplit` | lib/pois/app.js:107 | joining the segments with commas gives back the original string |
| `Js.SplitJoin` | lib/pois/app.js:107 | splitting a comma-join of comma-free segments gives back exactly those segments |
| `Js.SplitAppend` | lib/pois/app.js:111 | the segments of `a,b` are the segments of `a` followed by those of `b` (order follows the text) |
| `Js.FilterNonEmpty` | lib/pois/app.js:111 | `filter(Boolean)` keeps no empty string, keeps only elements of its input, and keeps every non-empty one |
| `Js.FilterAppend` | lib/pois/app.js:111 | filtering distributes over concatenation, so relative order is preserved |
| `Js.ConcatSplit` | lib/pois/app.js:111 | the segments laid end to end are the string with its commas deleted |
| `Js.ConcatFilter` | lib/pois/app.js:111 | dropping empty segments does not change their concatenation |
| `Geojson.Properties` | lib/geojson.js:7-15 | `properties` has exactly the seven keys; `title`, `link_url`, `source_type`, `address`, `tags` and `category` are the row's values verbatim; `distance_m` is the row's value unless that is null/undefined, in which case it is `undefined` (never `null`) |
| `Geojson.ToFeature` | lib/geojson.js:5-16 | a `Feature` whose top-level `id` is the row's `id` and whose `geometry` is the row's `geojson`, unchanged |
| `Geojson.Features` | lib/geojson.js:4-17 | one feature per row; feature i is built from row i |
| `Geojson.RowsToFeatureCollection` | lib/geojson.js:1-19 | the result is a `FeatureCollection` object with as many features as rows, feature i built from row i |
| `Geojson.EmptyRows` | lib/geojson.js:2-4 | no rows give `{type: 'FeatureCollection', features: []}` |
| `Geojson.FeaturesAppend` | lib/geojson.js:4 | shaping distributes over concatenation of row lists: each feature depends on its own row only |
| `Geojson.FeatureIdsInRowOrder` | lib/geojson.js:6 | the i-th feature's id is the i-th row's id |
| `Http.CallRpc` | api/pois/app.js:11-26 | a 2xx answer yields its rows; any other status yields an error carrying the procedure name, that status and the body text, whose message is `RPC <fn> <status>: <text>` |
| `Http.Decimal` | api/pois/app.js:23 | the status in the error message is written as decimal digits with no leading zero, and those digits denote the status itself |
| `Params.ParseTags` | lib/pois/app.js:111 | the tag filter is `null` exactly when `tags` is absent or empty |
| `Params.TagsSegments` | lib/pois/app.js:111 | a present `tags` gives non-empty, comma-free tags whose concatenation is the parameter without its commas |
| `Params.TagsAppend` | lib/pois/app.js:111 | the tags of `a,b` are the tags of `a` followed by the tags of `b` |
| `Params.OnlyCommasGiveEmptyList` | lib/pois/app.js:111 | a `tags` of only commas gives the empty list, not `null` |
| `Params.TagsJson` | lib/pois/app.js:121 | `p_tags` is `null` for no filter, else an array holding the tags in order |
| `Params.ToNumbers` | lib/pois/app.js:107 | `map(Number)` keeps length and converts segment i into element i |
| `Params.BboxComponents` | lib/pois/app.js:107 | exactly four components: component i is segment i as a number, `undefined` when there is no segment i |
| `Params.BboxRejectedIff` | lib/pois/app.js:108-110 | the bbox check fails if and only if one of the first four segments parses to NaN |
| `Params.ShortBboxAccepted` | lib/pois/app.js:107-108 | fewer than four numeric segments pass the check, with `undefined` corners |
| `Params.ExtraSegmentsIgnored` | lib/pois/app.js:107 | two bboxes that agree on their first four segments give the same components |
| `PoisApp.FetchMapDefaults` | lib/pois/app.js:45-52 | `{}` on a non-2xx answer or no rows; otherwise exactly `color`, `icon_url`, `icon_size`, each the first row's `poi_*` value when truthy and `null` otherwise |
| `PoisApp.Pick` | lib/pois/app.js:65-67 | the `a \|\| b \|\| c` chain picks the row value if truthy, else the map default if truthy, else the fallback; a truthy fallback makes the result truthy |
| `PoisApp.StyledProperties` | lib/pois/app.js:61-68 | id and title copied; `color`, `icon_url` and `icon_size` chosen by the precedence rule, with fallbacks `rgba(0, 0, 0, 1)`, `null` and `0.9`; colour and size are therefore always truthy, and the icon URL is truthy or `null` |
| `PoisApp.StyledFeature` | lib/pois/app.js:59-70 | a `Feature` with styled properties, a `Point` geometry and no top-level id |
| `PoisApp.StyledFeatures` | lib/pois/app.js:59 | one styled feature per row, feature i from row i |
| `PoisApp.RowsToFeatureCollectionWithStyle` | lib/pois/app.js:56-72 | a `FeatureCollection` with as many features as rows, in row order |
| `PoisApp.MapColorReachesFeature` | lib/pois/app.js:45-67 | for a row with no colour: with a successful lookup the map's truthy `poi_color` is used, otherwise the fallback colour |
| `PoisApp.PoisHandler` | lib/pois/app.js:103-130 | no outbound call is made if and only if the reply is a 400; otherwise exactly two calls, the defaults lookup followed by an RPC |
| `PoisApp.PoisMissingParams` | lib/pois/app.js:104-105 | a missing or empty `map` or `bbox` gives 400 `map and bbox are required` and no call at all |
| `PoisApp.PoisInvalidBbox` | lib/pois/app.js:107-110 | with both parameters given, the reply is 400 `invalid bbox` with no call if and only if one of the first four segments is NaN |
| `PoisApp.PoisCalls` | lib/pois/app.js:111-122 | on valid input: the defaults lookup for the slug, then `pois_in_bbox` with exactly the slug, the four corners positionally (min lon, min lat, max lon, max lat; `undefined` where missing) and the tag filter |
| `PoisApp.PoisReply` | lib/pois/app.js:117-129 | on valid input: 200 with the styled collection of the RPC rows and the looked-up defaults, plus the `Cache-Control` header; a failed RPC raises its error, so there is no 200 |
| `PoisApp.NearbyHandler` | lib/pois/app.js:133-146 | no call if and only if `map`, `lon` or `lat` is missing, with 400 `map, lon, lat are required`; otherwise exactly one `pois_nearby` call |
| `PoisApp.NearbyRequest` | lib/pois/app.js:134-145 | the payload has exactly the keys `p_map_slug`, `p_lon`, `p_lat`, `p_radius_m`, `p_tags`; it carries the slug, `Number(lon)`, `Number(lat)` and `Number(radius)`, with radius `'2000'` when absent, and NaN is not rejected; 200 uses the plain shaper with the cache header, and a failed RPC raises |
| `PoisApp.MapsHandler` | lib/pois/app.js:151-173 | one read of the map; the status is 200 if and only if the read succeeded with a row; a failed read passes its own status on with body `{ok: false, status}`; no row is 404 with body `{ok: false, msg: 'map not found'}`; `ok` is true exactly on 200; no path adds a header |
| `PoisApp.MapFound` | lib/pois/app.js:172 | a found map replies `{ok: true, map: rows[0]}` with the row unchanged |
| `PoisApp.NoMatch` | lib/pois/app.js:148 | an unmatched path gets 404 with exactly `{ok: false, msg: 'no match', path}`, echoing the path |
| `PoisApp.ViewportRequest` | lib/pois/app.js:103-130 | for a bbox of four numeric corners joined by commas and no tags: the corners reach the payload in order, `p_tags` is `null`, and the reply is 200 with one feature per row, in row order, carrying the row ids and the cache header |
| `LegacyPoisApp.PoisHandler` | api/pois/app.js:57-75 | no call if and only if the reply is a 400; otherwise exactly one `pois_in_bbox` call |
| `LegacyPoisApp.AgreesWithStyledHandler` | api/pois/app.js:57-75 | it rejects the same requests as the styled handler, with the same reply; otherwise it sends that handler's RPC call alone and raises the same error; on success it replies 200 with the plain collection and the cache header |
| `LegacyPoisApp.InvalidBbox` | api/pois/app.js:61-64 | with both parameters given, the reply is 400 `invalid bbox` with no call if and only if one of the first four segments is NaN |

The earlier app's `/api/pois/nearby` handler (api/pois/app.js:78-91) is the same code as lib/pois/app.js:133-146. The same holds for its `callRpc` (api/pois/app.js:11-26 and lib/pois/app.js:13-28). Each is modelled once: `PoisApp.NearbyHandler` and `Http.CallRpc`.

## Left out

- Outbound I/O is not modelled. This covers `fetch`, `res.json()`, `res.text()` and `JSON.stringify`. Their results are the `Upstream` inputs of the handlers, and each answer's body is taken as already parsed into rows.
- A network failure (`fetch` rejecting) and a body that is not a JSON array are not modelled.
- The `/api/pois/health` handler is not modelled. It only reports a network-error object's fields.
- Hono routing is not modelled. That covers which handler a path reaches, the catch-all's place in registration order and the path rewriting in the Next.js route file.
- What the framework replies when a handler raises is not modelled.
- The `Content-Type` header that `c.json` adds is not modelled.
- Reply bodies are the values passed to `c.json`, not their JSON text. Serialisation drops a key whose value is `undefined`, such as a nullish `distance_m`, and writes an `undefined` array element, such as a missing coordinate, as `null`. The model does not capture this.
- `Number(...)` string-to-float conversion is a parameter. The model does not say which strings become NaN, zero or infinity.
- Negative zero is not told apart from zero: both are falsy.
- `PoisApp.FetchMapDefaults`: a body that is `null` (`rows?.length`) is not modelled, because rows are always a sequence.
- The React page, the header component, map rendering and environment configuration are not part of this model.
