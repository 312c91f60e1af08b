/**
 * The request/response vocabulary of the POI proxy. A route handler is
 * modelled as a decision: given the query and what the backend answers to
 * each outbound call, it yields the outbound calls it makes, in order, and
 * the reply it produces.
 */
module Http {
  import opened Js

  /** The parsed query string: parameter name to value. */
  type Query = map<string, string>

  /** The parameter is there and truthy, i.e. present and not the empty string. */
  predicate Present(q: Query, k: string) {
    k in q && q[k] != ""
  }

  /** What the backend answers to one outbound request: status, body text, and the body parsed as rows. */
  datatype Upstream = Upstream(status: nat, text: string, rows: seq<Row>) {
    /** The fetch API's `ok`: a status in the 2xx range. */
    predicate Ok() {
      200 <= status <= 299
    }
  }

  /** An outbound call to the backend. */
  datatype Call =
    | MapDefaultsLookup(slug: string)   // read of the `maps` table for the style defaults
    | MapLookup(slug: string)           // read of the `maps` table for the map route
    | Rpc(fn: string, payload: Json)    // POST to a remote procedure

  /** The error a failed remote procedure call raises. */
  datatype RpcError = RpcError(fn: string, status: nat, text: string) {
    /** The error's message, `RPC <fn> <status>: <text>`. */
    function Message(): string {
      "RPC " + fn + " " + Decimal(status) + ": " + text
    }
  }

  /** What a handler ends with: a JSON reply, or an exception left to the framework. */
  datatype Reply =
    | Respond(status: nat, body: Json, headers: map<string, string>)
    | Raise(error: RpcError)

  /** The outbound calls a handler made, in order, and its reply. */
  datatype Exchange = Exchange(calls: seq<Call>, reply: Reply)

  /** What `callRpc` resolves to: the answer's rows, or the error it throws. */
  datatype Result<T> = Rows(value: T) | Failed(error: RpcError)

  /** The cache hint on every successful POI reply. */
  const CacheControl: string := "public, max-age=15, stale-while-revalidate=60"
  const CacheHeaders: map<string, string> := map["Cache-Control" := CacheControl]

  /** The `{ error: msg }` body of a validation failure. */
  function ErrorBody(msg: string): Json {
    Obj(map["error" := Str(msg)])
  }

  /** The number a string of decimal digits denotes, most significant digit first. */
  function DigitsValue(d: string): nat
    requires forall i :: 0 <= i < |d| ==> '0' <= d[i] <= '9'
  {
    if d == [] then 0 else 10 * DigitsValue(d[..|d| - 1]) + (d[|d| - 1] - '0') as nat
  }

  /** The decimal digits of `n`, most significant first, with no leading zero. */
  function Decimal(n: nat): (d: string)
    ensures |d| >= 1 && (forall i :: 0 <= i < |d| ==> '0' <= d[i] <= '9')
    ensures |d| > 1 ==> d[0] != '0'
    ensures DigitsValue(d) == n
  {
    if n < 10 then ["0123456789"[n]] else Decimal(n / 10) + ["0123456789"[n % 10]]
  }

  /**
   * `callRpc(fn, payload)`: the rows of the answer when its status is ok;
   * otherwise an error carrying the procedure, the status and the body text.
   */
  function CallRpc(fn: string, payload: Json, answer: Upstream): (r: Result<seq<Row>>)
    ensures r.Rows? <==> answer.Ok()
    ensures r.Rows? ==> r.value == answer.rows
    ensures r.Failed? ==> r.error.fn == fn && r.error.status == answer.status && r.error.text == answer.text
    ensures r.Failed? ==> r.error.Message() == "RPC " + fn + " " + Decimal(answer.status) + ": " + answer.text
  {
    if !answer.Ok() then Failed(RpcError(fn, answer.status, answer.text)) else Rows(answer.rows)
  }
}
