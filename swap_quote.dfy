/**
 * The swap-quote endpoint (POST): a fixed chain of guards in front of the
 * upstream quote provider, and the normalisation of the provider's answer.
 * The server credentials, the provider's reply (status, raw text and what
 * `JSON.parse` makes of it) and the exceptions of the awaited calls are
 * parameters of `HandlePost`.
 */
module SwapQuote {
  import opened Wrappers
  import opened Json

  const CREDENTIALS_MESSAGE: string := "Server missing KEY_NAME/KEY_SECRET"
  const MISSING_PARAMS_MESSAGE: string := "Missing required params"
  const QUOTE_FAILED_MESSAGE: string := "Quote failed"
  const UNKNOWN_ERROR_MESSAGE: string := "Unknown error"

  /** The server's `KEY_NAME` and `KEY_SECRET` environment variables (`None` when unset). */
  datatype Env = Env(keyName: Option<string>, keySecret: Option<string>)

  /** The provider's reply: HTTP status, body text, and `JSON.parse(raw)` (`None` when it throws). */
  datatype Upstream = Upstream(status: int, raw: string, parsed: Option<JsValue>)

  /** A response of this endpoint: HTTP status and JSON body. */
  datatype Response = Response(status: int, body: JsValue)

  /** A 2xx status, which is what the fetch API reports as ok. */
  predicate IsOk(status: int)
  {
    200 <= status <= 299
  }

  /** An environment variable that is set and non-empty (truthy). */
  predicate EnvSet(v: Option<string>)
  {
    v.Some? && v.value != ""
  }

  function ErrorBody(message: JsValue): JsValue
  {
    Obj(map["error" := message])
  }

  /** The message of the `catch` block: the error's own, or "Unknown error" for a non-`Error` value. */
  function MessageOf(t: Thrown): string
  {
    match t
    case ErrorObject(m) => m
    case NonErrorValue => UNKNOWN_ERROR_MESSAGE
  }

  /** All seven request parameters are truthy. */
  predicate ParamsPresent(params: JsValue)
  {
    && Truthy(Get(params, "network"))
    && Truthy(Get(params, "toToken"))
    && Truthy(Get(params, "fromToken"))
    && Truthy(Get(params, "fromAmount"))
    && Truthy(Get(params, "taker"))
    && Truthy(Get(params, "signerAddress"))
    && Truthy(Get(params, "slippageBps"))
  }

  /** `parsed`: `null` for an empty body or one that does not parse. */
  function ParsedBody(up: Upstream): (p: JsValue)
    ensures up.raw == "" || up.parsed.None? ==> p == Null
    ensures up.raw != "" && up.parsed.Some? ==> p == up.parsed.value
  {
    if up.raw == "" || up.parsed.None? then Null else up.parsed.value
  }

  /**
   * The provider error's message: the first truthy one of the parsed
   * `errorMessage`, the parsed `error`, the raw text and "Quote failed", so
   * the message is never empty.
   */
  function UpstreamErrorMessage(parsed: JsValue, raw: string): (m: JsValue)
    ensures Truthy(m)
    ensures m == Get(parsed, "errorMessage") || m == Get(parsed, "error") || m == Str(raw) || m == Str(QUOTE_FAILED_MESSAGE)
    ensures Truthy(Get(parsed, "errorMessage")) ==> m == Get(parsed, "errorMessage")
    ensures !Truthy(Get(parsed, "errorMessage")) && Truthy(Get(parsed, "error")) ==> m == Get(parsed, "error")
    ensures !Truthy(Get(parsed, "errorMessage")) && !Truthy(Get(parsed, "error")) ==>
      m == (if raw != "" then Str(raw) else Str(QUOTE_FAILED_MESSAGE))
  {
    Or(Get(parsed, "errorMessage"), Or(Get(parsed, "error"), Or(Str(raw), Str(QUOTE_FAILED_MESSAGE))))
  }

  /** The normalised `transaction` of a successful quote. */
  function NormalisedTransaction(data: JsValue): JsValue
  {
    var tx := Or(Get(data, "transaction"), EmptyObject);
    Obj(map[
      "to" := Or(Get(tx, "to"), Null),
      "data" := Or(Get(tx, "data"), Null),
      "value" := Or(Get(tx, "value"), Str("0")),
      "gas" := Or(Get(tx, "gas"), Undefined),
      "gasPrice" := Or(Get(tx, "gasPrice"), Undefined)])
  }

  /** The body of a successful quote, built from the parsed upstream data and the request's echo fields. */
  function SuccessBody(data: JsValue, taker: JsValue, signerAddress: JsValue): JsValue
  {
    Obj(map[
      "success" := Bool(true),
      "minToAmount" := Get(data, "minToAmount"),
      "transaction" := NormalisedTransaction(data),
      "allowanceTarget" := Or(Get(data, "allowanceTarget"), Null),
      "permit2" := Or(Get(data, "permit2"), Null),
      "taker" := taker,
      "signerAddress" := signerAddress])
  }

  /**
   * `POST`: request body, credentials (500), parameters (400), provider call,
   * provider error (its status), success (200). Any exception gives 500.
   */
  function HandlePost(body: Attempt<JsValue>, env: Env, upstream: Attempt<Upstream>): (r: Response)
    ensures body.Ok? && !(EnvSet(env.keyName) && EnvSet(env.keySecret)) ==>
      r == Response(500, ErrorBody(Str(CREDENTIALS_MESSAGE)))
    ensures body.Ok? && EnvSet(env.keyName) && EnvSet(env.keySecret) && !ParamsPresent(Or(body.value, EmptyObject)) ==>
      r == Response(400, ErrorBody(Str(MISSING_PARAMS_MESSAGE)))
    ensures body.Threw? ==> r == Response(500, ErrorBody(Str(MessageOf(body.thrown))))
  {
    match body
    case Threw(t) => Response(500, ErrorBody(Str(MessageOf(t))))
    case Ok(b) =>
      var params := Or(b, EmptyObject);
      if !EnvSet(env.keyName) || !EnvSet(env.keySecret) then
        Response(500, ErrorBody(Str(CREDENTIALS_MESSAGE)))
      else if !ParamsPresent(params) then
        Response(400, ErrorBody(Str(MISSING_PARAMS_MESSAGE)))
      else
        match upstream
        case Threw(t) => Response(500, ErrorBody(Str(MessageOf(t))))
        case Ok(up) =>
          var parsed := ParsedBody(up);
          if !IsOk(up.status) then
            Response(up.status, ErrorBody(UpstreamErrorMessage(parsed, up.raw)))
          else
            Response(200, SuccessBody(Or(parsed, EmptyObject), Get(params, "taker"), Get(params, "signerAddress")))
  }

  /** The request guards pass and the provider was reached. */
  predicate Forwarded(body: Attempt<JsValue>, env: Env, upstream: Attempt<Upstream>)
  {
    body.Ok? && EnvSet(env.keyName) && EnvSet(env.keySecret) &&
    ParamsPresent(Or(body.value, EmptyObject)) && upstream.Ok?
  }

  /** A slippage of 0 bps is falsy, hence rejected as a missing parameter. */
  lemma ZeroSlippageRejected(b: JsValue, env: Env, upstream: Attempt<Upstream>)
    requires EnvSet(env.keyName) && EnvSet(env.keySecret)
    requires Get(Or(b, EmptyObject), "slippageBps") == Num(0.0)
    ensures HandlePost(Ok(b), env, upstream) == Response(400, ErrorBody(Str(MISSING_PARAMS_MESSAGE)))
  {
  }

  /**
   * A provider error keeps the provider's status, and its message is the
   * first truthy one of the parsed `errorMessage`, the parsed `error`, the
   * raw text and "Quote failed".
   */
  lemma UpstreamErrorPropagated(body: Attempt<JsValue>, env: Env, upstream: Attempt<Upstream>)
    requires Forwarded(body, env, upstream) && !IsOk(upstream.value.status)
    ensures HandlePost(body, env, upstream).status == upstream.value.status
    ensures Get(HandlePost(body, env, upstream).body, "error") ==
      UpstreamErrorMessage(ParsedBody(upstream.value), upstream.value.raw)
    ensures Truthy(Get(HandlePost(body, env, upstream).body, "error"))
  {
    var up := upstream.value;
    assert HandlePost(body, env, upstream) == Response(up.status, ErrorBody(UpstreamErrorMessage(ParsedBody(up), up.raw)));
  }

  /**
   * A successful quote answers 200 with `success: true` and the provider's
   * `minToAmount`; every other member is the provider's own when it is
   * truthy and its default otherwise (`null` for `to`, `data`,
   * `allowanceTarget` and `permit2`, `"0"` for `value`, absent for `gas` and
   * `gasPrice`); `taker` and `signerAddress` echo the request.
   */
  lemma SuccessNormalised(body: Attempt<JsValue>, env: Env, upstream: Attempt<Upstream>)
    requires Forwarded(body, env, upstream) && IsOk(upstream.value.status)
    ensures var r := HandlePost(body, env, upstream);
      var data := Or(ParsedBody(upstream.value), EmptyObject);
      var sent := Or(Get(data, "transaction"), EmptyObject);
      var tx := Get(r.body, "transaction");
      && r.status == 200
      && Get(r.body, "success") == Bool(true)
      && Get(r.body, "minToAmount") == Get(data, "minToAmount")
      && Get(tx, "to") == Or(Get(sent, "to"), Null)
      && Get(tx, "data") == Or(Get(sent, "data"), Null)
      && Get(tx, "value") == Or(Get(sent, "value"), Str("0"))
      && Get(tx, "gas") == Or(Get(sent, "gas"), Undefined)
      && Get(tx, "gasPrice") == Or(Get(sent, "gasPrice"), Undefined)
      && Get(r.body, "allowanceTarget") == Or(Get(data, "allowanceTarget"), Null)
      && Get(r.body, "permit2") == Or(Get(data, "permit2"), Null)
      && Get(r.body, "taker") == Get(Or(body.value, EmptyObject), "taker")
      && Get(r.body, "signerAddress") == Get(Or(body.value, EmptyObject), "signerAddress")
  {
    var up := upstream.value;
    var params := Or(body.value, EmptyObject);
    var data := Or(ParsedBody(up), EmptyObject);
    assert HandlePost(body, env, upstream) == Response(200, SuccessBody(data, Get(params, "taker"), Get(params, "signerAddress")));
    SuccessBodyMembers(data, Get(params, "taker"), Get(params, "signerAddress"));
    SuccessBodyEchoes(data, Get(params, "taker"), Get(params, "signerAddress"));
    NormalisedTransactionMembers(data);
  }

  /** The members of a success body that come from the provider's data. */
  lemma SuccessBodyMembers(data: JsValue, taker: JsValue, signerAddress: JsValue)
    ensures var r := SuccessBody(data, taker, signerAddress);
      && r.Obj?
      && Get(r, "success") == Bool(true)
      && Get(r, "minToAmount") == Get(data, "minToAmount")
      && Get(r, "transaction") == NormalisedTransaction(data)
      && Get(r, "allowanceTarget") == Or(Get(data, "allowanceTarget"), Null)
      && Get(r, "permit2") == Or(Get(data, "permit2"), Null)
  {
    var m := SuccessBody(data, taker, signerAddress).fields;
    assert "success" in m && "minToAmount" in m && "transaction" in m;
    assert "allowanceTarget" in m && "permit2" in m;
  }

  /** The members of a success body that echo the request. */
  lemma SuccessBodyEchoes(data: JsValue, taker: JsValue, signerAddress: JsValue)
    ensures var r := SuccessBody(data, taker, signerAddress);
      Get(r, "taker") == taker && Get(r, "signerAddress") == signerAddress
  {
    var m := SuccessBody(data, taker, signerAddress).fields;
    assert m["taker"] == taker && m["signerAddress"] == signerAddress;
  }

  /**
   * Each member of the normalised transaction is the provider's own when
   * truthy and its default otherwise; `value` is therefore never falsy.
   */
  lemma NormalisedTransactionMembers(data: JsValue)
    ensures var tx := NormalisedTransaction(data);
      var sent := Or(Get(data, "transaction"), EmptyObject);
      && Get(tx, "to") == Or(Get(sent, "to"), Null)
      && Get(tx, "data") == Or(Get(sent, "data"), Null)
      && Get(tx, "value") == Or(Get(sent, "value"), Str("0"))
      && Get(tx, "gas") == Or(Get(sent, "gas"), Undefined)
      && Get(tx, "gasPrice") == Or(Get(sent, "gasPrice"), Undefined)
      && Truthy(Get(tx, "value"))
  {
  }

  /** An empty or unparseable provider body on success is read as `{}`: every field takes its default. */
  lemma EmptyUpstreamBodyDefaults(body: Attempt<JsValue>, env: Env, upstream: Attempt<Upstream>)
    requires Forwarded(body, env, upstream) && IsOk(upstream.value.status)
    requires upstream.value.raw == "" || upstream.value.parsed.None?
    ensures var r := HandlePost(body, env, upstream);
      var tx := Get(r.body, "transaction");
      && r.status == 200
      && Get(tx, "to") == Null && Get(tx, "data") == Null && Get(tx, "value") == Str("0")
      && Get(tx, "gas") == Undefined && Get(tx, "gasPrice") == Undefined
      && Get(r.body, "minToAmount") == Undefined
      && Get(r.body, "allowanceTarget") == Null && Get(r.body, "permit2") == Null
  {
    var up := upstream.value;
    var params := Or(body.value, EmptyObject);
    assert ParsedBody(up) == Null;
    assert HandlePost(body, env, upstream) == Response(200, SuccessBody(EmptyObject, Get(params, "taker"), Get(params, "signerAddress")));
    SuccessBodyMembers(EmptyObject, Get(params, "taker"), Get(params, "signerAddress"));
    NormalisedTransactionMembers(EmptyObject);
  }

  /** An exception from the provider call gives 500 with its message. */
  lemma ProviderExceptionIs500(body: Attempt<JsValue>, env: Env, t: Thrown)
    requires body.Ok? && EnvSet(env.keyName) && EnvSet(env.keySecret) && ParamsPresent(Or(body.value, EmptyObject))
    ensures HandlePost(body, env, Threw(t)) == Response(500, ErrorBody(Str(MessageOf(t))))
  {
  }
}
