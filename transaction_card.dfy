/**
 * The transaction card: the client-side price map, the destination choice,
 * and `fetchCalls`, which filters the selection to dust at client prices,
 * asks the swap-quote endpoint for one quote per token, signs Permit2 data
 * when asked to, and keeps at most three well-formed calls.
 */
module TransactionCard {
  import opened Wrappers
  import opened Types
  import opened Json
  import Hex
  import BigIntText
  import Amounts
  import Seqs
  import Tokens
  import SwapQuote
  import DustData
  import DustTokens

  const CONNECT_MESSAGE := "Conecta tu wallet y selecciona tokens."
  const NO_DUST_MESSAGE := "No hay tokens con valor <= $2 USD para limpiar"
  const NO_VALID_CALLS_MESSAGE := "No se pudieron preparar swaps válidos (falta 'to'/'data')."

  /** At most this many calls go into one batch. */
  const MAX_CALLS: nat := 3

  /** Client-side dust bound, in USD (inclusive; the lower bound is "positive"). */
  const CLIENT_MAX_USD: real := 2.0

  datatype DestToken = USDC | WETH

  /**
   * Native USDC on Base. The card imports `USDC_ADDRESS` from the token
   * constants, which do not define it; this is the address the USDC choice
   * evidently means.
   */
  const USDC_ADDRESS := "0x833589fCD6eDb6E08f4c7C32D4f71b54bdA02913"

  /** `destAddress` as the card computes it: the missing import reads as `undefined`. */
  function DestAddressAsWritten(dest: DestToken): (v: JsValue)
    ensures dest == USDC ==> !Truthy(v)
    ensures dest == WETH ==> v.Str? && Hex.IsHexAddress(v.s)
  {
    DestinationConstantsAreHex();
    if dest == USDC then Undefined else Str(Tokens.WETH_ADDRESS)
  }

  /** Both destination constants pass the card's hex-address check. */
  lemma DestinationConstantsAreHex()
    ensures Hex.IsHexAddress(USDC_ADDRESS) && Hex.IsHexAddress(Tokens.WETH_ADDRESS)
  {
    assert USDC_ADDRESS[0] == '0' && USDC_ADDRESS[1] == 'x';
    assert USDC_ADDRESS[..2] == "0x";
    forall k | 2 <= k < 42 ensures Hex.IsHexDigit(USDC_ADDRESS[k]) {
    }
    assert Tokens.WETH_ADDRESS[0] == '0' && Tokens.WETH_ADDRESS[1] == 'x';
    assert Tokens.WETH_ADDRESS[..2] == "0x";
    forall k | 2 <= k < 42 ensures Hex.IsHexDigit(Tokens.WETH_ADDRESS[k]) {
    }
  }

  /** `destAddress` with the USDC constant defined: always a hex address. */
  function DestAddress(dest: DestToken): (v: JsValue)
    ensures v.Str? && Hex.IsHexAddress(v.s)
    ensures dest == WETH ==> v == DestAddressAsWritten(WETH)
  {
    DestinationConstantsAreHex();
    if dest == USDC then Str(USDC_ADDRESS) else Str(Tokens.WETH_ADDRESS)
  }

  /** `JSON.stringify` drops members whose value is `undefined`. */
  function WithDefined(fields: map<string, JsValue>, key: string, v: JsValue): (r: map<string, JsValue>)
    ensures Get(Obj(r), key) == (if v.Undefined? then Get(Obj(fields), key) else v)
    ensures forall k :: k != key ==> Get(Obj(r), k) == Get(Obj(fields), k)
  {
    if v.Undefined? then fields else fields[key := v]
  }

  function OptionalStr(s: Option<string>): JsValue
  {
    if s.Some? then Str(s.value) else Undefined
  }

  /** The JSON body the card posts to the swap-quote endpoint for one token. */
  function QuoteRequest(toToken: JsValue, t: SelectedTokenInfo, amountIn: nat, taker: string,
                        signerAddress: Option<string>): (b: JsValue)
    ensures b.Obj?
  {
    var fixed := FixedMembers(t, amountIn, taker);
    Obj(WithDefined(WithDefined(fixed, "toToken", toToken), "signerAddress", OptionalStr(signerAddress)))
  }

  /** The five members every request carries. */
  function FixedMembers(t: SelectedTokenInfo, amountIn: nat, taker: string): map<string, JsValue>
  {
    map[
      "network" := Str("base"),
      "fromToken" := Str(t.address),
      "fromAmount" := Str(BigIntText.ToDecimal(amountIn)),
      "taker" := Str(taker),
      "slippageBps" := Num(Tokens.SLIPPAGE_TOLERANCE_BPS as real)]
  }

  /** The two optional members sit on top of the fixed ones and leave them readable. */
  lemma QuoteRequestLayers(toToken: JsValue, t: SelectedTokenInfo, amountIn: nat, taker: string,
                           signerAddress: Option<string>)
    ensures var fixed := FixedMembers(t, amountIn, taker);
      var b := QuoteRequest(toToken, t, amountIn, taker, signerAddress);
      && Get(b, "toToken") == toToken
      && Get(b, "signerAddress") == OptionalStr(signerAddress)
      && (forall k :: k != "toToken" && k != "signerAddress" ==> Get(b, k) == Get(Obj(fixed), k))
  {
    var fixed := FixedMembers(t, amountIn, taker);
    assert "signerAddress" !in fixed && "toToken" !in fixed;
    var inner := WithDefined(fixed, "toToken", toToken);
    assert QuoteRequest(toToken, t, amountIn, taker, signerAddress) ==
      Obj(WithDefined(inner, "signerAddress", OptionalStr(signerAddress)));
  }

  /**
   * What the endpoint reads from a request: network `base`, the destination,
   * the token, the amount as a decimal string `BigInt` reads back exactly,
   * the taker, the signer when there is one, and 50 bps slippage.
   */
  lemma QuoteRequestFields(toToken: JsValue, t: SelectedTokenInfo, amountIn: nat, taker: string,
                           signerAddress: Option<string>)
    ensures var b := QuoteRequest(toToken, t, amountIn, taker, signerAddress);
      && Get(b, "network") == Str("base")
      && Get(b, "toToken") == toToken
      && Get(b, "fromToken") == Str(t.address)
      && Get(b, "fromAmount").Str? && BigIntText.ParseBigInt(Get(b, "fromAmount").s) == Some(amountIn)
      && Get(b, "taker") == Str(taker)
      && Get(b, "signerAddress") == OptionalStr(signerAddress)
      && Get(b, "slippageBps") == Num(Tokens.SLIPPAGE_TOLERANCE_BPS as real)
  {
    BigIntText.ParseToDecimal(amountIn);
    QuoteRequestLayers(toToken, t, amountIn, taker, signerAddress);
    var fixed := Obj(FixedMembers(t, amountIn, taker));
    assert Get(fixed, "network") == Str("base");
    assert Get(fixed, "fromToken") == Str(t.address);
    assert Get(fixed, "fromAmount") == Str(BigIntText.ToDecimal(amountIn));
    assert Get(fixed, "taker") == Str(taker);
    assert Get(fixed, "slippageBps") == Num(Tokens.SLIPPAGE_TOLERANCE_BPS as real);
  }

  /**
   * What one quote request came back with: the fetch or the JSON decoding
   * threw, or the endpoint's response together with whether the wallet
   * signed the Permit2 data when it was asked to (a refusal throws).
   */
  datatype QuoteOutcome = QuoteThrew | Replied(response: SwapQuote.Response, signatureOk: bool)

  /** `data.permit2?.eip712` is truthy: the quote asks for a signature. */
  predicate AsksSignature(body: JsValue)
  {
    Truthy(Get(Get(body, "permit2"), "eip712"))
  }

  /** The quote's `transaction` member, read with `?.`. */
  function TxField(body: JsValue, key: string): JsValue
  {
    Get(Get(body, "transaction"), key)
  }

  predicate StartsWith0x(s: string)
  {
    |s| >= 2 && s[..2] == "0x"
  }

  /**
   * The body of the loop's `try` after the request: skip on an exception,
   * a non-2xx status, a refused signature, a `to` that is not a hex address,
   * `data` that is not a `0x` string, or a `value` string `BigInt` rejects.
   */
  function TokenCall(reply: QuoteOutcome): (r: Option<TransactionCall>)
    ensures r.Some? ==> reply.Replied? && SwapQuote.IsOk(reply.response.status)
    ensures r.Some? ==> Hex.IsHexAddress(r.value.to) && StartsWith0x(r.value.data)
    ensures r.Some? ==> AsksSignature(reply.response.body) ==> reply.signatureOk
    ensures r.Some? ==>
      && TxField(reply.response.body, "to") == Str(r.value.to)
      && TxField(reply.response.body, "data") == Str(r.value.data)
    ensures r.Some? ==>
      r.value.value == (var v := TxField(reply.response.body, "value");
                        if v.Str? then BigIntText.ParseBigInt(v.s) else None)
    ensures r.Some? ==> !reply.response.body.Null? && !reply.response.body.Undefined?
    ensures r.Some? ==> var v := TxField(reply.response.body, "value");
      v.Str? ==> BigIntText.ParseBigInt(v.s).Some?
    ensures (&& reply.Replied? && SwapQuote.IsOk(reply.response.status)
             && !reply.response.body.Null? && !reply.response.body.Undefined?
             && (AsksSignature(reply.response.body) ==> reply.signatureOk)
             && TxField(reply.response.body, "to").Str? && Hex.IsHexAddress(TxField(reply.response.body, "to").s)
             && TxField(reply.response.body, "data").Str? && StartsWith0x(TxField(reply.response.body, "data").s)
             && (TxField(reply.response.body, "value").Str? ==>
                   BigIntText.ParseBigInt(TxField(reply.response.body, "value").s).Some?))
            ==> r.Some?
  {
    match reply
    case QuoteThrew => None
    case Replied(resp, signatureOk) =>
      var data := resp.body;
      if !SwapQuote.IsOk(resp.status) then None
      // `data.permit2` throws on `null` and `undefined`
      else if data.Null? || data.Undefined? then None
      else if AsksSignature(data) && !signatureOk then None
      else
        var to := TxField(data, "to");
        var callData := TxField(data, "data");
        var valueStr := TxField(data, "value");
        if !(to.Str? && Hex.IsHexAddress(to.s)) || !callData.Str? || !StartsWith0x(callData.s) then None
        else if valueStr.Str? then
          match BigIntText.ParseBigInt(valueStr.s)
          case None => None
          case Some(v) => Some(TransactionCall(to.s, callData.s, Some(v)))
        else Some(TransactionCall(to.s, callData.s, None))
  }

  /** The card's price for a token: 0 without a price id, otherwise the map's price, or 0 when the map has none. */
  function ClientPrice(t: SelectedTokenInfo, priceMap: map<string, Option<real>>): (p: real)
    ensures t.coinGeckoId.None? || t.coinGeckoId.value == "" ==> p == 0.0
    ensures t.coinGeckoId.Some? && t.coinGeckoId.value != "" ==> p == Amounts.PriceOf(priceMap, t.coinGeckoId.value)
  {
    if t.coinGeckoId.Some? && t.coinGeckoId.value != "" then Amounts.PriceOf(priceMap, t.coinGeckoId.value) else 0.0
  }

  /** The card's USD value for a token: its amount times the card's price, exactly. */
  function ClientUsd(t: SelectedTokenInfo, priceMap: map<string, Option<real>>): real
  {
    Amounts.UsdValue(t.balance, t.decimals, ClientPrice(t, priceMap))
  }

  /** The `dustOnly` test: `usd > 0 && usd <= 2`. */
  predicate IsClientDust(t: SelectedTokenInfo, priceMap: map<string, Option<real>>)
  {
    0.0 < ClientUsd(t, priceMap) <= CLIENT_MAX_USD
  }

  function DustFilter(priceMap: map<string, Option<real>>): SelectedTokenInfo -> Option<SelectedTokenInfo>
  {
    (t: SelectedTokenInfo) => if IsClientDust(t, priceMap) then Some(t) else None
  }

  /** `dustOnly`, in selection order. */
  function DustOnly(selectedTokens: seq<SelectedTokenInfo>, priceMap: map<string, Option<real>>): (r: seq<SelectedTokenInfo>)
    ensures |r| <= |selectedTokens|
  {
    Seqs.FilterMap(selectedTokens, DustFilter(priceMap))
  }

  /** A token is kept iff it is selected and worth more than 0 and at most 2 USD at client prices. */
  lemma DustOnlyExactly(selectedTokens: seq<SelectedTokenInfo>, priceMap: map<string, Option<real>>, t: SelectedTokenInfo)
    ensures t in DustOnly(selectedTokens, priceMap) <==> t in selectedTokens && IsClientDust(t, priceMap)
  {
    Seqs.FilterMapMembership(selectedTokens, DustFilter(priceMap), t);
  }

  /** A token without a known client price is never swapped. */
  lemma UnpricedNeverSwapped(selectedTokens: seq<SelectedTokenInfo>, priceMap: map<string, Option<real>>, t: SelectedTokenInfo)
    requires t.coinGeckoId.None? || t.coinGeckoId.value !in priceMap || priceMap[t.coinGeckoId.value].None?
    ensures t !in DustOnly(selectedTokens, priceMap)
  {
    DustOnlyExactly(selectedTokens, priceMap, t);
  }

  /**
   * A record the dust-data endpoint returned, once selected, passes the
   * card's own dust filter when the card sees the same prices.
   */
  lemma EndpointDustPassesClientFilter(tokens: seq<TokenInfo>, results: seq<DustData.CallResult>,
                                       prices: map<string, Option<real>>, b: TokenBalance)
    requires |results| == 2 * |tokens|
    requires b in DustData.Classify(tokens, results, prices)
    requires b.coinGeckoId != ""
    ensures IsClientDust(DustTokens.Project(b), prices)
  {
    var ps := DustData.PairResults(tokens, results);
    Seqs.FilterMapMembership(ps, DustData.Classifier(prices), b);
    var i :| 0 <= i < |ps| && DustData.Classifier(prices)(ps[i]) == Some(b);
    assert DustData.ClassifyToken(ps[i], prices) == Some(b);
    assert ClientUsd(DustTokens.Project(b), prices) == DustData.PairedUsd(ps[i], prices);
  }

  /** The request the loop sends for one dust token: none when `amountIn <= 0`. */
  function RequestOf(toToken: JsValue, taker: string, signerAddress: Option<string>, t: SelectedTokenInfo): Option<JsValue>
  {
    if t.balance == 0 then None else Some(QuoteRequest(toToken, t, t.balance, taker, signerAddress))
  }

  function RequestFor(toToken: JsValue, taker: string, signerAddress: Option<string>): SelectedTokenInfo -> Option<JsValue>
  {
    (t: SelectedTokenInfo) => RequestOf(toToken, taker, signerAddress, t)
  }

  /** The requests the loop sends, in order. */
  function Requests(dust: seq<SelectedTokenInfo>, toToken: JsValue, taker: string, signerAddress: Option<string>): (r: seq<JsValue>)
    ensures |r| <= |dust|
  {
    Seqs.FilterMap(dust, RequestFor(toToken, taker, signerAddress))
  }

  /** The call the loop collects for one dust token: none without a request or when the reply is rejected. */
  function CallOf(toToken: JsValue, taker: string, signerAddress: Option<string>,
                  quote: JsValue -> QuoteOutcome, t: SelectedTokenInfo): Option<TransactionCall>
  {
    if t.balance == 0 then None else TokenCall(quote(QuoteRequest(toToken, t, t.balance, taker, signerAddress)))
  }

  function CallFor(toToken: JsValue, taker: string, signerAddress: Option<string>,
                   quote: JsValue -> QuoteOutcome): SelectedTokenInfo -> Option<TransactionCall>
  {
    (t: SelectedTokenInfo) => CallOf(toToken, taker, signerAddress, quote, t)
  }

  /** `validCalls` after the loop, in token order. */
  function ValidCalls(dust: seq<SelectedTokenInfo>, toToken: JsValue, taker: string, signerAddress: Option<string>,
                      quote: JsValue -> QuoteOutcome): (r: seq<TransactionCall>)
    ensures |r| <= |dust|
  {
    Seqs.FilterMap(dust, CallFor(toToken, taker, signerAddress, quote))
  }

  /** A request is sent for exactly the dust tokens with a positive amount; a zero amount sends none. */
  lemma RequestsExactly(dust: seq<SelectedTokenInfo>, toToken: JsValue, taker: string,
                        signerAddress: Option<string>, b: JsValue)
    ensures b in Requests(dust, toToken, taker, signerAddress) <==>
      exists i :: 0 <= i < |dust| && dust[i].balance > 0 &&
        b == QuoteRequest(toToken, dust[i], dust[i].balance, taker, signerAddress)
  {
    Seqs.FilterMapMembership(dust, RequestFor(toToken, taker, signerAddress), b);
  }

  /**
   * A call is collected iff some dust token with a positive amount got a
   * reply that `TokenCall` accepts: a skipped token affects no other token.
   */
  lemma ValidCallsExactly(dust: seq<SelectedTokenInfo>, toToken: JsValue, taker: string,
                          signerAddress: Option<string>, quote: JsValue -> QuoteOutcome, c: TransactionCall)
    ensures c in ValidCalls(dust, toToken, taker, signerAddress, quote) <==>
      exists i :: 0 <= i < |dust| && dust[i].balance > 0 &&
        TokenCall(quote(QuoteRequest(toToken, dust[i], dust[i].balance, taker, signerAddress))) == Some(c)
  {
    Seqs.FilterMapMembership(dust, CallFor(toToken, taker, signerAddress, quote), c);
  }

  /** Every collected call has a hex-address target and `0x` call data. */
  lemma ValidCallsWellFormed(dust: seq<SelectedTokenInfo>, toToken: JsValue, taker: string,
                             signerAddress: Option<string>, quote: JsValue -> QuoteOutcome, c: TransactionCall)
    requires c in ValidCalls(dust, toToken, taker, signerAddress, quote)
    ensures Hex.IsHexAddress(c.to) && StartsWith0x(c.data)
  {
    var f := CallFor(toToken, taker, signerAddress, quote);
    Seqs.FilterMapMembership(dust, f, c);
    var i :| 0 <= i < |dust| && f(dust[i]) == Some(c);
    var t := dust[i];
    assert TokenCall(quote(QuoteRequest(toToken, t, t.balance, taker, signerAddress))) == Some(c);
  }

  /**
   * With a connected wallet, a signer, a token with an address, and a
   * defined destination, every request carries all seven parameters the
   * swap-quote endpoint demands: its 400 guard never fires.
   */
  lemma RequestsPassEndpointGuard(dest: DestToken, taker: string, signer: string, t: SelectedTokenInfo)
    requires taker != "" && signer != "" && t.address != "" && t.balance > 0
    ensures var b := QuoteRequest(DestAddress(dest), t, t.balance, taker, Some(signer));
      SwapQuote.ParamsPresent(Or(b, EmptyObject))
  {
    var to := DestAddress(dest);
    assert Truthy(to) by {
      assert |to.s| == 42;
    }
    QuoteRequestFields(to, t, t.balance, taker, Some(signer));
    PresentFieldsPassGuard(QuoteRequest(to, t, t.balance, taker, Some(signer)), t.balance);
  }

  /** A request object whose seven members are all truthy passes the endpoint's guard. */
  lemma PresentFieldsPassGuard(b: JsValue, amountIn: nat)
    requires b.Obj? && amountIn > 0
    requires Get(b, "network") == Str("base")
    requires Truthy(Get(b, "toToken")) && Truthy(Get(b, "fromToken"))
    requires Get(b, "fromAmount").Str? && BigIntText.ParseBigInt(Get(b, "fromAmount").s) == Some(amountIn)
    requires Truthy(Get(b, "taker")) && Truthy(Get(b, "signerAddress"))
    requires Get(b, "slippageBps") == Num(Tokens.SLIPPAGE_TOLERANCE_BPS as real)
    ensures SwapQuote.ParamsPresent(Or(b, EmptyObject))
  {
    assert Get(b, "fromAmount").s != "";
    assert Or(b, EmptyObject) == b;
  }

  /**
   * As written, the USDC destination is `undefined`, which `JSON.stringify`
   * drops: every USDC quote is refused, whatever the credentials and the
   * provider say, so no USDC swap call is ever built.
   */
  lemma UsdcQuoteRefusedAsWritten(t: SelectedTokenInfo, taker: string, signer: Option<string>,
                                  env: SwapQuote.Env, upstream: Attempt<SwapQuote.Upstream>, signatureOk: bool)
    ensures var b := QuoteRequest(DestAddressAsWritten(USDC), t, t.balance, taker, signer);
      var r := SwapQuote.HandlePost(Ok(b), env, upstream);
      && !SwapQuote.IsOk(r.status)
      && TokenCall(Replied(r, signatureOk)) == None
  {
    var b := QuoteRequest(DestAddressAsWritten(USDC), t, t.balance, taker, signer);
    QuoteRequestFields(DestAddressAsWritten(USDC), t, t.balance, taker, signer);
    assert !SwapQuote.ParamsPresent(Or(b, EmptyObject));
  }

  /**
   * A provider quote the endpoint forwards with a hex `to` and `0x` data
   * becomes a call to that address with that data, provided any requested
   * signature is given and a string `value` is one `BigInt` accepts. Its
   * value is the provider's string read as a bigint, none for a truthy
   * non-string, and 0 (the endpoint's `"0"` default) when the provider
   * sent none.
   */
  lemma ProviderQuoteBecomesCall(b: JsValue, env: SwapQuote.Env, up: SwapQuote.Upstream, signatureOk: bool)
    requires SwapQuote.Forwarded(Ok(b), env, Ok(up)) && SwapQuote.IsOk(up.status)
    requires var data := Or(SwapQuote.ParsedBody(up), EmptyObject);
      var sent := Or(Get(data, "transaction"), EmptyObject);
      && Get(sent, "to").Str? && Hex.IsHexAddress(Get(sent, "to").s)
      && Get(sent, "data").Str? && StartsWith0x(Get(sent, "data").s)
      && (Get(sent, "value").Str? ==> BigIntText.ParseBigInt(Get(sent, "value").s).Some?)
      && (signatureOk || !Truthy(Get(Get(data, "permit2"), "eip712")))
    ensures var data := Or(SwapQuote.ParsedBody(up), EmptyObject);
      var sent := Or(Get(data, "transaction"), EmptyObject);
      var v := Get(sent, "value");
      TokenCall(Replied(SwapQuote.HandlePost(Ok(b), env, Ok(up)), signatureOk)) ==
        Some(TransactionCall(Get(sent, "to").s, Get(sent, "data").s,
          if !Truthy(v) then Some(0) else if v.Str? then BigIntText.ParseBigInt(v.s) else None))
  {
    var params := Or(b, EmptyObject);
    var data := Or(SwapQuote.ParsedBody(up), EmptyObject);
    var body := SwapQuote.SuccessBody(data, Get(params, "taker"), Get(params, "signerAddress"));
    assert SwapQuote.HandlePost(Ok(b), env, Ok(up)) == SwapQuote.Response(200, body);
    SuccessBodyBecomesCall(data, Get(params, "taker"), Get(params, "signerAddress"), signatureOk);
  }

  /** `ProviderQuoteBecomesCall` for the success body built from the provider's data. */
  lemma SuccessBodyBecomesCall(data: JsValue, taker: JsValue, signerAddress: JsValue, signatureOk: bool)
    requires var sent := Or(Get(data, "transaction"), EmptyObject);
      && Get(sent, "to").Str? && Hex.IsHexAddress(Get(sent, "to").s)
      && Get(sent, "data").Str? && StartsWith0x(Get(sent, "data").s)
      && (Get(sent, "value").Str? ==> BigIntText.ParseBigInt(Get(sent, "value").s).Some?)
      && (signatureOk || !Truthy(Get(Get(data, "permit2"), "eip712")))
    ensures var sent := Or(Get(data, "transaction"), EmptyObject);
      var v := Get(sent, "value");
      TokenCall(Replied(SwapQuote.Response(200, SwapQuote.SuccessBody(data, taker, signerAddress)), signatureOk)) ==
        Some(TransactionCall(Get(sent, "to").s, Get(sent, "data").s,
          if !Truthy(v) then Some(0) else if v.Str? then BigIntText.ParseBigInt(v.s) else None))
  {
    SwapQuote.SuccessBodyMembers(data, taker, signerAddress);
    SwapQuote.NormalisedTransactionMembers(data);
    assert BigIntText.ParseBigInt("0") == Some(0) by {
      assert "0"[..0] == "";
    }
  }

  /** The parsed `/api/token-prices` body: its `success` member and its `data` entries. */
  datatype PricesBody = PricesBody(success: JsValue, data: seq<TokenPrice>)

  /** The price map built from the entries in order, each entry overwriting its id's earlier price. */
  function PriceMapOf(data: seq<TokenPrice>): (m: map<string, Option<real>>)
    ensures forall id :: id in m <==> exists i :: 0 <= i < |data| && data[i].id == id
    decreases |data|
  {
    if data == [] then map[]
    else
      var init := data[..|data| - 1];
      var m := PriceMapOf(init);
      assert forall i :: 0 <= i < |init| ==> init[i] == data[i];
      m[data[|data| - 1].id := data[|data| - 1].price]
  }

  /** When an id occurs several times, the last entry's price wins. */
  lemma {:induction false} PriceMapLastWins(data: seq<TokenPrice>, i: nat)
    requires i < |data|
    requires forall j :: i < j < |data| ==> data[j].id != data[i].id
    ensures data[i].id in PriceMapOf(data) && PriceMapOf(data)[data[i].id] == data[i].price
    decreases |data|
  {
    if i < |data| - 1 {
      var init := data[..|data| - 1];
      assert init[i] == data[i];
      PriceMapLastWins(init, i);
    }
  }

  /** The card's state: the chosen destination, the error line and the client price map. */
  class TransactionCardState {
    var destToken: DestToken
    var error: string
    var priceMap: map<string, Option<real>>

    constructor ()
      ensures destToken == USDC && error == "" && priceMap == map[]
    {
      destToken := USDC;
      error := "";
      priceMap := map[];
    }

    /** The destination selector's `onChange`. */
    method SetDestToken(dest: DestToken)
      modifies this
      ensures destToken == dest && error == old(error) && priceMap == old(priceMap)
    {
      destToken := dest;
    }

    /**
     * `loadPrices`: with a truthy `success`, the map is rebuilt from the
     * entries; a failed fetch or decode, or a falsy `success`, leaves it as it was.
     */
    method LoadPrices(reply: Attempt<PricesBody>)
      modifies this
      ensures reply.Ok? && Truthy(reply.value.success) ==> priceMap == PriceMapOf(reply.value.data)
      ensures !(reply.Ok? && Truthy(reply.value.success)) ==> priceMap == old(priceMap)
      ensures destToken == old(destToken) && error == old(error)
    {
      if reply.Ok? && Truthy(reply.value.success) {
        var data := reply.value.data;
        var m: map<string, Option<real>> := map[];
        for i := 0 to |data|
          invariant m == PriceMapOf(data[..i])
        {
          assert data[..i + 1][..i] == data[..i];
          m := m[data[i].id := data[i].price];
        }
        assert data[..|data|] == data;
        priceMap := m;
      }
    }

    /**
     * `fetchCalls`. `address` is the connected account, `quote` answers each
     * request the card posts. Returns the calls and the requests sent.
     */
    method FetchCalls(address: Option<string>, selectedTokens: seq<SelectedTokenInfo>,
                      signerAddress: Option<string>, quote: JsValue -> QuoteOutcome)
      returns (calls: seq<TransactionCall>, requests: seq<JsValue>)
      modifies this
      ensures destToken == old(destToken) && priceMap == old(priceMap)
      ensures !Connected(address) || selectedTokens == [] ==>
        calls == [] && requests == [] && error == CONNECT_MESSAGE
      ensures Connected(address) && selectedTokens != [] && DustOnly(selectedTokens, priceMap) == [] ==>
        calls == [] && requests == [] && error == NO_DUST_MESSAGE
      ensures Connected(address) && selectedTokens != [] && DustOnly(selectedTokens, priceMap) != [] ==>
        var dust := DustOnly(selectedTokens, priceMap);
        var valid := ValidCalls(dust, DestAddress(destToken), address.value, signerAddress, quote);
        && requests == Requests(dust, DestAddress(destToken), address.value, signerAddress)
        && (valid == [] ==> calls == [] && error == NO_VALID_CALLS_MESSAGE)
        && (valid != [] ==> calls == valid[..if |valid| < MAX_CALLS then |valid| else MAX_CALLS] && error == "")
    {
      error := "";
      requests := [];
      if !Connected(address) || |selectedTokens| == 0 {
        error := CONNECT_MESSAGE;
        return [], requests;
      }
      var taker := address.value;
      var destAddress := DestAddress(destToken);
      var dustOnly := DustOnly(selectedTokens, priceMap);
      if |dustOnly| == 0 {
        error := NO_DUST_MESSAGE;
        return [], requests;
      }
      var validCalls;
      validCalls, requests := CollectCalls(dustOnly, destAddress, taker, signerAddress, quote);
      if |validCalls| == 0 {
        error := NO_VALID_CALLS_MESSAGE;
        return [], requests;
      }
      calls := validCalls[..if |validCalls| < MAX_CALLS then |validCalls| else MAX_CALLS];
    }
  }

  /** One more dust token extends the requests and the calls by what that token alone yields. */
  lemma CollectStep(dust: seq<SelectedTokenInfo>, i: nat, toToken: JsValue, taker: string,
                    signerAddress: Option<string>, quote: JsValue -> QuoteOutcome)
    requires i < |dust|
    ensures var t := dust[i];
      Requests(dust[..i + 1], toToken, taker, signerAddress) ==
        Requests(dust[..i], toToken, taker, signerAddress) +
        (if t.balance > 0 then [QuoteRequest(toToken, t, t.balance, taker, signerAddress)] else [])
    ensures var t := dust[i];
      var reply := TokenCall(quote(QuoteRequest(toToken, t, t.balance, taker, signerAddress)));
      ValidCalls(dust[..i + 1], toToken, taker, signerAddress, quote) ==
        ValidCalls(dust[..i], toToken, taker, signerAddress, quote) +
        (if t.balance > 0 && reply.Some? then [reply.value] else [])
  {
    var t := dust[i];
    Seqs.FilterMapSnoc(dust, i, RequestFor(toToken, taker, signerAddress));
    Seqs.FilterMapSnoc(dust, i, CallFor(toToken, taker, signerAddress, quote));
    assert RequestFor(toToken, taker, signerAddress)(t) == RequestOf(toToken, taker, signerAddress, t);
    assert CallFor(toToken, taker, signerAddress, quote)(t) == CallOf(toToken, taker, signerAddress, quote, t);
  }

  /**
   * The quote loop of `fetchCalls`: one request per dust token with a
   * positive amount, in order, keeping the calls that pass `TokenCall`.
   */
  method CollectCalls(dust: seq<SelectedTokenInfo>, toToken: JsValue, taker: string,
                      signerAddress: Option<string>, quote: JsValue -> QuoteOutcome)
    returns (validCalls: seq<TransactionCall>, requests: seq<JsValue>)
    ensures validCalls == ValidCalls(dust, toToken, taker, signerAddress, quote)
    ensures requests == Requests(dust, toToken, taker, signerAddress)
  {
    validCalls := [];
    requests := [];
    for i := 0 to |dust|
      invariant validCalls == ValidCalls(dust[..i], toToken, taker, signerAddress, quote)
      invariant requests == Requests(dust[..i], toToken, taker, signerAddress)
    {
      var t := dust[i];
      CollectStep(dust, i, toToken, taker, signerAddress, quote);
      var amountIn := t.balance;
      if amountIn > 0 {
        var request := QuoteRequest(toToken, t, amountIn, taker, signerAddress);
        requests := requests + [request];
        var call := TokenCall(quote(request));
        if call.Some? {
          validCalls := validCalls + [call.value];
        }
      }
    }
    assert dust[..|dust|] == dust;
  }

  /** At most three calls, each with a hex-address target and `0x` data, each from a dust token's quote. */
  lemma FetchedCallsBounded(dust: seq<SelectedTokenInfo>, toToken: JsValue, taker: string,
                            signerAddress: Option<string>, quote: JsValue -> QuoteOutcome)
    ensures var valid := ValidCalls(dust, toToken, taker, signerAddress, quote);
      var calls := valid[..if |valid| < MAX_CALLS then |valid| else MAX_CALLS];
      && |calls| <= MAX_CALLS
      && forall k :: 0 <= k < |calls| ==> Hex.IsHexAddress(calls[k].to) && StartsWith0x(calls[k].data)
  {
    var valid := ValidCalls(dust, toToken, taker, signerAddress, quote);
    forall k | 0 <= k < |valid| ensures Hex.IsHexAddress(valid[k].to) && StartsWith0x(valid[k].data) {
      ValidCallsWellFormed(dust, toToken, taker, signerAddress, quote, valid[k]);
    }
  }
}
