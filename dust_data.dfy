/**
 * The dust-data endpoint (POST `{address}`): validates the owner address,
 * reads every registered token's balance and Permit2 allowance in one
 * multicall batch, and keeps the tokens whose USD value lies in the dust band.
 * The price feed and the multicall are inputs: their answers (or the
 * exceptions they raise) are parameters of `HandlePost`.
 */
module DustData {
  import opened Wrappers
  import opened Json
  import opened Types
  import Hex
  import BigIntText
  import Amounts
  import Seqs
  import Tokens

  /** Inclusive bounds of the dust band, in USD. */
  const MIN_DUST_USD: real := 0.01
  const MAX_DUST_USD: real := 2.0

  const INVALID_ADDRESS_MESSAGE: string := "A valid address is required"
  const PRICE_FAILURE_MESSAGE: string := "Failed to fetch prices from CoinGecko"
  /** Stands for the TypeError raised when the address is destructured from a `null` body; the engine's wording is not modelled. */
  const NULL_BODY_MESSAGE: string := "Cannot destructure property 'address' of null"

  /** One ERC-20 read of the multicall batch. */
  datatype ReadCall =
    | BalanceOf(token: string, owner: string)
    | Allowance(token: string, owner: string, spender: string)

  /** One multicall answer (`allowFailure: true`): the uint256 result, or a failed call. */
  datatype CallResult = CallSuccess(result: nat) | CallFailure

  /** The price request's outcome: the response's `ok` flag and its decoded table, or an exception. */
  datatype PriceFetch =
    | PriceResponse(ok: bool, table: map<string, Option<real>>)
    | PriceFetchThrew(thrown: Thrown)

  /** The endpoint's answers: 200 `{success: true, data}`, 400 `{error}`, 500 `{success: false, error}`. */
  datatype Response =
    | Found(data: seq<TokenBalance>)
    | Rejected(error: string)
    | Failed(message: Option<string>)

  /** What one request did: its response, whether prices were requested, and the reads sent on chain. */
  datatype Handled = Handled(response: Response, pricesRequested: bool, chainReads: seq<ReadCall>)

  function Status(r: Response): int
  {
    match r
    case Found(_) => 200
    case Rejected(_) => 400
    case Failed(_) => 500
  }

  /** The message the catch block reports: the error's own, absent when the thrown value is not an `Error`. */
  function ErrorText(t: Thrown): Option<string>
  {
    match t
    case ErrorObject(m) => Some(m)
    case NonErrorValue => None
  }

  /** The address guard: present, a string, and matching `^0x[a-fA-F0-9]{40}$`. */
  predicate ValidAddress(a: JsValue)
  {
    a.Str? && Hex.IsHexAddress(a.s)
  }

  /** `allCalls`: `TOKENS.flatMap` of each token's two reads. */
  function AllCalls(tokens: seq<TokenInfo>, owner: string): (calls: seq<ReadCall>)
    ensures |calls| == 2 * |tokens|
    decreases |tokens|
  {
    if tokens == [] then []
    else
      var own := [BalanceOf(tokens[0].address, owner), Allowance(tokens[0].address, owner, Tokens.PERMIT2_ADDRESS)];
      own + AllCalls(tokens[1..], owner)
  }

  /** Entry `2i` of `allCalls` is `balanceOf(owner)` on token `i`, entry `2i+1` its `allowance(owner, PERMIT2)`. */
  lemma {:induction false} AllCallsLayout(tokens: seq<TokenInfo>, owner: string, i: nat)
    requires i < |tokens|
    ensures AllCalls(tokens, owner)[2 * i] == BalanceOf(tokens[i].address, owner)
    ensures AllCalls(tokens, owner)[2 * i + 1] == Allowance(tokens[i].address, owner, Tokens.PERMIT2_ADDRESS)
    decreases i
  {
    if i > 0 {
      AllCallsLayout(tokens[1..], owner, i - 1);
      assert AllCalls(tokens, owner)[2 * i] == AllCalls(tokens[1..], owner)[2 * (i - 1)];
      assert AllCalls(tokens, owner)[2 * i + 1] == AllCalls(tokens[1..], owner)[2 * (i - 1) + 1];
    }
  }

  /** A token with the two multicall answers that belong to it. */
  datatype Paired = Paired(token: TokenInfo, balance: CallResult, allowance: CallResult)

  /** Each registry token beside the two multicall answers at positions `2i` and `2i + 1`. */
  function PairResults(tokens: seq<TokenInfo>, results: seq<CallResult>): (ps: seq<Paired>)
    requires |results| == 2 * |tokens|
    ensures |ps| == |tokens|
  {
    seq(|tokens|, i requires 0 <= i < |tokens| => Paired(tokens[i], results[2 * i], results[2 * i + 1]))
  }

  /** The multicall answers each read of `allCalls` in order. */
  function Answers(calls: seq<ReadCall>, answer: ReadCall -> CallResult): (results: seq<CallResult>)
    ensures |results| == |calls|
  {
    seq(|calls|, k requires 0 <= k < |calls| => answer(calls[k]))
  }

  /** Pairing by index hands every token the answers to its own balance and allowance reads. */
  lemma PairedAnswersBelongToToken(tokens: seq<TokenInfo>, owner: string, answer: ReadCall -> CallResult)
    ensures forall i :: 0 <= i < |tokens| ==>
      PairResults(tokens, Answers(AllCalls(tokens, owner), answer))[i] ==
      Paired(tokens[i], answer(BalanceOf(tokens[i].address, owner)),
             answer(Allowance(tokens[i].address, owner, Tokens.PERMIT2_ADDRESS)))
  {
    var calls := AllCalls(tokens, owner);
    var results := Answers(calls, answer);
    forall i | 0 <= i < |tokens|
      ensures PairResults(tokens, results)[i] ==
        Paired(tokens[i], answer(BalanceOf(tokens[i].address, owner)),
               answer(Allowance(tokens[i].address, owner, Tokens.PERMIT2_ADDRESS)))
    {
      AllCallsLayout(tokens, owner, i);
      assert results[2 * i] == answer(calls[2 * i]);
      assert results[2 * i + 1] == answer(calls[2 * i + 1]);
    }
  }

  /** The USD value of a successful balance at the route's price. */
  function PairedUsd(p: Paired, prices: map<string, Option<real>>): real
    requires p.balance.CallSuccess?
  {
    Amounts.UsdValue(p.balance.result, p.token.decimals, Amounts.PriceOf(prices, p.token.coinGeckoId))
  }

  /** The record keeps the registry entry's name, address, symbol, price-feed id and decimals. */
  predicate CarriesRegistryFields(token: TokenInfo, b: TokenBalance)
  {
    b.name == token.name && b.address == token.address && b.symbol == token.symbol &&
    b.coinGeckoId == token.coinGeckoId && b.decimals == token.decimals
  }

  /**
   * The classification of one token: omitted when its balance read failed or
   * returned zero, or when its USD value lies outside [0.01, 2]; otherwise
   * the registry fields plus balance, allowance text (`"0"` when the
   * allowance read failed) and USD value.
   */
  function ClassifyToken(p: Paired, prices: map<string, Option<real>>): (r: Option<TokenBalance>)
    ensures r.Some? <==>
      p.balance.CallSuccess? && p.balance.result > 0 &&
      MIN_DUST_USD <= PairedUsd(p, prices) <= MAX_DUST_USD
    ensures r.Some? ==>
      CarriesRegistryFields(p.token, r.value) &&
      r.value.balance == p.balance.result &&
      r.value.usdValue == Some(PairedUsd(p, prices)) &&
      r.value.error == None &&
      BigIntText.ParseBigInt(r.value.allowance) ==
        Some(if p.allowance.CallSuccess? then p.allowance.result else 0)
  {
    if p.balance.CallFailure? || p.balance.result == 0 then None
    else
      var usd := PairedUsd(p, prices);
      if usd < MIN_DUST_USD || usd > MAX_DUST_USD then None
      else
        var allowance := if p.allowance.CallSuccess? then BigIntText.ToDecimal(p.allowance.result) else "0";
        BigIntText.ParseToDecimal(if p.allowance.CallSuccess? then p.allowance.result else 0);
        assert BigIntText.ToDecimal(0) == "0";
        Some(TokenBalance(p.token.name, p.token.symbol, p.token.address, p.balance.result,
                          p.token.decimals, allowance, Some(usd), p.token.coinGeckoId, None))
  }

  function Classifier(prices: map<string, Option<real>>): Paired -> Option<TokenBalance>
  {
    p => ClassifyToken(p, prices)
  }

  /** The classification of every registry token with its paired answers, keeping the records in registry order and dropping the omitted tokens. */
  function Classify(tokens: seq<TokenInfo>, results: seq<CallResult>, prices: map<string, Option<real>>): (r: seq<TokenBalance>)
    requires |results| == 2 * |tokens|
    ensures |r| <= |tokens|
  {
    Seqs.FilterMap(PairResults(tokens, results), Classifier(prices))
  }

  /**
   * The output lists, in registry order, exactly the tokens whose
   * classification keeps them: `ix` gives each record's registry position.
   */
  lemma ClassifyInRegistryOrder(tokens: seq<TokenInfo>, results: seq<CallResult>, prices: map<string, Option<real>>)
    returns (ix: seq<nat>)
    requires |results| == 2 * |tokens|
    ensures |ix| == |Classify(tokens, results, prices)|
    ensures forall k :: 0 <= k < |ix| ==>
      && ix[k] < |tokens|
      && ClassifyToken(Paired(tokens[ix[k]], results[2 * ix[k]], results[2 * ix[k] + 1]), prices) ==
         Some(Classify(tokens, results, prices)[k])
    ensures forall k, l :: 0 <= k < l < |ix| ==> ix[k] < ix[l]
    ensures forall i ::
      (0 <= i < |tokens| && ClassifyToken(Paired(tokens[i], results[2 * i], results[2 * i + 1]), prices).Some?)
      ==> i in ix
  {
    var ps := PairResults(tokens, results);
    var f := Classifier(prices);
    var r := Classify(tokens, results, prices);
    ix := Seqs.KeptIndices(ps, f);
    Seqs.FilterMapIndices(ps, f);
    Seqs.KeptIndicesIncreasing(ps, f);
    forall k | 0 <= k < |ix|
      ensures ix[k] < |tokens|
      ensures ClassifyToken(Paired(tokens[ix[k]], results[2 * ix[k]], results[2 * ix[k] + 1]), prices) == Some(r[k])
    {
      assert ps[ix[k]] == Paired(tokens[ix[k]], results[2 * ix[k]], results[2 * ix[k] + 1]);
      assert r[k] == f(ps[ix[k]]).value;
    }
    forall i | 0 <= i < |tokens| && ClassifyToken(Paired(tokens[i], results[2 * i], results[2 * i + 1]), prices).Some?
      ensures i in ix
    {
      assert f(ps[i]).Some?;
      var k := Seqs.KeptIndicesComplete(ps, f, i);
    }
  }

  /** Every record the route returns is a positive balance worth between 0.01 and 2 USD, with a readable allowance. */
  lemma ClassifiedRecordsAreDust(tokens: seq<TokenInfo>, results: seq<CallResult>, prices: map<string, Option<real>>, t: TokenBalance)
    requires |results| == 2 * |tokens|
    requires t in Classify(tokens, results, prices)
    ensures t.balance > 0 && t.error == None
    ensures t.usdValue.Some? && MIN_DUST_USD <= t.usdValue.value <= MAX_DUST_USD
    ensures BigIntText.ParseBigInt(t.allowance).Some?
    ensures exists i :: 0 <= i < |tokens| && CarriesRegistryFields(tokens[i], t)
  {
    var ps := PairResults(tokens, results);
    Seqs.FilterMapMembership(ps, Classifier(prices), t);
    var i :| 0 <= i < |ps| && Classifier(prices)(ps[i]) == Some(t);
    assert ClassifyToken(ps[i], prices) == Some(t);
  }

  /** A token without a price (missing id or missing `usd`) is never dust. */
  lemma UnpricedTokenOmitted(p: Paired, prices: map<string, Option<real>>)
    requires !(p.token.coinGeckoId in prices && prices[p.token.coinGeckoId].Some?)
    ensures ClassifyToken(p, prices) == None
  {
  }

  /**
   * `POST`: body, then address guard (400), then prices (a failure is 500),
   * then the multicall over `allCalls` and the classification. Any exception
   * gives 500 with `success: false`.
   */
  function HandlePost(body: Attempt<JsValue>, prices: PriceFetch, multicall: Attempt<seq<CallResult>>): (h: Handled)
    requires multicall.Ok? ==> |multicall.value| == 2 * |Tokens.TOKENS|
    ensures h.chainReads != [] ==> h.pricesRequested
    ensures body.Ok? && !body.value.Null? && !body.value.Undefined? && !ValidAddress(Get(body.value, "address")) ==>
      h == Handled(Rejected(INVALID_ADDRESS_MESSAGE), false, [])
    ensures h.pricesRequested ==> body.Ok? && ValidAddress(Get(body.value, "address"))
    ensures h.chainReads != [] ==>
      && h.chainReads == AllCalls(Tokens.TOKENS, Get(body.value, "address").s)
      && prices.PriceResponse? && prices.ok
    ensures h.response.Found? ==>
      && h.chainReads != [] && multicall.Ok?
      && h.response.data == Classify(Tokens.TOKENS, multicall.value, prices.table)
    ensures prices.PriceResponse? && !prices.ok && h.pricesRequested ==>
      h.response == Failed(Some(PRICE_FAILURE_MESSAGE)) && h.chainReads == []
    ensures body.Threw? ==> h == Handled(Failed(ErrorText(body.thrown)), false, [])
    ensures prices.PriceFetchThrew? && h.pricesRequested ==>
      h.response == Failed(ErrorText(prices.thrown)) && h.chainReads == []
    ensures multicall.Threw? && h.chainReads != [] ==> h.response == Failed(ErrorText(multicall.thrown))
    ensures body.Ok? && (body.value.Null? || body.value.Undefined?) ==>
      h == Handled(Failed(Some(NULL_BODY_MESSAGE)), false, [])
    ensures body.Ok? && !body.value.Null? && !body.value.Undefined? && ValidAddress(Get(body.value, "address")) ==>
      h.pricesRequested
    ensures h.pricesRequested && prices.PriceResponse? && prices.ok ==>
      h.chainReads == AllCalls(Tokens.TOKENS, Get(body.value, "address").s) && h.chainReads != []
    ensures h.chainReads != [] && multicall.Ok? ==>
      h.response == Found(Classify(Tokens.TOKENS, multicall.value, prices.table))
  {
    match body
    case Threw(t) => Handled(Failed(ErrorText(t)), false, [])
    case Ok(b) =>
      if b.Null? || b.Undefined? then Handled(Failed(Some(NULL_BODY_MESSAGE)), false, [])
      else
        var address := Get(b, "address");
        if !ValidAddress(address) then Handled(Rejected(INVALID_ADDRESS_MESSAGE), false, [])
        else
          match prices
          case PriceFetchThrew(t) => Handled(Failed(ErrorText(t)), true, [])
          case PriceResponse(ok, table) =>
            if !ok then Handled(Failed(Some(PRICE_FAILURE_MESSAGE)), true, [])
            else
              var calls := AllCalls(Tokens.TOKENS, address.s);
              match multicall
              case Threw(t) => Handled(Failed(ErrorText(t)), true, calls)
              case Ok(results) => Handled(Found(Classify(Tokens.TOKENS, results, table)), true, calls)
  }

  /**
   * The success path end to end: a body with a valid address, an ok price
   * response and a multicall answer give 200 with the classified list, after
   * the price request and the reads of `allCalls` for that owner.
   */
  lemma ValidRequestFound(b: JsValue, table: map<string, Option<real>>, results: seq<CallResult>)
    requires |results| == 2 * |Tokens.TOKENS|
    requires !b.Null? && !b.Undefined? && ValidAddress(Get(b, "address"))
    ensures var h := HandlePost(Ok(b), PriceResponse(true, table), Ok(results));
      && h.response == Found(Classify(Tokens.TOKENS, results, table))
      && h.pricesRequested
      && h.chainReads == AllCalls(Tokens.TOKENS, Get(b, "address").s)
  {
  }
}
