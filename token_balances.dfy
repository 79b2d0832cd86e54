/**
 * The balances hook: three state cells (`tokenBalances`, `isLoading`,
 * `totalValue`) and the refresh that asks the dust-data endpoint for the
 * connected owner's dust. The refresh is split at its `await`: `BeginFetch`
 * runs up to the request, `CompleteFetch` applies what came back (the
 * `try`/`catch`/`finally`), and `FetchDustData` is the two in sequence. The
 * hook's `refreshBalances` is this same `FetchDustData`.
 */
module TokenBalancesHook {
  import opened Wrappers
  import opened Types
  import opened Json
  import DustData
  import Tokens

  /** What the request and `response.json()` delivered: the endpoint's response, or an exception. */
  datatype FetchOutcome = FetchThrew | Delivered(response: DustData.Response)

  /** `result.success`: only the endpoint's 200 answer carries `success: true`. */
  predicate Succeeded(o: FetchOutcome)
  {
    o.Delivered? && o.response.Found?
  }

  /** A record's USD value, with a missing one counting as 0. */
  function UsdOrZero(t: TokenBalance): real
  {
    if t.usdValue.Some? then t.usdValue.value else 0.0
  }

  /** The total USD value of a list, summed from the left as the hook's reduction does. */
  function TotalValue(list: seq<TokenBalance>): real
    decreases |list|
  {
    if list == [] then 0.0 else TotalValue(list[..|list| - 1]) + UsdOrZero(list[|list| - 1])
  }

  /** The total of a concatenation is the sum of the totals. */
  lemma {:induction false} TotalValueAppend(a: seq<TokenBalance>, b: seq<TokenBalance>)
    ensures TotalValue(a + b) == TotalValue(a) + TotalValue(b)
    decreases |b|
  {
    if b != [] {
      var b' := b[..|b| - 1];
      assert (a + b)[..|a + b| - 1] == a + b';
      TotalValueAppend(a, b');
    } else {
      assert a + b == a;
    }
  }

  /** When every value lies in [lo, hi], the total lies in [lo * n, hi * n]. */
  lemma {:induction false} TotalValueBounds(list: seq<TokenBalance>, lo: real, hi: real)
    requires forall k :: 0 <= k < |list| ==> lo <= UsdOrZero(list[k]) <= hi
    ensures lo * |list| as real <= TotalValue(list) <= hi * |list| as real
    decreases |list|
  {
    if list != [] {
      TotalValueBounds(list[..|list| - 1], lo, hi);
    }
  }

  /** The total of a list the endpoint returned lies between 0.01 and 2 USD per record. */
  lemma EndpointTotalWithinBand(body: Attempt<JsValue>, prices: DustData.PriceFetch,
                                multicall: Attempt<seq<DustData.CallResult>>)
    requires multicall.Ok? ==> |multicall.value| == 2 * |Tokens.TOKENS|
    requires DustData.HandlePost(body, prices, multicall).response.Found?
    ensures var data := DustData.HandlePost(body, prices, multicall).response.data;
      DustData.MIN_DUST_USD * |data| as real <= TotalValue(data) <= DustData.MAX_DUST_USD * |data| as real
  {
    ClassifiedTotalWithinBand(Tokens.TOKENS, multicall.value, prices.table);
  }

  /** Every classified record lies in the dust band, hence so does the total, per record. */
  lemma ClassifiedTotalWithinBand(tokens: seq<TokenInfo>, results: seq<DustData.CallResult>,
                                  prices: map<string, Option<real>>)
    requires |results| == 2 * |tokens|
    ensures var data := DustData.Classify(tokens, results, prices);
      DustData.MIN_DUST_USD * |data| as real <= TotalValue(data) <= DustData.MAX_DUST_USD * |data| as real
  {
    var data := DustData.Classify(tokens, results, prices);
    forall k | 0 <= k < |data|
      ensures DustData.MIN_DUST_USD <= UsdOrZero(data[k]) <= DustData.MAX_DUST_USD
    {
      DustData.ClassifiedRecordsAreDust(tokens, results, prices, data[k]);
    }
    TotalValueBounds(data, DustData.MIN_DUST_USD, DustData.MAX_DUST_USD);
  }

  class TokenBalancesState {
    var tokenBalances: seq<TokenBalance>
    var isLoading: bool
    var totalValue: real

    constructor ()
      ensures tokenBalances == [] && !isLoading && totalValue == 0.0
    {
      tokenBalances := [];
      isLoading := false;
      totalValue := 0.0;
    }

    /** Up to the request: without an address, clear the list and stop; otherwise raise `isLoading`. */
    method BeginFetch(address: Option<string>) returns (requested: bool)
      modifies this
      ensures requested == Connected(address)
      ensures !requested ==>
        tokenBalances == [] && isLoading == old(isLoading) && totalValue == old(totalValue)
      ensures requested ==>
        isLoading && tokenBalances == old(tokenBalances) && totalValue == old(totalValue)
    {
      if !Connected(address) {
        tokenBalances := [];
        return false;
      }
      isLoading := true;
      requested := true;
    }

    /**
     * After the request: on success store the data and its total; on failure
     * (no `success`, or an exception) clear the list and keep the old total;
     * in every case lower `isLoading`.
     */
    method CompleteFetch(outcome: FetchOutcome)
      modifies this
      ensures !isLoading
      ensures Succeeded(outcome) ==>
        tokenBalances == outcome.response.data && totalValue == TotalValue(outcome.response.data)
      ensures !Succeeded(outcome) ==> tokenBalances == [] && totalValue == old(totalValue)
    {
      if Succeeded(outcome) {
        tokenBalances := outcome.response.data;
        totalValue := TotalValue(outcome.response.data);
      } else {
        tokenBalances := [];
      }
      isLoading := false;
    }

    /** `fetchDustData` (and `refreshBalances`): `BeginFetch`, then `CompleteFetch` when a request was made. */
    method FetchDustData(address: Option<string>, outcome: FetchOutcome) returns (requested: bool)
      modifies this
      ensures requested == Connected(address)
      ensures !requested ==>
        tokenBalances == [] && isLoading == old(isLoading) && totalValue == old(totalValue)
      ensures requested ==> !isLoading
      ensures requested && Succeeded(outcome) ==>
        tokenBalances == outcome.response.data && totalValue == TotalValue(outcome.response.data)
      ensures requested && !Succeeded(outcome) ==>
        tokenBalances == [] && totalValue == old(totalValue)
    {
      requested := BeginFetch(address);
      if requested {
        CompleteFetch(outcome);
      }
    }
  }
}
