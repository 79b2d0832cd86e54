# Dust cleaner on Base — a Dafny model of the dust pipeline

The application lets a wallet owner find low-value ("dust") ERC-20 balances
among a fixed registry of five tokens on Base. The owner selects some of them
and swaps them in one batch into USDC or WETH. This project models the core of
that pipeline and proves what each stage promises:

- **The dust-data endpoint** (`DustData`). It validates the owner address and
  fetches prices. It builds two on-chain reads per registry token: the balance,
  then the allowance towards Permit2. It pairs the multicall answers back by
  position and keeps, in registry order, only the tokens with a positive
  balance worth between 0.01 and 2 USD. Each allowance is written as a decimal
  string.
- **The swap-quote endpoint** (`SwapQuote`). It checks the credentials (500)
  and the seven request parameters (400). It forwards the request to the quote
  provider. A provider error keeps its status and carries a message chosen by a
  fallback chain. A success is normalised, with `null`, `"0"` and `undefined`
  defaults. Any exception gives 500.
- **The balances hook** (`TokenBalancesHook`). It holds three state cells
  (`tokenBalances`, `isLoading` and `totalValue`) and the refresh operation,
  which is split at its `await` into a start step and a completion step.
- **The dust list component** (`DustTokens`). It holds the selection set and
  its toggle, select-all and clear actions. From the selection it derives the
  ordered selected list and the `needsApproval` flag, which compares bigints.
  It also derives the displayed records and each record's approval test.
- **The transaction card** (`TransactionCard`). It holds the client price map,
  loaded by a loop. It filters the selection again at client prices. It builds
  one quote request per dust token and validates each quote into a call. It
  keeps at most three calls, and sets an error line on each failure path.

Supporting modules:

- `Json` holds JavaScript values, truthiness, `||` and `?.`.
- `Hex` is the `0x` + 40 hex digits address check.
- `BigIntText` holds `bigint.toString()` and `BigInt(string)`, with their round
  trip.
- `Amounts` holds units, decimals, prices and USD values.
- `Seqs` holds one order-preserving `FilterMap`. Every filter of the source
  (`filter`, `filter(...).map(...)`, and `map` followed by `filter(Boolean)`)
  is an instance of it.
- `Types` holds the records.
- `Tokens` holds the registry and the constants.

Amounts are kept as exact smallest-unit naturals. Prices and USD values are
exact reals. The decimal balance string that `formatUnits` produces is
represented by the amount it denotes. `parseUnits(formatUnits(b, d), d) == b`
therefore holds by construction, and `parseFloat(formatted) * price` is
`units / 10^decimals * price`, computed exactly.

Everything outside the program is a parameter of the model:
- fetch results and exceptions
- the multicall answers
- the price feed
- the quote provider's reply
- the wallet's account and its willingness to sign
- the server's environment variables

The model makes no network, clock or wallet calls.

Where the two dust bands differ, the code is followed. The endpoint keeps
`0.01 <= usd <= 2`. The card keeps `0 < usd <= 2`.
`TransactionCard.EndpointDustPassesClientFilter` proves that the endpoint's
band lies inside the card's.

## Model

| member | source | states |
|---|---|---|
| `DustData.AllCalls` | app/api/get-dust-data/route.ts:41-54 | exactly two reads per registry token |
| `DustData.AllCallsLayout` | app/api/get-dust-data/route.ts:41-54 | read `2i` is `balanceOf(owner)` on token `i`; read `2i+1` is `allowance(owner, PERMIT2)` on token `i` |
| `DustData.Answers` | app/api/get-dust-data/route.ts:56-59 | the multicall returns one answer per read |
| `DustData.PairResults` | app/api/get-dust-data/route.ts:61-63 | one pair per registry token |
| `DustData.PairedAnswersBelongToToken` | app/api/get-dust-data/route.ts:61-63 | pairing by `index * 2` and `index * 2 + 1` gives each token the answers to its own balance and allowance reads |
| `DustData.ClassifyToken` | app/api/get-dust-data/route.ts:65-92 | a token is kept iff its balance read succeeded, the balance is positive and its USD value is in [0.01, 2]; the record keeps the registry fields, the balance and the USD value; its allowance string reads back as the allowance, or 0 when that read failed |
| `DustData.Classify` | app/api/get-dust-data/route.ts:61-93 | never more records than registry tokens |
| `DustData.ClassifyInRegistryOrder` | app/api/get-dust-data/route.ts:61-93 | the output is exactly the kept tokens, in strictly increasing registry order, each record being its token's classification |
| `DustData.ClassifiedRecordsAreDust` | app/api/get-dust-data/route.ts:65-92 | every returned record has a positive balance, no error, a USD value in [0.01, 2], a readable allowance and some registry token's fields |
| `DustData.UnpricedTokenOmitted` | app/api/get-dust-data/route.ts:74-80 | a token whose id is not priced (price read as 0) is never dust |
| `DustData.HandlePost` | app/api/get-dust-data/route.ts:29-103 | a `null` or `undefined` body fails with 500 before anything is requested; an invalid address is rejected with 400 before prices are requested and no chain read happens; a valid address always leads to the price request; an ok price response always leads to the reads of `allCalls` for the owner, and a multicall answer then always gives 200 with the classification of the answers; conversely, chain reads only follow a successful price fetch and are exactly `allCalls` for the owner; a found result is the classification of the multicall answers; a failed price response gives the price-failure message; an exception from the body, the price fetch or the multicall gives the 500 failure with its message and stops the later reads |
| `DustData.ValidRequestFound` | app/api/get-dust-data/route.ts:31-95 | a valid address, an ok price response and a multicall answer give 200 with the classified list, after the price request and exactly the reads of `allCalls` for that owner |
| `BigIntText.ToDecimal` | app/api/get-dust-data/route.ts:82-85 | `bigint.toString()` is non-empty, all decimal digits, and has no leading zero |
| `BigIntText.DecimalValueOfToDecimal` | app/api/get-dust-data/route.ts:82-85 | the digits of `toString()` denote the number |
| `BigIntText.ParseToDecimal` | app/components/DustTokens.tsx:47 | `BigInt(n.toString()) == n`: the allowance the endpoint writes is the allowance the component compares |
| `BigIntText.ToDecimalInjective` | app/api/get-dust-data/route.ts:82-85 | different allowances give different strings |
| `Amounts.TokenAmount` | app/api/get-dust-data/route.ts:73 | the formatted amount times `10^decimals` is the raw amount; it is non-negative and zero exactly for a zero balance |
| `Amounts.PriceOf` | app/api/get-dust-data/route.ts:74 | the table's price when present; 0 for a missing id or a missing price |
| `Amounts.UsdValue` | app/api/get-dust-data/route.ts:75 | zero for a zero balance or price; non-negative for a non-negative price |
| `Hex.IsHexAddress` | app/components/TransactionCard.tsx:32-33 | accepted iff 42 characters, prefix `0x`, then forty hex digits |
| `Hex.CaseOfDigitsIrrelevant` | app/components/TransactionCard.tsx:33 | changing the case of the forty digits does not change the verdict |
| `Hex.PrefixedDigitsAccepted` | app/components/TransactionCard.tsx:33 | any forty hex digits behind `0x` are accepted |
| `Json.Or` | app/api/swap-quote/route.ts:42-43 | JavaScript's logical or: the left operand when it is truthy, the right one otherwise |
| `SwapQuote.HandlePost` | app/api/swap-quote/route.ts:39-137 | a request body that fails to parse gives 500 with its message; otherwise missing credentials give 500 before the parameters are looked at; with credentials, any missing or falsy parameter gives 400 |
| `SwapQuote.ParsedBody` | app/api/swap-quote/route.ts:100-106 | an empty or unparseable provider body reads as `null`; any other body reads as what it parses to |
| `SwapQuote.UpstreamErrorMessage` | app/api/swap-quote/route.ts:108-112 | the message is always truthy, and is `errorMessage`, else `error`, else the raw text, else "Quote failed" |
| `SwapQuote.ZeroSlippageRejected` | app/api/swap-quote/route.ts:54-67 | a slippage of 0 bps counts as missing: 400 |
| `SwapQuote.UpstreamErrorPropagated` | app/api/swap-quote/route.ts:108-112 | a provider error keeps the provider's status, and its `error` is the first truthy one of the parsed `errorMessage`, the parsed `error`, the raw text and "Quote failed", so it is never empty |
| `SwapQuote.SuccessNormalised` | app/api/swap-quote/route.ts:114-132 | success answers 200 with `success: true` and the provider's `minToAmount`; each transaction member, `allowanceTarget` and `permit2` is the provider's own when truthy and its default otherwise (`null`, `"0"` for `value`, absent for `gas` and `gasPrice`); `taker` and `signerAddress` echo the request |
| `SwapQuote.SuccessBodyMembers` | app/api/swap-quote/route.ts:118-130 | the success body is an object with `success: true`, the provider's `minToAmount`, the normalised transaction, and `allowanceTarget` and `permit2` passed through when truthy, `null` otherwise |
| `SwapQuote.SuccessBodyEchoes` | app/api/swap-quote/route.ts:130-131 | the success body's `taker` and `signerAddress` are the request's own values |
| `SwapQuote.NormalisedTransactionMembers` | app/api/swap-quote/route.ts:117-126 | `to` and `data` are the provider's when truthy, else `null`; `value` the provider's when truthy, else `"0"`, so never falsy; `gas` and `gasPrice` the provider's when truthy, else absent |
| `SwapQuote.EmptyUpstreamBodyDefaults` | app/api/swap-quote/route.ts:114-132 | an empty provider body on success yields every default |
| `SwapQuote.ProviderExceptionIs500` | app/api/swap-quote/route.ts:133-136 | an exception during the provider call gives 500 with its message |
| `TokenBalancesHook.TotalValueAppend` | app/hooks/useTokenBalances.ts:27 | the `reduce` total of a concatenation is the sum of the totals |
| `TokenBalancesHook.TotalValueBounds` | app/hooks/useTokenBalances.ts:27 | if every USD value lies in [lo, hi], the total lies in [lo·n, hi·n] |
| `TokenBalancesHook.ClassifiedTotalWithinBand` | app/hooks/useTokenBalances.ts:27 | over any classified list, the `reduce` total lies between 0.01 and 2 USD per record |
| `TokenBalancesHook.EndpointTotalWithinBand` | app/hooks/useTokenBalances.ts:25-28 | over the endpoint's records, every summand is within the dust band, so the total is at most 2 USD per record |
| `TokenBalancesHook.TokenBalancesState.constructor` | app/hooks/useTokenBalances.ts:7-9 | empty list, not loading, total 0 |
| `TokenBalancesHook.TokenBalancesState.BeginFetch` | app/hooks/useTokenBalances.ts:11-16 | without an address the list is emptied and nothing is requested; otherwise loading starts with the list unchanged |
| `TokenBalancesHook.TokenBalancesState.CompleteFetch` | app/hooks/useTokenBalances.ts:17-37 | loading always ends; success stores the records and their total; failure empties the list and keeps the old total |
| `TokenBalancesHook.TokenBalancesState.FetchDustData` | app/hooks/useTokenBalances.ts:11-38 | `fetchDustData`, which `refreshBalances` also is: the whole refresh: a request is made iff the account is connected; a requested refresh always ends with loading off, and its outcome decides the list and total as above; without an account the list is emptied and loading and total are untouched |
| `DustTokens.Toggled` | app/components/DustTokens.tsx:54-62 | the toggled address flips membership; every other address keeps its membership |
| `DustTokens.ToggleTwiceRestores` | app/components/DustTokens.tsx:54-62 | toggling twice restores the selection |
| `DustTokens.AddressesOf` | app/components/DustTokens.tsx:64-66 | exactly the addresses of the list's records |
| `DustTokens.SelectedList` | app/components/DustTokens.tsx:37-44 | no longer than the list (contents and order: `SelectedListInOrder`) |
| `DustTokens.SelectedListInOrder` | app/components/DustTokens.tsx:38-43 | exactly the records whose address is selected, projected, in list order |
| `DustTokens.StaleSelectionIgnored` | app/components/DustTokens.tsx:38-43 | selected addresses no record carries do not affect the selected list |
| `DustTokens.SelectAllSelectsEveryRecord` | app/components/DustTokens.tsx:64-66 | after select-all, the selected list is every record in order, including those not displayed |
| `DustTokens.AllowanceValue` | app/components/DustTokens.tsx:47 | an empty allowance is read as `'0'`, hence 0; any other allowance is parsed as `BigInt` parses it |
| `DustTokens.ApprovalNeeded` | app/components/DustTokens.tsx:175-180 | defined iff the allowance parses; then true iff allowance < balance in smallest units; an empty allowance needs approval iff the balance is positive |
| `DustTokens.NeedsApproval` | app/components/DustTokens.tsx:46-50 | true only if some selected token needs approval; false iff every one of them is defined and false; defined whenever all allowances parse |
| `DustTokens.NeedsApprovalExact` | app/components/DustTokens.tsx:46-50 | with readable allowances, the flag is exactly "some allowance < balance" |
| `DustTokens.NeedsApprovalOfEndpointRecords` | app/components/DustTokens.tsx:46-50 | over the endpoint's records and any selection, allowances always parse and the flag is exactly "some allowance < balance" |
| `DustTokens.DisplayedTokens` | app/components/DustTokens.tsx:169-173 | no more records than the list |
| `DustTokens.DisplayedExactly` | app/components/DustTokens.tsx:169-173 | a record is shown iff it is in the list, has no error and has a positive balance |
| `DustTokens.EndpointRecordsDisplayed` | app/components/DustTokens.tsx:169-173 | every record the endpoint returns is shown |
| `DustTokens.DustSelection.constructor` | app/components/DustTokens.tsx:19 | the selection starts empty |
| `DustTokens.DustSelection.ToggleTokenSelection` | app/components/DustTokens.tsx:54-62 | the new selection is the toggled old one |
| `DustTokens.DustSelection.SelectAllTokens` | app/components/DustTokens.tsx:64-67 | the selection becomes every address in the hook's list |
| `DustTokens.DustSelection.DeselectAllTokens` | app/components/DustTokens.tsx:69 | the selection becomes empty |
| `TransactionCard.DestAddressAsWritten` | app/components/TransactionCard.tsx:84 | as written, USDC gives a falsy (undefined) destination; WETH gives a hex address |
| `TransactionCard.DestAddress` | app/components/TransactionCard.tsx:84 | with USDC defined, both destinations are hex addresses; WETH is unchanged |
| `TransactionCard.DestinationConstantsAreHex` | app/components/TransactionCard.tsx:21-25 | the USDC and WETH constants pass the hex-address check |
| `TransactionCard.WithDefined` | app/components/TransactionCard.tsx:113-121 | `JSON.stringify` drops an `undefined` member: reading the key gives what it gave before; other keys are untouched |
| `TransactionCard.QuoteRequest` | app/components/TransactionCard.tsx:113-121 | the request body is a JSON object |
| `TransactionCard.QuoteRequestFields` | app/components/TransactionCard.tsx:113-121 | network `base`, destination, token, an amount string that `BigInt` reads back as the amount, taker, signer when present, 50 bps |
| `TransactionCard.TokenCall` | app/components/TransactionCard.tsx:124-167 | a call is built iff the reply is 2xx with a body that is neither `null` nor `undefined`, any requested signature was given, the quote's `to` is a hex address, its `data` a string starting with `0x`, and its `value`, when a string, one `BigInt` accepts; the call's `to` and `data` are the quote's, and its value the parsed `value` string, or absent for a non-string |
| `TransactionCard.ClientPrice` | app/components/TransactionCard.tsx:88 | 0 without a price id; otherwise the map's price, or 0 when it is missing |
| `TransactionCard.DustOnly` | app/components/TransactionCard.tsx:87-91 | no more tokens than selected |
| `TransactionCard.DustOnlyExactly` | app/components/TransactionCard.tsx:87-91 | a token is kept iff it is selected and `0 < usd <= 2` at client prices |
| `TransactionCard.UnpricedNeverSwapped` | app/components/TransactionCard.tsx:88-90 | a token without a client price is never kept |
| `TransactionCard.EndpointDustPassesClientFilter` | app/components/TransactionCard.tsx:87-91 | an endpoint record, once selected, passes the card's filter at the same prices |
| `TransactionCard.Requests` | app/components/TransactionCard.tsx:105-122 | at most one request per dust token |
| `TransactionCard.ValidCalls` | app/components/TransactionCard.tsx:99-172 | at most one call per dust token |
| `TransactionCard.RequestsExactly` | app/components/TransactionCard.tsx:105-122 | a request is sent for exactly the dust tokens with a positive amount; a zero amount is skipped without a request |
| `TransactionCard.ValidCallsExactly` | app/components/TransactionCard.tsx:105-172 | a call is collected iff some dust token with a positive amount got an accepted reply; a skipped token does not stop the others |
| `TransactionCard.ValidCallsWellFormed` | app/components/TransactionCard.tsx:147-158 | every collected call has a hex-address target and `0x` data |
| `TransactionCard.RequestsPassEndpointGuard` | app/components/TransactionCard.tsx:113-121 | with an account, a signer, a token address and a defined destination, every request passes the swap-quote endpoint's 400 guard |
| `TransactionCard.UsdcQuoteRefusedAsWritten` | app/components/TransactionCard.tsx:84 | as written, every USDC quote answers non-2xx whatever the credentials and the provider, so no call is built |
| `TransactionCard.ProviderQuoteBecomesCall` | app/components/TransactionCard.tsx:143-167 | a provider quote with a hex `to`, `0x` data, any requested signature given and a readable `value`, passed through the swap-quote endpoint, becomes a call to that `to` with that data; its value is the provider's parsed string, or 0 (the endpoint's `"0"` default) when the provider sent none |
| `TransactionCard.SuccessBodyBecomesCall` | app/components/TransactionCard.tsx:143-167 | the endpoint's success body for provider data with a hex `to`, `0x` data and a readable `value` becomes a call to that `to` with that data, its value being the provider's parsed string or 0 when none was sent, provided any requested signature is given |
| `TransactionCard.PriceMapOf` | app/components/TransactionCard.tsx:51-52 | the map's keys are exactly the ids of the entries |
| `TransactionCard.PriceMapLastWins` | app/components/TransactionCard.tsx:52 | for a repeated id, the last entry's price is kept |
| `TransactionCard.TransactionCardState.constructor` | app/components/TransactionCard.tsx:41-43 | USDC, no error, empty price map |
| `TransactionCard.TransactionCardState.SetDestToken` | app/components/TransactionCard.tsx:199 | only the destination changes |
| `TransactionCard.TransactionCardState.LoadPrices` | app/components/TransactionCard.tsx:45-60 | a successful truthy reply replaces the map with the fold of its entries; anything else leaves the map as it was |
| `TransactionCard.CollectCalls` | app/components/TransactionCard.tsx:105-172 | the loop sends one request per dust token with a positive amount, in order, and collects exactly `ValidCalls` |
| `TransactionCard.TransactionCardState.FetchCalls` | app/components/TransactionCard.tsx:76-188 | built on the corrected destination of the Findings row (USDC is its Base address); not connected or nothing selected: no calls and the connect message; no dust: no calls and the dust message; otherwise the requests are `Requests`, and either no valid call with its message, or the first three valid calls with the error cleared; price map and destination unchanged |
| `TransactionCard.FetchedCallsBounded` | app/components/TransactionCard.tsx:174-180 | at most three calls, each with a hex-address target and `0x` data |

## Left out

- Network, RPC, JWT signing, the wallet and the notification toast. Each is
  either an input of the model (a fetch outcome, the multicall answers, the
  quote reply, a signature accepted or refused) or is not modelled. The
  request the swap-quote endpoint forwards to the provider is not modelled;
  only the provider's reply is.
- Rounding of `formatUnits` / `parseFloat` and IEEE arithmetic. Amounts and
  prices are exact, and `NaN` and infinite prices do not occur.
- `BigInt(string)` accepts surrounding whitespace, a sign, and `0o` / `0b`
  prefixes. The model accepts only `""`, decimal digits and `0x` / `0X` hex.
  Any other text is modelled as a throw.
- The endpoint's regex test converts a non-string `address` (an array, say)
  to text before matching. The model accepts only strings.
- The text of a `TypeError` raised by the runtime (for example destructuring
  a `null` body) is not modelled. `DustData.NULL_BODY_MESSAGE` is a
  placeholder for the engine's wording.
- JSON payloads are values of `Json.JsValue` with exact reals. Arrays are
  read only where the code reads them.
- The `loading` field of `TokenBalance` is never set by the code and is not
  modelled.
- Concurrency between overlapping refreshes, effects and renders. Each
  operation runs to completion; the hook's refresh is split at its `await`.
- The token-prices endpoint (`app/api/token-prices/route.ts`) is not part of
  this model. The card consumes its reply as `TransactionCard.PricesBody`.
- `Home`, `Skeleton`, the approve transaction (`handleApprove`), the success
  notification, the price-change display and all rendering beyond the two
  filters modelled above.
- `TransactionCard.TransactionCardState.FetchCalls`: models the corrected
  program of the Findings row, where the USDC destination is the Base USDC
  address. As written the USDC destination is `undefined`, so every USDC
  request lacks `toToken`; `TransactionCard.UsdcQuoteRefusedAsWritten`
  states that behaviour separately.
- `TransactionCard.TokenCall`: a negative `value` string throws in the model
  rather than producing a negative bigint, because `BigInt` signs are not
  modelled (see above).

## Findings

| source | as written | input that shows it | evidently intended | confidence | as-written member | corrected member |
|---|---|---|---|---|---|---|
| app/components/TransactionCard.tsx:84 | `USDC_ADDRESS` is imported from `app/constants/tokens.ts`, which does not export it, so the USDC destination is `undefined`. `JSON.stringify` then drops `toToken` and the swap-quote endpoint answers 400 "Missing required params" | destination USDC (the initial choice), any dust token | the Base USDC token address, so that the request passes the parameter guard | not executed | `TransactionCard.UsdcQuoteRefusedAsWritten` | `TransactionCard.DestAddress` |
