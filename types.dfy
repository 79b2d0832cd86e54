/**
 * The records the dust pipeline passes around. Balances are smallest-unit
 * amounts (see module Amounts); the allowance stays the decimal text the
 * dust-data route writes.
 */
module Types {
  import opened Wrappers

  /** One entry of the token registry. */
  datatype TokenInfo = TokenInfo(name: string, address: string, symbol: string, coinGeckoId: string, decimals: nat)

  /** A dust record as the dust-data route returns it and the balances hook stores it. */
  datatype TokenBalance = TokenBalance(
    name: string,
    symbol: string,
    address: string,
    balance: nat,
    decimals: nat,
    allowance: string,
    usdValue: Option<real>,
    coinGeckoId: string,
    error: Option<string>)

  /** A selected token as the dust list hands it to the transaction card. */
  datatype SelectedTokenInfo = SelectedTokenInfo(
    address: string,
    symbol: string,
    decimals: nat,
    balance: nat,
    coinGeckoId: Option<string>,
    allowance: string)

  /** One price of the price endpoint's answer (`price` absent when the feed gave none). */
  datatype TokenPrice = TokenPrice(id: string, price: Option<real>)

  /** A call handed to the transaction layer; `value` absent means "no value field". */
  datatype TransactionCall = TransactionCall(to: string, data: string, value: Option<nat>)

  /** The wallet's account address is truthy (`!address` is false): present and non-empty. */
  predicate Connected(address: Option<string>)
  {
    address.Some? && address.value != ""
  }
}
