/** The token registry and the fixed addresses of the dust cleaner (Base network). */
module Tokens {
  import opened Types

  const PERMIT2_ADDRESS: string := "0x000000000022D473030F116dDEE9F6B43aC78BA3"
  const WETH_ADDRESS: string := "0x4200000000000000000000000000000000000006"
  const SLIPPAGE_TOLERANCE_BPS: nat := 50

  /** The registered tokens, in registry order. */
  const TOKENS: seq<TokenInfo> := [
    TokenInfo("Build", "0x3c281a39944a2319aa653d81cfd93ca10983d234", "BUILD", "build-2", 18),
    TokenInfo("Apu", "0x7a2c5e7788e55ec0a7ba4aeec5b3da322718fb5e", "APU", "apu-2", 18),
    TokenInfo("Based", "0x07d15798a67253d76cea61f0ea6f57aedc59dffb", "BASED", "based-2", 18),
    TokenInfo("Vain", "0x6c7ebb64e258f5712eeec83ceaf41c3dcbb534b1", "VAIN", "vainguard", 18),
    TokenInfo("Nogs", "0x13741c5df9ab03e7aa9fb3bf1f714551dd5a5f8a", "NOGS", "noggles", 18)
  ]
}
