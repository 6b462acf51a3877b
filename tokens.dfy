/** The token table of the front end (`TOKENS`): a fixed list of ERC-20 style tokens. */
module Tokens {

  /** A listed token; its logo URL is presentation only and is not kept. */
  datatype Token = Token(symbol: string, name: string, address: string, decimals: nat)

  const TOKENS: seq<Token> := [
    Token("ETH", "Ethereum", "0xEeeeeEeeeEeEeeEeEeEeeEEEeeeeEeeeeeeeEEeE", 18),
    Token("USDT", "Tether USD", "0xdAC17F958D2ee523a2206206994597C13D831ec7", 6),
    Token("USDC", "USD Coin", "0xA0b86991c6218b36c1d19D4a2e9Eb0cE3606eB48", 6),
    Token("DAI", "Dai Stablecoin", "0x6B175474E89094C44Da98b954EedeAC495271d0F", 18),
    Token("WBTC", "Wrapped Bitcoin", "0x2260FAC5E5542a773Aa44fBCfeDf7C193bc2C599", 8),
    Token("UNI", "Uniswap", "0x1f9840a85d5aF5bf1D1762F925BDADdC4201F984", 18),
    Token("LINK", "Chainlink", "0x514910771AF9Ca656af840dff83E8264EcF986CA", 18)
  ]

  /** No two listed tokens share an address, so an address names at most one entry. */
  lemma ListedAddressesAreDistinct()
    ensures |TOKENS| == 7
    ensures forall i, j | 0 <= i < j < |TOKENS| :: TOKENS[i].address != TOKENS[j].address
  {
    forall i, j | 0 <= i < j < |TOKENS| ensures TOKENS[i].address != TOKENS[j].address {
      assert TOKENS[i].address[2] != TOKENS[j].address[2] || TOKENS[i].address[3] != TOKENS[j].address[3];
    }
  }
}
