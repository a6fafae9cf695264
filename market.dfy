/** The records the dashboard reads from the market and DeFi feeds. */
module Market {
  import opened Wrappers

  /**
   * One listed coin of the market feed. `sparkline` is the optional
   * `sparkline_in_7d.price` array of the last seven days' prices.
   */
  datatype Coin = Coin(id: string, name: string, symbol: string, sparkline: Option<seq<real>>)

  /** One DeFi protocol: its name, chain, total value locked and one-day change. */
  datatype Protocol = Protocol(name: string, chain: string, tvl: real, change1d: real)
}
