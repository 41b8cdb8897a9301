/** The fixed configuration of the RSI monitor (the CONFIG object of script.js). */
module Config {

  /** The symbols whose RSI is tracked, in the order they are initialised. */
  const Symbols: seq<string> := ["BTCUSDT", "ETHUSDT", "ADAUSDT", "SOLUSDT"]

  /** The RSI period: the number of differences in the seed mean and the weight of Wilder's smoothing. */
  const Period: nat := 14

  /** The length of the committed price window (and of the history requested at startup). */
  const Limit: nat := 100

  function Min(a: int, b: int): int {
    if a <= b then a else b
  }
}
