/** The configuration records the watcher is loaded from (config.go). Reading and
    unmarshalling the file is outside the model; only the records are kept. */
module Config {

  /** One token of a chain: its contract address (or the native-asset sentinel),
      its symbol and its number of decimal places. Loading replaces a zero
      count, whether omitted or written as 0, with 18. */
  datatype Token = Token(contract: string, symbol: string, decimal: int)

  /** A watched account: display name, address, the symbols to track per chain
      and free-form labels. A missing `track_for` or `labels` is an empty map. */
  datatype Wallet = Wallet(
    name: string,
    address: string,
    trackFor: map<string, seq<string>>,
    labels: map<string, string>)

  /** The whole file: chain name to endpoint URL, chain name to its token list,
      and the wallets in file order. */
  datatype Configuration = Configuration(
    chains: map<string, string>,
    tokens: map<string, seq<Token>>,
    wallets: seq<Wallet>)
}
