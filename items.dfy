/** The value part of a watch item: what `LoadConfig` stores in a `watchItem`
    and the constant labels of the gauge it creates for it. */
module Items {
  import opened Config

  /** Label keys the watcher always sets itself, whatever the wallet's labels say. */
  const ReservedKeys: set<string> := {"symbol", "name", "wallet", "token", "chain"}

  /** Token contract, wallet address, decimals and gauge labels of one item. */
  datatype Entry = Entry(token: string, wallet: string, decimals: int, labels: map<string, string>)

  /** The gauge labels of the item for `symbol` on `chain`: every label of the
      wallet, with the five reserved keys overriding whatever the wallet set. */
  function MetricLabels(w: Wallet, chain: string, symbol: string, contract: string): (labels: map<string, string>)
    ensures labels.Keys == w.labels.Keys + ReservedKeys
    ensures forall k :: k in w.labels && k !in ReservedKeys ==> labels[k] == w.labels[k]
    ensures labels["symbol"] == symbol && labels["name"] == w.name && labels["wallet"] == w.address
    ensures labels["token"] == contract && labels["chain"] == chain
  {
    w.labels["symbol" := symbol]["name" := w.name]["wallet" := w.address]["token" := contract]["chain" := chain]
  }

  /** The item built for wallet `w`, chain `chain` and tracked `symbol`
      resolved to token `t`. */
  function EntryFor(w: Wallet, chain: string, symbol: string, t: Token): Entry
  {
    Entry(t.contract, w.address, t.decimal, MetricLabels(w, chain, symbol, t.contract))
  }
}
