# tokenexporter watcher, modelled in Dafny

tokenexporter polls the balances of wallets on several blockchains and
publishes each balance as a Prometheus gauge. This project models its
watcher (`watcher.go`) in three parts:

- **Loading the configuration** (`LoadConfig`):
  - it dials every declared chain;
  - it indexes each chain's token list by symbol, where a later token wins;
  - it walks the wallets in file order and rejects a tracked chain that is not declared (`UnknownChain`) and a tracked symbol the chain's index does not know (`UnknownToken`);
  - it builds one watch item per (wallet, chain, symbol). Each item gets the wallet's labels with the five reserved labels set over them, and is appended to the chain's list.
- **Resolving one item's balance** (`getTokenBalance` / `getGasBalance`):
  - an item whose token is `""` or the zero address asks for the wallet's native balance;
  - any other item asks its contract's `balanceOf` for the wallet;
  - every failure gives the sentinel -1.
- **One chain's refresh pass**: sets every item of that chain to its resolved balance and touches no other chain's items.

Modules:

- `Config` (config.dfy): the configuration records `Token`, `Wallet` and `Configuration`.
- `Items` (items.dfy):
  - the value part of a watch item (`Entry`);
  - the gauge labels (`MetricLabels`);
  - `EntryFor`, the item built for one tracked symbol.
- `Tokens` (tokens.dfy):
  - the symbol index, with its specification functions `SymbolIndex` and `Index`;
  - the methods that build it, `IndexSymbols` and `BuildIndex`.
- `Plan` (plan.dfy):
  - what `LoadConfig` appends to each chain (`Planned`) and which errors it may report (`Reports`);
  - both are stated without reference to the order in which Go iterates over maps;
  - lemmas give the plan's length, soundness and completeness.
- `Balance` (balance.dfy):
  - the balance dispatch;
  - the node's answers are a `ChainClient` value;
  - a reading is `Sentinel` or `Scaled(raw, decimals)`, and the ghost `Value` gives its exact real number.
- `Watcher` (watcher.dfy):
  - the `Watcher` class, whose `geth` and `items` maps are updated in place;
  - the `WatchItem` class, whose `gauge` field the refresh pass sets;
  - the imperative `LoadConfig`, split into one method per loop;
  - `RefreshChain`.
- `Scenarios` (scenarios.dfy): a one-wallet configuration worked through the model.

Go's iteration over the `Chains`, `Tokens` and `TrackFor` maps visits the keys in an unspecified order. The methods model this as a choice (`:|`) from the keys not yet visited. Every contract holds for every order:

- When several chains cannot be dialled, or one wallet has several faults, `Reports` admits each of them.
- When the load succeeds, what is appended per chain does not depend on the order, because the wallets and each symbol list are walked in file order.
- When it fails, it does. Take a wallet tracking `eth: [USDC]` and `bsc: [BAD]`. `eth` gets the USDC item only if Go visits `eth` before `bsc`. `FailedLoad` therefore names the set of chains the failing wallet finished, whichever they were.

Notes on the code:

- **Decimals.** A token's decimal count is an unchecked `int` in `config.go`, so it can be negative. `Value` then multiplies by 10^-d.
- **No rollback.** A failed `LoadConfig` keeps every client it dialled and every item it appended before the error.
- **Duplicate labels.** A wallet label named like a reserved key is silently overridden. Nothing rejects it.

## Model

| member | source | states |
|---|---|---|
| Tokens.SymbolIndexDomain | watcher.go:49-52 | a symbol is in a chain's index exactly when some token of the chain's list carries it |
| Tokens.LaterTokenWins | watcher.go:50-52 | when several tokens share a symbol, the index holds the last of them in list order |
| Tokens.ResolvesIff | watcher.go:47-54 | the lookup of a symbol under a chain succeeds exactly when the chain has a token list holding that symbol; a declared chain with no token list resolves nothing |
| Tokens.IndexSymbols | watcher.go:49-52 | the loop over one chain's tokens builds exactly `SymbolIndex` of the list |
| Tokens.BuildIndex | watcher.go:47-54 | visiting the chains in any order builds exactly the index of every chain's list |
| Items.MetricLabels | watcher.go:65-73 | the gauge labels are the wallet's label keys plus the five reserved keys; a non-reserved wallet label keeps its value; `symbol`, `name`, `wallet`, `token` and `chain` hold the symbol, wallet name, wallet address, token contract and chain whatever the wallet set |
| Plan.WalletReportsInvalid | watcher.go:56-64 | any error a wallet can report means the wallet does not pass validation |
| Plan.FirstUnresolvedAt | watcher.go:60-64 | the first symbol that does not resolve after a resolving prefix is the `UnknownToken` symbol, and the list then does not resolve |
| Plan.FirstMissResolves | watcher.go:60-64 | the walk over a symbol list stops at the end exactly when every symbol resolves, and otherwise at the first symbol that does not |
| Plan.VisitPlanPrefix | watcher.go:56-87 | what a wallet appends to a chain before stopping is a prefix of its items there, and all of them when the chain's symbols all resolve |
| Plan.SymbolPlanPrefix | watcher.go:60-87 | the items appended for a prefix of a symbol list are a prefix of those of the whole list |
| Plan.PlanPrefix | watcher.go:55-89 | the items appended for the first wallets are a prefix of those of all wallets |
| Plan.SymbolPlanLength | watcher.go:60-87 | when every symbol resolves, each symbol yields exactly one item |
| Plan.PlanForCount | watcher.go:55-89 | when every wallet is valid, a chain gets as many items as the wallets track symbols on it |
| Plan.PlannedCount | watcher.go:55-89 | in a valid configuration each (wallet, tracked chain, symbol) triple yields exactly one item on that chain |
| Plan.SymbolPlanSound | watcher.go:60-86 | every item appended for a symbol list is the item of one symbol of the list that resolves, built from its indexed token |
| Plan.PlannedSound | watcher.go:55-86 | every item appended to a chain is the item of a wallet tracking that chain and a symbol of its list, with token contract, wallet address, decimals and labels from `EntryFor` |
| Plan.SymbolPlanComplete | watcher.go:60-86 | every resolving symbol of the list has its item among those appended |
| Plan.PlannedComplete | watcher.go:55-86 | in a valid configuration every tracked symbol of every wallet resolves and its item is appended to its chain |
| Balance.GetGasBalance | watcher.go:169-178 | the reading is the sentinel exactly when the native balance call fails, and otherwise the returned balance with the item's decimals |
| Balance.GetTokenBalance | watcher.go:150-167 | a native item (`""` or the zero address) reads as `getGasBalance`; the reading is the sentinel exactly when the one call the item needs fails (binding or `balanceOf` for a token, `BalanceAt` for a native item); otherwise it is that call's balance with the item's decimals |
| Balance.NativeIgnoresContracts | watcher.go:151-154 | a native item's reading depends only on the wallet's native balance |
| Balance.ContractIgnoresNative | watcher.go:156-166 | a token item's reading depends only on its own contract's binding and `balanceOf` answer for its own wallet |
| Balance.Value | watcher.go:180-186 | a successful reading is never negative, and the sentinel is -1, so the two never coincide |
| Balance.SixDecimalExample | watcher.go:180-186 | 5000000 base units with 6 decimals read as 5 |
| Balance.EighteenDecimalExample | watcher.go:180-186 | 1500000000000000000 base units with 18 decimals read as 1.5 |
| Watcher.WatchItem.constructor | watcher.go:79-85 | a new item holds the given contract, wallet, decimals and labels, and its gauge reads 0 until the first refresh |
| Watcher.Watcher.AddItem | watcher.go:65-86 | the item built from the wallet, chain, symbol and token is fresh and is appended to the chain's list, which is created when missing; no other list changes and no item is listed twice |
| Watcher.Watcher.AddSymbols | watcher.go:60-87 | succeeds exactly when every symbol resolves; otherwise reports `UnknownToken` for the first symbol that does not, with this chain and wallet; in both cases it appends exactly the items of the symbols before the first one that does not resolve (all of them on success) |
| Watcher.Watcher.DialChains | watcher.go:42-46 | succeeds exactly when every endpoint can be dialled, and then keeps one client per declared chain; a failure names a declared chain whose endpoint cannot be dialled; in every case the clients are the old ones plus exactly one per chain dialled so far, each declared and dialable, so a failure keeps the clients dialled before it |
| Watcher.Watcher.AddChain | watcher.go:56-87 | rejects an undeclared chain with `UnknownChain` and appends nothing; otherwise appends the chain's symbols; on failure the error names this chain, the wallet is invalid, the error is one the wallet can report, and every chain holds exactly what it held plus the wallet's items for the finished chains and, on this chain, the items of the resolving symbols before the bad one |
| Watcher.Watcher.AddWallet | watcher.go:56-88 | succeeds exactly when the wallet is valid; on success every tracked chain got the wallet's items; on failure the error is one of the wallet's faults, and there is a set of finished chains (tracked, declared, and resolving every tracked symbol), not containing the error's chain, such that every chain holds exactly its old items plus the wallet's items if finished, or the resolving prefix if it is the error's chain, and nothing new otherwise |
| Watcher.Watcher.AddNext | watcher.go:55-89 | one wallet step: on success the first i+1 wallets are valid and their items appended; on failure the configuration is invalid, the error is a fault of the first invalid wallet, and the lists are exactly those `FailedLoad` describes |
| Watcher.Watcher.AddWallets | watcher.go:55-89 | succeeds exactly when the configuration is valid, and then appends to every chain exactly its planned items; a failure is a fault of the first invalid wallet, and the lists are exactly those `FailedLoad` describes: all the items of the earlier wallets stay, then the failing wallet's items on the chains it finished (each declared and fully resolving) and the resolving prefix on the error's chain |
| Watcher.Watcher.LoadConfig | watcher.go:41-91 | succeeds exactly when every endpoint can be dialled and every wallet is valid; a failure is one `Reports` admits; on success every chain's list is its old list plus the planned items; a wallet failure leaves the lists `FailedLoad` describes, with nothing rolled back; nothing is appended when dialling fails, and the clients dialled before the failure stay; in every case lists only grow and what was appended is a prefix of the plan |
| Watcher.StopsWalletWithin | watcher.go:56-87 | what a wallet leaves on each chain when it stops is a prefix of that wallet's items there |
| Watcher.FailedLoadKeeps | watcher.go:55-89 | after a failed load some wallet is the first invalid one and reports the error, and every chain still holds its old items followed by all the items of the wallets before it |
| Watcher.Watcher.RefreshChain | watcher.go:122-127 | every item of the refreshed chain reads its resolved balance afterwards, and every item of every other chain keeps its gauge |
| Scenarios.SampleLoads | watcher.go:41-91 | a one-wallet configuration tracking USDC and the native asset on `eth` is valid and yields exactly those two items in list order |
| Scenarios.SampleOtherChain | watcher.go:55-89 | that configuration yields no item on any other chain |
| Scenarios.SampleUsdcItem | watcher.go:65-85 | its USDC item carries the token's contract and decimals, keeps the wallet's own label and has the wallet's `chain` label overridden |
| Scenarios.SampleReadings | watcher.go:150-178 | with a node answering 5000000 for USDC and failing the native call, the USDC item reads 5 and the native item reads the sentinel |

## Left out

- Dialling (`addGeth`, `ethclient.Dial`) is modelled only as a set of endpoints that cannot be dialled. The client handle becomes the endpoint string kept in `geth`.
- The RPC calls (`BalanceAt`, `NewMainCaller`, `BalanceOf`) are foreign code. A `ChainClient` value gives their answers as inputs, and `common.HexToAddress` is folded into them.
- `RefreshChain` reads one `ChainClient` for the whole pass, so answers that change between two calls of the same pass are not modelled.
- `toFloat` is floating point (`big.Float`, `math.Pow10`, `Float64`). A reading keeps the raw balance and the decimals, and `Value` gives the exact quotient. The rounding to a float64 is not modelled.
- Prometheus gauge creation, `registry.Register` with its duplicate-metric error, and the `/metrics` HTTP endpoint are library behaviour and I/O. An item's gauge is its `gauge` field.
- `Start`'s goroutines, its endless loop and the ten-minute sleep are concurrency and timing. Only one chain's sequential pass is modelled.
- `Stop` does nothing.
- The log lines and the wording of the error messages are not modelled. `UnknownChain` and `UnknownToken` carry the chain, symbol and wallet that the Go messages print.
- `DialFailed(chain)` names the chain whose endpoint failed. Go returns the raw `ethclient.Dial` error (watcher.go:33-35, 43-44), which does not name a chain. The chain name is a modelling addition.
- Balance.Value: gives the exact quotient raw / 10^d. `toFloat` divides by `math.Pow10(d)`, which is an exact power of ten only for d from 0 to 22. For other d from -323 to 308 it is already rounded, so the result is rounded twice, and the model does not capture either rounding. Outside that range `math.Pow10` gives 0 or +Inf. With more than 308 decimals, `toFloat` gives 0. With fewer than -323 decimals, a positive balance gives +Inf, and a zero balance makes `big.Float.Quo` divide 0 by 0, which panics (`ErrNaN`) and ends the process. None of this is modelled.
- `ReadConfig` (YAML parsing and the decimal default of 18) and main.go are not part of this model. The configuration arrives already parsed.
