/** The watcher's state and the operations that change it (watcher.go):
    loading the configuration into watch items and one chain's refresh pass. */
module Watcher {
  import opened Config
  import opened Items
  import opened Tokens
  import opened Plan
  import opened Balance

  /** A `watchItem`: fixed token, wallet and decimals, the constant labels of
      its gauge, and the gauge's current value. */
  class WatchItem {
    const token: string
    const wallet: string
    const decimals: int
    const labels: map<string, string>
    var gauge: Reading

    /** A new item; its gauge reads 0 until the first refresh. */
    constructor (token: string, wallet: string, decimals: int, labels: map<string, string>)
      ensures Fields() == Entry(token, wallet, decimals, labels)
      ensures gauge == Scaled(0, 0)
    {
      this.token := token;
      this.wallet := wallet;
      this.decimals := decimals;
      this.labels := labels;
      this.gauge := Scaled(0, 0);
    }

    function Fields(): Entry
    {
      Entry(token, wallet, decimals, labels)
    }
  }

  /** The fields of a list of items, in order. */
  function Entries(items: seq<WatchItem>): seq<Entry>
  {
    if items == [] then [] else Entries(items[..|items| - 1]) + [items[|items| - 1].Fields()]
  }

  /** `items[chain]` in Go: a missing chain reads as the empty list. */
  function Lookup(items: map<string, seq<WatchItem>>, chain: string): seq<WatchItem>
  {
    if chain in items then items[chain] else []
  }

  class Watcher {
    /** Chain name to the endpoint of its dialled client. */
    var geth: map<string, string>
    /** Chain name to the items refreshed on that chain. */
    var items: map<string, seq<WatchItem>>

    /** Every chain with items has a client, and no item is listed twice. */
    ghost predicate Valid()
      reads this
    {
      && items.Keys <= geth.Keys
      && forall c, d, i, j ::
           c in items && d in items && 0 <= i < |items[c]| && 0 <= j < |items[d]| && items[c][i] == items[d][j]
           ==> c == d && i == j
    }

    constructor ()
      ensures Valid() && geth == map[] && items == map[]
    {
      geth := map[];
      items := map[];
    }

    /** Builds the item of wallet `w` for `symbol` resolved to `token` on
        `chain`, with the wallet's labels copied and the reserved labels set
        over them, and appends it to `chain`'s list (created when missing). */
    method AddItem(w: Wallet, chain: string, symbol: string, token: Token) returns (item: WatchItem)
      requires Valid() && chain in geth
      modifies this`items
      ensures Valid() && fresh(item)
      ensures item.Fields() == EntryFor(w, chain, symbol, token)
      ensures items == old(items)[chain := Lookup(old(items), chain) + [item]]
    {
      var labels := w.labels;
      labels := labels["symbol" := symbol];
      labels := labels["name" := w.name];
      labels := labels["wallet" := w.address];
      labels := labels["token" := token.contract];
      labels := labels["chain" := chain];
      item := new WatchItem(token.contract, w.address, token.decimal, labels);
      assert forall d, j :: d in items && 0 <= j < |items[d]| ==> items[d][j] != item;
      items := items[chain := Lookup(items, chain) + [item]];
    }

    /** Appends the items for `symbols`, tracked by `w` on `chain`, in list
        order; stops at the first symbol the chain's index does not know. */
    method AddSymbols(w: Wallet, chain: string, symbols: seq<string>, index: map<string, map<string, Token>>)
      returns (r: Outcome, ghost added: seq<WatchItem>)
      requires Valid() && chain in geth
      modifies this`items
      ensures Valid()
      ensures r.Loaded? <==> AllResolve(index, chain, symbols)
      ensures r.Failed? ==> && FirstMiss(index, chain, symbols) < |symbols|
                            && r.error == UnknownToken(symbols[FirstMiss(index, chain, symbols)], chain, w.address)
                            && FirstUnresolved(index, chain, symbols, r.error.symbol)
      ensures items == Appended(old(items), chain, added)
      ensures Entries(added) == SymbolPlan(w, chain, index, symbols[..FirstMiss(index, chain, symbols)])
      ensures r.Loaded? ==> Entries(added) == SymbolPlan(w, chain, index, symbols)
    {
      added := [];
      for j := 0 to |symbols|
        invariant Valid()
        invariant AllResolve(index, chain, symbols[..j])
        invariant items == Appended(old(items), chain, added)
        invariant Entries(added) == SymbolPlan(w, chain, index, symbols[..j])
      {
        var symbol := symbols[j];
        if !(chain in index && symbol in index[chain]) {
          FirstUnresolvedAt(index, chain, symbols, j);
          FirstMissAt(index, chain, symbols, j);
          return Failed(UnknownToken(symbol, chain, w.address)), added;
        }
        var token := index[chain][symbol];
        AllResolveStep(index, chain, symbols, j);
        SymbolPlanStep(w, chain, index, symbols, j);
        AppendedFacts(old(items), chain, added);
        var item := AddItem(w, chain, symbol, token);
        AppendedStep(old(items), chain, added, item);
        EntriesAppend(added, [item]);
        added := added + [item];
      }
      assert symbols[..|symbols|] == symbols;
      FirstMissAt(index, chain, symbols, |symbols|);
      return Loaded, added;
    }

    /** Dials every declared chain, in no particular order, and keeps each
        client; stops at the first endpoint that cannot be dialled, keeping
        the clients dialled before it. */
    method DialChains(config: Configuration, unreachable: set<string>) returns (r: Outcome, ghost dialled: set<string>)
      requires Valid()
      modifies this`geth
      ensures Valid()
      ensures r.Loaded? <==> AllDialable(config, unreachable)
      ensures r.Failed? ==> r.error.DialFailed? && Reports(config, unreachable, r.error) && r.error.chain !in dialled
      ensures Dialled(old(geth), geth, config, unreachable, dialled)
      ensures r.Loaded? ==> dialled == config.chains.Keys
      ensures r.Loaded? ==> geth == old(geth) + config.chains
      ensures old(geth).Keys <= geth.Keys
      ensures forall n :: n in geth ==> (n in config.chains && geth[n] == config.chains[n]) || (n in old(geth) && geth[n] == old(geth)[n])
    {
      dialled := {};
      var pending := config.chains.Keys;
      while pending != {}
        invariant pending !! dialled && pending + dialled == config.chains.Keys
        invariant Valid()
        invariant forall c :: c in dialled ==> config.chains[c] !in unreachable
        invariant geth == old(geth) + (map c | c in dialled :: config.chains[c])
        decreases pending
      {
        var name :| name in pending;
        var url := config.chains[name];
        if url in unreachable {
          return Failed(DialFailed(name)), dialled;
        }
        geth := geth[name := url];
        pending := pending - {name};
        dialled := dialled + {name};
      }
      assert (map c | c in dialled :: config.chains[c]) == config.chains;
      r := Loaded;
    }

    /** `LoadConfig`: dials the chains, indexes the tokens, then validates the
        wallets in file order and appends their items. On success every
        (wallet, tracked chain, symbol) triple has added its item; on failure
        the items appended before the error stay in place. */
    method LoadConfig(config: Configuration, unreachable: set<string>) returns (r: Outcome, ghost dialled: set<string>)
      requires Valid()
      modifies this
      ensures Valid()
      ensures r.Loaded? <==> AllDialable(config, unreachable) && ConfigValid(config)
      ensures r.Failed? ==> Reports(config, unreachable, r.error)
      ensures Dialled(old(geth), geth, config, unreachable, dialled)
      ensures r.Failed? && r.error.DialFailed? ==> r.error.chain !in dialled
      ensures AllDialable(config, unreachable) ==> geth == old(geth) + config.chains
      ensures !AllDialable(config, unreachable) ==> items == old(items)
      ensures old(geth).Keys <= geth.Keys
      ensures forall n :: n in geth ==> (n in config.chains && geth[n] == config.chains[n]) || (n in old(geth) && geth[n] == old(geth)[n])
      ensures Grows(old(items), items)
      ensures r.Loaded? ==> AddsPlan(old(items), items, config)
      ensures r.Failed? && AllDialable(config, unreachable) ==> FailedLoad(old(items), items, config, r.error)
      ensures WithinPlan(old(items), items, config)
    {
      r, dialled := DialChains(config, unreachable);
      if r.Failed? {
        AppendedGrows(items, "", []);
        WithinPlanNothing(items, config);
        return;
      }
      var index := BuildIndex(config.tokens);
      r := AddWallets(config, index);
    }

    /** The wallet loop of `LoadConfig`: validates the wallets in file order
        and appends their items, stopping at the first wallet that fails. */
    method AddWallets(config: Configuration, index: map<string, map<string, Token>>) returns (r: Outcome)
      requires Valid() && config.chains.Keys <= geth.Keys
      requires index == Index(config.tokens)
      modifies this`items
      ensures Valid()
      ensures r.Loaded? <==> ConfigValid(config)
      ensures r.Failed? ==> WalletFault(config, r.error)
      ensures Grows(old(items), items)
      ensures r.Loaded? ==> AddsPlan(old(items), items, config)
      ensures r.Failed? ==> FailedLoad(old(items), items, config, r.error)
      ensures WithinPlan(old(items), items, config)
    {
      ghost var m0 := items;
      AppendedGrows(items, "", []);
      var i := 0;
      while i < |config.wallets|
        invariant i <= |config.wallets|
        invariant Valid()
        invariant EarlierResolve(config.wallets, config.chains, index, i)
        invariant Grows(m0, items)
        invariant AddsWallets(m0, items, config.wallets, config.chains, index, i)
      {
        r := AddNext(config, index, i, m0);
        if r.Failed? {
          return;
        }
        i := i + 1;
      }
      AddsWalletsWithin(m0, items, config);
      r := Loaded;
    }

    /** One iteration of the wallet loop: wallet `i` is validated and its
        items appended after those of the wallets before it. */
    method AddNext(config: Configuration, index: map<string, map<string, Token>>, i: nat, ghost m0: map<string, seq<WatchItem>>)
      returns (r: Outcome)
      requires i < |config.wallets|
      requires Valid() && config.chains.Keys <= geth.Keys
      requires index == Index(config.tokens)
      requires EarlierResolve(config.wallets, config.chains, index, i)
      requires Grows(m0, items) && AddsWallets(m0, items, config.wallets, config.chains, index, i)
      modifies this`items
      ensures Valid() && Grows(m0, items)
      ensures r.Loaded? ==> EarlierResolve(config.wallets, config.chains, index, i + 1)
      ensures r.Loaded? ==> AddsWallets(m0, items, config.wallets, config.chains, index, i + 1)
      ensures r.Failed? ==> WithinPlan(m0, items, config) && WalletFault(config, r.error) && !ConfigValid(config)
      ensures r.Failed? ==> FailedLoad(m0, items, config, r.error)
    {
      ghost var before := items;
      ghost var done;
      r, done := AddWallet(config.wallets[i], config.chains, index);
      GrowsTrans(m0, before, items);
      if r.Failed? {
        AddsWalletsStopped(m0, before, items, config, i, r.error);
        AddsWalletsFailed(m0, before, items, config, i, done, r.error);
      } else {
        AddsWalletsStep(m0, before, items, config.wallets, config.chains, index, i);
      }
    }

    /** One chain's refresh pass (the body of the per-chain goroutine in
        `Start`): every item of `chain`, in list order, has its gauge set to
        the balance resolved from the node's answers. */
    method RefreshChain(chain: string, node: ChainClient)
      requires Valid() && chain in items
      modifies items[chain]
      ensures forall k :: 0 <= k < |items[chain]| ==> items[chain][k].gauge == GetTokenBalance(node, items[chain][k].Fields())
      ensures forall c, k :: c in items && c != chain && 0 <= k < |items[c]| ==> items[c][k].gauge == old(items[c][k].gauge)
    {
      var list := items[chain];
      for k := 0 to |list|
        invariant forall m :: 0 <= m < k ==> list[m].gauge == GetTokenBalance(node, list[m].Fields())
      {
        list[k].gauge := GetTokenBalance(node, list[k].Fields());
      }
      forall c, k | c in items && c != chain && 0 <= k < |items[c]| ensures items[c][k] !in list {
        assert forall m :: 0 <= m < |list| ==> list[m] != items[c][k];
      }
    }

    /** One step of the walk over a wallet's `track_for`: rejects an
        undeclared chain, otherwise appends the items of its symbols. `m0` is
        the item lists before the wallet, `done` the chains already handled. */
    method AddChain(w: Wallet, chain: string, chains: map<string, string>, index: map<string, map<string, Token>>,
                    ghost m0: map<string, seq<WatchItem>>, ghost done: set<string>)
      returns (r: Outcome)
      requires Valid() && chains.Keys <= geth.Keys
      requires chain in w.trackFor && chain !in done
      requires AddsWallet(m0, items, w, chains, index, done)
      modifies this`items
      ensures Valid() && Grows(old(items), items)
      ensures r.Loaded? ==> chain in chains && AllResolve(index, chain, w.trackFor[chain])
      ensures r.Loaded? ==> AddsWallet(m0, items, w, chains, index, done + {chain})
      ensures r.Failed? ==> r.error.chain == chain && WalletReports(w, chains, index, r.error) && !WalletResolves(w, chains, index)
      ensures r.Failed? ==> StopsWallet(m0, items, w, chains, index, done, chain)
      ensures r.Failed? && r.error.UnknownChain? ==> items == old(items)
    {
      if chain !in chains {
        AppendedGrows(items, chain, []);
        AddsWalletStopped(m0, items, w, chains, index, done, chain, []);
        return Failed(UnknownChain(chain, w.address));
      }
      ghost var before := items;
      ghost var added;
      r, added := AddSymbols(w, chain, w.trackFor[chain], index);
      AppendedGrows(before, chain, added);
      if r.Failed? {
        WalletReportsInvalid(w, chains, index, r.error);
        AddsWalletStopped(m0, before, w, chains, index, done, chain, added);
      } else {
        AddsWalletStep(m0, before, w, chains, index, done, chain, added);
      }
    }

    /** Validates one wallet and appends its items: every tracked chain must
        be declared and every tracked symbol must resolve. Chains are visited
        in no particular order, as Go's map iteration visits them. */
    method AddWallet(w: Wallet, chains: map<string, string>, index: map<string, map<string, Token>>)
      returns (r: Outcome, ghost done: set<string>)
      requires Valid() && chains.Keys <= geth.Keys
      modifies this`items
      ensures Valid()
      ensures r.Loaded? <==> WalletResolves(w, chains, index)
      ensures r.Failed? ==> WalletReports(w, chains, index, r.error)
      ensures Grows(old(items), items)
      ensures r.Loaded? ==> AddsWallet(old(items), items, w, chains, index, w.trackFor.Keys)
      ensures Finished(w, chains, index, done)
      ensures r.Failed? ==> r.error.chain !in done && StopsWallet(old(items), items, w, chains, index, done, r.error.chain)
      ensures WithinWallet(old(items), items, w, chains, index)
    {
      done := {};
      var pending := w.trackFor.Keys;
      while pending != {}
        invariant pending !! done && pending + done == w.trackFor.Keys
        invariant Valid()
        invariant forall c :: c in done ==> c in chains && AllResolve(index, c, w.trackFor[c])
        invariant Grows(old(items), items)
        invariant AddsWallet(old(items), items, w, chains, index, done)
        decreases pending
      {
        var chain :| chain in pending;
        ghost var before := items;
        r := AddChain(w, chain, chains, index, old(items), done);
        GrowsTrans(old(items), before, items);
        if r.Failed? {
          StopsWalletWithin(old(items), items, w, chains, index, done, chain);
          return;
        }
        pending := pending - {chain};
        done := done + {chain};
      }
      AddsWalletWithin(old(items), items, w, chains, index, done);
      assert WalletResolves(w, chains, index) by {
        assert done == w.trackFor.Keys;
      }
      r := Loaded;
    }
  }

  /** `g1` is `g0` plus one client for each chain in `dialled`: declared
      chains whose endpoints can be dialled. */
  ghost predicate Dialled(g0: map<string, string>, g1: map<string, string>, config: Configuration,
                          unreachable: set<string>, dialled: set<string>)
  {
    && dialled <= config.chains.Keys
    && (forall c :: c in dialled ==> config.chains[c] !in unreachable)
    && g1 == g0 + (map c | c in dialled :: config.chains[c])
  }

  /** `m` after `added` was appended to `chain`; the list is only created
      when something is appended. */
  function Appended(m: map<string, seq<WatchItem>>, chain: string, added: seq<WatchItem>): map<string, seq<WatchItem>>
  {
    if added == [] then m else m[chain := Lookup(m, chain) + added]
  }

  lemma AppendedFacts(m: map<string, seq<WatchItem>>, chain: string, added: seq<WatchItem>)
    ensures Lookup(Appended(m, chain, added), chain) == Lookup(m, chain) + added
    ensures forall d :: d != chain ==> Lookup(Appended(m, chain, added), d) == Lookup(m, d)
    ensures forall d :: d in Appended(m, chain, added) <==> d in m || (d == chain && added != [])
  {
  }

  lemma AppendedStep(m: map<string, seq<WatchItem>>, chain: string, added: seq<WatchItem>, item: WatchItem)
    ensures Appended(m, chain, added)[chain := Lookup(Appended(m, chain, added), chain) + [item]] == Appended(m, chain, added + [item])
  {
    AppendedFacts(m, chain, added);
    assert Lookup(m, chain) + added + [item] == Lookup(m, chain) + (added + [item]);
  }

  /** Item lists only grow: no item is removed or replaced, and a chain gets
      a list only when something is appended to it. */
  ghost predicate Grows(m0: map<string, seq<WatchItem>>, m1: map<string, seq<WatchItem>>)
  {
    forall c :: Lookup(m0, c) <= Lookup(m1, c) && (c in m1 <==> c in m0 || Lookup(m1, c) != [])
  }

  /** Per chain, `m1` is `m0` with the items of wallet `w` appended for the
      chains in `done`. */
  ghost predicate AddsWallet(m0: map<string, seq<WatchItem>>, m1: map<string, seq<WatchItem>>, w: Wallet,
                             chains: map<string, string>, index: map<string, map<string, Token>>, done: set<string>)
  {
    forall c :: Entries(Lookup(m1, c)) == Entries(Lookup(m0, c)) + (if c in done then WalletPlan(w, chains, index, c) else [])
  }

  /** Per chain, what was appended is a prefix of the items of wallet `w`. */
  ghost predicate WithinWallet(m0: map<string, seq<WatchItem>>, m1: map<string, seq<WatchItem>>, w: Wallet,
                               chains: map<string, string>, index: map<string, map<string, Token>>)
  {
    forall c :: Entries(Lookup(m1, c)) <= Entries(Lookup(m0, c)) + WalletPlan(w, chains, index, c)
  }

  lemma AddsWalletWithin(m0: map<string, seq<WatchItem>>, m1: map<string, seq<WatchItem>>, w: Wallet,
                         chains: map<string, string>, index: map<string, map<string, Token>>, done: set<string>)
    requires AddsWallet(m0, m1, w, chains, index, done)
    ensures WithinWallet(m0, m1, w, chains, index)
  {
  }

  lemma AddsWalletStep(m0: map<string, seq<WatchItem>>, mid: map<string, seq<WatchItem>>, w: Wallet,
                       chains: map<string, string>, index: map<string, map<string, Token>>, done: set<string>,
                       chain: string, added: seq<WatchItem>)
    requires AddsWallet(m0, mid, w, chains, index, done)
    requires chain !in done && chain in w.trackFor && chain in chains
    requires Entries(added) == SymbolPlan(w, chain, index, w.trackFor[chain])
    ensures AddsWallet(m0, Appended(mid, chain, added), w, chains, index, done + {chain})
  {
    var m1 := Appended(mid, chain, added);
    AppendedFacts(mid, chain, added);
    EntriesAppend(Lookup(mid, chain), added);
    forall c ensures Entries(Lookup(m1, c)) == Entries(Lookup(m0, c)) + (if c in done + {chain} then WalletPlan(w, chains, index, c) else []) {
      if c == chain {
        assert Entries(Lookup(mid, c)) == Entries(Lookup(m0, c));
      }
    }
  }

  /** The chains in `done` are tracked by `w`, declared, and resolve every
      symbol `w` tracks on them: the chains its walk got through. */
  ghost predicate Finished(w: Wallet, chains: map<string, string>, index: map<string, map<string, Token>>, done: set<string>)
  {
    forall c :: c in done ==> c in w.trackFor && c in chains && AllResolve(index, c, w.trackFor[c])
  }

  /** What wallet `w` has appended to chain `c` when its walk stopped on
      `chain` after finishing the chains in `done`. */
  ghost function StopTail(w: Wallet, chains: map<string, string>, index: map<string, map<string, Token>>,
                          done: set<string>, chain: string, c: string): seq<Entry>
  {
    if c in done then WalletPlan(w, chains, index, c) else if c == chain then VisitPlan(w, chains, index, c) else []
  }

  /** Per chain, `m1` is `m0` with the items of wallet `w` appended for the
      chains in `done` and, for `chain`, where the walk stopped, the items of
      the symbols before the first that does not resolve. */
  ghost predicate StopsWallet(m0: map<string, seq<WatchItem>>, m1: map<string, seq<WatchItem>>, w: Wallet,
                              chains: map<string, string>, index: map<string, map<string, Token>>, done: set<string>, chain: string)
  {
    forall c :: Entries(Lookup(m1, c)) == Entries(Lookup(m0, c)) + StopTail(w, chains, index, done, chain, c)
  }

  lemma AddsWalletStopped(m0: map<string, seq<WatchItem>>, mid: map<string, seq<WatchItem>>, w: Wallet,
                          chains: map<string, string>, index: map<string, map<string, Token>>, done: set<string>,
                          chain: string, added: seq<WatchItem>)
    requires AddsWallet(m0, mid, w, chains, index, done)
    requires chain !in done
    requires Entries(added) == VisitPlan(w, chains, index, chain)
    ensures StopsWallet(m0, Appended(mid, chain, added), w, chains, index, done, chain)
  {
    var m1 := Appended(mid, chain, added);
    AppendedFacts(mid, chain, added);
    EntriesAppend(Lookup(mid, chain), added);
    forall c ensures Entries(Lookup(m1, c)) == Entries(Lookup(m0, c)) + StopTail(w, chains, index, done, chain, c) {
      if c == chain {
        assert Entries(Lookup(mid, c)) == Entries(Lookup(m0, c));
      }
    }
  }

  lemma StopsWalletWithin(m0: map<string, seq<WatchItem>>, m1: map<string, seq<WatchItem>>, w: Wallet,
                          chains: map<string, string>, index: map<string, map<string, Token>>, done: set<string>, chain: string)
    requires StopsWallet(m0, m1, w, chains, index, done, chain)
    ensures WithinWallet(m0, m1, w, chains, index)
  {
    forall c ensures Entries(Lookup(m1, c)) <= Entries(Lookup(m0, c)) + WalletPlan(w, chains, index, c) {
      VisitPlanPrefix(w, chains, index, c);
      PrefixExtend(Entries(Lookup(m0, c)), StopTail(w, chains, index, done, chain, c), WalletPlan(w, chains, index, c));
    }
  }

  /** Per chain, `m1` is `m0` with the items of the first `i` wallets appended. */
  ghost predicate AddsWallets(m0: map<string, seq<WatchItem>>, m1: map<string, seq<WatchItem>>, ws: seq<Wallet>,
                              chains: map<string, string>, index: map<string, map<string, Token>>, i: nat)
    requires i <= |ws|
  {
    forall c :: Entries(Lookup(m1, c)) == Entries(Lookup(m0, c)) + PlanFor(ws[..i], chains, index, c)
  }

  lemma AddsWalletsStep(m0: map<string, seq<WatchItem>>, mid: map<string, seq<WatchItem>>, m1: map<string, seq<WatchItem>>,
                        ws: seq<Wallet>, chains: map<string, string>, index: map<string, map<string, Token>>, i: nat)
    requires i < |ws|
    requires AddsWallets(m0, mid, ws, chains, index, i)
    requires AddsWallet(mid, m1, ws[i], chains, index, ws[i].trackFor.Keys)
    ensures AddsWallets(m0, m1, ws, chains, index, i + 1)
  {
    forall c ensures Entries(Lookup(m1, c)) == Entries(Lookup(m0, c)) + PlanFor(ws[..i + 1], chains, index, c) {
      var wp := WalletPlan(ws[i], chains, index, c);
      assert Entries(Lookup(m1, c)) == Entries(Lookup(mid, c)) + wp by {
        if c !in ws[i].trackFor.Keys {
          assert wp == [];
        }
      }
      PlanStepAt(Entries(Lookup(m0, c)), Entries(Lookup(mid, c)), Entries(Lookup(m1, c)), ws, chains, index, i, c);
    }
  }

  lemma PlanStepAt(e0: seq<Entry>, emid: seq<Entry>, e1: seq<Entry>,
                   ws: seq<Wallet>, chains: map<string, string>, index: map<string, map<string, Token>>, i: nat, c: string)
    requires i < |ws|
    requires emid == e0 + PlanFor(ws[..i], chains, index, c)
    requires e1 == emid + WalletPlan(ws[i], chains, index, c)
    ensures e1 == e0 + PlanFor(ws[..i + 1], chains, index, c)
  {
    PlanStep(ws, chains, index, i, c);
  }

  lemma PlanStoppedAt(e0: seq<Entry>, emid: seq<Entry>, e1: seq<Entry>,
                      ws: seq<Wallet>, chains: map<string, string>, index: map<string, map<string, Token>>, i: nat, c: string)
    requires i < |ws|
    requires emid == e0 + PlanFor(ws[..i], chains, index, c)
    requires e1 <= emid + WalletPlan(ws[i], chains, index, c)
    ensures e1 <= e0 + PlanFor(ws, chains, index, c)
  {
    PlanStep(ws, chains, index, i, c);
    PlanPrefix(ws, chains, index, i + 1, c);
    PrefixOfExtension(e0, PlanFor(ws[..i], chains, index, c), WalletPlan(ws[i], chains, index, c),
                      PlanFor(ws[..i + 1], chains, index, c), PlanFor(ws, chains, index, c), e1);
  }

  /** A prefix of `e0 + p + w` is a prefix of `e0 + all` when `p + w` is a prefix of `all`. */
  lemma PrefixOfExtension<T>(e0: seq<T>, p: seq<T>, w: seq<T>, upTo: seq<T>, all: seq<T>, e1: seq<T>)
    requires upTo == p + w && upTo <= all && e1 <= e0 + p + w
    ensures e1 <= e0 + all
  {
  }

  /** Per chain, `m1` is `m0` with the items planned for `config` appended. */
  ghost predicate AddsPlan(m0: map<string, seq<WatchItem>>, m1: map<string, seq<WatchItem>>, config: Configuration)
  {
    forall c :: Entries(Lookup(m1, c)) == Entries(Lookup(m0, c)) + Planned(config, c)
  }

  /** Per chain, what was appended to `m0` is a prefix of the items planned for `config`. */
  ghost predicate WithinPlan(m0: map<string, seq<WatchItem>>, m1: map<string, seq<WatchItem>>, config: Configuration)
  {
    forall c :: Entries(Lookup(m1, c)) <= Entries(Lookup(m0, c)) + Planned(config, c)
  }

  /** Per chain, `m1` is `m0` with the items of the first `i` wallets, then
      what wallet `i` appended before it stopped on `chain`. */
  ghost predicate StopsAt(m0: map<string, seq<WatchItem>>, m1: map<string, seq<WatchItem>>, ws: seq<Wallet>,
                          chains: map<string, string>, index: map<string, map<string, Token>>, i: nat, done: set<string>, chain: string)
    requires i < |ws|
  {
    forall c :: Entries(Lookup(m1, c)) == Entries(Lookup(m0, c)) + PlanFor(ws[..i], chains, index, c) + StopTail(ws[i], chains, index, done, chain, c)
  }

  /** What a `LoadConfig` that fails on a wallet leaves behind: wallet `i` is
      the first invalid one and reports `e`; every chain keeps the items of the
      wallets before it, then wallet `i`'s items for the chains it finished
      (`done`, in whatever order Go visited them) and, for the chain of the
      error, those of the symbols before the one that does not resolve.
      Nothing is rolled back. */
  ghost predicate FailedLoad(m0: map<string, seq<WatchItem>>, m1: map<string, seq<WatchItem>>, config: Configuration, e: LoadError)
  {
    exists i: nat, done: set<string> ::
      && i < |config.wallets|
      && WalletReports(config.wallets[i], config.chains, Index(config.tokens), e)
      && EarlierResolve(config.wallets, config.chains, Index(config.tokens), i)
      && Finished(config.wallets[i], config.chains, Index(config.tokens), done) && e.chain !in done
      && StopsAt(m0, m1, config.wallets, config.chains, Index(config.tokens), i, done, e.chain)
  }

  /** Per chain, the items of the first `i` wallets follow those of `m0` in `m1`. */
  ghost predicate KeepsPlan(m0: map<string, seq<WatchItem>>, m1: map<string, seq<WatchItem>>, ws: seq<Wallet>,
                            chains: map<string, string>, index: map<string, map<string, Token>>, i: nat)
    requires i <= |ws|
  {
    forall c :: Entries(Lookup(m0, c)) + PlanFor(ws[..i], chains, index, c) <= Entries(Lookup(m1, c))
  }

  /** After a failed load, the items of every wallet before the failing one
      are all still in place. */
  lemma FailedLoadKeeps(m0: map<string, seq<WatchItem>>, m1: map<string, seq<WatchItem>>, config: Configuration, e: LoadError)
    requires FailedLoad(m0, m1, config, e)
    ensures exists i: nat ::
      && i < |config.wallets|
      && WalletReports(config.wallets[i], config.chains, Index(config.tokens), e)
      && EarlierResolve(config.wallets, config.chains, Index(config.tokens), i)
      && KeepsPlan(m0, m1, config.wallets, config.chains, Index(config.tokens), i)
  {
    var i: nat, done: set<string> :| && i < |config.wallets|
      && WalletReports(config.wallets[i], config.chains, Index(config.tokens), e)
      && EarlierResolve(config.wallets, config.chains, Index(config.tokens), i)
      && Finished(config.wallets[i], config.chains, Index(config.tokens), done) && e.chain !in done
      && StopsAt(m0, m1, config.wallets, config.chains, Index(config.tokens), i, done, e.chain);
    StopsAtKeeps(m0, m1, config.wallets, config.chains, Index(config.tokens), i, done, e.chain);
  }

  lemma StopsAtKeeps(m0: map<string, seq<WatchItem>>, m1: map<string, seq<WatchItem>>, ws: seq<Wallet>,
                     chains: map<string, string>, index: map<string, map<string, Token>>, i: nat, done: set<string>, chain: string)
    requires i < |ws| && StopsAt(m0, m1, ws, chains, index, i, done, chain)
    ensures KeepsPlan(m0, m1, ws, chains, index, i)
  {
    forall c ensures Entries(Lookup(m0, c)) + PlanFor(ws[..i], chains, index, c) <= Entries(Lookup(m1, c)) {
      var kept := Entries(Lookup(m0, c)) + PlanFor(ws[..i], chains, index, c);
      assert (kept + StopTail(ws[i], chains, index, done, chain, c))[..|kept|] == kept;
    }
  }

  lemma AddsWalletsFailed(m0: map<string, seq<WatchItem>>, mid: map<string, seq<WatchItem>>, m1: map<string, seq<WatchItem>>,
                          config: Configuration, i: nat, done: set<string>, e: LoadError)
    requires i < |config.wallets|
    requires AddsWallets(m0, mid, config.wallets, config.chains, Index(config.tokens), i)
    requires StopsWallet(mid, m1, config.wallets[i], config.chains, Index(config.tokens), done, e.chain)
    requires EarlierResolve(config.wallets, config.chains, Index(config.tokens), i)
    requires WalletReports(config.wallets[i], config.chains, Index(config.tokens), e)
    requires Finished(config.wallets[i], config.chains, Index(config.tokens), done) && e.chain !in done
    ensures FailedLoad(m0, m1, config, e)
  {
    assert StopsAt(m0, m1, config.wallets, config.chains, Index(config.tokens), i, done, e.chain);
  }

  lemma AddsWalletsStopped(m0: map<string, seq<WatchItem>>, mid: map<string, seq<WatchItem>>, m1: map<string, seq<WatchItem>>,
                           config: Configuration, i: nat, e: LoadError)
    requires i < |config.wallets|
    requires AddsWallets(m0, mid, config.wallets, config.chains, Index(config.tokens), i)
    requires WithinWallet(mid, m1, config.wallets[i], config.chains, Index(config.tokens))
    requires EarlierResolve(config.wallets, config.chains, Index(config.tokens), i)
    requires WalletReports(config.wallets[i], config.chains, Index(config.tokens), e)
    ensures WithinPlan(m0, m1, config) && WalletFault(config, e) && !ConfigValid(config)
  {
    forall c ensures Entries(Lookup(m1, c)) <= Entries(Lookup(m0, c)) + Planned(config, c) {
      PlanStoppedAt(Entries(Lookup(m0, c)), Entries(Lookup(mid, c)), Entries(Lookup(m1, c)),
                    config.wallets, config.chains, Index(config.tokens), i, c);
    }
    WalletReportsInvalid(config.wallets[i], config.chains, Index(config.tokens), e);
  }

  lemma AddsWalletsWithin(m0: map<string, seq<WatchItem>>, m1: map<string, seq<WatchItem>>, config: Configuration)
    requires AddsWallets(m0, m1, config.wallets, config.chains, Index(config.tokens), |config.wallets|)
    requires EarlierResolve(config.wallets, config.chains, Index(config.tokens), |config.wallets|)
    ensures AddsPlan(m0, m1, config) && WithinPlan(m0, m1, config) && ConfigValid(config)
  {
    assert config.wallets[..|config.wallets|] == config.wallets;
  }

  lemma WithinPlanNothing(m: map<string, seq<WatchItem>>, config: Configuration)
    ensures WithinPlan(m, m, config)
  {
  }

  lemma AppendedGrows(m: map<string, seq<WatchItem>>, chain: string, added: seq<WatchItem>)
    ensures Grows(m, Appended(m, chain, added))
  {
  }

  lemma GrowsTrans(m0: map<string, seq<WatchItem>>, m1: map<string, seq<WatchItem>>, m2: map<string, seq<WatchItem>>)
    requires Grows(m0, m1) && Grows(m1, m2)
    ensures Grows(m0, m2)
  {
  }



  lemma {:induction false} EntriesAppend(a: seq<WatchItem>, b: seq<WatchItem>)
    ensures Entries(a + b) == Entries(a) + Entries(b)
  {
    if b != [] {
      assert (a + b)[..|a + b| - 1] == a + b[..|b| - 1];
      EntriesAppend(a, b[..|b| - 1]);
    } else {
      assert a + b == a;
    }
  }

  lemma PrefixExtend<T>(p: seq<T>, a: seq<T>, b: seq<T>)
    requires a <= b
    ensures p + a <= p + b
  {
  }
}
