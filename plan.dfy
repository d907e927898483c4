/** What `LoadConfig` appends and which errors it may report, stated without
    reference to the order in which Go iterates over maps. Per chain, items
    follow the order of the wallets and, within a wallet, the order of the
    chain's symbol list; both orders are fixed by the file. */
module Plan {
  import opened Config
  import opened Items
  import opened Tokens

  /** The reasons `LoadConfig` fails. */
  datatype LoadError =
    | DialFailed(chain: string)
    | UnknownChain(chain: string, wallet: string)
    | UnknownToken(symbol: string, chain: string, wallet: string)

  /** The returned `error`: nil, or one of the reasons above. */
  datatype Outcome = Loaded | Failed(error: LoadError)

  /** The entries appended for `symbols` tracked by `w` on `chain`: one per
      symbol that resolves, in list order. */
  function SymbolPlan(w: Wallet, chain: string, index: map<string, map<string, Token>>, symbols: seq<string>): seq<Entry>
  {
    if symbols == [] then []
    else
      var s := symbols[|symbols| - 1];
      SymbolPlan(w, chain, index, symbols[..|symbols| - 1])
        + (if Resolves(index, chain, s) then [EntryFor(w, chain, s, index[chain][s])] else [])
  }

  /** The entries wallet `w` contributes to `chain`: none unless the wallet
      tracks that chain and the chain is declared. */
  function WalletPlan(w: Wallet, chains: map<string, string>, index: map<string, map<string, Token>>, chain: string): seq<Entry>
  {
    if chain in w.trackFor && chain in chains then SymbolPlan(w, chain, index, w.trackFor[chain]) else []
  }

  /** The entries the wallets `ws` contribute to `chain`, wallet by wallet. */
  function PlanFor(ws: seq<Wallet>, chains: map<string, string>, index: map<string, map<string, Token>>, chain: string): seq<Entry>
  {
    if ws == [] then []
    else PlanFor(ws[..|ws| - 1], chains, index, chain) + WalletPlan(ws[|ws| - 1], chains, index, chain)
  }

  /** The entries a whole configuration appends to `chain`. */
  function Planned(config: Configuration, chain: string): seq<Entry>
  {
    PlanFor(config.wallets, config.chains, Index(config.tokens), chain)
  }

  /** Every symbol of the list resolves on `chain`. */
  predicate AllResolve(index: map<string, map<string, Token>>, chain: string, symbols: seq<string>)
  {
    forall s :: s in symbols ==> Resolves(index, chain, s)
  }

  /** Every chain the wallet tracks is declared and every symbol it tracks resolves. */
  predicate WalletResolves(w: Wallet, chains: map<string, string>, index: map<string, map<string, Token>>)
  {
    forall c :: c in w.trackFor ==> c in chains && AllResolve(index, c, w.trackFor[c])
  }

  /** The first `n` wallets of `ws` pass validation. */
  predicate EarlierResolve(ws: seq<Wallet>, chains: map<string, string>, index: map<string, map<string, Token>>, n: nat)
    requires n <= |ws|
  {
    forall k :: 0 <= k < n ==> WalletResolves(ws[k], chains, index)
  }

  /** Every wallet of the configuration passes validation. */
  predicate ConfigValid(config: Configuration)
  {
    EarlierResolve(config.wallets, config.chains, Index(config.tokens), |config.wallets|)
  }

  /** Every declared endpoint can be dialled. */
  predicate AllDialable(config: Configuration, unreachable: set<string>)
  {
    forall c :: c in config.chains ==> config.chains[c] !in unreachable
  }

  /** `s` is the first symbol of the list that does not resolve. */
  predicate FirstUnresolved(index: map<string, map<string, Token>>, chain: string, symbols: seq<string>, s: string)
  {
    exists j :: 0 <= j < |symbols| && symbols[j] == s && !Resolves(index, chain, s)
      && forall k :: 0 <= k < j ==> Resolves(index, chain, symbols[k])
  }

  /** `e` is an error that validating wallet `w` can report. */
  predicate WalletReports(w: Wallet, chains: map<string, string>, index: map<string, map<string, Token>>, e: LoadError)
  {
    match e
    case DialFailed(_) => false
    case UnknownChain(c, a) => a == w.address && c in w.trackFor && c !in chains
    case UnknownToken(s, c, a) =>
      a == w.address && c in w.trackFor && c in chains && FirstUnresolved(index, c, w.trackFor[c], s)
  }

  /** `e` is an error `LoadConfig` can report for `config`: an endpoint that
      cannot be dialled, or, once all are dialled, a fault of the first wallet
      (in file order) that fails validation. */
  predicate Reports(config: Configuration, unreachable: set<string>, e: LoadError)
  {
    match e
    case DialFailed(c) => c in config.chains && config.chains[c] in unreachable
    case _ => AllDialable(config, unreachable) && WalletFault(config, e)
  }

  /** `e` is a fault of the first wallet (in file order) that fails validation. */
  predicate WalletFault(config: Configuration, e: LoadError)
  {
    exists i ::
      && 0 <= i < |config.wallets|
      && WalletReports(config.wallets[i], config.chains, Index(config.tokens), e)
      && EarlierResolve(config.wallets, config.chains, Index(config.tokens), i)
  }

  /** Number of symbols the wallets `ws` track on `chain`. */
  function TrackedCount(ws: seq<Wallet>, chain: string): nat
  {
    if ws == [] then 0
    else
      var w := ws[|ws| - 1];
      TrackedCount(ws[..|ws| - 1], chain) + (if chain in w.trackFor then |w.trackFor[chain]| else 0)
  }

  /** A reported validation error means that the wallet is invalid. */
  lemma WalletReportsInvalid(w: Wallet, chains: map<string, string>, index: map<string, map<string, Token>>, e: LoadError)
    requires WalletReports(w, chains, index, e)
    ensures !WalletResolves(w, chains, index)
  {
  }

  /** Extending a resolving prefix by one resolving symbol. */
  lemma AllResolveStep(index: map<string, map<string, Token>>, chain: string, symbols: seq<string>, j: nat)
    requires j < |symbols| && AllResolve(index, chain, symbols[..j]) && Resolves(index, chain, symbols[j])
    ensures AllResolve(index, chain, symbols[..j + 1])
  {
  }

  /** The first symbol that does not resolve after a resolving prefix is
      the one reported. */
  lemma FirstUnresolvedAt(index: map<string, map<string, Token>>, chain: string, symbols: seq<string>, j: nat)
    requires j < |symbols| && AllResolve(index, chain, symbols[..j]) && !Resolves(index, chain, symbols[j])
    ensures FirstUnresolved(index, chain, symbols, symbols[j])
    ensures !AllResolve(index, chain, symbols)
  {
  }

  /** Position of the first symbol of the list that does not resolve on
      `chain`, or the list's length when every symbol resolves: where the
      symbol loop stops. */
  function FirstMiss(index: map<string, map<string, Token>>, chain: string, symbols: seq<string>): (n: nat)
    ensures n <= |symbols|
    ensures AllResolve(index, chain, symbols[..n])
    ensures n < |symbols| ==> !Resolves(index, chain, symbols[n])
  {
    if symbols == [] || !Resolves(index, chain, symbols[0]) then 0
    else
      var rest := FirstMiss(index, chain, symbols[1..]);
      assert symbols[..rest + 1] == [symbols[0]] + symbols[1..][..rest];
      rest + 1
  }

  /** The loop stops at `j` exactly when the symbols before `j` resolve and
      the one at `j`, if any, does not. */
  lemma FirstMissAt(index: map<string, map<string, Token>>, chain: string, symbols: seq<string>, j: nat)
    requires j <= |symbols| && AllResolve(index, chain, symbols[..j])
    requires j < |symbols| ==> !Resolves(index, chain, symbols[j])
    ensures FirstMiss(index, chain, symbols) == j
  {
  }

  /** The loop runs to the end exactly when every symbol resolves, and
      otherwise stops at the first unresolved symbol. */
  lemma FirstMissResolves(index: map<string, map<string, Token>>, chain: string, symbols: seq<string>)
    ensures FirstMiss(index, chain, symbols) == |symbols| <==> AllResolve(index, chain, symbols)
    ensures FirstMiss(index, chain, symbols) < |symbols| ==>
              FirstUnresolved(index, chain, symbols, symbols[FirstMiss(index, chain, symbols)])
  {
    assert symbols[..|symbols|] == symbols;
    if AllResolve(index, chain, symbols) {
      FirstMissAt(index, chain, symbols, |symbols|);
    }
  }

  /** The entries wallet `w` appends to `chain` when its walk visits that
      chain: those of the symbols before the first that does not resolve,
      and none when the chain is undeclared. */
  function VisitPlan(w: Wallet, chains: map<string, string>, index: map<string, map<string, Token>>, chain: string): seq<Entry>
  {
    if chain in w.trackFor && chain in chains then
      SymbolPlan(w, chain, index, w.trackFor[chain][..FirstMiss(index, chain, w.trackFor[chain])])
    else []
  }

  /** A visit appends a prefix of the wallet's entries for the chain, and all
      of them when every symbol resolves. */
  lemma VisitPlanPrefix(w: Wallet, chains: map<string, string>, index: map<string, map<string, Token>>, chain: string)
    ensures VisitPlan(w, chains, index, chain) <= WalletPlan(w, chains, index, chain)
    ensures chain in w.trackFor && AllResolve(index, chain, w.trackFor[chain]) ==>
              VisitPlan(w, chains, index, chain) == WalletPlan(w, chains, index, chain)
  {
    if chain in w.trackFor && chain in chains {
      var symbols := w.trackFor[chain];
      SymbolPlanPrefix(w, chain, index, symbols, FirstMiss(index, chain, symbols));
      FirstMissResolves(index, chain, symbols);
      assert symbols[..|symbols|] == symbols;
    }
  }

  lemma SymbolPlanStep(w: Wallet, chain: string, index: map<string, map<string, Token>>, symbols: seq<string>, j: nat)
    requires j < |symbols|
    ensures SymbolPlan(w, chain, index, symbols[..j + 1]) == SymbolPlan(w, chain, index, symbols[..j])
      + (if Resolves(index, chain, symbols[j]) then [EntryFor(w, chain, symbols[j], index[chain][symbols[j]])] else [])
  {
    assert symbols[..j + 1][..j] == symbols[..j];
  }

  /** Processing stops at any symbol: what was appended so far is a prefix of
      the whole list's entries. */
  lemma {:induction false} SymbolPlanPrefix(w: Wallet, chain: string, index: map<string, map<string, Token>>, symbols: seq<string>, j: nat)
    requires j <= |symbols|
    ensures SymbolPlan(w, chain, index, symbols[..j]) <= SymbolPlan(w, chain, index, symbols)
    decreases |symbols| - j
  {
    if j == |symbols| {
      assert symbols[..j] == symbols;
    } else {
      SymbolPlanPrefix(w, chain, index, symbols, j + 1);
      SymbolPlanStep(w, chain, index, symbols, j);
    }
  }

  lemma PlanStep(ws: seq<Wallet>, chains: map<string, string>, index: map<string, map<string, Token>>, i: nat, chain: string)
    requires i < |ws|
    ensures PlanFor(ws[..i + 1], chains, index, chain) == PlanFor(ws[..i], chains, index, chain) + WalletPlan(ws[i], chains, index, chain)
  {
    assert ws[..i + 1][..i] == ws[..i];
  }

  /** Entries of the first `i` wallets are a prefix of those of all wallets. */
  lemma {:induction false} PlanPrefix(ws: seq<Wallet>, chains: map<string, string>, index: map<string, map<string, Token>>, i: nat, chain: string)
    requires i <= |ws|
    ensures PlanFor(ws[..i], chains, index, chain) <= PlanFor(ws, chains, index, chain)
    decreases |ws| - i
  {
    if i == |ws| {
      assert ws[..i] == ws;
    } else {
      PlanPrefix(ws, chains, index, i + 1, chain);
      PlanStep(ws, chains, index, i, chain);
    }
  }

  /** When every symbol resolves, each symbol yields exactly one entry. */
  lemma {:induction false} SymbolPlanLength(w: Wallet, chain: string, index: map<string, map<string, Token>>, symbols: seq<string>)
    requires AllResolve(index, chain, symbols)
    ensures |SymbolPlan(w, chain, index, symbols)| == |symbols|
  {
    if symbols != [] {
      var init := symbols[..|symbols| - 1];
      assert symbols[|symbols| - 1] in symbols;
      forall s | s in init ensures Resolves(index, chain, s) {
        assert s in symbols;
      }
      SymbolPlanLength(w, chain, index, init);
    }
  }

  /** In a valid configuration every (wallet, chain, symbol) triple yields
      exactly one item: the count of `chain`'s entries is the number of
      symbols the wallets track on it. */
  lemma {:induction false} PlannedCount(config: Configuration, chain: string)
    requires ConfigValid(config)
    ensures |Planned(config, chain)| == TrackedCount(config.wallets, chain)
  {
    PlanForCount(config.wallets, config.chains, Index(config.tokens), chain);
  }

  lemma {:induction false} PlanForCount(ws: seq<Wallet>, chains: map<string, string>, index: map<string, map<string, Token>>, chain: string)
    requires forall i :: 0 <= i < |ws| ==> WalletResolves(ws[i], chains, index)
    ensures |PlanFor(ws, chains, index, chain)| == TrackedCount(ws, chain)
  {
    if ws != [] {
      var init := ws[..|ws| - 1];
      var w := ws[|ws| - 1];
      assert WalletResolves(w, chains, index);
      forall i | 0 <= i < |init| ensures WalletResolves(init[i], chains, index) {
        assert init[i] == ws[i];
      }
      PlanForCount(init, chains, index, chain);
      if chain in w.trackFor {
        SymbolPlanLength(w, chain, index, w.trackFor[chain]);
      }
    }
  }

  /** Every entry of a symbol list's plan is the item of one tracked symbol. */
  lemma {:induction false} SymbolPlanSound(w: Wallet, chain: string, index: map<string, map<string, Token>>, symbols: seq<string>, k: nat)
    requires k < |SymbolPlan(w, chain, index, symbols)|
    ensures exists s ::
              && s in symbols && Resolves(index, chain, s)
              && SymbolPlan(w, chain, index, symbols)[k] == EntryFor(w, chain, s, index[chain][s])
  {
    var init := symbols[..|symbols| - 1];
    var last := symbols[|symbols| - 1];
    assert last in symbols;
    if k < |SymbolPlan(w, chain, index, init)| {
      SymbolPlanSound(w, chain, index, init, k);
      var s :| s in init && Resolves(index, chain, s)
        && SymbolPlan(w, chain, index, init)[k] == EntryFor(w, chain, s, index[chain][s]);
      assert s in symbols;
    }
  }

  /** Every entry appended to `chain` is the item of some wallet tracking a
      symbol on that chain: token contract, wallet address and decimals come
      from the resolved token and the wallet. */
  lemma {:induction false} PlannedSound(ws: seq<Wallet>, chains: map<string, string>, index: map<string, map<string, Token>>, chain: string, k: nat)
    requires k < |PlanFor(ws, chains, index, chain)|
    ensures exists i, s ::
              && 0 <= i < |ws| && chain in ws[i].trackFor && s in ws[i].trackFor[chain]
              && Resolves(index, chain, s)
              && PlanFor(ws, chains, index, chain)[k] == EntryFor(ws[i], chain, s, index[chain][s])
  {
    var init := ws[..|ws| - 1];
    var n := |ws| - 1;
    if k < |PlanFor(init, chains, index, chain)| {
      PlannedSound(init, chains, index, chain, k);
      var i, s :| 0 <= i < |init| && chain in init[i].trackFor && s in init[i].trackFor[chain]
        && Resolves(index, chain, s) && PlanFor(init, chains, index, chain)[k] == EntryFor(init[i], chain, s, index[chain][s]);
      assert init[i] == ws[i];
    } else {
      var k' := k - |PlanFor(init, chains, index, chain)|;
      SymbolPlanSound(ws[n], chain, index, ws[n].trackFor[chain], k');
      var s :| s in ws[n].trackFor[chain] && Resolves(index, chain, s)
        && SymbolPlan(ws[n], chain, index, ws[n].trackFor[chain])[k'] == EntryFor(ws[n], chain, s, index[chain][s]);
    }
  }

  lemma {:induction false} SymbolPlanComplete(w: Wallet, chain: string, index: map<string, map<string, Token>>, symbols: seq<string>, s: string)
    requires s in symbols && Resolves(index, chain, s)
    ensures EntryFor(w, chain, s, index[chain][s]) in SymbolPlan(w, chain, index, symbols)
  {
    var init := symbols[..|symbols| - 1];
    if s != symbols[|symbols| - 1] {
      assert s in init by {
        var j :| 0 <= j < |symbols| && symbols[j] == s;
        assert init[j] == s;
      }
      SymbolPlanComplete(w, chain, index, init, s);
    }
  }

  /** In a valid configuration every tracked symbol of every wallet yields
      its item on that chain. */
  lemma {:induction false} PlannedComplete(config: Configuration, i: nat, chain: string, s: string)
    requires ConfigValid(config)
    requires i < |config.wallets| && chain in config.wallets[i].trackFor && s in config.wallets[i].trackFor[chain]
    ensures Resolves(Index(config.tokens), chain, s)
    ensures EntryFor(config.wallets[i], chain, s, Index(config.tokens)[chain][s]) in Planned(config, chain)
  {
    var ws, index := config.wallets, Index(config.tokens);
    assert WalletResolves(ws[i], config.chains, index);
    SymbolPlanComplete(ws[i], chain, index, ws[i].trackFor[chain], s);
    PlanStep(ws, config.chains, index, i, chain);
    PlanPrefix(ws, config.chains, index, i + 1, chain);
    var e := EntryFor(ws[i], chain, s, index[chain][s]);
    var p := PlanFor(ws[..i + 1], config.chains, index, chain);
    var j :| 0 <= j < |WalletPlan(ws[i], config.chains, index, chain)| && WalletPlan(ws[i], config.chains, index, chain)[j] == e;
    assert p[|PlanFor(ws[..i], config.chains, index, chain)| + j] == e;
    assert Planned(config, chain)[|PlanFor(ws[..i], config.chains, index, chain)| + j] == e;
  }
}
