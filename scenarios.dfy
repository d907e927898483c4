/** Small worked configurations: one wallet on one chain tracking a token
    and the chain's native asset. */
module Scenarios {
  import opened Config
  import opened Items
  import opened Tokens
  import opened Plan
  import opened Balance

  const Usdc: Token := Token("0xABC", "USDC", 6)
  const Ether: Token := Token("", "ETH", 18)
  const Alice: Wallet := Wallet("alice", "0x1", map["eth" := ["USDC", "ETH"]], map["team" := "ops", "chain" := "mine"])
  const Sample: Configuration := Configuration(map["eth" := "http://node"], map["eth" := [Usdc, Ether]], [Alice])

  /** The sample is valid and yields, on `eth`, the USDC item and then the
      native item, in the order of the wallet's symbol list. */
  lemma SampleLoads()
    ensures ConfigValid(Sample)
    ensures Planned(Sample, "eth") == [EntryFor(Alice, "eth", "USDC", Usdc), EntryFor(Alice, "eth", "ETH", Ether)]
  {
    var index := SampleIndex();
    var plan := SampleSymbols(index);
    assert [Alice][..0] == [];
    assert WalletPlan(Alice, Sample.chains, index, "eth") == plan;
    assert Planned(Sample, "eth") == PlanFor([], Sample.chains, index, "eth") + plan;
    assert WalletResolves(Alice, Sample.chains, index) by {
      forall c | c in Alice.trackFor ensures c in Sample.chains && AllResolve(index, c, Alice.trackFor[c]) {
        assert c == "eth";
      }
    }
  }

  /** The USDC item carries the contract and decimals of its token, keeps the
      wallet's `team` label and has the wallet's own `chain` label overridden. */
  lemma SampleUsdcItem()
    ensures var e := EntryFor(Alice, "eth", "USDC", Usdc);
      && e.token == "0xABC" && e.wallet == "0x1" && e.decimals == 6
      && "chain" in e.labels && e.labels["chain"] == "eth"
      && "team" in e.labels && e.labels["team"] == "ops"
  {
  }

  /** No chain other than `eth` gets an item. */
  lemma SampleOtherChain(c: string)
    requires c != "eth"
    ensures Planned(Sample, c) == []
  {
    var index := SampleIndex();
    assert [Alice][..0] == [];
    assert WalletPlan(Alice, Sample.chains, index, c) == [];
    assert Planned(Sample, c) == PlanFor([], Sample.chains, index, c) + [];
  }

  /** Both symbols of the wallet's list resolve, in list order. */
  lemma SampleSymbols(index: map<string, map<string, Token>>) returns (plan: seq<Entry>)
    requires index == map["eth" := map["USDC" := Usdc, "ETH" := Ether]]
    ensures plan == SymbolPlan(Alice, "eth", index, Alice.trackFor["eth"])
    ensures plan == [EntryFor(Alice, "eth", "USDC", Usdc), EntryFor(Alice, "eth", "ETH", Ether)]
    ensures AllResolve(index, "eth", Alice.trackFor["eth"])
  {
    var syms := ["USDC", "ETH"];
    assert syms[..1] == ["USDC"] && syms[..1][..0] == [];
    assert SymbolPlan(Alice, "eth", index, ["USDC"]) == [EntryFor(Alice, "eth", "USDC", Usdc)];
    plan := SymbolPlan(Alice, "eth", index, syms);
  }

  /** The token index of the sample: both symbols under `eth`. */
  lemma SampleIndex() returns (index: map<string, map<string, Token>>)
    ensures index == Index(Sample.tokens)
    ensures index == map["eth" := map["USDC" := Usdc, "ETH" := Ether]]
  {
    assert [Usdc, Ether][..1] == [Usdc] && [Usdc][..0] == [];
    assert SymbolIndex([Usdc]) == map["USDC" := Usdc];
    assert SymbolIndex([Usdc, Ether]) == map["USDC" := Usdc, "ETH" := Ether];
    index := Index(Sample.tokens);
    assert index.Keys == {"eth"};
  }

  /** A node answering 5000000 for the USDC item gives the reading 5, and a
      failed native balance call gives the sentinel for the native item. */
  lemma SampleReadings(node: ChainClient)
    requires node.newCaller("0xABC") && node.balanceOf("0xABC", "0x1") == Ok(5000000)
    requires node.balanceAt("0x1") == Err
    ensures Value(GetTokenBalance(node, EntryFor(Alice, "eth", "USDC", Usdc))) == 5.0
    ensures GetTokenBalance(node, EntryFor(Alice, "eth", "ETH", Ether)) == Sentinel
  {
  }
}
