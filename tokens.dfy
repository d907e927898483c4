/** The per-chain symbol index `LoadConfig` builds before it looks at any
    wallet (watcher.go, `tokensMap`). */
module Tokens {
  import opened Config

  /** Symbol to token for one chain's list, filled in list order, so a later
      token with the same symbol replaces an earlier one. */
  function SymbolIndex(tokens: seq<Token>): map<string, Token>
  {
    if tokens == [] then map[]
    else SymbolIndex(tokens[..|tokens| - 1])[tokens[|tokens| - 1].symbol := tokens[|tokens| - 1]]
  }

  /** Chain to symbol index, one entry per chain of the token lists. */
  function Index(tokens: map<string, seq<Token>>): map<string, map<string, Token>>
  {
    map c | c in tokens :: SymbolIndex(tokens[c])
  }

  /** The lookup `tokensMap[chain][symbol]` succeeds. A chain without a token
      list has no index, so every lookup under it fails. */
  predicate Resolves(index: map<string, map<string, Token>>, chain: string, symbol: string)
  {
    chain in index && symbol in index[chain]
  }

  /** A symbol is in the index exactly when some token of the list carries it. */
  lemma {:induction false} SymbolIndexDomain(tokens: seq<Token>, s: string)
    ensures s in SymbolIndex(tokens) <==> exists j :: 0 <= j < |tokens| && tokens[j].symbol == s
  {
    if tokens != [] {
      var init := tokens[..|tokens| - 1];
      SymbolIndexDomain(init, s);
      if s in SymbolIndex(init) {
        var j :| 0 <= j < |init| && init[j].symbol == s;
        assert tokens[j].symbol == s;
      }
      if j :| 0 <= j < |tokens| && tokens[j].symbol == s {
        if j < |init| {
          assert init[j].symbol == s;
        }
      }
    }
  }

  /** When two tokens share a symbol the later one wins: the index holds the
      last token of the list with that symbol. */
  lemma {:induction false} LaterTokenWins(tokens: seq<Token>, j: nat)
    requires j < |tokens|
    requires forall k :: j < k < |tokens| ==> tokens[k].symbol != tokens[j].symbol
    ensures tokens[j].symbol in SymbolIndex(tokens)
    ensures SymbolIndex(tokens)[tokens[j].symbol] == tokens[j]
  {
    var init := tokens[..|tokens| - 1];
    if j < |tokens| - 1 {
      forall k | j < k < |init| ensures init[k].symbol != init[j].symbol {
        assert init[k] == tokens[k];
      }
      LaterTokenWins(init, j);
    }
  }

  /** A symbol resolves under a chain exactly when that chain has a token list
      holding a token with the symbol; in particular a declared chain with no
      token list resolves nothing. */
  lemma ResolvesIff(tokens: map<string, seq<Token>>, chain: string, s: string)
    ensures Resolves(Index(tokens), chain, s) <==>
              chain in tokens && exists j :: 0 <= j < |tokens[chain]| && tokens[chain][j].symbol == s
  {
    if chain in tokens {
      SymbolIndexDomain(tokens[chain], s);
    }
  }

  /** The symbol index of one chain, built by the loop of the source. */
  method IndexSymbols(tokens: seq<Token>) returns (m: map<string, Token>)
    ensures m == SymbolIndex(tokens)
  {
    m := map[];
    for i := 0 to |tokens|
      invariant m == SymbolIndex(tokens[..i])
    {
      assert tokens[..i + 1][..i] == tokens[..i];
      m := m[tokens[i].symbol := tokens[i]];
    }
    assert tokens[..|tokens|] == tokens;
  }

  /** The index of every chain's token list; the chains are visited in no
      particular order, as Go's map iteration visits them. */
  method BuildIndex(tokens: map<string, seq<Token>>) returns (index: map<string, map<string, Token>>)
    ensures index == Index(tokens)
  {
    index := map[];
    var pending := tokens.Keys;
    while pending != {}
      invariant pending <= tokens.Keys
      invariant index == map c | c in tokens.Keys - pending :: SymbolIndex(tokens[c])
      decreases pending
    {
      var chain :| chain in pending;
      var m := IndexSymbols(tokens[chain]);
      index := index[chain := m];
      pending := pending - {chain};
    }
    assert tokens.Keys - pending == tokens.Keys;
  }
}
