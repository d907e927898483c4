/** Resolving one item's balance (watcher.go, `getTokenBalance` and
    `getGasBalance`). The chain node's answers are inputs; the float
    conversion is kept as the pair of raw balance and decimals. */
module Balance {
  import opened Items

  /** The answer of one RPC call: a raw integer balance, or a failure. */
  datatype CallResult = Ok(raw: nat) | Err

  /** What a chain node answers during one refresh pass: the native balance
      of an account (`BalanceAt`), whether a token binding can be made for a
      contract (`NewMainCaller`), and a contract's `balanceOf` for a holder. */
  datatype ChainClient = ChainClient(
    balanceAt: string -> CallResult,
    newCaller: string -> bool,
    balanceOf: (string, string) -> CallResult)

  /** The value written to a gauge: the sentinel -1 after a failed call, or
      the raw balance scaled down by 10^decimals. */
  datatype Reading = Sentinel | Scaled(raw: nat, decimals: int)

  /** The zero address, which like the empty string stands for the native asset. */
  const ZeroAddress: string := "0x0000000000000000000000000000000000000000"

  /** The item's token is the chain's native asset. */
  predicate IsNative(token: string)
  {
    token == ZeroAddress || token == ""
  }

  /** The single RPC call that decides an item's balance. */
  datatype Query = BalanceAt(account: string) | BalanceOf(contract: string, holder: string)

  /** Reference dispatch: the native balance of the wallet for a native item,
      otherwise the item's contract asked about the wallet. */
  function QueryFor(e: Entry): Query
  {
    if IsNative(e.token) then BalanceAt(e.wallet) else BalanceOf(e.token, e.wallet)
  }

  /** The node's answer to a query; a binding that cannot be made fails the
      contract call before it is sent. */
  function Answer(node: ChainClient, q: Query): CallResult
  {
    match q
    case BalanceAt(a) => node.balanceAt(a)
    case BalanceOf(c, h) => if node.newCaller(c) then node.balanceOf(c, h) else Err
  }

  /** `getGasBalance`: the wallet's native balance, or the sentinel on failure. */
  function GetGasBalance(node: ChainClient, e: Entry): (r: Reading)
    ensures r == Sentinel <==> node.balanceAt(e.wallet).Err?
    ensures r.Scaled? ==> r.raw == node.balanceAt(e.wallet).raw && r.decimals == e.decimals
  {
    match node.balanceAt(e.wallet)
    case Err => Sentinel
    case Ok(raw) => Scaled(raw, e.decimals)
  }

  /** `getTokenBalance`: native items go to `getGasBalance`, other items ask
      their contract; every failure becomes the sentinel and nothing else. */
  function GetTokenBalance(node: ChainClient, e: Entry): (r: Reading)
    ensures IsNative(e.token) ==> r == GetGasBalance(node, e)
    ensures r == Sentinel <==> Answer(node, QueryFor(e)).Err?
    ensures r.Scaled? ==> r == Scaled(Answer(node, QueryFor(e)).raw, e.decimals)
  {
    if e.token == ZeroAddress || e.token == "" then
      GetGasBalance(node, e)
    else if !node.newCaller(e.token) then
      Sentinel
    else
      match node.balanceOf(e.token, e.wallet)
      case Err => Sentinel
      case Ok(raw) => Scaled(raw, e.decimals)
  }

  /** A native item never consults the contract path: two nodes that agree on
      the wallet's native balance give the same reading. */
  lemma NativeIgnoresContracts(n1: ChainClient, n2: ChainClient, e: Entry)
    requires IsNative(e.token)
    requires n1.balanceAt(e.wallet) == n2.balanceAt(e.wallet)
    ensures GetTokenBalance(n1, e) == GetTokenBalance(n2, e)
  {
  }

  /** A token item consults only its own contract about its own wallet: two
      nodes that agree there give the same reading, whatever their native
      balances. */
  lemma ContractIgnoresNative(n1: ChainClient, n2: ChainClient, e: Entry)
    requires !IsNative(e.token)
    requires n1.newCaller(e.token) == n2.newCaller(e.token)
    requires n1.balanceOf(e.token, e.wallet) == n2.balanceOf(e.token, e.wallet)
    ensures GetTokenBalance(n1, e) == GetTokenBalance(n2, e)
  {
  }

  function Pow10(n: nat): (p: nat)
    ensures p >= 1
  {
    if n == 0 then 1 else 10 * Pow10(n - 1)
  }

  /** `toFloat` before rounding to a float64: raw / 10^decimals, and -1 for the
      sentinel. A successful reading is never negative, so it cannot be
      mistaken for the sentinel. */
  ghost function Value(r: Reading): (v: real)
    ensures r.Scaled? ==> v >= 0.0
    ensures r.Sentinel? ==> v == -1.0
  {
    match r
    case Sentinel => -1.0
    case Scaled(raw, d) =>
      if d >= 0 then raw as real / Pow10(d) as real else raw as real * Pow10(-d) as real
  }

  /** 5000000 base units of a 6-decimal token read as 5. */
  lemma SixDecimalExample()
    ensures Value(Scaled(5000000, 6)) == 5.0
  {
    assert Pow10(6) == 1000000;
  }

  /** 1500000000000000000 base units of an 18-decimal asset read as 1.5. */
  lemma EighteenDecimalExample()
    ensures Value(Scaled(1500000000000000000, 18)) == 1.5
  {
    assert Pow10(6) == 1000000;
    assert Pow10(12) == 1000000000000;
    assert Pow10(18) == 1000000000000000000;
  }
}
