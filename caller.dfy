/**
 * `SmartContractCaller.updateTransaction`: back-fills a prepared contract-call
 * transaction in place before it is signed.
 */
module ContractCaller {
  import opened PyValues
  import opened Chain

  /** The keys `updateTransaction` writes. */
  const FilledKeys: set<string> := {"nonce", "from", "gasPrice", "gas", "chainId"}

  /** An optional argument when truthy, otherwise what the node reports. */
  function Supplied(arg: Value, queried: int): Value {
    if Truthy(arg) then arg else Int(queried)
  }

  /** What `pop('chainId', None)` hands back. */
  function PoppedChainId(tx: Transaction): Value {
    if "chainId" in tx then tx["chainId"] else NoneValue
  }

  /** The dict as it stands when the gas estimate is asked for. */
  function EstimatorInput(web3: Web3, address: string, tx: Transaction, nonce: Value, gasPrice: Value): Transaction {
    (tx - {"chainId"})
      ["nonce" := Supplied(nonce, web3.transactionCount(address))]
      ["from" := Str(address)]
      ["gasPrice" := Supplied(gasPrice, web3.gasPrice)]
  }

  /** The gas to store: the argument when truthy, otherwise the estimate added to itself. */
  function FilledGas(web3: Web3, probe: Transaction, gas: Value): Value {
    if Truthy(gas) then gas else Int(web3.estimateGas(probe) + web3.estimateGas(probe))
  }

  /** The dict after `updateTransaction`. */
  function UpdatedTransaction(web3: Web3, address: string, tx: Transaction, nonce: Value, gas: Value, gasPrice: Value): Transaction {
    var probe := EstimatorInput(web3, address, tx, nonce, gasPrice);
    probe["gas" := FilledGas(web3, probe, gas)]["chainId" := PoppedChainId(tx)]
  }

  /** Fills nonce, from, gasPrice and gas of the shared dict and puts chainId back last. */
  method UpdateTransaction(web3: Web3, address: string, transaction: Dict,
                           nonce: Value := NoneValue, gas: Value := NoneValue, gasPrice: Value := NoneValue)
    returns (r: Dict)
    modifies transaction
    ensures r == transaction
    ensures transaction.items == UpdatedTransaction(web3, address, old(transaction.items), nonce, gas, gasPrice)
  {
    // The steps run on a local copy that is stored back into the shared dict;
    // nothing else reads the dict in between, so callers see the same object state.
    ghost var original := transaction.items;
    var items := transaction.items;
    var chainId := if "chainId" in items then items["chainId"] else NoneValue;
    items := items - {"chainId"};
    if !Truthy(nonce) {
      items := items["nonce" := Int(web3.transactionCount(address))];
    } else {
      items := items["nonce" := nonce];
    }
    assert items == (original - {"chainId"})["nonce" := Supplied(nonce, web3.transactionCount(address))];
    items := items["from" := Str(address)];

    var price := gasPrice;
    if !Truthy(price) {
      price := Int(web3.gasPrice);
    }
    items := items["gasPrice" := price];
    ghost var probe := EstimatorInput(web3, address, original, nonce, gasPrice);
    assert items == probe;

    var g := gas;
    if !Truthy(g) {
      var estimate := web3.estimateGas(items);
      estimate := estimate + estimate;
      g := Int(estimate);
    }
    items := items["gas" := g];
    items := items["chainId" := chainId];
    assert items == probe["gas" := FilledGas(web3, probe, gas)]["chainId" := PoppedChainId(original)];
    transaction.items := items;
    r := transaction;
  }

  /** Afterwards the five filled keys are present, `from` is the address, and no other key changed. */
  lemma UpdateKeys(web3: Web3, address: string, tx: Transaction, nonce: Value, gas: Value, gasPrice: Value)
    ensures var r := UpdatedTransaction(web3, address, tx, nonce, gas, gasPrice);
      && r.Keys == tx.Keys + FilledKeys
      && r["from"] == Str(address)
      && forall k :: k in tx && k !in FilledKeys ==> r[k] == tx[k]
  {
  }

  /**
   * A truthy nonce, gasPrice or gas is stored as given; a falsy one (so also an
   * explicit 0) is replaced by the transaction count, the gas price, or twice the estimate.
   */
  lemma UpdateSuppliedOrQueried(web3: Web3, address: string, tx: Transaction, nonce: Value, gas: Value, gasPrice: Value)
    ensures var r := UpdatedTransaction(web3, address, tx, nonce, gas, gasPrice);
      && r["nonce"] == (if Truthy(nonce) then nonce else Int(web3.transactionCount(address)))
      && r["gasPrice"] == (if Truthy(gasPrice) then gasPrice else Int(web3.gasPrice))
      && (Truthy(gas) ==> r["gas"] == gas)
      && (!Truthy(gas) ==> r["gas"] == Int(2 * web3.estimateGas(EstimatorInput(web3, address, tx, nonce, gasPrice))))
  {
  }

  /**
   * chainId leaves and comes back unchanged (None when it was absent), and the
   * estimator sees the back-filled dict without it.
   */
  lemma UpdateChainIdRoundTrip(web3: Web3, address: string, tx: Transaction, nonce: Value, gas: Value, gasPrice: Value)
    ensures var r := UpdatedTransaction(web3, address, tx, nonce, gas, gasPrice);
      && r["chainId"] == (if "chainId" in tx then tx["chainId"] else NoneValue)
      && var probe := EstimatorInput(web3, address, tx, nonce, gasPrice);
      && "chainId" !in probe
      && probe.Keys == r.Keys - {"gas", "chainId"} + (if "gas" in tx then {"gas"} else {})
      && forall k :: k in probe && k != "gas" ==> r[k] == probe[k]
  {
  }
}
