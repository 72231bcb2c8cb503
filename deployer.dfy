/**
 * `SmartContractDeployer.deploy`: builds the unsigned transaction that publishes
 * a compiled contract.
 */
module ContractDeployer {
  import opened PyValues
  import opened Chain

  /** Safety margin applied to the node's gas estimate unless the caller passes another one. */
  const DefaultGasMultiplicator: int := 4

  /** The keys of every deployment transaction. */
  const DeployKeys: set<string> := {"nonce", "from", "value", "data", "to", "gasPrice", "gas", "chainId"}

  /** The dict as it stands when the gas estimate is asked for: `to` is still the sender, no chainId yet. */
  function DeployProbe(web3: Web3, artifact: Artifact, address: string, args: seq<Value>, gasPrice: Value): Transaction {
    map[
      "nonce" := Int(web3.transactionCount(address)),
      "from" := Str(address),
      "value" := Int(0),
      "data" := Str(web3.encodeConstructor(artifact, args)),
      "to" := Str(address),
      "gasPrice" := if Truthy(gasPrice) then gasPrice else Int(web3.gasPrice)
    ]
  }

  /** The transaction `deploy` returns. */
  function DeployTransaction(web3: Web3, artifact: Artifact, address: string, args: seq<Value>,
                             chainId: Value, gas: Value, gasPrice: Value, gasMultiplicator: int): Transaction {
    var probe := DeployProbe(web3, artifact, address, args, gasPrice);
    probe["gas" := if Truthy(gas) then gas else Int(web3.estimateGas(probe) * gasMultiplicator)]
         ["to" := Str("")]
         ["chainId" := chainId]
  }

  /** Builds the deployment transaction of `contractName`, or fails with KeyError when it was not compiled. */
  method Deploy(web3: Web3, compiledSol: map<string, Artifact>, address: string, args: seq<Value>,
                contractName: string, chainId: Value,
                gas: Value := NoneValue, gasPrice: Value := NoneValue,
                gasMultiplicator: int := DefaultGasMultiplicator)
    returns (r: Result<Transaction>)
    ensures contractName !in compiledSol ==> r == Err(KeyError(contractName))
    ensures contractName in compiledSol ==>
      r == Ok(DeployTransaction(web3, compiledSol[contractName], address, args, chainId, gas, gasPrice, gasMultiplicator))
  {
    if contractName !in compiledSol {
      return Err(KeyError(contractName));
    }
    var artifact := compiledSol[contractName];
    var data := web3.encodeConstructor(artifact, args);
    var transaction := map[
      "nonce" := Int(web3.transactionCount(address)),
      "from" := Str(address),
      "value" := Int(0),
      "data" := Str(data),
      "to" := Str(address)
    ];

    var price := gasPrice;
    if !Truthy(price) {
      price := Int(web3.gasPrice);
    }
    transaction := transaction["gasPrice" := price];

    var g := gas;
    if !Truthy(g) {
      var estimate := web3.estimateGas(transaction);
      g := Int(estimate * gasMultiplicator);
    }
    transaction := transaction["gas" := g];
    transaction := transaction["to" := Str("")];
    transaction := transaction["chainId" := chainId];
    r := Ok(transaction);
  }

  /**
   * The deployment transaction has exactly the eight keys, sends nothing, has
   * an empty `to`, the given chainId and the queried nonce; a falsy gas becomes
   * the estimate times the multiplier, taken while `to` was the sender and no chainId was set.
   */
  lemma DeployFields(web3: Web3, artifact: Artifact, address: string, args: seq<Value>,
                     chainId: Value, gas: Value, gasPrice: Value, gasMultiplicator: int)
    ensures var r := DeployTransaction(web3, artifact, address, args, chainId, gas, gasPrice, gasMultiplicator);
      && r.Keys == DeployKeys
      && r["value"] == Int(0)
      && r["to"] == Str("")
      && r["chainId"] == chainId
      && r["nonce"] == Int(web3.transactionCount(address))
      && r["from"] == Str(address)
      && r["data"] == Str(web3.encodeConstructor(artifact, args))
      && r["gasPrice"] == (if Truthy(gasPrice) then gasPrice else Int(web3.gasPrice))
      && var probe := DeployProbe(web3, artifact, address, args, gasPrice);
      && probe["to"] == Str(address)
      && "chainId" !in probe && "gas" !in probe
      && r["gas"] == (if Truthy(gas) then gas else Int(web3.estimateGas(probe) * gasMultiplicator))
  {
  }

  /** Left at its default, the multiplier makes the stored gas four times the estimate. */
  lemma DeployDefaultMultiplier(web3: Web3, artifact: Artifact, address: string, args: seq<Value>, chainId: Value, gasPrice: Value)
    ensures DeployTransaction(web3, artifact, address, args, chainId, NoneValue, gasPrice, DefaultGasMultiplicator)["gas"]
         == Int(4 * web3.estimateGas(DeployProbe(web3, artifact, address, args, gasPrice)))
  {
  }
}
