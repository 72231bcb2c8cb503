/**
 * The Ethereum client library and the node behind it, seen only through the
 * values they return. Every RPC query, the key-file cryptography, the
 * constructor encoding and the signing-and-broadcast step are fields of one
 * `Web3` value: a snapshot of what the client answers during one call.
 */
module Chain {
  import opened PyValues

  /** A local account: the address derived from a private key. */
  datatype LocalAccount = LocalAccount(address: string, privateKey: Bytes)

  /** One compiled contract: its ABI and its bytecode. */
  datatype Artifact = Artifact(abi: string, bin: string)

  /** A block as `eth.getBlock` returns it; `hash` is already in hex. */
  datatype Block = Block(number: int, hash: string, transactions: seq<string>)

  /** A transaction as `eth.getTransaction` returns it; `recipient` is `None` for a deployment. */
  datatype TxInfo = TxInfo(sender: string, recipient: Option<string>, value: int, gas: int, gasPrice: int)

  datatype Web3 = Web3(
    transactionCount: string -> int,                   // eth.getTransactionCount(address)
    gasPrice: int,                                     // eth.gasPrice
    estimateGas: Transaction -> int,                   // eth.estimateGas(transaction)
    balance: string -> int,                            // eth.getBalance(address), in wei
    decrypt: (string, string) -> Option<Bytes>,        // account.decrypt(keyfile, password); None when it raises
    accountFromKey: Bytes -> LocalAccount,             // account.privateKeyToAccount(key)
    encrypt: (Bytes, string) -> string,                // account.encrypt(key, password), as written to the file
    create: Bytes -> LocalAccount,                     // account.create(entropy)
    signAndSend: (LocalAccount, Transaction) -> string, // toHex(sendRawTransaction(signTransaction(tx)))
    encodeConstructor: (Artifact, seq<Value>) -> string, // contract._encode_constructor_data(args)
    getBlock: string -> Block,                         // eth.getBlock(hash)
    getTransaction: string -> TxInfo                   // eth.getTransaction(hash)
  )

  /** `fromWei(x, 'ether')` divides by this. */
  const WeiPerEther: int := 1_000_000_000_000_000_000
}
