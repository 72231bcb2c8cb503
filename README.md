# web3helper decision logic in Dafny

This project models the decision logic that `web3helper.py` adds on top of the
Ethereum client library:

- the `Account` holder. It has one nullable key, a key file on disk, a balance,
  and the console prompt that must accept the fees before anything is signed,
  unless the caller passes `override`;
- `SmartContractCaller.updateTransaction`, which back-fills a contract-call
  transaction in place;
- `SmartContractDeployer.deploy`, which builds a contract-publication
  transaction;
- `printBlock`, which draws one block and its transactions as a tree and
  highlights the transactions of the loaded account.

Every answer of the client library or the node is a field of one `Web3` value
(`chain.dfy`). That covers the transaction count, gas price, gas estimate,
balance, key-file encryption and decryption, account derivation and creation,
constructor encoding, block and transaction lookup, and sign-and-broadcast. A
`Web3` is a snapshot: within one call, the same question gets the same answer.

- `values.dfy` holds the Python values a transaction dict holds and Python's
  truthiness, the exceptions the code raises, and the mutable dict.
- `accounts.dfy` holds the `Account` class. The console is the sequence of
  lines the user will type; running out of lines is the `EOFError` that
  `input()` raises. The filesystem is a map from file names to contents. A
  signature is recorded as the transaction handed to `signAndSend`.
- `caller.dfy` holds `updateTransaction`. The method changes a shared `Dict`
  object and is proved against the function `UpdatedTransaction`.
- `deployer.dfy` holds `deploy`. It is proved against `DeployTransaction`.
- `printer.dfy` holds `printBlock`. A printed line is its level, the tree
  glyphs around it, and the values its format string interpolates. The loop is
  proved against `BlockOutput`.

The docstring of `updateTransaction` (web3helper.py:224) promises to add all
*missing* information. The code tests truthiness, so an explicit nonce, gas or
gasPrice of `0` is re-queried as well. The model follows the code.

`printBlock`'s default `account=None` makes it raise `AttributeError` at the
first transaction of any non-empty block. The model reproduces that in
`BlockOutput` and states it in `BlockPrinter.BlockOutputWithoutAccount`.

## Model

| member | source | states |
|---|---|---|
| PyValues.LowerIsLetter | web3helper.py:149-152 | a string lowers to a single lowercase letter exactly when it is that letter or its capital |
| Accounts.FirstDecisive | web3helper.py:146-154 | the index of the first answer that ends the prompt loop: every earlier answer is neither "y" nor "n" in any case, and the one found decides |
| Accounts.VerdictAcceptsIff | web3helper.py:146-155 | the prompt accepts if and only if some answer is a yes and no earlier answer decided |
| Accounts.VerdictAbortsIff | web3helper.py:149-151 | the prompt raises "Transaction aborted" if and only if some answer is a no and no earlier answer decided |
| Accounts.VerdictOutcomes | web3helper.py:146-155 | the prompt never yields False: it accepts, aborts, or runs out of input |
| Accounts.VerdictSkips | web3helper.py:146-153 | an answer that is neither yes nor no leaves the outcome to the answers after it |
| Accounts.DecidingAnswers | web3helper.py:149-152 | the only deciding answers are "y", "Y", "n" and "N" |
| Accounts.TransferConfirmation | web3helper.py:139-140 | a transfer always has gas 21000 and a gasPrice, so its confirmation never raises KeyError and depends on the answers alone |
| Accounts.Account.constructor | web3helper.py:76-80 | a new holder keeps the client and has no account |
| Accounts.Account.Load | web3helper.py:85-102 | "Account already set" leaves the account unchanged; a missing file raises "File doesn't exist"; a failed decryption raises ValueError; otherwise the account is the one derived from the decrypted key |
| Accounts.Account.Save | web3helper.py:104-116 | an existing file raises "A file already exist here" and is never overwritten; with no account, AttributeError privateKey; otherwise exactly one new file holding the encrypted key, every other file unchanged |
| Accounts.Account.New | web3helper.py:118-126 | "Account already set" leaves the account unchanged; otherwise the account is the one created from the 20 random bytes |
| Accounts.Account.GetBalance | web3helper.py:128-135 | fails with "No account set" exactly when there is no account; otherwise the result times 10^18 is the balance in wei |
| Accounts.Account.AcceptTransaction | web3helper.py:137-155 | KeyError gas or gasPrice before any prompt; otherwise the prompt's verdict; it reads the answers up to and including the first one that decides, or all of them |
| Accounts.Account.LaunchTransaction | web3helper.py:157-165 | signs and sends exactly when override is set or the prompt accepted and there is an account; a refused prompt propagates its error and sends nothing; an accepted one with no account raises AttributeError signTransaction |
| Accounts.Account.SendTo | web3helper.py:167-179 | with no account, AttributeError address and nothing sent; otherwise the 21000-gas transfer of value amount, empty data and the queried nonce and gas price is sent exactly when the prompt accepts, and the prompt's error is returned otherwise |
| ContractCaller.UpdateTransaction | web3helper.py:223-245 | the shared dict becomes `UpdatedTransaction` of its old contents, and the same dict object is returned |
| ContractCaller.UpdateKeys | web3helper.py:223-245 | afterwards the keys are the old keys plus nonce, from, gasPrice, gas and chainId; from is the address; no other key changes |
| ContractCaller.UpdateSuppliedOrQueried | web3helper.py:226-242 | a truthy nonce, gasPrice or gas is stored verbatim; a falsy one, 0 included, becomes the transaction count, the gas price, or exactly twice the estimate |
| ContractCaller.UpdateChainIdRoundTrip | web3helper.py:225-243 | chainId comes back as it was, or None when it was absent; the estimator sees the filled dict without chainId and with the old gas, and agrees with the result on every other key |
| ContractDeployer.Deploy | web3helper.py:293-323 | KeyError for a contract that was not compiled; otherwise `DeployTransaction` of the compiled artifact |
| ContractDeployer.DeployFields | web3helper.py:293-323 | exactly eight keys; value 0, to "", the given chainId, the queried nonce, from the address, the encoded constructor as data, gasPrice supplied or queried; a falsy gas becomes estimate times multiplier, estimated while to was the address and no chainId or gas was set |
| ContractDeployer.DeployDefaultMultiplier | web3helper.py:293-315 | with the default multiplier and no gas, the stored gas is four times the estimate |
| BlockPrinter.TransactionsLines | web3helper.py:365-374 | two lines per transaction hash |
| BlockPrinter.PrintBlock | web3helper.py:357-374 | the loop prints exactly `BlockOutput`: the header, then two lines per transaction, or the AttributeError at the first transaction when there is no account |
| BlockPrinter.TransactionsLinesAt | web3helper.py:365-374 | transaction i owns lines 2i and 2i+1, in list order |
| BlockPrinter.TransactionsLinesSnoc | web3helper.py:365-374 | one more loop iteration appends exactly that transaction's two lines |
| BlockPrinter.TransactionLinesShape | web3helper.py:367-374 | the two lines of a transaction: corner and blank exactly for the last hash, tee and bar otherwise; both share one level, which is warning exactly when from or to is the address |
| BlockPrinter.BlockOutputHeader | web3helper.py:361-362 | with an account nothing fails; there are 1 + 2n lines; the header is a success line whose glyph is the leaf exactly when the block is empty |
| BlockPrinter.BlockOutputEntry | web3helper.py:365-374 | transaction i of the block is printed as lines 2i+1 and 2i+2 |
| BlockPrinter.BlockOutputTransaction | web3helper.py:367-371 | in the printed block, transaction i gets the corner exactly when its hash equals the last hash; both its lines are warnings exactly when it is from or to the account |
| BlockPrinter.BranchLineText | web3helper.py:367-373 | the first printed line of transaction i begins with "│ └─" exactly when its hash equals the last hash, and with "│ ├─" otherwise |
| BlockPrinter.BlockOutputWithoutAccount | web3helper.py:357-371 | without an account only the header is printed; the call fails with AttributeError address exactly when the block has transactions |
| BlockPrinter.DistinctHashesSingleCorner | web3helper.py:367 | when no hash repeats, only the final transaction gets the corner |

## Left out

- `Config` is not part of this model: it reads a JSON file and builds the HTTP provider.
- `Rates` and the fee display in `_acceptTransaction` are not modelled. They involve an HTTP request, `Decimal` and float arithmetic, and the printed message. Only the two dict lookups of the display, which can raise KeyError, are kept.
- Accounts.Account.AcceptTransaction: does not model the TypeError that `gas * gasPrice` raises for non-numeric values, nor a failure of the rate request.
- Key cryptography, account derivation, signing, broadcasting and the node's RPC answers are fields of the `Web3` oracle. An RPC call that raises is not modelled, and neither is a signature or broadcast that fails (for instance a `from` that is not the key's address): `signAndSend` always answers, so with an accepting gate and an account a transaction is always sent.
- `toHex` is not a separate step: the hex transaction hash is what `signAndSend` returns, and a block's `hash` is taken as already in hex.
- `fromWei(x, 'ether')` is exact real division by `WeiPerEther` in `GetBalance`. Its range check is not modelled: it raises ValueError for a negative value or one above 2^256-1, which `_acceptTransaction` can reach with its fee total (web3helper.py:142-143).
- Accounts.Account.Load: a key file that is not valid JSON is not modelled; a password or key file that does not decrypt is a ValueError.
- Accounts.Account.New: the 20 bytes of `os.urandom` are a parameter.
- The `SmartContractCaller` constructor is not part of this model, and neither are `loadSolidity`, `compileSol`, `saveCompiledSol` and `saveTx`. They do file I/O, receipt lookup and an external compiler call.
- ContractDeployer.Deploy: a `compiledSol` that was never compiled (None) is treated like a missing contract name.
- `cprint`, the ANSI colour constants and the timestamps are not modelled; a printed line keeps only its level. The informational messages of `updateTransaction`, `deploy` and the `Account` methods are not modelled.
- `printTransaction` and all of `main.py` are not part of this model. They are an RPC fetch inside a catch-all and an endless polling script.
- Python dicts keep insertion order; the model's maps do not. So the order in which `updateTransaction` re-attaches chainId, and the key order the estimator and signer see, are not captured.
- ContractCaller.UpdateTransaction: the steps run on a local copy that is stored back into the shared dict at the end. Nothing observes the dict in between, except the estimator, which receives the same contents.
- BlockPrinter.BlockOutput: an `account` argument of None and an `Account` with no key both raise AttributeError. The model merges them into one case, with the message naming `address`.
- PyValues.Lower: lowercases ASCII letters only. This is exact for the comparisons with "y" and "n": no other character lowers to either letter, and lowering never shortens a string.
- `Account.__str__` is not modelled: it only formats the address for display.
