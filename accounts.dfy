/**
 * `Account`: the one local key of the process, its key file, its balance, and
 * the console confirmation that guards every signature the caller does not
 * explicitly override.
 *
 * The console is the sequence of lines the user will type; the filesystem is a
 * map from file names to their text.
 */
module Accounts {
  import opened PyValues
  import opened Chain

  /** The answer accepts the fees: it lowers to "y". */
  predicate IsYes(answer: string) {
    Lower(answer) == "y"
  }

  /** The answer refuses the fees: it lowers to "n". */
  predicate IsNo(answer: string) {
    Lower(answer) == "n"
  }

  /** The prompt loop ends on an answer that decides. */
  predicate Decides(answer: string) {
    IsYes(answer) || IsNo(answer)
  }

  /** Position of the first deciding answer, or `|answers|` when none decides. */
  function FirstDecisive(answers: seq<string>): (k: nat)
    ensures k <= |answers|
    ensures k < |answers| ==> Decides(answers[k])
    ensures forall j :: 0 <= j < k ==> !Decides(answers[j])
  {
    if answers == [] then 0
    else if Decides(answers[0]) then 0
    else 1 + FirstDecisive(answers[1..])
  }

  /** How the prompt loop ends: True on "y", abort on "n", EOFError when the console runs dry. */
  function Verdict(answers: seq<string>): Result<bool> {
    var k := FirstDecisive(answers);
    if k == |answers| then Err(EOFError)
    else if IsNo(answers[k]) then Err(Exception("Transaction aborted"))
    else Ok(true)
  }

  /** `_acceptTransaction`: the fee display reads gas and gasPrice before anything is asked. */
  function Confirmation(transaction: Transaction, answers: seq<string>): Result<bool> {
    if "gas" !in transaction then Err(KeyError("gas"))
    else if "gasPrice" !in transaction then Err(KeyError("gasPrice"))
    else Verdict(answers)
  }

  /** How many answers the prompt loop reads. */
  function AnswersRead(transaction: Transaction, answers: seq<string>): nat {
    if "gas" !in transaction || "gasPrice" !in transaction then 0
    else if FirstDecisive(answers) == |answers| then |answers|
    else FirstDecisive(answers) + 1
  }

  /** The prompt accepts exactly when some answer is a yes and no earlier answer decided. */
  lemma VerdictAcceptsIff(answers: seq<string>)
    ensures Verdict(answers) == Ok(true) <==>
      exists k :: 0 <= k < |answers| && IsYes(answers[k]) && forall j :: 0 <= j < k ==> !Decides(answers[j])
  {
    var d := FirstDecisive(answers);
    forall k | 0 <= k < |answers| && IsYes(answers[k]) && forall j :: 0 <= j < k ==> !Decides(answers[j])
      ensures Verdict(answers) == Ok(true)
    {
      assert d == k;
      assert !IsNo(answers[k]);
    }
    if Verdict(answers) == Ok(true) {
      assert IsYes(answers[d]);
    }
  }

  /** The prompt aborts exactly when some answer is a no and no earlier answer decided. */
  lemma VerdictAbortsIff(answers: seq<string>)
    ensures Verdict(answers) == Err(Exception("Transaction aborted")) <==>
      exists k :: 0 <= k < |answers| && IsNo(answers[k]) && forall j :: 0 <= j < k ==> !Decides(answers[j])
  {
    var d := FirstDecisive(answers);
    forall k | 0 <= k < |answers| && IsNo(answers[k]) && forall j :: 0 <= j < k ==> !Decides(answers[j])
      ensures Verdict(answers) == Err(Exception("Transaction aborted"))
    {
      assert d == k;
    }
    if Verdict(answers) == Err(Exception("Transaction aborted")) {
      assert IsNo(answers[d]);
    }
  }

  /** The prompt never answers False: it accepts, aborts, or hits the end of input. */
  lemma VerdictOutcomes(answers: seq<string>)
    ensures Verdict(answers) in {Ok(true), Err(Exception("Transaction aborted")), Err(EOFError)}
  {
  }

  /** An answer that is neither yes nor no is skipped: the prompt is asked again. */
  lemma VerdictSkips(answer: string, answers: seq<string>)
    requires !Decides(answer)
    ensures Verdict([answer] + answers) == Verdict(answers)
  {
    assert ([answer] + answers)[1..] == answers;
    assert FirstDecisive([answer] + answers) == 1 + FirstDecisive(answers);
    assert forall j :: 0 <= j < |answers| ==> ([answer] + answers)[j + 1] == answers[j];
  }

  /** "y", "Y", "n" and "N" are the only deciding answers. */
  lemma DecidingAnswers(answer: string)
    ensures IsYes(answer) <==> answer == "y" || answer == "Y"
    ensures IsNo(answer) <==> answer == "n" || answer == "N"
  {
    LowerIsLetter(answer, 'y');
    LowerIsLetter(answer, 'n');
  }

  /** The value-transfer transaction `sendTo` builds. */
  function TransferTransaction(web3: Web3, sender: string, to: string, amount: int, chainId: Value): Transaction {
    map[
      "nonce" := Int(web3.transactionCount(sender)),
      "from" := Str(sender),
      "gas" := Int(21000),
      "gasPrice" := Int(web3.gasPrice),
      "chainId" := chainId,
      "value" := Int(amount),
      "data" := Str(""),
      "to" := Str(to)
    ]
  }

  /** A transfer always carries gas and gasPrice, so its confirmation depends on the answers alone. */
  lemma TransferConfirmation(web3: Web3, sender: string, to: string, amount: int, chainId: Value, answers: seq<string>)
    ensures Confirmation(TransferTransaction(web3, sender, to, amount, chainId), answers) == Verdict(answers)
    ensures TransferTransaction(web3, sender, to, amount, chainId)["gas"] == Int(21000)
  {
  }

  class Account {
    const web3: Web3
    var account: Option<LocalAccount>

    constructor (web3: Web3)
      ensures this.web3 == web3 && account == None
    {
      this.web3 := web3;
      account := None;
    }

    /** `load`: decrypts a key file into the account, only when none is set yet. */
    method Load(filename: string, password: string, files: map<string, string>) returns (r: Result<()>)
      modifies this
      ensures old(account).Some? ==> r == Err(Exception("Account already set")) && account == old(account)
      ensures old(account).None? && filename !in files ==> r == Err(Exception("File doesn't exist")) && account == None
      ensures old(account).None? && filename in files ==>
        match web3.decrypt(files[filename], password)
        case None => r == Err(ValueError) && account == None
        case Some(key) => r == Ok(()) && account == Some(web3.accountFromKey(key))
    {
      if account.Some? {
        return Err(Exception("Account already set"));
      }
      if filename !in files {
        return Err(Exception("File doesn't exist"));
      }
      var key := web3.decrypt(files[filename], password);
      if key.None? {
        return Err(ValueError);
      }
      account := Some(web3.accountFromKey(key.value));
      r := Ok(());
    }

    /** `save`: writes the encrypted key to a new file; an existing file is never overwritten. */
    method Save(filename: string, password: string, files: map<string, string>) returns (r: Result<map<string, string>>)
      ensures filename in files ==> r == Err(Exception("A file already exist here"))
      ensures filename !in files && account.None? ==> r == Err(AttributeError("privateKey"))
      ensures filename !in files && account.Some? ==>
        r == Ok(files[filename := web3.encrypt(account.value.privateKey, password)])
      ensures r.Ok? ==>
        filename !in files && r.value.Keys == files.Keys + {filename} && forall f :: f in files ==> r.value[f] == files[f]
    {
      if filename in files {
        return Err(Exception("A file already exist here"));
      }
      if account.None? {
        return Err(AttributeError("privateKey"));
      }
      var keyfile := web3.encrypt(account.value.privateKey, password);
      r := Ok(files[filename := keyfile]);
    }

    /** `new`: generates an account from 20 bytes of entropy, only when none is set yet. */
    method New(entropy: Bytes) returns (r: Result<()>)
      requires |entropy| == 20
      modifies this
      ensures old(account).Some? ==> r == Err(Exception("Account already set")) && account == old(account)
      ensures old(account).None? ==> r == Ok(()) && account == Some(web3.create(entropy))
    {
      if account.Some? {
        return Err(Exception("Account already set"));
      }
      account := Some(web3.create(entropy));
      r := Ok(());
    }

    /** `getBalance`: the balance in ether, or "No account set". */
    function GetBalance(): (r: Result<real>)
      reads this
      ensures r.Err? <==> account.None?
      ensures r.Err? ==> r.error == Exception("No account set")
      ensures r.Ok? ==> r.value * WeiPerEther as real == web3.balance(account.value.address) as real
    {
      if account.Some? then Ok(web3.balance(account.value.address) as real / WeiPerEther as real)
      else Err(Exception("No account set"))
    }

    /** `_acceptTransaction`: asks for "Y/N" until an answer decides. */
    method AcceptTransaction(transaction: Transaction, answers: seq<string>) returns (r: Result<bool>, read: nat)
      ensures r == Confirmation(transaction, answers)
      ensures read == AnswersRead(transaction, answers)
    {
      if "gas" !in transaction {
        return Err(KeyError("gas")), 0;
      }
      if "gasPrice" !in transaction {
        return Err(KeyError("gasPrice")), 0;
      }
      read := 0;
      while true
        invariant read <= FirstDecisive(answers)
        decreases |answers| - read
      {
        if read == |answers| {
          return Err(EOFError), read;
        }
        var answer := answers[read];
        read := read + 1;
        if "n" == Lower(answer) {
          return Err(Exception("Transaction aborted")), read;
        } else if "y" == Lower(answer) {
          break;
        }
      }
      r := Ok(true);
    }

    /**
     * `launchTransaction`: signs and broadcasts only when `override` is set or the
     * prompt accepted; `sent` records the transaction that was signed and sent.
     */
    method LaunchTransaction(transaction: Transaction, answers: seq<string>, override: bool := false)
      returns (r: Result<string>, sent: Option<Transaction>)
      ensures var gate := if override then Ok(true) else Confirmation(transaction, answers);
        && (sent.Some? <==> gate == Ok(true) && account.Some?)
        && (sent.Some? ==> sent.value == transaction && r == Ok(web3.signAndSend(account.value, transaction)))
        && (gate.Err? ==> r == Err(gate.error) && sent == None)
        && (gate == Ok(true) && account.None? ==> r == Err(AttributeError("signTransaction")))
    {
      sent := None;
      if !override {
        var accepted, _ := AcceptTransaction(transaction, answers);
        if accepted.Err? {
          return Err(accepted.error), None;
        }
      }
      if account.None? {
        return Err(AttributeError("signTransaction")), None;
      }
      var txHash := web3.signAndSend(account.value, transaction);
      r, sent := Ok(txHash), Some(transaction);
    }

    /** `sendTo`: a 21000-gas value transfer, always put to the prompt. */
    method SendTo(to: string, amount: int, chainId: Value, answers: seq<string>)
      returns (r: Result<string>, sent: Option<Transaction>)
      ensures account.None? ==> r == Err(AttributeError("address")) && sent == None
      ensures account.Some? ==>
        var transaction := TransferTransaction(web3, account.value.address, to, amount, chainId);
        && (sent.Some? <==> Verdict(answers) == Ok(true))
        && (sent.Some? ==> sent.value == transaction && r == Ok(web3.signAndSend(account.value, transaction)))
        && (sent.None? ==> Verdict(answers).Err? && r == Err(Verdict(answers).error))
    {
      if account.None? {
        return Err(AttributeError("address")), None;
      }
      var transaction := TransferTransaction(web3, account.value.address, to, amount, chainId);
      TransferConfirmation(web3, account.value.address, to, amount, chainId, answers);
      VerdictOutcomes(answers);
      r, sent := LaunchTransaction(transaction, answers);
    }
  }
}
