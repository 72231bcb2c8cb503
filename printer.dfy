/**
 * `printBlock`: the tree-shaped summary of one block and its transactions.
 * The terminal colour codes and the timestamp `cprint` adds are not modelled;
 * a printed line is its severity level and its message.
 */
module BlockPrinter {
  import opened PyValues
  import opened Chain

  /** The `levels` colours `printBlock` uses. */
  datatype Level = Success | Warning | Low

  /**
   * What a line interpolates after its tree glyph; `Text` is the message the
   * format string makes of it.
   */
  datatype Detail =
    | BlockDetail(number: int, count: nat, hash: string)
    | RouteDetail(sender: string, recipient: Option<string>)
    | CostDetail(value: int, gas: int, gasPrice: int)
  {
    function Text(): string {
      match this
      case BlockDetail(number, count, hash) =>
        " Block " + IntString(number) + ", " + IntString(count) + " Transaction(s), Hash " + hash
      case RouteDetail(sender, recipient) =>
        "┬─ Transaction from " + sender + " to " + ShowRecipient(recipient)
      case CostDetail(value, gas, gasPrice) =>
        " └─  Value " + IntString(value) + ", Gas " + IntString(gas) + ", GasPrice " + IntString(gasPrice)
    }
  }

  /**
   * A printed line, split where its format string interpolates the tree glyph:
   * the text is `lead + glyph` followed by the detail's text.
   */
  datatype Line = Line(level: Level, lead: string, glyph: string, detail: Detail) {
    function Text(): string {
      lead + glyph + detail.Text()
    }
  }

  function DigitChar(d: int): char
    requires 0 <= d < 10
  {
    ('0' as int + d) as char
  }

  function NatString(n: nat): string {
    if n < 10 then [DigitChar(n)] else NatString(n / 10) + [DigitChar(n % 10)]
  }

  /** `str()` of an int. */
  function IntString(i: int): string {
    if i < 0 then "-" + NatString(-i) else NatString(i)
  }

  /** `format()` of a recipient: a deployment has `None`. */
  function ShowRecipient(to: Option<string>): string {
    match to
    case None => "None"
    case Some(a) => a
  }

  /** The glyph after the block's branch: a leaf when it has no transaction. */
  function HeaderGlyph(count: nat): string {
    if count == 0 then "─" else "┬"
  }

  /** The glyph that opens a transaction's branch: a corner for the last hash. */
  function BranchGlyph(txHash: string, last: string): string {
    if txHash == last then "└─" else "├─"
  }

  /** The glyph that continues the tree beside a transaction's detail line. */
  function StemGlyph(txHash: string, last: string): string {
    if txHash == last then " " else "│"
  }

  /** Transactions that touch the account are shown as warnings. */
  function Highlight(info: TxInfo, address: string): Level {
    if info.sender == address || info.recipient == Some(address) then Warning else Low
  }

  function HeaderLine(block: Block): Line {
    Line(Success, "├─", HeaderGlyph(|block.transactions|), BlockDetail(block.number, |block.transactions|, block.hash))
  }

  /** The two lines of one transaction. */
  function TransactionLines(txHash: string, last: string, info: TxInfo, address: string): seq<Line> {
    var level := Highlight(info, address);
    [Line(level, "│ ", BranchGlyph(txHash, last), RouteDetail(info.sender, info.recipient)),
     Line(level, "│ ", StemGlyph(txHash, last), CostDetail(info.value, info.gas, info.gasPrice))]
  }

  /** The lines of the given transaction hashes, in order: two per hash. */
  function TransactionsLines(web3: Web3, hashes: seq<string>, last: string, address: string): (lines: seq<Line>)
    ensures |lines| == 2 * |hashes|
  {
    seq(2 * |hashes|, k requires 0 <= k < 2 * |hashes| =>
      TransactionLines(hashes[k / 2], last, web3.getTransaction(hashes[k / 2]), address)[k % 2])
  }

  /**
   * What `printBlock` prints, and the exception it ends with: reading the
   * account's address fails at the first transaction when there is no account.
   */
  function BlockOutput(web3: Web3, blockHash: string, address: Option<string>): (seq<Line>, Option<Error>) {
    var block := web3.getBlock(blockHash);
    var txs := block.transactions;
    if txs == [] then ([HeaderLine(block)], None)
    else
      match address
      case None => ([HeaderLine(block)], Some(AttributeError("address")))
      case Some(a) => ([HeaderLine(block)] + TransactionsLines(web3, txs, txs[|txs| - 1], a), None)
  }

  method PrintBlock(web3: Web3, blockHash: string, address: Option<string> := None) returns (printed: seq<Line>, failure: Option<Error>)
    ensures (printed, failure) == BlockOutput(web3, blockHash, address)
  {
    var block := web3.getBlock(blockHash);
    var txs := block.transactions;
    var symb0 := if |txs| == 0 then "─" else "┬";
    printed := [Line(Success, "├─", symb0, BlockDetail(block.number, |txs|, block.hash))];
    assert printed == [HeaderLine(block)];
    failure := None;
    if txs != [] {
      var last := txs[|txs| - 1];
      for i := 0 to |txs|
        invariant address.None? ==> i == 0
        invariant address.Some? ==> printed == [HeaderLine(block)] + TransactionsLines(web3, txs[..i], last, address.value)
        invariant address.None? ==> printed == [HeaderLine(block)]
      {
        var txHash := txs[i];
        var symb1 := if txHash == last then "└─" else "├─";
        var symb2 := if txHash == last then " " else "│";
        var transaction := web3.getTransaction(txHash);
        if address.None? {
          return printed, Some(AttributeError("address"));
        }
        var a := address.value;
        var lcolor := if transaction.sender == a || transaction.recipient == Some(a) then Warning else Low;
        var own := [
          Line(lcolor, "│ ", symb1, RouteDetail(transaction.sender, transaction.recipient)),
          Line(lcolor, "│ ", symb2, CostDetail(transaction.value, transaction.gas, transaction.gasPrice))];
        assert own == TransactionLines(txHash, last, transaction, a);
        TransactionsLinesSnoc(web3, txs[..i], txHash, last, a);
        assert txs[..i + 1] == txs[..i] + [txHash];
        ghost var done := TransactionsLines(web3, txs[..i], last, a);
        assert printed + own == [HeaderLine(block)] + (done + own);
        printed := printed + own;
      }
      assert txs[..|txs|] == txs;
    }
  }

  /** Transaction `i` owns lines `2i` and `2i + 1`. */
  lemma TransactionsLinesAt(web3: Web3, hashes: seq<string>, last: string, address: string, i: nat)
    requires i < |hashes|
    ensures var lines := TransactionsLines(web3, hashes, last, address);
      var own := TransactionLines(hashes[i], last, web3.getTransaction(hashes[i]), address);
      lines[2 * i] == own[0] && lines[2 * i + 1] == own[1]
  {
    assert (2 * i) / 2 == i && (2 * i) % 2 == 0;
    assert (2 * i + 1) / 2 == i && (2 * i + 1) % 2 == 1;
  }

  /** Appending a hash appends its two lines. */
  lemma TransactionsLinesSnoc(web3: Web3, hashes: seq<string>, h: string, last: string, address: string)
    ensures TransactionsLines(web3, hashes + [h], last, address)
         == TransactionsLines(web3, hashes, last, address) + TransactionLines(h, last, web3.getTransaction(h), address)
  {
    var longer := TransactionsLines(web3, hashes + [h], last, address);
    var shorter := TransactionsLines(web3, hashes, last, address);
    var own := TransactionLines(h, last, web3.getTransaction(h), address);
    forall k | 0 <= k < |longer|
      ensures longer[k] == (shorter + own)[k]
    {
      if k < |shorter| {
        assert (hashes + [h])[k / 2] == hashes[k / 2];
      } else {
        assert k / 2 == |hashes|;
        assert (hashes + [h])[k / 2] == h;
      }
    }
  }

  /**
   * With an account: one header line, then two lines per transaction; the
   * header glyph is a leaf exactly when the block is empty.
   */
  lemma BlockOutputHeader(web3: Web3, blockHash: string, address: string)
    ensures var (printed, failure) := BlockOutput(web3, blockHash, Some(address));
      var txs := web3.getBlock(blockHash).transactions;
      && failure == None
      && |printed| == 1 + 2 * |txs|
      && printed[0].level == Success
      && printed[0].glyph == (if |txs| == 0 then "─" else "┬")
  {
  }

  /** The two lines of a transaction: glyphs by position, one level by involvement. */
  lemma TransactionLinesShape(txHash: string, last: string, info: TxInfo, address: string)
    ensures var own := TransactionLines(txHash, last, info, address);
      && |own| == 2
      && own[0].glyph == (if txHash == last then "└─" else "├─")
      && own[1].glyph == (if txHash == last then " " else "│")
      && own[0].level == own[1].level
      && (own[0].level == Warning <==> info.sender == address || info.recipient == Some(address))
  {
  }

  /** With an account, transaction `i` of the block owns printed lines `2i + 1` and `2i + 2`. */
  lemma BlockOutputEntry(web3: Web3, blockHash: string, address: string, i: nat)
    requires i < |web3.getBlock(blockHash).transactions|
    ensures var (printed, _) := BlockOutput(web3, blockHash, Some(address));
      var txs := web3.getBlock(blockHash).transactions;
      var own := TransactionLines(txs[i], txs[|txs| - 1], web3.getTransaction(txs[i]), address);
      && |printed| == 1 + 2 * |txs|
      && printed[1 + 2 * i] == own[0]
      && printed[2 + 2 * i] == own[1]
  {
    var txs := web3.getBlock(blockHash).transactions;
    var last := txs[|txs| - 1];
    var lines := TransactionsLines(web3, txs, last, address);
    var printed := BlockOutput(web3, blockHash, Some(address)).0;
    assert printed == [HeaderLine(web3.getBlock(blockHash))] + lines;
    TransactionsLinesAt(web3, txs, last, address, i);
    assert printed[1 + 2 * i] == lines[2 * i];
    assert printed[2 + 2 * i] == lines[2 * i + 1];
  }

  /**
   * Transaction `i` gets the corner exactly when its hash equals the last
   * hash, and both its lines are warnings exactly when it is from or to the account.
   */
  lemma BlockOutputTransaction(web3: Web3, blockHash: string, address: string, i: nat)
    requires i < |web3.getBlock(blockHash).transactions|
    ensures var (printed, _) := BlockOutput(web3, blockHash, Some(address));
      var txs := web3.getBlock(blockHash).transactions;
      var info := web3.getTransaction(txs[i]);
      && |printed| == 1 + 2 * |txs|
      && printed[1 + 2 * i].glyph == (if txs[i] == txs[|txs| - 1] then "└─" else "├─")
      && printed[2 + 2 * i].glyph == (if txs[i] == txs[|txs| - 1] then " " else "│")
      && printed[1 + 2 * i].level == printed[2 + 2 * i].level
      && (printed[1 + 2 * i].level == Warning <==> info.sender == address || info.recipient == Some(address))
  {
    var txs := web3.getBlock(blockHash).transactions;
    BlockOutputEntry(web3, blockHash, address, i);
    TransactionLinesShape(txs[i], txs[|txs| - 1], web3.getTransaction(txs[i]), address);
  }

  /**
   * The first detail line of transaction `i` begins with the corner, `"│ └─"`,
   * exactly when its hash equals the last hash; otherwise it begins with the tee.
   */
  lemma BranchLineText(web3: Web3, blockHash: string, address: string, i: nat)
    requires i < |web3.getBlock(blockHash).transactions|
    ensures var (printed, _) := BlockOutput(web3, blockHash, Some(address));
      var txs := web3.getBlock(blockHash).transactions;
      && |printed| == 1 + 2 * |txs|
      && |printed[1 + 2 * i].Text()| >= 4
      && printed[1 + 2 * i].Text()[..4] == (if txs[i] == txs[|txs| - 1] then "│ └─" else "│ ├─")
  {
    var txs := web3.getBlock(blockHash).transactions;
    BlockOutputEntry(web3, blockHash, address, i);
    var line := BlockOutput(web3, blockHash, Some(address)).0[1 + 2 * i];
    var glyph := BranchGlyph(txs[i], txs[|txs| - 1]);
    assert line == TransactionLines(txs[i], txs[|txs| - 1], web3.getTransaction(txs[i]), address)[0];
    assert line.lead == "│ " && line.glyph == glyph;
    assert line.Text() == ("│ " + glyph) + line.detail.Text();
    assert |"│ " + glyph| == 4;
  }

  /**
   * Without an account only the header is printed: an empty block succeeds, a
   * block with transactions fails on the first one.
   */
  lemma BlockOutputWithoutAccount(web3: Web3, blockHash: string)
    ensures var (printed, failure) := BlockOutput(web3, blockHash, None);
      var block := web3.getBlock(blockHash);
      && printed == [HeaderLine(block)]
      && (failure.Some? <==> block.transactions != [])
      && (failure.Some? ==> failure.value == AttributeError("address"))
  {
  }

  /** When the block lists no hash twice, only its final transaction gets the corner. */
  lemma DistinctHashesSingleCorner(web3: Web3, blockHash: string, address: string, i: nat)
    requires var txs := web3.getBlock(blockHash).transactions;
      i < |txs| && forall j, k :: 0 <= j < k < |txs| ==> txs[j] != txs[k]
    ensures var (printed, _) := BlockOutput(web3, blockHash, Some(address));
      var txs := web3.getBlock(blockHash).transactions;
      |printed| == 1 + 2 * |txs| && (printed[1 + 2 * i].glyph == "└─" <==> i == |txs| - 1)
  {
    BlockOutputTransaction(web3, blockHash, address, i);
    var txs := web3.getBlock(blockHash).transactions;
    assert "├─" != "└─";
    if i != |txs| - 1 {
      assert txs[i] != txs[|txs| - 1];
    }
  }
}
