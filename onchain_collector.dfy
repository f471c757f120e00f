/**
 * The on-chain collector of src/collectors/onchain_collector.py: each new
 * Ethereum block adds a row to `blocks` (unique per block number), a row to
 * `gas_prices` with the block's average gas price, and for each of its
 * transactions a `large_transfers` row (unique per hash) when more than 50 ETH
 * moves and one `exchange_flow` row per known exchange wallet it touches. The
 * polling loop keeps a cursor: the last block processed and a count of
 * consecutive errors.
 *
 * The RPC node is not modelled: a fetched block, a transaction receipt and the
 * chain height are inputs, and a failed request is an input value too. The
 * SQLite tables are sequences of rows in insertion order.
 */
module OnchainCollector {
  import opened Common

  // ---------------------------------------------------------------------------
  // Inputs and rows
  // ---------------------------------------------------------------------------

  /** A transaction of a full block. `toAddr` is `None` for a contract
      creation; `gasPrice` is `None` when the key is absent; `receiptGasUsed` is
      what the receipt request returns, `None` when it fails. */
  datatype Tx = Tx(
    hash: string, blockNumber: int, fromAddr: string, toAddr: Option<string>,
    valueWei: nat, gasPrice: Option<nat>, receiptGasUsed: Option<nat>)

  datatype Block = Block(timestamp: int, gasUsed: nat, gasLimit: nat, transactions: seq<Tx>)

  /** What one call of process_block meets: the block request fails (the error
      is printed and swallowed), the block arrives, or an error escapes to the
      monitor loop. */
  datatype BlockOutcome = FetchFailed | Fetched(block: Block) | Raised

  datatype FlowType = Inflow | Outflow

  datatype LargeTransferRow = LargeTransferRow(
    timestamp: int, blockNumber: int, txHash: string, fromAddr: string,
    toAddr: string, value: real, gasPrice: real, gasUsed: nat)

  datatype FlowRow = FlowRow(
    timestamp: int, exchange: string, flowType: FlowType, amount: real, txHash: string)

  datatype GasRow = GasRow(
    timestamp: int, gasPrice: real, blockNumber: int, transactionCount: nat)

  datatype BlockRow = BlockRow(
    timestamp: int, blockNumber: int, transactionCount: nat, gasUsed: nat, gasLimit: nat)

  /** The four tables of init_database (onchain_collector.py:54-107). */
  datatype Tables = Tables(
    largeTransfers: seq<LargeTransferRow>, exchangeFlow: seq<FlowRow>,
    gasPrices: seq<GasRow>, blocks: seq<BlockRow>)

  datatype Exchange = Exchange(name: string, address: string)

  /** The exchange wallets, in the dictionary's insertion order. */
  const Exchanges: seq<Exchange> := [
    Exchange("Binance 1", "0x28C6c06298d514Db089934071355E5743bf21d60"),
    Exchange("Binance 2", "0x21a31Ee1afC51d94C2eFcCAa2092aD1028285549"),
    Exchange("Binance 3", "0xDFd5293D8e347dFe59E90eFd55b2956a1343963d"),
    Exchange("Binance 4", "0x56Eddb7aa87536c09CCc2793473599fD21A8b17F"),
    Exchange("Binance 5", "0x9696f59E4d72E237BE84fFD425DCaD154Bf96976"),
    Exchange("Binance 6", "0x4E9ce36E442e55EcD9025B9a6E0D88485d628A67"),
    Exchange("Binance 7", "0xBE0eB53F46cd790Cd13851d5EFf43D12404d33E8"),
    Exchange("Binance 8", "0xF977814e90dA44bFA03b6295A0616a897441aceC"),
    Exchange("Coinbase 1", "0x71660c4005BA85c37ccec55d0C4493E66Fe775d3"),
    Exchange("Coinbase 2", "0x503828976D22510aad0201ac7EC88293211D23Da"),
    Exchange("Coinbase 3", "0xddfAbCdc4D8FfC6d5beaf154f18B778f892A0740"),
    Exchange("Kraken 1", "0x2910543Af39abA0Cd09dBb2D50200b3E800A63D2"),
    Exchange("Kraken 2", "0x0A869d79a7052C7f1b55a8EbAbbEa3420F0D1E13"),
    Exchange("Bitfinex 1", "0x876EabF441B2EE5B5b0554Fd502a8E0600950cFa")
  ]

  const LargeTransferEth: real := 50.0
  const MaxErrors: nat := 5

  // ---------------------------------------------------------------------------
  // Unique keys (INSERT OR IGNORE)
  // ---------------------------------------------------------------------------

  predicate HasTxHash(rows: seq<LargeTransferRow>, h: string) {
    exists i :: 0 <= i < |rows| && rows[i].txHash == h
  }

  predicate HasBlock(rows: seq<BlockRow>, n: int) {
    exists i :: 0 <= i < |rows| && rows[i].blockNumber == n
  }

  predicate UniqueHashes(rows: seq<LargeTransferRow>) {
    forall i, j :: 0 <= i < j < |rows| ==> rows[i].txHash != rows[j].txHash
  }

  predicate UniqueBlockNumbers(rows: seq<BlockRow>) {
    forall i, j :: 0 <= i < j < |rows| ==> rows[i].blockNumber != rows[j].blockNumber
  }

  /** The UNIQUE constraints on `large_transfers.tx_hash` and
      `blocks.block_number`. */
  predicate TablesValid(t: Tables) {
    UniqueHashes(t.largeTransfers) && UniqueBlockNumbers(t.blocks)
  }

  /** `INSERT OR IGNORE` keyed on the hash. */
  function InsertLargeTransfer(rows: seq<LargeTransferRow>, r: LargeTransferRow): seq<LargeTransferRow> {
    if HasTxHash(rows, r.txHash) then rows else rows + [r]
  }

  /** `INSERT OR IGNORE` keyed on the block number. */
  function InsertBlockRow(rows: seq<BlockRow>, r: BlockRow): seq<BlockRow> {
    if HasBlock(rows, r.blockNumber) then rows else rows + [r]
  }

  /** The insert adds the row exactly when its hash is new, keeps hashes
      unique, and afterwards the hash is present. */
  lemma InsertLargeTransferUnique(rows: seq<LargeTransferRow>, r: LargeTransferRow)
    requires UniqueHashes(rows)
    ensures UniqueHashes(InsertLargeTransfer(rows, r))
    ensures !HasTxHash(rows, r.txHash) ==> InsertLargeTransfer(rows, r) == rows + [r]
    ensures HasTxHash(rows, r.txHash) ==> InsertLargeTransfer(rows, r) == rows
    ensures forall h :: HasTxHash(InsertLargeTransfer(rows, r), h) <==> HasTxHash(rows, h) || h == r.txHash
  {
    var out := InsertLargeTransfer(rows, r);
    forall h
      ensures HasTxHash(out, h) <==> HasTxHash(rows, h) || h == r.txHash
    {
      if !HasTxHash(rows, r.txHash) {
        if HasTxHash(out, h) {
          var i :| 0 <= i < |out| && out[i].txHash == h;
          if i < |rows| {
            assert rows[i].txHash == h;
          }
        }
        if h == r.txHash {
          assert out[|rows|].txHash == h;
        }
        if HasTxHash(rows, h) {
          var i :| 0 <= i < |rows| && rows[i].txHash == h;
          assert out[i].txHash == h;
        }
      }
    }
    if !HasTxHash(rows, r.txHash) {
      forall i, j | 0 <= i < j < |out|
        ensures out[i].txHash != out[j].txHash
      {
        if j == |rows| {
          assert rows[i].txHash == out[i].txHash;
        }
      }
    }
  }

  /** The same for block numbers. */
  lemma InsertBlockRowUnique(rows: seq<BlockRow>, r: BlockRow)
    requires UniqueBlockNumbers(rows)
    ensures UniqueBlockNumbers(InsertBlockRow(rows, r))
    ensures !HasBlock(rows, r.blockNumber) ==> InsertBlockRow(rows, r) == rows + [r]
    ensures HasBlock(rows, r.blockNumber) ==> InsertBlockRow(rows, r) == rows
    ensures forall n :: HasBlock(InsertBlockRow(rows, r), n) <==> HasBlock(rows, n) || n == r.blockNumber
  {
    var out := InsertBlockRow(rows, r);
    forall n
      ensures HasBlock(out, n) <==> HasBlock(rows, n) || n == r.blockNumber
    {
      if !HasBlock(rows, r.blockNumber) {
        if HasBlock(out, n) {
          var i :| 0 <= i < |out| && out[i].blockNumber == n;
          if i < |rows| {
            assert rows[i].blockNumber == n;
          }
        }
        if n == r.blockNumber {
          assert out[|rows|].blockNumber == n;
        }
        if HasBlock(rows, n) {
          var i :| 0 <= i < |rows| && rows[i].blockNumber == n;
          assert out[i].blockNumber == n;
        }
      }
    }
    if !HasBlock(rows, r.blockNumber) {
      forall i, j | 0 <= i < j < |out|
        ensures out[i].blockNumber != out[j].blockNumber
      {
        if j == |rows| {
          assert rows[i].blockNumber == out[i].blockNumber;
        }
      }
    }
  }

  // ---------------------------------------------------------------------------
  // process_transaction
  // ---------------------------------------------------------------------------

  /** web3's `from_wei(x, 'ether')` and `from_wei(x, 'gwei')`. */
  function FromWeiEther(wei: real): real {
    wei / 1000000000000000000.0
  }

  function FromWeiGwei(wei: real): real {
    wei / 1000000000.0
  }

  function ValueEth(tx: Tx): real {
    FromWeiEther(tx.valueWei as real)
  }

  predicate IsLargeTransfer(tx: Tx) {
    ValueEth(tx) > LargeTransferEth
  }

  /** `if tx['to']`: a missing or empty recipient is falsy. */
  predicate HasRecipient(tx: Tx) {
    tx.toAddr.Some? && |tx.toAddr.value| > 0
  }

  /** The `large_transfers` row of a transaction (onchain_collector.py:221-240). */
  function LargeTransferOf(timestamp: int, tx: Tx): LargeTransferRow {
    LargeTransferRow(
      timestamp, tx.blockNumber, tx.hash, tx.fromAddr,
      if HasRecipient(tx) then tx.toAddr.value else "Contract Creation",
      ValueEth(tx),
      if tx.gasPrice.Some? then FromWeiGwei(tx.gasPrice.value as real) else 0.0,
      tx.receiptGasUsed.GetOr(0))
  }

  /** The row one exchange contributes: inflow when the recipient is its wallet,
      otherwise outflow when the sender is, compared in lower case. */
  function FlowFor(timestamp: int, tx: Tx, e: Exchange): Option<FlowRow>
    requires HasRecipient(tx)
  {
    if Lower(tx.toAddr.value) == Lower(e.address) then
      Some(FlowRow(timestamp, e.name, Inflow, ValueEth(tx), tx.hash))
    else if Lower(tx.fromAddr) == Lower(e.address) then
      Some(FlowRow(timestamp, e.name, Outflow, ValueEth(tx), tx.hash))
    else
      None
  }

  /** The `exchange_flow` rows of a transaction, one exchange after another. */
  function FlowRows(timestamp: int, tx: Tx, exchanges: seq<Exchange>): (rows: seq<FlowRow>)
    requires HasRecipient(tx)
    ensures |rows| <= |exchanges|
  {
    if |exchanges| == 0 then []
    else FlowRows(timestamp, tx, exchanges[..|exchanges| - 1])
         + AsSeq(FlowFor(timestamp, tx, exchanges[|exchanges| - 1]))
  }

  /** A row is written exactly when some exchange of the table contributes it. */
  lemma {:induction false} FlowRowsMembers(timestamp: int, tx: Tx, exchanges: seq<Exchange>, r: FlowRow)
    requires HasRecipient(tx)
    ensures r in FlowRows(timestamp, tx, exchanges) <==>
      exists k :: 0 <= k < |exchanges| && FlowFor(timestamp, tx, exchanges[k]) == Some(r)
  {
    if |exchanges| > 0 {
      var n := |exchanges| - 1;
      var front := exchanges[..n];
      var last := AsSeq(FlowFor(timestamp, tx, exchanges[n]));
      assert FlowRows(timestamp, tx, exchanges) == FlowRows(timestamp, tx, front) + last;
      FlowRowsMembers(timestamp, tx, front, r);
      if r in FlowRows(timestamp, tx, exchanges) {
        if r in FlowRows(timestamp, tx, front) {
          var k :| 0 <= k < |front| && FlowFor(timestamp, tx, front[k]) == Some(r);
          assert exchanges[k] == front[k];
        } else {
          assert r in last;
          assert FlowFor(timestamp, tx, exchanges[n]) == Some(r);
        }
      }
      if exists k :: 0 <= k < |exchanges| && FlowFor(timestamp, tx, exchanges[k]) == Some(r) {
        var k :| 0 <= k < |exchanges| && FlowFor(timestamp, tx, exchanges[k]) == Some(r);
        if k < n {
          assert front[k] == exchanges[k];
          assert r in FlowRows(timestamp, tx, front);
        } else {
          assert k == n;
          assert last == [r];
        }
      }
    }
  }

  /** Exchange `e` of the table accounts for row `r`: the names agree, an
      inflow row has `e`'s wallet as recipient, and an outflow row has it as
      sender and not as recipient. */
  predicate IsSource(tx: Tx, e: Exchange, exchanges: seq<Exchange>, r: FlowRow)
    requires HasRecipient(tx)
  {
    && e in exchanges
    && e.name == r.exchange
    && (r.flowType == Inflow ==> Lower(tx.toAddr.value) == Lower(e.address))
    && (r.flowType == Outflow ==>
          Lower(tx.toAddr.value) != Lower(e.address) && Lower(tx.fromAddr) == Lower(e.address))
  }

  /** Inflow for every exchange whose wallet is the recipient, outflow for every
      other exchange whose wallet is the sender, each carrying the transfer's
      ETH amount and hash; and no other rows. */
  lemma ExchangeFlowRows(timestamp: int, tx: Tx, exchanges: seq<Exchange>)
    requires HasRecipient(tx)
    ensures forall e :: e in exchanges && Lower(tx.toAddr.value) == Lower(e.address) ==>
      FlowRow(timestamp, e.name, Inflow, ValueEth(tx), tx.hash) in FlowRows(timestamp, tx, exchanges)
    ensures forall e ::
      (e in exchanges && Lower(tx.toAddr.value) != Lower(e.address) && Lower(tx.fromAddr) == Lower(e.address)) ==>
      FlowRow(timestamp, e.name, Outflow, ValueEth(tx), tx.hash) in FlowRows(timestamp, tx, exchanges)
    ensures forall r :: r in FlowRows(timestamp, tx, exchanges) ==>
      && r.timestamp == timestamp && r.amount == ValueEth(tx) && r.txHash == tx.hash
      && (exists e :: IsSource(tx, e, exchanges, r))
  {
    var rows := FlowRows(timestamp, tx, exchanges);
    forall e | e in exchanges && (Lower(tx.toAddr.value) == Lower(e.address) || Lower(tx.fromAddr) == Lower(e.address))
      ensures FlowFor(timestamp, tx, e).value in rows
    {
      var k :| 0 <= k < |exchanges| && exchanges[k] == e;
      FlowRowsMembers(timestamp, tx, exchanges, FlowFor(timestamp, tx, e).value);
    }
    forall r | r in rows
      ensures r.timestamp == timestamp && r.amount == ValueEth(tx) && r.txHash == tx.hash
      ensures exists e :: IsSource(tx, e, exchanges, r)
    {
      FlowRowsMembers(timestamp, tx, exchanges, r);
      var k :| 0 <= k < |exchanges| && FlowFor(timestamp, tx, exchanges[k]) == Some(r);
      assert IsSource(tx, exchanges[k], exchanges, r);
    }
  }

  /** What process_transaction writes (onchain_collector.py:210-265). */
  function TxApplied(exchanges: seq<Exchange>, t: Tables, timestamp: int, tx: Tx): Tables {
    if tx.valueWei == 0 then t
    else
      t.(largeTransfers :=
           if IsLargeTransfer(tx) then InsertLargeTransfer(t.largeTransfers, LargeTransferOf(timestamp, tx))
           else t.largeTransfers,
         exchangeFlow :=
           if HasRecipient(tx) then t.exchangeFlow + FlowRows(timestamp, tx, exchanges)
           else t.exchangeFlow)
  }

  /** A zero-value transaction writes nothing; a transaction touches only the
      transfer and flow tables; a transfer row with the transaction's hash is
      present afterwards exactly when one was before or the value exceeds 50
      ETH; hashes stay unique. */
  lemma TxAppliedLargeTransfers(exchanges: seq<Exchange>, t: Tables, timestamp: int, tx: Tx)
    requires TablesValid(t)
    ensures tx.valueWei == 0 ==> TxApplied(exchanges, t, timestamp, tx) == t
    ensures TxApplied(exchanges, t, timestamp, tx).gasPrices == t.gasPrices
    ensures TxApplied(exchanges, t, timestamp, tx).blocks == t.blocks
    ensures TablesValid(TxApplied(exchanges, t, timestamp, tx))
    ensures forall h :: HasTxHash(TxApplied(exchanges, t, timestamp, tx).largeTransfers, h) <==>
      HasTxHash(t.largeTransfers, h) || (h == tx.hash && IsLargeTransfer(tx))
    ensures IsLargeTransfer(tx) && !HasTxHash(t.largeTransfers, tx.hash) ==>
      TxApplied(exchanges, t, timestamp, tx).largeTransfers == t.largeTransfers + [LargeTransferOf(timestamp, tx)]
    ensures !IsLargeTransfer(tx) ==> TxApplied(exchanges, t, timestamp, tx).largeTransfers == t.largeTransfers
  {
    if tx.valueWei != 0 && IsLargeTransfer(tx) {
      InsertLargeTransferUnique(t.largeTransfers, LargeTransferOf(timestamp, tx));
    }
  }

  /** Flow rows are appended for a transaction with a recipient, and none for a
      contract creation, whose transfer row (if any) names "Contract Creation". */
  lemma TxAppliedExchangeFlow(exchanges: seq<Exchange>, t: Tables, timestamp: int, tx: Tx)
    ensures HasRecipient(tx) && tx.valueWei != 0 ==>
      TxApplied(exchanges, t, timestamp, tx).exchangeFlow == t.exchangeFlow + FlowRows(timestamp, tx, exchanges)
    ensures !HasRecipient(tx) ==> TxApplied(exchanges, t, timestamp, tx).exchangeFlow == t.exchangeFlow
    ensures !HasRecipient(tx) ==> LargeTransferOf(timestamp, tx).toAddr == "Contract Creation"
    ensures HasRecipient(tx) ==> LargeTransferOf(timestamp, tx).toAddr == tx.toAddr.value
  {
  }

  /** The transactions of a block, processed in order. */
  function TxsApplied(exchanges: seq<Exchange>, t: Tables, timestamp: int, txs: seq<Tx>): Tables {
    if |txs| == 0 then t
    else TxApplied(exchanges, TxsApplied(exchanges, t, timestamp, txs[..|txs| - 1]), timestamp, txs[|txs| - 1])
  }

  lemma {:induction false} TxsAppliedKeepsValid(exchanges: seq<Exchange>, t: Tables, timestamp: int, txs: seq<Tx>)
    requires TablesValid(t)
    ensures TablesValid(TxsApplied(exchanges, t, timestamp, txs))
    ensures TxsApplied(exchanges, t, timestamp, txs).gasPrices == t.gasPrices
    ensures TxsApplied(exchanges, t, timestamp, txs).blocks == t.blocks
  {
    if |txs| > 0 {
      TxsAppliedKeepsValid(exchanges, t, timestamp, txs[..|txs| - 1]);
      TxAppliedLargeTransfers(exchanges, TxsApplied(exchanges, t, timestamp, txs[..|txs| - 1]), timestamp, txs[|txs| - 1]);
    }
  }

  // ---------------------------------------------------------------------------
  // process_block
  // ---------------------------------------------------------------------------

  /** The gas price a transaction adds to the total: only a present, non-zero one. */
  function GasOf(tx: Tx): nat {
    if tx.gasPrice.Some? && tx.gasPrice.value != 0 then tx.gasPrice.value else 0
  }

  function GasTotal(txs: seq<Tx>): nat {
    if |txs| == 0 then 0 else GasTotal(txs[..|txs| - 1]) + GasOf(txs[|txs| - 1])
  }

  /** The `gas_price` column: the average in gwei, or 0 when the average is not
      positive. */
  function AverageGasGwei(txs: seq<Tx>): real {
    var avg := if |txs| > 0 then GasTotal(txs) as real / |txs| as real else 0.0;
    if avg > 0.0 then FromWeiGwei(avg) else 0.0
  }

  lemma {:induction false} GasTotalZero(txs: seq<Tx>)
    ensures GasTotal(txs) == 0 <==> forall i :: 0 <= i < |txs| ==> GasOf(txs[i]) == 0
  {
    if |txs| > 0 {
      var front := txs[..|txs| - 1];
      GasTotalZero(front);
      if GasTotal(txs) == 0 {
        forall i | 0 <= i < |txs|
          ensures GasOf(txs[i]) == 0
        {
          if i < |front| {
            assert txs[i] == front[i];
          }
        }
      }
      if forall i :: 0 <= i < |txs| ==> GasOf(txs[i]) == 0 {
        forall i | 0 <= i < |front|
          ensures GasOf(front[i]) == 0
        {
          assert front[i] == txs[i];
        }
      }
    }
  }

  /** The stored average times the transaction count recovers the total in wei,
      and it is 0 exactly when no transaction of the block has a gas price. */
  lemma AverageGasOfBlock(txs: seq<Tx>)
    requires |txs| > 0
    ensures AverageGasGwei(txs) >= 0.0
    ensures AverageGasGwei(txs) * 1000000000.0 * (|txs| as real) == GasTotal(txs) as real
    ensures AverageGasGwei(txs) == 0.0 <==> forall i :: 0 <= i < |txs| ==> GasOf(txs[i]) == 0
  {
    GasTotalZero(txs);
    AverageScales(GasTotal(txs) as real, |txs| as real, AverageGasGwei(txs));
  }

  /** The arithmetic of the stored average, on reals alone. */
  lemma AverageScales(total: real, count: real, stored: real)
    requires total >= 0.0 && count > 0.0
    requires stored == if total / count > 0.0 then FromWeiGwei(total / count) else 0.0
    ensures stored >= 0.0
    ensures stored * 1000000000.0 * count == total
    ensures stored == 0.0 <==> total == 0.0
  {
    var avg := total / count;
    assert avg * count == total;
    if avg > 0.0 {
      assert FromWeiGwei(avg) * 1000000000.0 == avg;
    }
  }

  function BlockRowOf(blockNumber: int, b: Block): BlockRow {
    BlockRow(b.timestamp, blockNumber, |b.transactions|, b.gasUsed, b.gasLimit)
  }

  function GasRowOf(blockNumber: int, b: Block): GasRow {
    GasRow(b.timestamp, AverageGasGwei(b.transactions), blockNumber, |b.transactions|)
  }

  /** What one call of process_block writes (onchain_collector.py:155-208). */
  function BlockApplied(exchanges: seq<Exchange>, t: Tables, blockNumber: int, outcome: BlockOutcome): Tables {
    match outcome
    case FetchFailed => t
    case Raised => t
    case Fetched(b) =>
      var withBlock := t.(blocks := InsertBlockRow(t.blocks, BlockRowOf(blockNumber, b)));
      if |b.transactions| == 0 then withBlock
      else TxsApplied(exchanges, withBlock.(gasPrices := withBlock.gasPrices + [GasRowOf(blockNumber, b)]),
                      b.timestamp, b.transactions)
  }

  /** The block table keeps one row per block number and records every fetched
      block; a block without transactions adds only its block row; a failed
      fetch or an escaping error writes nothing. */
  lemma BlockAppliedTables(exchanges: seq<Exchange>, t: Tables, blockNumber: int, outcome: BlockOutcome)
    requires TablesValid(t)
    ensures TablesValid(BlockApplied(exchanges, t, blockNumber, outcome))
    ensures forall n :: HasBlock(BlockApplied(exchanges, t, blockNumber, outcome).blocks, n) <==>
      HasBlock(t.blocks, n) || (n == blockNumber && outcome.Fetched?)
    ensures !outcome.Fetched? ==> BlockApplied(exchanges, t, blockNumber, outcome) == t
    ensures outcome.Fetched? && |outcome.block.transactions| == 0 ==>
      BlockApplied(exchanges, t, blockNumber, outcome)
        == t.(blocks := InsertBlockRow(t.blocks, BlockRowOf(blockNumber, outcome.block)))
    ensures outcome.Fetched? && |outcome.block.transactions| > 0 ==>
      BlockApplied(exchanges, t, blockNumber, outcome).gasPrices == t.gasPrices + [GasRowOf(blockNumber, outcome.block)]
  {
    if outcome.Fetched? {
      var b := outcome.block;
      InsertBlockRowUnique(t.blocks, BlockRowOf(blockNumber, b));
      var withBlock := t.(blocks := InsertBlockRow(t.blocks, BlockRowOf(blockNumber, b)));
      if |b.transactions| > 0 {
        TxsAppliedKeepsValid(exchanges, withBlock.(gasPrices := withBlock.gasPrices + [GasRowOf(blockNumber, b)]),
                             b.timestamp, b.transactions);
      }
    }
  }

  // ---------------------------------------------------------------------------
  // monitor_blocks: the cursor
  // ---------------------------------------------------------------------------

  /** `last_block` and `consecutive_errors`. */
  datatype Cursor = Cursor(last: int, errors: nat)

  /** An error: the count goes up, and is reset once it reaches the maximum
      (after the 60-second pause). */
  function AfterError(c: Cursor): (d: Cursor)
    ensures d.last == c.last
    ensures d.errors < MaxErrors
    ensures d.errors == 0 <==> c.errors + 1 >= MaxErrors
    ensures d.errors != 0 ==> d.errors == c.errors + 1
  {
    if c.errors + 1 >= MaxErrors then c.(errors := 0) else c.(errors := c.errors + 1)
  }

  datatype Monitor = Monitor(tables: Tables, cursor: Cursor)

  /** The inner `for` over `last_block + 1 .. current_block` in poll number
      `poll`: each block that returns moves the cursor to it and clears the
      error count; the first error stops the catch-up. */
  function CatchUp(exchanges: seq<Exchange>, m: Monitor, poll: nat, current: int, outcome: (nat, int) -> BlockOutcome): Monitor
    decreases current - m.cursor.last
  {
    if current <= m.cursor.last then m
    else
      var b := m.cursor.last + 1;
      if outcome(poll, b).Raised? then Monitor(m.tables, AfterError(m.cursor))
      else CatchUp(exchanges, Monitor(BlockApplied(exchanges, m.tables, b, outcome(poll, b)), Cursor(b, 0)), poll, current, outcome)
  }

  /** The cursor never moves back nor past the chain height; every block it
      passes returned from process_block (a failed fetch counts); when it stops
      short the next block raised; the error count stays below the maximum and
      is clear after a full catch-up; the unique keys hold throughout. */
  lemma {:induction false} CatchUpCursor(exchanges: seq<Exchange>, m: Monitor, poll: nat, current: int, outcome: (nat, int) -> BlockOutcome)
    requires m.cursor.errors < MaxErrors
    requires TablesValid(m.tables)
    ensures var r := CatchUp(exchanges, m, poll, current, outcome);
      && m.cursor.last <= r.cursor.last
      && (current <= m.cursor.last ==> r == m)
      && (current > m.cursor.last ==> r.cursor.last <= current)
      && (forall b :: m.cursor.last < b <= r.cursor.last ==> !outcome(poll, b).Raised?)
      && (r.cursor.last < current ==> outcome(poll, r.cursor.last + 1).Raised?)
      && (m.cursor.last < r.cursor.last == current ==> r.cursor.errors == 0)
      && r.cursor.errors < MaxErrors
      && TablesValid(r.tables)
    decreases current - m.cursor.last
  {
    if current > m.cursor.last {
      var b := m.cursor.last + 1;
      if !outcome(poll, b).Raised? {
        BlockAppliedTables(exchanges, m.tables, b, outcome(poll, b));
        CatchUpCursor(exchanges, Monitor(BlockApplied(exchanges, m.tables, b, outcome(poll, b)), Cursor(b, 0)), poll, current, outcome);
      }
    }
  }

  /** A block whose fetch fails is passed over all the same: the cursor
      advances past it and no row is written for it. */
  lemma FetchFailedAdvances(exchanges: seq<Exchange>, m: Monitor, poll: nat, current: int, outcome: (nat, int) -> BlockOutcome)
    requires m.cursor.errors < MaxErrors
    requires TablesValid(m.tables)
    requires m.cursor.last < current
    requires outcome(poll, m.cursor.last + 1).FetchFailed?
    ensures CatchUp(exchanges, m, poll, current, outcome) ==
      CatchUp(exchanges, Monitor(m.tables, Cursor(m.cursor.last + 1, 0)), poll, current, outcome)
    ensures CatchUp(exchanges, m, poll, current, outcome).cursor.last > m.cursor.last
  {
    CatchUpCursor(exchanges, Monitor(m.tables, Cursor(m.cursor.last + 1, 0)), poll, current, outcome);
  }

  /** One pass of the `while True` body: a failed height request is an error,
      otherwise the cursor catches up. */
  function PollStep(exchanges: seq<Exchange>, m: Monitor, poll: nat, height: Option<int>, outcome: (nat, int) -> BlockOutcome): Monitor {
    match height
    case None => Monitor(m.tables, AfterError(m.cursor))
    case Some(current) => CatchUp(exchanges, m, poll, current, outcome)
  }

  /** The monitor after the given polls, defined from the back so that the state
      at the top of iteration `i` is `Run(exchanges, start, polls[..i], outcome)`. */
  function Run(exchanges: seq<Exchange>, start: Monitor, polls: seq<Option<int>>, outcome: (nat, int) -> BlockOutcome): Monitor {
    if |polls| == 0 then start
    else PollStep(exchanges, Run(exchanges, start, polls[..|polls| - 1], outcome), |polls| - 1, polls[|polls| - 1], outcome)
  }

  /** At the top of every iteration the error count is below the maximum, the
      cursor has not moved back, and the unique keys hold. */
  lemma {:induction false} RunInvariant(exchanges: seq<Exchange>, start: Monitor, polls: seq<Option<int>>, outcome: (nat, int) -> BlockOutcome)
    requires start.cursor.errors < MaxErrors
    requires TablesValid(start.tables)
    ensures Run(exchanges, start, polls, outcome).cursor.errors < MaxErrors
    ensures Run(exchanges, start, polls, outcome).cursor.last >= start.cursor.last
    ensures TablesValid(Run(exchanges, start, polls, outcome).tables)
  {
    if |polls| > 0 {
      var before := Run(exchanges, start, polls[..|polls| - 1], outcome);
      RunInvariant(exchanges, start, polls[..|polls| - 1], outcome);
      if polls[|polls| - 1].Some? {
        CatchUpCursor(exchanges, before, |polls| - 1, polls[|polls| - 1].value, outcome);
      }
    }
  }

  /** Later polls never move the cursor back. */
  lemma {:induction false} RunMonotone(exchanges: seq<Exchange>, start: Monitor, polls: seq<Option<int>>, i: nat, outcome: (nat, int) -> BlockOutcome)
    requires start.cursor.errors < MaxErrors
    requires TablesValid(start.tables)
    requires i <= |polls|
    ensures Run(exchanges, start, polls[..i], outcome).cursor.last <= Run(exchanges, start, polls, outcome).cursor.last
    decreases |polls| - i
  {
    if i < |polls| {
      var n := |polls| - 1;
      assert polls[..n][..i] == polls[..i];
      if i < n {
        RunMonotone(exchanges, start, polls[..n], i, outcome);
      }
      var before := Run(exchanges, start, polls[..n], outcome);
      RunInvariant(exchanges, start, polls[..n], outcome);
      if polls[n].Some? {
        CatchUpCursor(exchanges, before, n, polls[n].value, outcome);
      }
    } else {
      assert polls[..i] == polls;
    }
  }

  // ---------------------------------------------------------------------------
  // The collector
  // ---------------------------------------------------------------------------

  /** The loop summing the present, non-zero gas prices of a block
      (onchain_collector.py:182-185). */
  method TotalGasPrice(txs: seq<Tx>) returns (total: nat)
    ensures total == GasTotal(txs)
    ensures total == 0 <==> forall i :: 0 <= i < |txs| ==> GasOf(txs[i]) == 0
  {
    total := 0;
    for k := 0 to |txs|
      invariant total == GasTotal(txs[..k])
    {
      assert txs[..k + 1][..k] == txs[..k];
      if txs[k].gasPrice.Some? && txs[k].gasPrice.value != 0 {
        total := total + txs[k].gasPrice.value;
      }
    }
    assert txs[..|txs|] == txs;
    GasTotalZero(txs);
  }

  class OnchainStore {
    /** `self.exchanges`: exchange names and wallet addresses. */
    const exchanges: seq<Exchange>
    var largeTransfers: seq<LargeTransferRow>
    var exchangeFlow: seq<FlowRow>
    var gasPrices: seq<GasRow>
    var blocks: seq<BlockRow>

    function State(): Tables
      reads this
    {
      Tables(largeTransfers, exchangeFlow, gasPrices, blocks)
    }

    predicate Valid()
      reads this
    {
      TablesValid(State())
    }

    /** The tables start empty and the exchange table is the fixed one. */
    constructor ()
      ensures exchanges == Exchanges
      ensures State() == Tables([], [], [], [])
      ensures Valid()
    {
      exchanges := Exchanges;
      largeTransfers := [];
      exchangeFlow := [];
      gasPrices := [];
      blocks := [];
    }

    /** process_transaction (onchain_collector.py:210-265). */
    method ProcessTransaction(tx: Tx, timestamp: int)
      requires Valid()
      modifies this
      ensures State() == TxApplied(exchanges, old(State()), timestamp, tx)
      ensures Valid()
    {
      TxAppliedLargeTransfers(exchanges, State(), timestamp, tx);
      if tx.valueWei == 0 {
        return;
      }
      var valueEth := FromWeiEther(tx.valueWei as real);
      if valueEth > LargeTransferEth {
        var gasUsed := if tx.receiptGasUsed.Some? then tx.receiptGasUsed.value else 0;
        var toAddr := if HasRecipient(tx) then tx.toAddr.value else "Contract Creation";
        var gasPrice := if tx.gasPrice.Some? then FromWeiGwei(tx.gasPrice.value as real) else 0.0;
        var row := LargeTransferRow(timestamp, tx.blockNumber, tx.hash, tx.fromAddr, toAddr, valueEth, gasPrice, gasUsed);
        largeTransfers := InsertLargeTransfer(largeTransfers, row);
      }
      assert largeTransfers == TxApplied(exchanges, old(State()), timestamp, tx).largeTransfers;
      if tx.toAddr.Some? && |tx.toAddr.value| > 0 {
        var fromLower := Lower(tx.fromAddr);
        var toLower := Lower(tx.toAddr.value);
        RecordFlows(tx, timestamp, valueEth, fromLower, toLower, exchanges);
      }
    }

    /** The loop over the exchange table (onchain_collector.py:244-265): the
        addresses are compared in lower case, inflow first. */
    method RecordFlows(tx: Tx, timestamp: int, valueEth: real, fromLower: string, toLower: string,
                       exchanges: seq<Exchange>)
      requires HasRecipient(tx)
      requires valueEth == ValueEth(tx)
      requires fromLower == Lower(tx.fromAddr) && toLower == Lower(tx.toAddr.value)
      modifies this
      ensures exchangeFlow == old(exchangeFlow) + FlowRows(timestamp, tx, exchanges)
      ensures largeTransfers == old(largeTransfers) && gasPrices == old(gasPrices) && blocks == old(blocks)
    {
      for k := 0 to |exchanges|
        invariant exchangeFlow == old(exchangeFlow) + FlowRows(timestamp, tx, exchanges[..k])
        invariant largeTransfers == old(largeTransfers) && gasPrices == old(gasPrices) && blocks == old(blocks)
      {
        ghost var done := FlowRows(timestamp, tx, exchanges[..k]);
        ghost var part := AsSeq(FlowFor(timestamp, tx, exchanges[k]));
        assert exchanges[..k + 1][..k] == exchanges[..k];
        assert FlowRows(timestamp, tx, exchanges[..k + 1]) == done + part;
        RecordFlow(tx, timestamp, valueEth, fromLower, toLower, exchanges[k]);
        AppendAssoc(old(exchangeFlow), done, part);
      }
      assert exchanges[..|exchanges|] == exchanges;
    }

    /** One exchange of the loop: inflow if it is the recipient, else outflow
        if it is the sender. */
    method RecordFlow(tx: Tx, timestamp: int, valueEth: real, fromLower: string, toLower: string, e: Exchange)
      requires HasRecipient(tx)
      requires valueEth == ValueEth(tx)
      requires fromLower == Lower(tx.fromAddr) && toLower == Lower(tx.toAddr.value)
      modifies this
      ensures exchangeFlow == old(exchangeFlow) + AsSeq(FlowFor(timestamp, tx, e))
      ensures largeTransfers == old(largeTransfers) && gasPrices == old(gasPrices) && blocks == old(blocks)
    {
      var addressLower := Lower(e.address);
      if toLower == addressLower {
        exchangeFlow := exchangeFlow + [FlowRow(timestamp, e.name, Inflow, valueEth, tx.hash)];
      } else if fromLower == addressLower {
        exchangeFlow := exchangeFlow + [FlowRow(timestamp, e.name, Outflow, valueEth, tx.hash)];
      }
    }

    /** process_block (onchain_collector.py:155-208); `raised` says whether an
        error escapes to the caller. */
    method ProcessBlock(blockNumber: int, outcome: BlockOutcome) returns (raised: bool)
      requires Valid()
      modifies this
      ensures raised <==> outcome.Raised?
      ensures State() == BlockApplied(exchanges, old(State()), blockNumber, outcome)
      ensures Valid()
    {
      BlockAppliedTables(exchanges, State(), blockNumber, outcome);
      match outcome
      case Raised =>
        raised := true;
      case FetchFailed =>
        raised := false;
      case Fetched(block) =>
        raised := false;
        var txs := block.transactions;
        blocks := InsertBlockRow(blocks, BlockRow(block.timestamp, blockNumber, |txs|, block.gasUsed, block.gasLimit));
        if |txs| == 0 {
          return;
        }
        var total := TotalGasPrice(txs);
        var avgGas := total as real / |txs| as real;
        gasPrices := gasPrices + [GasRow(block.timestamp, if avgGas > 0.0 then FromWeiGwei(avgGas) else 0.0, blockNumber, |txs|)];
        ProcessTransactions(txs, block.timestamp);
    }

    /** The loop over the transactions of a block (onchain_collector.py:202-206). */
    method ProcessTransactions(txs: seq<Tx>, timestamp: int)
      requires Valid()
      modifies this
      ensures State() == TxsApplied(exchanges, old(State()), timestamp, txs)
      ensures Valid()
    {
      for k := 0 to |txs|
        invariant State() == TxsApplied(exchanges, old(State()), timestamp, txs[..k])
        invariant Valid()
      {
        assert txs[..k + 1][..k] == txs[..k];
        ProcessTransaction(txs[k], timestamp);
      }
      assert txs[..|txs|] == txs;
    }

    /** The inner `for` of monitor_blocks for one poll. */
    method CatchUpBlocks(poll: nat, current: int, outcome: (nat, int) -> BlockOutcome, start: Cursor) returns (cursor: Cursor)
      requires Valid()
      modifies this
      ensures Monitor(State(), cursor) == CatchUp(exchanges, Monitor(old(State()), start), poll, current, outcome)
      ensures Valid()
    {
      cursor := start;
      while cursor.last < current
        invariant CatchUp(exchanges, Monitor(State(), cursor), poll, current, outcome)
               == CatchUp(exchanges, Monitor(old(State()), start), poll, current, outcome)
        invariant Valid()
        decreases current - cursor.last
      {
        var blockNumber := cursor.last + 1;
        var raised := ProcessBlock(blockNumber, outcome(poll, blockNumber));
        if raised {
          cursor := AfterError(cursor);
          return;
        }
        cursor := Cursor(blockNumber, 0);
      }
    }

    /** monitor_blocks (onchain_collector.py:110-153) over the given height
        polls: `None` when the start height cannot be read (the method returns
        at once), otherwise the final cursor. */
    method MonitorBlocks(startHeight: Option<int>, polls: seq<Option<int>>, outcome: (nat, int) -> BlockOutcome)
      returns (cursor: Option<Cursor>)
      requires Valid()
      modifies this
      ensures startHeight.None? ==> cursor.None? && State() == old(State())
      ensures startHeight.Some? ==>
        && cursor.Some?
        && Monitor(State(), cursor.value)
             == Run(exchanges, Monitor(old(State()), Cursor(startHeight.value - 1, 0)), polls, outcome)
      ensures Valid()
    {
      if startHeight.None? {
        return None;
      }
      ghost var start := Monitor(State(), Cursor(startHeight.value - 1, 0));
      var c := Cursor(startHeight.value - 1, 0);
      for i := 0 to |polls|
        invariant Monitor(State(), c) == Run(exchanges, start, polls[..i], outcome)
        invariant c.errors < MaxErrors
        invariant Valid()
      {
        assert polls[..i + 1][..i] == polls[..i];
        match polls[i]
        case None =>
          c := AfterError(c);
        case Some(current) =>
          if current > c.last {
            CatchUpCursor(exchanges, Monitor(State(), c), i, current, outcome);
            c := CatchUpBlocks(i, current, outcome, c);
          }
      }
      assert polls[..|polls|] == polls;
      cursor := Some(c);
    }
  }
}
