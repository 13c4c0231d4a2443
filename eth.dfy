/** The parts of the Ethereum block model (`substreams_ethereum::pb::eth::v2`)
    that the pipeline reads. The block is an input only: nothing here changes it. */
module Eth {
  import opened Scalars

  /** `prost_types::Timestamp`: copied from the block into every record, never
      inspected. */
  datatype Timestamp = Timestamp(seconds: int, nanos: int)

  /** A log entry: the emitting contract's address, its topics and data (the
      ABI payload), and its position among all logs of the block. */
  datatype Log = Log(address: Bytes, topics: seq<Bytes>, data: Bytes, blockIndex: U32)

  datatype TransactionReceipt = TransactionReceipt(logs: seq<Log>)

  /** A call of the transaction's call tree (top-level or nested, in the order
      the trace lists them): its target address, its block-wide ordinal, whether
      its state changes were reverted, its input and its return data. */
  datatype Call = Call(address: Bytes, beginOrdinal: U64, stateReverted: bool, input: Bytes, returnData: Bytes)

  datatype TransactionTrace = TransactionTrace(hash: Bytes, receipt: TransactionReceipt, calls: seq<Call>)

  /** A block: its number, its timestamp and its transactions, in the order the
      block's `receipts()` and `transactions()` iterators yield them. The header's
      timestamp and each transaction's receipt are always present here; a block
      lacking them, on which `blk.timestamp()` or the receipt view aborts, is not
      represented. */
  datatype Block = Block(number: U64, timestamp: Timestamp, transactions: seq<TransactionTrace>)
}
