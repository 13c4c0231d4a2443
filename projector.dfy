/** The two scans every block of `map_usdc_events` and `map_usdc_calls` is an
    instance of. An event block walks the block's receipts in order, keeps the
    logs emitted by the tracked contract, runs the kind's `match_and_decode` on
    each and builds a record from every log that decodes. A call block walks
    the transactions' calls in order, keeps the calls to the tracked contract
    whose selector matches, decodes their input and builds a record from every
    call that decodes. The decoders are parameters; the record's kind-specific
    fields are built by a `render` function the instance supplies. */
module Projector {
  import opened Wrappers
  import opened Scalars
  import opened Eth
  import opened Iter
  import opened Contract
  import opened AbiFunctions

  /** The contract whose logs and calls are kept, 0xa0b86991c6218b36c1d19d4a2e9eb0ce3606eb48. */
  const USDC_TRACKED_CONTRACT: Address :=
    [0xa0, 0xb8, 0x69, 0x91, 0xc6, 0x21, 0x8b, 0x36, 0xc1, 0xd1,
     0x9d, 0x4a, 0x2e, 0x9e, 0xb0, 0xce, 0x36, 0x06, 0xeb, 0x48]

  predicate IsTracked(address: Bytes) {
    address == USDC_TRACKED_CONTRACT
  }

  predicate IsTrackedLog(log: Log) {
    IsTracked(log.address)
  }

  predicate IsTrackedCall(call: Call) {
    IsTracked(call.address)
  }

  /** The block fields every record copies: its number and its header's time. */
  datatype BlockStamp = BlockStamp(number: U64, timestamp: Timestamp)

  function StampOf(blk: Block): BlockStamp {
    BlockStamp(blk.number, blk.timestamp)
  }

  // =====================================================================
  // Event scan
  // =====================================================================

  /** The record built from `log` of the transaction with hash `txHash`, once
      the log decoded to `e`. */
  function EventRecordOf<E, P>(stamp: BlockStamp, txHash: Bytes, log: Log, e: E, render: E -> P): EventRecord<P> {
    EventRecord(Hex(txHash), log.blockIndex, Some(stamp.timestamp), stamp.number, render(e))
  }

  /** The `filter_map` closure of an event block, for the logs of one transaction. */
  function DecodeLog<E, P>(stamp: BlockStamp, txHash: Bytes, matchAndDecode: Log -> Option<E>, render: E -> P)
    : Log -> Option<EventRecord<P>>
  {
    (log: Log) =>
      match matchAndDecode(log)
      case Some(e) => Some(EventRecordOf(stamp, txHash, log, e, render))
      case None => None
  }

  /** The `flat_map` closure of an event block: the records of one receipt. */
  function ReceiptEvents<E, P>(stamp: BlockStamp, matchAndDecode: Log -> Option<E>, render: E -> P)
    : TransactionTrace -> seq<EventRecord<P>>
  {
    (tx: TransactionTrace) =>
      FilterMap(Filter(tx.receipt.logs, IsTrackedLog), DecodeLog(stamp, tx.hash, matchAndDecode, render))
  }

  /** One event block of `map_usdc_events`: the records of one event kind. */
  function ProjectEvents<E, P>(blk: Block, matchAndDecode: Log -> Option<E>, render: E -> P): seq<EventRecord<P>> {
    FlatMap(blk.transactions, ReceiptEvents(StampOf(blk), matchAndDecode, render))
  }

  // ----- the block's logs as one sequence -----

  /** A log together with the transaction whose receipt holds it. */
  datatype LogView = LogView(transaction: TransactionTrace, log: Log)

  function ViewLogIn(tx: TransactionTrace): Log -> LogView {
    (log: Log) => LogView(tx, log)
  }

  function TxLogViews(tx: TransactionTrace): seq<LogView> {
    Map(tx.receipt.logs, ViewLogIn(tx))
  }

  /** Every log of the block, in receipt order and then log order. */
  function LogViews(blk: Block): seq<LogView> {
    FlatMap(blk.transactions, TxLogViews)
  }

  /** The log yields a record of this kind: it is the tracked contract's, and it decodes. */
  predicate EventAdmitted<E>(v: LogView, matchAndDecode: Log -> Option<E>) {
    IsTracked(v.log.address) && matchAndDecode(v.log).Some?
  }

  function EventFrom<E, P>(stamp: BlockStamp, v: LogView, matchAndDecode: Log -> Option<E>, render: E -> P): Option<EventRecord<P>> {
    if IsTracked(v.log.address) then DecodeLog(stamp, v.transaction.hash, matchAndDecode, render)(v.log) else None
  }

  function EventStep<E, P>(stamp: BlockStamp, matchAndDecode: Log -> Option<E>, render: E -> P): LogView -> Option<EventRecord<P>> {
    (v: LogView) => EventFrom(stamp, v, matchAndDecode, render)
  }

  /** The per-receipt pipeline is one `filter_map` over all logs of the block. */
  lemma ProjectEventsOverLogViews<E, P>(blk: Block, matchAndDecode: Log -> Option<E>, render: E -> P)
    ensures ProjectEvents(blk, matchAndDecode, render) == FilterMap(LogViews(blk), EventStep(StampOf(blk), matchAndDecode, render))
  {
    var step := EventStep(StampOf(blk), matchAndDecode, render);
    forall tx: TransactionTrace
      ensures ReceiptEvents(StampOf(blk), matchAndDecode, render)(tx) == FilterMap(TxLogViews(tx), step)
    {
      var q := (log: Log) => step(LogView(tx, log));
      FilterThenFilterMap(tx.receipt.logs, IsTrackedLog, DecodeLog(StampOf(blk), tx.hash, matchAndDecode, render), q);
      MapThenFilterMap(tx.receipt.logs, ViewLogIn(tx), step, q);
    }
    FlatMapOfFilterMaps(blk.transactions, TxLogViews, step, ReceiptEvents(StampOf(blk), matchAndDecode, render));
  }

  /** What one event block produces, exactly. `Kept(..)` lists, for each record,
      the position of the log it comes from among all logs of the block; those
      positions are strictly increasing (records keep the block's log order),
      each names a log of the tracked contract that decodes, the record is built
      from that log, and every such log has its position in the list: a log of
      another contract, or one whose `match_and_decode` gives None, yields no
      record, and every other log yields exactly one. */
  lemma EventRecordsCharacterised<E, P>(blk: Block, matchAndDecode: Log -> Option<E>, render: E -> P)
    ensures var views := LogViews(blk);
      var records := ProjectEvents(blk, matchAndDecode, render);
      var origins := Kept(views, EventStep(StampOf(blk), matchAndDecode, render));
      && |origins| == |records|
      && StrictlyIncreasing(origins)
      && (forall k :: 0 <= k < |records| ==>
            && origins[k] < |views|
            && EventAdmitted(views[origins[k]], matchAndDecode)
            && records[k] == EventRecordOf(StampOf(blk), views[origins[k]].transaction.hash, views[origins[k]].log,
                                           matchAndDecode(views[origins[k]].log).value, render))
      && (forall i :: 0 <= i < |views| ==> (i in origins <==> EventAdmitted(views[i], matchAndDecode)))
  {
    var views := LogViews(blk);
    var step := EventStep(StampOf(blk), matchAndDecode, render);
    var records := ProjectEvents(blk, matchAndDecode, render);
    var origins := Kept(views, step);
    ProjectEventsOverLogViews(blk, matchAndDecode, render);
    FilterMapCharacterised(views, step);
    forall k | 0 <= k < |records|
      ensures EventAdmitted(views[origins[k]], matchAndDecode)
      ensures records[k] == EventRecordOf(StampOf(blk), views[origins[k]].transaction.hash, views[origins[k]].log,
                                          matchAndDecode(views[origins[k]].log).value, render)
    {
      assert step(views[origins[k]]) == Some(records[k]);
    }
    forall i | 0 <= i < |views| ensures i in origins <==> EventAdmitted(views[i], matchAndDecode) {
      assert step(views[i]).Some? <==> EventAdmitted(views[i], matchAndDecode);
    }
  }

  /** Every event record comes from a log of the tracked contract that decodes,
      and carries that log's block index, the hex of its transaction's hash, the
      block's time and number, and the log's decoded fields. */
  lemma EventRecordsComeFromTrackedLogs<E, P>(blk: Block, matchAndDecode: Log -> Option<E>, render: E -> P)
    ensures forall r :: r in ProjectEvents(blk, matchAndDecode, render) ==>
      && r.evtBlockNumber == blk.number
      && r.evtBlockTime == Some(blk.timestamp)
      && exists v :: v in LogViews(blk) && IsTracked(v.log.address) && matchAndDecode(v.log).Some?
           && r.evtIndex == v.log.blockIndex
           && r.evtTxHash == Hex(v.transaction.hash)
           && r.params == render(matchAndDecode(v.log).value)
  {
    var views := LogViews(blk);
    var records := ProjectEvents(blk, matchAndDecode, render);
    var origins := Kept(views, EventStep(StampOf(blk), matchAndDecode, render));
    EventRecordsCharacterised(blk, matchAndDecode, render);
    forall r | r in records
      ensures exists v :: (v in views && IsTracked(v.log.address) && matchAndDecode(v.log).Some?
                           && r.evtIndex == v.log.blockIndex
                           && r.evtTxHash == Hex(v.transaction.hash)
                           && r.params == render(matchAndDecode(v.log).value))
    {
      var k :| 0 <= k < |records| && records[k] == r;
      assert views[origins[k]] in views;
    }
  }

  /** Every log of the tracked contract that decodes yields its record. */
  lemma DecodableTrackedLogsAreRecorded<E, P>(blk: Block, matchAndDecode: Log -> Option<E>, render: E -> P)
    ensures forall v :: v in LogViews(blk) && IsTracked(v.log.address) && matchAndDecode(v.log).Some? ==>
      EventRecordOf(StampOf(blk), v.transaction.hash, v.log, matchAndDecode(v.log).value, render)
        in ProjectEvents(blk, matchAndDecode, render)
  {
    var views := LogViews(blk);
    var records := ProjectEvents(blk, matchAndDecode, render);
    var origins := Kept(views, EventStep(StampOf(blk), matchAndDecode, render));
    EventRecordsCharacterised(blk, matchAndDecode, render);
    forall v | v in views && IsTracked(v.log.address) && matchAndDecode(v.log).Some?
      ensures EventRecordOf(StampOf(blk), v.transaction.hash, v.log, matchAndDecode(v.log).value, render) in records
    {
      var i :| 0 <= i < |views| && views[i] == v;
      assert i in origins;
      var k :| 0 <= k < |origins| && origins[k] == i;
      assert records[k] == EventRecordOf(StampOf(blk), v.transaction.hash, v.log, matchAndDecode(v.log).value, render);
    }
  }

  /** If the block's logs come in increasing block-index order, a record of an
      event kind precedes another exactly when its log index is smaller. */
  lemma EventIndexesFollowBlockOrder<E, P>(blk: Block, matchAndDecode: Log -> Option<E>, render: E -> P)
    requires forall i, j :: 0 <= i < j < |LogViews(blk)| ==> LogViews(blk)[i].log.blockIndex < LogViews(blk)[j].log.blockIndex
    ensures var records := ProjectEvents(blk, matchAndDecode, render);
      forall k1, k2 :: 0 <= k1 < |records| && 0 <= k2 < |records| ==>
        (k1 < k2 <==> records[k1].evtIndex < records[k2].evtIndex)
  {
    var views := LogViews(blk);
    var records := ProjectEvents(blk, matchAndDecode, render);
    var origins := Kept(views, EventStep(StampOf(blk), matchAndDecode, render));
    EventRecordsCharacterised(blk, matchAndDecode, render);
    forall k1, k2 | 0 <= k1 < |records| && 0 <= k2 < |records|
      ensures k1 < k2 <==> records[k1].evtIndex < records[k2].evtIndex
    {
      if k1 < k2 {
        assert origins[k1] < origins[k2];
      } else if k2 < k1 {
        assert origins[k2] < origins[k1];
      }
    }
  }

  /** A block with no log of the tracked contract yields no event record. */
  lemma NoTrackedLogNoEvents<E, P>(blk: Block, matchAndDecode: Log -> Option<E>, render: E -> P)
    requires forall v :: v in LogViews(blk) ==> !IsTracked(v.log.address)
    ensures ProjectEvents(blk, matchAndDecode, render) == []
  {
    var views := LogViews(blk);
    ProjectEventsOverLogViews(blk, matchAndDecode, render);
    assert forall i :: 0 <= i < |views| ==> !IsTracked(views[i].log.address);
    FilterMapOfNothing(views, EventStep(StampOf(blk), matchAndDecode, render));
  }

  /** A block of one transaction whose receipt holds one log yields one record
      of a kind exactly when that log is the tracked contract's and decodes as
      that kind. */
  lemma SingleLogEvents<E, P>(blk: Block, matchAndDecode: Log -> Option<E>, render: E -> P)
    requires |blk.transactions| == 1 && |blk.transactions[0].receipt.logs| == 1
    ensures var tx := blk.transactions[0];
      var log := tx.receipt.logs[0];
      ProjectEvents(blk, matchAndDecode, render)
        == if IsTracked(log.address) && matchAndDecode(log).Some?
           then [EventRecordOf(StampOf(blk), tx.hash, log, matchAndDecode(log).value, render)]
           else []
  {
    var tx := blk.transactions[0];
    var log := tx.receipt.logs[0];
    assert blk.transactions[1..] == [];
    assert tx.receipt.logs[1..] == [];
    var kept := Filter(tx.receipt.logs, IsTrackedLog);
    assert kept == if IsTracked(log.address) then [log] else [];
    if IsTracked(log.address) {
      assert kept[1..] == [];
    }
    var h := ReceiptEvents(StampOf(blk), matchAndDecode, render);
    assert FlatMap(blk.transactions, h) == h(tx) + FlatMap(blk.transactions[1..], h);
  }

  /** A single log that does not decode as a kind yields no record of it. */
  lemma SingleLogRejected<E, P>(blk: Block, matchAndDecode: Log -> Option<E>, render: E -> P)
    requires |blk.transactions| == 1 && |blk.transactions[0].receipt.logs| == 1
    requires matchAndDecode(blk.transactions[0].receipt.logs[0]).None?
    ensures ProjectEvents(blk, matchAndDecode, render) == []
  {
    SingleLogEvents(blk, matchAndDecode, render);
  }

  // =====================================================================
  // Call scan
  // =====================================================================

  /** The record built from `call` of the transaction with hash `txHash`. */
  function CallRecordOf<P>(stamp: BlockStamp, txHash: Bytes, call: Call, params: P): CallRecord<P> {
    CallRecord(Hex(txHash), Some(stamp.timestamp), stamp.number, call.beginOrdinal, !call.stateReverted, params)
  }

  /** The `filter` closure of a call block: the tracked contract, and the function's selector. */
  function Selects<D>(sig: Function<D>): Call -> bool {
    (call: Call) => IsTracked(call.address) && sig.matchCall(call)
  }

  /** The `filter_map` closure of a call block: decode the input, drop the call on `Err`. */
  function DecodeCall<D, P>(stamp: BlockStamp, txHash: Bytes, sig: Function<D>, build: (Call, D) -> P)
    : Call -> Option<CallRecord<P>>
  {
    (call: Call) =>
      match sig.decode(call)
      case Ok(d) => Some(CallRecordOf(stamp, txHash, call, build(call, d)))
      case Err(_) => None
  }

  function TxCalls<D, P>(stamp: BlockStamp, sig: Function<D>, build: (Call, D) -> P): TransactionTrace -> seq<CallRecord<P>> {
    (tx: TransactionTrace) => FilterMap(Filter(tx.calls, Selects(sig)), DecodeCall(stamp, tx.hash, sig, build))
  }

  /** A call block, with the kind-specific fields built by `build` from the call
      and its decoded arguments. */
  function ProjectCallsBy<D, P>(blk: Block, sig: Function<D>, build: (Call, D) -> P): seq<CallRecord<P>> {
    FlatMap(blk.transactions, TxCalls(StampOf(blk), sig, build))
  }

  function FromArguments<D, P>(render: D -> P): (Call, D) -> P {
    (call: Call, d: D) => render(d)
  }

  /** A call block of a function without a return value. */
  function ProjectCalls<D, P>(blk: Block, sig: Function<D>, render: D -> P): seq<CallRecord<P>> {
    ProjectCallsBy(blk, sig, FromArguments(render))
  }

  /** `output_param0` of a returning function: the decoded return data, or
      `bool::default()` (false) when it does not decode. */
  function OutputOrDefault(output: OutputDecoder, returnData: Bytes): (b: bool)
    ensures output(returnData).Err? ==> !b
    ensures output(returnData).Ok? ==> b == output(returnData).value
  {
    match output(returnData)
    case Ok(b) => b
    case Err(_) => false
  }

  function WithOutput<D, P>(output: OutputDecoder, render: (D, bool) -> P): (Call, D) -> P {
    (call: Call, d: D) => render(d, OutputOrDefault(output, call.returnData))
  }

  /** A call block of a function that returns a `bool`. */
  function ProjectCallsWithOutput<D, P>(blk: Block, sig: Function<D>, output: OutputDecoder, render: (D, bool) -> P)
    : seq<CallRecord<P>>
  {
    ProjectCallsBy(blk, sig, WithOutput(output, render))
  }

  // ----- the block's calls as one sequence -----

  /** A call together with the transaction whose trace holds it. */
  datatype CallView = CallView(transaction: TransactionTrace, call: Call)

  function ViewCallIn(tx: TransactionTrace): Call -> CallView {
    (call: Call) => CallView(tx, call)
  }

  function TxCallViews(tx: TransactionTrace): seq<CallView> {
    Map(tx.calls, ViewCallIn(tx))
  }

  /** Every call of the block, in transaction order and then call order. */
  function CallViews(blk: Block): seq<CallView> {
    FlatMap(blk.transactions, TxCallViews)
  }

  /** The call yields a record of this kind: it targets the tracked contract, its
      selector matches, and its input decodes. Its output plays no part. */
  predicate CallAdmitted<D>(v: CallView, sig: Function<D>) {
    IsTracked(v.call.address) && sig.matchCall(v.call) && sig.decode(v.call).Ok?
  }

  function CallFrom<D, P>(stamp: BlockStamp, v: CallView, sig: Function<D>, build: (Call, D) -> P): Option<CallRecord<P>> {
    if Selects(sig)(v.call) then DecodeCall(stamp, v.transaction.hash, sig, build)(v.call) else None
  }

  function CallStep<D, P>(stamp: BlockStamp, sig: Function<D>, build: (Call, D) -> P): CallView -> Option<CallRecord<P>> {
    (v: CallView) => CallFrom(stamp, v, sig, build)
  }

  lemma ProjectCallsOverCallViews<D, P>(blk: Block, sig: Function<D>, build: (Call, D) -> P)
    ensures ProjectCallsBy(blk, sig, build) == FilterMap(CallViews(blk), CallStep(StampOf(blk), sig, build))
  {
    var step := CallStep(StampOf(blk), sig, build);
    forall tx: TransactionTrace
      ensures TxCalls(StampOf(blk), sig, build)(tx) == FilterMap(TxCallViews(tx), step)
    {
      var q := (call: Call) => step(CallView(tx, call));
      FilterThenFilterMap(tx.calls, Selects(sig), DecodeCall(StampOf(blk), tx.hash, sig, build), q);
      MapThenFilterMap(tx.calls, ViewCallIn(tx), step, q);
    }
    FlatMapOfFilterMaps(blk.transactions, TxCallViews, step, TxCalls(StampOf(blk), sig, build));
  }

  /** What one call block produces, exactly (as `EventRecordsCharacterised` for
      events): one record per call to the tracked contract whose selector
      matches and whose input decodes, in the order of the block's calls, and no
      record for any other call. */
  lemma CallRecordsCharacterised<D, P>(blk: Block, sig: Function<D>, build: (Call, D) -> P)
    ensures var views := CallViews(blk);
      var records := ProjectCallsBy(blk, sig, build);
      var origins := Kept(views, CallStep(StampOf(blk), sig, build));
      && |origins| == |records|
      && StrictlyIncreasing(origins)
      && (forall k :: 0 <= k < |records| ==>
            && origins[k] < |views|
            && CallAdmitted(views[origins[k]], sig)
            && records[k] == CallRecordOf(StampOf(blk), views[origins[k]].transaction.hash, views[origins[k]].call,
                                          build(views[origins[k]].call, sig.decode(views[origins[k]].call).value)))
      && (forall i :: 0 <= i < |views| ==> (i in origins <==> CallAdmitted(views[i], sig)))
  {
    var views := CallViews(blk);
    var step := CallStep(StampOf(blk), sig, build);
    var records := ProjectCallsBy(blk, sig, build);
    var origins := Kept(views, step);
    ProjectCallsOverCallViews(blk, sig, build);
    FilterMapCharacterised(views, step);
    forall k | 0 <= k < |records|
      ensures CallAdmitted(views[origins[k]], sig)
      ensures records[k] == CallRecordOf(StampOf(blk), views[origins[k]].transaction.hash, views[origins[k]].call,
                                         build(views[origins[k]].call, sig.decode(views[origins[k]].call).value))
    {
      assert step(views[origins[k]]) == Some(records[k]);
    }
    forall i | 0 <= i < |views| ensures i in origins <==> CallAdmitted(views[i], sig) {
      assert step(views[i]).Some? <==> CallAdmitted(views[i], sig);
    }
  }

  /** Every call record comes from a call to the tracked contract whose selector
      matches and whose input decodes; `call_success` is the negation of that
      call's revert flag and `call_ordinal` its begin ordinal. */
  lemma CallRecordsComeFromTrackedCalls<D, P>(blk: Block, sig: Function<D>, build: (Call, D) -> P)
    ensures forall r :: r in ProjectCallsBy(blk, sig, build) ==>
      && r.callBlockNumber == blk.number
      && r.callBlockTime == Some(blk.timestamp)
      && exists v :: v in CallViews(blk) && CallAdmitted(v, sig)
           && r.callTxHash == Hex(v.transaction.hash)
           && r.callOrdinal == v.call.beginOrdinal
           && r.callSuccess == !v.call.stateReverted
           && r.params == build(v.call, sig.decode(v.call).value)
  {
    var views := CallViews(blk);
    var records := ProjectCallsBy(blk, sig, build);
    var origins := Kept(views, CallStep(StampOf(blk), sig, build));
    CallRecordsCharacterised(blk, sig, build);
    forall r | r in records
      ensures exists v :: (v in views && CallAdmitted(v, sig)
                           && r.callTxHash == Hex(v.transaction.hash)
                           && r.callOrdinal == v.call.beginOrdinal
                           && r.callSuccess == !v.call.stateReverted
                           && r.params == build(v.call, sig.decode(v.call).value))
    {
      var k :| 0 <= k < |records| && records[k] == r;
      assert views[origins[k]] in views;
    }
  }

  /** Which calls yield records, in which order, and their common fields, do not
      depend on how the kind-specific fields are built. */
  lemma CallSelectionIndependentOfBuild<D, P, Q>(blk: Block, sig: Function<D>, b1: (Call, D) -> P, b2: (Call, D) -> Q)
    ensures var r1 := ProjectCallsBy(blk, sig, b1);
      var r2 := ProjectCallsBy(blk, sig, b2);
      && |r1| == |r2|
      && forall k :: 0 <= k < |r1| ==>
           && r1[k].callTxHash == r2[k].callTxHash
           && r1[k].callBlockTime == r2[k].callBlockTime
           && r1[k].callBlockNumber == r2[k].callBlockNumber
           && r1[k].callOrdinal == r2[k].callOrdinal
           && r1[k].callSuccess == r2[k].callSuccess
  {
    var views := CallViews(blk);
    var s1, s2 := CallStep(StampOf(blk), sig, b1), CallStep(StampOf(blk), sig, b2);
    forall v: CallView ensures s1(v).Some? <==> s2(v).Some? {
      assert s1(v).Some? <==> CallAdmitted(v, sig);
      assert s2(v).Some? <==> CallAdmitted(v, sig);
    }
    KeptDependsOnlyOnSomeness(views, s1, s2, 0);
    CallRecordsCharacterised(blk, sig, b1);
    CallRecordsCharacterised(blk, sig, b2);
  }

  /** A returning function's record is emitted whatever its return data: its
      `output_param0` is the decoded output, or false when the output does not
      decode, and the output decoder has no say in which calls are recorded. */
  lemma OutputDecodeNeverDropsRecord<D, P>(blk: Block, sig: Function<D>, output: OutputDecoder, render: (D, bool) -> P)
    ensures var records := ProjectCallsWithOutput(blk, sig, output, render);
      var views := CallViews(blk);
      var origins := Kept(views, CallStep(StampOf(blk), sig, WithOutput(output, render)));
      && |records| == |ProjectCalls(blk, sig, (d: D) => d)|
      && |origins| == |records|
      && (forall k :: 0 <= k < |records| ==>
            && origins[k] < |views|
            && CallAdmitted(views[origins[k]], sig)
            && records[k].params == render(sig.decode(views[origins[k]].call).value,
                                           OutputOrDefault(output, views[origins[k]].call.returnData))
            && (output(views[origins[k]].call.returnData).Err? ==>
                  records[k].params == render(sig.decode(views[origins[k]].call).value, false)))
  {
    CallRecordsCharacterised(blk, sig, WithOutput(output, render));
    CallSelectionIndependentOfBuild(blk, sig, WithOutput(output, render), FromArguments((d: D) => d));
  }

  /** If the block's calls come in increasing begin-ordinal order, a record of a
      function kind precedes another exactly when its ordinal is smaller. The
      scan itself never sorts: the order is the traversal order. */
  lemma CallOrdinalsFollowBlockOrder<D, P>(blk: Block, sig: Function<D>, build: (Call, D) -> P)
    requires forall i, j :: 0 <= i < j < |CallViews(blk)| ==> CallViews(blk)[i].call.beginOrdinal < CallViews(blk)[j].call.beginOrdinal
    ensures var records := ProjectCallsBy(blk, sig, build);
      forall k1, k2 :: 0 <= k1 < |records| && 0 <= k2 < |records| ==>
        (k1 < k2 <==> records[k1].callOrdinal < records[k2].callOrdinal)
  {
    var views := CallViews(blk);
    var records := ProjectCallsBy(blk, sig, build);
    var origins := Kept(views, CallStep(StampOf(blk), sig, build));
    CallRecordsCharacterised(blk, sig, build);
    forall k1, k2 | 0 <= k1 < |records| && 0 <= k2 < |records|
      ensures k1 < k2 <==> records[k1].callOrdinal < records[k2].callOrdinal
    {
      if k1 < k2 {
        assert origins[k1] < origins[k2];
      } else if k2 < k1 {
        assert origins[k2] < origins[k1];
      }
    }
  }

  /** A block with no call to the tracked contract yields no call record. */
  lemma NoTrackedCallNoRecords<D, P>(blk: Block, sig: Function<D>, build: (Call, D) -> P)
    requires forall v :: v in CallViews(blk) ==> !IsTracked(v.call.address)
    ensures ProjectCallsBy(blk, sig, build) == []
  {
    var views := CallViews(blk);
    ProjectCallsOverCallViews(blk, sig, build);
    assert forall i :: 0 <= i < |views| ==> !IsTracked(views[i].call.address);
    FilterMapOfNothing(views, CallStep(StampOf(blk), sig, build));
  }

  /** A block of one transaction with one call yields one record of a function
      kind exactly when the call targets the tracked contract, its selector
      matches and its input decodes; whether it reverted plays no part. */
  lemma SingleCallCalls<D, P>(blk: Block, sig: Function<D>, build: (Call, D) -> P)
    requires |blk.transactions| == 1 && |blk.transactions[0].calls| == 1
    ensures var tx := blk.transactions[0];
      var call := tx.calls[0];
      ProjectCallsBy(blk, sig, build)
        == if IsTracked(call.address) && sig.matchCall(call) && sig.decode(call).Ok?
           then [CallRecordOf(StampOf(blk), tx.hash, call, build(call, sig.decode(call).value))]
           else []
  {
    var tx := blk.transactions[0];
    var call := tx.calls[0];
    assert blk.transactions[1..] == [];
    assert tx.calls[1..] == [];
    var kept := Filter(tx.calls, Selects(sig));
    assert kept == if Selects(sig)(call) then [call] else [];
    if Selects(sig)(call) {
      assert kept[1..] == [];
    }
    var h := TxCalls(StampOf(blk), sig, build);
    assert FlatMap(blk.transactions, h) == h(tx) + FlatMap(blk.transactions[1..], h);
  }

  // =====================================================================
  // Logs and calls of other contracts
  // =====================================================================

  function StripUntracked(tx: TransactionTrace): TransactionTrace {
    tx.(receipt := TransactionReceipt(Filter(tx.receipt.logs, IsTrackedLog)),
        calls := Filter(tx.calls, IsTrackedCall))
  }

  /** The block with every log and call of another contract removed. */
  function WithoutUntracked(blk: Block): Block {
    blk.(transactions := Map(blk.transactions, StripUntracked))
  }

  /** Logs of other contracts have no effect on any event batch. */
  lemma UntrackedLogsAreIgnored<E, P>(blk: Block, matchAndDecode: Log -> Option<E>, render: E -> P)
    ensures ProjectEvents(WithoutUntracked(blk), matchAndDecode, render) == ProjectEvents(blk, matchAndDecode, render)
  {
    assert StampOf(WithoutUntracked(blk)) == StampOf(blk);
    var h := ReceiptEvents(StampOf(blk), matchAndDecode, render);
    forall tx: TransactionTrace ensures h(StripUntracked(tx)) == h(tx) {
      FilterTwice(tx.receipt.logs, IsTrackedLog, IsTrackedLog, IsTrackedLog);
    }
    FlatMapOfMap(blk.transactions, StripUntracked, h, h);
  }

  /** Calls to other contracts have no effect on any call batch. */
  lemma UntrackedCallsAreIgnored<D, P>(blk: Block, sig: Function<D>, build: (Call, D) -> P)
    ensures ProjectCallsBy(WithoutUntracked(blk), sig, build) == ProjectCallsBy(blk, sig, build)
  {
    assert StampOf(WithoutUntracked(blk)) == StampOf(blk);
    var h := TxCalls(StampOf(blk), sig, build);
    forall tx: TransactionTrace ensures h(StripUntracked(tx)) == h(tx) {
      FilterTwice(tx.calls, IsTrackedCall, Selects(sig), Selects(sig));
    }
    FlatMapOfMap(blk.transactions, StripUntracked, h, h);
  }
}
