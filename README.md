# USDC events and calls extraction, modelled in Dafny

This project models the Rust module that extracts the activity of one ERC-20
token contract (USDC, at address `0xa0b86991c6218b36c1d19d4a2e9eb0ce3606eb48`)
from an Ethereum block. It covers `src/lib.rs` and the record types of
`src/pb/contract.v1.rs`.

For every one of the contract's 19 event kinds, `map_usdc_events` walks the
block's receipts in order. It keeps the logs whose address is the tracked
contract and decodes each one with the kind's `match_and_decode`. Every log
that decodes becomes one record, which is appended to that kind's batch in
`Events`. A record carries:

- the hex of its transaction's hash;
- the log's block index;
- the block's time and number;
- the decoded fields. Amounts become decimal strings and byte arrays stay bytes.

For every one of the contract's 34 functions, `map_usdc_calls` does the same
over each transaction's calls. It keeps a call when its address is the tracked
contract and its selector matches, then decodes the call's input. A call whose
input does not decode yields no record. A call record carries the call's begin
ordinal and `call_success`, which is the negation of the call's revert flag.
Its fields follow the event conventions, and the `uint8` arguments `v` and
`token_decimals` widen to `u64`.
Eight functions return a `bool`: `approve`, `configureMinter`,
`decreaseAllowance`, `increaseAllowance`, `mint`, `removeMinter`, `transfer` and
`transferFrom`. For these, the return data is decoded separately into
`output_param0`. When that decode fails, the field is `false` and the record is
still emitted.

The handlers `map_events` and `map_calls` each start from an empty container
and fill it from the block. They then ask the runtime to skip the output if it
is empty. `map_events_calls` puts both outputs side by side.

Layout:

- `wrappers.dfy`: `Option` and `Result`.
- `scalars.dfy`: bytes and fixed-width integers. It also holds lower-case hex
  (`Hex`, the `substreams::Hex` rendering) and decimal strings (`Decimal`, the
  `to_string` of an unsigned big integer), each with its parser. The hex round
  trip is the lemma `HexRoundTrip`; the decimal round trip is a postcondition
  of `Decimal` itself.
- `iter.dfy`: the Rust iterator adaptors `map`, `filter`, `filter_map` and
  `flat_map` as functions on sequences. `Kept` lists where each kept element
  came from, and lemmas relate the adaptors to one another.
- `eth.dfy`: the parts of the block the module reads.
- `abi_events.dfy`, `abi_functions.dfy`: the decoded argument types of every
  event and function. The generated ABI decoders are supplied as a catalogue of
  functions (`Decoders`), because that generated code is not part of this model.
- `contract.dfy`: the records, `Events`, `Calls` and `EventsCalls`. Every record
  is a header shared by all kinds (`EventRecord`, `CallRecord`) plus its
  kind's own fields.
- `projector.dfy`: the one event scan and the one call scan that the 53 blocks
  of `lib.rs` instantiate, with their properties proved once for every kind.
- `usdc.dfy`: the per-kind field conversions, the two block functions
  `BlockEvents` and `BlockCalls` that specify the handlers, the handlers
  themselves, and whole-block properties and scenarios.

The `&mut contract::Events` argument of `map_usdc_events` is modelled as an
input value and a returned value. `MapUsdcEvents` appends the 19 batches one
after another, as the Rust does, and its contract states that the result is
the input with the block's records appended to every batch.

Three facts about the code that the model keeps:

- The code handles 34 functions.
- Call records keep traversal order: transactions in order, then each
  transaction's calls in order. The code never sorts them by `begin_ordinal`.
  `CallOrdinalsFollowBlockOrder` gives the case where the block's calls are
  already in increasing ordinal order.
- `output_param0` of any call, reverted or not, is its decoded return data,
  and false only when that decode fails (`src/lib.rs:419-422`).
  `RevertedApproveScenario` states a reverted call whose decode fails. Its
  transaction holds only that call. Under the status filtering of
  `transactions()`, which the model leaves out, a transaction whose root call
  reverted never reaches the scan. A reverted call is then recorded only when
  it is nested under a successful root call.

## Model

| member | source | states |
|---|---|---|
| Scalars.Hex | src/lib.rs:336 | the transaction-hash string has two lower-case hex digits per byte |
| Scalars.HexRoundTrip | src/lib.rs:336 | parsing the hex string gives back the transaction hash bytes |
| Scalars.HexInjective | src/lib.rs:336 | distinct transaction hashes give distinct `evt_tx_hash`/`call_tx_hash` strings |
| Scalars.Decimal | src/lib.rs:342 | an amount's string is non-empty decimal digits with no leading zero (only "0" for zero), and it parses back to the amount |
| Scalars.DecimalInjective | src/lib.rs:342 | distinct amounts give distinct strings |
| Contract.DefaultEvents | src/pb/contract.v1.rs:2-43 | `Events::default()` holds no record |
| Contract.AppendEvents | src/lib.rs:19-39 | appending the block's batches adds their record counts; appending to the default container gives the block's batches |
| Contract.DefaultCalls | src/pb/contract.v1.rs:44-115 | `Calls::default()` holds no record |
| Contract.AppendCalls | src/lib.rs:411-439 | as `AppendEvents`, for call batches |
| Projector.USDC_TRACKED_CONTRACT | src/lib.rs:16 | the 20-byte address of the tracked contract, `0xa0b86991c6218b36c1d19d4a2e9eb0ce3606eb48` |
| Projector.EventRecordOf | src/lib.rs:26-30 | an event record's header: the transaction hash in hex, the log's block index, the block's time and number; characterised by `EventRecordsComeFromTrackedLogs` |
| Projector.ProjectEvents | src/lib.rs:19-39 | one event block: `flat_map` over the receipts of a `filter` on the tracked address and a `filter_map` through the kind's decoder; characterised by `EventRecordsCharacterised` |
| Projector.CallRecordOf | src/lib.rs:424-429 | a call record's header: the transaction hash in hex, the block's time and number, the begin ordinal and the negated revert flag; characterised by `CallRecordsComeFromTrackedCalls` |
| Projector.ProjectCallsBy | src/lib.rs:411-439 | one call block: `flat_map` over the transactions of a `filter` on the tracked address and selector and a `filter_map` that keeps the calls whose input decodes; characterised by `CallRecordsCharacterised` |
| Projector.ProjectCalls | src/lib.rs:440-461 | the call block of a function without a return value, its fields built from the decoded arguments alone; characterised by `CallRecordsCharacterised` |
| Projector.ProjectCallsWithOutput | src/lib.rs:411-439 | the call block of a function returning a `bool`, whose record also carries `OutputOrDefault` of the return data; characterised by `OutputDecodeNeverDropsRecord` |
| Projector.ProjectEventsOverLogViews | src/lib.rs:19-39 | the per-receipt `filter`/`filter_map` inside `flat_map` equals one `filter_map` over all logs of the block in order |
| Projector.EventRecordsCharacterised | src/lib.rs:19-39 | one record per log of the tracked contract that decodes as the kind, built from that log and kept in the block's log order; no record for any other log |
| Projector.EventRecordsComeFromTrackedLogs | src/lib.rs:23-33 | every event record has the block's number and time and comes from a tracked, decodable log whose index, transaction-hash hex and decoded fields it carries |
| Projector.DecodableTrackedLogsAreRecorded | src/lib.rs:23-34 | every tracked log that decodes as the kind yields its record |
| Projector.EventIndexesFollowBlockOrder | src/lib.rs:19-39 | when the block's logs are in increasing index order, one event record precedes another exactly when its `evt_index` is smaller |
| Projector.NoTrackedLogNoEvents | src/lib.rs:23 | a block without logs of the tracked contract yields no event record |
| Projector.SingleLogEvents | src/lib.rs:19-39 | a one-log block yields that log's record exactly when the log is tracked and decodes as the kind |
| Projector.SingleLogRejected | src/lib.rs:25-37 | in a one-log block, a log that does not decode as a kind yields no record of that kind (the general fact is the last conjunct of `EventRecordsCharacterised`) |
| Projector.OutputOrDefault | src/lib.rs:419-422 | `output_param0` is the decoded return value, or false when the return data does not decode |
| Projector.ProjectCallsOverCallViews | src/lib.rs:411-439 | the per-transaction `filter`/`filter_map` inside `flat_map` equals one `filter_map` over all calls of the block in order |
| Projector.CallRecordsCharacterised | src/lib.rs:411-439 | one record per call to the tracked contract whose selector matches and whose input decodes, built from that call and kept in traversal order; no record for any other call |
| Projector.CallRecordsComeFromTrackedCalls | src/lib.rs:415-434 | every call record has the block's number and time, `call_ordinal` equal to its call's begin ordinal, and `call_success` equal to the negated revert flag |
| Projector.CallSelectionIndependentOfBuild | src/lib.rs:417-436 | which calls yield records, their order and their common fields do not depend on how the kind's own fields are built |
| Projector.OutputDecodeNeverDropsRecord | src/lib.rs:418-434 | a returning function records every admitted call, as many as without any output decode, with `output_param0` false when the return data fails to decode |
| Projector.CallOrdinalsFollowBlockOrder | src/lib.rs:411-439 | when the block's calls are in increasing begin-ordinal order, one call record precedes another exactly when its `call_ordinal` is smaller |
| Projector.NoTrackedCallNoRecords | src/lib.rs:415 | a block without calls to the tracked contract yields no call record |
| Projector.SingleCallCalls | src/lib.rs:411-439 | a one-call block yields that call's record exactly when the call is tracked, matches and decodes, reverted or not |
| Projector.UntrackedLogsAreIgnored | src/lib.rs:23 | removing every log of another contract leaves each event batch unchanged |
| Projector.UntrackedCallsAreIgnored | src/lib.rs:415 | removing every call to another contract leaves each call batch unchanged |
| Usdc.RenderAdminChanged | src/lib.rs:31-32 | address fields are copied as bytes (the template of every event and call field of type `address` or `bytes`) |
| Usdc.RenderTransfer | src/lib.rs:340-342 | `uint256` amounts become their decimal string, whose round trip is the postcondition of `Decimal` (the template of every amount field) |
| Usdc.RenderAuthorizationCanceled | src/lib.rs:74-75 | a `bytes32` nonce becomes its 32 bytes through `Vec::from` (the template of every fixed-size byte-array field) |
| Usdc.RenderBlacklistCall | src/lib.rs:454 | a call's decoded address argument is copied (the template of the 26 functions without a return value) |
| Usdc.RenderApproveCall | src/lib.rs:430-432 | a returning function's record holds `output_param0` and its decoded arguments (the template of the 8 returning functions) |
| Usdc.RenderCancelAuthorization1Call | src/lib.rs:498-502 | `v` is the `uint8` argument widened to `u64` with `to_u64()` (also `token_decimals`, src/lib.rs:662) |
| Usdc.RenderInitializeV22Call | src/lib.rs:730-731 | the address array `accounts_to_blacklist` is copied element for element |
| Usdc.BlockEvents | src/lib.rs:18-409 | the 19 event batches of one block, each a `ProjectEvents` with its kind's decoder and conversion; the specification of `MapUsdcEvents` and `MapEvents` |
| Usdc.BlockCalls | src/lib.rs:410-1268 | the 34 call batches of one block, each a `ProjectCalls` or `ProjectCallsWithOutput` with its function's decoder and conversion; the specification of `MapUsdcCalls` and `MapCalls` |
| Usdc.MapUsdcEvents | src/lib.rs:18-409 | each of the 19 event batches becomes the old batch followed by the block's records of that kind |
| Usdc.MapUsdcCalls | src/lib.rs:410-1268 | each of the 34 call batches becomes the old batch followed by the block's records of that kind |
| Usdc.MapEvents | src/lib.rs:1280-1286 | returns `Ok` with exactly the block's event records; the output is skipped exactly when it holds no record |
| Usdc.MapCalls | src/lib.rs:1287-1293 | returns `Ok` with exactly the block's call records; the output is skipped exactly when it holds no record |
| Usdc.MapEventsCalls | src/lib.rs:1270-1279 | never fails, and forwards both inputs unchanged and present |
| Usdc.QuietBlockHasNoEvents | src/lib.rs:1280-1286 | a block without logs of the tracked contract gives the empty `Events`, so the output is skipped |
| Usdc.QuietBlockHasNoCalls | src/lib.rs:1287-1293 | a block without calls to the tracked contract gives the empty `Calls`, so the output is skipped |
| Usdc.EventsIgnoreOtherContracts | src/lib.rs:18-409 | logs of other contracts change none of the 19 event batches |
| Usdc.CallsIgnoreOtherContracts | src/lib.rs:410-1268 | calls to other contracts change none of the 34 call batches |
| Usdc.TransferScenarioBatch | src/lib.rs:328-349 | a tracked log decoding as a transfer of 1000000 yields one transfer record with value "1000000" and the log's header |
| Usdc.TransferScenario | src/lib.rs:18-409 | that block's `Events` holds the one transfer record and every other batch is empty |
| Usdc.RevertedApproveScenario | src/lib.rs:411-439 | a reverted tracked `approve(spender, 5)` whose return data does not decode yields one record with `call_success` false, value "5" and `output_param0` false |

## Left out

- ABI decoding (`match_and_decode`, `match_call`, `decode`, `output` of the generated `abi` module) is not part of this model. The decoders are parameters: each property holds for whatever they return.
- The substreams library's `receipts()` and `transactions()` iterators are modelled by the block's transaction list. Any filtering they apply, such as on transaction status, is not modelled.
- `skip_empty_output()` is a request to the runtime. It is modelled as the returned flag `skipped`, true exactly when the output holds no record; what the runtime then does is not modelled.
- The protobuf encoding of records, and the derived `Clone` and `PartialEq`, are not modelled.
- Amounts are modelled as unbounded naturals. The 256-bit bound of the ABI type is not enforced, and a negative `BigInt` cannot arise from an unsigned ABI type.
- `v` and `token_decimals` are `uint8` values widened with `to_u64()`. That conversion is the identity on their range, so its failure path is not modelled.
- `Hex` and `Decimal` are the renderings the code relies on. The library code behind them is not part of this model.
- The `substreams::errors::Error` type is modelled as a string, and no handler ever returns one.
- `blk.timestamp()` and the receipt view unwrap the block header's timestamp and each transaction's receipt. The model's `Block` always has both, so the abort on a block lacking them is not modelled; `MapEvents` and `MapCalls` return `Ok` for every block the model represents.
- `subgraph/src/mappings.ts` consumes these records downstream and is not part of this model.
