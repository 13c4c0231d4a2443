/** The handlers of `lib.rs`: the tracked contract's 19 event kinds and 34
    function kinds, each an instance of the scans of `Projector`, and the three
    module entry points. */
module Usdc {
  import opened Wrappers
  import opened Scalars
  import opened Eth
  import opened Contract
  import opened Projector
  import AbiEvents
  import AbiFunctions

  // =====================================================================
  // Per-kind field conversions: addresses and byte strings are copied,
  // unsigned integers become their decimal string, `uint8` fields widen to
  // u64, and returning functions take their `output_param0`.
  // =====================================================================

  function RenderAdminChanged(d: AbiEvents.AdminChanged): AdminChangedFields
  {
    AdminChangedFields(d.previousAdmin, d.newAdmin)
  }

  function RenderApproval(d: AbiEvents.Approval): ApprovalFields
  {
    ApprovalFields(d.owner, d.spender, Decimal(d.value))
  }

  function RenderAuthorizationCanceled(d: AbiEvents.AuthorizationCanceled): AuthorizationCanceledFields
  {
    AuthorizationCanceledFields(d.authorizer, d.nonce)
  }

  function RenderAuthorizationUsed(d: AbiEvents.AuthorizationUsed): AuthorizationUsedFields
  {
    AuthorizationUsedFields(d.authorizer, d.nonce)
  }

  function RenderBlacklisted(d: AbiEvents.Blacklisted): BlacklistedFields
  {
    BlacklistedFields(d.uAccount)
  }

  function RenderBlacklisterChanged(d: AbiEvents.BlacklisterChanged): BlacklisterChangedFields
  {
    BlacklisterChangedFields(d.newBlacklister)
  }

  function RenderBurn(d: AbiEvents.Burn): BurnFields
  {
    BurnFields(d.burner, Decimal(d.amount))
  }

  function RenderMasterMinterChanged(d: AbiEvents.MasterMinterChanged): MasterMinterChangedFields
  {
    MasterMinterChangedFields(d.newMasterMinter)
  }

  function RenderMint(d: AbiEvents.Mint): MintFields
  {
    MintFields(d.minter, d.to, Decimal(d.amount))
  }

  function RenderMinterConfigured(d: AbiEvents.MinterConfigured): MinterConfiguredFields
  {
    MinterConfiguredFields(d.minter, Decimal(d.minterAllowedAmount))
  }

  function RenderMinterRemoved(d: AbiEvents.MinterRemoved): MinterRemovedFields
  {
    MinterRemovedFields(d.oldMinter)
  }

  function RenderOwnershipTransferred(d: AbiEvents.OwnershipTransferred): OwnershipTransferredFields
  {
    OwnershipTransferredFields(d.previousOwner, d.newOwner)
  }

  function RenderPause(d: AbiEvents.Pause): PauseFields
  {
    PauseFields
  }

  function RenderPauserChanged(d: AbiEvents.PauserChanged): PauserChangedFields
  {
    PauserChangedFields(d.newAddress)
  }

  function RenderRescuerChanged(d: AbiEvents.RescuerChanged): RescuerChangedFields
  {
    RescuerChangedFields(d.newRescuer)
  }

  function RenderTransfer(d: AbiEvents.Transfer): TransferFields
  {
    TransferFields(d.from, d.to, Decimal(d.value))
  }

  function RenderUnBlacklisted(d: AbiEvents.UnBlacklisted): UnBlacklistedFields
  {
    UnBlacklistedFields(d.uAccount)
  }

  function RenderUnpause(d: AbiEvents.Unpause): UnpauseFields
  {
    UnpauseFields
  }

  function RenderUpgraded(d: AbiEvents.Upgraded): UpgradedFields
  {
    UpgradedFields(d.implementation)
  }

  function RenderApproveCall(d: AbiFunctions.Approve, output: bool): ApproveCallFields
  {
    ApproveCallFields(d.spender, Decimal(d.value), output)
  }

  function RenderBlacklistCall(d: AbiFunctions.Blacklist): BlacklistCallFields
  {
    BlacklistCallFields(d.uAccount)
  }

  function RenderBurnCall(d: AbiFunctions.Burn): BurnCallFields
  {
    BurnCallFields(Decimal(d.uAmount))
  }

  function RenderCancelAuthorization1Call(d: AbiFunctions.CancelAuthorization1): CancelAuthorization1CallFields
  {
    CancelAuthorization1CallFields(d.authorizer, d.nonce, d.v, d.r, d.s)
  }

  function RenderCancelAuthorization2Call(d: AbiFunctions.CancelAuthorization2): CancelAuthorization2CallFields
  {
    CancelAuthorization2CallFields(d.authorizer, d.nonce, d.signature)
  }

  function RenderChangeAdminCall(d: AbiFunctions.ChangeAdmin): ChangeAdminCallFields
  {
    ChangeAdminCallFields(d.newAdmin)
  }

  function RenderConfigureMinterCall(d: AbiFunctions.ConfigureMinter, output: bool): ConfigureMinterCallFields
  {
    ConfigureMinterCallFields(d.minter, Decimal(d.minterAllowedAmount), output)
  }

  function RenderDecreaseAllowanceCall(d: AbiFunctions.DecreaseAllowance, output: bool): DecreaseAllowanceCallFields
  {
    DecreaseAllowanceCallFields(d.spender, Decimal(d.decrement), output)
  }

  function RenderIncreaseAllowanceCall(d: AbiFunctions.IncreaseAllowance, output: bool): IncreaseAllowanceCallFields
  {
    IncreaseAllowanceCallFields(d.spender, Decimal(d.increment), output)
  }

  function RenderInitializeCall(d: AbiFunctions.Initialize): InitializeCallFields
  {
    InitializeCallFields(d.tokenName, d.tokenSymbol, d.tokenCurrency, d.tokenDecimals, d.newMasterMinter, d.newPauser, d.newBlacklister, d.newOwner)
  }

  function RenderInitializeV2Call(d: AbiFunctions.InitializeV2): InitializeV2CallFields
  {
    InitializeV2CallFields(d.newName)
  }

  function RenderInitializeV21Call(d: AbiFunctions.InitializeV21): InitializeV21CallFields
  {
    InitializeV21CallFields(d.lostAndFound)
  }

  function RenderInitializeV22Call(d: AbiFunctions.InitializeV22): InitializeV22CallFields
  {
    InitializeV22CallFields(d.accountsToBlacklist, d.newSymbol)
  }

  function RenderMintCall(d: AbiFunctions.Mint, output: bool): MintCallFields
  {
    MintCallFields(d.uTo, Decimal(d.uAmount), output)
  }

  function RenderPauseCall(d: AbiFunctions.Pause): PauseCallFields
  {
    PauseCallFields
  }

  function RenderPermit1Call(d: AbiFunctions.Permit1): Permit1CallFields
  {
    Permit1CallFields(d.owner, d.spender, Decimal(d.value), Decimal(d.deadline), d.signature)
  }

  function RenderPermit2Call(d: AbiFunctions.Permit2): Permit2CallFields
  {
    Permit2CallFields(d.owner, d.spender, Decimal(d.value), Decimal(d.deadline), d.v, d.r, d.s)
  }

  function RenderReceiveWithAuthorization1Call(d: AbiFunctions.ReceiveWithAuthorization1): ReceiveWithAuthorization1CallFields
  {
    ReceiveWithAuthorization1CallFields(d.from, d.to, Decimal(d.value), Decimal(d.validAfter), Decimal(d.validBefore), d.nonce, d.signature)
  }

  function RenderReceiveWithAuthorization2Call(d: AbiFunctions.ReceiveWithAuthorization2): ReceiveWithAuthorization2CallFields
  {
    ReceiveWithAuthorization2CallFields(d.from, d.to, Decimal(d.value), Decimal(d.validAfter), Decimal(d.validBefore), d.nonce, d.v, d.r, d.s)
  }

  function RenderRemoveMinterCall(d: AbiFunctions.RemoveMinter, output: bool): RemoveMinterCallFields
  {
    RemoveMinterCallFields(d.minter, output)
  }

  function RenderRescueErc20Call(d: AbiFunctions.RescueErc20): RescueErc20CallFields
  {
    RescueErc20CallFields(d.tokenContract, d.to, Decimal(d.amount))
  }

  function RenderTransferCall(d: AbiFunctions.Transfer, output: bool): TransferCallFields
  {
    TransferCallFields(d.to, Decimal(d.value), output)
  }

  function RenderTransferFromCall(d: AbiFunctions.TransferFrom, output: bool): TransferFromCallFields
  {
    TransferFromCallFields(d.from, d.to, Decimal(d.value), output)
  }

  function RenderTransferOwnershipCall(d: AbiFunctions.TransferOwnership): TransferOwnershipCallFields
  {
    TransferOwnershipCallFields(d.newOwner)
  }

  function RenderTransferWithAuthorization1Call(d: AbiFunctions.TransferWithAuthorization1): TransferWithAuthorization1CallFields
  {
    TransferWithAuthorization1CallFields(d.from, d.to, Decimal(d.value), Decimal(d.validAfter), Decimal(d.validBefore), d.nonce, d.signature)
  }

  function RenderTransferWithAuthorization2Call(d: AbiFunctions.TransferWithAuthorization2): TransferWithAuthorization2CallFields
  {
    TransferWithAuthorization2CallFields(d.from, d.to, Decimal(d.value), Decimal(d.validAfter), Decimal(d.validBefore), d.nonce, d.v, d.r, d.s)
  }

  function RenderUnBlacklistCall(d: AbiFunctions.UnBlacklist): UnBlacklistCallFields
  {
    UnBlacklistCallFields(d.uAccount)
  }

  function RenderUnpauseCall(d: AbiFunctions.Unpause): UnpauseCallFields
  {
    UnpauseCallFields
  }

  function RenderUpdateBlacklisterCall(d: AbiFunctions.UpdateBlacklister): UpdateBlacklisterCallFields
  {
    UpdateBlacklisterCallFields(d.uNewBlacklister)
  }

  function RenderUpdateMasterMinterCall(d: AbiFunctions.UpdateMasterMinter): UpdateMasterMinterCallFields
  {
    UpdateMasterMinterCallFields(d.uNewMasterMinter)
  }

  function RenderUpdatePauserCall(d: AbiFunctions.UpdatePauser): UpdatePauserCallFields
  {
    UpdatePauserCallFields(d.uNewPauser)
  }

  function RenderUpdateRescuerCall(d: AbiFunctions.UpdateRescuer): UpdateRescuerCallFields
  {
    UpdateRescuerCallFields(d.newRescuer)
  }

  function RenderUpgradeToCall(d: AbiFunctions.UpgradeTo): UpgradeToCallFields
  {
    UpgradeToCallFields(d.newImplementation)
  }

  function RenderUpgradeToAndCallCall(d: AbiFunctions.UpgradeToAndCall): UpgradeToAndCallCallFields
  {
    UpgradeToAndCallCallFields(d.newImplementation, d.data)
  }

  /** The records each event batch receives from one block. */
  function BlockEvents(blk: Block, abi: AbiEvents.Decoders): Events {
    Events(
      ProjectEvents(blk, abi.adminChanged, RenderAdminChanged),
      ProjectEvents(blk, abi.approval, RenderApproval),
      ProjectEvents(blk, abi.authorizationCanceled, RenderAuthorizationCanceled),
      ProjectEvents(blk, abi.authorizationUsed, RenderAuthorizationUsed),
      ProjectEvents(blk, abi.blacklisted, RenderBlacklisted),
      ProjectEvents(blk, abi.blacklisterChanged, RenderBlacklisterChanged),
      ProjectEvents(blk, abi.burn, RenderBurn),
      ProjectEvents(blk, abi.masterMinterChanged, RenderMasterMinterChanged),
      ProjectEvents(blk, abi.mint, RenderMint),
      ProjectEvents(blk, abi.minterConfigured, RenderMinterConfigured),
      ProjectEvents(blk, abi.minterRemoved, RenderMinterRemoved),
      ProjectEvents(blk, abi.ownershipTransferred, RenderOwnershipTransferred),
      ProjectEvents(blk, abi.pause, RenderPause),
      ProjectEvents(blk, abi.pauserChanged, RenderPauserChanged),
      ProjectEvents(blk, abi.rescuerChanged, RenderRescuerChanged),
      ProjectEvents(blk, abi.transfer, RenderTransfer),
      ProjectEvents(blk, abi.unBlacklisted, RenderUnBlacklisted),
      ProjectEvents(blk, abi.unpause, RenderUnpause),
      ProjectEvents(blk, abi.upgraded, RenderUpgraded)
    )
  }

  /** The records each call batch receives from one block. */
  function BlockCalls(blk: Block, abi: AbiFunctions.Decoders): Calls {
    Calls(
      ProjectCallsWithOutput(blk, abi.approve, abi.approveOutput, RenderApproveCall),
      ProjectCalls(blk, abi.blacklist, RenderBlacklistCall),
      ProjectCalls(blk, abi.burn, RenderBurnCall),
      ProjectCalls(blk, abi.cancelAuthorization1, RenderCancelAuthorization1Call),
      ProjectCalls(blk, abi.cancelAuthorization2, RenderCancelAuthorization2Call),
      ProjectCalls(blk, abi.changeAdmin, RenderChangeAdminCall),
      ProjectCallsWithOutput(blk, abi.configureMinter, abi.configureMinterOutput, RenderConfigureMinterCall),
      ProjectCallsWithOutput(blk, abi.decreaseAllowance, abi.decreaseAllowanceOutput, RenderDecreaseAllowanceCall),
      ProjectCallsWithOutput(blk, abi.increaseAllowance, abi.increaseAllowanceOutput, RenderIncreaseAllowanceCall),
      ProjectCalls(blk, abi.initialize, RenderInitializeCall),
      ProjectCalls(blk, abi.initializeV2, RenderInitializeV2Call),
      ProjectCalls(blk, abi.initializeV21, RenderInitializeV21Call),
      ProjectCalls(blk, abi.initializeV22, RenderInitializeV22Call),
      ProjectCallsWithOutput(blk, abi.mint, abi.mintOutput, RenderMintCall),
      ProjectCalls(blk, abi.pause, RenderPauseCall),
      ProjectCalls(blk, abi.permit1, RenderPermit1Call),
      ProjectCalls(blk, abi.permit2, RenderPermit2Call),
      ProjectCalls(blk, abi.receiveWithAuthorization1, RenderReceiveWithAuthorization1Call),
      ProjectCalls(blk, abi.receiveWithAuthorization2, RenderReceiveWithAuthorization2Call),
      ProjectCallsWithOutput(blk, abi.removeMinter, abi.removeMinterOutput, RenderRemoveMinterCall),
      ProjectCalls(blk, abi.rescueErc20, RenderRescueErc20Call),
      ProjectCallsWithOutput(blk, abi.transfer, abi.transferOutput, RenderTransferCall),
      ProjectCallsWithOutput(blk, abi.transferFrom, abi.transferFromOutput, RenderTransferFromCall),
      ProjectCalls(blk, abi.transferOwnership, RenderTransferOwnershipCall),
      ProjectCalls(blk, abi.transferWithAuthorization1, RenderTransferWithAuthorization1Call),
      ProjectCalls(blk, abi.transferWithAuthorization2, RenderTransferWithAuthorization2Call),
      ProjectCalls(blk, abi.unBlacklist, RenderUnBlacklistCall),
      ProjectCalls(blk, abi.unpause, RenderUnpauseCall),
      ProjectCalls(blk, abi.updateBlacklister, RenderUpdateBlacklisterCall),
      ProjectCalls(blk, abi.updateMasterMinter, RenderUpdateMasterMinterCall),
      ProjectCalls(blk, abi.updatePauser, RenderUpdatePauserCall),
      ProjectCalls(blk, abi.updateRescuer, RenderUpdateRescuerCall),
      ProjectCalls(blk, abi.upgradeTo, RenderUpgradeToCall),
      ProjectCalls(blk, abi.upgradeToAndCall, RenderUpgradeToAndCallCall)
    )
  }

  method MapUsdcEvents(blk: Block, abi: AbiEvents.Decoders, events: Events) returns (r: Events)
    ensures r == AppendEvents(events, BlockEvents(blk, abi))
  {
    r := events;
    r := r.(usdcAdminChangeds := r.usdcAdminChangeds + ProjectEvents(blk, abi.adminChanged, RenderAdminChanged));
    r := r.(usdcApprovals := r.usdcApprovals + ProjectEvents(blk, abi.approval, RenderApproval));
    r := r.(usdcAuthorizationCanceleds := r.usdcAuthorizationCanceleds + ProjectEvents(blk, abi.authorizationCanceled, RenderAuthorizationCanceled));
    r := r.(usdcAuthorizationUseds := r.usdcAuthorizationUseds + ProjectEvents(blk, abi.authorizationUsed, RenderAuthorizationUsed));
    r := r.(usdcBlacklisteds := r.usdcBlacklisteds + ProjectEvents(blk, abi.blacklisted, RenderBlacklisted));
    r := r.(usdcBlacklisterChangeds := r.usdcBlacklisterChangeds + ProjectEvents(blk, abi.blacklisterChanged, RenderBlacklisterChanged));
    r := r.(usdcBurns := r.usdcBurns + ProjectEvents(blk, abi.burn, RenderBurn));
    r := r.(usdcMasterMinterChangeds := r.usdcMasterMinterChangeds + ProjectEvents(blk, abi.masterMinterChanged, RenderMasterMinterChanged));
    r := r.(usdcMints := r.usdcMints + ProjectEvents(blk, abi.mint, RenderMint));
    r := r.(usdcMinterConfigureds := r.usdcMinterConfigureds + ProjectEvents(blk, abi.minterConfigured, RenderMinterConfigured));
    r := r.(usdcMinterRemoveds := r.usdcMinterRemoveds + ProjectEvents(blk, abi.minterRemoved, RenderMinterRemoved));
    r := r.(usdcOwnershipTransferreds := r.usdcOwnershipTransferreds + ProjectEvents(blk, abi.ownershipTransferred, RenderOwnershipTransferred));
    r := r.(usdcPauses := r.usdcPauses + ProjectEvents(blk, abi.pause, RenderPause));
    r := r.(usdcPauserChangeds := r.usdcPauserChangeds + ProjectEvents(blk, abi.pauserChanged, RenderPauserChanged));
    r := r.(usdcRescuerChangeds := r.usdcRescuerChangeds + ProjectEvents(blk, abi.rescuerChanged, RenderRescuerChanged));
    r := r.(usdcTransfers := r.usdcTransfers + ProjectEvents(blk, abi.transfer, RenderTransfer));
    r := r.(usdcUnBlacklisteds := r.usdcUnBlacklisteds + ProjectEvents(blk, abi.unBlacklisted, RenderUnBlacklisted));
    r := r.(usdcUnpauses := r.usdcUnpauses + ProjectEvents(blk, abi.unpause, RenderUnpause));
    r := r.(usdcUpgradeds := r.usdcUpgradeds + ProjectEvents(blk, abi.upgraded, RenderUpgraded));
  }

  method MapUsdcCalls(blk: Block, abi: AbiFunctions.Decoders, calls: Calls) returns (r: Calls)
    ensures r == AppendCalls(calls, BlockCalls(blk, abi))
  {
    r := calls;
    r := r.(usdcCallApproves := r.usdcCallApproves + ProjectCallsWithOutput(blk, abi.approve, abi.approveOutput, RenderApproveCall));
    r := r.(usdcCallBlacklists := r.usdcCallBlacklists + ProjectCalls(blk, abi.blacklist, RenderBlacklistCall));
    r := r.(usdcCallBurns := r.usdcCallBurns + ProjectCalls(blk, abi.burn, RenderBurnCall));
    r := r.(usdcCallCancelAuthorization1s := r.usdcCallCancelAuthorization1s + ProjectCalls(blk, abi.cancelAuthorization1, RenderCancelAuthorization1Call));
    r := r.(usdcCallCancelAuthorization2s := r.usdcCallCancelAuthorization2s + ProjectCalls(blk, abi.cancelAuthorization2, RenderCancelAuthorization2Call));
    r := r.(usdcCallChangeAdmins := r.usdcCallChangeAdmins + ProjectCalls(blk, abi.changeAdmin, RenderChangeAdminCall));
    r := r.(usdcCallConfigureMinters := r.usdcCallConfigureMinters + ProjectCallsWithOutput(blk, abi.configureMinter, abi.configureMinterOutput, RenderConfigureMinterCall));
    r := r.(usdcCallDecreaseAllowances := r.usdcCallDecreaseAllowances + ProjectCallsWithOutput(blk, abi.decreaseAllowance, abi.decreaseAllowanceOutput, RenderDecreaseAllowanceCall));
    r := r.(usdcCallIncreaseAllowances := r.usdcCallIncreaseAllowances + ProjectCallsWithOutput(blk, abi.increaseAllowance, abi.increaseAllowanceOutput, RenderIncreaseAllowanceCall));
    r := r.(usdcCallInitializes := r.usdcCallInitializes + ProjectCalls(blk, abi.initialize, RenderInitializeCall));
    r := r.(usdcCallInitializeV2s := r.usdcCallInitializeV2s + ProjectCalls(blk, abi.initializeV2, RenderInitializeV2Call));
    r := r.(usdcCallInitializeV21s := r.usdcCallInitializeV21s + ProjectCalls(blk, abi.initializeV21, RenderInitializeV21Call));
    r := r.(usdcCallInitializeV22s := r.usdcCallInitializeV22s + ProjectCalls(blk, abi.initializeV22, RenderInitializeV22Call));
    r := r.(usdcCallMints := r.usdcCallMints + ProjectCallsWithOutput(blk, abi.mint, abi.mintOutput, RenderMintCall));
    r := r.(usdcCallPauses := r.usdcCallPauses + ProjectCalls(blk, abi.pause, RenderPauseCall));
    r := r.(usdcCallPermit1s := r.usdcCallPermit1s + ProjectCalls(blk, abi.permit1, RenderPermit1Call));
    r := r.(usdcCallPermit2s := r.usdcCallPermit2s + ProjectCalls(blk, abi.permit2, RenderPermit2Call));
    r := r.(usdcCallReceiveWithAuthorization1s := r.usdcCallReceiveWithAuthorization1s + ProjectCalls(blk, abi.receiveWithAuthorization1, RenderReceiveWithAuthorization1Call));
    r := r.(usdcCallReceiveWithAuthorization2s := r.usdcCallReceiveWithAuthorization2s + ProjectCalls(blk, abi.receiveWithAuthorization2, RenderReceiveWithAuthorization2Call));
    r := r.(usdcCallRemoveMinters := r.usdcCallRemoveMinters + ProjectCallsWithOutput(blk, abi.removeMinter, abi.removeMinterOutput, RenderRemoveMinterCall));
    r := r.(usdcCallRescueErc20s := r.usdcCallRescueErc20s + ProjectCalls(blk, abi.rescueErc20, RenderRescueErc20Call));
    r := r.(usdcCallTransfers := r.usdcCallTransfers + ProjectCallsWithOutput(blk, abi.transfer, abi.transferOutput, RenderTransferCall));
    r := r.(usdcCallTransferFroms := r.usdcCallTransferFroms + ProjectCallsWithOutput(blk, abi.transferFrom, abi.transferFromOutput, RenderTransferFromCall));
    r := r.(usdcCallTransferOwnerships := r.usdcCallTransferOwnerships + ProjectCalls(blk, abi.transferOwnership, RenderTransferOwnershipCall));
    r := r.(usdcCallTransferWithAuthorization1s := r.usdcCallTransferWithAuthorization1s + ProjectCalls(blk, abi.transferWithAuthorization1, RenderTransferWithAuthorization1Call));
    r := r.(usdcCallTransferWithAuthorization2s := r.usdcCallTransferWithAuthorization2s + ProjectCalls(blk, abi.transferWithAuthorization2, RenderTransferWithAuthorization2Call));
    r := r.(usdcCallUnBlacklists := r.usdcCallUnBlacklists + ProjectCalls(blk, abi.unBlacklist, RenderUnBlacklistCall));
    r := r.(usdcCallUnpauses := r.usdcCallUnpauses + ProjectCalls(blk, abi.unpause, RenderUnpauseCall));
    r := r.(usdcCallUpdateBlacklisters := r.usdcCallUpdateBlacklisters + ProjectCalls(blk, abi.updateBlacklister, RenderUpdateBlacklisterCall));
    r := r.(usdcCallUpdateMasterMinters := r.usdcCallUpdateMasterMinters + ProjectCalls(blk, abi.updateMasterMinter, RenderUpdateMasterMinterCall));
    r := r.(usdcCallUpdatePausers := r.usdcCallUpdatePausers + ProjectCalls(blk, abi.updatePauser, RenderUpdatePauserCall));
    r := r.(usdcCallUpdateRescuers := r.usdcCallUpdateRescuers + ProjectCalls(blk, abi.updateRescuer, RenderUpdateRescuerCall));
    r := r.(usdcCallUpgradeTos := r.usdcCallUpgradeTos + ProjectCalls(blk, abi.upgradeTo, RenderUpgradeToCall));
    r := r.(usdcCallUpgradeToAndCalls := r.usdcCallUpgradeToAndCalls + ProjectCalls(blk, abi.upgradeToAndCall, RenderUpgradeToAndCallCall));
  }

  // =====================================================================
  // Module entry points
  // =====================================================================

  /** `map_events`: fill a default `Events` from the block and ask the runtime
      to skip the output when it is empty. `skipped` is that request's effect. */
  method MapEvents(blk: Block, abi: AbiEvents.Decoders) returns (r: Result<Events, string>, skipped: bool)
    ensures r == Ok(BlockEvents(blk, abi))
    ensures skipped <==> EventsRecordCount(BlockEvents(blk, abi)) == 0
  {
    var events := DefaultEvents();
    events := MapUsdcEvents(blk, abi, events);
    assert events == BlockEvents(blk, abi);
    skipped := EventsRecordCount(events) == 0;
    r := Ok(events);
  }

  /** `map_calls`: as `MapEvents`, for the call batches. */
  method MapCalls(blk: Block, abi: AbiFunctions.Decoders) returns (r: Result<Calls, string>, skipped: bool)
    ensures r == Ok(BlockCalls(blk, abi))
    ensures skipped <==> CallsRecordCount(BlockCalls(blk, abi)) == 0
  {
    var calls := DefaultCalls();
    calls := MapUsdcCalls(blk, abi, calls);
    assert calls == BlockCalls(blk, abi);
    skipped := CallsRecordCount(calls) == 0;
    r := Ok(calls);
  }

  /** `map_events_calls`: both upstream outputs, unchanged, side by side; never an error. */
  function MapEventsCalls(events: Events, calls: Calls): (r: Result<EventsCalls, string>)
    ensures r.Ok?
    ensures r.value.events == Some(events) && r.value.calls == Some(calls)
  {
    Ok(EventsCalls(Some(events), Some(calls)))
  }

  // =====================================================================
  // Whole-block properties
  // =====================================================================

  /** A block without any log of the tracked contract yields no event record of
      any kind, so `map_events` asks for its output to be skipped. */
  lemma QuietBlockHasNoEvents(blk: Block, abi: AbiEvents.Decoders)
    requires forall v :: v in LogViews(blk) ==> !IsTracked(v.log.address)
    ensures BlockEvents(blk, abi) == DefaultEvents()
  {
    NoTrackedLogNoEvents(blk, abi.adminChanged, RenderAdminChanged);
    NoTrackedLogNoEvents(blk, abi.approval, RenderApproval);
    NoTrackedLogNoEvents(blk, abi.authorizationCanceled, RenderAuthorizationCanceled);
    NoTrackedLogNoEvents(blk, abi.authorizationUsed, RenderAuthorizationUsed);
    NoTrackedLogNoEvents(blk, abi.blacklisted, RenderBlacklisted);
    NoTrackedLogNoEvents(blk, abi.blacklisterChanged, RenderBlacklisterChanged);
    NoTrackedLogNoEvents(blk, abi.burn, RenderBurn);
    NoTrackedLogNoEvents(blk, abi.masterMinterChanged, RenderMasterMinterChanged);
    NoTrackedLogNoEvents(blk, abi.mint, RenderMint);
    NoTrackedLogNoEvents(blk, abi.minterConfigured, RenderMinterConfigured);
    NoTrackedLogNoEvents(blk, abi.minterRemoved, RenderMinterRemoved);
    NoTrackedLogNoEvents(blk, abi.ownershipTransferred, RenderOwnershipTransferred);
    NoTrackedLogNoEvents(blk, abi.pause, RenderPause);
    NoTrackedLogNoEvents(blk, abi.pauserChanged, RenderPauserChanged);
    NoTrackedLogNoEvents(blk, abi.rescuerChanged, RenderRescuerChanged);
    NoTrackedLogNoEvents(blk, abi.transfer, RenderTransfer);
    NoTrackedLogNoEvents(blk, abi.unBlacklisted, RenderUnBlacklisted);
    NoTrackedLogNoEvents(blk, abi.unpause, RenderUnpause);
    NoTrackedLogNoEvents(blk, abi.upgraded, RenderUpgraded);
  }

  /** A block without any call to the tracked contract yields no call record of
      any kind, so `map_calls` asks for its output to be skipped. */
  lemma QuietBlockHasNoCalls(blk: Block, abi: AbiFunctions.Decoders)
    requires forall v :: v in CallViews(blk) ==> !IsTracked(v.call.address)
    ensures BlockCalls(blk, abi) == DefaultCalls()
  {
    NoTrackedCallNoRecords(blk, abi.approve, WithOutput(abi.approveOutput, RenderApproveCall));
    NoTrackedCallNoRecords(blk, abi.blacklist, FromArguments(RenderBlacklistCall));
    NoTrackedCallNoRecords(blk, abi.burn, FromArguments(RenderBurnCall));
    NoTrackedCallNoRecords(blk, abi.cancelAuthorization1, FromArguments(RenderCancelAuthorization1Call));
    NoTrackedCallNoRecords(blk, abi.cancelAuthorization2, FromArguments(RenderCancelAuthorization2Call));
    NoTrackedCallNoRecords(blk, abi.changeAdmin, FromArguments(RenderChangeAdminCall));
    NoTrackedCallNoRecords(blk, abi.configureMinter, WithOutput(abi.configureMinterOutput, RenderConfigureMinterCall));
    NoTrackedCallNoRecords(blk, abi.decreaseAllowance, WithOutput(abi.decreaseAllowanceOutput, RenderDecreaseAllowanceCall));
    NoTrackedCallNoRecords(blk, abi.increaseAllowance, WithOutput(abi.increaseAllowanceOutput, RenderIncreaseAllowanceCall));
    NoTrackedCallNoRecords(blk, abi.initialize, FromArguments(RenderInitializeCall));
    NoTrackedCallNoRecords(blk, abi.initializeV2, FromArguments(RenderInitializeV2Call));
    NoTrackedCallNoRecords(blk, abi.initializeV21, FromArguments(RenderInitializeV21Call));
    NoTrackedCallNoRecords(blk, abi.initializeV22, FromArguments(RenderInitializeV22Call));
    NoTrackedCallNoRecords(blk, abi.mint, WithOutput(abi.mintOutput, RenderMintCall));
    NoTrackedCallNoRecords(blk, abi.pause, FromArguments(RenderPauseCall));
    NoTrackedCallNoRecords(blk, abi.permit1, FromArguments(RenderPermit1Call));
    NoTrackedCallNoRecords(blk, abi.permit2, FromArguments(RenderPermit2Call));
    NoTrackedCallNoRecords(blk, abi.receiveWithAuthorization1, FromArguments(RenderReceiveWithAuthorization1Call));
    NoTrackedCallNoRecords(blk, abi.receiveWithAuthorization2, FromArguments(RenderReceiveWithAuthorization2Call));
    NoTrackedCallNoRecords(blk, abi.removeMinter, WithOutput(abi.removeMinterOutput, RenderRemoveMinterCall));
    NoTrackedCallNoRecords(blk, abi.rescueErc20, FromArguments(RenderRescueErc20Call));
    NoTrackedCallNoRecords(blk, abi.transfer, WithOutput(abi.transferOutput, RenderTransferCall));
    NoTrackedCallNoRecords(blk, abi.transferFrom, WithOutput(abi.transferFromOutput, RenderTransferFromCall));
    NoTrackedCallNoRecords(blk, abi.transferOwnership, FromArguments(RenderTransferOwnershipCall));
    NoTrackedCallNoRecords(blk, abi.transferWithAuthorization1, FromArguments(RenderTransferWithAuthorization1Call));
    NoTrackedCallNoRecords(blk, abi.transferWithAuthorization2, FromArguments(RenderTransferWithAuthorization2Call));
    NoTrackedCallNoRecords(blk, abi.unBlacklist, FromArguments(RenderUnBlacklistCall));
    NoTrackedCallNoRecords(blk, abi.unpause, FromArguments(RenderUnpauseCall));
    NoTrackedCallNoRecords(blk, abi.updateBlacklister, FromArguments(RenderUpdateBlacklisterCall));
    NoTrackedCallNoRecords(blk, abi.updateMasterMinter, FromArguments(RenderUpdateMasterMinterCall));
    NoTrackedCallNoRecords(blk, abi.updatePauser, FromArguments(RenderUpdatePauserCall));
    NoTrackedCallNoRecords(blk, abi.updateRescuer, FromArguments(RenderUpdateRescuerCall));
    NoTrackedCallNoRecords(blk, abi.upgradeTo, FromArguments(RenderUpgradeToCall));
    NoTrackedCallNoRecords(blk, abi.upgradeToAndCall, FromArguments(RenderUpgradeToAndCallCall));
  }

  /** Logs of other contracts change no event batch. */
  lemma EventsIgnoreOtherContracts(blk: Block, abi: AbiEvents.Decoders)
    ensures BlockEvents(WithoutUntracked(blk), abi) == BlockEvents(blk, abi)
  {
    UntrackedLogsAreIgnored(blk, abi.adminChanged, RenderAdminChanged);
    UntrackedLogsAreIgnored(blk, abi.approval, RenderApproval);
    UntrackedLogsAreIgnored(blk, abi.authorizationCanceled, RenderAuthorizationCanceled);
    UntrackedLogsAreIgnored(blk, abi.authorizationUsed, RenderAuthorizationUsed);
    UntrackedLogsAreIgnored(blk, abi.blacklisted, RenderBlacklisted);
    UntrackedLogsAreIgnored(blk, abi.blacklisterChanged, RenderBlacklisterChanged);
    UntrackedLogsAreIgnored(blk, abi.burn, RenderBurn);
    UntrackedLogsAreIgnored(blk, abi.masterMinterChanged, RenderMasterMinterChanged);
    UntrackedLogsAreIgnored(blk, abi.mint, RenderMint);
    UntrackedLogsAreIgnored(blk, abi.minterConfigured, RenderMinterConfigured);
    UntrackedLogsAreIgnored(blk, abi.minterRemoved, RenderMinterRemoved);
    UntrackedLogsAreIgnored(blk, abi.ownershipTransferred, RenderOwnershipTransferred);
    UntrackedLogsAreIgnored(blk, abi.pause, RenderPause);
    UntrackedLogsAreIgnored(blk, abi.pauserChanged, RenderPauserChanged);
    UntrackedLogsAreIgnored(blk, abi.rescuerChanged, RenderRescuerChanged);
    UntrackedLogsAreIgnored(blk, abi.transfer, RenderTransfer);
    UntrackedLogsAreIgnored(blk, abi.unBlacklisted, RenderUnBlacklisted);
    UntrackedLogsAreIgnored(blk, abi.unpause, RenderUnpause);
    UntrackedLogsAreIgnored(blk, abi.upgraded, RenderUpgraded);
  }

  /** Calls to other contracts change no call batch. */
  lemma CallsIgnoreOtherContracts(blk: Block, abi: AbiFunctions.Decoders)
    ensures BlockCalls(WithoutUntracked(blk), abi) == BlockCalls(blk, abi)
  {
    UntrackedCallsAreIgnored(blk, abi.approve, WithOutput(abi.approveOutput, RenderApproveCall));
    UntrackedCallsAreIgnored(blk, abi.blacklist, FromArguments(RenderBlacklistCall));
    UntrackedCallsAreIgnored(blk, abi.burn, FromArguments(RenderBurnCall));
    UntrackedCallsAreIgnored(blk, abi.cancelAuthorization1, FromArguments(RenderCancelAuthorization1Call));
    UntrackedCallsAreIgnored(blk, abi.cancelAuthorization2, FromArguments(RenderCancelAuthorization2Call));
    UntrackedCallsAreIgnored(blk, abi.changeAdmin, FromArguments(RenderChangeAdminCall));
    UntrackedCallsAreIgnored(blk, abi.configureMinter, WithOutput(abi.configureMinterOutput, RenderConfigureMinterCall));
    UntrackedCallsAreIgnored(blk, abi.decreaseAllowance, WithOutput(abi.decreaseAllowanceOutput, RenderDecreaseAllowanceCall));
    UntrackedCallsAreIgnored(blk, abi.increaseAllowance, WithOutput(abi.increaseAllowanceOutput, RenderIncreaseAllowanceCall));
    UntrackedCallsAreIgnored(blk, abi.initialize, FromArguments(RenderInitializeCall));
    UntrackedCallsAreIgnored(blk, abi.initializeV2, FromArguments(RenderInitializeV2Call));
    UntrackedCallsAreIgnored(blk, abi.initializeV21, FromArguments(RenderInitializeV21Call));
    UntrackedCallsAreIgnored(blk, abi.initializeV22, FromArguments(RenderInitializeV22Call));
    UntrackedCallsAreIgnored(blk, abi.mint, WithOutput(abi.mintOutput, RenderMintCall));
    UntrackedCallsAreIgnored(blk, abi.pause, FromArguments(RenderPauseCall));
    UntrackedCallsAreIgnored(blk, abi.permit1, FromArguments(RenderPermit1Call));
    UntrackedCallsAreIgnored(blk, abi.permit2, FromArguments(RenderPermit2Call));
    UntrackedCallsAreIgnored(blk, abi.receiveWithAuthorization1, FromArguments(RenderReceiveWithAuthorization1Call));
    UntrackedCallsAreIgnored(blk, abi.receiveWithAuthorization2, FromArguments(RenderReceiveWithAuthorization2Call));
    UntrackedCallsAreIgnored(blk, abi.removeMinter, WithOutput(abi.removeMinterOutput, RenderRemoveMinterCall));
    UntrackedCallsAreIgnored(blk, abi.rescueErc20, FromArguments(RenderRescueErc20Call));
    UntrackedCallsAreIgnored(blk, abi.transfer, WithOutput(abi.transferOutput, RenderTransferCall));
    UntrackedCallsAreIgnored(blk, abi.transferFrom, WithOutput(abi.transferFromOutput, RenderTransferFromCall));
    UntrackedCallsAreIgnored(blk, abi.transferOwnership, FromArguments(RenderTransferOwnershipCall));
    UntrackedCallsAreIgnored(blk, abi.transferWithAuthorization1, FromArguments(RenderTransferWithAuthorization1Call));
    UntrackedCallsAreIgnored(blk, abi.transferWithAuthorization2, FromArguments(RenderTransferWithAuthorization2Call));
    UntrackedCallsAreIgnored(blk, abi.unBlacklist, FromArguments(RenderUnBlacklistCall));
    UntrackedCallsAreIgnored(blk, abi.unpause, FromArguments(RenderUnpauseCall));
    UntrackedCallsAreIgnored(blk, abi.updateBlacklister, FromArguments(RenderUpdateBlacklisterCall));
    UntrackedCallsAreIgnored(blk, abi.updateMasterMinter, FromArguments(RenderUpdateMasterMinterCall));
    UntrackedCallsAreIgnored(blk, abi.updatePauser, FromArguments(RenderUpdatePauserCall));
    UntrackedCallsAreIgnored(blk, abi.updateRescuer, FromArguments(RenderUpdateRescuerCall));
    UntrackedCallsAreIgnored(blk, abi.upgradeTo, FromArguments(RenderUpgradeToCall));
    UntrackedCallsAreIgnored(blk, abi.upgradeToAndCall, FromArguments(RenderUpgradeToAndCallCall));
  }

  // =====================================================================
  // Scenarios
  // =====================================================================

  /** The log decodes as no event kind other than `Transfer`. */
  predicate OnlyTransferDecodes(abi: AbiEvents.Decoders, log: Log) {
    abi.adminChanged(log).None?
    && abi.approval(log).None?
    && abi.authorizationCanceled(log).None?
    && abi.authorizationUsed(log).None?
    && abi.blacklisted(log).None?
    && abi.blacklisterChanged(log).None?
    && abi.burn(log).None?
    && abi.masterMinterChanged(log).None?
    && abi.mint(log).None?
    && abi.minterConfigured(log).None?
    && abi.minterRemoved(log).None?
    && abi.ownershipTransferred(log).None?
    && abi.pause(log).None?
    && abi.pauserChanged(log).None?
    && abi.rescuerChanged(log).None?
    && abi.unBlacklisted(log).None?
    && abi.unpause(log).None?
    && abi.upgraded(log).None?
  }

  /** 1000000 base units (one token at six decimals) render as "1000000". */
  lemma MillionInDecimal()
    ensures Decimal(1000000) == "1000000"
  {
  }

  /** The transfer batch of the scenario below. */
  lemma TransferScenarioBatch(blk: Block, abi: AbiEvents.Decoders, from: Address, to: Address)
    requires |blk.transactions| == 1 && |blk.transactions[0].receipt.logs| == 1
    requires IsTracked(blk.transactions[0].receipt.logs[0].address)
    requires abi.transfer(blk.transactions[0].receipt.logs[0]) == Some(AbiEvents.Transfer(from, to, 1000000))
    ensures var tx := blk.transactions[0];
      var log := tx.receipt.logs[0];
      ProjectEvents(blk, abi.transfer, RenderTransfer) == [
        EventRecord(Hex(tx.hash), log.blockIndex, Some(blk.timestamp), blk.number, TransferFields(from, to, "1000000"))]
  {
    MillionInDecimal();
    assert RenderTransfer(AbiEvents.Transfer(from, to, 1000000)) == TransferFields(from, to, "1000000");
    SingleLogEvents(blk, abi.transfer, RenderTransfer);
  }

  /** One tracked log decoding as a transfer of 1000000 base units yields exactly
      one record, in the transfer batch, with the amount as the string
      "1000000" and the header taken from the block, the transaction and the log. */
  lemma TransferScenario(blk: Block, abi: AbiEvents.Decoders, from: Address, to: Address)
    requires |blk.transactions| == 1 && |blk.transactions[0].receipt.logs| == 1
    requires IsTracked(blk.transactions[0].receipt.logs[0].address)
    requires abi.transfer(blk.transactions[0].receipt.logs[0]) == Some(AbiEvents.Transfer(from, to, 1000000))
    requires OnlyTransferDecodes(abi, blk.transactions[0].receipt.logs[0])
    ensures var tx := blk.transactions[0];
      var log := tx.receipt.logs[0];
      BlockEvents(blk, abi) == DefaultEvents().(usdcTransfers := [
        EventRecord(Hex(tx.hash), log.blockIndex, Some(blk.timestamp), blk.number, TransferFields(from, to, "1000000"))])
  {
    SingleLogRejected(blk, abi.adminChanged, RenderAdminChanged);
    SingleLogRejected(blk, abi.approval, RenderApproval);
    SingleLogRejected(blk, abi.authorizationCanceled, RenderAuthorizationCanceled);
    SingleLogRejected(blk, abi.authorizationUsed, RenderAuthorizationUsed);
    SingleLogRejected(blk, abi.blacklisted, RenderBlacklisted);
    SingleLogRejected(blk, abi.blacklisterChanged, RenderBlacklisterChanged);
    SingleLogRejected(blk, abi.burn, RenderBurn);
    SingleLogRejected(blk, abi.masterMinterChanged, RenderMasterMinterChanged);
    SingleLogRejected(blk, abi.mint, RenderMint);
    SingleLogRejected(blk, abi.minterConfigured, RenderMinterConfigured);
    SingleLogRejected(blk, abi.minterRemoved, RenderMinterRemoved);
    SingleLogRejected(blk, abi.ownershipTransferred, RenderOwnershipTransferred);
    SingleLogRejected(blk, abi.pause, RenderPause);
    SingleLogRejected(blk, abi.pauserChanged, RenderPauserChanged);
    SingleLogRejected(blk, abi.rescuerChanged, RenderRescuerChanged);
    SingleLogRejected(blk, abi.unBlacklisted, RenderUnBlacklisted);
    SingleLogRejected(blk, abi.unpause, RenderUnpause);
    SingleLogRejected(blk, abi.upgraded, RenderUpgraded);
    TransferScenarioBatch(blk, abi, from, to);
  }

  /** A reverted `approve` call to the tracked contract whose return data does not
      decode is still recorded: `call_success` is false and `output_param0`
      falls back to false. The transaction here holds only that call, and no
      transaction-status filtering is modelled. Under the status filtering of
      `transactions()`, a transaction whose root call reverted never reaches the
      scan, so a reverted call is recorded only when it is nested under a
      successful root call. */
  lemma RevertedApproveScenario(blk: Block, abi: AbiFunctions.Decoders, spender: Address)
    requires |blk.transactions| == 1 && |blk.transactions[0].calls| == 1
    requires var call := blk.transactions[0].calls[0];
      && IsTracked(call.address)
      && call.stateReverted
      && abi.approve.matchCall(call)
      && abi.approve.decode(call) == Ok(AbiFunctions.Approve(spender, 5))
      && abi.approveOutput(call.returnData).Err?
    ensures var tx := blk.transactions[0];
      var call := tx.calls[0];
      BlockCalls(blk, abi).usdcCallApproves == [
        CallRecord(Hex(tx.hash), Some(blk.timestamp), blk.number, call.beginOrdinal, false, ApproveCallFields(spender, "5", false))]
  {
    var call := blk.transactions[0].calls[0];
    assert Decimal(5) == "5";
    SingleCallCalls(blk, abi.approve, WithOutput(abi.approveOutput, RenderApproveCall));
    assert OutputOrDefault(abi.approveOutput, call.returnData) == false;
    assert RenderApproveCall(AbiFunctions.Approve(spender, 5), false) == ApproveCallFields(spender, "5", false);
  }
}
