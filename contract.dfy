/** The output schema (`contract.v1`): one record type per event kind and per
    function kind, and the containers `Events`, `Calls` and `EventsCalls`. Every
    event record starts with the same four fields (tags 1-4) and every call
    record with the same five (tags 1-5); `EventRecord` and `CallRecord` hold
    those, and `params` holds the kind's own fields in tag order. Amounts are
    decimal strings; addresses, nonces and signatures are byte strings. */
module Contract {
  import opened Wrappers
  import opened Scalars
  import opened Eth

  datatype EventRecord<P> = EventRecord(
    evtTxHash: string,
    evtIndex: U32,
    evtBlockTime: Option<Timestamp>,
    evtBlockNumber: U64,
    params: P)

  datatype CallRecord<P> = CallRecord(
    callTxHash: string,
    callBlockTime: Option<Timestamp>,
    callBlockNumber: U64,
    callOrdinal: U64,
    callSuccess: bool,
    params: P)

  // ----- event records -----

  datatype AdminChangedFields = AdminChangedFields(previousAdmin: Bytes, newAdmin: Bytes)
  type UsdcAdminChanged = EventRecord<AdminChangedFields>
  datatype ApprovalFields = ApprovalFields(owner: Bytes, spender: Bytes, value: string)
  type UsdcApproval = EventRecord<ApprovalFields>
  datatype AuthorizationCanceledFields = AuthorizationCanceledFields(authorizer: Bytes, nonce: Bytes)
  type UsdcAuthorizationCanceled = EventRecord<AuthorizationCanceledFields>
  datatype AuthorizationUsedFields = AuthorizationUsedFields(authorizer: Bytes, nonce: Bytes)
  type UsdcAuthorizationUsed = EventRecord<AuthorizationUsedFields>
  datatype BlacklistedFields = BlacklistedFields(uAccount: Bytes)
  type UsdcBlacklisted = EventRecord<BlacklistedFields>
  datatype BlacklisterChangedFields = BlacklisterChangedFields(newBlacklister: Bytes)
  type UsdcBlacklisterChanged = EventRecord<BlacklisterChangedFields>
  datatype BurnFields = BurnFields(burner: Bytes, amount: string)
  type UsdcBurn = EventRecord<BurnFields>
  datatype MasterMinterChangedFields = MasterMinterChangedFields(newMasterMinter: Bytes)
  type UsdcMasterMinterChanged = EventRecord<MasterMinterChangedFields>
  datatype MintFields = MintFields(minter: Bytes, to: Bytes, amount: string)
  type UsdcMint = EventRecord<MintFields>
  datatype MinterConfiguredFields = MinterConfiguredFields(minter: Bytes, minterAllowedAmount: string)
  type UsdcMinterConfigured = EventRecord<MinterConfiguredFields>
  datatype MinterRemovedFields = MinterRemovedFields(oldMinter: Bytes)
  type UsdcMinterRemoved = EventRecord<MinterRemovedFields>
  datatype OwnershipTransferredFields = OwnershipTransferredFields(previousOwner: Bytes, newOwner: Bytes)
  type UsdcOwnershipTransferred = EventRecord<OwnershipTransferredFields>
  datatype PauseFields = PauseFields
  type UsdcPause = EventRecord<PauseFields>
  datatype PauserChangedFields = PauserChangedFields(newAddress: Bytes)
  type UsdcPauserChanged = EventRecord<PauserChangedFields>
  datatype RescuerChangedFields = RescuerChangedFields(newRescuer: Bytes)
  type UsdcRescuerChanged = EventRecord<RescuerChangedFields>
  datatype TransferFields = TransferFields(from: Bytes, to: Bytes, value: string)
  type UsdcTransfer = EventRecord<TransferFields>
  datatype UnBlacklistedFields = UnBlacklistedFields(uAccount: Bytes)
  type UsdcUnBlacklisted = EventRecord<UnBlacklistedFields>
  datatype UnpauseFields = UnpauseFields
  type UsdcUnpause = EventRecord<UnpauseFields>
  datatype UpgradedFields = UpgradedFields(implementation: Bytes)
  type UsdcUpgraded = EventRecord<UpgradedFields>

  // ----- call records -----

  datatype ApproveCallFields = ApproveCallFields(spender: Bytes, value: string, outputParam0: bool)
  type UsdcApproveCall = CallRecord<ApproveCallFields>
  datatype BlacklistCallFields = BlacklistCallFields(uAccount: Bytes)
  type UsdcBlacklistCall = CallRecord<BlacklistCallFields>
  datatype BurnCallFields = BurnCallFields(uAmount: string)
  type UsdcBurnCall = CallRecord<BurnCallFields>
  datatype CancelAuthorization1CallFields = CancelAuthorization1CallFields(authorizer: Bytes, nonce: Bytes, v: U64, r: Bytes, s: Bytes)
  type UsdcCancelAuthorization1call = CallRecord<CancelAuthorization1CallFields>
  datatype CancelAuthorization2CallFields = CancelAuthorization2CallFields(authorizer: Bytes, nonce: Bytes, signature: Bytes)
  type UsdcCancelAuthorization2call = CallRecord<CancelAuthorization2CallFields>
  datatype ChangeAdminCallFields = ChangeAdminCallFields(newAdmin: Bytes)
  type UsdcChangeAdminCall = CallRecord<ChangeAdminCallFields>
  datatype ConfigureMinterCallFields = ConfigureMinterCallFields(minter: Bytes, minterAllowedAmount: string, outputParam0: bool)
  type UsdcConfigureMinterCall = CallRecord<ConfigureMinterCallFields>
  datatype DecreaseAllowanceCallFields = DecreaseAllowanceCallFields(spender: Bytes, decrement: string, outputParam0: bool)
  type UsdcDecreaseAllowanceCall = CallRecord<DecreaseAllowanceCallFields>
  datatype IncreaseAllowanceCallFields = IncreaseAllowanceCallFields(spender: Bytes, increment: string, outputParam0: bool)
  type UsdcIncreaseAllowanceCall = CallRecord<IncreaseAllowanceCallFields>
  datatype InitializeCallFields = InitializeCallFields(tokenName: string, tokenSymbol: string, tokenCurrency: string, tokenDecimals: U64, newMasterMinter: Bytes, newPauser: Bytes, newBlacklister: Bytes, newOwner: Bytes)
  type UsdcInitializeCall = CallRecord<InitializeCallFields>
  datatype InitializeV2CallFields = InitializeV2CallFields(newName: string)
  type UsdcInitializeV2call = CallRecord<InitializeV2CallFields>
  datatype InitializeV21CallFields = InitializeV21CallFields(lostAndFound: Bytes)
  type UsdcInitializeV21call = CallRecord<InitializeV21CallFields>
  datatype InitializeV22CallFields = InitializeV22CallFields(accountsToBlacklist: seq<Bytes>, newSymbol: string)
  type UsdcInitializeV22call = CallRecord<InitializeV22CallFields>
  datatype MintCallFields = MintCallFields(uTo: Bytes, uAmount: string, outputParam0: bool)
  type UsdcMintCall = CallRecord<MintCallFields>
  datatype PauseCallFields = PauseCallFields
  type UsdcPauseCall = CallRecord<PauseCallFields>
  datatype Permit1CallFields = Permit1CallFields(owner: Bytes, spender: Bytes, value: string, deadline: string, signature: Bytes)
  type UsdcPermit1call = CallRecord<Permit1CallFields>
  datatype Permit2CallFields = Permit2CallFields(owner: Bytes, spender: Bytes, value: string, deadline: string, v: U64, r: Bytes, s: Bytes)
  type UsdcPermit2call = CallRecord<Permit2CallFields>
  datatype ReceiveWithAuthorization1CallFields = ReceiveWithAuthorization1CallFields(from: Bytes, to: Bytes, value: string, validAfter: string, validBefore: string, nonce: Bytes, signature: Bytes)
  type UsdcReceiveWithAuthorization1call = CallRecord<ReceiveWithAuthorization1CallFields>
  datatype ReceiveWithAuthorization2CallFields = ReceiveWithAuthorization2CallFields(from: Bytes, to: Bytes, value: string, validAfter: string, validBefore: string, nonce: Bytes, v: U64, r: Bytes, s: Bytes)
  type UsdcReceiveWithAuthorization2call = CallRecord<ReceiveWithAuthorization2CallFields>
  datatype RemoveMinterCallFields = RemoveMinterCallFields(minter: Bytes, outputParam0: bool)
  type UsdcRemoveMinterCall = CallRecord<RemoveMinterCallFields>
  datatype RescueErc20CallFields = RescueErc20CallFields(tokenContract: Bytes, to: Bytes, amount: string)
  type UsdcRescueErc20call = CallRecord<RescueErc20CallFields>
  datatype TransferCallFields = TransferCallFields(to: Bytes, value: string, outputParam0: bool)
  type UsdcTransferCall = CallRecord<TransferCallFields>
  datatype TransferFromCallFields = TransferFromCallFields(from: Bytes, to: Bytes, value: string, outputParam0: bool)
  type UsdcTransferFromCall = CallRecord<TransferFromCallFields>
  datatype TransferOwnershipCallFields = TransferOwnershipCallFields(newOwner: Bytes)
  type UsdcTransferOwnershipCall = CallRecord<TransferOwnershipCallFields>
  datatype TransferWithAuthorization1CallFields = TransferWithAuthorization1CallFields(from: Bytes, to: Bytes, value: string, validAfter: string, validBefore: string, nonce: Bytes, signature: Bytes)
  type UsdcTransferWithAuthorization1call = CallRecord<TransferWithAuthorization1CallFields>
  datatype TransferWithAuthorization2CallFields = TransferWithAuthorization2CallFields(from: Bytes, to: Bytes, value: string, validAfter: string, validBefore: string, nonce: Bytes, v: U64, r: Bytes, s: Bytes)
  type UsdcTransferWithAuthorization2call = CallRecord<TransferWithAuthorization2CallFields>
  datatype UnBlacklistCallFields = UnBlacklistCallFields(uAccount: Bytes)
  type UsdcUnBlacklistCall = CallRecord<UnBlacklistCallFields>
  datatype UnpauseCallFields = UnpauseCallFields
  type UsdcUnpauseCall = CallRecord<UnpauseCallFields>
  datatype UpdateBlacklisterCallFields = UpdateBlacklisterCallFields(uNewBlacklister: Bytes)
  type UsdcUpdateBlacklisterCall = CallRecord<UpdateBlacklisterCallFields>
  datatype UpdateMasterMinterCallFields = UpdateMasterMinterCallFields(uNewMasterMinter: Bytes)
  type UsdcUpdateMasterMinterCall = CallRecord<UpdateMasterMinterCallFields>
  datatype UpdatePauserCallFields = UpdatePauserCallFields(uNewPauser: Bytes)
  type UsdcUpdatePauserCall = CallRecord<UpdatePauserCallFields>
  datatype UpdateRescuerCallFields = UpdateRescuerCallFields(newRescuer: Bytes)
  type UsdcUpdateRescuerCall = CallRecord<UpdateRescuerCallFields>
  datatype UpgradeToCallFields = UpgradeToCallFields(newImplementation: Bytes)
  type UsdcUpgradeToCall = CallRecord<UpgradeToCallFields>
  datatype UpgradeToAndCallCallFields = UpgradeToAndCallCallFields(newImplementation: Bytes, data: Bytes)
  type UsdcUpgradeToAndCallCall = CallRecord<UpgradeToAndCallCallFields>

  /** One ordered batch per event kind. */
  datatype Events = Events(
    usdcAdminChangeds: seq<UsdcAdminChanged>,
    usdcApprovals: seq<UsdcApproval>,
    usdcAuthorizationCanceleds: seq<UsdcAuthorizationCanceled>,
    usdcAuthorizationUseds: seq<UsdcAuthorizationUsed>,
    usdcBlacklisteds: seq<UsdcBlacklisted>,
    usdcBlacklisterChangeds: seq<UsdcBlacklisterChanged>,
    usdcBurns: seq<UsdcBurn>,
    usdcMasterMinterChangeds: seq<UsdcMasterMinterChanged>,
    usdcMints: seq<UsdcMint>,
    usdcMinterConfigureds: seq<UsdcMinterConfigured>,
    usdcMinterRemoveds: seq<UsdcMinterRemoved>,
    usdcOwnershipTransferreds: seq<UsdcOwnershipTransferred>,
    usdcPauses: seq<UsdcPause>,
    usdcPauserChangeds: seq<UsdcPauserChanged>,
    usdcRescuerChangeds: seq<UsdcRescuerChanged>,
    usdcTransfers: seq<UsdcTransfer>,
    usdcUnBlacklisteds: seq<UsdcUnBlacklisted>,
    usdcUnpauses: seq<UsdcUnpause>,
    usdcUpgradeds: seq<UsdcUpgraded>
  )

  /** One ordered batch per function kind. */
  datatype Calls = Calls(
    usdcCallApproves: seq<UsdcApproveCall>,
    usdcCallBlacklists: seq<UsdcBlacklistCall>,
    usdcCallBurns: seq<UsdcBurnCall>,
    usdcCallCancelAuthorization1s: seq<UsdcCancelAuthorization1call>,
    usdcCallCancelAuthorization2s: seq<UsdcCancelAuthorization2call>,
    usdcCallChangeAdmins: seq<UsdcChangeAdminCall>,
    usdcCallConfigureMinters: seq<UsdcConfigureMinterCall>,
    usdcCallDecreaseAllowances: seq<UsdcDecreaseAllowanceCall>,
    usdcCallIncreaseAllowances: seq<UsdcIncreaseAllowanceCall>,
    usdcCallInitializes: seq<UsdcInitializeCall>,
    usdcCallInitializeV2s: seq<UsdcInitializeV2call>,
    usdcCallInitializeV21s: seq<UsdcInitializeV21call>,
    usdcCallInitializeV22s: seq<UsdcInitializeV22call>,
    usdcCallMints: seq<UsdcMintCall>,
    usdcCallPauses: seq<UsdcPauseCall>,
    usdcCallPermit1s: seq<UsdcPermit1call>,
    usdcCallPermit2s: seq<UsdcPermit2call>,
    usdcCallReceiveWithAuthorization1s: seq<UsdcReceiveWithAuthorization1call>,
    usdcCallReceiveWithAuthorization2s: seq<UsdcReceiveWithAuthorization2call>,
    usdcCallRemoveMinters: seq<UsdcRemoveMinterCall>,
    usdcCallRescueErc20s: seq<UsdcRescueErc20call>,
    usdcCallTransfers: seq<UsdcTransferCall>,
    usdcCallTransferFroms: seq<UsdcTransferFromCall>,
    usdcCallTransferOwnerships: seq<UsdcTransferOwnershipCall>,
    usdcCallTransferWithAuthorization1s: seq<UsdcTransferWithAuthorization1call>,
    usdcCallTransferWithAuthorization2s: seq<UsdcTransferWithAuthorization2call>,
    usdcCallUnBlacklists: seq<UsdcUnBlacklistCall>,
    usdcCallUnpauses: seq<UsdcUnpauseCall>,
    usdcCallUpdateBlacklisters: seq<UsdcUpdateBlacklisterCall>,
    usdcCallUpdateMasterMinters: seq<UsdcUpdateMasterMinterCall>,
    usdcCallUpdatePausers: seq<UsdcUpdatePauserCall>,
    usdcCallUpdateRescuers: seq<UsdcUpdateRescuerCall>,
    usdcCallUpgradeTos: seq<UsdcUpgradeToCall>,
    usdcCallUpgradeToAndCalls: seq<UsdcUpgradeToAndCallCall>
  )

  datatype EventsCalls = EventsCalls(events: Option<Events>, calls: Option<Calls>)

  /** The number of records over all batches. */
  function EventsRecordCount(e: Events): nat {
    |e.usdcAdminChangeds|
    + |e.usdcApprovals|
    + |e.usdcAuthorizationCanceleds|
    + |e.usdcAuthorizationUseds|
    + |e.usdcBlacklisteds|
    + |e.usdcBlacklisterChangeds|
    + |e.usdcBurns|
    + |e.usdcMasterMinterChangeds|
    + |e.usdcMints|
    + |e.usdcMinterConfigureds|
    + |e.usdcMinterRemoveds|
    + |e.usdcOwnershipTransferreds|
    + |e.usdcPauses|
    + |e.usdcPauserChangeds|
    + |e.usdcRescuerChangeds|
    + |e.usdcTransfers|
    + |e.usdcUnBlacklisteds|
    + |e.usdcUnpauses|
    + |e.usdcUpgradeds|
  }

  /** `Events::default()`: every batch empty. */
  function DefaultEvents(): (e: Events)
    ensures EventsRecordCount(e) == 0
  {
    Events([], [], [], [], [], [], [], [], [], [], [], [], [], [], [], [], [], [], [])
  }

  /** Appends every batch of `b` to the same batch of `a`. */
  function AppendEvents(a: Events, b: Events): (r: Events)
    ensures EventsRecordCount(r) == EventsRecordCount(a) + EventsRecordCount(b)
    ensures a == DefaultEvents() ==> r == b
  {
    Events(
      a.usdcAdminChangeds + b.usdcAdminChangeds,
      a.usdcApprovals + b.usdcApprovals,
      a.usdcAuthorizationCanceleds + b.usdcAuthorizationCanceleds,
      a.usdcAuthorizationUseds + b.usdcAuthorizationUseds,
      a.usdcBlacklisteds + b.usdcBlacklisteds,
      a.usdcBlacklisterChangeds + b.usdcBlacklisterChangeds,
      a.usdcBurns + b.usdcBurns,
      a.usdcMasterMinterChangeds + b.usdcMasterMinterChangeds,
      a.usdcMints + b.usdcMints,
      a.usdcMinterConfigureds + b.usdcMinterConfigureds,
      a.usdcMinterRemoveds + b.usdcMinterRemoveds,
      a.usdcOwnershipTransferreds + b.usdcOwnershipTransferreds,
      a.usdcPauses + b.usdcPauses,
      a.usdcPauserChangeds + b.usdcPauserChangeds,
      a.usdcRescuerChangeds + b.usdcRescuerChangeds,
      a.usdcTransfers + b.usdcTransfers,
      a.usdcUnBlacklisteds + b.usdcUnBlacklisteds,
      a.usdcUnpauses + b.usdcUnpauses,
      a.usdcUpgradeds + b.usdcUpgradeds
    )
  }

  /** The number of records over all batches. */
  function CallsRecordCount(e: Calls): nat {
    |e.usdcCallApproves|
    + |e.usdcCallBlacklists|
    + |e.usdcCallBurns|
    + |e.usdcCallCancelAuthorization1s|
    + |e.usdcCallCancelAuthorization2s|
    + |e.usdcCallChangeAdmins|
    + |e.usdcCallConfigureMinters|
    + |e.usdcCallDecreaseAllowances|
    + |e.usdcCallIncreaseAllowances|
    + |e.usdcCallInitializes|
    + |e.usdcCallInitializeV2s|
    + |e.usdcCallInitializeV21s|
    + |e.usdcCallInitializeV22s|
    + |e.usdcCallMints|
    + |e.usdcCallPauses|
    + |e.usdcCallPermit1s|
    + |e.usdcCallPermit2s|
    + |e.usdcCallReceiveWithAuthorization1s|
    + |e.usdcCallReceiveWithAuthorization2s|
    + |e.usdcCallRemoveMinters|
    + |e.usdcCallRescueErc20s|
    + |e.usdcCallTransfers|
    + |e.usdcCallTransferFroms|
    + |e.usdcCallTransferOwnerships|
    + |e.usdcCallTransferWithAuthorization1s|
    + |e.usdcCallTransferWithAuthorization2s|
    + |e.usdcCallUnBlacklists|
    + |e.usdcCallUnpauses|
    + |e.usdcCallUpdateBlacklisters|
    + |e.usdcCallUpdateMasterMinters|
    + |e.usdcCallUpdatePausers|
    + |e.usdcCallUpdateRescuers|
    + |e.usdcCallUpgradeTos|
    + |e.usdcCallUpgradeToAndCalls|
  }

  /** `Calls::default()`: every batch empty. */
  function DefaultCalls(): (e: Calls)
    ensures CallsRecordCount(e) == 0
  {
    Calls([], [], [], [], [], [], [], [], [], [], [], [], [], [], [], [], [], [], [], [], [], [], [], [], [], [], [], [], [], [], [], [], [], [])
  }

  /** Appends every batch of `b` to the same batch of `a`. */
  function AppendCalls(a: Calls, b: Calls): (r: Calls)
    ensures CallsRecordCount(r) == CallsRecordCount(a) + CallsRecordCount(b)
    ensures a == DefaultCalls() ==> r == b
  {
    Calls(
      a.usdcCallApproves + b.usdcCallApproves,
      a.usdcCallBlacklists + b.usdcCallBlacklists,
      a.usdcCallBurns + b.usdcCallBurns,
      a.usdcCallCancelAuthorization1s + b.usdcCallCancelAuthorization1s,
      a.usdcCallCancelAuthorization2s + b.usdcCallCancelAuthorization2s,
      a.usdcCallChangeAdmins + b.usdcCallChangeAdmins,
      a.usdcCallConfigureMinters + b.usdcCallConfigureMinters,
      a.usdcCallDecreaseAllowances + b.usdcCallDecreaseAllowances,
      a.usdcCallIncreaseAllowances + b.usdcCallIncreaseAllowances,
      a.usdcCallInitializes + b.usdcCallInitializes,
      a.usdcCallInitializeV2s + b.usdcCallInitializeV2s,
      a.usdcCallInitializeV21s + b.usdcCallInitializeV21s,
      a.usdcCallInitializeV22s + b.usdcCallInitializeV22s,
      a.usdcCallMints + b.usdcCallMints,
      a.usdcCallPauses + b.usdcCallPauses,
      a.usdcCallPermit1s + b.usdcCallPermit1s,
      a.usdcCallPermit2s + b.usdcCallPermit2s,
      a.usdcCallReceiveWithAuthorization1s + b.usdcCallReceiveWithAuthorization1s,
      a.usdcCallReceiveWithAuthorization2s + b.usdcCallReceiveWithAuthorization2s,
      a.usdcCallRemoveMinters + b.usdcCallRemoveMinters,
      a.usdcCallRescueErc20s + b.usdcCallRescueErc20s,
      a.usdcCallTransfers + b.usdcCallTransfers,
      a.usdcCallTransferFroms + b.usdcCallTransferFroms,
      a.usdcCallTransferOwnerships + b.usdcCallTransferOwnerships,
      a.usdcCallTransferWithAuthorization1s + b.usdcCallTransferWithAuthorization1s,
      a.usdcCallTransferWithAuthorization2s + b.usdcCallTransferWithAuthorization2s,
      a.usdcCallUnBlacklists + b.usdcCallUnBlacklists,
      a.usdcCallUnpauses + b.usdcCallUnpauses,
      a.usdcCallUpdateBlacklisters + b.usdcCallUpdateBlacklisters,
      a.usdcCallUpdateMasterMinters + b.usdcCallUpdateMasterMinters,
      a.usdcCallUpdatePausers + b.usdcCallUpdatePausers,
      a.usdcCallUpdateRescuers + b.usdcCallUpdateRescuers,
      a.usdcCallUpgradeTos + b.usdcCallUpgradeTos,
      a.usdcCallUpgradeToAndCalls + b.usdcCallUpgradeToAndCalls
    )
  }

}
