/** The decoded call arguments of the tracked contract's ABI
    (`abi::usdc_contract::functions`), one datatype per function, and the
    catalogue of selector matchers, input decoders and, for the functions that
    return a `bool`, output decoders. As for events, the ABI code is not part of
    this model: the catalogue is a parameter of the pipeline. `uint8` arguments
    are `U8`; other integers are the decoded `uint256` values. */
module AbiFunctions {
  import opened Wrappers
  import opened Scalars
  import opened Eth

  /** A function of the ABI: `match_call` (does the call's selector name this
      function?) and `decode` (the call's input as this function's arguments). */
  datatype Function<D> = Function(matchCall: Call -> bool, decode: Call -> Result<D, string>)

  /** `output`: decodes a call's return data as the function's `bool` result. */
  type OutputDecoder = Bytes -> Result<bool, string>

  datatype Approve = Approve(spender: Address, value: nat)
  datatype Blacklist = Blacklist(uAccount: Address)
  datatype Burn = Burn(uAmount: nat)
  datatype CancelAuthorization1 = CancelAuthorization1(authorizer: Address, nonce: Bytes32, v: U8, r: Bytes32, s: Bytes32)
  datatype CancelAuthorization2 = CancelAuthorization2(authorizer: Address, nonce: Bytes32, signature: Bytes)
  datatype ChangeAdmin = ChangeAdmin(newAdmin: Address)
  datatype ConfigureMinter = ConfigureMinter(minter: Address, minterAllowedAmount: nat)
  datatype DecreaseAllowance = DecreaseAllowance(spender: Address, decrement: nat)
  datatype IncreaseAllowance = IncreaseAllowance(spender: Address, increment: nat)
  datatype Initialize = Initialize(tokenName: string, tokenSymbol: string, tokenCurrency: string, tokenDecimals: U8, newMasterMinter: Address, newPauser: Address, newBlacklister: Address, newOwner: Address)
  datatype InitializeV2 = InitializeV2(newName: string)
  datatype InitializeV21 = InitializeV21(lostAndFound: Address)
  datatype InitializeV22 = InitializeV22(accountsToBlacklist: seq<Address>, newSymbol: string)
  datatype Mint = Mint(uTo: Address, uAmount: nat)
  datatype Pause = Pause
  datatype Permit1 = Permit1(owner: Address, spender: Address, value: nat, deadline: nat, signature: Bytes)
  datatype Permit2 = Permit2(owner: Address, spender: Address, value: nat, deadline: nat, v: U8, r: Bytes32, s: Bytes32)
  datatype ReceiveWithAuthorization1 = ReceiveWithAuthorization1(from: Address, to: Address, value: nat, validAfter: nat, validBefore: nat, nonce: Bytes32, signature: Bytes)
  datatype ReceiveWithAuthorization2 = ReceiveWithAuthorization2(from: Address, to: Address, value: nat, validAfter: nat, validBefore: nat, nonce: Bytes32, v: U8, r: Bytes32, s: Bytes32)
  datatype RemoveMinter = RemoveMinter(minter: Address)
  datatype RescueErc20 = RescueErc20(tokenContract: Address, to: Address, amount: nat)
  datatype Transfer = Transfer(to: Address, value: nat)
  datatype TransferFrom = TransferFrom(from: Address, to: Address, value: nat)
  datatype TransferOwnership = TransferOwnership(newOwner: Address)
  datatype TransferWithAuthorization1 = TransferWithAuthorization1(from: Address, to: Address, value: nat, validAfter: nat, validBefore: nat, nonce: Bytes32, signature: Bytes)
  datatype TransferWithAuthorization2 = TransferWithAuthorization2(from: Address, to: Address, value: nat, validAfter: nat, validBefore: nat, nonce: Bytes32, v: U8, r: Bytes32, s: Bytes32)
  datatype UnBlacklist = UnBlacklist(uAccount: Address)
  datatype Unpause = Unpause
  datatype UpdateBlacklister = UpdateBlacklister(uNewBlacklister: Address)
  datatype UpdateMasterMinter = UpdateMasterMinter(uNewMasterMinter: Address)
  datatype UpdatePauser = UpdatePauser(uNewPauser: Address)
  datatype UpdateRescuer = UpdateRescuer(newRescuer: Address)
  datatype UpgradeTo = UpgradeTo(newImplementation: Address)
  datatype UpgradeToAndCall = UpgradeToAndCall(newImplementation: Address, data: Bytes)

  datatype Decoders = Decoders(
    approve: Function<Approve>,
    approveOutput: OutputDecoder,
    blacklist: Function<Blacklist>,
    burn: Function<Burn>,
    cancelAuthorization1: Function<CancelAuthorization1>,
    cancelAuthorization2: Function<CancelAuthorization2>,
    changeAdmin: Function<ChangeAdmin>,
    configureMinter: Function<ConfigureMinter>,
    configureMinterOutput: OutputDecoder,
    decreaseAllowance: Function<DecreaseAllowance>,
    decreaseAllowanceOutput: OutputDecoder,
    increaseAllowance: Function<IncreaseAllowance>,
    increaseAllowanceOutput: OutputDecoder,
    initialize: Function<Initialize>,
    initializeV2: Function<InitializeV2>,
    initializeV21: Function<InitializeV21>,
    initializeV22: Function<InitializeV22>,
    mint: Function<Mint>,
    mintOutput: OutputDecoder,
    pause: Function<Pause>,
    permit1: Function<Permit1>,
    permit2: Function<Permit2>,
    receiveWithAuthorization1: Function<ReceiveWithAuthorization1>,
    receiveWithAuthorization2: Function<ReceiveWithAuthorization2>,
    removeMinter: Function<RemoveMinter>,
    removeMinterOutput: OutputDecoder,
    rescueErc20: Function<RescueErc20>,
    transfer: Function<Transfer>,
    transferOutput: OutputDecoder,
    transferFrom: Function<TransferFrom>,
    transferFromOutput: OutputDecoder,
    transferOwnership: Function<TransferOwnership>,
    transferWithAuthorization1: Function<TransferWithAuthorization1>,
    transferWithAuthorization2: Function<TransferWithAuthorization2>,
    unBlacklist: Function<UnBlacklist>,
    unpause: Function<Unpause>,
    updateBlacklister: Function<UpdateBlacklister>,
    updateMasterMinter: Function<UpdateMasterMinter>,
    updatePauser: Function<UpdatePauser>,
    updateRescuer: Function<UpdateRescuer>,
    upgradeTo: Function<UpgradeTo>,
    upgradeToAndCall: Function<UpgradeToAndCall>
  )
}
