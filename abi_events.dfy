/** The decoded event parameters of the tracked contract's ABI
    (`abi::usdc_contract::events`), one datatype per event, and the catalogue of
    `match_and_decode` functions. The ABI code itself (topic matching and byte
    decoding) is not part of this model: each decoder is a parameter of the
    pipeline, and nothing is assumed about it. Integers are the decoded `uint256`
    values; addresses are 20 bytes and `bytes32` words 32 bytes. */
module AbiEvents {
  import opened Wrappers
  import opened Scalars
  import opened Eth

  datatype AdminChanged = AdminChanged(previousAdmin: Address, newAdmin: Address)
  datatype Approval = Approval(owner: Address, spender: Address, value: nat)
  datatype AuthorizationCanceled = AuthorizationCanceled(authorizer: Address, nonce: Bytes32)
  datatype AuthorizationUsed = AuthorizationUsed(authorizer: Address, nonce: Bytes32)
  datatype Blacklisted = Blacklisted(uAccount: Address)
  datatype BlacklisterChanged = BlacklisterChanged(newBlacklister: Address)
  datatype Burn = Burn(burner: Address, amount: nat)
  datatype MasterMinterChanged = MasterMinterChanged(newMasterMinter: Address)
  datatype Mint = Mint(minter: Address, to: Address, amount: nat)
  datatype MinterConfigured = MinterConfigured(minter: Address, minterAllowedAmount: nat)
  datatype MinterRemoved = MinterRemoved(oldMinter: Address)
  datatype OwnershipTransferred = OwnershipTransferred(previousOwner: Address, newOwner: Address)
  datatype Pause = Pause
  datatype PauserChanged = PauserChanged(newAddress: Address)
  datatype RescuerChanged = RescuerChanged(newRescuer: Address)
  datatype Transfer = Transfer(from: Address, to: Address, value: nat)
  datatype UnBlacklisted = UnBlacklisted(uAccount: Address)
  datatype Unpause = Unpause
  datatype Upgraded = Upgraded(implementation: Address)

  /** One `match_and_decode` per event kind: `Some` when the log is that event and
      its payload decodes. */
  datatype Decoders = Decoders(
    adminChanged: Log -> Option<AdminChanged>,
    approval: Log -> Option<Approval>,
    authorizationCanceled: Log -> Option<AuthorizationCanceled>,
    authorizationUsed: Log -> Option<AuthorizationUsed>,
    blacklisted: Log -> Option<Blacklisted>,
    blacklisterChanged: Log -> Option<BlacklisterChanged>,
    burn: Log -> Option<Burn>,
    masterMinterChanged: Log -> Option<MasterMinterChanged>,
    mint: Log -> Option<Mint>,
    minterConfigured: Log -> Option<MinterConfigured>,
    minterRemoved: Log -> Option<MinterRemoved>,
    ownershipTransferred: Log -> Option<OwnershipTransferred>,
    pause: Log -> Option<Pause>,
    pauserChanged: Log -> Option<PauserChanged>,
    rescuerChanged: Log -> Option<RescuerChanged>,
    transfer: Log -> Option<Transfer>,
    unBlacklisted: Log -> Option<UnBlacklisted>,
    unpause: Log -> Option<Unpause>,
    upgraded: Log -> Option<Upgraded>
  )
}
