/** Errors, bytes and account records shared by the parts of the settlement program. */
module SettlementTypes {
  import opened Types

  type Digest = seq<Byte>

  // Receipts of unsigned settlements carry this in place of order hashes.
  const ZERO_DIGEST: Digest := [
    0, 0, 0, 0, 0, 0, 0, 0, 0, 0, 0, 0, 0, 0, 0, 0,
    0, 0, 0, 0, 0, 0, 0, 0, 0, 0, 0, 0, 0, 0, 0, 0]

  const ZERO_SIGNATURE_BYTES: seq<Byte> := [
    0, 0, 0, 0, 0, 0, 0, 0, 0, 0, 0, 0, 0, 0, 0, 0,
    0, 0, 0, 0, 0, 0, 0, 0, 0, 0, 0, 0, 0, 0, 0, 0,
    0, 0, 0, 0, 0, 0, 0, 0, 0, 0, 0, 0, 0, 0, 0, 0,
    0, 0, 0, 0, 0, 0, 0, 0, 0, 0, 0, 0, 0, 0, 0, 0]

  type Signature = s: seq<Byte> | |s| == 64 witness ZERO_SIGNATURE_BYTES

  datatype ProgramError =
    | UnauthorizedSettlementAuthority
    | MarketPaused
    | InvalidSettlementAmount
    | InvalidDepositAmount
    | InvalidDepositMint
    | InvalidDepositSource
    | InvalidWithdrawAmount
    | InvalidWithdrawMint
    | InvalidWithdrawDestination
    | InvalidMarketVault
    | InvalidMarketVaultAuthority
    | InvalidSignedOrder
    | SignedOrderExpired
    | SignedOrderPricesDoNotCross
    | FillPriceOutsideSignedOrder
    | FillQuantityExceedsSignedOrder
    | InvalidEd25519Instruction
    | OrderHashMismatch
    | OrderCancelled
    | OrderFillStateMismatch
    | InsufficientAvailableBalance
    | SettlementBalanceOverflow
    | BalanceOverflow
    | TokenTransferFailed
    | AccountNotInitialized
    | AccountAlreadyInUse
    | DuplicateMutableAccount
    | NoEarlierInstruction
    | EarlierInstructionFailed

  // An earlier instruction of the transaction: whether it calls the signature program, how many accounts it names,
  // and its bytes.
  datatype PriorInstruction = PriorInstruction(callsEd25519: bool, accounts: nat, data: seq<Byte>)

  datatype TokenAccount = TokenAccount(key: Pubkey, mint: Pubkey, owner: Pubkey)

  // The token accounts a deposit or a withdrawal is called with; the wallet is the trader's own.
  datatype CustodyAccounts = CustodyAccounts(mint: Pubkey, wallet: TokenAccount, vault: TokenAccount, authority: Pubkey)
}
