/** The on-chain settlement program of one market, as a function of its accounts. */
module SettlementModel {
  import opened Types
  import opened Preimages
  import opened SettlementTypes
  import opened Ed25519Check

  datatype CustodyAsset = Base | Quote

  datatype TraderBalance = TraderBalance(base: U64, quote: U64)

  datatype OrderFillState = OrderFillState(market: Pubkey, hash: Digest, filled: U64, cancelled: bool)

  datatype Receipt = Receipt(
    id: U64, buyer: Pubkey, seller: Pubkey, buyerHash: Digest, sellerHash: Digest, base: U64, quote: U64)

  // What does not change: the market's keys, the hash, and which signatures the signature program verifies.
  datatype Program = Program(
    market: Pubkey,
    authority: Pubkey,
    baseMint: Pubkey,
    quoteMint: Pubkey,
    baseVault: Pubkey,
    quoteVault: Pubkey,
    vaultAuthority: Pubkey,
    sha256: seq<Byte> -> Digest,
    verifies: (Pubkey, seq<Byte>, Signature) -> bool)
  {
    function Mint(asset: CustodyAsset): Pubkey {
      if asset == Base then baseMint else quoteMint
    }

    function Vault(asset: CustodyAsset): Pubkey {
      if asset == Base then baseVault else quoteVault
    }
  }

  // The accounts of the market, each map keyed by the last seed of its program-derived address.
  datatype Chain = Chain(
    paused: bool,
    balances: map<Pubkey, TraderBalance>,
    fills: map<Digest, OrderFillState>,
    receipts: map<U64, Receipt>,
    baseVault: U64,
    quoteVault: U64)

  const NEW_CHAIN := Chain(false, map[], map[], map[], 0, 0)

  datatype SignedFillArgs = SignedFillArgs(
    settlementId: U64,
    fillPrice: U64,
    fillQuantity: U64,
    buyerHash: Digest,
    sellerHash: Digest,
    buyerOrder: SignedOrderPayload,
    buyerSignature: Signature,
    sellerOrder: SignedOrderPayload,
    sellerSignature: Signature)

  function CheckedAdd(a: U64, b: U64, error: ProgramError): Result<U64, ProgramError> {
    if a + b < TWO_64 then Ok(a + b) else Err(error)
  }

  function CheckedSub(a: U64, b: U64, error: ProgramError): Result<U64, ProgramError> {
    if b <= a then Ok(a - b) else Err(error)
  }

  function BalanceOr(chain: Chain, trader: Pubkey): TraderBalance {
    if trader in chain.balances then chain.balances[trader] else TraderBalance(0, 0)
  }

  function DepositAccounts(p: Program, trader: Pubkey, asset: CustodyAsset, c: CustodyAccounts)
    : Result<(), ProgramError>
  {
    if c.mint != p.Mint(asset) then Err(InvalidDepositMint)
    else if c.wallet.mint != p.Mint(asset) || c.wallet.owner != trader then Err(InvalidDepositSource)
    else if c.vault.key != p.Vault(asset) || c.vault.mint != p.Mint(asset) then Err(InvalidMarketVault)
    else if c.vault.owner != p.vaultAuthority then Err(InvalidMarketVaultAuthority)
    else Ok(())
  }

  function WithdrawAccounts(p: Program, trader: Pubkey, asset: CustodyAsset, c: CustodyAccounts)
    : Result<(), ProgramError>
  {
    if c.mint != p.Mint(asset) then Err(InvalidWithdrawMint)
    else if c.wallet.mint != p.Mint(asset) || c.wallet.owner != trader then Err(InvalidWithdrawDestination)
    else if c.vault.key != p.Vault(asset) || c.vault.mint != p.Mint(asset) then Err(InvalidMarketVault)
    else if c.vault.owner != p.vaultAuthority || c.authority != p.vaultAuthority then Err(InvalidMarketVaultAuthority)
    else Ok(())
  }

  // `funds` is what the trader's own token account holds.
  function Deposit(
    p: Program, chain: Chain, trader: Pubkey, asset: CustodyAsset, amount: U64, funds: U64, c: CustodyAccounts)
    : Result<Chain, ProgramError>
  {
    if chain.paused then Err(MarketPaused)
    else if amount == 0 then Err(InvalidDepositAmount)
    else if DepositAccounts(p, trader, asset, c).Err? then Err(DepositAccounts(p, trader, asset, c).error)
    else if amount > funds then Err(TokenTransferFailed)
    else TakeIn(chain, trader, asset, amount)
  }

  function TakeIn(chain: Chain, trader: Pubkey, asset: CustodyAsset, amount: U64): Result<Chain, ProgramError> {
    var b := BalanceOr(chain, trader);
    match asset
    case Base =>
      var vault :- CheckedAdd(chain.baseVault, amount, TokenTransferFailed);
      var base :- CheckedAdd(b.base, amount, BalanceOverflow);
      Ok(chain.(baseVault := vault, balances := chain.balances[trader := b.(base := base)]))
    case Quote =>
      var vault :- CheckedAdd(chain.quoteVault, amount, TokenTransferFailed);
      var quote :- CheckedAdd(b.quote, amount, BalanceOverflow);
      Ok(chain.(quoteVault := vault, balances := chain.balances[trader := b.(quote := quote)]))
  }

  function Withdraw(p: Program, chain: Chain, trader: Pubkey, asset: CustodyAsset, amount: U64, c: CustodyAccounts)
    : Result<Chain, ProgramError>
  {
    if trader !in chain.balances then Err(AccountNotInitialized)
    else if chain.paused then Err(MarketPaused)
    else if amount == 0 then Err(InvalidWithdrawAmount)
    else if WithdrawAccounts(p, trader, asset, c).Err? then Err(WithdrawAccounts(p, trader, asset, c).error)
    else PayOut(chain, trader, asset, amount)
  }

  function PayOut(chain: Chain, trader: Pubkey, asset: CustodyAsset, amount: U64): Result<Chain, ProgramError>
    requires trader in chain.balances
  {
    var b := chain.balances[trader];
    match asset
    case Base =>
      var base :- CheckedSub(b.base, amount, ProgramError.InsufficientAvailableBalance);
      var vault :- CheckedSub(chain.baseVault, amount, TokenTransferFailed);
      Ok(chain.(baseVault := vault, balances := chain.balances[trader := b.(base := base)]))
    case Quote =>
      var quote :- CheckedSub(b.quote, amount, ProgramError.InsufficientAvailableBalance);
      var vault :- CheckedSub(chain.quoteVault, amount, TokenTransferFailed);
      Ok(chain.(quoteVault := vault, balances := chain.balances[trader := b.(quote := quote)]))
  }

  // The buyer pays quote for base, the seller the reverse.
  function SettleBalances(buyer: TraderBalance, seller: TraderBalance, base: U64, quote: U64)
    : Result<(TraderBalance, TraderBalance), ProgramError>
  {
    var buyerQuote :- CheckedSub(buyer.quote, quote, ProgramError.InsufficientAvailableBalance);
    var buyerBase :- CheckedAdd(buyer.base, base, SettlementBalanceOverflow);
    var sellerBase :- CheckedSub(seller.base, base, ProgramError.InsufficientAvailableBalance);
    var sellerQuote :- CheckedAdd(seller.quote, quote, SettlementBalanceOverflow);
    Ok((TraderBalance(buyerBase, buyerQuote), TraderBalance(sellerBase, sellerQuote)))
  }

  // Moves the two balances and writes the receipt.
  function MoveAndReceipt(chain: Chain, r: Receipt): Result<Chain, ProgramError>
    requires r.buyer in chain.balances && r.seller in chain.balances
  {
    var settled :- SettleBalances(chain.balances[r.buyer], chain.balances[r.seller], r.base, r.quote);
    Ok(chain.(
       balances := chain.balances[r.buyer := settled.0][r.seller := settled.1],
       receipts := chain.receipts[r.id := r]))
  }

  // The account checks every settlement makes before its handler runs.
  function SettlementAccounts(p: Program, chain: Chain, caller: Pubkey, id: U64, buyer: Pubkey, seller: Pubkey)
    : Result<(), ProgramError>
  {
    if caller != p.authority then Err(UnauthorizedSettlementAuthority)
    else if !(buyer in chain.balances && seller in chain.balances) then Err(AccountNotInitialized)
    else if id in chain.receipts then Err(AccountAlreadyInUse)
    else if buyer == seller then Err(DuplicateMutableAccount)
    else Ok(())
  }

  function SettleFill(
    p: Program, chain: Chain, caller: Pubkey, id: U64, buyer: Pubkey, seller: Pubkey, base: U64, quote: U64)
    : Result<Chain, ProgramError>
  {
    var accounts := SettlementAccounts(p, chain, caller, id, buyer, seller);
    if accounts.Err? then Err(accounts.error)
    else if chain.paused then Err(MarketPaused)
    else if base == 0 || quote == 0 then Err(InvalidSettlementAmount)
    else MoveAndReceipt(chain, Receipt(id, buyer, seller, ZERO_DIGEST, ZERO_DIGEST, base, quote))
  }

  predicate ValidPayload(o: SignedOrderPayload, market: Pubkey, trader: Pubkey) {
    && o.market == market && o.trader == trader
    && o.orderId > 0 && o.price > 0 && o.quantity > 0 && o.nonce > 0 && o.expirySlot > 0
  }

  function ValidateFillRules(a: SignedFillArgs, slot: U64): Result<(), ProgramError> {
    var buyer, seller := a.buyerOrder, a.sellerOrder;
    if buyer.trader == seller.trader then Err(InvalidSignedOrder)
    else if slot > buyer.expirySlot || slot > seller.expirySlot then Err(SignedOrderExpired)
    else if buyer.price < seller.price then Err(SignedOrderPricesDoNotCross)
    else if a.fillPrice > buyer.price || a.fillPrice < seller.price then Err(FillPriceOutsideSignedOrder)
    else if a.fillQuantity > buyer.quantity || a.fillQuantity > seller.quantity then Err(FillQuantityExceedsSignedOrder)
    else Ok(())
  }

  // A missing account is created zeroed; the zeroed market key marks it as new.
  function LoadFillState(p: Program, chain: Chain, hash: Digest): Result<OrderFillState, ProgramError> {
    var loaded := if hash in chain.fills then chain.fills[hash] else OrderFillState(DEFAULT_KEY, ZERO_DIGEST, 0, false);
    var state := if loaded.market == DEFAULT_KEY then OrderFillState(p.market, hash, 0, false) else loaded;
    if state.market == p.market && state.hash == hash then Ok(state) else Err(OrderFillStateMismatch)
  }

  function AddFill(state: OrderFillState, orderQuantity: U64, fill: U64): Result<OrderFillState, ProgramError> {
    if state.cancelled then Err(OrderCancelled)
    else if state.filled + fill >= TWO_64 then Err(SettlementBalanceOverflow)
    else if state.filled + fill > orderQuantity then Err(FillQuantityExceedsSignedOrder)
    else Ok(state.(filled := state.filled + fill))
  }

  function QuoteAmount(price: U64, quantity: U64): Result<U64, ProgramError> {
    var amount := price * quantity;
    if 0 <= amount < TWO_64 then Ok(amount) else Err(SettlementBalanceOverflow)
  }

  // The instruction so many places before the settlement.
  function VerifyEarlier(
    earlier: seq<PriorInstruction>, back: nat, pubkey: Pubkey, signature: Signature, message: seq<Byte>)
    : Result<(), ProgramError>
    requires back > 0
  {
    if back > |earlier| then Err(NoEarlierInstruction)
    else VerifyEd25519Instruction(earlier[|earlier| - back], pubkey, signature, message)
  }

  // The two instructions before the settlement must be the signature checks of buyer and seller.
  function VerifySignatures(earlier: seq<PriorInstruction>, buyer: Pubkey, seller: Pubkey, a: SignedFillArgs)
    : Result<(), ProgramError>
  {
    var _ :- VerifyEarlier(earlier, 2, buyer, a.buyerSignature, Preimage(a.buyerOrder));
    VerifyEarlier(earlier, 1, seller, a.sellerSignature, Preimage(a.sellerOrder))
  }

  // Everything a signed settlement checks before it touches an account.
  function ValidateSigned(
    p: Program, chain: Chain, slot: U64, earlier: seq<PriorInstruction>, id: U64, buyerHash: Digest, sellerHash: Digest,
    buyer: Pubkey, seller: Pubkey, a: SignedFillArgs): Result<(), ProgramError>
  {
    if chain.paused then Err(MarketPaused)
    else if a.fillPrice == 0 || a.fillQuantity == 0 then Err(InvalidSettlementAmount)
    else if a.settlementId != id || a.buyerHash != buyerHash || a.sellerHash != sellerHash then Err(InvalidSignedOrder)
    else if !ValidPayload(a.buyerOrder, p.market, buyer) || a.buyerOrder.side != Bid then Err(InvalidSignedOrder)
    else if !ValidPayload(a.sellerOrder, p.market, seller) || a.sellerOrder.side != Ask then Err(InvalidSignedOrder)
    else if ValidateFillRules(a, slot).Err? then ValidateFillRules(a, slot)
    else if p.sha256(Preimage(a.buyerOrder)) != a.buyerHash then Err(OrderHashMismatch)
    else if p.sha256(Preimage(a.sellerOrder)) != a.sellerHash then Err(OrderHashMismatch)
    else VerifySignatures(earlier, buyer, seller, a)
  }

  function SettleSignedFill(
    p: Program, chain: Chain, caller: Pubkey, slot: U64, earlier: seq<PriorInstruction>, id: U64,
    buyerHash: Digest, sellerHash: Digest, buyer: Pubkey, seller: Pubkey, a: SignedFillArgs)
    : Result<Chain, ProgramError>
  {
    var accounts := SettlementAccounts(p, chain, caller, id, buyer, seller);
    var checks := ValidateSigned(p, chain, slot, earlier, id, buyerHash, sellerHash, buyer, seller, a);
    if accounts.Err? then Err(accounts.error)
    else if checks.Err? then Err(checks.error)
    else ApplySigned(p, chain, id, buyerHash, sellerHash, buyer, seller, a)
  }

  // A call of the signature program with one entry succeeds only if the signature is valid.
  predicate Succeeds(p: Program, ix: PriorInstruction) {
    ix.callsEd25519 ==>
      match Entry(ix.data)
      case None => true
      case Some(v) => p.verifies(v.pubkey, v.message, v.signature)
  }

  // The part of a signed settlement that moves things.
  function ApplySigned(
    p: Program, chain: Chain, id: U64, buyerHash: Digest, sellerHash: Digest,
    buyer: Pubkey, seller: Pubkey, a: SignedFillArgs): Result<Chain, ProgramError>
    requires buyer in chain.balances && seller in chain.balances
  {
    var buyerState :- LoadFillState(p, chain, buyerHash);
    var sellerState :- LoadFillState(p, chain, sellerHash);
    var buyerFilled :- AddFill(buyerState, a.buyerOrder.quantity, a.fillQuantity);
    var sellerFilled :- AddFill(sellerState, a.sellerOrder.quantity, a.fillQuantity);
    var quote :- QuoteAmount(a.fillPrice, a.fillQuantity);
    MoveAndReceipt(chain.(fills := chain.fills[buyerHash := buyerFilled][sellerHash := sellerFilled]),
                   Receipt(id, buyer, seller, buyerHash, sellerHash, a.fillQuantity, quote))
  }

  function CancelSignedOrder(p: Program, chain: Chain, trader: Pubkey, hash: Digest, o: SignedOrderPayload)
    : Result<Chain, ProgramError>
  {
    if chain.paused then Err(MarketPaused)
    else if !ValidPayload(o, p.market, trader) then Err(InvalidSignedOrder)
    else if p.sha256(Preimage(o)) != hash then Err(OrderHashMismatch)
    else
      var state :- LoadFillState(p, chain, hash);
      Ok(chain.(fills := chain.fills[hash := state.(cancelled := true)]))
  }

  datatype Instruction =
    | DepositIx(trader: Pubkey, asset: CustodyAsset, amount: U64, funds: U64, accounts: CustodyAccounts)
    | WithdrawIx(trader: Pubkey, asset: CustodyAsset, amount: U64, accounts: CustodyAccounts)
    | SettleIx(caller: Pubkey, id: U64, buyer: Pubkey, seller: Pubkey, base: U64, quote: U64)
    | SettleSignedIx(caller: Pubkey, slot: U64, earlier: seq<PriorInstruction>, id: U64,
                     buyerHash: Digest, sellerHash: Digest, buyer: Pubkey, seller: Pubkey, args: SignedFillArgs)
    | CancelIx(trader: Pubkey, hash: Digest, order: SignedOrderPayload)

  function Execute(p: Program, chain: Chain, ix: Instruction): Result<Chain, ProgramError>
  {
    match ix
    case DepositIx(trader, asset, amount, funds, accounts) => Deposit(p, chain, trader, asset, amount, funds, accounts)
    case WithdrawIx(trader, asset, amount, accounts) => Withdraw(p, chain, trader, asset, amount, accounts)
    case SettleIx(caller, id, buyer, seller, base, quote) =>
      SettleFill(p, chain, caller, id, buyer, seller, base, quote)
    case SettleSignedIx(caller, slot, earlier, id, bh, sh, buyer, seller, args) =>
      if exists i | 0 <= i < |earlier| :: !Succeeds(p, earlier[i]) then Err(EarlierInstructionFailed)
      else SettleSignedFill(p, chain, caller, slot, earlier, id, bh, sh, buyer, seller, args)
    case CancelIx(trader, hash, order) => CancelSignedOrder(p, chain, trader, hash, order)
  }

  // A failed instruction is rolled back; the log keeps those that succeeded.
  datatype History = History(chain: Chain, log: seq<Instruction>)

  function RunChain(p: Program, instructions: seq<Instruction>): History
  {
    if instructions == [] then History(NEW_CHAIN, [])
    else
      var h, ix := RunChain(p, instructions[..|instructions| - 1]), instructions[|instructions| - 1];
      match Execute(p, h.chain, ix)
      case Err(_) => h
      case Ok(chain) => History(chain, h.log + [ix])
  }
}
