/** The settlement program's instructions, working on loaded accounts that are written back only on success. */
module SpotSettlement {
  import opened Types
  import opened Preimages
  import opened SettlementModel
  import opened SettlementTypes
  import Model = SettlementModel

  class MarketAccounts {
    const p: Program
    var paused: bool
    var balances: map<Pubkey, TraderBalance>
    var fills: map<Digest, OrderFillState>
    var receipts: map<U64, Receipt>
    var baseVault: U64
    var quoteVault: U64

    function View(): Chain
      reads this
    {
      Chain(paused, balances, fills, receipts, baseVault, quoteVault)
    }

    // What an instruction promises: the model's new state, or the model's error and no change.
    ghost predicate Did(was: Chain, r: Result<(), ProgramError>, model: Result<Chain, ProgramError>)
      reads this
    {
      match model
      case Ok(chain) => r == Ok(()) && View() == chain
      case Err(e) => r == Err(e) && View() == was
    }

    constructor (p: Program)
      ensures this.p == p && View() == NEW_CHAIN
    {
      this.p := p;
      paused, balances, fills, receipts, baseVault, quoteVault := false, map[], map[], map[], 0, 0;
    }

    method Deposit(trader: Pubkey, asset: CustodyAsset, amount: U64, funds: U64, c: CustodyAccounts)
      returns (r: Result<(), ProgramError>)
      modifies this
      ensures Did(old(View()), r, Model.Deposit(p, old(View()), trader, asset, amount, funds, c))
    {
      if paused {
        return Err(MarketPaused);
      }
      if amount == 0 {
        return Err(InvalidDepositAmount);
      }
      var _ :- DepositAccounts(p, trader, asset, c);
      var vault := if asset == Base then baseVault else quoteVault;
      if amount > funds || vault + amount >= TWO_64 {
        return Err(TokenTransferFailed);
      }
      var account := if trader in balances then balances[trader] else TraderBalance(0, 0);
      match asset {
        case Base =>
          if account.base + amount >= TWO_64 {
            return Err(BalanceOverflow);
          }
          account := account.(base := account.base + amount);
          baseVault := vault + amount;
        case Quote =>
          if account.quote + amount >= TWO_64 {
            return Err(BalanceOverflow);
          }
          account := account.(quote := account.quote + amount);
          quoteVault := vault + amount;
      }
      balances := balances[trader := account];
      r := Ok(());
    }

    method Withdraw(trader: Pubkey, asset: CustodyAsset, amount: U64, c: CustodyAccounts)
      returns (r: Result<(), ProgramError>)
      modifies this
      ensures Did(old(View()), r, Model.Withdraw(p, old(View()), trader, asset, amount, c))
    {
      if trader !in balances {
        return Err(AccountNotInitialized);
      }
      if paused {
        return Err(MarketPaused);
      }
      if amount == 0 {
        return Err(InvalidWithdrawAmount);
      }
      var _ :- WithdrawAccounts(p, trader, asset, c);
      var account := balances[trader];
      match asset {
        case Base =>
          account :- Debited(account, Base, amount);
          if amount > baseVault {
            return Err(TokenTransferFailed);
          }
          baseVault := baseVault - amount;
        case Quote =>
          account :- Debited(account, Quote, amount);
          if amount > quoteVault {
            return Err(TokenTransferFailed);
          }
          quoteVault := quoteVault - amount;
      }
      balances := balances[trader := account];
      r := Ok(());
    }

    static function Debited(account: TraderBalance, asset: CustodyAsset, amount: U64)
      : (r: Result<TraderBalance, ProgramError>)
      ensures r.Ok? <==> amount <= (if asset == Base then account.base else account.quote)
      ensures r.Ok? && asset == Base ==> r.value == account.(base := account.base - amount)
      ensures r.Ok? && asset == Quote ==> r.value == account.(quote := account.quote - amount)
      ensures r.Err? ==> r.error == ProgramError.InsufficientAvailableBalance
    {
      match asset
      case Base =>
        var left :- CheckedSub(account.base, amount, ProgramError.InsufficientAvailableBalance);
        Ok(account.(base := left))
      case Quote =>
        var left :- CheckedSub(account.quote, amount, ProgramError.InsufficientAvailableBalance);
        Ok(account.(quote := left))
    }

    // Debits the buyer's quote, credits its base, then the seller's mirror image.
    static method ApplyBalanceSettlement(buyer: TraderBalance, seller: TraderBalance, base: U64, quote: U64)
      returns (r: Result<(TraderBalance, TraderBalance), ProgramError>)
      ensures r == SettleBalances(buyer, seller, base, quote)
    {
      var buyer', seller' := buyer, seller;
      if quote > buyer'.quote {
        return Err(ProgramError.InsufficientAvailableBalance);
      }
      buyer' := buyer'.(quote := buyer'.quote - quote);
      if buyer'.base + base >= TWO_64 {
        return Err(SettlementBalanceOverflow);
      }
      buyer' := buyer'.(base := buyer'.base + base);
      if base > seller'.base {
        return Err(ProgramError.InsufficientAvailableBalance);
      }
      seller' := seller'.(base := seller'.base - base);
      if seller'.quote + quote >= TWO_64 {
        return Err(SettlementBalanceOverflow);
      }
      seller' := seller'.(quote := seller'.quote + quote);
      r := Ok((buyer', seller'));
    }

    method SettleFill(caller: Pubkey, id: U64, buyer: Pubkey, seller: Pubkey, base: U64, quote: U64)
      returns (r: Result<(), ProgramError>)
      modifies this
      ensures Did(old(View()), r, Model.SettleFill(p, old(View()), caller, id, buyer, seller, base, quote))
    {
      var _ :- SettlementAccounts(p, View(), caller, id, buyer, seller);
      if paused {
        return Err(MarketPaused);
      }
      if base == 0 || quote == 0 {
        return Err(InvalidSettlementAmount);
      }
      var settled :- ApplyBalanceSettlement(balances[buyer], balances[seller], base, quote);
      balances := balances[buyer := settled.0][seller := settled.1];
      receipts := receipts[id := Receipt(id, buyer, seller, ZERO_DIGEST, ZERO_DIGEST, base, quote)];
      r := Ok(());
    }

    method InitializeFillStateIfNeeded(hash: Digest) returns (r: Result<OrderFillState, ProgramError>)
      ensures r == LoadFillState(p, View(), hash)
    {
      var state := if hash in fills then fills[hash] else OrderFillState(DEFAULT_KEY, ZERO_DIGEST, 0, false);
      if state.market == DEFAULT_KEY {
        state := OrderFillState(p.market, hash, 0, false);
      }
      if state.market != p.market || state.hash != hash {
        return Err(OrderFillStateMismatch);
      }
      r := Ok(state);
    }

    static method ApplyFillState(state: OrderFillState, orderQuantity: U64, fill: U64)
      returns (r: Result<OrderFillState, ProgramError>)
      ensures r == AddFill(state, orderQuantity, fill)
    {
      if state.cancelled {
        return Err(OrderCancelled);
      }
      var filled := state.filled + fill;
      if filled >= TWO_64 {
        return Err(SettlementBalanceOverflow);
      }
      if filled > orderQuantity {
        return Err(FillQuantityExceedsSignedOrder);
      }
      r := Ok(state.(filled := filled));
    }

    method SettleSignedFill(
      caller: Pubkey, slot: U64, earlier: seq<PriorInstruction>, id: U64, buyerHash: Digest, sellerHash: Digest,
      buyer: Pubkey, seller: Pubkey, a: SignedFillArgs) returns (r: Result<(), ProgramError>)
      modifies this
      ensures Did(old(View()), r,
                  Model.SettleSignedFill(p, old(View()), caller, slot, earlier, id, buyerHash, sellerHash,
                                         buyer, seller, a))
    {
      var _ :- SettlementAccounts(p, View(), caller, id, buyer, seller);
      var _ :- ValidateSigned(p, View(), slot, earlier, id, buyerHash, sellerHash, buyer, seller, a);
      r := ApplySignedFill(id, buyerHash, sellerHash, buyer, seller, a);
    }

    method ApplySignedFill(
      id: U64, buyerHash: Digest, sellerHash: Digest, buyer: Pubkey, seller: Pubkey, a: SignedFillArgs)
      returns (r: Result<(), ProgramError>)
      requires buyer in balances && seller in balances
      modifies this
      ensures Did(old(View()), r, ApplySigned(p, old(View()), id, buyerHash, sellerHash, buyer, seller, a))
    {
      var buyerState :- InitializeFillStateIfNeeded(buyerHash);
      var sellerState :- InitializeFillStateIfNeeded(sellerHash);
      buyerState :- ApplyFillState(buyerState, a.buyerOrder.quantity, a.fillQuantity);
      sellerState :- ApplyFillState(sellerState, a.sellerOrder.quantity, a.fillQuantity);
      var quote :- QuoteAmount(a.fillPrice, a.fillQuantity);
      var settled :- ApplyBalanceSettlement(balances[buyer], balances[seller], a.fillQuantity, quote);
      fills := fills[buyerHash := buyerState][sellerHash := sellerState];
      balances := balances[buyer := settled.0][seller := settled.1];
      receipts := receipts[id := Receipt(id, buyer, seller, buyerHash, sellerHash, a.fillQuantity, quote)];
      r := Ok(());
    }

    method CancelSignedOrder(trader: Pubkey, hash: Digest, o: SignedOrderPayload) returns (r: Result<(), ProgramError>)
      modifies this
      ensures Did(old(View()), r, Model.CancelSignedOrder(p, old(View()), trader, hash, o))
    {
      if paused {
        return Err(MarketPaused);
      }
      if !ValidPayload(o, p.market, trader) {
        return Err(InvalidSignedOrder);
      }
      if p.sha256(Preimage(o)) != hash {
        return Err(OrderHashMismatch);
      }
      var state :- InitializeFillStateIfNeeded(hash);
      fills := fills[hash := state.(cancelled := true)];
      r := Ok(());
    }
  }
}
