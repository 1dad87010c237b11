/** When the settlement program accepts an instruction, exactly; who may ask for one; and what its errors mean. */
module SettlementExact {
  import opened Types
  import opened Preimages
  import opened SettlementModel
  import opened SettlementTypes
  import opened SettlementLaws
  import opened Ed25519Check

  // Nobody but the market's authority settles.
  lemma SettlerIsAuthority(p: Program, chain: Chain, ix: Instruction)
    requires IsSettlement(ix) && Execute(p, chain, ix).Ok?
    ensures ix.caller == p.authority
  {
    assert SettlementAccounts(p, chain, ix.caller, ix.id, ix.buyer, ix.seller).Ok?;
  }

  /** Over every run: each settlement that went through, signed or not, was the market authority's. */
  lemma {:induction false} OnlyAuthoritySettles(p: Program, instructions: seq<Instruction>, i: nat)
    requires i < |RunChain(p, instructions).log| && IsSettlement(RunChain(p, instructions).log[i])
    ensures RunChain(p, instructions).log[i].caller == p.authority
  {
    if instructions != [] {
      var init, ix := instructions[..|instructions| - 1], instructions[|instructions| - 1];
      if i < |RunChain(p, init).log| {
        OnlyAuthoritySettles(p, init, i);
      } else {
        SettlerIsAuthority(p, RunChain(p, init).chain, ix);
      }
    }
  }

  // Two different accounts, and an id that no receipt has.
  predicate MaySettle(p: Program, chain: Chain, caller: Pubkey, id: U64, buyer: Pubkey, seller: Pubkey) {
    && caller == p.authority && !chain.paused
    && buyer in chain.balances && seller in chain.balances && buyer != seller && id !in chain.receipts
  }

  // Each side has what it gives, and room for what it gets.
  predicate CanTrade(chain: Chain, buyer: Pubkey, seller: Pubkey, base: nat, quote: nat)
    requires buyer in chain.balances && seller in chain.balances
  {
    var b, s := chain.balances[buyer], chain.balances[seller];
    quote <= b.quote && base <= s.base && b.base + base < TWO_64 && s.quote + quote < TWO_64
  }

  predicate IsZero(hash: Digest) {
    |hash| == 32 && forall i | 0 <= i < 32 :: hash[i] == 0
  }

  /** An unsigned settlement goes through exactly for the authority, between two different accounts, under an unused id,
      with the market open, both amounts positive, funds on both sides and room on both. Its receipt names no order. */
  lemma UnsignedExactly(p: Program, chain: Chain, ix: Instruction)
    requires ix.SettleIx?
    ensures Execute(p, chain, ix).Ok? <==>
            && MaySettle(p, chain, ix.caller, ix.id, ix.buyer, ix.seller) && ix.base > 0 && ix.quote > 0
            && CanTrade(chain, ix.buyer, ix.seller, ix.base, ix.quote)
    ensures Execute(p, chain, ix).Ok? ==>
              && Transfers(chain, Execute(p, chain, ix).value, ReceiptOf(ix))
              && IsZero(ReceiptOf(ix).buyerHash) && IsZero(ReceiptOf(ix).sellerHash)
  {
    if Execute(p, chain, ix).Ok? {
      UnsignedTransfers(p, chain, ix);
    }
  }

  // The instruction so many places before the settlement checks exactly this signature.
  predicate ChecksSignature(earlier: seq<PriorInstruction>, back: nat, key: Pubkey, s: Signature, o: SignedOrderPayload)
  {
    && 0 < back <= |earlier|
    && var ix := earlier[|earlier| - back];
       ix.callsEd25519 && ix.accounts == 0 && Entry(ix.data) == Some(Verified(key, s, Preimage(o)))
  }

  // A live order of this trader for this market, with its own digest.
  predicate Stands(p: Program, o: SignedOrderPayload, trader: Pubkey, hash: Digest, slot: U64) {
    && o.market == p.market && o.trader == trader && hash == p.sha256(Preimage(o))
    && o.orderId > 0 && o.price > 0 && o.quantity > 0 && o.nonce > 0 && o.expirySlot > 0 && slot <= o.expirySlot
  }

  // A bid and an ask that both allow the fill.
  predicate OrdersAllow(p: Program, ix: Instruction)
    requires ix.SettleSignedIx?
  {
    var a := ix.args;
    && Stands(p, a.buyerOrder, ix.buyer, ix.buyerHash, ix.slot) && a.buyerOrder.side == Bid
    && Stands(p, a.sellerOrder, ix.seller, ix.sellerHash, ix.slot) && a.sellerOrder.side == Ask
    && a.sellerOrder.price <= a.fillPrice <= a.buyerOrder.price && a.fillPrice > 0
    && 0 < a.fillQuantity <= a.buyerOrder.quantity && a.fillQuantity <= a.sellerOrder.quantity
  }

  // The arguments repeat what the accounts were derived from.
  predicate ArgumentsAgree(ix: Instruction)
    requires ix.SettleSignedIx?
  {
    ix.args.settlementId == ix.id && ix.args.buyerHash == ix.buyerHash && ix.args.sellerHash == ix.sellerHash
  }

  predicate BothSigned(ix: Instruction)
    requires ix.SettleSignedIx?
  {
    && ChecksSignature(ix.earlier, 2, ix.buyer, ix.args.buyerSignature, ix.args.buyerOrder)
    && ChecksSignature(ix.earlier, 1, ix.seller, ix.args.sellerSignature, ix.args.sellerOrder)
  }

  // The order is not cancelled on-chain, and the fill still fits its quantity.
  predicate HasRoom(chain: Chain, hash: Digest, o: SignedOrderPayload, fill: nat) {
    && (hash in chain.fills ==> !chain.fills[hash].cancelled)
    && FilledQuantity(chain, hash) + fill <= o.quantity
  }

  lemma EarlierExactly(earlier: seq<PriorInstruction>, back: nat, key: Pubkey, s: Signature, o: SignedOrderPayload)
    requires back > 0
    ensures VerifyEarlier(earlier, back, key, s, Preimage(o)).Ok? <==> ChecksSignature(earlier, back, key, s, o)
  {
    if back <= |earlier| {
      PassesWhatWasVerified(earlier[|earlier| - back], key, s, Preimage(o));
    }
  }

  lemma RulesExactly(p: Program, ix: Instruction)
    requires ix.SettleSignedIx? && ix.buyer != ix.seller
    ensures var a := ix.args;
            OrdersAllow(p, ix) <==>
              && a.fillPrice > 0 && a.fillQuantity > 0
              && ValidPayload(a.buyerOrder, p.market, ix.buyer) && a.buyerOrder.side == Bid
              && ValidPayload(a.sellerOrder, p.market, ix.seller) && a.sellerOrder.side == Ask
              && ValidateFillRules(a, ix.slot).Ok?
              && p.sha256(Preimage(a.buyerOrder)) == ix.buyerHash
              && p.sha256(Preimage(a.sellerOrder)) == ix.sellerHash
  {
  }

  lemma SignedChecksExactly(p: Program, chain: Chain, ix: Instruction)
    requires ix.SettleSignedIx? && ix.buyer != ix.seller
    ensures ValidateSigned(p, chain, ix.slot, ix.earlier, ix.id, ix.buyerHash, ix.sellerHash,
                           ix.buyer, ix.seller, ix.args).Ok?
            <==> !chain.paused && ArgumentsAgree(ix) && OrdersAllow(p, ix) && BothSigned(ix)
  {
    RulesExactly(p, ix);
    EarlierExactly(ix.earlier, 2, ix.buyer, ix.args.buyerSignature, ix.args.buyerOrder);
    EarlierExactly(ix.earlier, 1, ix.seller, ix.args.sellerSignature, ix.args.sellerOrder);
  }

  lemma SignedMovesExactly(p: Program, chain: Chain, ix: Instruction)
    requires ix.SettleSignedIx? && ix.buyer in chain.balances && ix.seller in chain.balances && ix.buyer != ix.seller
    requires p.market != DEFAULT_KEY && Keyed(p, chain)
    ensures ApplySigned(p, chain, ix.id, ix.buyerHash, ix.sellerHash, ix.buyer, ix.seller, ix.args).Ok?
            <==> MovesAllowed(chain, ix)
  {
    LoadKeepsState(p, chain, ix.buyerHash);
    LoadKeepsState(p, chain, ix.sellerHash);
  }

  // Four things can stop a signed settlement, one after the other.
  lemma SignedInParts(p: Program, chain: Chain, ix: Instruction)
    requires ix.SettleSignedIx?
    ensures Execute(p, chain, ix).Ok? <==>
              && (forall i | 0 <= i < |ix.earlier| :: Succeeds(p, ix.earlier[i]))
              && SettlementAccounts(p, chain, ix.caller, ix.id, ix.buyer, ix.seller).Ok?
              && ValidateSigned(p, chain, ix.slot, ix.earlier, ix.id, ix.buyerHash, ix.sellerHash,
                                ix.buyer, ix.seller, ix.args).Ok?
              && ApplySigned(p, chain, ix.id, ix.buyerHash, ix.sellerHash, ix.buyer, ix.seller, ix.args).Ok?
  {
  }

  lemma AccountsExactly(p: Program, chain: Chain, caller: Pubkey, id: U64, buyer: Pubkey, seller: Pubkey)
    ensures MaySettle(p, chain, caller, id, buyer, seller)
            <==> !chain.paused && SettlementAccounts(p, chain, caller, id, buyer, seller).Ok?
  {
  }

  // Everything a signed settlement needs.
  ghost predicate MaySettleSigned(p: Program, chain: Chain, ix: Instruction)
    requires ix.SettleSignedIx?
  {
    && MaySettle(p, chain, ix.caller, ix.id, ix.buyer, ix.seller)
    && (forall i | 0 <= i < |ix.earlier| :: Succeeds(p, ix.earlier[i]))
    && ArgumentsAgree(ix) && OrdersAllow(p, ix) && BothSigned(ix)
    && MovesAllowed(chain, ix)
  }

  // The orders have room, and the funds are there.
  predicate MovesAllowed(chain: Chain, ix: Instruction)
    requires ix.SettleSignedIx? && ix.buyer in chain.balances && ix.seller in chain.balances
  {
    var a := ix.args;
    && HasRoom(chain, ix.buyerHash, a.buyerOrder, a.fillQuantity)
    && HasRoom(chain, ix.sellerHash, a.sellerOrder, a.fillQuantity)
    && a.fillPrice * a.fillQuantity < TWO_64
    && CanTrade(chain, ix.buyer, ix.seller, a.fillQuantity, a.fillPrice * a.fillQuantity)
  }

  lemma SignedOnlyIf(p: Program, chain: Chain, ix: Instruction)
    requires ix.SettleSignedIx? && p.market != DEFAULT_KEY && Keyed(p, chain) && Execute(p, chain, ix).Ok?
    ensures MaySettleSigned(p, chain, ix)
  {
    SignedInParts(p, chain, ix);
    SignedChecksExactly(p, chain, ix);
    SignedMovesExactly(p, chain, ix);
  }

  lemma SignedIf(p: Program, chain: Chain, ix: Instruction)
    requires ix.SettleSignedIx? && p.market != DEFAULT_KEY && Keyed(p, chain) && MaySettleSigned(p, chain, ix)
    ensures Execute(p, chain, ix).Ok?
  {
    SignedChecksExactly(p, chain, ix);
    SignedMovesExactly(p, chain, ix);
    SignedInParts(p, chain, ix);
  }

  /** A signed settlement goes through exactly when the authority asks for it between two different accounts under an
      unused id in an open market, no earlier instruction failed, the two before it check the two signatures, a live bid
      and a live ask of the two traders allow the fill, neither is cancelled or used up, and the funds are there. */
  lemma SignedExactly(p: Program, chain: Chain, ix: Instruction)
    requires ix.SettleSignedIx? && p.market != DEFAULT_KEY && Keyed(p, chain)
    ensures Execute(p, chain, ix).Ok? <==> MaySettleSigned(p, chain, ix)
  {
    if Execute(p, chain, ix).Ok? {
      SignedOnlyIf(p, chain, ix);
    } else if MaySettleSigned(p, chain, ix) {
      SignedIf(p, chain, ix);
    }
  }

  /** A cancel goes through exactly when the market is open and the trader names an order of its own by its digest. */
  lemma CancelExactly(p: Program, chain: Chain, ix: Instruction)
    requires ix.CancelIx? && p.market != DEFAULT_KEY && Keyed(p, chain)
    ensures Execute(p, chain, ix).Ok? <==> !chain.paused && Stands(p, ix.order, ix.trader, ix.hash, 0)
  {
    LoadKeepsState(p, chain, ix.hash);
  }

  /** On every reachable chain: a deposit goes through exactly when amount, funds, accounts and vault allow it, and a
      withdrawal exactly when amount, accounts and the trader's own balance do. */
  lemma {:induction false} CustodyExactly(p: Program, instructions: seq<Instruction>, ix: Instruction)
    requires p.market != DEFAULT_KEY && (ix.DepositIx? || ix.WithdrawIx?)
    ensures var chain := RunChain(p, instructions).chain;
            Execute(p, chain, ix).Ok? <==>
              && RightAccounts(p, ix.trader, ix.asset, ix.accounts) && ix.amount > 0
              && (ix.DepositIx? ==> ix.amount <= ix.funds && VaultOf(chain, ix.asset) + ix.amount < TWO_64)
              && (ix.WithdrawIx? ==>
                    ix.accounts.authority == p.vaultAuthority && ix.amount <= Held(chain, ix.trader, ix.asset))
  {
    var chain := RunChain(p, instructions).chain;
    ChainIsSound(p, instructions);
    MarketStaysOpen(p, instructions);
    match ix
    case DepositIx(trader, asset, amount, funds, c) => DepositsAreTaken(p, chain, trader, asset, amount, funds, c);
    case WithdrawIx(trader, asset, amount, c) => WithdrawalsArePaid(p, chain, trader, asset, amount, c);
  }

  /** No instruction closes the market. */
  lemma {:induction false} MarketStaysOpen(p: Program, instructions: seq<Instruction>)
    ensures !RunChain(p, instructions).chain.paused
  {
    if instructions != [] {
      var init, ix := instructions[..|instructions| - 1], instructions[|instructions| - 1];
      MarketStaysOpen(p, init);
      if Execute(p, RunChain(p, init).chain, ix).Ok? {
        PauseStays(p, RunChain(p, init).chain, ix);
      }
    }
  }

  lemma PauseStays(p: Program, chain: Chain, ix: Instruction)
    requires Execute(p, chain, ix).Ok?
    ensures Execute(p, chain, ix).value.paused == chain.paused
  {
  }

  // What an error says about the instruction that got it.
  predicate Explains(p: Program, chain: Chain, ix: Instruction, e: ProgramError) {
    match e
    case UnauthorizedSettlementAuthority => IsSettlement(ix) && ix.caller != p.authority
    case MarketPaused => chain.paused
    case InvalidSettlementAmount =>
      if ix.SettleIx? then ix.base == 0 || ix.quote == 0
      else ix.SettleSignedIx? && (ix.args.fillPrice == 0 || ix.args.fillQuantity == 0)
    case InvalidDepositAmount => ix.DepositIx? && ix.amount == 0
    case InvalidDepositMint => ix.DepositIx? && ix.accounts.mint != p.Mint(ix.asset)
    case InvalidDepositSource =>
      ix.DepositIx? && (ix.accounts.wallet.mint != p.Mint(ix.asset) || ix.accounts.wallet.owner != ix.trader)
    case InvalidWithdrawAmount => ix.WithdrawIx? && ix.amount == 0
    case InvalidWithdrawMint => ix.WithdrawIx? && ix.accounts.mint != p.Mint(ix.asset)
    case InvalidWithdrawDestination =>
      ix.WithdrawIx? && (ix.accounts.wallet.mint != p.Mint(ix.asset) || ix.accounts.wallet.owner != ix.trader)
    case InvalidMarketVault =>
      && (ix.DepositIx? || ix.WithdrawIx?)
      && (ix.accounts.vault.key != p.Vault(ix.asset) || ix.accounts.vault.mint != p.Mint(ix.asset))
    case InvalidMarketVaultAuthority =>
      || (ix.DepositIx? && ix.accounts.vault.owner != p.vaultAuthority)
      || (ix.WithdrawIx? && (ix.accounts.vault.owner != p.vaultAuthority || ix.accounts.authority != p.vaultAuthority))
    case InvalidSignedOrder =>
      || (ix.CancelIx? && !ValidPayload(ix.order, p.market, ix.trader))
      || (ix.SettleSignedIx? && (!ArgumentsAgree(ix) || !PayloadsFit(p, ix)))
    case SignedOrderExpired =>
      ix.SettleSignedIx? && (ix.slot > ix.args.buyerOrder.expirySlot || ix.slot > ix.args.sellerOrder.expirySlot)
    case SignedOrderPricesDoNotCross => ix.SettleSignedIx? && ix.args.buyerOrder.price < ix.args.sellerOrder.price
    case FillPriceOutsideSignedOrder =>
      ix.SettleSignedIx? && !(ix.args.sellerOrder.price <= ix.args.fillPrice <= ix.args.buyerOrder.price)
    case FillQuantityExceedsSignedOrder =>
      && ix.SettleSignedIx?
      && (|| FilledQuantity(chain, ix.buyerHash) + ix.args.fillQuantity > ix.args.buyerOrder.quantity
          || FilledQuantity(chain, ix.sellerHash) + ix.args.fillQuantity > ix.args.sellerOrder.quantity)
    case OrderHashMismatch =>
      || (ix.CancelIx? && p.sha256(Preimage(ix.order)) != ix.hash)
      || (&& ix.SettleSignedIx?
          && (|| p.sha256(Preimage(ix.args.buyerOrder)) != ix.buyerHash
              || p.sha256(Preimage(ix.args.sellerOrder)) != ix.sellerHash))
    case OrderCancelled => ix.SettleSignedIx? && (IsCancelled(chain, ix.buyerHash) || IsCancelled(chain, ix.sellerHash))
    case OrderFillStateMismatch => false
    case InvalidEd25519Instruction | NoEarlierInstruction => ix.SettleSignedIx? && !BothSigned(ix)
    case EarlierInstructionFailed =>
      ix.SettleSignedIx? && exists i | 0 <= i < |ix.earlier| :: !Succeeds(p, ix.earlier[i])
    case InsufficientAvailableBalance => !HasFunds(chain, ix)
    case SettlementBalanceOverflow => IsSettlement(ix) && !HasRange(chain, ix)
    case BalanceOverflow => ix.DepositIx? && Held(chain, ix.trader, ix.asset) + ix.amount >= TWO_64
    case TokenTransferFailed =>
      || (ix.DepositIx? && (ix.amount > ix.funds || VaultOf(chain, ix.asset) + ix.amount >= TWO_64))
      || (ix.WithdrawIx? && ix.amount > VaultOf(chain, ix.asset))
    case AccountNotInitialized =>
      || (ix.WithdrawIx? && ix.trader !in chain.balances)
      || (IsSettlement(ix) && !(ix.buyer in chain.balances && ix.seller in chain.balances))
    case AccountAlreadyInUse => IsSettlement(ix) && ix.id in chain.receipts
    case DuplicateMutableAccount => IsSettlement(ix) && ix.buyer == ix.seller
  }

  predicate PayloadsFit(p: Program, ix: Instruction)
    requires ix.SettleSignedIx?
  {
    && ValidPayload(ix.args.buyerOrder, p.market, ix.buyer) && ix.args.buyerOrder.side == Bid
    && ValidPayload(ix.args.sellerOrder, p.market, ix.seller) && ix.args.sellerOrder.side == Ask
    && ix.args.buyerOrder.trader != ix.args.sellerOrder.trader
  }

  function Held(chain: Chain, trader: Pubkey, asset: CustodyAsset): nat {
    if asset == Base then BalanceOr(chain, trader).base else BalanceOr(chain, trader).quote
  }

  function VaultOf(chain: Chain, asset: CustodyAsset): nat {
    if asset == Base then chain.baseVault else chain.quoteVault
  }

  // What a settlement moves.
  function BaseOf(ix: Instruction): nat
    requires IsSettlement(ix)
  {
    if ix.SettleIx? then ix.base else ix.args.fillQuantity
  }

  function QuoteOf(ix: Instruction): nat
    requires IsSettlement(ix)
  {
    if ix.SettleIx? then ix.quote else ix.args.fillPrice * ix.args.fillQuantity
  }

  predicate HasFunds(chain: Chain, ix: Instruction) {
    && (ix.WithdrawIx? ==> ix.amount <= Held(chain, ix.trader, ix.asset))
    && (IsSettlement(ix) ==>
          QuoteOf(ix) <= Held(chain, ix.buyer, Quote) && BaseOf(ix) <= Held(chain, ix.seller, Base))
  }

  predicate HasRange(chain: Chain, ix: Instruction)
    requires IsSettlement(ix)
  {
    && QuoteOf(ix) < TWO_64
    && Held(chain, ix.buyer, Base) + BaseOf(ix) < TWO_64 && Held(chain, ix.seller, Quote) + QuoteOf(ix) < TWO_64
    && (ix.SettleSignedIx? ==>
          && FilledQuantity(chain, ix.buyerHash) + BaseOf(ix) < TWO_64
          && FilledQuantity(chain, ix.sellerHash) + BaseOf(ix) < TWO_64)
  }

  lemma AccountsErrorIsTrue(p: Program, chain: Chain, ix: Instruction)
    requires IsSettlement(ix) && SettlementAccounts(p, chain, ix.caller, ix.id, ix.buyer, ix.seller).Err?
    ensures Explains(p, chain, ix, SettlementAccounts(p, chain, ix.caller, ix.id, ix.buyer, ix.seller).error)
  {
  }

  lemma RulesErrorIs(a: SignedFillArgs, slot: U64)
    requires ValidateFillRules(a, slot).Err?
    ensures var e := ValidateFillRules(a, slot).error;
            || (e == InvalidSignedOrder && a.buyerOrder.trader == a.sellerOrder.trader)
            || (e == SignedOrderExpired && (slot > a.buyerOrder.expirySlot || slot > a.sellerOrder.expirySlot))
            || (e == SignedOrderPricesDoNotCross && a.buyerOrder.price < a.sellerOrder.price)
            || (e == FillPriceOutsideSignedOrder && !(a.sellerOrder.price <= a.fillPrice <= a.buyerOrder.price))
            || (e == FillQuantityExceedsSignedOrder
                && (a.fillQuantity > a.buyerOrder.quantity || a.fillQuantity > a.sellerOrder.quantity))
  {
  }

  lemma RulesErrorIsTrue(p: Program, chain: Chain, ix: Instruction)
    requires ix.SettleSignedIx? && ValidateFillRules(ix.args, ix.slot).Err?
    ensures Explains(p, chain, ix, ValidateFillRules(ix.args, ix.slot).error)
  {
    RulesErrorIs(ix.args, ix.slot);
  }

  lemma SignaturesErrorIsTrue(p: Program, chain: Chain, ix: Instruction)
    requires ix.SettleSignedIx? && VerifySignatures(ix.earlier, ix.buyer, ix.seller, ix.args).Err?
    ensures Explains(p, chain, ix, VerifySignatures(ix.earlier, ix.buyer, ix.seller, ix.args).error)
  {
    EarlierExactly(ix.earlier, 2, ix.buyer, ix.args.buyerSignature, ix.args.buyerOrder);
    EarlierExactly(ix.earlier, 1, ix.seller, ix.args.sellerSignature, ix.args.sellerOrder);
  }

  lemma ChecksErrorIs(p: Program, chain: Chain, ix: Instruction)
    requires ix.SettleSignedIx?
    ensures var r := ValidateSigned(p, chain, ix.slot, ix.earlier, ix.id, ix.buyerHash, ix.sellerHash,
                                    ix.buyer, ix.seller, ix.args);
            r.Err? ==>
              || (r.error == MarketPaused && chain.paused)
              || (r.error == InvalidSettlementAmount && (ix.args.fillPrice == 0 || ix.args.fillQuantity == 0))
              || (r.error == InvalidSignedOrder && !(ArgumentsAgree(ix) && PayloadsFit(p, ix)))
              || (r.error == OrderHashMismatch && (|| p.sha256(Preimage(ix.args.buyerOrder)) != ix.buyerHash
                                                   || p.sha256(Preimage(ix.args.sellerOrder)) != ix.sellerHash))
              || r == ValidateFillRules(ix.args, ix.slot)
              || r == VerifySignatures(ix.earlier, ix.buyer, ix.seller, ix.args)
  {
  }

  lemma ChecksErrorIsTrue(p: Program, chain: Chain, ix: Instruction)
    requires ix.SettleSignedIx?
    ensures var r := ValidateSigned(p, chain, ix.slot, ix.earlier, ix.id, ix.buyerHash, ix.sellerHash,
                                    ix.buyer, ix.seller, ix.args);
            r.Err? ==> Explains(p, chain, ix, r.error)
  {
    ChecksErrorIs(p, chain, ix);
    if ValidateFillRules(ix.args, ix.slot).Err? {
      RulesErrorIsTrue(p, chain, ix);
    }
    if VerifySignatures(ix.earlier, ix.buyer, ix.seller, ix.args).Err? {
      SignaturesErrorIsTrue(p, chain, ix);
    }
  }

  lemma MovesErrorIs(p: Program, chain: Chain, ix: Instruction)
    requires ix.SettleSignedIx? && ix.buyer in chain.balances && ix.seller in chain.balances
    requires p.market != DEFAULT_KEY && Keyed(p, chain)
    ensures var r := ApplySigned(p, chain, ix.id, ix.buyerHash, ix.sellerHash, ix.buyer, ix.seller, ix.args);
            var b, s := FilledQuantity(chain, ix.buyerHash), FilledQuantity(chain, ix.sellerHash);
            var q := ix.args.fillQuantity;
            r.Err? ==>
              || (r.error == OrderCancelled && (IsCancelled(chain, ix.buyerHash) || IsCancelled(chain, ix.sellerHash)))
              || (r.error == FillQuantityExceedsSignedOrder
                  && (b + q > ix.args.buyerOrder.quantity || s + q > ix.args.sellerOrder.quantity))
              || (r.error == SettlementBalanceOverflow && !HasRange(chain, ix))
              || (r.error == ProgramError.InsufficientAvailableBalance && !HasFunds(chain, ix))
  {
    LoadKeepsState(p, chain, ix.buyerHash);
    LoadKeepsState(p, chain, ix.sellerHash);
  }

  lemma MovesErrorIsTrue(p: Program, chain: Chain, ix: Instruction)
    requires ix.SettleSignedIx? && ix.buyer in chain.balances && ix.seller in chain.balances
    requires p.market != DEFAULT_KEY && Keyed(p, chain)
    ensures var r := ApplySigned(p, chain, ix.id, ix.buyerHash, ix.sellerHash, ix.buyer, ix.seller, ix.args);
            r.Err? ==> Explains(p, chain, ix, r.error)
  {
    MovesErrorIs(p, chain, ix);
  }

  lemma SignedErrorIs(p: Program, chain: Chain, ix: Instruction)
    requires ix.SettleSignedIx? && Execute(p, chain, ix).Err?
    ensures var e := Execute(p, chain, ix).error;
            var accounts := SettlementAccounts(p, chain, ix.caller, ix.id, ix.buyer, ix.seller);
            var checks := ValidateSigned(p, chain, ix.slot, ix.earlier, ix.id, ix.buyerHash, ix.sellerHash,
                                         ix.buyer, ix.seller, ix.args);
            || (e == EarlierInstructionFailed && exists i | 0 <= i < |ix.earlier| :: !Succeeds(p, ix.earlier[i]))
            || accounts == Err(e) || checks == Err(e)
            || (accounts.Ok?
                && ApplySigned(p, chain, ix.id, ix.buyerHash, ix.sellerHash, ix.buyer, ix.seller, ix.args) == Err(e))
  {
  }

  lemma SignedErrorIsTrue(p: Program, chain: Chain, ix: Instruction)
    requires p.market != DEFAULT_KEY && Keyed(p, chain) && ix.SettleSignedIx? && Execute(p, chain, ix).Err?
    ensures Explains(p, chain, ix, Execute(p, chain, ix).error)
  {
    SignedErrorIs(p, chain, ix);
    ChecksErrorIsTrue(p, chain, ix);
    if SettlementAccounts(p, chain, ix.caller, ix.id, ix.buyer, ix.seller).Err? {
      AccountsErrorIsTrue(p, chain, ix);
    } else {
      MovesErrorIsTrue(p, chain, ix);
    }
  }

  lemma UnsignedErrorIsTrue(p: Program, chain: Chain, ix: Instruction)
    requires ix.SettleIx? && Execute(p, chain, ix).Err?
    ensures Explains(p, chain, ix, Execute(p, chain, ix).error)
  {
  }

  lemma DepositErrorIsTrue(p: Program, chain: Chain, ix: Instruction)
    requires ix.DepositIx? && Execute(p, chain, ix).Err?
    ensures Explains(p, chain, ix, Execute(p, chain, ix).error)
  {
  }

  lemma WithdrawErrorIsTrue(p: Program, chain: Chain, ix: Instruction)
    requires ix.WithdrawIx? && Execute(p, chain, ix).Err?
    ensures Explains(p, chain, ix, Execute(p, chain, ix).error)
  {
  }

  lemma CancelErrorIsTrue(p: Program, chain: Chain, ix: Instruction)
    requires p.market != DEFAULT_KEY && Keyed(p, chain) && ix.CancelIx? && Execute(p, chain, ix).Err?
    ensures Explains(p, chain, ix, Execute(p, chain, ix).error)
  {
    LoadKeepsState(p, chain, ix.hash);
  }

  /** No error lies: what it complains about is really wrong with the instruction. */
  lemma ErrorsAreTrue(p: Program, chain: Chain, ix: Instruction)
    requires p.market != DEFAULT_KEY && Keyed(p, chain) && Execute(p, chain, ix).Err?
    ensures Explains(p, chain, ix, Execute(p, chain, ix).error)
  {
    match ix
    case SettleSignedIx(_, _, _, _, _, _, _, _, _) => SignedErrorIsTrue(p, chain, ix);
    case SettleIx(_, _, _, _, _, _) => UnsignedErrorIsTrue(p, chain, ix);
    case CancelIx(_, _, _) => CancelErrorIsTrue(p, chain, ix);
    case DepositIx(_, _, _, _, _) => DepositErrorIsTrue(p, chain, ix);
    case WithdrawIx(_, _, _, _) => WithdrawErrorIsTrue(p, chain, ix);
  }
}
