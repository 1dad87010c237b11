/** The on-chain ledger over every run: balances, vaults, receipts and order fill states. */
module SettlementLaws {
  import opened Types
  import opened Preimages
  import opened SettlementModel
  import opened SettlementTypes
  import opened Sums

  function BaseHeld(): TraderBalance -> nat {
    (b: TraderBalance) => b.base
  }

  function QuoteHeld(): TraderBalance -> nat {
    (b: TraderBalance) => b.quote
  }

  // What the receipts say a trader received and gave, and how much of an order they filled.
  function BaseBought(t: Pubkey): Receipt -> nat {
    (r: Receipt) => if r.buyer == t then r.base else 0
  }

  function BaseSold(t: Pubkey): Receipt -> nat {
    (r: Receipt) => if r.seller == t then r.base else 0
  }

  function QuotePaid(t: Pubkey): Receipt -> nat {
    (r: Receipt) => if r.buyer == t then r.quote else 0
  }

  function QuoteEarned(t: Pubkey): Receipt -> nat {
    (r: Receipt) => if r.seller == t then r.quote else 0
  }

  function FilledBy(hash: Digest): Receipt -> nat {
    (r: Receipt) => (if r.buyerHash == hash then r.base else 0) + (if r.sellerHash == hash then r.base else 0)
  }

  function DepositedBy(t: Pubkey, asset: CustodyAsset): Instruction -> nat {
    (ix: Instruction) => if ix.DepositIx? && ix.trader == t && ix.asset == asset then ix.amount else 0
  }

  function WithdrawnBy(t: Pubkey, asset: CustodyAsset): Instruction -> nat {
    (ix: Instruction) => if ix.WithdrawIx? && ix.trader == t && ix.asset == asset then ix.amount else 0
  }

  function Settles(id: U64): Instruction -> nat {
    (ix: Instruction) => if (ix.SettleIx? || ix.SettleSignedIx?) && ix.id == id then 1 else 0
  }

  // Every token in a vault belongs to exactly one trader's balance.
  ghost predicate Backed(chain: Chain) {
    && SumMap(BaseHeld(), chain.balances) == chain.baseVault
    && SumMap(QuoteHeld(), chain.balances) == chain.quoteVault
  }

  ghost predicate Keyed(p: Program, chain: Chain) {
    && (forall h | h in chain.fills :: chain.fills[h].market == p.market && chain.fills[h].hash == h)
    && (forall id | id in chain.receipts :: chain.receipts[id].id == id)
  }

  // A trader holds its deposits less its withdrawals, plus and minus the receipts that name it.
  ghost predicate HoldsHistory(h: History, t: Pubkey) {
    var b, receipts := BalanceOr(h.chain, t), h.chain.receipts;
    && b.base + SumOf(WithdrawnBy(t, Base), h.log) + SumMap(BaseSold(t), receipts)
       == SumOf(DepositedBy(t, Base), h.log) + SumMap(BaseBought(t), receipts)
    && b.quote + SumOf(WithdrawnBy(t, Quote), h.log) + SumMap(QuotePaid(t), receipts)
       == SumOf(DepositedBy(t, Quote), h.log) + SumMap(QuoteEarned(t), receipts)
  }

  function FilledQuantity(chain: Chain, hash: Digest): nat {
    if hash in chain.fills then chain.fills[hash].filled else 0
  }

  // What an order's account counts is what the receipts naming the order add up to.
  ghost predicate CountsReceipts(chain: Chain, hash: Digest) {
    FilledQuantity(chain, hash) == SumMap(FilledBy(hash), chain.receipts)
  }

  ghost predicate WithinSigned(p: Program, chain: Chain, o: SignedOrderPayload) {
    FilledQuantity(chain, p.sha256(Preimage(o))) <= o.quantity
  }

  // An idealised hash: different preimages have different digests.
  ghost predicate CollisionFree(p: Program) {
    forall x, y :: p.sha256(x) == p.sha256(y) ==> x == y
  }

  // What both settlement instructions do to balances and receipts.
  ghost predicate Transfers(chain: Chain, chain': Chain, r: Receipt) {
    && r.buyer != r.seller
    && r.buyer in chain.balances && r.seller in chain.balances
    && r.id !in chain.receipts
    && chain'.receipts == chain.receipts[r.id := r]
    && chain'.baseVault == chain.baseVault && chain'.quoteVault == chain.quoteVault
    && var b, s := chain.balances[r.buyer], chain.balances[r.seller];
       && r.quote <= b.quote && r.base <= s.base && b.base + r.base < TWO_64 && s.quote + r.quote < TWO_64
       && chain'.balances == chain.balances[r.buyer := TraderBalance(b.base + r.base, b.quote - r.quote)]
                                           [r.seller := TraderBalance(s.base - r.base, s.quote + r.quote)]
  }

  predicate IsSettlement(ix: Instruction) {
    ix.SettleIx? || ix.SettleSignedIx?
  }

  // The receipt a settlement writes.
  function ReceiptOf(ix: Instruction): Receipt
    requires IsSettlement(ix)
    requires ix.SettleSignedIx? ==> 0 <= ix.args.fillPrice * ix.args.fillQuantity < TWO_64
  {
    match ix
    case SettleIx(_, id, buyer, seller, base, quote) =>
      Receipt(id, buyer, seller, ZERO_DIGEST, ZERO_DIGEST, base, quote)
    case SettleSignedIx(_, _, _, id, bh, sh, buyer, seller, a) =>
      Receipt(id, buyer, seller, bh, sh, a.fillQuantity, a.fillPrice * a.fillQuantity)
  }

  lemma MoveTransfers(chain: Chain, r: Receipt)
    requires r.buyer != r.seller && r.buyer in chain.balances && r.seller in chain.balances && r.id !in chain.receipts
    requires MoveAndReceipt(chain, r).Ok?
    ensures Transfers(chain, MoveAndReceipt(chain, r).value, r)
  {
  }

  // A signed settlement names two orders of opposite sides and different traders by their digests.
  lemma SignedSettlement(p: Program, chain: Chain, ix: Instruction)
    requires ix.SettleSignedIx? && Execute(p, chain, ix).Ok?
    ensures p.sha256(Preimage(ix.args.buyerOrder)) == ix.buyerHash
    ensures p.sha256(Preimage(ix.args.sellerOrder)) == ix.sellerHash
    ensures ix.args.buyerOrder.side != ix.args.sellerOrder.side
    ensures ix.buyer in chain.balances && ix.seller in chain.balances && ix.buyer != ix.seller
    ensures ix.id !in chain.receipts
    ensures Execute(p, chain, ix)
            == ApplySigned(p, chain, ix.id, ix.buyerHash, ix.sellerHash, ix.buyer, ix.seller, ix.args)
  {
    assert SettlementAccounts(p, chain, ix.caller, ix.id, ix.buyer, ix.seller).Ok?;
    assert ValidateSigned(p, chain, ix.slot, ix.earlier, ix.id, ix.buyerHash, ix.sellerHash,
                          ix.buyer, ix.seller, ix.args).Ok?;
  }

  // What it moves: two balances, a receipt, and two fill states.
  lemma AppliedTransfers(
    p: Program, chain: Chain, id: U64, bh: Digest, sh: Digest, buyer: Pubkey, seller: Pubkey, a: SignedFillArgs)
    requires buyer in chain.balances && seller in chain.balances && buyer != seller && id !in chain.receipts
    requires ApplySigned(p, chain, id, bh, sh, buyer, seller, a).Ok?
    ensures 0 <= a.fillPrice * a.fillQuantity < TWO_64
    ensures Transfers(chain, ApplySigned(p, chain, id, bh, sh, buyer, seller, a).value,
                      Receipt(id, buyer, seller, bh, sh, a.fillQuantity, a.fillPrice * a.fillQuantity))
  {
    MoveTransfers(chain.(fills := ApplySigned(p, chain, id, bh, sh, buyer, seller, a).value.fills),
                  Receipt(id, buyer, seller, bh, sh, a.fillQuantity, a.fillPrice * a.fillQuantity));
  }

  lemma AppliedFills(
    p: Program, chain: Chain, id: U64, bh: Digest, sh: Digest, buyer: Pubkey, seller: Pubkey, a: SignedFillArgs)
    requires buyer in chain.balances && seller in chain.balances
    requires ApplySigned(p, chain, id, bh, sh, buyer, seller, a).Ok?
    ensures FillsAdded(p, chain, ApplySigned(p, chain, id, bh, sh, buyer, seller, a).value, bh, sh, a)
  {
  }

  lemma UnsignedTransfers(p: Program, chain: Chain, ix: Instruction)
    requires ix.SettleIx? && Execute(p, chain, ix).Ok?
    ensures Transfers(chain, Execute(p, chain, ix).value, ReceiptOf(ix))
    ensures Execute(p, chain, ix).value.fills == chain.fills
  {
    MoveTransfers(chain, ReceiptOf(ix));
  }

  // Two different balances move, one receipt appears; only a signed settlement touches fill states.
  lemma SettlementTransfers(p: Program, chain: Chain, ix: Instruction)
    requires IsSettlement(ix) && Execute(p, chain, ix).Ok?
    ensures ix.SettleSignedIx? ==> 0 <= ix.args.fillPrice * ix.args.fillQuantity < TWO_64
    ensures Transfers(chain, Execute(p, chain, ix).value, ReceiptOf(ix))
    ensures ix.SettleIx? ==> Execute(p, chain, ix).value.fills == chain.fills
  {
    if ix.SettleIx? {
      UnsignedTransfers(p, chain, ix);
    } else {
      SignedSettlement(p, chain, ix);
      AppliedTransfers(p, chain, ix.id, ix.buyerHash, ix.sellerHash, ix.buyer, ix.seller, ix.args);
    }
  }

  // Deposits, withdrawals and cancels leave receipts alone; only a cancel touches a fill state.
  lemma OtherInstruction(p: Program, chain: Chain, ix: Instruction)
    requires p.market != DEFAULT_KEY && Keyed(p, chain)
    requires !IsSettlement(ix) && Execute(p, chain, ix).Ok?
    ensures var chain' := Execute(p, chain, ix).value;
            && chain'.receipts == chain.receipts
            && (ix.CancelIx? ==>
                  var state := OrderFillState(p.market, ix.hash, FilledQuantity(chain, ix.hash), true);
                  chain'.fills == chain.fills[ix.hash := state])
            && (!ix.CancelIx? ==> chain'.fills == chain.fills)
  {
    if ix.CancelIx? {
      LoadKeepsState(p, chain, ix.hash);
    }
  }

  ghost predicate FillsAdded(p: Program, chain: Chain, chain': Chain, bh: Digest, sh: Digest, a: SignedFillArgs) {
    && LoadFillState(p, chain, bh).Ok? && LoadFillState(p, chain, sh).Ok?
    && var b, s := LoadFillState(p, chain, bh).value, LoadFillState(p, chain, sh).value;
       && !b.cancelled && !s.cancelled
       && b.filled + a.fillQuantity <= a.buyerOrder.quantity
       && s.filled + a.fillQuantity <= a.sellerOrder.quantity
       && chain'.fills == chain.fills[bh := b.(filled := b.filled + a.fillQuantity)]
                                     [sh := s.(filled := s.filled + a.fillQuantity)]
  }

  /** The init-if-needed path never resets an existing account. */
  lemma LoadKeepsState(p: Program, chain: Chain, hash: Digest)
    requires p.market != DEFAULT_KEY && Keyed(p, chain)
    ensures LoadFillState(p, chain, hash) ==
            Ok(if hash in chain.fills then chain.fills[hash] else OrderFillState(p.market, hash, 0, false))
  {
  }

  // Both orders get the fill, within their signed quantities.
  ghost predicate BothFilled(p: Program, chain: Chain, chain': Chain, bh: Digest, sh: Digest, a: SignedFillArgs) {
    var fills := chain.fills;
    && (bh in fills ==> !fills[bh].cancelled) && (sh in fills ==> !fills[sh].cancelled)
    && var b, s := FilledQuantity(chain, bh) + a.fillQuantity, FilledQuantity(chain, sh) + a.fillQuantity;
       && b <= a.buyerOrder.quantity && s <= a.sellerOrder.quantity
       && chain'.fills == fills[bh := OrderFillState(p.market, bh, b, false)]
                               [sh := OrderFillState(p.market, sh, s, false)]
  }

  lemma AddedMeansFilled(p: Program, chain: Chain, chain': Chain, bh: Digest, sh: Digest, a: SignedFillArgs)
    requires p.market != DEFAULT_KEY && Keyed(p, chain)
    requires FillsAdded(p, chain, chain', bh, sh, a)
    ensures BothFilled(p, chain, chain', bh, sh, a)
  {
    LoadKeepsState(p, chain, bh);
    LoadKeepsState(p, chain, sh);
  }

  // The fill states after a successful instruction.
  lemma FillsAfter(p: Program, chain: Chain, ix: Instruction)
    requires p.market != DEFAULT_KEY && Keyed(p, chain)
    requires Execute(p, chain, ix).Ok?
    ensures var chain' := Execute(p, chain, ix).value;
            match ix
            case SettleSignedIx(_, _, _, _, bh, sh, _, _, a) => BothFilled(p, chain, chain', bh, sh, a)
            case CancelIx(_, h, _) =>
              chain'.fills == chain.fills[h := OrderFillState(p.market, h, FilledQuantity(chain, h), true)]
            case _ => chain'.fills == chain.fills
  {
    if ix.SettleSignedIx? {
      SignedSettlement(p, chain, ix);
      AppliedFills(p, chain, ix.id, ix.buyerHash, ix.sellerHash, ix.buyer, ix.seller, ix.args);
      AddedMeansFilled(p, chain, Execute(p, chain, ix).value, ix.buyerHash, ix.sellerHash, ix.args);
    } else if ix.SettleIx? {
      UnsignedTransfers(p, chain, ix);
    } else {
      OtherInstruction(p, chain, ix);
    }
  }

  lemma ExecuteKeepsKeyed(p: Program, chain: Chain, ix: Instruction)
    requires p.market != DEFAULT_KEY && Keyed(p, chain)
    requires Execute(p, chain, ix).Ok?
    ensures Keyed(p, Execute(p, chain, ix).value)
  {
    FillsAfter(p, chain, ix);
    if IsSettlement(ix) {
      SettlementTransfers(p, chain, ix);
    } else {
      OtherInstruction(p, chain, ix);
    }
  }

  /** Cancellation is permanent, and a cancelled order's fill state is frozen. */
  lemma CancelledIsFrozen(p: Program, chain: Chain, ix: Instruction, hash: Digest)
    requires p.market != DEFAULT_KEY && Keyed(p, chain)
    requires Execute(p, chain, ix).Ok?
    requires hash in chain.fills && chain.fills[hash].cancelled
    ensures var chain' := Execute(p, chain, ix).value; hash in chain'.fills && chain'.fills[hash] == chain.fills[hash]
  {
    FillsAfter(p, chain, ix);
  }

  lemma TransferKeepsBacked(chain: Chain, chain': Chain, r: Receipt)
    requires Backed(chain) && Transfers(chain, chain', r)
    ensures Backed(chain')
  {
    var b, s := chain.balances[r.buyer], chain.balances[r.seller];
    var b' := TraderBalance(b.base + r.base, b.quote - r.quote);
    var s' := TraderBalance(s.base - r.base, s.quote + r.quote);
    SumMapUpdate(BaseHeld(), chain.balances, r.buyer, b');
    SumMapUpdate(BaseHeld(), chain.balances[r.buyer := b'], r.seller, s');
    SumMapUpdate(QuoteHeld(), chain.balances, r.buyer, b');
    SumMapUpdate(QuoteHeld(), chain.balances[r.buyer := b'], r.seller, s');
  }

  lemma MoveKeepsBacked(chain: Chain, chain': Chain, t: Pubkey, b: TraderBalance)
    requires Backed(chain)
    requires chain'.balances == chain.balances[t := b]
    requires chain'.baseVault - chain.baseVault == b.base - BalanceOr(chain, t).base
    requires chain'.quoteVault - chain.quoteVault == b.quote - BalanceOr(chain, t).quote
    ensures Backed(chain')
  {
    SumMapUpdate(BaseHeld(), chain.balances, t, b);
    SumMapUpdate(QuoteHeld(), chain.balances, t, b);
  }

  lemma ExecuteKeepsBacked(p: Program, chain: Chain, ix: Instruction)
    requires Backed(chain)
    requires Execute(p, chain, ix).Ok?
    ensures Backed(Execute(p, chain, ix).value)
  {
    var chain' := Execute(p, chain, ix).value;
    if IsSettlement(ix) {
      SettlementTransfers(p, chain, ix);
      TransferKeepsBacked(chain, chain', ReceiptOf(ix));
    } else if ix.DepositIx? || ix.WithdrawIx? {
      MoveKeepsBacked(chain, chain', ix.trader, chain'.balances[ix.trader]);
    }
  }

  /** A withdrawal to the trader's own account succeeds exactly when its balance covers it: the vault never comes up
      short. */
  lemma WithdrawalsArePaid(p: Program, chain: Chain, t: Pubkey, asset: CustodyAsset, amount: U64, c: CustodyAccounts)
    requires Backed(chain)
    ensures Withdraw(p, chain, t, asset, amount, c).Ok? <==>
            && t in chain.balances && !chain.paused && amount > 0
            && RightAccounts(p, t, asset, c) && c.authority == p.vaultAuthority
            && amount <= (if asset == Base then chain.balances[t].base else chain.balances[t].quote)
  {
    if t in chain.balances {
      SumMapAtLeastOne(BaseHeld(), chain.balances, t);
      SumMapAtLeastOne(QuoteHeld(), chain.balances, t);
    }
  }

  // The trader's own account of the asset, and the market's vault for it.
  predicate RightAccounts(p: Program, t: Pubkey, asset: CustodyAsset, c: CustodyAccounts) {
    && c.mint == c.wallet.mint == c.vault.mint == p.Mint(asset)
    && c.wallet.owner == t
    && c.vault.key == p.Vault(asset) && c.vault.owner == p.vaultAuthority
  }

  /** A deposit is taken exactly when the trader has the tokens and the vault has room: its balance cannot overflow. */
  lemma DepositsAreTaken(
    p: Program, chain: Chain, t: Pubkey, asset: CustodyAsset, amount: U64, funds: U64, c: CustodyAccounts)
    requires Backed(chain)
    ensures Deposit(p, chain, t, asset, amount, funds, c).Ok? <==>
            && !chain.paused && 0 < amount <= funds && RightAccounts(p, t, asset, c)
            && (if asset == Base then chain.baseVault else chain.quoteVault) + amount < TWO_64
  {
    if t in chain.balances {
      SumMapAtLeastOne(BaseHeld(), chain.balances, t);
      SumMapAtLeastOne(QuoteHeld(), chain.balances, t);
    }
  }

  lemma TransferKeepsHistory(h: History, h': History, r: Receipt, t: Pubkey)
    requires HoldsHistory(h, t) && Transfers(h.chain, h'.chain, r)
    requires SumOf(WithdrawnBy(t, Base), h'.log) == SumOf(WithdrawnBy(t, Base), h.log)
    requires SumOf(WithdrawnBy(t, Quote), h'.log) == SumOf(WithdrawnBy(t, Quote), h.log)
    requires SumOf(DepositedBy(t, Base), h'.log) == SumOf(DepositedBy(t, Base), h.log)
    requires SumOf(DepositedBy(t, Quote), h'.log) == SumOf(DepositedBy(t, Quote), h.log)
    ensures HoldsHistory(h', t)
  {
    SumMapUpdate(BaseSold(t), h.chain.receipts, r.id, r);
    SumMapUpdate(BaseBought(t), h.chain.receipts, r.id, r);
    SumMapUpdate(QuotePaid(t), h.chain.receipts, r.id, r);
    SumMapUpdate(QuoteEarned(t), h.chain.receipts, r.id, r);
  }

  lemma TakeInMoves(chain: Chain, trader: Pubkey, asset: CustodyAsset, amount: U64, t: Pubkey)
    requires TakeIn(chain, trader, asset, amount).Ok?
    ensures var chain' := TakeIn(chain, trader, asset, amount).value;
            var b, b' := BalanceOr(chain, t), BalanceOr(chain', t);
            && b'.base == b.base + (if t == trader && asset == Base then amount else 0)
            && b'.quote == b.quote + (if t == trader && asset == Quote then amount else 0)
            && chain'.receipts == chain.receipts
  {
  }

  lemma PayOutMoves(chain: Chain, trader: Pubkey, asset: CustodyAsset, amount: U64, t: Pubkey)
    requires trader in chain.balances && PayOut(chain, trader, asset, amount).Ok?
    ensures var chain' := PayOut(chain, trader, asset, amount).value;
            var b, b' := BalanceOr(chain, t), BalanceOr(chain', t);
            && b.base == b'.base + (if t == trader && asset == Base then amount else 0)
            && b.quote == b'.quote + (if t == trader && asset == Quote then amount else 0)
            && chain'.receipts == chain.receipts
  {
  }

  lemma OtherMoves(p: Program, chain: Chain, ix: Instruction, t: Pubkey)
    requires !IsSettlement(ix) && Execute(p, chain, ix).Ok?
    ensures var b, b' := BalanceOr(chain, t), BalanceOr(Execute(p, chain, ix).value, t);
            && b'.base + WithdrawnBy(t, Base)(ix) == b.base + DepositedBy(t, Base)(ix)
            && b'.quote + WithdrawnBy(t, Quote)(ix) == b.quote + DepositedBy(t, Quote)(ix)
    ensures Execute(p, chain, ix).value.receipts == chain.receipts
  {
    match ix
    case DepositIx(trader, asset, amount, _, _) => TakeInMoves(chain, trader, asset, amount, t);
    case WithdrawIx(trader, asset, amount, _) => PayOutMoves(chain, trader, asset, amount, t);
    case _ =>
  }

  lemma ExecuteKeepsHistory(p: Program, h: History, ix: Instruction, t: Pubkey)
    requires HoldsHistory(h, t)
    requires Execute(p, h.chain, ix).Ok?
    ensures HoldsHistory(History(Execute(p, h.chain, ix).value, h.log + [ix]), t)
  {
    SumPush(WithdrawnBy(t, Base), h.log, ix);
    SumPush(WithdrawnBy(t, Quote), h.log, ix);
    SumPush(DepositedBy(t, Base), h.log, ix);
    SumPush(DepositedBy(t, Quote), h.log, ix);
    if IsSettlement(ix) {
      SettlementTransfers(p, h.chain, ix);
      TransferKeepsHistory(h, History(Execute(p, h.chain, ix).value, h.log + [ix]), ReceiptOf(ix), t);
    } else {
      OtherMoves(p, h.chain, ix, t);
    }
  }

  // Under a collision-free hash the two orders of a settlement have different fill-state accounts.
  lemma OrdersHaveOwnStates(p: Program, chain: Chain, ix: Instruction)
    requires CollisionFree(p) && ix.SettleSignedIx? && Execute(p, chain, ix).Ok?
    ensures ix.buyerHash != ix.sellerHash
  {
    SignedSettlement(p, chain, ix);
    if ix.buyerHash == ix.sellerHash {
      PreimageInjective(ix.args.buyerOrder, ix.args.sellerOrder);
    }
  }

  lemma ExecuteKeepsCounts(p: Program, chain: Chain, ix: Instruction, hash: Digest)
    requires p.market != DEFAULT_KEY && Keyed(p, chain) && CollisionFree(p)
    requires CountsReceipts(chain, hash) && hash != ZERO_DIGEST
    requires Execute(p, chain, ix).Ok?
    ensures CountsReceipts(Execute(p, chain, ix).value, hash)
  {
    FillsAfter(p, chain, ix);
    if IsSettlement(ix) {
      SettlementTransfers(p, chain, ix);
      SumMapUpdate(FilledBy(hash), chain.receipts, ix.id, ReceiptOf(ix));
      if ix.SettleSignedIx? {
        OrdersHaveOwnStates(p, chain, ix);
      }
    } else {
      OtherInstruction(p, chain, ix);
    }
  }

  lemma ExecuteKeepsWithin(p: Program, chain: Chain, ix: Instruction, o: SignedOrderPayload)
    requires p.market != DEFAULT_KEY && Keyed(p, chain) && CollisionFree(p)
    requires WithinSigned(p, chain, o)
    requires Execute(p, chain, ix).Ok?
    ensures WithinSigned(p, Execute(p, chain, ix).value, o)
  {
    FillsAfter(p, chain, ix);
    if ix.SettleSignedIx? {
      SignedSettlement(p, chain, ix);
      if p.sha256(Preimage(o)) == ix.sellerHash {
        PreimageInjective(o, ix.args.sellerOrder);
      } else if p.sha256(Preimage(o)) == ix.buyerHash {
        PreimageInjective(o, ix.args.buyerOrder);
      }
    }
  }

  ghost predicate EachIdOnce(h: History, id: U64) {
    SumOf(Settles(id), h.log) == if id in h.chain.receipts then 1 else 0
  }

  lemma ExecuteKeepsIds(p: Program, h: History, ix: Instruction, id: U64)
    requires EachIdOnce(h, id)
    requires Execute(p, h.chain, ix).Ok?
    ensures EachIdOnce(History(Execute(p, h.chain, ix).value, h.log + [ix]), id)
  {
    SumPush(Settles(id), h.log, ix);
    if IsSettlement(ix) {
      SettlementTransfers(p, h.chain, ix);
    } else {
      OtherMoves(p, h.chain, ix, DEFAULT_KEY);
    }
  }

  ghost predicate ChainSound(p: Program, h: History) {
    && Backed(h.chain)
    && Keyed(p, h.chain)
    && (forall t :: HoldsHistory(h, t))
    && (forall id :: EachIdOnce(h, id))
    && (CollisionFree(p) ==>
          && (forall hash | hash != ZERO_DIGEST :: CountsReceipts(h.chain, hash))
          && (forall o :: WithinSigned(p, h.chain, o)))
  }

  lemma ExecuteKeepsSound(p: Program, h: History, ix: Instruction)
    requires p.market != DEFAULT_KEY && ChainSound(p, h)
    requires Execute(p, h.chain, ix).Ok?
    ensures ChainSound(p, History(Execute(p, h.chain, ix).value, h.log + [ix]))
  {
    ExecuteKeepsBacked(p, h.chain, ix);
    ExecuteKeepsKeyed(p, h.chain, ix);
    var h' := History(Execute(p, h.chain, ix).value, h.log + [ix]);
    forall t ensures HoldsHistory(h', t) {
      ExecuteKeepsHistory(p, h, ix, t);
    }
    forall id ensures EachIdOnce(h', id) {
      ExecuteKeepsIds(p, h, ix, id);
    }
    if CollisionFree(p) {
      forall hash | hash != ZERO_DIGEST ensures CountsReceipts(h'.chain, hash) {
        ExecuteKeepsCounts(p, h.chain, ix, hash);
      }
      forall o ensures WithinSigned(p, h'.chain, o) {
        ExecuteKeepsWithin(p, h.chain, ix, o);
      }
    }
  }

  /** Over every run of instructions the on-chain ledger equals its history. */
  lemma {:induction false} ChainIsSound(p: Program, instructions: seq<Instruction>)
    requires p.market != DEFAULT_KEY
    ensures ChainSound(p, RunChain(p, instructions))
  {
    if instructions != [] {
      var init, ix := instructions[..|instructions| - 1], instructions[|instructions| - 1];
      ChainIsSound(p, init);
      if Execute(p, RunChain(p, init).chain, ix).Ok? {
        ExecuteKeepsSound(p, RunChain(p, init), ix);
      }
    }
  }

  // A trader cancels an order of its own, under that order's digest.
  predicate CancelsOwn(p: Program, ix: Instruction, hash: Digest) {
    && ix.CancelIx? && ix.hash == hash
    && ix.order.trader == ix.trader && ix.order.market == p.market
    && p.sha256(Preimage(ix.order)) == hash
  }

  predicate IsCancelled(chain: Chain, hash: Digest) {
    hash in chain.fills && chain.fills[hash].cancelled
  }

  // The log tells which fill states are cancelled, and by whom.
  ghost predicate CancelsTold(p: Program, h: History, hash: Digest) {
    IsCancelled(h.chain, hash) <==> exists ix :: ix in h.log && CancelsOwn(p, ix, hash)
  }

  lemma CancelChecks(p: Program, chain: Chain, ix: Instruction)
    requires ix.CancelIx? && Execute(p, chain, ix).Ok?
    ensures CancelsOwn(p, ix, ix.hash)
  {
  }

  lemma CancelledAfter(p: Program, chain: Chain, ix: Instruction, hash: Digest)
    requires p.market != DEFAULT_KEY && Keyed(p, chain) && Execute(p, chain, ix).Ok?
    ensures IsCancelled(Execute(p, chain, ix).value, hash) <==> IsCancelled(chain, hash) || CancelsOwn(p, ix, hash)
  {
    FillsAfter(p, chain, ix);
    if ix.CancelIx? {
      CancelChecks(p, chain, ix);
    }
  }

  lemma ExecuteKeepsCancels(p: Program, h: History, ix: Instruction, hash: Digest)
    requires p.market != DEFAULT_KEY && Keyed(p, h.chain) && CancelsTold(p, h, hash)
    requires Execute(p, h.chain, ix).Ok?
    ensures CancelsTold(p, History(Execute(p, h.chain, ix).value, h.log + [ix]), hash)
  {
    CancelledAfter(p, h.chain, ix, hash);
    assert forall x :: x in h.log + [ix] <==> x in h.log || x == ix;
  }

  /** Over every run: a fill state is cancelled exactly when a trader's own cancel of an order with that digest went
      through. */
  lemma {:induction false} OnlyOwnersCancel(p: Program, instructions: seq<Instruction>, hash: Digest)
    requires p.market != DEFAULT_KEY
    ensures CancelsTold(p, RunChain(p, instructions), hash)
  {
    if instructions != [] {
      var init, ix := instructions[..|instructions| - 1], instructions[|instructions| - 1];
      OnlyOwnersCancel(p, init, hash);
      ChainIsSound(p, init);
      if Execute(p, RunChain(p, init).chain, ix).Ok? {
        ExecuteKeepsCancels(p, RunChain(p, init), ix, hash);
      }
    }
  }

  /** Under a collision-free hash: an order of this market is cancelled exactly when its own trader cancelled it. */
  lemma {:induction false} CancelledByItsTrader(p: Program, instructions: seq<Instruction>, o: SignedOrderPayload)
    requires p.market != DEFAULT_KEY && CollisionFree(p)
    ensures var h, hash := RunChain(p, instructions), p.sha256(Preimage(o));
            IsCancelled(h.chain, hash) <==> o.market == p.market && CancelIx(o.trader, hash, o) in h.log
  {
    var h, hash := RunChain(p, instructions), p.sha256(Preimage(o));
    OnlyOwnersCancel(p, instructions, hash);
    if IsCancelled(h.chain, hash) {
      var ix :| ix in h.log && CancelsOwn(p, ix, hash);
      PreimageInjective(ix.order, o);
    }
    if o.market == p.market && CancelIx(o.trader, hash, o) in h.log {
      assert CancelsOwn(p, CancelIx(o.trader, hash, o), hash);
    }
  }

  /** Over every run: once an order is cancelled, nothing that comes after changes its fill state. */
  lemma {:induction false} CancelledForever(p: Program, before: seq<Instruction>, after: seq<Instruction>, hash: Digest)
    requires p.market != DEFAULT_KEY
    requires var fills := RunChain(p, before).chain.fills; hash in fills && fills[hash].cancelled
    ensures var fills := RunChain(p, before + after).chain.fills;
            hash in fills && fills[hash] == RunChain(p, before).chain.fills[hash]
  {
    if after == [] {
      assert before + after == before;
    } else {
      var init, ix := after[..|after| - 1], after[|after| - 1];
      assert before + after == before + init + [ix];
      assert (before + after)[..|before + after| - 1] == before + init;
      CancelledForever(p, before, init, hash);
      ChainIsSound(p, before + init);
      var chain := RunChain(p, before + init).chain;
      if Execute(p, chain, ix).Ok? {
        CancelledIsFrozen(p, chain, ix, hash);
      }
    }
  }
}
