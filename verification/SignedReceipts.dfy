/** What signatures guarantee on-chain: nothing moves between traders beyond what both of them signed. */
module SignedReceipts {
  import opened Types
  import opened Preimages
  import opened SettlementModel
  import opened SettlementTypes
  import opened Ed25519Check
  import opened SettlementLaws

  // The trader signed this order for this market, and the digest is its digest.
  predicate SignedBy(p: Program, o: SignedOrderPayload, trader: Pubkey, s: Signature, hash: Digest) {
    && o.market == p.market && o.trader == trader
    && hash == p.sha256(Preimage(o))
    && p.verifies(trader, Preimage(o), s)
  }

  // The quantity, and the amount paid for it, respect the limits of a buying and a selling order.
  predicate WithinLimits(bid: SignedOrderPayload, ask: SignedOrderPayload, base: U64, quote: U64) {
    && bid.side == Bid && ask.side == Ask
    && 0 < base <= bid.quantity && base <= ask.quantity
    && ask.price * base <= quote <= bid.price * base
  }

  ghost predicate BackedBySignatures(p: Program, r: Receipt) {
    exists bid, ask, s, t ::
      && SignedBy(p, bid, r.buyer, s, r.buyerHash)
      && SignedBy(p, ask, r.seller, t, r.sellerHash)
      && WithinLimits(bid, ask, r.base, r.quote)
  }

  // A receipt comes from an unsigned settlement of the market's authority, or two signed orders stand behind it.
  ghost predicate ReceiptsAreSigned(p: Program, chain: Chain) {
    forall id | id in chain.receipts ::
      var r := chain.receipts[id];
      (r.buyerHash == ZERO_DIGEST && r.sellerHash == ZERO_DIGEST) || BackedBySignatures(p, r)
  }

  lemma PriceTimesQuantity(low: nat, price: nat, high: nat, quantity: nat)
    requires low <= price <= high
    ensures low * quantity <= price * quantity <= high * quantity
  {
    assert (price - low) * quantity >= 0 && (high - price) * quantity >= 0;
  }

  // A check that passes after the transaction got this far is a valid signature.
  lemma PassedIsVerified(p: Program, ix: PriorInstruction, pubkey: Pubkey, signature: Signature, message: seq<Byte>)
    requires Succeeds(p, ix) && VerifyEd25519Instruction(ix, pubkey, signature, message).Ok?
    ensures p.verifies(pubkey, message, signature)
  {
    PassesWhatWasVerified(ix, pubkey, signature, message);
  }

  lemma SignaturesVerified(
    p: Program, earlier: seq<PriorInstruction>, buyer: Pubkey, seller: Pubkey, a: SignedFillArgs)
    requires forall i | 0 <= i < |earlier| :: Succeeds(p, earlier[i])
    requires VerifySignatures(earlier, buyer, seller, a).Ok?
    ensures p.verifies(buyer, Preimage(a.buyerOrder), a.buyerSignature)
    ensures p.verifies(seller, Preimage(a.sellerOrder), a.sellerSignature)
  {
    var n := |earlier|;
    PassedIsVerified(p, earlier[n - 2], buyer, a.buyerSignature, Preimage(a.buyerOrder));
    PassedIsVerified(p, earlier[n - 1], seller, a.sellerSignature, Preimage(a.sellerOrder));
  }

  // What a signed settlement has checked by the time it moves anything.
  lemma ChecksDone(p: Program, chain: Chain, ix: Instruction)
    requires ix.SettleSignedIx? && Execute(p, chain, ix).Ok?
    ensures var a := ix.args;
            && ix.caller == p.authority && !chain.paused
            && ValidPayload(a.buyerOrder, p.market, ix.buyer) && ValidPayload(a.sellerOrder, p.market, ix.seller)
            && a.buyerOrder.side == Bid && a.sellerOrder.side == Ask
            && a.fillQuantity > 0 && ValidateFillRules(a, ix.slot).Ok?
            && SignedBy(p, a.buyerOrder, ix.buyer, a.buyerSignature, ix.buyerHash)
            && SignedBy(p, a.sellerOrder, ix.seller, a.sellerSignature, ix.sellerHash)
  {
    assert ValidateSigned(p, chain, ix.slot, ix.earlier, ix.id, ix.buyerHash, ix.sellerHash,
                          ix.buyer, ix.seller, ix.args).Ok?;
    SignaturesVerified(p, ix.earlier, ix.buyer, ix.seller, ix.args);
  }

  lemma SettlementIsSigned(p: Program, chain: Chain, ix: Instruction)
    requires ix.SettleSignedIx? && Execute(p, chain, ix).Ok?
    ensures 0 <= ix.args.fillPrice * ix.args.fillQuantity < TWO_64
    ensures BackedBySignatures(p, ReceiptOf(ix))
  {
    var a := ix.args;
    SettlementTransfers(p, chain, ix);
    ChecksDone(p, chain, ix);
    PriceTimesQuantity(a.sellerOrder.price, a.fillPrice, a.buyerOrder.price, a.fillQuantity);
    assert WithinLimits(a.buyerOrder, a.sellerOrder, a.fillQuantity, a.fillPrice * a.fillQuantity);
  }

  lemma ExecuteKeepsSigned(p: Program, chain: Chain, ix: Instruction)
    requires ReceiptsAreSigned(p, chain)
    requires Execute(p, chain, ix).Ok?
    ensures ReceiptsAreSigned(p, Execute(p, chain, ix).value)
  {
    if IsSettlement(ix) {
      SettlementTransfers(p, chain, ix);
      if ix.SettleSignedIx? {
        SettlementIsSigned(p, chain, ix);
      }
    } else {
      OtherMoves(p, chain, ix, DEFAULT_KEY);
    }
  }

  /** Over every run: both traders behind a signed receipt signed orders that allow its quantity and its price. */
  lemma {:induction false} EveryReceiptIsSigned(p: Program, instructions: seq<Instruction>)
    ensures ReceiptsAreSigned(p, RunChain(p, instructions).chain)
  {
    if instructions != [] {
      var init, ix := instructions[..|instructions| - 1], instructions[|instructions| - 1];
      EveryReceiptIsSigned(p, init);
      if Execute(p, RunChain(p, init).chain, ix).Ok? {
        ExecuteKeepsSigned(p, RunChain(p, init).chain, ix);
      }
    }
  }
}
